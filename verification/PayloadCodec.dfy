/** Writing and reading the chunk payloads: commitment records, wallet-scan sections and Merkle checkpoints. */
module PayloadCodec {
  import opened Wrappers
  import opened ByteCodec

  // ---------------------------------------------------------------------------------------------
  // The reader
  // ---------------------------------------------------------------------------------------------

  class Cursor {
    const bytes: Bytes
    var position: nat

    ghost predicate Valid()
      reads this
    {
      position <= |bytes|
    }

    function Rest(): Bytes
      requires Valid()
      reads this
    {
      bytes[position..]
    }

    constructor (bytes: Bytes)
      ensures Valid() && this.bytes == bytes && position == 0 && Rest() == bytes
    {
      this.bytes, position := bytes, 0;
    }

    method ReadExact(n: nat) returns (r: Result<Bytes, Error>)
      requires Valid()
      modifies this
      ensures Valid()
      ensures match TakeExact(n, old(Rest()))
              case None => r == Err(UnexpectedEnd) && position == old(position)
              case Some((taken, rest)) => r == Ok(taken) && Rest() == rest
    {
      if position + n > |bytes| {
        return Err(UnexpectedEnd);
      }
      var taken := bytes[position..position + n];
      assert taken == Rest()[..n];
      position := position + n;
      return Ok(taken);
    }

    method ReadField(field: Field) returns (r: Result<Value, Error>)
      requires Valid()
      modifies this
      ensures Valid()
      ensures match TakeField(field, old(Rest()))
              case None => r == Err(UnexpectedEnd)
              case Some((value, rest)) => r == Ok(value) && Rest() == rest
    {
      hide FromLittleEndian;
      match field
      case Number(width) =>
        var taken := ReadExact(width);
        return if taken.Ok? then Ok(Num(FromLittleEndian(taken.value))) else Err(taken.error);
      case Fixed(size) =>
        var taken := ReadExact(size);
        return if taken.Ok? then Ok(Raw(taken.value)) else Err(taken.error);
      case Blob =>
        var length := ReadExact(4);
        if length.Err? {
          return Err(length.error);
        }
        var taken := ReadExact(FromLittleEndian(length.value));
        return if taken.Ok? then Ok(Raw(taken.value)) else Err(taken.error);
    }

    method ReadRecord(layout: Layout) returns (r: Result<Record, Error>)
      requires Valid()
      modifies this
      ensures Valid()
      ensures match TakeRecord(layout, old(Rest()))
              case None => r == Err(UnexpectedEnd)
              case Some((record, rest)) => r == Ok(record) && Rest() == rest
    {
      hide TakeField;
      var record: Record := [];
      ghost var start := Rest();
      for i := 0 to |layout|
        invariant Valid()
        invariant TakeRecord(layout[..i], start) == Some((record, Rest()))
      {
        assert layout[..i + 1][..i] == layout[..i];
        var value := ReadField(layout[i]);
        if value.Err? {
          RecordStops(layout, start, i + 1);
          return Err(value.error);
        }
        record := record + [value.value];
      }
      assert layout[..|layout|] == layout;
      return Ok(record);
    }

    method ReadRecords(layout: Layout, count: nat) returns (r: Result<seq<Record>, Error>)
      requires Valid()
      modifies this
      ensures Valid()
      ensures match TakeRecords(layout, count, old(Rest()))
              case None => r == Err(UnexpectedEnd)
              case Some((records, rest)) => r == Ok(records) && Rest() == rest
    {
      hide TakeRecord;
      var records: seq<Record> := [];
      ghost var start := Rest();
      for i := 0 to count
        invariant Valid()
        invariant TakeRecords(layout, i, start) == Some((records, Rest()))
      {
        var record := ReadRecord(layout);
        if record.Err? {
          RecordsStop(layout, count, start, i + 1);
          return Err(record.error);
        }
        records := records + [record.value];
      }
      return Ok(records);
    }

    method ReadSection(layout: Layout) returns (r: Result<seq<Record>, Error>)
      requires Valid()
      modifies this
      ensures Valid()
      ensures match TakeSection(layout, old(Rest()))
              case None => r == Err(UnexpectedEnd)
              case Some((records, rest)) => r == Ok(records) && Rest() == rest
    {
      hide TakeRecords, FromLittleEndian;
      var count := ReadField(Number(8));
      if count.Err? {
        return Err(count.error);
      }
      r := ReadRecords(layout, count.value.value);
    }

    method ExpectEnd() returns (r: Result<(), Error>)
      requires Valid()
      ensures r == if Rest() == [] then Ok(()) else Err(TrailingBytes(|Rest()|))
    {
      return if position != |bytes| then Err(TrailingBytes(|bytes| - position)) else Ok(());
    }
  }

  lemma {:induction false} RecordStops(layout: Layout, bytes: Bytes, i: nat)
    requires i <= |layout| && TakeRecord(layout[..i], bytes).None?
    ensures TakeRecord(layout, bytes).None?
    decreases |layout| - i
  {
    hide TakeField;
    if i < |layout| {
      assert layout[..i + 1][..i] == layout[..i];
      RecordStops(layout, bytes, i + 1);
    } else {
      assert layout[..i] == layout;
    }
  }

  lemma {:induction false} RecordsStop(layout: Layout, count: nat, bytes: Bytes, i: nat)
    requires i <= count && TakeRecords(layout, i, bytes).None?
    ensures TakeRecords(layout, count, bytes).None?
    decreases count - i
  {
    hide TakeRecord;
    if i < count {
      RecordsStop(layout, count, bytes, i + 1);
    }
  }

  // ---------------------------------------------------------------------------------------------
  // The writer
  // ---------------------------------------------------------------------------------------------

  method WriteField(bytes: Bytes, field: Field, value: Value) returns (r: Result<Bytes, Error>)
    requires Typed(field, value)
    ensures r == if Writable(field, value) then Ok(bytes + FieldBytes(field, value)) else Err(PayloadTooLarge)
  {
    hide Pow256, ToLittleEndian;
    match field
    case Number(width) => return Ok(bytes + ToLittleEndian(value.value, width));
    case Fixed(size) => return Ok(bytes + value.bytes);
    case Blob =>
      if |value.bytes| >= Pow256(4) {
        return Err(PayloadTooLarge);
      }
      var written := bytes + ToLittleEndian(|value.bytes|, 4) + value.bytes;
      assert written == bytes + (ToLittleEndian(|value.bytes|, 4) + value.bytes);
      return Ok(written);
  }

  method WriteRecord(bytes: Bytes, layout: Layout, record: Record) returns (r: Result<Bytes, Error>)
    requires TypedRecord(layout, record)
    ensures r == if WritableRecord(layout, record) then Ok(bytes + RecordBytes(layout, record))
            else Err(PayloadTooLarge)
  {
    hide Typed, Writable, FieldBytes;
    var written := bytes;
    for i := 0 to |layout|
      invariant forall k :: 0 <= k < i ==> Writable(layout[k], record[k])
      invariant TypedRecord(layout[..i], record[..i]) && written == bytes + RecordBytes(layout[..i], record[..i])
    {
      assert layout[..i + 1][..i] == layout[..i] && record[..i + 1][..i] == record[..i];
      var next := WriteField(written, layout[i], record[i]);
      if next.Err? {
        return Err(next.error);
      }
      assert next.value == bytes + (RecordBytes(layout[..i], record[..i]) + FieldBytes(layout[i], record[i]));
      written := next.value;
    }
    assert layout[..|layout|] == layout && record[..|layout|] == record;
    return Ok(written);
  }

  /** Appends a counted list of records. */
  method WriteSection(bytes: Bytes, layout: Layout, records: seq<Record>) returns (r: Result<Bytes, Error>)
    requires TypedRecords(layout, records)
    ensures r == if WritableSection(layout, records) then Ok(bytes + SectionBytes(layout, records))
            else Err(PayloadTooLarge)
  {
    hide Pow256, ToLittleEndian, RecordBytes, WritableRecord, TypedRecord;
    if |records| >= Pow256(8) {
      return Err(PayloadTooLarge);
    }
    var count := ToLittleEndian(|records|, 8);
    var written := bytes + count;
    assert written == bytes + (count + []);
    for i := 0 to |records|
      invariant forall k :: 0 <= k < i ==> WritableRecord(layout, records[k])
      invariant written == bytes + (count + RecordsBytes(layout, records[..i]))
    {
      assert records[..i + 1][..i] == records[..i];
      var next := WriteRecord(written, layout, records[i]);
      if next.Err? {
        return Err(next.error);
      }
      assert next.value == bytes + (count + (RecordsBytes(layout, records[..i]) + RecordBytes(layout, records[i])));
      written := next.value;
    }
    assert records[..|records|] == records;
    return Ok(written);
  }

  // ---------------------------------------------------------------------------------------------
  // Commitment payloads
  // ---------------------------------------------------------------------------------------------

  /** Global position, block number, family, tree number, tree position and commitment hash. */
  const COMMITMENT: Layout := [Number(8), Number(8), Number(1), Number(4), Number(8), Fixed(32)]

  function ParseRecords(layout: Layout, payload: Bytes, rowCount: nat): Result<seq<Record>, Error> {
    match TakeSection(layout, payload)
    case None => Err(UnexpectedEnd)
    case Some((records, rest)) =>
      if rest != [] then Err(TrailingBytes(|rest|))
      else if |records| != rowCount then Err(RowCountMismatch)
      else Ok(records)
  }

  method EncodeCommitments(rows: seq<Record>) returns (r: Result<Bytes, Error>)
    requires TypedRecords(COMMITMENT, rows)
    ensures r.Ok? <==> |rows| < Pow256(8)
    ensures r.Ok? ==> ParseRecords(COMMITMENT, r.value, |rows|) == Ok(rows)
  {
    r := WriteSection([], COMMITMENT, rows);
    NoBlobs(COMMITMENT, rows);
    hide TypedRecords, WritableRecords, TakeSection, Pow256;
    if r.Ok? {
      PayloadRoundTrip(COMMITMENT, rows);
      assert r.value == SectionBytes(COMMITMENT, rows);
    }
  }

  lemma NoBlobs(layout: Layout, rows: seq<Record>)
    requires Blob !in layout && TypedRecords(layout, rows)
    ensures WritableRecords(layout, rows)
  {
    hide Pow256;
    forall i | 0 <= i < |rows| ensures WritableRecord(layout, rows[i]) {
      assert TypedRecord(layout, rows[i]);
      forall k | 0 <= k < |layout| ensures Writable(layout[k], rows[i][k]) {
        assert layout[k] in layout;
      }
    }
  }

  method ParseCommitmentPayload(payload: Bytes, rowCount: nat) returns (r: Result<seq<Record>, Error>)
    ensures r == ParseRecords(COMMITMENT, payload, rowCount)
  {
    hide TakeSection;
    var cursor := new Cursor(payload);
    var rows := cursor.ReadSection(COMMITMENT);
    if rows.Err? {
      return Err(rows.error);
    }
    var end := cursor.ExpectEnd();
    if end.Err? {
      return Err(end.error);
    }
    return if |rows.value| != rowCount then Err(RowCountMismatch) else Ok(rows.value);
  }

  lemma PayloadRoundTrip(layout: Layout, records: seq<Record>)
    requires WritableSection(layout, records) && TypedRecords(layout, records)
    ensures ParseRecords(layout, SectionBytes(layout, records), |records|) == Ok(records)
  {
    SectionRoundTrip(layout, records, []);
    assert SectionBytes(layout, records) + [] == SectionBytes(layout, records);
  }

  /** A payload reads back as these rows exactly when it is what the encoder writes for them. */
  lemma PayloadExact(layout: Layout, payload: Bytes, rowCount: nat, records: seq<Record>)
    ensures ParseRecords(layout, payload, rowCount) == Ok(records) <==>
            && WritableSection(layout, records) && TypedRecords(layout, records)
            && payload == SectionBytes(layout, records) && rowCount == |records|
  {
    if ParseRecords(layout, payload, rowCount) == Ok(records) {
      SectionOnlyFrom(layout, payload);
      hide TakeSection, WritableSection, TypedRecords;
      assert SectionBytes(layout, records) + [] == SectionBytes(layout, records);
    }
    if WritableSection(layout, records) && TypedRecords(layout, records) {
      PayloadRoundTrip(layout, records);
    }
  }
}
