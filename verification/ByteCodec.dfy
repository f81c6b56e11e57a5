/** The byte layout shared by the chunk payloads: little-endian numbers, fixed-size and length-prefixed byte strings,
    and counted lists of records. */
module ByteCodec {
  import opened Wrappers

  type Byte = n: nat | n < 256

  type Bytes = seq<Byte>

  /** `Number(4)` and `Number(8)` are the u32 and u64 of the payloads, `Blob` a byte string behind its u32 length. */
  datatype Field = Number(width: nat) | Fixed(size: nat) | Blob

  datatype Value = Num(value: nat) | Raw(bytes: Bytes)

  type Layout = seq<Field>

  type Record = seq<Value>

  datatype Error =
    PayloadTooLarge | UnexpectedEnd | TrailingBytes(count: nat) | RowCountMismatch | RootMismatch | TooManyLeaves
                 | MissingTimestamp(block: nat) | UnknownSection(id: nat) | SectionOutside

  // ---------------------------------------------------------------------------------------------
  // Numbers
  // ---------------------------------------------------------------------------------------------

  function Pow256(width: nat): nat {
    if width == 0 then 1 else 256 * Pow256(width - 1)
  }

  function ToLittleEndian(n: nat, width: nat): (r: Bytes)
    ensures |r| == width
  {
    if width == 0 then [] else [n % 256] + ToLittleEndian(n / 256, width - 1)
  }

  function FromLittleEndian(bytes: Bytes): nat {
    if bytes == [] then 0 else bytes[0] + 256 * FromLittleEndian(bytes[1..])
  }

  lemma {:induction false} NumberRoundTrip(n: nat, width: nat)
    requires n < Pow256(width)
    ensures FromLittleEndian(ToLittleEndian(n, width)) == n
  {
    if width > 0 {
      NumberRoundTrip(n / 256, width - 1);
      assert ToLittleEndian(n, width)[1..] == ToLittleEndian(n / 256, width - 1);
    }
  }

  lemma {:induction false} BytesRoundTrip(bytes: Bytes)
    ensures FromLittleEndian(bytes) < Pow256(|bytes|)
    ensures ToLittleEndian(FromLittleEndian(bytes), |bytes|) == bytes
  {
    if bytes != [] {
      BytesRoundTrip(bytes[1..]);
      var n := FromLittleEndian(bytes);
      assert n % 256 == bytes[0] && n / 256 == FromLittleEndian(bytes[1..]);
      assert bytes == [bytes[0]] + bytes[1..];
    }
  }

  // ---------------------------------------------------------------------------------------------
  // Fields
  // ---------------------------------------------------------------------------------------------

  /** The value has the type of the field. */
  predicate Typed(field: Field, value: Value) {
    match field
    case Number(width) => value.Num? && value.value < Pow256(width)
    case Fixed(size) => value.Raw? && |value.bytes| == size
    case Blob => value.Raw?
  }

  /** A blob must have a length that its prefix can hold. */
  predicate Writable(field: Field, value: Value) {
    Typed(field, value) && (field.Blob? ==> |value.bytes| < Pow256(4))
  }

  function FieldBytes(field: Field, value: Value): Bytes
    requires Typed(field, value)
  {
    match field
    case Number(width) => ToLittleEndian(value.value, width)
    case Fixed(size) => value.bytes
    case Blob => ToLittleEndian(|value.bytes|, 4) + value.bytes
  }

  function TakeExact(n: nat, bytes: Bytes): Option<(Bytes, Bytes)> {
    if n <= |bytes| then Some((bytes[..n], bytes[n..])) else None
  }

  /** Reads a field off the front of the bytes. */
  function TakeField(field: Field, bytes: Bytes): Option<(Value, Bytes)> {
    match field
    case Number(width) =>
      (match TakeExact(width, bytes)
       case None => None
       case Some((taken, rest)) => Some((Num(FromLittleEndian(taken)), rest)))
    case Fixed(size) =>
      (match TakeExact(size, bytes)
       case None => None
       case Some((taken, rest)) => Some((Raw(taken), rest)))
    case Blob =>
      match TakeExact(4, bytes)
      case None => None
      case Some((length, after)) =>
        match TakeExact(FromLittleEndian(length), after)
        case None => None
        case Some((taken, rest)) => Some((Raw(taken), rest))
  }

  lemma TakeWritten(field: Field, value: Value, rest: Bytes)
    requires Writable(field, value)
    ensures TakeField(field, FieldBytes(field, value) + rest) == Some((value, rest))
  {
    hide Pow256, ToLittleEndian, FromLittleEndian;
    var bytes := FieldBytes(field, value) + rest;
    match field
    case Number(width) =>
      NumberRoundTrip(value.value, width);
      assert bytes[..width] == ToLittleEndian(value.value, width) && bytes[width..] == rest;
    case Fixed(size) =>
      assert bytes[..size] == value.bytes && bytes[size..] == rest;
    case Blob =>
      NumberRoundTrip(|value.bytes|, 4);
      var after := value.bytes + rest;
      assert bytes[..4] == ToLittleEndian(|value.bytes|, 4) && bytes[4..] == after;
      assert after[..|value.bytes|] == value.bytes && after[|value.bytes|..] == rest;
  }

  lemma WrittenTaken(field: Field, bytes: Bytes)
    requires TakeField(field, bytes).Some?
    ensures var (value, rest) := TakeField(field, bytes).value;
            Writable(field, value) && bytes == FieldBytes(field, value) + rest
  {
    hide Pow256, ToLittleEndian, FromLittleEndian;
    match field
    case Number(width) =>
      BytesRoundTrip(bytes[..width]);
    case Fixed(size) =>
    case Blob =>
      BytesRoundTrip(bytes[..4]);
      var after := bytes[4..];
      var n := FromLittleEndian(bytes[..4]);
      assert after == after[..n] + after[n..];
  }

  // ---------------------------------------------------------------------------------------------
  // Records
  // ---------------------------------------------------------------------------------------------

  predicate TypedRecord(layout: Layout, record: Record) {
    |record| == |layout| && forall i :: 0 <= i < |layout| ==> Typed(layout[i], record[i])
  }

  predicate WritableRecord(layout: Layout, record: Record) {
    |record| == |layout| && forall i :: 0 <= i < |layout| ==> Writable(layout[i], record[i])
  }

  function RecordBytes(layout: Layout, record: Record): Bytes
    requires TypedRecord(layout, record)
  {
    if layout == [] then []
    else RecordBytes(layout[..|layout| - 1], record[..|layout| - 1])
         + FieldBytes(layout[|layout| - 1], record[|layout| - 1])
  }

  function TakeRecord(layout: Layout, bytes: Bytes): Option<(Record, Bytes)> {
    if layout == [] then Some(([], bytes))
    else
      match TakeRecord(layout[..|layout| - 1], bytes)
      case None => None
      case Some((record, after)) =>
        match TakeField(layout[|layout| - 1], after)
        case None => None
        case Some((value, rest)) => Some((record + [value], rest))
  }

  lemma WritableTypedRecord(layout: Layout, record: Record)
    requires WritableRecord(layout, record)
    ensures TypedRecord(layout, record)
  {
  }

  lemma RecordSnoc(layout: Layout, record: Record, field: Field, value: Value)
    requires WritableRecord(layout, record) && TypedRecord(layout, record) && Writable(field, value)
             && Typed(field, value)
    ensures WritableRecord(layout + [field], record + [value]) && TypedRecord(layout + [field], record + [value])
    ensures RecordBytes(layout + [field], record + [value]) == RecordBytes(layout, record) + FieldBytes(field, value)
  {
    hide Writable, Typed, FieldBytes;
    assert (layout + [field])[..|layout|] == layout && (record + [value])[..|layout|] == record;
  }

  lemma TakeRecordSnoc(layout: Layout, field: Field, bytes: Bytes, record: Record, after: Bytes, value: Value,
                       rest: Bytes)
    requires TakeRecord(layout, bytes) == Some((record, after)) && TakeField(field, after) == Some((value, rest))
    ensures TakeRecord(layout + [field], bytes) == Some((record + [value], rest))
  {
    hide TakeField;
    assert (layout + [field])[..|layout|] == layout;
  }

  lemma Associates(a: Bytes, b: Bytes, c: Bytes)
    ensures (a + b) + c == a + (b + c)
  {
  }

  lemma TakeWrittenSnoc(layout: Layout, record: Record, field: Field, value: Value, rest: Bytes)
    requires WritableRecord(layout, record) && TypedRecord(layout, record) && Writable(field, value)
             && Typed(field, value)
    requires TakeRecord(layout, RecordBytes(layout, record) + (FieldBytes(field, value) + rest))
             == Some((record, FieldBytes(field, value) + rest))
    ensures WritableRecord(layout + [field], record + [value]) && TypedRecord(layout + [field], record + [value])
    ensures TakeRecord(layout + [field], RecordBytes(layout + [field], record + [value]) + rest)
            == Some((record + [value], rest))
  {
    hide TakeField, FieldBytes, Writable, Typed, RecordBytes, TakeRecord, WritableRecord, TypedRecord;
    var last := FieldBytes(field, value);
    var bytes := RecordBytes(layout, record);
    TakeWritten(field, value, rest);
    TakeRecordSnoc(layout, field, bytes + (last + rest), record, last + rest, value, rest);
    RecordSnoc(layout, record, field, value);
    Associates(bytes, last, rest);
  }

  lemma {:induction false} TakeWrittenRecord(layout: Layout, record: Record, rest: Bytes)
    requires WritableRecord(layout, record)
    ensures TypedRecord(layout, record)
    ensures TakeRecord(layout, RecordBytes(layout, record) + rest) == Some((record, rest))
  {
    hide TakeField, FieldBytes, Writable, Typed, RecordBytes, TakeRecord, WritableRecord, TypedRecord;
    WritableTypedRecord(layout, record);
    if layout == [] {
      TakeNothing(record, rest);
    } else {
      var n := |layout| - 1;
      WritableInit(layout, record);
      TakeWrittenRecord(layout[..n], record[..n], FieldBytes(layout[n], record[n]) + rest);
      TakeWrittenSnoc(layout[..n], record[..n], layout[n], record[n], rest);
      assert layout == layout[..n] + [layout[n]] && record == record[..n] + [record[n]];
    }
  }

  lemma TakeNothing(record: Record, rest: Bytes)
    requires TypedRecord([], record)
    ensures TakeRecord([], RecordBytes([], record) + rest) == Some((record, rest))
  {
    assert RecordBytes([], record) + rest == rest;
  }

  lemma WritableInit(layout: Layout, record: Record)
    requires WritableRecord(layout, record) && layout != []
    ensures var n := |layout| - 1;
            && |record| == |layout| && WritableRecord(layout[..n], record[..n])
            && Writable(layout[n], record[n]) && Typed(layout[n], record[n])
  {
  }

  lemma {:induction false} WrittenTakenRecord(layout: Layout, bytes: Bytes)
    requires TakeRecord(layout, bytes).Some?
    ensures var (record, rest) := TakeRecord(layout, bytes).value;
            WritableRecord(layout, record) && TypedRecord(layout, record) && bytes == RecordBytes(layout, record) + rest
  {
    if layout != [] {
      var n := |layout| - 1;
      WrittenTakenRecord(layout[..n], bytes);
      var (record, after) := TakeRecord(layout[..n], bytes).value;
      WrittenTaken(layout[n], after);
      var (value, rest) := TakeField(layout[n], after).value;
      assert Typed(layout[n], value);
      hide TakeField, FieldBytes, Typed, Writable, RecordBytes, WritableRecord, TypedRecord;
      RecordSnoc(layout[..n], record, layout[n], value);
      assert layout == layout[..n] + [layout[n]];
      assert TakeRecord(layout, bytes) == Some((record + [value], rest));
      assert bytes == RecordBytes(layout[..n], record) + FieldBytes(layout[n], value) + rest;
    }
  }

  // ---------------------------------------------------------------------------------------------
  // Counted lists
  // ---------------------------------------------------------------------------------------------

  predicate TypedRecords(layout: Layout, records: seq<Record>) {
    forall i :: 0 <= i < |records| ==> TypedRecord(layout, records[i])
  }

  predicate WritableRecords(layout: Layout, records: seq<Record>) {
    forall i :: 0 <= i < |records| ==> WritableRecord(layout, records[i])
  }

  function RecordsBytes(layout: Layout, records: seq<Record>): Bytes
    requires TypedRecords(layout, records)
  {
    if records == [] then []
      else RecordsBytes(layout, records[..|records| - 1]) + RecordBytes(layout, records[|records| - 1])
  }

  function TakeRecords(layout: Layout, count: nat, bytes: Bytes): Option<(seq<Record>, Bytes)> {
    if count == 0 then Some(([], bytes))
    else
      match TakeRecords(layout, count - 1, bytes)
      case None => None
      case Some((records, after)) =>
        match TakeRecord(layout, after)
        case None => None
        case Some((record, rest)) => Some((records + [record], rest))
  }

  lemma {:induction false} TakeWrittenRecords(layout: Layout, records: seq<Record>, rest: Bytes)
    requires WritableRecords(layout, records) && TypedRecords(layout, records)
    ensures TakeRecords(layout, |records|, RecordsBytes(layout, records) + rest) == Some((records, rest))
  {
    hide TakeRecord, RecordBytes, WritableRecord, TypedRecord;
    if records != [] {
      var n := |records| - 1;
      TakeWrittenRecords(layout, records[..n], RecordBytes(layout, records[n]) + rest);
      TakeWrittenRecord(layout, records[n], rest);
      assert RecordsBytes(layout, records) + rest
             == RecordsBytes(layout, records[..n]) + (RecordBytes(layout, records[n]) + rest);
      assert records == records[..n] + [records[n]];
    } else {
      assert RecordsBytes(layout, records) + rest == rest;
    }
  }

  lemma {:induction false} WrittenTakenRecords(layout: Layout, count: nat, bytes: Bytes)
    requires TakeRecords(layout, count, bytes).Some?
    ensures var (records, rest) := TakeRecords(layout, count, bytes).value;
            && |records| == count && WritableRecords(layout, records) && TypedRecords(layout, records)
            && bytes == RecordsBytes(layout, records) + rest
  {
    hide TakeRecord, RecordBytes, WritableRecord, TypedRecord;
    if count > 0 {
      WrittenTakenRecords(layout, count - 1, bytes);
      var (records, after) := TakeRecords(layout, count - 1, bytes).value;
      WrittenTakenRecord(layout, after);
      var (record, rest) := TakeRecord(layout, after).value;
      assert (records + [record])[..count - 1] == records;
    }
  }

  /** A section: the number of records as a u64, and the records. */
  function SectionBytes(layout: Layout, records: seq<Record>): Bytes
    requires TypedRecords(layout, records)
  {
    ToLittleEndian(|records|, 8) + RecordsBytes(layout, records)
  }

  predicate WritableSection(layout: Layout, records: seq<Record>) {
    |records| < Pow256(8) && WritableRecords(layout, records)
  }

  function TakeSection(layout: Layout, bytes: Bytes): Option<(seq<Record>, Bytes)> {
    match TakeField(Number(8), bytes)
    case None => None
    case Some((count, rest)) => if count.Num? then TakeRecords(layout, count.value, rest) else None
  }

  /** Reading a section inverts writing it, whatever follows. */
  lemma SectionRoundTrip(layout: Layout, records: seq<Record>, rest: Bytes)
    requires WritableSection(layout, records) && TypedRecords(layout, records)
    ensures TakeSection(layout, SectionBytes(layout, records) + rest) == Some((records, rest))
  {
    hide TakeField, RecordsBytes, TakeRecords, WritableRecords, TypedRecords, Pow256;
    var count := Num(|records|);
    TakeWritten(Number(8), count, RecordsBytes(layout, records) + rest);
    assert SectionBytes(layout, records) + rest
           == FieldBytes(Number(8), count) + (RecordsBytes(layout, records) + rest);
    TakeWrittenRecords(layout, records, rest);
  }

  /** And what is read could only have been written like that. */
  lemma SectionOnlyFrom(layout: Layout, bytes: Bytes)
    requires TakeSection(layout, bytes).Some?
    ensures var (records, rest) := TakeSection(layout, bytes).value;
            && WritableSection(layout, records) && TypedRecords(layout, records)
            && bytes == SectionBytes(layout, records) + rest
  {
    WrittenTaken(Number(8), bytes);
    var (count, after) := TakeField(Number(8), bytes).value;
    hide TakeField, RecordsBytes, TakeRecords, WritableRecords, TypedRecords, Pow256;
    WrittenTakenRecords(layout, count.value, after);
    var (records, rest) := TakeSection(layout, bytes).value;
    assert bytes == ToLittleEndian(|records|, 8) + (RecordsBytes(layout, records) + rest);
  }
}
