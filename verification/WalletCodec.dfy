/** The wallet-scan payload with its section table, and the Merkle checkpoint payload. */
module WalletCodec {
  import opened Wrappers
  import opened ByteCodec
  import opened PayloadCodec

  // ---------------------------------------------------------------------------------------------
  // Wallet-scan rows
  // ---------------------------------------------------------------------------------------------

  /** Block number, block timestamp and transaction hash. */
  const SOURCE: Layout := [Number(8), Number(8), Fixed(32)]

  const TRANSACT: Layout := [Number(4), Number(8), Fixed(32), Blob]

  const SHIELD: Layout := [Number(4), Number(8), Fixed(32), Blob, Blob]

  const NULLIFIER: Layout := [Number(4), Fixed(32)]

  const LEGACY_ENCRYPTED: Layout := [Number(4), Number(8), Fixed(32), Blob]

  const LEGACY_GENERATED: Layout := [Number(4), Number(8), Fixed(32), Blob, Fixed(64)]

  /** A stored row: its log source, whose timestamp may be missing, and its own fields. */
  datatype Row = Row(block: nat, timestamp: Option<nat>, transaction: Bytes, body: Record)

  predicate TypedRow(body: Layout, row: Row) {
    && row.block < Pow256(8) && (row.timestamp.Some? ==> row.timestamp.value < Pow256(8)) && |row.transaction| == 32
    && TypedRecord(body, row.body)
  }

  predicate TypedRows(body: Layout, rows: seq<Row>) {
    forall i :: 0 <= i < |rows| ==> TypedRow(body, rows[i])
  }

  predicate Stamped(rows: seq<Row>) {
    forall i :: 0 <= i < |rows| ==> rows[i].timestamp.Some?
  }

  function RowRecord(row: Row): Record
    requires row.timestamp.Some?
  {
    [Num(row.block), Num(row.timestamp.value), Raw(row.transaction)] + row.body
  }

  function RowRecords(rows: seq<Row>): seq<Record>
    requires Stamped(rows)
  {
    seq(|rows|, i requires 0 <= i < |rows| => RowRecord(rows[i]))
  }

  lemma RowRecordsTyped(body: Layout, rows: seq<Row>)
    requires TypedRows(body, rows) && Stamped(rows)
    ensures TypedRecords(SOURCE + body, RowRecords(rows))
  {
    hide Pow256;
    forall i | 0 <= i < |rows| ensures TypedRecord(SOURCE + body, RowRecord(rows[i])) {
      assert TypedRow(body, rows[i]);
    }
  }

  // ---------------------------------------------------------------------------------------------
  // Sections
  // ---------------------------------------------------------------------------------------------

  datatype Section = Section(id: nat, offset: nat, length: nat)

  /** The layouts of sections 1 to 5, in the order they are written. */
  const BODIES: seq<Layout> := [TRANSACT, SHIELD, NULLIFIER, LEGACY_ENCRYPTED, LEGACY_GENERATED]

  function LayoutOf(id: nat): Option<Layout> {
    if 1 <= id <= |BODIES| then Some(SOURCE + BODIES[id - 1]) else None
  }

  /** Each section begins where the one before it ends, the first at the start of the payload and the last at its
      end. */
  ghost predicate Tiling(table: seq<Section>, size: nat) {
    && (|table| > 0 ==> table[0].offset == 0 && table[|table| - 1].offset + table[|table| - 1].length == size)
    && (|table| == 0 ==> size == 0)
    && forall i :: 0 <= i < |table| - 1 ==> table[i].offset + table[i].length == table[i + 1].offset
  }

  type Parsed = map<nat, seq<Record>>

  function ParseSection(payload: Bytes, section: Section): Result<seq<Record>, Error> {
    if section.offset + section.length > |payload| then Err(SectionOutside)
    else
      match LayoutOf(section.id)
      case None => Err(UnknownSection(section.id))
      case Some(layout) =>
        match TakeSection(layout, payload[section.offset..section.offset + section.length])
        case None => Err(UnexpectedEnd)
        case Some((records, rest)) => if rest != [] then Err(TrailingBytes(|rest|)) else Ok(records)
  }

  function ParseTable(payload: Bytes, table: seq<Section>): Result<Parsed, Error> {
    if table == [] then Ok(map[])
    else
      match ParseTable(payload, table[..|table| - 1])
      case Err(error) => Err(error)
      case Ok(parsed) =>
        match ParseSection(payload, table[|table| - 1])
        case Err(error) => Err(error)
        case Ok(records) => Ok(parsed[table[|table| - 1].id := records])
  }

  method ParseWalletPayload(payload: Bytes, table: seq<Section>) returns (r: Result<Parsed, Error>)
    ensures r == ParseTable(payload, table)
  {
    hide TakeSection, LayoutOf;
    var wallet: Parsed := map[];
    for i := 0 to |table|
      invariant ParseTable(payload, table[..i]) == Ok(wallet)
    {
      assert table[..i + 1][..i] == table[..i];
      var section := table[i];
      var records := ParseWalletSection(payload, section);
      if records.Err? {
        TableStops(payload, table, i + 1);
        return Err(records.error);
      }
      wallet := wallet[section.id := records.value];
    }
    assert table[..|table|] == table;
    return Ok(wallet);
  }

  method ParseWalletSection(payload: Bytes, section: Section) returns (r: Result<seq<Record>, Error>)
    ensures r == ParseSection(payload, section)
  {
    hide TakeSection, LayoutOf;
    if section.offset + section.length > |payload| {
      return Err(SectionOutside);
    }
    var layout := LayoutOf(section.id);
    if layout.None? {
      return Err(UnknownSection(section.id));
    }
    var cursor := new Cursor(payload[section.offset..section.offset + section.length]);
    r := cursor.ReadSection(layout.value);
    if r.Ok? {
      var end := cursor.ExpectEnd();
      if end.Err? {
        r := Err(end.error);
      }
    }
  }

  lemma {:induction false} TableStops(payload: Bytes, table: seq<Section>, i: nat)
    requires i <= |table| && ParseTable(payload, table[..i]).Err?
    ensures ParseTable(payload, table) == ParseTable(payload, table[..i])
    decreases |table| - i
  {
    hide ParseSection;
    if i < |table| {
      assert table[..i + 1][..i] == table[..i];
      TableStops(payload, table, i + 1);
    } else {
      assert table[..i] == table;
    }
  }

  // ---------------------------------------------------------------------------------------------
  // Writing
  // ---------------------------------------------------------------------------------------------

  predicate AllStamped(rows: seq<seq<Row>>) {
    forall i :: 0 <= i < |rows| ==> Stamped(rows[i])
  }

  /** The fields of all rows under the numbers of their sections. */
  function Numbered(rows: seq<seq<Row>>): Parsed
    requires AllStamped(rows)
  {
    if rows == [] then map[] else Numbered(rows[..|rows| - 1])[|rows| := RowRecords(rows[|rows| - 1])]
  }

  /** What has been written so far reads back, section by section. */
  ghost predicate ReadsBack(payload: Bytes, table: seq<Section>, rows: seq<seq<Row>>) {
    && |table| == |rows| && Tiling(table, |payload|)
    && AllStamped(rows) && ParseTable(payload, table) == Ok(Numbered(rows))
  }

  predicate SectionWritable(body: Layout, rows: seq<Row>) {
    Stamped(rows) && WritableSection(SOURCE + body, RowRecords(rows))
  }

  predicate AllTyped(rows: seq<seq<Row>>) {
    |rows| == |BODIES| && forall i :: 0 <= i < |rows| ==> TypedRows(BODIES[i], rows[i])
  }

  /** The first sections can be written. */
  predicate WritableUpTo(rows: seq<seq<Row>>, n: nat)
    requires n <= |rows| <= |BODIES|
  {
    forall i :: 0 <= i < n ==> SectionWritable(BODIES[i], rows[i])
  }

  /** Writes the next section behind the payload and enters it in the table. */
  method AppendSection(payload: Bytes, table: seq<Section>, id: nat, rows: seq<seq<Row>>)
      returns (r: Result<(Bytes, seq<Section>), Error>)
    requires AllTyped(rows) && 1 <= id <= |rows| && ReadsBack(payload, table, rows[..id - 1])
             && WritableUpTo(rows, id - 1)
    ensures r.Ok? <==> WritableUpTo(rows, id)
    ensures r.Ok? ==> ReadsBack(r.value.0, r.value.1, rows[..id])
  {
    hide WritableSection, TypedRows, ParseTable, Tiling, Numbered, RowRecords, Stamped;
    var body := BODIES[id - 1];
    var records := RecordsOf(body, rows[id - 1]);
    if records.Err? {
      assert !SectionWritable(body, rows[id - 1]);
      return Err(records.error);
    }
    var longer := WriteSection(payload, SOURCE + body, records.value);
    if longer.Err? {
      assert !SectionWritable(body, rows[id - 1]);
      return Err(longer.error);
    }
    var section := Section(id, |payload|, |longer.value| - |payload|);
    SectionReadsBack(payload, table, rows[..id - 1], longer.value, rows[id - 1]);
    assert rows[..id - 1] + [rows[id - 1]] == rows[..id];
    return Ok((longer.value, table + [section]));
  }

  method RecordsOf(body: Layout, rows: seq<Row>) returns (r: Result<seq<Record>, Error>)
    requires TypedRows(body, rows)
    ensures r.Ok? <==> Stamped(rows)
    ensures r.Ok? ==> r.value == RowRecords(rows) && TypedRecords(SOURCE + body, r.value)
  {
    var records: seq<Record> := [];
    for i := 0 to |rows|
      invariant Stamped(rows[..i])
      invariant records == RowRecords(rows[..i])
    {
      if rows[i].timestamp.None? {
        return Err(MissingTimestamp(rows[i].block));
      }
      records := records + [RowRecord(rows[i])];
    }
    assert rows[..|rows|] == rows;
    RowRecordsTyped(body, rows);
    return Ok(records);
  }

  /** The table and everything before are untouched by what is appended. */
  lemma {:induction false} ParseLonger(payload: Bytes, longer: Bytes, table: seq<Section>)
    requires payload <= longer && ParseTable(payload, table).Ok?
    ensures ParseTable(longer, table) == ParseTable(payload, table)
  {
    if table != [] {
      ParseLonger(payload, longer, table[..|table| - 1]);
      var section := table[|table| - 1];
      assert ParseSection(payload, section).Ok?;
      var end := section.offset + section.length;
      assert payload[section.offset..end] == longer[section.offset..end];
      hide TakeSection, LayoutOf;
    }
  }

  lemma SectionParses(payload: Bytes, longer: Bytes, id: nat, rows: seq<Row>)
    requires 1 <= id <= |BODIES| && TypedRows(BODIES[id - 1], rows) && SectionWritable(BODIES[id - 1], rows)
    requires TypedRecords(SOURCE + BODIES[id - 1], RowRecords(rows))
    requires longer == payload + SectionBytes(SOURCE + BODIES[id - 1], RowRecords(rows))
    ensures ParseSection(longer, Section(id, |payload|, |longer| - |payload|)) == Ok(RowRecords(rows))
  {
    hide TakeSection, WritableSection, TypedRecords, TypedRows, SectionBytes, RowRecords;
    var layout, records := SOURCE + BODIES[id - 1], RowRecords(rows);
    SectionRoundTrip(layout, records, []);
    assert SectionBytes(layout, records) + [] == SectionBytes(layout, records);
    assert longer[|payload|..|longer|] == SectionBytes(layout, records);
  }

  lemma SectionReadsBack(payload: Bytes, table: seq<Section>, written: seq<seq<Row>>, longer: Bytes, rows: seq<Row>)
    requires ReadsBack(payload, table, written) && |table| < |BODIES| && TypedRows(BODIES[|table|], rows)
    requires SectionWritable(BODIES[|table|], rows) && TypedRecords(SOURCE + BODIES[|table|], RowRecords(rows))
    requires longer == payload + SectionBytes(SOURCE + BODIES[|table|], RowRecords(rows))
    ensures ReadsBack(longer, table + [Section(|table| + 1, |payload|, |longer| - |payload|)], written + [rows])
  {
    var id := |table| + 1;
    var section := Section(id, |payload|, |longer| - |payload|);
    SectionParses(payload, longer, id, rows);
    ParseLonger(payload, longer, table);
    hide ParseSection, WritableSection, TypedRecords, TypedRows, RowRecords, Stamped, LayoutOf;
    assert (table + [section])[..|table|] == table && (written + [rows])[..|written|] == written;
    TableSnoc(longer, table, section, Numbered(written), RowRecords(rows));
    TilingSnoc(table, |payload|, section);
    assert AllStamped(written + [rows]);
  }

  lemma TableSnoc(payload: Bytes, table: seq<Section>, section: Section, parsed: Parsed, records: seq<Record>)
    requires ParseTable(payload, table) == Ok(parsed) && ParseSection(payload, section) == Ok(records)
    ensures ParseTable(payload, table + [section]) == Ok(parsed[section.id := records])
  {
    hide ParseSection;
    assert (table + [section])[..|table|] == table;
  }

  lemma TilingSnoc(table: seq<Section>, size: nat, section: Section)
    requires Tiling(table, size) && section.offset == size
    ensures Tiling(table + [section], size + section.length)
  {
  }

  /** The encoded payload of the five kinds of rows: its sections tile it, and parsing it by the table gives every field
      of every row back. It is refused exactly when a row has no timestamp or a byte string or list is too long. */
  method EncodeWalletRows(rows: seq<seq<Row>>) returns (r: Result<(Bytes, seq<Section>), Error>)
    requires AllTyped(rows)
    ensures r.Ok? <==> WritableUpTo(rows, |rows|)
    ensures r.Ok? ==> ReadsBack(r.value.0, r.value.1, rows)
  {
    assert |rows| == 5 && rows[..0] == [] && rows[..5] == rows && ReadsBack([], [], []);
    assert forall n :: 0 <= n <= 5 && !WritableUpTo(rows, n) ==> !WritableUpTo(rows, 5);
    assert WritableUpTo(rows, 0);
    hide ReadsBack, WritableUpTo, AllTyped;
    var transact := AppendSection([], [], 1, rows);
    if transact.Err? {
      return Err(transact.error);
    }
    var shield := AppendSection(transact.value.0, transact.value.1, 2, rows);
    if shield.Err? {
      return Err(shield.error);
    }
    var nullifier := AppendSection(shield.value.0, shield.value.1, 3, rows);
    if nullifier.Err? {
      return Err(nullifier.error);
    }
    var encrypted := AppendSection(nullifier.value.0, nullifier.value.1, 4, rows);
    if encrypted.Err? {
      return Err(encrypted.error);
    }
    r := AppendSection(encrypted.value.0, encrypted.value.1, 5, rows);
  }

  // ---------------------------------------------------------------------------------------------
  // Merkle checkpoints
  // ---------------------------------------------------------------------------------------------

  /** Tree number, leaf count, root and last indexed block, before the leaves. */
  const CHECKPOINT: Layout := [Number(4), Number(8), Fixed(32), Number(8)]

  const LEAF: Layout := [Fixed(32)]

  datatype Checkpoint = Checkpoint(tree: nat, count: nat, block: nat, leaves: seq<Record>)

  predicate TypedCheckpoint(c: Checkpoint, root: Bytes) {
    TypedRecord(CHECKPOINT, Header(c, root)) && TypedRecords(LEAF, c.leaves)
  }

  function Header(c: Checkpoint, root: Bytes): Record {
    [Num(c.tree), Num(c.count), Raw(root), Num(c.block)]
  }

  function CheckpointBytes(c: Checkpoint, root: Bytes): Bytes
    requires TypedCheckpoint(c, root)
  {
    RecordBytes(CHECKPOINT, Header(c, root)) + RecordsBytes(LEAF, c.leaves)
  }

  method EncodeCheckpoint(c: Checkpoint, root: Bytes) returns (bytes: Bytes)
    requires TypedCheckpoint(c, root)
    ensures bytes == CheckpointBytes(c, root)
  {
    hide Pow256, RecordBytes, Typed, Writable;
    NoBlobs(CHECKPOINT, [Header(c, root)]);
    assert WritableRecord(CHECKPOINT, [Header(c, root)][0]);
    var header := WriteRecord([], CHECKPOINT, Header(c, root));
    bytes := header.value;
    assert bytes == RecordBytes(CHECKPOINT, Header(c, root)) + [];
    NoBlobs(LEAF, c.leaves);
    hide WritableRecord, TypedRecord;
    for i := 0 to |c.leaves|
      invariant bytes == RecordBytes(CHECKPOINT, Header(c, root)) + RecordsBytes(LEAF, c.leaves[..i])
    {
      assert c.leaves[..i + 1][..i] == c.leaves[..i];
      var longer := WriteRecord(bytes, LEAF, c.leaves[i]);
      bytes := longer.value;
    }
    assert c.leaves[..|c.leaves|] == c.leaves;
  }

  /** Reads the checkpoint and the root it states; `merkle` computes the root of the leaves read, unless they are too
      many. */
  function ParseCheckpoint(payload: Bytes, merkle: seq<Record> -> Option<Bytes>): Result<(Checkpoint, Bytes), Error> {
    match TakeRecord(CHECKPOINT, payload)
    case None => Err(UnexpectedEnd)
    case Some((header, after)) =>
      if |header| != 4 || !header[0].Num? || !header[1].Num? || !header[2].Raw?
        || !header[3].Num? then Err(UnexpectedEnd)
      else
        match TakeRecords(LEAF, header[1].value, after)
        case None => Err(UnexpectedEnd)
        case Some((leaves, rest)) =>
          if rest != [] then Err(TrailingBytes(|rest|))
          else if merkle(leaves).None? then Err(TooManyLeaves)
          else if merkle(leaves).value != header[2].bytes then Err(RootMismatch)
          else Ok((Checkpoint(header[0].value, header[1].value, header[3].value, leaves), header[2].bytes))
  }

  method ParseCheckpointPayload(payload: Bytes, merkle: seq<Record> -> Option<Bytes>)
      returns (r: Result<(Checkpoint, Bytes), Error>)
    ensures r == ParseCheckpoint(payload, merkle)
  {
    hide TakeRecord, TakeRecords;
    var cursor := new Cursor(payload);
    var header := cursor.ReadRecord(CHECKPOINT);
    if header.Err? {
      return Err(header.error);
    }
    var fields := header.value;
    if |fields| != 4 || !fields[0].Num? || !fields[1].Num? || !fields[2].Raw? || !fields[3].Num? {
      return Err(UnexpectedEnd);
    }
    var leaves := cursor.ReadRecords(LEAF, fields[1].value);
    if leaves.Err? {
      return Err(leaves.error);
    }
    var end := cursor.ExpectEnd();
    if end.Err? {
      return Err(end.error);
    }
    if merkle(leaves.value).None? {
      return Err(TooManyLeaves);
    }
    if merkle(leaves.value).value != fields[2].bytes {
      return Err(RootMismatch);
    }
    return Ok((Checkpoint(fields[0].value, fields[1].value, fields[3].value, leaves.value), fields[2].bytes));
  }

  /** An encoded checkpoint reads back exactly when its stated leaf count is the number of its leaves, which validation
      asks for, and its stated root is theirs. */
  lemma CheckpointRoundTrip(c: Checkpoint, root: Bytes, merkle: seq<Record> -> Option<Bytes>)
    requires TypedCheckpoint(c, root)
    ensures ParseCheckpoint(CheckpointBytes(c, root), merkle) == Ok((c, root)) <==>
            c.count == |c.leaves| && merkle(c.leaves) == Some(root)
  {
    hide Pow256, RecordBytes, Typed, Writable, TakeRecord, TakeRecords;
    var leaves := RecordsBytes(LEAF, c.leaves);
    NoBlobs(CHECKPOINT, [Header(c, root)]);
    assert WritableRecord(CHECKPOINT, [Header(c, root)][0]);
    TakeWrittenRecord(CHECKPOINT, Header(c, root), leaves);
    NoBlobs(LEAF, c.leaves);
    TakeWrittenRecords(LEAF, c.leaves, []);
    assert leaves + [] == leaves;
    if ParseCheckpoint(CheckpointBytes(c, root), merkle) == Ok((c, root)) {
      WrittenTakenRecords(LEAF, c.count, leaves);
    }
  }
}
