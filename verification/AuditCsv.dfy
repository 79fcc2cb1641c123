/** The audit-log CSV export, and a reader following section 2 of RFC 4180 (with LF as the
    record break) that gets every field of every row back from it. */
module AuditCsv {
  import opened Options

  /** `createdAt` and `metadata` hold the texts that `toISOString()` and `JSON.stringify` give. */
  datatype AuditLog = AuditLog(
    id: string, tenantId: string, actorId: string, actorType: string, action: string,
    resourceType: string, resourceId: string, operationId: Option<string>, ipAddress: Option<string>,
    createdAt: string, metadata: string)

  const EXPORT_MAX_ROWS := 10000

  const HEADER: seq<string> := [
    "id", "tenant_id", "actor_id", "actor_type", "action", "resource_type", "resource_id",
    "operation_id", "ip_address", "created_at", "metadata"]

  function OrEmpty(s: Option<string>): string { if s.Some? then s.value else "" }

  function Columns(row: AuditLog): (fields: seq<string>)
    ensures |fields| == |HEADER| == 11
  {
    [row.id, row.tenantId, row.actorId, row.actorType, row.action, row.resourceType, row.resourceId,
     OrEmpty(row.operationId), OrEmpty(row.ipAddress), row.createdAt, row.metadata]
  }

  predicate FormulaStart(value: string) { value != "" && value[0] in "=+-@" }

  /** The leading-formula step. */
  function Neutral(value: string): (safe: string)
    ensures !FormulaStart(safe)
    ensures safe == value || safe == "'" + value
  {
    if FormulaStart(value) then "'" + value else value
  }

  /** It adds an apostrophe exactly where the value starts with one of the four signs. */
  lemma {:induction false} NeutralExactly(value: string)
    ensures Neutral(value) ==
      if value != "" && (value[0] == '=' || value[0] == '+' || value[0] == '-' || value[0] == '@')
      then "'" + value else value
  {}

  predicate Plain(value: string) { '"' !in value && ',' !in value && '\n' !in value }

  function Doubled(value: string): string {
    if value == "" then ""
    else DoubledChar(value[0]) + Doubled(value[1..])
  }

  function DoubledChar(c: char): string { if c == '"' then "\"\"" else [c] }

  function CsvEscape(value: string): string {
    var safe := Neutral(value);
    if Plain(safe) then safe else "\"" + Doubled(safe) + "\""
  }

  function Join(parts: seq<string>, separator: string): string {
    if parts == [] then ""
    else if |parts| == 1 then parts[0]
    else parts[0] + separator + Join(parts[1..], separator)
  }

  function Escaped(fields: seq<string>): (r: seq<string>)
    ensures |r| == |fields| && forall i :: 0 <= i < |r| ==> r[i] == CsvEscape(fields[i])
  {
    seq(|fields|, i requires 0 <= i < |fields| => CsvEscape(fields[i]))
  }

  function ExportedRows(found: seq<AuditLog>): seq<AuditLog> {
    if |found| <= EXPORT_MAX_ROWS then found else found[..EXPORT_MAX_ROWS]
  }

  function Cells(rows: seq<AuditLog>): (cells: seq<seq<string>>)
    ensures |cells| == |rows| && forall i :: 0 <= i < |rows| ==> cells[i] == Columns(rows[i]) && |cells[i]| == 11
  {
    seq(|rows|, i requires 0 <= i < |rows| => Columns(rows[i]))
  }

  function Line(fields: seq<string>): string { Join(Escaped(fields), ",") }

  function Lines(cells: seq<seq<string>>): seq<string> {
    if cells == [] then [] else [Line(cells[0])] + Lines(cells[1..])
  }

  function ExportCsv(found: seq<AuditLog>): string {
    Join([Join(HEADER, ",")] + Lines(Cells(ExportedRows(found))), "\n")
  }

  // ----- the reader ---------------------------------------------------------------------

  datatype Mode = FieldStart | Bare | Quoted | QuoteSeen | Bad

  datatype Reader = Reader(records: seq<seq<string>>, fields: seq<string>, text: string, mode: Mode)

  const START := Reader([], [], "", FieldStart)

  function EndField(r: Reader): Reader { Reader(r.records, r.fields + [r.text], "", FieldStart) }

  function EndRecord(r: Reader): Reader { Reader(r.records + [r.fields + [r.text]], [], "", FieldStart) }

  function Feed1(r: Reader, c: char): Reader {
    match r.mode
    case Bad => r
    case Quoted => if c == '"' then r.(mode := QuoteSeen) else r.(text := r.text + [c])
    case QuoteSeen =>
      if c == '"' then r.(text := r.text + [c], mode := Quoted)
      else if c == ',' then EndField(r)
      else if c == '\n' then EndRecord(r)
      else r.(mode := Bad)
    case _ =>
      if c == ',' then EndField(r)
      else if c == '\n' then EndRecord(r)
      else if c == '"' then r.(mode := if r.mode == FieldStart then Quoted else Bad)
      else r.(text := r.text + [c], mode := Bare)
  }

  function Feed(r: Reader, s: string): Reader
    decreases |s|
  {
    if s == "" then r else Feed(Feed1(r, s[0]), s[1..])
  }

  /** The records of a text, or nothing where it breaks the format. A line break after the last
      record is optional. */
  function Read(text: string): Option<seq<seq<string>>> {
    var r := Feed(START, text);
    if r.mode in {Quoted, Bad} then None
    else if r.mode == FieldStart && r.fields == [] then Some(r.records)
    else Some(EndRecord(r).records)
  }

  // ----- round trip ---------------------------------------------------------------------

  lemma {:induction false} FeedMore(r: Reader, a: string, b: string)
    ensures Feed(r, a + b) == Feed(Feed(r, a), b)
    decreases |a|
  {
    if a == "" {
      assert a + b == b;
    } else {
      assert (a + b)[1..] == a[1..] + b;
      FeedMore(Feed1(r, a[0]), a[1..], b);
    }
  }

  lemma {:induction false} FeedOne(r: Reader, c: char)
    ensures Feed(r, [c]) == Feed1(r, c)
  {
    assert [c][1..] == "";
  }

  lemma {:induction false} FeedAround(r: Reader, a: string, c: char, b: string)
    ensures Feed(r, a + [c] + b) == Feed(Feed1(Feed(r, a), c), b)
  {
    FeedMore(r, a + [c], b);
    FeedMore(r, a, [c]);
    FeedOne(Feed(r, a), c);
  }

  lemma {:induction false} FeedPlain(r: Reader, s: string)
    requires Plain(s) && r.mode in {FieldStart, Bare}
    ensures Feed(r, s) == if s == "" then r else r.(text := r.text + s, mode := Bare)
    decreases |s|
  {
    if s != "" {
      assert s[0] in s && forall c :: c in s[1..] ==> c in s;
      FeedPlain(Feed1(r, s[0]), s[1..]);
      assert r.text + s == r.text + [s[0]] + s[1..];
    }
  }

  lemma {:induction false} FeedDoubled(r: Reader, s: string)
    requires r.mode == Quoted
    ensures Feed(r, Doubled(s)) == r.(text := r.text + s)
    decreases |s|
  {
    if s == "" {
      assert r.text + s == r.text;
    } else {
      FeedMore(r, DoubledChar(s[0]), Doubled(s[1..]));
      FeedDoubledChar(r, s[0]);
      FeedDoubled(r.(text := r.text + [s[0]]), s[1..]);
      assert r.text + s == r.text + [s[0]] + s[1..];
    }
  }

  lemma {:induction false} FeedDoubledChar(r: Reader, c: char)
    requires r.mode == Quoted
    ensures Feed(r, DoubledChar(c)) == r.(text := r.text + [c])
  {
    if c == '"' {
      assert DoubledChar(c) == ['"'] + ['"'];
      FeedMore(r, ['"'], ['"']);
      FeedOne(r, '"');
      FeedOne(r.(mode := QuoteSeen), '"');
    } else {
      FeedOne(r, c);
    }
  }

  /** One escaped field leaves its neutral text pending, ready for a separator. */
  ghost predicate Pending(r: Reader, before: Reader, text: string) {
    && r.records == before.records && r.fields == before.fields && r.text == text
    && (r.mode in {Bare, QuoteSeen} || (r.mode == FieldStart && text == ""))
  }

  lemma {:induction false} FeedField(r: Reader, value: string)
    requires r.mode == FieldStart && r.text == ""
    ensures Pending(Feed(r, CsvEscape(value)), r, Neutral(value))
  {
    var safe := Neutral(value);
    if Plain(safe) {
      FeedPlain(r, safe);
      assert r.text + safe == safe;
    } else {
      var open := r.(mode := Quoted);
      FeedAround(r, "", '"', Doubled(safe) + ['"']);
      assert "" + ['"'] + (Doubled(safe) + ['"']) == CsvEscape(value);
      FeedMore(open, Doubled(safe), ['"']);
      FeedDoubled(open, safe);
      FeedOne(open.(text := safe), '"');
      assert open.text + safe == safe;
    }
  }

  function Neutrals(fields: seq<string>): (r: seq<string>)
    ensures |r| == |fields| && forall i :: 0 <= i < |r| ==> r[i] == Neutral(fields[i]) && !FormulaStart(r[i])
  {
    seq(|fields|, i requires 0 <= i < |fields| => Neutral(fields[i]))
  }

  lemma {:induction false} FeedRecord(r: Reader, fields: seq<string>)
    requires r.mode == FieldStart && r.text == "" && fields != []
    ensures Complete(Feed(r, Line(fields)), r.records, r.fields + Neutrals(fields))
    decreases |fields|
  {
    FeedField(r, fields[0]);
    if |fields| == 1 {
      assert Neutrals(fields) == [Neutral(fields[0])];
    } else {
      var pending, tail := Feed(r, CsvEscape(fields[0])), fields[1..];
      LineSplits(fields);
      FeedAround(r, CsvEscape(fields[0]), ',', Line(tail));
      FeedRecord(EndField(pending), tail);
      Regroup(r.fields, Neutral(fields[0]), Neutrals(tail));
    }
  }

  lemma {:induction false} LineSplits(fields: seq<string>)
    requires |fields| > 1
    ensures Line(fields) == CsvEscape(fields[0]) + [','] + Line(fields[1..])
    ensures Neutrals(fields) == [Neutral(fields[0])] + Neutrals(fields[1..])
  {
    assert Escaped(fields)[1..] == Escaped(fields[1..]);
  }

  lemma {:induction false} Regroup<T>(a: seq<T>, b: T, c: seq<T>)
    ensures a + [b] + c == a + ([b] + c)
  {}

  /** A whole record has been read but for its break. */
  ghost predicate Complete(r: Reader, records: seq<seq<string>>, fields: seq<string>) {
    && r.mode in {FieldStart, Bare, QuoteSeen}
    && r.records == records && r.fields + [r.text] == fields
  }

  function Records(cells: seq<seq<string>>): (rs: seq<seq<string>>)
    ensures |rs| == |cells| && forall i :: 0 <= i < |cells| ==> rs[i] == Neutrals(cells[i])
  {
    seq(|cells|, i requires 0 <= i < |cells| => Neutrals(cells[i]))
  }

  lemma {:induction false} FeedLines(r: Reader, first: seq<string>, cells: seq<seq<string>>)
    requires r.mode == FieldStart && r.text == "" && r.fields == [] && first != []
    requires forall i :: 0 <= i < |cells| ==> cells[i] != []
    ensures var t := Feed(r, Join([Line(first)] + Lines(cells), "\n"));
            var all := [Neutrals(first)] + Records(cells);
            Complete(t, r.records + all[..|cells|], all[|cells|])
    decreases |cells|
  {
    FeedRecord(r, first);
    var t := Feed(r, Line(first));
    assert r.fields + Neutrals(first) == Neutrals(first);
    var all := [Neutrals(first)] + Records(cells);
    if cells == [] {
      assert r.records + all[..0] == r.records;
      assert Complete(t, r.records + all[..|cells|], all[|cells|]);
    } else {
      var next, tail := cells[0], cells[1..];
      var rest := Join([Line(next)] + Lines(tail), "\n");
      JoinSplits(first, cells);
      FeedAround(r, Line(first), '\n', rest);
      FeedLines(EndRecord(t), next, tail);
      RecordsSplit(r.records, first, cells);
    }
  }

  lemma {:induction false} JoinSplits(first: seq<string>, cells: seq<seq<string>>)
    requires cells != []
    ensures Join([Line(first)] + Lines(cells), "\n")
         == Line(first) + ['\n'] + Join([Line(cells[0])] + Lines(cells[1..]), "\n")
  {
    var parts := [Line(first)] + Lines(cells);
    assert parts[1..] == [Line(cells[0])] + Lines(cells[1..]);
  }

  lemma {:induction false} RecordsSplit(records: seq<seq<string>>, first: seq<string>, cells: seq<seq<string>>)
    requires cells != []
    ensures var all, rest := [Neutrals(first)] + Records(cells), [Neutrals(cells[0])] + Records(cells[1..]);
            && all[|cells|] == rest[|cells| - 1]
            && records + all[..|cells|] == records + [Neutrals(first)] + rest[..|cells| - 1]
  {
    var all, rest := [Neutrals(first)] + Records(cells), [Neutrals(cells[0])] + Records(cells[1..]);
    assert Records(cells) == rest;
    Regroup(records, Neutrals(first), rest[..|cells| - 1]);
    assert [Neutrals(first)] + rest[..|cells| - 1] == all[..|cells|];
  }

  lemma {:induction false} ReadsWhole(text: string, all: seq<seq<string>>)
    requires all != [] && |all[|all| - 1]| > 1
    requires Complete(Feed(START, text), all[..|all| - 1], all[|all| - 1])
    ensures Read(text) == Some(all)
  {
    var n := |all| - 1;
    assert all[..n] + [all[n]] == all;
  }

  /** Reading lines of escaped fields gives the fields back, neutralized. */
  lemma {:induction false} ReadLines(first: seq<string>, cells: seq<seq<string>>)
    requires |first| > 1 && forall i :: 0 <= i < |cells| ==> |cells[i]| > 1
    ensures Read(Join([Line(first)] + Lines(cells), "\n")) == Some([Neutrals(first)] + Records(cells))
  {
    FeedLines(START, first, cells);
    var all := [Neutrals(first)] + Records(cells);
    assert START.records + all[..|cells|] == all[..|cells|];
    ReadsWhole(Join([Line(first)] + Lines(cells), "\n"), all);
  }

  lemma {:induction false} HeaderIsPlain()
    ensures Escaped(HEADER) == HEADER && Neutrals(HEADER) == HEADER
  {
    assert forall i :: 0 <= i < |HEADER| ==> Plain(HEADER[i]) && !FormulaStart(HEADER[i]);
  }

  lemma {:induction false} ExportReads(found: seq<AuditLog>)
    ensures Read(ExportCsv(found)) == Some([HEADER] + Records(Cells(ExportedRows(found))))
  {
    HeaderIsPlain();
    ReadLines(HEADER, Cells(ExportedRows(found)));
  }

  /** Under each name of the header stands the row's attribute of that name, neutralized; a
      missing operation or address is empty. */
  predicate RecordOf(header: seq<string>, record: seq<string>, row: AuditLog) { Names(header) && Fields(record, row) }

  predicate NoFormula(record: seq<string>) {
    forall j :: 0 <= j < |record| && record[j] != "" ==>
      record[j][0] != '=' && record[j][0] != '+' && record[j][0] != '-' && record[j][0] != '@'
  }

  /** Reading an export gives the header and then one record of eleven fields for every exported
      row, each attribute under its own name as the leading-formula step left it; no field starts
      a formula. Exported are the rows found, up to ten thousand of them. */
  lemma {:induction false} ExportRoundTrip(found: seq<AuditLog>)
    ensures var rows, read := ExportedRows(found), Read(ExportCsv(found));
            && read.Some? && |read.value| == |rows| + 1
            && |rows| == (if |found| <= 10000 then |found| else 10000) && rows <= found
            && (forall i :: 0 <= i < |rows| ==> RecordOf(read.value[0], read.value[i + 1], rows[i]))
            && (forall i :: 0 <= i < |read.value| ==> |read.value[i]| == 11 && NoFormula(read.value[i]))
  {
    var rows := ExportedRows(found);
    ExportReads(found);
    HeaderIsPlain();
    assert NoFormula(Neutrals(HEADER));
    RowsRead(rows, HEADER, [HEADER] + Records(Cells(rows)));
  }

  lemma {:induction false} RowsRead(rows: seq<AuditLog>, header: seq<string>, read: seq<seq<string>>)
    requires read == [header] + Records(Cells(rows)) && |header| == 11 && NoFormula(header)
    requires header == HEADER
    ensures forall i :: 0 <= i < |rows| ==> RecordOf(header, read[i + 1], rows[i])
    ensures forall i :: 0 <= i < |read| ==> |read[i]| == 11 && NoFormula(read[i])
  {
    forall i | 0 <= i < |rows| ensures RecordOf(header, read[i + 1], rows[i]) && NoFormula(read[i + 1]) {
      assert read[i + 1] == Neutrals(Columns(rows[i]));
      RecordOfRow(rows[i]);
    }
    forall i | 0 <= i < |read| ensures |read[i]| == 11 && NoFormula(read[i]) {
      if i > 0 { assert RecordOf(header, read[(i - 1) + 1], rows[i - 1]); }
    }
  }

  lemma {:induction false} RecordOfRow(row: AuditLog)
    ensures RecordOf(HEADER, Neutrals(Columns(row)), row)
  {
    HeaderNames();
    FieldsOfRow(row, Neutrals(Columns(row)));
  }

  predicate Names(header: seq<string>) {
    && |header| == 11
    && header[0] == "id" && header[1] == "tenant_id" && header[2] == "actor_id" && header[3] == "actor_type"
    && header[4] == "action" && header[5] == "resource_type" && header[6] == "resource_id"
    && header[7] == "operation_id" && header[8] == "ip_address" && header[9] == "created_at"
    && header[10] == "metadata"
  }

  lemma {:induction false} HeaderNames()
    ensures Names(HEADER)
  {}

  predicate Fields(record: seq<string>, row: AuditLog) {
    && |record| == 11
    && record[0] == Neutral(row.id) && record[1] == Neutral(row.tenantId) && record[2] == Neutral(row.actorId)
    && record[3] == Neutral(row.actorType) && record[4] == Neutral(row.action)
    && record[5] == Neutral(row.resourceType) && record[6] == Neutral(row.resourceId)
    && record[7] == (if row.operationId.Some? then Neutral(row.operationId.value) else "")
    && record[8] == (if row.ipAddress.Some? then Neutral(row.ipAddress.value) else "")
    && record[9] == Neutral(row.createdAt) && record[10] == Neutral(row.metadata)
  }

  lemma {:induction false} FieldsOfRow(row: AuditLog, record: seq<string>)
    requires record == Neutrals(Columns(row))
    ensures Fields(record, row)
  {
    assert Neutral("") == "";
  }
}
