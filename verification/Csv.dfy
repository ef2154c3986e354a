/** The usage ledger's CSV of `src/cli/csv.ts`, and a reader of section 2 of RFC 4180. */
module Csv {
  import opened Common
  import opened Text

  /** `COLUMNS` */
  const COLUMNS: seq<string> := FIRST_COLUMNS + MIDDLE_COLUMNS + LAST_COLUMNS

  const FIRST_COLUMNS: seq<string> := ["requestId", "requester", "label", "platform", "model", "workerId"]

  const MIDDLE_COLUMNS: seq<string> :=
    ["source", "requestedAt", "grantedAt", "rejectedAt", "endedAt", "waitMs"]

  const LAST_COLUMNS: seq<string> := ["heldMs", "turnaroundMs", "outcome", "probe", "reason", "endReason"]

  // ---------------------------------------------------------------- the printer

  /** `\p{Cc}` or `\s`. */
  predicate Skipped(c: char) {
    var u := c as int;
    || u <= 0x20 || 0x7F <= u <= 0xA0 || u == 0x1680 || 0x2000 <= u <= 0x200A
    || u == 0x2028 || u == 0x2029 || u == 0x202F || u == 0x205F || u == 0x3000 || u == 0xFEFF
  }

  predicate FormulaChar(c: char) {
    c == '=' || c == '+' || c == '-' || c == '@'
  }

  /** `/^[\p{Cc}\s]*[=+\-@]/u` */
  predicate LooksLikeFormula(text: string) {
    text != "" && (FormulaChar(text[0]) || (Skipped(text[0]) && LooksLikeFormula(text[1..])))
  }

  function Guarded(text: string): string {
    if LooksLikeFormula(text) then "'" + text else text
  }

  /** `/[",\r\n]/` */
  predicate NeedsQuotes(text: string) {
    exists k :: 0 <= k < |text| && text[k] in {'"', ',', '\r', '\n'}
  }

  /** `replaceAll('"', '""')` */
  function Doubled(text: string): string {
    if text == "" then "" else (if text[0] == '"' then "\"\"" else [text[0]]) + Doubled(text[1..])
  }

  function Cell(text: string): string {
    var safe := Guarded(text);
    if NeedsQuotes(safe) then "\"" + Doubled(safe) + "\"" else safe
  }

  function Cells(texts: seq<string>): (r: seq<string>)
    ensures |r| == |texts|
  {
    seq(|texts|, k requires 0 <= k < |texts| => Cell(texts[k]))
  }

  function Line(cells: seq<string>): string
    requires cells != []
  {
    Join(cells, ',') + "\r\n"
  }

  /** An entry is the texts of its columns. */
  ghost predicate IsEntry(texts: seq<string>) {
    |texts| == |COLUMNS|
  }

  function Lines(rows: seq<seq<string>>): string
    requires forall k :: 0 <= k < |rows| ==> rows[k] != []
  {
    if rows == [] then "" else Line(rows[0]) + Lines(rows[1..])
  }

  /** The header and a row of cells for every entry. */
  function Rows(entries: seq<seq<string>>): (rows: seq<seq<string>>)
    requires forall k :: 0 <= k < |entries| ==> IsEntry(entries[k])
    ensures forall k :: 0 <= k < |rows| ==> |rows[k]| == |COLUMNS|
  {
    var data := seq(|entries|, k requires 0 <= k < |entries| => Cells(entries[k]));
    assert forall k :: 0 <= k < |data| ==> IsEntry(entries[k]) && data[k] == Cells(entries[k]);
    [COLUMNS] + data
  }

  /** `ledgerCsv` */
  function LedgerCsv(entries: seq<seq<string>>): string
    requires forall k :: 0 <= k < |entries| ==> IsEntry(entries[k])
  {
    Lines(Rows(entries))
  }

  // ---------------------------------------------------------------- the reader

  /** A field and what follows it; `None` is text that is no field. */
  datatype Read = Read(field: string, rest: string)

  /** Rule 5 and rule 7: the inside of a quoted field, after its opening quote. */
  function ReadQuoted(s: string): Option<Read> {
    if s == "" then None
    else if s[0] != '"' then
      match ReadQuoted(s[1..]) case None => None case Some(r) => Some(Read([s[0]] + r.field, r.rest))
    else if |s| > 1 && s[1] == '"' then
      match ReadQuoted(s[2..]) case None => None case Some(r) => Some(Read("\"" + r.field, r.rest))
    else Some(Read("", s[1..]))
  }

  /** An unquoted field ends before a comma or a line break, and has no quote in it. */
  function ReadPlain(s: string): Option<Read> {
    if s == "" || s[0] == ',' || s[0] == '\r' || s[0] == '\n' then Some(Read("", s))
    else if s[0] == '"' then None
    else match ReadPlain(s[1..]) case None => None case Some(r) => Some(Read([s[0]] + r.field, r.rest))
  }

  function ReadField(s: string): Option<Read> {
    if s != "" && s[0] == '"' then ReadQuoted(s[1..]) else ReadPlain(s)
  }

  lemma {:induction false} ReadShortens(s: string)
    ensures ReadQuoted(s).Some? ==> |ReadQuoted(s).value.rest| < |s|
    ensures ReadPlain(s).Some? ==> |ReadPlain(s).value.rest| <= |s|
  {
    if s != "" {
      ReadShortens(s[1..]);
      if |s| > 1 {
        ReadShortens(s[2..]);
      }
    }
  }

  /** A record of fields separated by commas and ended by CRLF (rules 1 and 4). */
  datatype Record = Record(fields: seq<string>, rest: string)

  function ReadRecord(s: string): Option<Record>
    decreases |s|
  {
    match ReadField(s)
    case None => None
    case Some(r) =>
      FieldShortens(s);
      if StartsWith(r.rest, "\r\n") then Some(Record([r.field], r.rest[2..]))
      else if r.rest != "" && r.rest[0] == ',' then
        match ReadRecord(r.rest[1..])
        case None => None
        case Some(more) => Some(Record([r.field] + more.fields, more.rest))
      else None
  }

  lemma FieldShortens(s: string)
    ensures ReadField(s).Some? ==> |ReadField(s).value.rest| <= |s|
  {
    ReadShortens(s);
    if s != "" {
      ReadShortens(s[1..]);
    }
  }

  lemma {:induction false} RecordShortens(s: string)
    ensures ReadRecord(s).Some? ==> |ReadRecord(s).value.rest| < |s|
    decreases |s|
  {
    FieldShortens(s);
    var r := ReadField(s);
    if r.Some? && r.value.rest != "" && r.value.rest[0] == ',' {
      RecordShortens(r.value.rest[1..]);
    }
  }

  /** A file of records. */
  function ReadFile(s: string): Option<seq<seq<string>>>
    decreases |s|
  {
    if s == "" then Some([])
    else
      match ReadRecord(s)
      case None => None
      case Some(r) =>
        RecordShortens(s);
        match ReadFile(r.rest) case None => None case Some(more) => Some([r.fields] + more)
  }

  // ---------------------------------------------------------------- reading what was printed

  ghost predicate Ends(rest: string) {
    rest != "" && (rest[0] == ',' || rest[0] == '\r')
  }

  lemma {:induction false} QuotedRoundTrip(text: string, rest: string)
    requires Ends(rest)
    ensures ReadQuoted(Doubled(text) + ("\"" + rest)) == Some(Read(text, rest))
  {
    var end := "\"" + rest;
    var s := Doubled(text) + end;
    if text == "" {
      assert s == end;
      assert s[1..] == rest;
    } else {
      QuotedRoundTrip(text[1..], rest);
      var head := if text[0] == '"' then "\"\"" else [text[0]];
      Grouped(head, Doubled(text[1..]), end);
      assert s[|head|..] == Doubled(text[1..]) + end;
      assert text == [text[0]] + text[1..];
    }
  }

  lemma {:induction false} PlainRoundTrip(text: string, rest: string)
    requires Ends(rest) && !NeedsQuotes(text)
    ensures ReadPlain(text + rest) == Some(Read(text, rest))
  {
    var s := text + rest;
    if text == "" {
      assert s == rest;
    } else {
      assert forall k :: 0 <= k < |text[1..]| ==> text[1..][k] == text[k + 1];
      PlainRoundTrip(text[1..], rest);
      assert s[1..] == text[1..] + rest;
      assert text == [text[0]] + text[1..];
    }
  }

  lemma {:induction false} QuotedCell(safe: string, rest: string)
    requires Ends(rest)
    ensures ReadField("\"" + Doubled(safe) + "\"" + rest) == Some(Read(safe, rest))
  {
    QuotedRoundTrip(safe, rest);
    var tail := Doubled(safe) + ("\"" + rest);
    Grouped("\"", Doubled(safe), "\"" + rest);
    Grouped("\"" + Doubled(safe), "\"", rest);
    var s := "\"" + Doubled(safe) + "\"" + rest;
    assert s == "\"" + tail;
    assert s[1..] == tail;
  }

  lemma PlainCell(safe: string, rest: string)
    requires Ends(rest) && !NeedsQuotes(safe)
    ensures ReadField(safe + rest) == Some(Read(safe, rest))
  {
    PlainRoundTrip(safe, rest);
    assert (safe + rest)[0] == if safe == "" then rest[0] else safe[0];
  }

  /** A printed cell reads back as the guarded text. */
  lemma CellRoundTrip(text: string, rest: string)
    requires Ends(rest)
    ensures ReadField(Cell(text) + rest) == Some(Read(Guarded(text), rest))
  {
    if NeedsQuotes(Guarded(text)) {
      QuotedCell(Guarded(text), rest);
    } else {
      PlainCell(Guarded(text), rest);
    }
  }

  /** Cells whose field texts are given. */
  ghost predicate ReadsAs(cell: string, field: string) {
    forall rest | Ends(rest) :: ReadField(cell + rest) == Some(Read(field, rest))
  }

  ghost predicate AllReadAs(cells: seq<string>, fields: seq<string>) {
    |cells| == |fields| && forall k :: 0 <= k < |cells| ==> ReadsAs(cells[k], fields[k])
  }

  /** A printed line reads back as its fields. */
  lemma {:induction false} LineRoundTrip(cells: seq<string>, fields: seq<string>, rest: string)
    requires cells != [] && AllReadAs(cells, fields)
    ensures ReadRecord(Line(cells) + rest) == Some(Record(fields, rest))
  {
    if |cells| == 1 {
      var after := "\r\n" + rest;
      Grouped(cells[0], "\r\n", rest);
      assert Line(cells) + rest == cells[0] + after;
      LastField(cells[0], fields[0], rest);
      assert fields == [fields[0]];
    } else {
      LineRoundTrip(cells[1..], fields[1..], rest);
      var more := Line(cells[1..]) + rest;
      LineOfMore(cells, rest);
      FirstField(cells[0], fields[0], more);
      assert fields == [fields[0]] + fields[1..];
    }
  }

  lemma LastField(cell: string, field: string, rest: string)
    requires ReadsAs(cell, field)
    ensures ReadRecord(cell + ("\r\n" + rest)) == Some(Record([field], rest))
  {
    var after := "\r\n" + rest;
    assert Ends(after) && after[2..] == rest && after[..2] == "\r\n";
  }

  lemma FirstField(cell: string, field: string, more: string)
    requires ReadsAs(cell, field)
    ensures var r := ReadRecord(more);
            ReadRecord(cell + ("," + more))
            == if r.Some? then Some(Record([field] + r.value.fields, r.value.rest)) else None
  {
    var after := "," + more;
    assert Ends(after) && after[1..] == more;
  }

  lemma LineOfMore(cells: seq<string>, rest: string)
    requires |cells| > 1
    ensures Line(cells) + rest == cells[0] + ("," + (Line(cells[1..]) + rest))
  {
    var tail := Join(cells[1..], ',');
    assert Join(cells, ',') == cells[0] + ("," + tail);
    Grouped(cells[0], "," + tail, "\r\n");
    Grouped(",", tail, "\r\n");
    Grouped(cells[0], "," + Line(cells[1..]), rest);
    Grouped(",", Line(cells[1..]), rest);
  }

  lemma {:induction false} FileRoundTrip(rows: seq<seq<string>>, fields: seq<seq<string>>)
    requires |rows| == |fields|
    requires forall k :: 0 <= k < |rows| ==> rows[k] != [] && AllReadAs(rows[k], fields[k])
    ensures ReadFile(Lines(rows)) == Some(fields)
  {
    if rows != [] {
      FileRoundTrip(rows[1..], fields[1..]);
      LineRoundTrip(rows[0], fields[0], Lines(rows[1..]));
      assert Lines(rows) == Line(rows[0]) + Lines(rows[1..]);
      assert fields == [fields[0]] + fields[1..];
    }
  }

  function GuardedAll(texts: seq<string>): seq<string> {
    seq(|texts|, k requires 0 <= k < |texts| => Guarded(texts[k]))
  }

  lemma CellsReadAs(texts: seq<string>)
    ensures AllReadAs(Cells(texts), GuardedAll(texts))
  {
    forall k, rest | 0 <= k < |texts| && Ends(rest)
      ensures ReadField(Cells(texts)[k] + rest) == Some(Read(GuardedAll(texts)[k], rest))
    {
      CellRoundTrip(texts[k], rest);
    }
  }

  predicate Letter(c: char) {
    'a' <= c <= 'z' || 'A' <= c <= 'Z'
  }

  predicate Letters(s: string) {
    forall k :: 0 <= k < |s| ==> Letter(s[k])
  }

  ghost predicate AllLetters(names: seq<string>) {
    forall k :: 0 <= k < |names| ==> Letters(names[k])
  }

  lemma FirstLetters()
    ensures AllLetters(FIRST_COLUMNS)
  {
    assert Letters("requestId") && Letters("requester") && Letters("label");
    assert Letters("platform") && Letters("model") && Letters("workerId");
  }

  lemma MiddleLetters()
    ensures AllLetters(MIDDLE_COLUMNS)
  {
    assert Letters("source") && Letters("requestedAt") && Letters("grantedAt");
    assert Letters("rejectedAt") && Letters("endedAt") && Letters("waitMs");
  }

  lemma LastLetters()
    ensures AllLetters(LAST_COLUMNS)
  {
    assert Letters("heldMs") && Letters("turnaroundMs") && Letters("outcome");
    assert Letters("probe") && Letters("reason") && Letters("endReason");
  }

  lemma LettersTogether(a: seq<string>, b: seq<string>)
    requires AllLetters(a) && AllLetters(b)
    ensures AllLetters(a + b)
  {
  }

  lemma HeaderLetters()
    ensures AllLetters(COLUMNS)
  {
    FirstLetters();
    MiddleLetters();
    LastLetters();
    LettersTogether(FIRST_COLUMNS, MIDDLE_COLUMNS);
    LettersTogether(FIRST_COLUMNS + MIDDLE_COLUMNS, LAST_COLUMNS);
  }

  lemma LettersReadAs(name: string)
    requires Letters(name)
    ensures ReadsAs(name, name)
  {
    forall rest | Ends(rest)
      ensures ReadField(name + rest) == Some(Read(name, rest))
    {
      PlainCell(name, rest);
    }
  }

  lemma NamesReadAs(names: seq<string>)
    requires AllLetters(names)
    ensures AllReadAs(names, names)
  {
    forall k | 0 <= k < |names|
      ensures ReadsAs(names[k], names[k])
    {
      LettersReadAs(names[k]);
    }
  }

  /** What the file says: the header, and the guarded texts of every entry. */
  function Decoded(entries: seq<seq<string>>): seq<seq<string>> {
    [COLUMNS] + seq(|entries|, k requires 0 <= k < |entries| => GuardedAll(entries[k]))
  }

  /**
   * For every list of entries, reading the printed ledger by section 2 of RFC 4180 gives exactly
   * the header and the guarded cell texts.
   */
  lemma {:induction false} LedgerRoundTrip(entries: seq<seq<string>>)
    requires forall k :: 0 <= k < |entries| ==> IsEntry(entries[k])
    ensures ReadFile(LedgerCsv(entries)) == Some(Decoded(entries))
  {
    var rows := Rows(entries);
    HeaderLetters();
    NamesReadAs(COLUMNS);
    forall k | 0 <= k < |rows|
      ensures rows[k] != [] && AllReadAs(rows[k], Decoded(entries)[k])
    {
      if k > 0 {
        CellsReadAs(entries[k - 1]);
      }
    }
    FileRoundTrip(rows, Decoded(entries));
  }

  /** A control character, or white space as ECMAScript defines it. */
  ghost predicate Blank(c: char) {
    var u := c as int;
    || 0 <= u <= 0x1F || 0x7F <= u <= 0x9F
    || 9 <= u <= 13 || u in {0x20, 0xA0, 0x1680, 0x2028, 0x2029, 0x202F, 0x205F, 0x3000, 0xFEFF}
    || 0x2000 <= u <= 0x200A
  }

  /** The first character that is not blank is one a spreadsheet starts a formula with. */
  ghost predicate RunsAt(text: string, k: nat) {
    k < |text| && text[k] in {'=', '+', '-', '@'} && forall j :: 0 <= j < k ==> Blank(text[j])
  }

  ghost predicate RunsAsFormula(text: string) {
    exists k: nat :: RunsAt(text, k)
  }

  lemma BlankIsSkipped(c: char)
    ensures Blank(c) <==> Skipped(c)
  {
  }

  lemma {:induction false} LooksExactlyLikeFormula(text: string)
    ensures LooksLikeFormula(text) <==> RunsAsFormula(text)
  {
    if text != "" {
      var rest := text[1..];
      BlankIsSkipped(text[0]);
      LooksExactlyLikeFormula(rest);
      if FormulaChar(text[0]) {
        assert RunsAt(text, 0);
      } else if Skipped(text[0]) && LooksLikeFormula(rest) {
        var k: nat :| RunsAt(rest, k);
        assert RunsAt(text, k + 1);
      }
      if k: nat :| RunsAt(text, k) {
        if k > 0 {
          assert Blank(text[0]) && RunsAt(rest, k - 1);
        }
      }
    }
  }

  lemma GuardIsSafe(text: string)
    ensures !LooksLikeFormula(Guarded(text))
  {
    assert !LooksLikeFormula("'" + text);
  }

  lemma DecodedCell(entries: seq<seq<string>>, row: nat, column: nat)
    requires row < |entries| && column < |entries[row]|
    ensures |Decoded(entries)| == |entries| + 1 && |Decoded(entries)[row + 1]| == |entries[row]|
    ensures Decoded(entries)[row + 1][column] == Guarded(entries[row][column])
  {
    assert Decoded(entries)[row + 1] == GuardedAll(entries[row]);
  }

  /** The data cells of a file: none begins as a formula; each is its text, with one quote in front
      exactly when the text would have been run as a formula. */
  ghost predicate SafelyPrinted(entries: seq<seq<string>>, file: seq<seq<string>>) {
    && |file| == |entries| + 1
    && forall row: nat, column: nat | row < |entries| && column < |entries[row]| ::
         SafeCell(entries, file, row, column)
  }

  ghost predicate SafeCell(entries: seq<seq<string>>, file: seq<seq<string>>, row: nat, column: nat)
    requires row < |entries| && column < |entries[row]| && |file| == |entries| + 1
  {
    && |file[row + 1]| == |entries[row]|
    && !RunsAsFormula(file[row + 1][column])
    && file[row + 1][column]
       == if RunsAsFormula(entries[row][column]) then "'" + entries[row][column] else entries[row][column]
  }

  lemma DecodedIsSafe(entries: seq<seq<string>>)
    ensures SafelyPrinted(entries, Decoded(entries))
  {
    forall row: nat, column: nat | row < |entries| && column < |entries[row]|
      ensures SafeCell(entries, Decoded(entries), row, column)
    {
      DecodedCell(entries, row, column);
      GuardIsSafe(entries[row][column]);
      LooksExactlyLikeFormula(entries[row][column]);
      LooksExactlyLikeFormula(Guarded(entries[row][column]));
    }
  }

  /** No data cell of the ledger, read back, is run as a formula, and no other cell is changed. */
  lemma {:induction false} NoFormulaSurvives(entries: seq<seq<string>>)
    requires forall k :: 0 <= k < |entries| ==> IsEntry(entries[k])
    ensures ReadFile(LedgerCsv(entries)).Some? && SafelyPrinted(entries, ReadFile(LedgerCsv(entries)).value)
  {
    LedgerRoundTrip(entries);
    DecodedIsSafe(entries);
  }
}
