/**
  Table cells marked for selection (packages/tui/src/selection-metadata.ts): invisible markers are put
  around a table's cells when its lines are made, and taken out again, with the cells' places, after
  the lines have been laid out.
*/
module TableMarkers {
  import opened Basics
  import opened Substrings
  import opened AnsiScanner
  import opened StyleTracker

  const PREFIX: string := [ESC, '_', 'p', 'i', ':', 't', 'a', 'b', 'l', 'e', ':']
  const START_MARKER: string := PREFIX + "start" + [BEL]
  const END_MARKER: string := PREFIX + "end" + [BEL]

  /** How wide a string is shown, and the escaping of a cell's content in its marker (`encodeURIComponent`). */
  datatype Measures = Measures(width: string -> nat, encode: string -> string, decode: string -> string)

  predicate IsSafe(s: string) {
    ':' !in s && ESC !in s && BEL !in s
  }

  /** Decoding undoes encoding, and an encoded string holds nothing that could end or split a marker. */
  ghost predicate IsCodec(t: Measures) {
    forall s :: t.decode(t.encode(s)) == s && IsSafe(t.encode(s))
  }

  datatype CellMarker = CellMarker(isStart: bool, row: nat, column: nat, segment: nat, content: Option<string>)

  function KindText(isStart: bool): string {
    if isStart then "cell-start" else "cell-end"
  }

  /** A marker's fields in order. */
  function Fields(t: Measures, m: CellMarker): seq<string> {
    [KindText(m.isStart), Decimal(m.row), Decimal(m.column), Decimal(m.segment)]
    + if m.content.Some? then [t.encode(m.content.value)] else []
  }

  /** `cellMarker`. */
  function MarkerText(t: Measures, m: CellMarker): string {
    PREFIX + Join(Fields(t, m), ':') + [BEL]
  }

  /** `parseCellMarker`, with numbers in decimal digits. */
  function ParseCellMarker(t: Measures, code: string): Option<CellMarker> {
    if !(PREFIX <= code) || code[|code| - 1] != BEL then None
    else
      var fields := Split(code[|PREFIX|..|code| - 1], ':');
      if fields[0] != KindText(true) && fields[0] != KindText(false) then None
      else if |fields| < 4 || ParseInt(fields[1]).None? || ParseInt(fields[2]).None? || ParseInt(fields[3]).None?
        then None
      else
        Some(CellMarker(fields[0] == KindText(true), ParseInt(fields[1]).value, ParseInt(fields[2]).value,
          ParseInt(fields[3]).value,
                        if |fields| >= 5 then Some(t.decode(fields[4])) else None))
  }

  /** `markTableCell`: only a cell's first segment carries its content. */
  function MarkTableCell(t: Measures, text: string, row: nat, column: nat, segment: nat, content: string): string {
    MarkerText(t, CellMarker(true, row, column, segment, if segment == 0 then Some(content) else None)) + text
    + MarkerText(t, CellMarker(false, row, column, segment, None))
  }

  // Markers

  lemma DigitsAreSafe(n: nat)
    ensures IsSafe(Decimal(n)) && ParseInt(Decimal(n)) == Some(n)
  {
    DecimalValue(n);
    assert AllDigits(Decimal(n));
  }

  lemma FieldsAreSafe(t: Measures, m: CellMarker)
    requires IsCodec(t)
    ensures forall i :: 0 <= i < |Fields(t, m)| ==> IsSafe(Fields(t, m)[i])
  {
    DigitsAreSafe(m.row);
    DigitsAreSafe(m.column);
    DigitsAreSafe(m.segment);
    assert IsSafe("cell-start") && IsSafe("cell-end");
    hide Decimal;
    hide IsSafe;
  }

  lemma {:induction false} SplitFields(fields: seq<string>)
    requires fields != [] && forall i :: 0 <= i < |fields| ==> IsSafe(fields[i])
    ensures Split(Join(fields, ':'), ':') == fields
  {
    SplitNone(fields[0], ':');
    if |fields| > 1 {
      SplitFields(fields[1..]);
      SplitConcat(fields[0], Join(fields[1..], ':'), ':');
      hide Split;
    }
  }

  /** A printed marker is parsed back. */
  lemma MarkerRoundTrip(t: Measures, m: CellMarker)
    requires IsCodec(t)
    ensures ParseCellMarker(t, MarkerText(t, m)) == Some(m)
  {
    var fields, code := Fields(t, m), MarkerText(t, m);
    FieldsAreSafe(t, m);
    SplitFields(fields);
    assert code[|PREFIX|..|code| - 1] == Join(fields, ':');
    DigitsAreSafe(m.row);
    DigitsAreSafe(m.column);
    DigitsAreSafe(m.segment);
    hide Join;
    hide Split;
    hide Decimal;
    hide ParseInt;
  }

  lemma {:induction false} JoinHasNoEnd(fields: seq<string>)
    requires forall i :: 0 <= i < |fields| ==> IsSafe(fields[i])
    ensures ESC !in Join(fields, ':') && BEL !in Join(fields, ':')
  {
    if |fields| > 1 {
      JoinHasNoEnd(fields[1..]);
    }
  }

  lemma {:induction false} EndsAtBel(code: string, j: nat)
    requires j < |code| && code[|code| - 1] == BEL
    requires forall i :: j <= i < |code| - 1 ==> code[i] != ESC && code[i] != BEL
    ensures ControlEnd(code, j, true) == Some(|code|)
    decreases |code| - j
  {
    if j < |code| - 1 {
      EndsAtBel(code, j + 1);
    }
  }

  /** An APC string without another terminator inside. */
  lemma MarkerIsCode(body: string)
    requires ESC !in body && BEL !in body
    ensures IsCode(PREFIX + body + [BEL])
  {
    var code := PREFIX + body + [BEL];
    assert forall i :: 2 <= i < |code| - 1 ==> code[i] == if i < |PREFIX| then PREFIX[i] else body[i - |PREFIX|];
    assert forall i :: 2 <= i < |PREFIX| ==> PREFIX[i] != ESC && PREFIX[i] != BEL;
    assert forall i :: 0 <= i < |body| ==> body[i] != ESC && body[i] != BEL;
    EndsAtBel(code, 2);
    assert code[0] == ESC && code[1] == '_';
  }

  lemma CellMarkerIsCode(t: Measures, m: CellMarker)
    requires IsCodec(t)
    ensures var code := MarkerText(t, m); IsCode(code) && code != START_MARKER && code != END_MARKER
  {
    FieldsAreSafe(t, m);
    JoinHasNoEnd(Fields(t, m));
    MarkerIsCode(Join(Fields(t, m), ':'));
    MarkerStartsCell(t, m);
  }

  lemma MarkerStartsCell(t: Measures, m: CellMarker)
    ensures |MarkerText(t, m)| > |PREFIX| && MarkerText(t, m)[|PREFIX|] == 'c'
  {
    var fields := Fields(t, m);
    assert fields[0] == KindText(m.isStart);
    assert Join(fields, ':')[0] == 'c';
    hide Decimal;
  }

  lemma TableMarkersAreCodes()
    ensures IsCode(START_MARKER) && IsCode(END_MARKER) && START_MARKER != END_MARKER
  {
    MarkerIsCode("start");
    MarkerIsCode("end");
    assert START_MARKER[|PREFIX|] == 's' && END_MARKER[|PREFIX|] == 'e';
  }

  // Pieces of a line

  /** Text whose escape sequences are complete and are no table markers. */
  ghost predicate Ordinary(text: string) {
    forall i :: 0 <= i < |Pieces(text, 0)| ==> OrdinaryPiece(Pieces(text, 0)[i])
  }

  predicate OrdinaryPiece(piece: Piece) {
    match piece
    case Unit(c) => c != ESC
    case Code(code) => !(PREFIX <= code)
  }

  lemma PlainUnit(s: string, pos: nat)
    requires pos < |s| && s[pos] != ESC
    ensures EndAt(s, pos).None?
  {
  }

  function NextPos(s: string, pos: nat): (next: nat)
    requires pos < |s|
    ensures pos < next <= |s|
  {
    match EndAt(s, pos) case Some(end) => end case None => pos + 1
  }

  function FirstPiece(s: string, pos: nat): Piece
    requires pos < |s|
  {
    if EndAt(s, pos).Some? then Code(s[pos..NextPos(s, pos)]) else Unit(s[pos])
  }

  lemma PieceAt(s: string, pos: nat)
    requires pos < |s|
    ensures Pieces(s, pos) == [FirstPiece(s, pos)] + Pieces(s, NextPos(s, pos))
  {
    hide EndAt;
  }

  ghost predicate NoLoneEscape(pieces: seq<Piece>) {
    forall i :: 0 <= i < |pieces| && pieces[i].Unit? ==> pieces[i].c != ESC
  }

  lemma NoLoneEscapeIn(a: seq<Piece>, b: seq<Piece>)
    requires NoLoneEscape(a + b)
    ensures NoLoneEscape(a) && NoLoneEscape(b)
  {
    assert forall i :: 0 <= i < |a| ==> (a + b)[i] == a[i];
    assert forall i :: 0 <= i < |b| ==> (a + b)[|a| + i] == b[i];
  }

  /** The first piece stays, whatever comes behind, unless it is a lone escape. */
  lemma FirstPieceStays(a: string, b: string, pos: nat)
    requires pos < |a| && NoLoneEscape([FirstPiece(a, pos)])
    ensures FirstPiece(a + b, pos) == FirstPiece(a, pos) && NextPos(a + b, pos) == NextPos(a, pos)
  {
    hide EndAt;
    var ab, end := a + b, NextPos(a, pos);
    assert ab[pos] == a[pos] && ab[pos..end] == a[pos..end];
    if EndAt(a, pos).Some? {
      EndAtLocal(a, pos, ab, pos);
    } else {
      assert [FirstPiece(a, pos)][0].c != ESC;
      PlainUnit(ab, pos);
    }
  }

  /** After complete escape sequences a further text is scanned as if it stood alone. */
  lemma {:induction false} PiecesJoin(a: string, b: string, pos: nat)
    requires pos <= |a| && NoLoneEscape(Pieces(a, pos))
    ensures Pieces(a + b, pos) == Pieces(a, pos) + Pieces(b, 0)
    decreases |a| - pos
  {
    if pos == |a| {
      PiecesShift(a, b);
      assert [] + Pieces(b, 0) == Pieces(b, 0);
    } else {
      PieceAt(a, pos);
      PieceAt(a + b, pos);
      hide Pieces;
      hide NextPos;
      var next := NextPos(a, pos);
      Regroup([FirstPiece(a, pos)], Pieces(a, next), Pieces(b, 0));
      NoLoneEscapeIn([FirstPiece(a, pos)], Pieces(a, next));
      FirstPieceStays(a, b, pos);
      hide NoLoneEscape;
      hide FirstPiece;
      PiecesJoin(a, b, next);
    }
  }

  /** Scanning looks ahead only. */
  lemma EndAtSuffix(s: string, i: nat, t: string, k: nat)
    requires i < |s| && k < |t| && s[i..] == t[k..]
    ensures EndAt(s, i).Some? <==> EndAt(t, k).Some?
    ensures EndAt(s, i).Some? ==> EndAt(s, i).value - i == EndAt(t, k).value - k
  {
    if EndAt(s, i).Some? {
      var n := EndAt(s, i).value - i;
      assert s[i..i + n] == s[i..][..n] == t[k..][..n] == t[k..k + n];
      EndAtLocal(s, i, t, k);
    } else if EndAt(t, k).Some? {
      var n := EndAt(t, k).value - k;
      assert t[k..k + n] == t[k..][..n] == s[i..][..n] == s[i..i + n];
      EndAtLocal(t, k, s, i);
    }
  }

  lemma FirstPieceSuffix(s: string, i: nat, t: string, k: nat)
    requires i < |s| && k < |t| && s[i..] == t[k..]
    ensures FirstPiece(s, i) == FirstPiece(t, k) && NextPos(s, i) - i == NextPos(t, k) - k
    ensures s[NextPos(s, i)..] == t[NextPos(t, k)..]
  {
    EndAtSuffix(s, i, t, k);
    hide EndAt;
    var n := NextPos(s, i) - i;
    assert s[i] == s[i..][0] == t[k];
    assert s[i..i + n] == s[i..][..n] == t[k..][..n] == t[k..k + n];
    assert s[i + n..] == s[i..][n..] == t[k..][n..] == t[k + n..];
  }

  lemma {:induction false} PiecesSuffix(s: string, i: nat, t: string, k: nat)
    requires i <= |s| && k <= |t| && s[i..] == t[k..]
    ensures Pieces(s, i) == Pieces(t, k)
    decreases |s| - i
  {
    assert |s| - i == |s[i..]| == |t[k..]| == |t| - k;
    if i < |s| {
      FirstPieceSuffix(s, i, t, k);
      PieceAt(s, i);
      PieceAt(t, k);
      hide Pieces;
      hide NextPos;
      hide FirstPiece;
      PiecesSuffix(s, NextPos(s, i), t, NextPos(t, k));
    }
  }

  lemma PiecesShift(a: string, b: string)
    ensures Pieces(a + b, |a|) == Pieces(b, 0)
  {
    assert (a + b)[|a|..] == b[0..];
    PiecesSuffix(a + b, |a|, b, 0);
  }

  // Taking the markers out

  datatype Bounds = Bounds(top: nat, bottom: nat, left: nat, right: nat)

  datatype ActiveCell = ActiveCell(marker: CellMarker, col: nat)

  /** A cell's place; its table's bounds and its content are filled in at the end. */
  datatype Place = Place(line: nat, col: nat, width: nat, table: nat, row: nat, column: nat, segment: nat)

  datatype Region = Region(place: Place, bounds: Bounds, content: string)

  type Contents = map<(nat, nat, nat), string>

  /** The tables seen so far, by their index; `table` is the open one. */
  datatype Tables = Tables(table: Option<nat>, count: nat, bounds: map<nat, Bounds>, contents: Contents,
      places: seq<Place>)

  datatype LineState = LineState(clean: string, active: Option<ActiveCell>, tables: Tables)

  function AfterStart(t: Measures, line: nat, ls: LineState): LineState {
    var col := t.width(ls.clean);
    var index := ls.tables.count;
    ls.(tables :=
      ls.tables.(table := Some(index), count := index + 1,
        bounds := ls.tables.bounds[index := Bounds(line, line, col, col)]))
  }

  function AfterEnd(t: Measures, line: nat, ls: LineState): LineState {
    var closed := ls.tables.(table := None);
    if ls.tables.table.None? || ls.tables.table.value !in ls.tables.bounds then ls.(active := None, tables := closed)
    else
      var index := ls.tables.table.value;
      var bounds := ls.tables.bounds[index].(bottom := line, right := t.width(ls.clean));
      ls.(active := None, tables := closed.(bounds := ls.tables.bounds[index := bounds]))
  }

  function AfterCellStart(t: Measures, ls: LineState, m: CellMarker): LineState {
    var begun := ls.(active := Some(ActiveCell(m, t.width(ls.clean))));
    if ls.tables.table.None? || m.content.None? then begun
    else begun.(tables :=
      ls.tables.(contents := ls.tables.contents[(ls.tables.table.value, m.row, m.column) := m.content.value]))
  }

  function AfterCellEnd(t: Measures, line: nat, ls: LineState, m: CellMarker): LineState
    requires ls.tables.table.Some? && ls.active.Some?
  {
    var cell, end := ls.active.value, t.width(ls.clean);
    if end > cell.col && (m.row, m.column, m.segment) == (cell.marker.row, cell.marker.column, cell.marker.segment) then
      var place := Place(line, cell.col, end - cell.col, ls.tables.table.value, m.row, m.column, m.segment);
      ls.(active := None, tables := ls.tables.(places := ls.tables.places + [place]))
    else ls.(active := None)
  }

  /** One piece of a line: a character, an ordinary escape sequence, or a marker. */
  function AfterPiece(t: Measures, line: nat, ls: LineState, piece: Piece): LineState {
    match piece
    case Unit(c) => ls.(clean := ls.clean + [c])
    case Code(code) =>
      if code == START_MARKER then AfterStart(t, line, ls)
      else if code == END_MARKER then AfterEnd(t, line, ls)
      else
        var marker := ParseCellMarker(t, code);
        if marker.Some? && marker.value.isStart then AfterCellStart(t, ls, marker.value)
        else if marker.Some? && ls.tables.table.Some? && ls.active.Some? then AfterCellEnd(t, line, ls, marker.value)
        else ls.(clean := ls.clean + code)
  }

  function AfterLine(t: Measures, line: nat, ls: LineState, pieces: seq<Piece>): LineState {
    if pieces == [] then ls
      else AfterPiece(t, line, AfterLine(t, line, ls, pieces[..|pieces| - 1]), pieces[|pieces| - 1])
  }

  const NO_TABLES := Tables(None, 0, map[], map[], [])

  function LineResult(t: Measures, line: nat, tables: Tables, source: string): LineState {
    AfterLine(t, line, LineState("", None, tables), Pieces(source, 0))
  }

  /** Lines in order, the first of them numbered `start`: the cleaned lines and the tables. */
  function AfterLines(t: Measures, start: nat, tables: Tables, lines: seq<string>): (seq<string>, Tables) {
    if lines == [] then ([], tables)
    else
      var n := |lines| - 1;
      var before := AfterLines(t, start, tables, lines[..n]);
      var last := LineResult(t, start + n, before.1, lines[n]);
      (before.0 + [last.clean], last.tables)
  }

  function Finished(tables: Tables, place: Place): Region {
    Region(place,
           if place.table in tables.bounds then tables.bounds[place.table] else Bounds(0, 0, 0, 0),
           if (place.table, place.row, place.column) in tables.contents
             then tables.contents[(place.table, place.row, place.column)] else "")
  }

  function FinishedAll(tables: Tables, places: seq<Place>): seq<Region> {
    seq(|places|, i requires 0 <= i < |places| => Finished(tables, places[i]))
  }

  // The pieces of the marked parts, one after another

  lemma {:induction false} AfterConcat(t: Measures, line: nat, ls: LineState, a: seq<Piece>, b: seq<Piece>)
    ensures AfterLine(t, line, ls, a + b) == AfterLine(t, line, AfterLine(t, line, ls, a), b)
    decreases |b|
  {
    if b == [] {
      assert a + b == a;
    } else {
      var ab, init := a + b, b[..|b| - 1];
      assert ab[..|ab| - 1] == a + init && ab[|ab| - 1] == b[|b| - 1];
      hide AfterPiece;
      AfterConcat(t, line, ls, a, init);
    }
  }

  function PiecesText(pieces: seq<Piece>): string {
    if pieces == [] then ""
    else PiecesText(pieces[..|pieces| - 1]) + match pieces[|pieces| - 1] case Unit(c) => [c] case Code(code) => code
  }

  lemma {:induction false} PiecesTextConcat(a: seq<Piece>, b: seq<Piece>)
    ensures PiecesText(a + b) == PiecesText(a) + PiecesText(b)
  {
    if b == [] {
      assert a + b == a;
    } else {
      var ab := a + b;
      assert ab[..|ab| - 1] == a + b[..|b| - 1] && ab[|ab| - 1] == b[|b| - 1];
      PiecesTextConcat(a, b[..|b| - 1]);
    }
  }

  lemma FirstPieceText(s: string, pos: nat)
    requires pos < |s|
    ensures PiecesText([FirstPiece(s, pos)]) == s[pos..NextPos(s, pos)]
  {
    var first := FirstPiece(s, pos);
    assert [first][..0] == [];
    assert "" + s[pos..NextPos(s, pos)] == s[pos..NextPos(s, pos)];
    hide EndAt;
  }

  /** The pieces make up the text. */
  lemma {:induction false} PiecesKeepText(s: string, pos: nat)
    requires pos <= |s|
    ensures PiecesText(Pieces(s, pos)) == s[pos..]
    decreases |s| - pos
  {
    if pos == |s| {
      assert Pieces(s, pos) == [];
    } else {
      PieceAt(s, pos);
      FirstPieceText(s, pos);
      FirstThenRest(s, pos, NextPos(s, pos));
    }
  }

  lemma {:induction false} FirstThenRest(s: string, pos: nat, end: nat)
    requires pos < |s| && pos < end <= |s| && Pieces(s, pos) == [FirstPiece(s, pos)] + Pieces(s, end)
    requires PiecesText([FirstPiece(s, pos)]) == s[pos..end]
    ensures PiecesText(Pieces(s, pos)) == s[pos..]
    decreases |s| - pos, 0
  {
    hide Pieces;
    hide FirstPiece;
    hide PiecesText;
    PiecesKeepText(s, end);
    PiecesTextConcat([FirstPiece(s, pos)], Pieces(s, end));
    assert s[pos..] == s[pos..end] + s[end..];
  }

  /** Pieces that are no markers are kept. */
  lemma {:induction false} OrdinaryKept(t: Measures, line: nat, ls: LineState, pieces: seq<Piece>)
    requires forall i :: 0 <= i < |pieces| && pieces[i].Code? ==> !(PREFIX <= pieces[i].code)
    ensures AfterLine(t, line, ls, pieces) == ls.(clean := ls.clean + PiecesText(pieces))
  {
    if pieces != [] {
      var init, last := pieces[..|pieces| - 1], pieces[|pieces| - 1];
      OrdinaryKept(t, line, ls, init);
      assert last.Code? ==> !(PREFIX <= last.code) && last.code != START_MARKER && last.code != END_MARKER;
    }
  }

  lemma TextKept(t: Measures, line: nat, ls: LineState, text: string)
    requires Ordinary(text)
    ensures AfterLine(t, line, ls, Pieces(text, 0)) == ls.(clean := ls.clean + text)
  {
    OrdinaryKept(t, line, ls, Pieces(text, 0));
    PiecesKeepText(text, 0);
  }

  /** A marker in front of a text is one piece of it. */
  lemma MarkerFirst(t: Measures, line: nat, ls: LineState, code: string, rest: string)
    requires IsCode(code)
    ensures AfterLine(t, line, ls, Pieces(code + rest, 0))
            == AfterLine(t, line, AfterPiece(t, line, ls, Code(code)), Pieces(rest, 0))
  {
    PiecesOfCode(code, rest);
    PiecesShift(code, rest);
    AfterConcat(t, line, ls, [Code(code)], Pieces(rest, 0));
    assert [Code(code)][..0] == [];
    hide AfterPiece;
  }

  lemma TextFirst(t: Measures, line: nat, ls: LineState, text: string, rest: string)
    requires Ordinary(text)
    ensures AfterLine(t, line, ls, Pieces(text + rest, 0))
            == AfterLine(t, line, ls.(clean := ls.clean + text), Pieces(rest, 0))
  {
    assert NoLoneEscape(Pieces(text, 0));
    PiecesJoin(text, rest, 0);
    AfterConcat(t, line, ls, Pieces(text, 0), Pieces(rest, 0));
    TextKept(t, line, ls, text);
  }

  // Marked documents

  /** A stretch of a table's line, inside a cell or not. */
  datatype Part = Plain(text: string) | InCell(text: string, row: nat, column: nat, segment: nat, content: string)

  /** A line of its own, or a table's lines. */
  datatype Block = Prose(line: string) | Grid(rows: seq<seq<Part>>)

  function RowText(row: seq<Part>): string {
    if row == [] then "" else row[0].text + RowText(row[1..])
  }

  function MarkedPart(t: Measures, p: Part): string {
    if p.Plain? then p.text else MarkTableCell(t, p.text, p.row, p.column, p.segment, p.content)
  }

  function MarkedRow(t: Measures, row: seq<Part>): string {
    if row == [] then "" else MarkedPart(t, row[0]) + MarkedRow(t, row[1..])
  }

  /** `markTableStart` on a table's first line and `markTableEnd` on its last. */
  function MarkedLine(t: Measures, rows: seq<seq<Part>>, i: nat): string
    requires i < |rows|
  {
    (if i == 0 then START_MARKER else "") + MarkedRow(t, rows[i]) + if i == |rows| - 1 then END_MARKER else ""
  }

  function MarkedBlock(t: Measures, block: Block): seq<string> {
    if block.Prose? then [block.line]
      else seq(|block.rows|, i requires 0 <= i < |block.rows| => MarkedLine(t, block.rows, i))
  }

  function MarkedLines(t: Measures, doc: seq<Block>): seq<string> {
    if doc == [] then [] else MarkedLines(t, doc[..|doc| - 1]) + MarkedBlock(t, doc[|doc| - 1])
  }

  ghost predicate OrdinaryRow(row: seq<Part>) {
    forall i :: 0 <= i < |row| ==> Ordinary(row[i].text)
  }

  ghost predicate OrdinaryBlock(block: Block) {
    if block.Prose? then Ordinary(block.line)
    else block.rows != [] && forall i :: 0 <= i < |block.rows| ==> OrdinaryRow(block.rows[i])
  }

  // What is to come out

  function CleanBlock(block: Block): seq<string> {
    if block.Prose? then [block.line] else seq(|block.rows|, i requires 0 <= i < |block.rows| => RowText(block.rows[i]))
  }

  function CleanLines(doc: seq<Block>): seq<string> {
    if doc == [] then [] else CleanLines(doc[..|doc| - 1]) + CleanBlock(doc[|doc| - 1])
  }

  function TableCount(doc: seq<Block>): nat {
    if doc == [] then 0 else TableCount(doc[..|doc| - 1]) + if doc[|doc| - 1].Grid? then 1 else 0
  }

  /** The place of a cell's segment, if it is not empty, behind the text `before` it. */
  function PartPlaces(t: Measures, line: nat, table: nat, before: string, p: Part): seq<Place> {
    var col, end := t.width(before), t.width(before + p.text);
    if p.InCell? && end > col then [Place(line, col, end - col, table, p.row, p.column, p.segment)] else []
  }

  function RowPlaces(t: Measures, line: nat, table: nat, before: string, row: seq<Part>): seq<Place>
    decreases |row|
  {
    if row == [] then []
      else PartPlaces(t, line, table, before, row[0]) + RowPlaces(t, line, table, before + row[0].text, row[1..])
  }

  function GridPlaces(t: Measures, top: nat, table: nat, rows: seq<seq<Part>>): seq<Place> {
    if rows == [] then []
    else GridPlaces(t, top, table, rows[..|rows| - 1]) + RowPlaces(t, top + |rows| - 1, table, "", rows[|rows| - 1])
  }

  /** The content of the last first segment of a cell. */
  function RowContent(row: seq<Part>, r: nat, c: nat): Option<string> {
    if row == [] then None
    else
      var rest := RowContent(row[1..], r, c);
      if rest.Some? then rest
      else if row[0].InCell? && row[0].segment == 0 && row[0].row == r && row[0].column == c then Some(row[0].content)
        else None
  }

  function GridContent(rows: seq<seq<Part>>, r: nat, c: nat): Option<string> {
    if rows == [] then None
    else
      var last := RowContent(rows[|rows| - 1], r, c);
      if last.Some? then last else GridContent(rows[..|rows| - 1], r, c)
  }

  /** From the table's first line to its last, and from the start of the first to the end of the last. */
  function GridBounds(t: Measures, top: nat, rows: seq<seq<Part>>): Bounds
    requires rows != []
  {
    Bounds(top, top + |rows| - 1, t.width(""), t.width(RowText(rows[|rows| - 1])))
  }

  function GridRegion(t: Measures, top: nat, rows: seq<seq<Part>>, place: Place): Region
    requires rows != []
  {
    var content := GridContent(rows, place.row, place.column);
    Region(place, GridBounds(t, top, rows), if content.Some? then content.value else "")
  }

  function GridRegions(t: Measures, top: nat, table: nat, rows: seq<seq<Part>>): seq<Region>
    requires rows != []
  {
    var places := GridPlaces(t, top, table, rows);
    seq(|places|, i requires 0 <= i < |places| => GridRegion(t, top, rows, places[i]))
  }

  ghost function DocRegions(t: Measures, doc: seq<Block>): seq<Region>
    requires forall i :: 0 <= i < |doc| ==> OrdinaryBlock(doc[i])
  {
    if doc == [] then []
    else
      var init, last := doc[..|doc| - 1], doc[|doc| - 1];
      assert OrdinaryBlock(last);
      DocRegions(t, init) + if last.Prose? then [] else GridRegions(t, |CleanLines(init)|, TableCount(init), last.rows)
  }

  // One row

  function PartContents(contents: Contents, table: nat, p: Part): Contents {
    if p.InCell? && p.segment == 0 then contents[(table, p.row, p.column) := p.content] else contents
  }

  function RowContents(contents: Contents, table: nat, row: seq<Part>): Contents
    decreases |row|
  {
    if row == [] then contents else RowContents(PartContents(contents, table, row[0]), table, row[1..])
  }

  function AfterRow(t: Measures, line: nat, ls: LineState, table: nat, row: seq<Part>): LineState {
    ls.(clean := ls.clean + RowText(row),
        tables := ls.tables.(contents := RowContents(ls.tables.contents, table, row),
                             places := ls.tables.places + RowPlaces(t, line, table, ls.clean, row)))
  }

  lemma PartTaken(t: Measures, line: nat, ls: LineState, table: nat, p: Part, rest: string)
    requires IsCodec(t) && Ordinary(p.text) && ls.active.None? && ls.tables.table == Some(table)
    ensures AfterLine(t, line, ls, Pieces(MarkedPart(t, p) + rest, 0))
            == AfterLine(t, line, LineState(ls.clean + p.text, None,
                 ls.tables.(contents := PartContents(ls.tables.contents, table, p),
                   places := ls.tables.places + PartPlaces(t, line, table, ls.clean, p))),
                 Pieces(rest, 0))
  {
    if p.Plain? {
      TextFirst(t, line, ls, p.text, rest);
      assert ls.tables.places + [] == ls.tables.places;
    } else {
      CellTaken(t, line, ls, table, p, rest);
    }
  }

  function StartOf(p: Part): CellMarker
    requires p.InCell?
  {
    CellMarker(true, p.row, p.column, p.segment, if p.segment == 0 then Some(p.content) else None)
  }

  function EndOf(p: Part): CellMarker
    requires p.InCell?
  {
    CellMarker(false, p.row, p.column, p.segment, None)
  }

  /** A cell's start marker begins the cell, and notes its content. */
  lemma StartTaken(t: Measures, line: nat, ls: LineState, table: nat, p: Part)
    requires IsCodec(t) && p.InCell? && ls.tables.table == Some(table)
    ensures IsCode(MarkerText(t, StartOf(p)))
    ensures AfterPiece(t, line, ls, Code(MarkerText(t, StartOf(p))))
            == LineState(ls.clean, Some(ActiveCell(StartOf(p), t.width(ls.clean))),
              ls.tables.(contents := PartContents(ls.tables.contents, table, p)))
  {
    CellMarkerIsCode(t, StartOf(p));
    MarkerRoundTrip(t, StartOf(p));
    hide MarkerText;
    hide ParseCellMarker;
    hide IsCode;
  }

  /** Its end marker gives the cell's place, unless it is empty. */
  lemma EndTaken(t: Measures, line: nat, ls: LineState, table: nat, p: Part, before: string)
    requires IsCodec(t) && p.InCell? && ls.tables.table == Some(table) && ls.clean == before + p.text
    requires ls.active == Some(ActiveCell(StartOf(p), t.width(before)))
    ensures IsCode(MarkerText(t, EndOf(p)))
    ensures AfterPiece(t, line, ls, Code(MarkerText(t, EndOf(p))))
            == LineState(ls.clean, None, ls.tables.(places := ls.tables.places + PartPlaces(t, line, table, before, p)))
  {
    CellMarkerIsCode(t, EndOf(p));
    MarkerRoundTrip(t, EndOf(p));
    hide MarkerText;
    hide ParseCellMarker;
    hide IsCode;
    assert ls.tables.places + [] == ls.tables.places;
  }

  lemma CellTaken(t: Measures, line: nat, ls: LineState, table: nat, p: Part, rest: string)
    requires IsCodec(t) && Ordinary(p.text) && ls.active.None? && ls.tables.table == Some(table) && p.InCell?
    ensures AfterLine(t, line, ls, Pieces(MarkedPart(t, p) + rest, 0))
            == AfterLine(t, line, LineState(ls.clean + p.text, None,
                 ls.tables.(contents := PartContents(ls.tables.contents, table, p),
                   places := ls.tables.places + PartPlaces(t, line, table, ls.clean, p))),
                 Pieces(rest, 0))
  {
    var start, end := MarkerText(t, StartOf(p)), MarkerText(t, EndOf(p));
    assert MarkedPart(t, p) + rest == start + (p.text + (end + rest));
    hide MarkerText;
    hide Pieces;
    hide IsCode;
    hide AfterLine;
    hide IsCodec;
    hide AfterPiece;
    hide Ordinary;
    hide PartPlaces;
    hide PartContents;
    StartTaken(t, line, ls, table, p);
    MarkerFirst(t, line, ls, start, p.text + (end + rest));
    var begun := AfterPiece(t, line, ls, Code(start));
    TextFirst(t, line, begun, p.text, end + rest);
    var inside := begun.(clean := begun.clean + p.text);
    EndTaken(t, line, inside, table, p, ls.clean);
    MarkerFirst(t, line, inside, end, rest);
  }

  lemma {:induction false} RowTaken(t: Measures, line: nat, ls: LineState, table: nat, row: seq<Part>, rest: string)
    requires IsCodec(t) && OrdinaryRow(row) && ls.active.None? && ls.tables.table == Some(table)
    ensures AfterLine(t, line, ls, Pieces(MarkedRow(t, row) + rest, 0))
            == AfterLine(t, line, AfterRow(t, line, ls, table, row), Pieces(rest, 0))
    decreases |row|
  {
    hide IsCodec;
    hide Ordinary;
    hide Pieces;
    hide AfterLine;
    hide MarkedPart;
    if row == [] {
      assert MarkedRow(t, row) + rest == rest;
      assert ls.clean + "" == ls.clean && ls.tables.places + [] == ls.tables.places;
    } else {
      var p, more := row[0], row[1..];
      assert MarkedRow(t, row) + rest == MarkedPart(t, p) + (MarkedRow(t, more) + rest);
      PartTaken(t, line, ls, table, p, MarkedRow(t, more) + rest);
      hide MarkedRow;
      var after := LineState(ls.clean + p.text, None,
        ls.tables.(contents := PartContents(ls.tables.contents, table, p),
          places := ls.tables.places + PartPlaces(t, line, table, ls.clean, p)));
      RowTaken(t, line, after, table, more, rest);
      AfterRowStep(t, line, ls, table, row);
    }
  }

  lemma AfterRowStep(t: Measures, line: nat, ls: LineState, table: nat, row: seq<Part>)
    requires row != [] && ls.active.None?
    ensures var p := row[0];
            var after := LineState(ls.clean + p.text, None,
              ls.tables.(contents := PartContents(ls.tables.contents, table, p),
                places := ls.tables.places + PartPlaces(t, line, table, ls.clean, p)));
            AfterRow(t, line, after, table, row[1..]) == AfterRow(t, line, ls, table, row)
  {
    var p, more := row[0], row[1..];
    hide PartPlaces;
    hide PartContents;
    assert ls.clean + p.text + RowText(more) == ls.clean + RowText(row);
    var places, here, rest :=
        ls.tables.places, PartPlaces(t, line, table, ls.clean, p), RowPlaces(t, line, table, ls.clean + p.text, more);
    assert places + here + rest == places + (here + rest);
  }

  // One table

  function Opened(t: Measures, line: nat, tables: Tables): Tables {
    var col := t.width("");
    tables.(table := Some(tables.count), count := tables.count + 1,
      bounds := tables.bounds[tables.count := Bounds(line, line, col, col)])
  }

  function RowAfter(t: Measures, line: nat, tables: Tables, table: nat, row: seq<Part>): (after: Tables)
    ensures after.bounds == tables.bounds && after.table == tables.table
  {
    tables.(contents := RowContents(tables.contents, table, row),
      places := tables.places + RowPlaces(t, line, table, "", row))
  }

  function Closed(t: Measures, line: nat, tables: Tables, table: nat, row: seq<Part>): Tables
    requires table in tables.bounds
  {
    tables.(table := None,
      bounds := tables.bounds[table := tables.bounds[table].(bottom := line, right := t.width(RowText(row)))])
  }

  /** The row of an open table, with the end marker or without. */
  lemma OpenRowTaken(t: Measures, line: nat, tables: Tables, table: nat, row: seq<Part>, last: bool)
    requires IsCodec(t) && OrdinaryRow(row) && tables.table == Some(table) && table in tables.bounds
    ensures var ls :=
            AfterLine(t, line, LineState("", None, tables),
              Pieces(MarkedRow(t, row) + (if last then END_MARKER else ""), 0));
            var after := RowAfter(t, line, tables, table, row);
            ls.clean == RowText(row) && ls.tables == if last then Closed(t, line, after, table, row) else after
  {
    var start := LineState("", None, tables);
    var rowed := AfterRow(t, line, start, table, row);
    TableMarkersAreCodes();
    RowTaken(t, line, start, table, row, if last then END_MARKER else "");
    hide IsCodec;
    hide OrdinaryRow;
    hide RowContents;
    hide RowPlaces;
    hide RowText;
    hide MarkedRow;
    assert "" + RowText(row) == RowText(row) && Pieces("", 0) == [];
    if last {
      assert END_MARKER + "" == END_MARKER;
      MarkerFirst(t, line, rowed, END_MARKER, "");
    }
  }

  function LineTables(t: Measures, line: nat, open: Tables, table: nat, row: seq<Part>, last: bool): Tables
    requires table in open.bounds
  {
    var after := RowAfter(t, line, open, table, row);
    if last then Closed(t, line, after, table, row) else after
  }

  lemma FirstLineTaken(t: Measures, line: nat, tables: Tables, rows: seq<seq<Part>>)
    requires IsCodec(t) && rows != [] && OrdinaryRow(rows[0])
    ensures var ls := LineResult(t, line, tables, MarkedLine(t, rows, 0));
            ls.clean == RowText(rows[0])
              && ls.tables == LineTables(t, line, Opened(t, line, tables), tables.count, rows[0], |rows| == 1)
  {
    var tail := if |rows| == 1 then END_MARKER else "";
    var rest := MarkedRow(t, rows[0]) + tail;
    Regroup(START_MARKER, MarkedRow(t, rows[0]), tail);
    StartMarkerTaken(t, line, tables);
    hide AfterPiece;
    hide IsCodec;
    hide IsCode;
    hide Pieces;
    hide AfterLine;
    hide MarkedRow;
    hide RowAfter;
    hide Closed;
    hide OrdinaryRow;
    hide RowText;
    MarkerFirst(t, line, LineState("", None, tables), START_MARKER, rest);
    OpenRowTaken(t, line, Opened(t, line, tables), tables.count, rows[0], |rows| == 1);
  }

  lemma StartMarkerTaken(t: Measures, line: nat, tables: Tables)
    ensures IsCode(START_MARKER)
    ensures AfterPiece(t, line, LineState("", None, tables), Code(START_MARKER))
            == LineState("", None, Opened(t, line, tables))
  {
    TableMarkersAreCodes();
    hide IsCode;
  }

  lemma LaterLineTaken(t: Measures, line: nat, tables: Tables, table: nat, rows: seq<seq<Part>>, i: nat)
    requires IsCodec(t) && 0 < i < |rows| && OrdinaryRow(rows[i]) && tables.table == Some(table)
             && table in tables.bounds
    ensures var ls := LineResult(t, line, tables, MarkedLine(t, rows, i));
            ls.clean == RowText(rows[i]) && ls.tables == LineTables(t, line, tables, table, rows[i], i == |rows| - 1)
  {
    hide IsCodec;
    hide Pieces;
    hide AfterLine;
    hide MarkedRow;
    hide RowAfter;
    hide Closed;
    hide OrdinaryRow;
    hide RowText;
    assert MarkedLine(t, rows, i) == MarkedRow(t, rows[i]) + if i == |rows| - 1 then END_MARKER else "";
    OpenRowTaken(t, line, tables, table, rows[i], i == |rows| - 1);
  }

  function GridContents(contents: Contents, table: nat, rows: seq<seq<Part>>): Contents {
    if rows == [] then contents
      else RowContents(GridContents(contents, table, rows[..|rows| - 1]), table, rows[|rows| - 1])
  }

  /** The tables after the first rows of a grid. */
  function GridSoFar(t: Measures, top: nat, tables: Tables, rows: seq<seq<Part>>): Tables {
    Opened(t, top, tables).(contents := GridContents(tables.contents, tables.count, rows),
      places := tables.places + GridPlaces(t, top, tables.count, rows))
  }

  function GridAfter(t: Measures, top: nat, tables: Tables, rows: seq<seq<Part>>): Tables
    requires rows != []
  {
    Tables(None, tables.count + 1, tables.bounds[tables.count := GridBounds(t, top, rows)],
           GridContents(tables.contents, tables.count, rows), tables.places + GridPlaces(t, top, tables.count, rows))
  }

  lemma SoFarStep(t: Measures, top: nat, tables: Tables, rows: seq<seq<Part>>)
    requires rows != []
    ensures var n := |rows| - 1;
            var before := if n == 0 then Opened(t, top, tables) else GridSoFar(t, top, tables, rows[..n]);
            RowAfter(t, top + n, before, tables.count, rows[n]) == GridSoFar(t, top, tables, rows)
  {
    hide RowContents;
    hide RowPlaces;
    var n := |rows| - 1;
    var places, before, here :=
        tables.places, GridPlaces(t, top, tables.count, rows[..n]), RowPlaces(t, top + n, tables.count, "", rows[n]);
    assert places + before + here == places + (before + here);
    if n == 0 {
      assert rows[..n] == [] && GridContents(tables.contents, tables.count, rows[..n]) == tables.contents;
      assert GridPlaces(t, top, tables.count, rows) == [] + here == here;
    }
  }

  lemma ClosedIsAfter(t: Measures, top: nat, tables: Tables, rows: seq<seq<Part>>)
    requires rows != []
    ensures Closed(t, top + |rows| - 1, GridSoFar(t, top, tables, rows), tables.count, rows[|rows| - 1])
            == GridAfter(t, top, tables, rows)
  {
    hide GridContents;
    hide GridPlaces;
    hide RowText;
  }

  lemma AfterLinesStep(t: Measures, start: nat, tables: Tables, lines: seq<string>, i: nat)
    requires i < |lines|
    ensures var before := AfterLines(t, start, tables, lines[..i]);
            var last := LineResult(t, start + i, before.1, lines[i]);
            AfterLines(t, start, tables, lines[..i + 1]) == (before.0 + [last.clean], last.tables)
  {
    var front := lines[..i + 1];
    assert front[..i] == lines[..i] && front[i] == lines[i];
    hide LineResult;
  }

  /** One more row of a grid. */
  lemma RowTakenNext(t: Measures, top: nat, tables: Tables, rows: seq<seq<Part>>, i: nat, before: Tables)
    requires IsCodec(t) && OrdinaryBlock(Grid(rows)) && i < |rows|
    requires before == if i == 0 then tables else GridSoFar(t, top, tables, rows[..i])
    ensures var ls := LineResult(t, top + i, before, MarkedLine(t, rows, i));
            && ls.clean == RowText(rows[i])
            && ls.tables == if i == |rows| - 1 then GridAfter(t, top, tables, rows)
               else GridSoFar(t, top, tables, rows[..i + 1])
  {
    hide IsCodec;
    hide OrdinaryRow;
    hide LineResult;
    hide RowAfter;
    hide Closed;
    hide RowText;
    hide MarkedLine;
    var front := rows[..i + 1];
    assert front[..i] == rows[..i] && front[i] == rows[i];
    SoFarStep(t, top, tables, front);
    if i == 0 {
      FirstLineTaken(t, top, tables, rows);
    } else {
      LaterLineTaken(t, top + i, before, tables.count, rows, i);
    }
    if i == |rows| - 1 {
      assert front == rows;
      ClosedIsAfter(t, top, tables, rows);
    }
    hide GridSoFar;
    hide GridAfter;
  }

  lemma CleanStep(rows: seq<seq<Part>>, i: nat)
    requires i < |rows|
    ensures var clean := CleanBlock(Grid(rows)); clean[..i + 1] == clean[..i] + [RowText(rows[i])]
  {
    hide RowText;
    var clean := CleanBlock(Grid(rows));
    assert clean[i] == RowText(rows[i]);
  }

  /** The first rows of a grid: all of them but the last, or the whole grid. */
  lemma {:induction false} RowsTaken(t: Measures, top: nat, tables: Tables, rows: seq<seq<Part>>, m: nat)
    requires IsCodec(t) && OrdinaryBlock(Grid(rows)) && m <= |rows|
    ensures var after := AfterLines(t, top, tables, MarkedBlock(t, Grid(rows))[..m]);
            && after.0 == CleanBlock(Grid(rows))[..m]
            && after.1 == if m == 0 then tables else if m == |rows| then GridAfter(t, top, tables, rows)
               else GridSoFar(t, top, tables, rows[..m])
    decreases m
  {
    var lines := MarkedBlock(t, Grid(rows));
    if m == 0 {
      assert lines[..0] == [];
    } else {
      var i := m - 1;
      assert lines[i] == MarkedLine(t, rows, i);
      hide IsCodec;
      hide AfterLines;
      hide LineResult;
      hide MarkedLine;
      hide MarkedBlock;
      hide CleanBlock;
      hide OrdinaryBlock;
      hide GridAfter;
      hide GridSoFar;
      hide RowText;
      RowsTaken(t, top, tables, rows, i);
      CleanStep(rows, i);
      AfterLinesStep(t, top, tables, lines, i);
      RowTakenNext(t, top, tables, rows, i, AfterLines(t, top, tables, lines[..i]).1);
    }
  }

  // A document

  lemma {:induction false} AfterLinesConcat(t: Measures, start: nat, tables: Tables, a: seq<string>, b: seq<string>)
    ensures var first := AfterLines(t, start, tables, a);
            var second := AfterLines(t, start + |a|, first.1, b);
            AfterLines(t, start, tables, a + b) == (first.0 + second.0, second.1)
    decreases |b|
  {
    hide LineResult;
    if b == [] {
      assert a + b == a;
      assert AfterLines(t, start, tables, a).0 + [] == AfterLines(t, start, tables, a).0;
    } else {
      var n, ab := |b| - 1, a + b;
      assert ab[..|ab| - 1] == a + b[..n] && ab[|ab| - 1] == b[n];
      AfterLinesConcat(t, start, tables, a, b[..n]);
      var first := AfterLines(t, start, tables, a);
      var middle := AfterLines(t, start + |a|, first.1, b[..n]);
      var last := LineResult(t, start + |a| + n, middle.1, b[n]);
      assert first.0 + middle.0 + [last.clean] == first.0 + (middle.0 + [last.clean]);
    }
  }

  ghost predicate OrdinaryDoc(doc: seq<Block>) {
    forall i :: 0 <= i < |doc| ==> OrdinaryBlock(doc[i])
  }

  ghost function BlockTables(t: Measures, top: nat, tables: Tables, block: Block): Tables
    requires OrdinaryBlock(block)
  {
    if block.Prose? then tables else GridAfter(t, top, tables, block.rows)
  }

  /** The tables of a document. */
  ghost function DocTables(t: Measures, doc: seq<Block>): Tables
    requires OrdinaryDoc(doc)
  {
    if doc == [] then NO_TABLES
    else
      assert OrdinaryBlock(doc[|doc| - 1]);
      BlockTables(t, |CleanLines(doc[..|doc| - 1])|, DocTables(t, doc[..|doc| - 1]), doc[|doc| - 1])
  }

  lemma BlockTaken(t: Measures, top: nat, tables: Tables, block: Block)
    requires IsCodec(t) && OrdinaryBlock(block)
    ensures AfterLines(t, top, tables, MarkedBlock(t, block)) == (CleanBlock(block), BlockTables(t, top, tables, block))
    ensures |MarkedBlock(t, block)| == |CleanBlock(block)|
  {
    var lines, clean := MarkedBlock(t, block), CleanBlock(block);
    if block.Prose? {
      TextKept(t, top, LineState("", None, tables), block.line);
      assert "" + block.line == block.line;
      hide AfterLine;
      assert lines[..0] == [] && [] + [block.line] == clean;
    } else {
      assert lines[..|lines|] == lines && clean[..|clean|] == clean;
      RowsTaken(t, top, tables, block.rows, |block.rows|);
      hide AfterLines;
      hide GridAfter;
    }
  }

  /** The lines so far give these clean lines and these tables. */
  ghost predicate Gives(t: Measures, marked: seq<string>, clean: seq<string>, tables: Tables) {
    AfterLines(t, 0, NO_TABLES, marked) == (clean, tables) && |marked| == |clean|
  }

  lemma BlockGives(t: Measures, marked: seq<string>, clean: seq<string>, tables: Tables, block: Block)
    requires IsCodec(t) && OrdinaryBlock(block) && Gives(t, marked, clean, tables)
    ensures Gives(t, marked + MarkedBlock(t, block), clean + CleanBlock(block), BlockTables(t, |clean|, tables, block))
  {
    hide AfterLines;
    hide MarkedBlock;
    hide CleanBlock;
    hide BlockTables;
    hide IsCodec;
    hide OrdinaryBlock;
    BlockTaken(t, |clean|, tables, block);
    AfterLinesConcat(t, 0, NO_TABLES, marked, MarkedBlock(t, block));
  }

  lemma {:induction false} DocTaken(t: Measures, doc: seq<Block>)
    requires IsCodec(t) && OrdinaryDoc(doc)
    ensures Gives(t, MarkedLines(t, doc), CleanLines(doc), DocTables(t, doc))
  {
    if doc != [] {
      var init, last := doc[..|doc| - 1], doc[|doc| - 1];
      assert OrdinaryDoc(init) && OrdinaryBlock(last);
      hide Gives;
      hide MarkedBlock;
      hide CleanBlock;
      hide BlockTables;
      hide IsCodec;
      hide OrdinaryBlock;
      DocTaken(t, init);
      BlockGives(t, MarkedLines(t, init), CleanLines(init), DocTables(t, init), last);
    }
  }

  // Looking up a place's bounds and content at the end

  function Lookup(contents: Contents, table: nat, r: nat, c: nat): Option<string> {
    if (table, r, c) in contents then Some(contents[(table, r, c)]) else None
  }

  lemma {:induction false} RowLookup(contents: Contents, table: nat, row: seq<Part>, k: nat, r: nat, c: nat)
    ensures Lookup(RowContents(contents, table, row), k, r, c)
            == if k == table && RowContent(row, r, c).Some? then RowContent(row, r, c) else Lookup(contents, k, r, c)
    decreases |row|
  {
    if row != [] {
      RowLookup(PartContents(contents, table, row[0]), table, row[1..], k, r, c);
    }
  }

  lemma {:induction false} GridLookup(contents: Contents, table: nat, rows: seq<seq<Part>>, k: nat, r: nat, c: nat)
    ensures Lookup(GridContents(contents, table, rows), k, r, c)
            == if k == table && GridContent(rows, r, c).Some? then GridContent(rows, r, c)
              else Lookup(contents, k, r, c)
  {
    if rows != [] {
      GridLookup(contents, table, rows[..|rows| - 1], k, r, c);
      RowLookup(GridContents(contents, table, rows[..|rows| - 1]), table, rows[|rows| - 1], k, r, c);
      hide Lookup;
      hide RowContents;
      hide RowContent;
    }
  }

  lemma {:induction false} RowPlacesInTable(t: Measures, line: nat, table: nat, before: string, row: seq<Part>)
    ensures forall i ::
            0 <= i < |RowPlaces(t, line, table, before, row)| ==>
              RowPlaces(t, line, table, before, row)[i].table == table
    decreases |row|
  {
    if row != [] {
      RowPlacesInTable(t, line, table, before + row[0].text, row[1..]);
    }
  }

  lemma {:induction false} GridPlacesInTable(t: Measures, top: nat, table: nat, rows: seq<seq<Part>>)
    ensures forall i :: 0 <= i < |GridPlaces(t, top, table, rows)| ==> GridPlaces(t, top, table, rows)[i].table == table
  {
    if rows != [] {
      GridPlacesInTable(t, top, table, rows[..|rows| - 1]);
      RowPlacesInTable(t, top + |rows| - 1, table, "", rows[|rows| - 1]);
      hide RowPlaces;
    }
  }

  /** Only tables counted so far have bounds, contents and places. */
  ghost predicate Counted(tables: Tables) {
    && (forall k :: k in tables.bounds ==> k < tables.count)
    && (forall key :: key in tables.contents ==> key.0 < tables.count)
    && (forall i :: 0 <= i < |tables.places| ==> tables.places[i].table < tables.count)
  }

  lemma GridKeepsCounted(t: Measures, top: nat, tables: Tables, rows: seq<seq<Part>>)
    requires Counted(tables) && rows != []
    ensures Counted(GridAfter(t, top, tables, rows))
  {
    var after := GridAfter(t, top, tables, rows);
    GridPlacesInTable(t, top, tables.count, rows);
    forall key | key in after.contents
      ensures key.0 < after.count
    {
      GridLookup(tables.contents, tables.count, rows, key.0, key.1, key.2);
      assert (key.0, key.1, key.2) == key;
    }
    hide GridContents;
    hide GridPlaces;
    hide GridContent;
  }

  /** A later table leaves the earlier places' regions as they are. */
  lemma EarlierStay(t: Measures, top: nat, tables: Tables, rows: seq<seq<Part>>, place: Place)
    requires rows != [] && place.table < tables.count
    ensures Finished(GridAfter(t, top, tables, rows), place) == Finished(tables, place)
  {
    GridLookup(tables.contents, tables.count, rows, place.table, place.row, place.column);
    hide GridContents;
    hide GridContent;
    hide GridPlaces;
  }

  lemma NewAreFinished(t: Measures, top: nat, tables: Tables, rows: seq<seq<Part>>, place: Place)
    requires rows != [] && place.table == tables.count && Counted(tables)
    ensures Finished(GridAfter(t, top, tables, rows), place) == GridRegion(t, top, rows, place)
  {
    GridLookup(tables.contents, tables.count, rows, place.table, place.row, place.column);
    hide GridContents;
    hide GridContent;
    hide GridPlaces;
  }

  lemma GridFinished(t: Measures, top: nat, tables: Tables, rows: seq<seq<Part>>)
    requires rows != [] && Counted(tables)
    ensures var after := GridAfter(t, top, tables, rows);
            FinishedAll(after, after.places)
              == FinishedAll(tables, tables.places) + GridRegions(t, top, tables.count, rows)
  {
    var after := GridAfter(t, top, tables, rows);
    var n := |tables.places|;
    GridPlacesInTable(t, top, tables.count, rows);
    forall i | 0 <= i < |after.places|
      ensures FinishedAll(after, after.places)[i]
              == (FinishedAll(tables, tables.places) + GridRegions(t, top, tables.count, rows))[i]
    {
      if i < n {
        EarlierStay(t, top, tables, rows, tables.places[i]);
      } else {
        NewAreFinished(t, top, tables, rows, after.places[i]);
      }
    }
    hide GridContents;
    hide GridPlaces;
    hide Finished;
    hide GridRegion;
  }

  lemma {:induction false} DocFinished(t: Measures, doc: seq<Block>)
    requires OrdinaryDoc(doc)
    ensures var tables := DocTables(t, doc);
            && Counted(tables) && tables.count == TableCount(doc)
            && FinishedAll(tables, tables.places) == DocRegions(t, doc)
  {
    if doc != [] {
      var init, last := doc[..|doc| - 1], doc[|doc| - 1];
      DocFinished(t, init);
      assert OrdinaryBlock(last);
      if last.Grid? {
        GridKeepsCounted(t, |CleanLines(init)|, DocTables(t, init), last.rows);
        GridFinished(t, |CleanLines(init)|, DocTables(t, init), last.rows);
      }
      hide Counted;
      hide FinishedAll;
      hide GridRegions;
      hide OrdinaryBlock;
    }
  }

  /**
    The round trip. From the marked lines of a document, extraction gives the unmarked lines back, and
    one region for each cell segment that is not empty, with its place, its table's bounds, and the
    content its cell's first segment carried.
  */
  lemma ExtractionUndoesMarking(t: Measures, doc: seq<Block>)
    requires IsCodec(t) && OrdinaryDoc(doc)
    ensures var after := AfterLines(t, 0, NO_TABLES, MarkedLines(t, doc));
            after.0 == CleanLines(doc) && FinishedAll(after.1, after.1.places) == DocRegions(t, doc)
  {
    DocTaken(t, doc);
    DocFinished(t, doc);
    hide AfterLines;
    hide FinishedAll;
  }

  // The extraction itself

  lemma AfterFront(t: Measures, line: nat, ls: LineState, piece: Piece, rest: seq<Piece>)
    ensures AfterLine(t, line, ls, [piece] + rest) == AfterLine(t, line, AfterPiece(t, line, ls, piece), rest)
  {
    AfterConcat(t, line, ls, [piece], rest);
    assert [piece][..0] == [];
    hide AfterPiece;
  }

  lemma {:induction false} CodesOccur(s: string, pos: nat)
    requires pos <= |s| && Find(s, PREFIX).None?
    ensures forall i :: 0 <= i < |Pieces(s, pos)| && Pieces(s, pos)[i].Code? ==> !(PREFIX <= Pieces(s, pos)[i].code)
    decreases |s| - pos
  {
    if pos < |s| {
      var end, first := NextPos(s, pos), FirstPiece(s, pos);
      PieceAt(s, pos);
      if first.Code? && PREFIX <= first.code {
        assert s[pos..pos + |PREFIX|] == first.code[..|PREFIX|];
        assert Occurs(s, PREFIX, pos);
      }
      hide EndAt;
      hide Find;
      CodesOccur(s, end);
    }
  }

  /** A line without the marker prefix is left as it is. */
  lemma NoMarkerKept(t: Measures, line: nat, tables: Tables, source: string)
    requires Find(source, PREFIX).None?
    ensures LineResult(t, line, tables, source) == LineState(source, None, tables)
  {
    CodesOccur(source, 0);
    hide Find;
    hide Pieces;
    OrdinaryKept(t, line, LineState("", None, tables), Pieces(source, 0));
    PiecesKeepText(source, 0);
    hide AfterLine;
    assert "" + source == source;
  }

  lemma {:induction false} NoMarkersKept(t: Measures, start: nat, tables: Tables, lines: seq<string>)
    requires forall i :: 0 <= i < |lines| ==> Find(lines[i], PREFIX).None?
    ensures AfterLines(t, start, tables, lines) == (lines, tables)
  {
    if lines != [] {
      var n := |lines| - 1;
      NoMarkersKept(t, start, tables, lines[..n]);
      NoMarkerKept(t, start + n, tables, lines[n]);
      hide LineResult;
      hide Find;
      assert lines == lines[..n] + [lines[n]];
    }
  }

  class Extraction {
    const t: Measures
    var table: Option<nat>
    var tableIndex: nat
    var tableBounds: map<nat, Bounds>
    var cellContents: Contents
    var places: seq<Place>

    constructor (t: Measures)
      ensures this.t == t && Now() == NO_TABLES
    {
      this.t := t;
      table, tableIndex, tableBounds, cellContents, places := None, 0, map[], map[], [];
    }

    function Now(): Tables
      reads this
    {
      Tables(table, tableIndex, tableBounds, cellContents, places)
    }

    /** What one escape sequence of a line does. */
    method TakeCode(code: string, lineIndex: nat, before: string, active: Option<ActiveCell>)
        returns (clean: string, activeCell: Option<ActiveCell>)
      modifies this
      ensures LineState(clean, activeCell, Now())
              == AfterPiece(t, lineIndex, LineState(before, active, old(Now())), Code(code))
    {
      hide ParseCellMarker;
      clean, activeCell := before, active;
      if code == START_MARKER {
        var col := t.width(clean);
        table := Some(tableIndex);
        tableBounds := tableBounds[tableIndex := Bounds(lineIndex, lineIndex, col, col)];
        tableIndex := tableIndex + 1;
      } else if code == END_MARKER {
        if table.Some? && table.value in tableBounds {
          tableBounds :=
            tableBounds[table.value := tableBounds[table.value].(bottom := lineIndex, right := t.width(clean))];
        }
        table := None;
        activeCell := None;
      } else {
        var marker := ParseCellMarker(t, code);
        if marker.Some? && marker.value.isStart {
          activeCell := Some(ActiveCell(marker.value, t.width(clean)));
          if table.Some? && marker.value.content.Some? {
            cellContents :=
              cellContents[(table.value, marker.value.row, marker.value.column) := marker.value.content.value];
          }
        } else if marker.Some? && table.Some? && activeCell.Some? {
          var cell, end, m := activeCell.value, t.width(clean), marker.value;
          if end > cell.col && m.row == cell.marker.row && m.column == cell.marker.column
            && m.segment == cell.marker.segment {
            places := places + [Place(lineIndex, cell.col, end - cell.col, table.value, m.row, m.column, m.segment)];
          }
          activeCell := None;
        } else {
          clean := clean + code;
        }
      }
    }

    /** The body of the loop over the lines. */
    method TakeLine(lineIndex: nat, source: string) returns (clean: string)
      modifies this
      ensures var after := LineResult(t, lineIndex, old(Now()), source); clean == after.clean && Now() == after.tables
    {
      if Find(source, PREFIX).None? {
        NoMarkerKept(t, lineIndex, Now(), source);
        return source;
      }
      hide AfterPiece;
      hide EndAt;
      hide Find;
      clean := "";
      var activeCell: Option<ActiveCell>, offset := None, 0;
      var scanner := new Scanner(source);
      ghost var whole := LineState("", None, Now());
      while offset < |source|
        invariant offset <= |source| && scanner.Valid() && scanner.str == source && fresh(scanner)
        invariant AfterLine(t, lineIndex, LineState(clean, activeCell, Now()), Pieces(source, offset))
                  == AfterLine(t, lineIndex, whole, Pieces(source, 0))
      {
        hide AfterLine;
        PieceAt(source, offset);
        AfterFront(t, lineIndex, LineState(clean, activeCell, Now()), FirstPiece(source, offset),
          Pieces(source, NextPos(source, offset)));
        hide Pieces;
        var end, _ := scanner.At(offset);
        if end.None? {
          UnitTaken(t, lineIndex, LineState(clean, activeCell, Now()), source[offset]);
          clean := clean + [source[offset]];
          offset := offset + 1;
        } else {
          clean, activeCell := TakeCode(source[offset..end.value], lineIndex, clean, activeCell);
          offset := end.value;
        }
      }
    }

    /** `extractTableCellSelectionRegions`: the lines without their markers, and the cells' regions. */
    static method ExtractTableCellSelectionRegions(t: Measures, lines: seq<string>)
        returns (cleanLines: seq<string>, regions: seq<Region>)
      ensures var after := AfterLines(t, 0, NO_TABLES, lines);
              cleanLines == after.0 && regions == FinishedAll(after.1, after.1.places)
    {
      if forall i :: 0 <= i < |lines| ==> Find(lines[i], PREFIX).None? {
        NoMarkersKept(t, 0, NO_TABLES, lines);
        return lines, [];
      }
      var extraction := new Extraction(t);
      cleanLines := [];
      ghost var done: seq<string> := [];
      hide LineResult;
      hide Find;
      for i := 0 to |lines|
        invariant fresh(extraction) && extraction.t == t && done == lines[..i]
        invariant (cleanLines, extraction.Now()) == AfterLines(t, 0, NO_TABLES, done)
      {
        AfterLinesMore(t, done, lines[i]);
        var clean := extraction.TakeLine(i, lines[i]);
        cleanLines := cleanLines + [clean];
        done := done + [lines[i]];
      }
      assert done == lines;
      hide AfterLines;
      regions := extraction.FinishRegions();
    }

    /** The second pass: every region gets its table's bounds and its cell's content. */
    method FinishRegions() returns (regions: seq<Region>)
      ensures regions == FinishedAll(Now(), places)
    {
      regions := [];
      hide Finished;
      for i := 0 to |places|
        invariant regions == FinishedAll(Now(), places)[..i]
      {
        regions := regions + [Finished(Now(), places[i])];
      }
    }
  }

  lemma UnitTaken(t: Measures, line: nat, ls: LineState, c: char)
    ensures AfterPiece(t, line, ls, Unit(c)) == ls.(clean := ls.clean + [c])
  {
  }

  lemma AfterLinesMore(t: Measures, lines: seq<string>, line: string)
    ensures var before := AfterLines(t, 0, NO_TABLES, lines);
            var last := LineResult(t, |lines|, before.1, line);
            AfterLines(t, 0, NO_TABLES, lines + [line]) == (before.0 + [last.clean], last.tables)
  {
    assert (lines + [line])[..|lines|] == lines;
    hide LineResult;
  }
}
