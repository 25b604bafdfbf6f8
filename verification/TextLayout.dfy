/**
  How text lies on lines (packages/tui/src/utils.ts). Text is a sequence of complete escape sequences
  and cells (grapheme clusters with their width). Wrapped lines hold the cells of the input in its order;
  only white space is left out, and only where a line ends; and a line ends only where the next word
  does not fit on it.
*/
module TextLayout {
  /** Only the plain space separates words; other white space is merely trimmed. */
  datatype Ink = Visible | PlainSpace | OtherSpace

  datatype Item = Ansi(code: string) | Cell(glyph: string, width: nat, ink: Ink)

  type Text = seq<Item>

  function Width(text: Text): nat {
    if text == [] then 0
    else Width(text[..|text| - 1]) + if text[|text| - 1].Cell? then text[|text| - 1].width else 0
  }

  function ItemWidth(item: Item): nat {
    if item.Cell? then item.width else 0
  }

  function TrimEnd(text: Text): Text {
    if text != [] && text[|text| - 1].Cell? && !text[|text| - 1].ink.Visible? then TrimEnd(text[..|text| - 1]) else text
  }

  /** White space only, and no escape sequence. */
  predicate IsBlank(token: Text) {
    forall i :: 0 <= i < |token| ==> token[i].Cell? && !token[i].ink.Visible?
  }

  ghost predicate NoCells(text: Text) {
    forall i :: 0 <= i < |text| ==> text[i].Ansi?
  }

  ghost predicate HasCell(text: Text) {
    exists i :: 0 <= i < |text| && text[i].Cell?
  }

  /** A token holds plain spaces only, or none. */
  ghost predicate OfKind(token: Text, spaces: bool) {
    forall i :: 0 <= i < |token| && token[i].Cell? ==> (token[i].ink == PlainSpace) == spaces
  }

  lemma {:induction false} WidthConcat(a: Text, b: Text)
    ensures Width(a + b) == Width(a) + Width(b)
  {
    if b == [] {
      assert a + b == a;
    } else {
      assert (a + b)[..|a + b| - 1] == a + b[..|b| - 1];
      WidthConcat(a, b[..|b| - 1]);
    }
  }

  lemma WidthWithin(text: Text, a: nat, b: nat, c: nat, d: nat)
    requires a <= b <= c <= d <= |text|
    ensures Width(text[b..c]) <= Width(text[a..d])
  {
    assert text[a..d] == text[a..b] + (text[b..c] + text[c..d]);
    WidthConcat(text[a..b], text[b..c] + text[c..d]);
    WidthConcat(text[b..c], text[c..d]);
  }

  lemma SliceBefore(a: Text, b: Text, i: nat, j: nat)
    requires i <= j <= |a|
    ensures (a + b)[i..j] == a[i..j]
  {
  }

  lemma SliceAfter(a: Text, b: Text, i: nat, j: nat)
    requires i <= j <= |b|
    ensures (a + b)[|a| + i..|a| + j] == b[i..j]
  {
  }

  lemma SliceAcross(a: Text, b: Text, i: nat, j: nat)
    requires i <= |a| <= j <= |a| + |b|
    ensures (a + b)[i..j] == a[i..] + b[..j - |a|] && (a + b)[|a|..j] == b[..j - |a|] && a[i..|a|] == a[i..]
  {
  }

  // Cells

  /** The text without its escape sequences. */
  ghost function Cells(text: Text): Text {
    if text == [] then []
    else Cells(text[..|text| - 1]) + if text[|text| - 1].Cell? then [text[|text| - 1]] else []
  }

  lemma {:induction false} CellsConcat(a: Text, b: Text)
    ensures Cells(a + b) == Cells(a) + Cells(b)
  {
    if b == [] {
      assert a + b == a;
    } else {
      var ab := a + b;
      assert ab[..|ab| - 1] == a + b[..|b| - 1] && ab[|ab| - 1] == b[|b| - 1];
      CellsConcat(a, b[..|b| - 1]);
    }
  }

  lemma CellsAdd(text: Text, item: Item)
    ensures Cells(text + [item]) == Cells(text) + if item.Cell? then [item] else []
  {
    assert (text + [item])[..|text|] == text;
  }

  lemma {:induction false} CellsWidth(text: Text)
    ensures Width(Cells(text)) == Width(text)
  {
    if text != [] {
      var init, last := text[..|text| - 1], text[|text| - 1];
      CellsWidth(init);
      WidthConcat(Cells(init), if last.Cell? then [last] else []);
      assert [last][..0] == [];
    }
  }

  lemma {:induction false} CellsSay(text: Text, spaces: bool)
    ensures forall i :: 0 <= i < |Cells(text)| ==> Cells(text)[i].Cell?
    ensures OfKind(text, spaces) ==> OfKind(Cells(text), spaces)
    ensures HasCell(text) <==> Cells(text) != []
    ensures IsBlank(text) ==> Cells(text) == text
    ensures NoCells(text) ==> Cells(text) == []
  {
    if text != [] {
      var init, last := text[..|text| - 1], text[|text| - 1];
      assert text == init + [last];
      assert HasCell(text) <==> HasCell(init) || last.Cell?;
      CellsSay(init, spaces);
    }
  }

  lemma {:induction false} CellsTrim(text: Text)
    ensures Holds(TrimEnd(text), Cells(text))
  {
    if text != [] && text[|text| - 1].Cell? && !text[|text| - 1].ink.Visible? {
      CellsTrim(text[..|text| - 1]);
    }
  }

  // Layout

  predicate IsSpace(item: Item) {
    item.Cell? && item.ink == PlainSpace
  }

  /** Words and runs of plain spaces begin and end at boundaries. */
  ghost predicate Boundary(cells: Text, i: int) {
    0 <= i <= |cells| && (i == 0 || i == |cells| || IsSpace(cells[i - 1]) != IsSpace(cells[i]))
  }

  /** The line has the cells, neighbours as neighbours, but for white space at their end. */
  ghost predicate Holds(line: Text, cells: Text) {
    Cells(line) <= cells && IsBlank(cells[|Cells(line)|..])
  }

  /** Where the cells of line `k` end: where the next line starts. */
  function EndAt(starts: seq<int>, k: nat, count: int): int {
    if k + 1 < |starts| then starts[k + 1] else count
  }

  /**
    The line that starts at `from` has to end before cell `at`: the cells up to the next end of a word, or
    of a run of spaces, are too wide for it. If that breaks a word, the line has nothing else on it, and
    the word's next cell does not fit.
  */
  ghost predicate BreakDue(cells: Text, from: int, at: int, width: nat) {
    && 0 <= from <= at <= |cells|
    && (forall e :: at <= e <= |cells| && (e == at ==> e == |cells|) && Boundary(cells, e) ==>
                      Width(cells[from..e]) > width)
    && (!Boundary(cells, at) ==>
          at < |cells| && Width(cells[from..at + 1]) > width && forall s :: from < s < at ==> !Boundary(cells, s))
  }

  /** The lines hold all the cells, each from its start to the start of the next, and each break was due. */
  ghost predicate LaidOut(lines: seq<Text>, cells: Text, starts: seq<int>, width: nat) {
    |lines| == |starts| > 0 && starts[0] == 0 && forall k ::
      0 <= k < |lines| ==> LineAt(lines[k], cells, starts, width, k)
  }

  ghost predicate LineAt(line: Text, cells: Text, starts: seq<int>, width: nat, k: int) {
    && 0 <= k < |starts| && 0 <= starts[k] <= EndAt(starts, k, |cells|) <= |cells|
    && Holds(line, cells[starts[k]..EndAt(starts, k, |cells|)])
    && (0 < k ==> BreakDue(cells, starts[k - 1], starts[k], width))
  }

  /** A word is broken only if it is wider than the width. */
  lemma BrokenWordIsWide(lines: seq<Text>, cells: Text, starts: seq<int>, width: nat, k: nat, s: nat, e: nat)
    requires LaidOut(lines, cells, starts, width) && 0 < k < |lines|
    requires Boundary(cells, s) && Boundary(cells, e) && s < starts[k] < e
    requires forall i :: s < i < e ==> !Boundary(cells, i)
    ensures Width(cells[s..e]) > width
  {
    var from, at := starts[k - 1], starts[k];
    assert LineAt(lines[k], cells, starts, width, k);
    assert BreakDue(cells, from, at, width);
    hide Holds;
    hide LaidOut;
    hide LineAt;
    assert !Boundary(cells, at);
    assert from < s < at ==> !Boundary(cells, s);
    hide BreakDue;
    WidthWithin(cells, s, from, at + 1, e);
  }

  /** Two cells on one line are neighbours there exactly when they are in the input. */
  lemma NeighboursStay(lines: seq<Text>, cells: Text, starts: seq<int>, width: nat, k: nat, i: nat)
    requires LaidOut(lines, cells, starts, width) && k < |lines| && i < |Cells(lines[k])|
    ensures starts[k] + i < |cells| && Cells(lines[k])[i] == cells[starts[k] + i]
  {
    assert LineAt(lines[k], cells, starts, width, k);
    hide BreakDue;
    hide IsBlank;
  }

  /** What is on no line is white space. */
  lemma OnlyBlanksLeftOut(lines: seq<Text>, cells: Text, starts: seq<int>, width: nat, k: nat, i: nat)
    requires LaidOut(lines, cells, starts, width) && k < |lines|
    requires starts[k] + |Cells(lines[k])| <= i < EndAt(starts, k, |cells|)
    ensures cells[i].Cell? && !cells[i].ink.Visible?
  {
    var part := cells[starts[k]..EndAt(starts, k, |cells|)];
    assert LineAt(lines[k], cells, starts, width, k);
    assert IsBlank(part[|Cells(lines[k])|..]);
    hide BreakDue;
    hide LaidOut;
    hide LineAt;
    hide Holds;
    hide Cells;
    assert part[|Cells(lines[k])|..][i - starts[k] - |Cells(lines[k])|] == cells[i];
  }

  /** Where more cells follow, their kind is another. */
  ghost predicate TextChanges(cells: Text, more: Text) {
    cells != [] && more != [] ==> IsSpace(cells[|cells| - 1]) != IsSpace(more[0])
  }

  lemma DueMore(cells: Text, more: Text, from: int, at: int, width: nat)
    requires BreakDue(cells, from, at, width) && TextChanges(cells, more)
    ensures BreakDue(cells + more, from, at, width)
  {
    var all := cells + more;
    forall i | 0 <= i <= |cells|
      ensures Boundary(all, i) <==> Boundary(cells, i)
    {
      assert i < |cells| ==> all[i] == cells[i];
      assert 0 < i ==> all[i - 1] == cells[i - 1];
      assert i == |cells| && more != [] ==> all[i] == more[0];
    }
    forall e | at <= e <= |all| && (e == at ==> e == |all|) && Boundary(all, e)
      ensures Width(all[from..e]) > width
    {
      var inner := if e <= |cells| then e else |cells|;
      assert all[from..inner] == cells[from..inner];
      WidthWithin(all, from, from, inner, e);
      assert Boundary(cells, |cells|);
    }
    if !Boundary(all, at) {
      assert all[from..at + 1] == cells[from..at + 1];
    }
  }

  /** A line that is not the last stays where it is when cells follow. */
  lemma LineStays(line: Text, cells: Text, starts: seq<int>, width: nat, k: nat, more: Text, tailStarts: seq<int>)
    requires LineAt(line, cells, starts, width, k) && TextChanges(cells, more) && k < |starts| - 1
    ensures LineAt(line, cells + more, starts + tailStarts, width, k)
  {
    var all, allStarts := cells + more, starts + tailStarts;
    assert allStarts[k] == starts[k] && EndAt(allStarts, k, |all|) == EndAt(starts, k, |cells|) == starts[k + 1];
    assert all[starts[k]..starts[k + 1]] == cells[starts[k]..starts[k + 1]];
    hide Holds;
    if 0 < k {
      DueMore(cells, more, starts[k - 1], starts[k], width);
    }
    hide BreakDue;
    hide TextChanges;
  }

  lemma LastLineMore(line: Text, cells: Text, starts: seq<int>, width: nat, k: nat, last: Text, more: Text,
      tailStarts: seq<int>)
    requires LineAt(line, cells, starts, width, k) && TextChanges(cells, more) && k == |starts| - 1
    requires var all := cells + more;
             var end := if tailStarts == [] then |all| else tailStarts[0];
             0 <= starts[k] <= end <= |all| && Holds(last, all[starts[k]..end])
    ensures LineAt(last, cells + more, starts + tailStarts, width, k)
  {
    hide Holds;
    if 0 < k {
      DueMore(cells, more, starts[k - 1], starts[k], width);
    }
    hide BreakDue;
    hide TextChanges;
  }

  /** Line `k` of the further lines. */
  ghost predicate TailAt(line: Text, cells: Text, from: int, tailStarts: seq<int>, width: nat, k: int) {
    && 0 <= k < |tailStarts| && 0 <= tailStarts[k] <= EndAt(tailStarts, k, |cells|) <= |cells|
    && Holds(line, cells[tailStarts[k]..EndAt(tailStarts, k, |cells|)])
    && BreakDue(cells, if k == 0 then from else tailStarts[k - 1], tailStarts[k], width)
  }

  lemma TailLine(line: Text, cells: Text, starts: seq<int>, tailStarts: seq<int>, width: nat, k: nat)
    requires starts != [] && TailAt(line, cells, starts[|starts| - 1], tailStarts, width, k)
    ensures LineAt(line, cells, starts + tailStarts, width, |starts| + k)
  {
    var allStarts := starts + tailStarts;
    assert EndAt(allStarts, |starts| + k, |cells|) == EndAt(tailStarts, k, |cells|);
    hide Holds;
    hide BreakDue;
  }

  /** The last line is `last`, and further lines follow, over more cells. */
  lemma LayMore(lines: seq<Text>, cells: Text, starts: seq<int>, last: Text, more: Text, tail: seq<Text>,
      tailStarts: seq<int>, width: nat)
    requires LaidOut(lines, cells, starts, width) && TextChanges(cells, more) && |tail| == |tailStarts|
    requires var all, n := cells + more, |lines| - 1;
             var end := if tail == [] then |all| else tailStarts[0];
             0 <= starts[n] <= end <= |all| && Holds(last, all[starts[n]..end])
    requires forall k :: 0 <= k < |tail| ==>
                           TailAt(tail[k], cells + more, starts[|starts| - 1], tailStarts, width, k)
    ensures LaidOut(lines[..|lines| - 1] + [last] + tail, cells + more, starts + tailStarts, width)
  {
    var all, n := cells + more, |lines| - 1;
    var allLines, allStarts := lines[..n] + [last] + tail, starts + tailStarts;
    hide Holds;
    hide LineAt;
    hide TailAt;
    hide TextChanges;
    forall k | 0 <= k < |allLines|
      ensures LineAt(allLines[k], all, allStarts, width, k)
    {
      if k < n {
        assert LineAt(lines[k], cells, starts, width, k);
        LineStays(lines[k], cells, starts, width, k, more, tailStarts);
      } else if k == n {
        assert LineAt(lines[k], cells, starts, width, k);
        LastLineMore(lines[k], cells, starts, width, k, last, more, tailStarts);
      } else {
        TailLine(tail[k - n - 1], all, starts, tailStarts, width, k - n - 1);
      }
    }
  }

  // Laying out token by token

  /**
    The lines done so far, and the current one, which holds everything since its start. `spaces` is the kind
    of the last cell.
  */
  ghost predicate Laying(wrapped: seq<Text>, current: Text, cells: Text, starts: seq<int>, width: nat, spaces: bool) {
    && LaidOut(wrapped + [current], cells, starts, width)
    && 0 <= starts[|wrapped|] <= |cells| && Cells(current) == cells[starts[|wrapped|]..]
    && (cells != [] ==> IsSpace(cells[|cells| - 1]) == spaces)
  }

  lemma LayStarts(width: nat)
    ensures Laying([], [], [], [0], width, false)
  {
  }

  /** The cells of a token of one kind, after cells of the other kind. */
  ghost predicate NextCells(cells: Text, more: Text, spaces: bool, kind: bool) {
    more != [] && (forall i :: 0 <= i < |more| ==> more[i].Cell? && IsSpace(more[i]) == kind)
      && (cells != [] ==> kind != spaces)
  }

  lemma NextIsChange(wrapped: seq<Text>, current: Text, cells: Text, starts: seq<int>, width: nat, spaces: bool,
      more: Text, kind: bool)
    requires Laying(wrapped, current, cells, starts, width, spaces) && NextCells(cells, more, spaces, kind)
    ensures TextChanges(cells, more) && starts[|wrapped|] <= |cells| && |starts| == |wrapped| + 1
    ensures IsSpace((cells + more)[|cells| + |more| - 1]) == kind
    ensures forall i :: |cells| < i < |cells| + |more| ==> !Boundary(cells + more, i)
    ensures (cells + more)[starts[|wrapped|]..] == Cells(current) + more
    ensures (wrapped + [current])[..|wrapped|] == wrapped
  {
    assert LineAt((wrapped + [current])[|wrapped|], cells, starts, width, |wrapped|);
    hide BreakDue;
    hide Holds;
  }

  /** The token is appended to the current line. */
  lemma {:induction false} LayAppend(wrapped: seq<Text>, current: Text, cells: Text, starts: seq<int>, width: nat,
      spaces: bool,
      token: Text, kind: bool)
    requires Laying(wrapped, current, cells, starts, width, spaces) && NextCells(cells, Cells(token), spaces, kind)
    ensures Laying(wrapped, current + token, cells + Cells(token), starts, width, kind)
  {
    hide LaidOut;
    hide Holds;
    hide Cells;
    hide Boundary;
    hide TextChanges;
    NextIsChange(wrapped, current, cells, starts, width, spaces, Cells(token), kind);
    var all, from := cells + Cells(token), starts[|wrapped|];
    hide NextCells;
    CellsConcat(current, token);
    assert all[from..] == all[from..|all|];
    HoldsAll(current + token, all[from..|all|]);
    LayMore(wrapped + [current], cells, starts, current + token, Cells(token), [], [], width);
    assert wrapped + [current + token] + [] == wrapped + [current + token] && starts + [] == starts;
  }

  lemma HoldsAll(line: Text, cells: Text)
    requires Cells(line) == cells
    ensures Holds(line, cells)
  {
  }

  /** The cells up to the end of the token are too wide for the line that starts at `from`. */
  lemma TokenBreak(cells: Text, more: Text, from: int, at: int, width: nat)
    requires 0 <= from <= |cells| && (at == |cells| || at == |cells| + |more|) && TextChanges(cells, more) && more != []
    requires Width((cells + more)[from..]) > width
    requires forall i :: |cells| < i < |cells| + |more| ==> !Boundary(cells + more, i)
    ensures BreakDue(cells + more, from, at, width)
  {
    var all := cells + more;
    assert all[from..|all|] == all[from..];
    assert at == |cells| ==> Boundary(all, at) by {
      assert at == |cells| && 0 < at ==> all[at - 1] == cells[at - 1] && all[at] == more[0];
    }
    hide Width;
    hide TextChanges;
  }

  lemma BreakSlices(cells: Text, more: Text, from: int, at: int)
    requires 0 <= from <= |cells| <= at <= |cells| + |more|
    ensures var all := cells + more;
            && all[from..at] == cells[from..] + more[..at - |cells|]
            && all[at..] == more[at - |cells|..] && all[at..|all|] == all[at..]
  {
  }

  lemma OneTail(line: Text, cells: Text, from: int, at: int, width: nat)
    requires BreakDue(cells, from, at, width) && 0 <= at <= |cells| && Holds(line, cells[at..|cells|])
    ensures TailAt(line, cells, from, [at], width, 0)
  {
    hide Holds;
    hide BreakDue;
  }

  /**
    The cells from the last line's start are too wide, so the next line starts at `at`, before the token or
    after it.
  */
  lemma LayBreak(wrapped: seq<Text>, current: Text, cells: Text, starts: seq<int>, width: nat, spaces: bool,
      more: Text, kind: bool, ended: Text, next: Text, at: int)
    requires Laying(wrapped, current, cells, starts, width, spaces) && NextCells(cells, more, spaces, kind)
    requires Width(Cells(current) + more) > width && (at == |cells| || at == |cells| + |more|)
    requires Holds(ended, Cells(current) + more[..at - |cells|]) && Cells(next) == more[at - |cells|..]
    ensures Laying(wrapped + [ended], next, cells + more, starts + [at], width, kind)
  {
    hide LaidOut;
    hide Width;
    hide Boundary;
    hide Holds;
    hide Cells;
    hide TextChanges;
    hide BreakDue;
    NextIsChange(wrapped, current, cells, starts, width, spaces, more, kind);
    assert more != [];
    hide NextCells;
    TokenBreak(cells, more, starts[|wrapped|], at, width);
    LayTwo(wrapped, current, cells, starts, width, more, ended, next, at);
  }

  lemma LayTwo(wrapped: seq<Text>, current: Text, cells: Text, starts: seq<int>, width: nat, more: Text, ended: Text,
      next: Text, at: int)
    requires LaidOut(wrapped + [current], cells, starts, width) && TextChanges(cells, more)
    requires |starts| == |wrapped| + 1 && 0 <= starts[|wrapped|] <= |cells| <= at <= |cells| + |more|
    requires BreakDue(cells + more, starts[|wrapped|], at, width)
    requires Holds(ended, cells[starts[|wrapped|]..] + more[..at - |cells|]) && Cells(next) == more[at - |cells|..]
    ensures LaidOut(wrapped + [ended] + [next], cells + more, starts + [at], width)
    ensures Cells(next) == (cells + more)[at..]
  {
    hide LaidOut;
    hide Holds;
    hide Cells;
    hide TextChanges;
    hide BreakDue;
    var all, from := cells + more, starts[|wrapped|];
    BreakSlices(cells, more, from, at);
    HoldsAll(next, all[at..|all|]);
    OneTail(next, all, from, at, width);
    hide TailAt;
    LayMore(wrapped + [current], cells, starts, ended, more, [next], [at], width);
    assert (wrapped + [current])[..|wrapped|] == wrapped;
  }

  /** Cells cut wherever the next one does not fit. */
  ghost predicate CutUp(lines: seq<Text>, cells: Text, starts: seq<int>, width: nat) {
    |lines| == |starts| > 0 && starts[0] == 0 && forall k ::
      0 <= k < |lines| ==> PartAt(lines[k], cells, starts, width, k)
  }

  ghost predicate PartAt(line: Text, cells: Text, starts: seq<int>, width: nat, k: int) {
    && 0 <= k < |starts| && 0 <= starts[k] <= EndAt(starts, k, |cells|) <= |cells|
    && Cells(line) == cells[starts[k]..EndAt(starts, k, |cells|)]
    && (0 < k ==> 0 <= starts[k - 1] <= starts[k] < |cells| && Width(cells[starts[k - 1]..starts[k] + 1]) > width)
  }

  /** A part that is not the last stays as it is when a cell follows, in a new line or not. */
  lemma PartStays(line: Text, cells: Text, starts: seq<int>, width: nat, k: nat, more: Text, later: seq<int>)
    requires PartAt(line, cells, starts, width, k) && starts <= later
    requires k < |starts| - 1 || (k == |starts| - 1 < |later| - 1 && later[k + 1] == |cells|)
    ensures PartAt(line, cells + more, later, width, k)
  {
    var all := cells + more;
    assert EndAt(later, k, |all|) == EndAt(starts, k, |cells|) <= |cells|;
    assert all[starts[k]..EndAt(starts, k, |cells|)] == cells[starts[k]..EndAt(starts, k, |cells|)];
    assert 0 < k ==> all[starts[k - 1]..starts[k] + 1] == cells[starts[k - 1]..starts[k] + 1];
    hide Cells;
    hide Width;
  }

  lemma LastPartMore(line: Text, cells: Text, starts: seq<int>, width: nat, k: nat, longer: Text, more: Text)
    requires PartAt(line, cells, starts, width, k) && k == |starts| - 1 && Cells(longer) == Cells(line) + more
    ensures PartAt(longer, cells + more, starts, width, k)
  {
    var all := cells + more;
    assert 0 < k ==> all[starts[k - 1]..starts[k] + 1] == cells[starts[k - 1]..starts[k] + 1];
    hide Cells;
    hide Width;
  }

  lemma CutStarts(line: Text, width: nat)
    requires NoCells(line)
    ensures CutUp([] + [line], Cells([]), [0], width)
  {
    CellsSay(line, false);
  }

  lemma CutAdds(lines: seq<Text>, current: Text, text: Text, starts: seq<int>, width: nat, item: Item)
    requires CutUp(lines + [current], Cells(text), starts, width)
    ensures CutUp(lines + [current + [item]], Cells(text + [item]), starts, width)
  {
    CellsAdd(text, item);
    CellsAdd(current, item);
    var was, now, more := lines + [current], lines + [current + [item]], if item.Cell? then [item] else [];
    hide Cells;
    hide PartAt;
    forall k | 0 <= k < |now|
      ensures PartAt(now[k], Cells(text) + more, starts, width, k)
    {
      assert PartAt(was[k], Cells(text), starts, width, k);
      if k < |lines| {
        assert now[k] == was[k];
        PartStays(was[k], Cells(text), starts, width, k, more, starts);
      } else {
        LastPartMore(current, Cells(text), starts, width, k, current + [item], more);
      }
    }
  }

  /** The next cell starts a line of its own. */
  lemma NewPart(line: Text, cells: Text, starts: seq<int>, width: nat, k: nat, item: Item, next: Text)
    requires PartAt(line, cells, starts, width, k) && k == |starts| - 1
    requires Width(line) + ItemWidth(item) > width && item.Cell? && Cells(next) == [item]
    ensures PartAt(next, cells + [item], starts + [|cells|], width, k + 1)
  {
    var all := cells + [item];
    hide Cells;
    ItemsWidth(item);
    hide Width;
    assert starts[k] <= |cells| && Cells(line) == cells[starts[k]..|cells|];
    SliceAcross(cells, [item], starts[k], |cells| + 1);
    assert [item][..1] == [item] && [item][..0] == [] && all[|cells|..] == all[|cells|..|all|];
    CellsWidth(line);
    WidthConcat(cells[starts[k]..], [item]);
    assert Width(all[starts[k]..|cells| + 1]) > width;
  }

  lemma ItemsWidth(item: Item)
    ensures Width([item]) == ItemWidth(item)
  {
    assert [item][..0] == [];
  }

  lemma CutBreaks(lines: seq<Text>, current: Text, text: Text, starts: seq<int>, width: nat, item: Item, ended: Text,
      next: Text)
    requires CutUp(lines + [current], Cells(text), starts, width) && item.Cell? && Width(current) + item.width > width
    requires Cells(ended) == Cells(current) && NoCells(next)
    ensures CutUp((lines + [ended]) + [next + [item]], Cells(text + [item]), starts + [|Cells(text)|], width)
  {
    hide Cells;
    hide PartAt;
    hide Width;
    hide NoCells;
    var cells, was, now := Cells(text), lines + [current], (lines + [ended]) + [next + [item]];
    CellsAdd(text, item);
    CellAlone(next, item);
    CutSays(was, cells, starts, width);
    CutIntoMore(lines, current, cells, starts, width, item, ended, next + [item]);
  }

  lemma CellAlone(text: Text, item: Item)
    requires NoCells(text) && item.Cell?
    ensures Cells(text + [item]) == [item]
  {
    CellsSay(text, false);
    CellsAdd(text, item);
  }

  lemma CutSays(lines: seq<Text>, cells: Text, starts: seq<int>, width: nat)
    requires CutUp(lines, cells, starts, width)
    ensures |lines| == |starts| > 0 && PartAt(lines[|lines| - 1], cells, starts, width, |lines| - 1)
  {
    hide PartAt;
  }

  lemma CutIntoMore(lines: seq<Text>, current: Text, cells: Text, starts: seq<int>, width: nat, item: Item, ended: Text,
      next: Text)
    requires CutUp(lines + [current], cells, starts, width) && item.Cell? && Width(current) + item.width > width
    requires PartAt(current, cells, starts, width, |lines|) && Cells(ended) == Cells(current) && Cells(next) == [item]
    ensures CutUp((lines + [ended]) + [next], cells + [item], starts + [|cells|], width)
  {
    hide Cells;
    hide PartAt;
    hide Width;
    var n, later := |lines|, starts + [|cells|];
    SameCells(current, cells, starts, width, n, ended);
    PartStays(ended, cells, starts, width, n, [item], later);
    NewPart(current, cells, starts, width, n, item, next);
    PartsStay(lines, lines + [current], cells, starts, width, [item], later);
    hide CutUp;
    PartsCut((lines + [ended]) + [next], cells + [item], later, width);
  }

  lemma PartsCut(lines: seq<Text>, cells: Text, starts: seq<int>, width: nat)
    requires |lines| == |starts| > 0 && starts[0] == 0
    requires forall k :: 0 <= k < |lines| ==> PartAt(lines[k], cells, starts, width, k)
    ensures CutUp(lines, cells, starts, width)
  {
  }

  lemma PartsStay(lines: seq<Text>, was: seq<Text>, cells: Text, starts: seq<int>, width: nat, more: Text,
      later: seq<int>)
    requires CutUp(was, cells, starts, width) && lines == was[..|was| - 1] && starts <= later
    ensures forall k :: 0 <= k < |lines| ==> PartAt(lines[k], cells + more, later, width, k)
  {
    hide PartAt;
    forall k | 0 <= k < |lines|
      ensures PartAt(lines[k], cells + more, later, width, k)
    {
      assert PartAt(was[k], cells, starts, width, k);
      PartStays(was[k], cells, starts, width, k, more, later);
    }
  }

  lemma SameCells(line: Text, cells: Text, starts: seq<int>, width: nat, k: nat, other: Text)
    requires PartAt(line, cells, starts, width, k) && Cells(other) == Cells(line)
    ensures PartAt(other, cells, starts, width, k)
  {
    hide Cells;
    hide Width;
  }

  function Shifted(starts: seq<int>, offset: nat): (shifted: seq<int>)
    ensures |shifted| == |starts| && forall k :: 0 <= k < |starts| ==> shifted[k] == starts[k] + offset
  {
    seq(|starts|, i requires 0 <= i < |starts| => starts[i] + offset)
  }

  /** The word after some cells, where it is too wide for any line, is cut up at breaks that are due. */
  lemma {:induction false} CutIsDue(line: Text, cells: Text, word: Text, cut: seq<int>, width: nat, k: nat)
    requires PartAt(line, word, cut, width, k) && 0 < k
    requires forall i :: |cells| < i < |cells| + |word| ==> !Boundary(cells + word, i)
    requires Width(word) > width
    ensures BreakDue(cells + word, |cells| + cut[k - 1], |cells| + cut[k], width)
  {
    var all, from, at := cells + word, |cells| + cut[k - 1], |cells| + cut[k];
    hide Cells;
    hide Width;
    hide Boundary;
    assert from <= at < |all|;
    SliceAfter(cells, word, cut[k - 1], cut[k] + 1);
    assert at + 1 == |cells| + (cut[k] + 1);
    assert Width(word[cut[k - 1]..cut[k] + 1]) > width;
    assert all[from..at + 1] == word[cut[k - 1]..cut[k] + 1];
    hide PartAt;
    forall e | at <= e <= |all| && (e == at ==> e == |all|) && Boundary(all, e)
      ensures Width(all[from..e]) > width
    {
      EndIsAfter(all, at, e);
      WidthWithin(all, from, from, at + 1, e);
    }
  }

  lemma EndIsAfter(cells: Text, at: int, e: int)
    requires 0 <= at < |cells| && at <= e && (e == at ==> e == |cells|)
    ensures at < e
  {
  }

  lemma PartHolds(line: Text, cells: Text, word: Text, cut: seq<int>, width: nat, k: nat)
    requires PartAt(line, word, cut, width, k)
    ensures var all, shifted := cells + word, Shifted(cut, |cells|);
            && shifted[k] <= EndAt(shifted, k, |all|) <= |all|
            && Cells(line) == all[shifted[k]..EndAt(shifted, k, |all|)]
            && Holds(line, all[shifted[k]..EndAt(shifted, k, |all|)])
  {
    var all, shifted := cells + word, Shifted(cut, |cells|);
    SliceAfter(cells, word, cut[k], EndAt(cut, k, |word|));
    HoldsAll(line, all[shifted[k]..EndAt(shifted, k, |all|)]);
    hide Cells;
    hide Width;
    hide Holds;
  }

  /** The word's own lines, if its first one follows a line that starts at `from`. */
  lemma {:induction false} WordTail(cells: Text, word: Text, broken: seq<Text>, cut: seq<int>, width: nat, from: int,
      k: nat)
    requires CutUp(broken, word, cut, width) && k < |broken|
    requires forall i :: |cells| < i < |cells| + |word| ==> !Boundary(cells + word, i)
    requires Width(word) > width && TextChanges(cells, word) && 0 <= from <= |cells|
    ensures TailAt(broken[k], cells + word, from, Shifted(cut, |cells|), width, k)
  {
    assert PartAt(broken[k], word, cut, width, k);
    hide CutUp;
    hide PartAt;
    hide Holds;
    hide Cells;
    hide Width;
    hide BreakDue;
    hide Boundary;
    hide TextChanges;
    PartHolds(broken[k], cells, word, cut, width, k);
    if 0 < k {
      CutIsDue(broken[k], cells, word, cut, width, k);
    } else {
      WordEndsLine(cells, word, from, width);
    }
  }

  /** A tail without its first line, which has become the line before it. */
  lemma TailOfTail(line: Text, cells: Text, from: int, tailStarts: seq<int>, width: nat, k: nat)
    requires 0 < k < |tailStarts| && TailAt(line, cells, from, tailStarts, width, k)
    ensures TailAt(line, cells, tailStarts[0], tailStarts[1..], width, k - 1)
  {
    hide Holds;
    hide BreakDue;
    var rest := tailStarts[1..];
    assert rest[k - 1] == tailStarts[k] && EndAt(rest, k - 1, |cells|) == EndAt(tailStarts, k, |cells|);
    assert 0 < k - 1 ==> rest[k - 2] == tailStarts[k - 1];
  }

  /** A line that is not empty is ended before the word; the word's own lines follow. */
  lemma LayWord(wrapped: seq<Text>, current: Text, cells: Text, starts: seq<int>, width: nat, spaces: bool,
      word: Text, kind: bool, ended: Text, broken: seq<Text>, cut: seq<int>)
    requires Laying(wrapped, current, cells, starts, width, spaces) && NextCells(cells, word, spaces, kind)
    requires Width(word) > width && CutUp(broken, word, cut, width) && Cells(ended) == Cells(current)
    ensures |cut| == |broken| > 0
    ensures var lines := if current == [] then wrapped else wrapped + [ended];
            var first := if current == [] then starts[..|wrapped|] else starts;
            Laying(lines + broken[..|broken| - 1], broken[|broken| - 1], cells + word, first + Shifted(cut, |cells|),
              width, kind)
  {
    hide LaidOut;
    hide CutUp;
    hide Width;
    hide Boundary;
    hide Cells;
    hide Holds;
    hide TextChanges;
    NextIsChange(wrapped, current, cells, starts, width, spaces, word, kind);
    LastPart(broken, word, cut, width, cells);
    hide NextCells;
    var shifted := Shifted(cut, |cells|);
    hide Shifted;
    WordTails(cells, word, broken, cut, width, starts[|wrapped|]);
    hide TailAt;
    if current == [] {
      NothingHasNoCells();
      LayInPlace(wrapped, cells, starts, width, word, broken, shifted);
      LayingOf(wrapped, broken, cells + word, starts[..|wrapped|], shifted, width, kind);
    } else {
      LayAfter(wrapped, current, cells, starts, width, word, ended, broken, shifted);
      LayingOf(wrapped + [ended], broken, cells + word, starts, shifted, width, kind);
    }
  }

  /** Of lines laid out, the last one is current. */
  lemma LayingOf(lines: seq<Text>, broken: seq<Text>, cells: Text, starts: seq<int>, shifted: seq<int>, width: nat,
      kind: bool)
    requires LaidOut(lines + broken, cells, starts + shifted, width)
    requires |starts| == |lines| && |broken| == |shifted| > 0 && cells != [] && IsSpace(cells[|cells| - 1]) == kind
    requires 0 <= shifted[|broken| - 1] <= |cells| && Cells(broken[|broken| - 1]) == cells[shifted[|broken| - 1]..]
    ensures Laying(lines + broken[..|broken| - 1], broken[|broken| - 1], cells, starts + shifted, width, kind)
  {
    hide LaidOut;
    hide Cells;
    var last := |broken| - 1;
    assert broken == broken[..last] + [broken[last]];
    assert lines + broken == lines + broken[..last] + [broken[last]];
  }

  lemma WordTails(cells: Text, word: Text, broken: seq<Text>, cut: seq<int>, width: nat, from: int)
    requires CutUp(broken, word, cut, width)
    requires forall i :: |cells| < i < |cells| + |word| ==> !Boundary(cells + word, i)
    requires Width(word) > width && TextChanges(cells, word) && 0 <= from <= |cells|
    ensures forall k :: 0 <= k < |broken| ==>
                          TailAt(broken[k], cells + word, from, Shifted(cut, |cells|), width, k)
  {
    hide *;
    forall k | 0 <= k < |broken|
      ensures TailAt(broken[k], cells + word, from, Shifted(cut, |cells|), width, k)
    {
      WordTail(cells, word, broken, cut, width, from, k);
    }
  }

  /** Lines follow the last line, which is ended. */
  lemma LayAfter(wrapped: seq<Text>, current: Text, cells: Text, starts: seq<int>, width: nat, word: Text, ended: Text,
      broken: seq<Text>, shifted: seq<int>)
    requires LaidOut(wrapped + [current], cells, starts, width) && TextChanges(cells, word)
    requires |broken| == |shifted| > 0 && |starts| == |wrapped| + 1 && shifted[0] == |cells|
    requires 0 <= starts[|wrapped|] <= |cells| && Cells(ended) == cells[starts[|wrapped|]..]
    requires forall k :: 0 <= k < |broken| ==> TailAt(broken[k], cells + word, starts[|wrapped|], shifted, width, k)
    ensures LaidOut(wrapped + [ended] + broken, cells + word, starts + shifted, width)
  {
    hide LaidOut;
    hide Holds;
    hide Cells;
    hide TextChanges;
    hide TailAt;
    SliceAcross(cells, word, starts[|wrapped|], |cells|);
    assert cells[starts[|wrapped|]..] + word[..0] == cells[starts[|wrapped|]..];
    HoldsAll(ended, (cells + word)[starts[|wrapped|]..|cells|]);
    LayMore(wrapped + [current], cells, starts, ended, word, broken, shifted, width);
    assert (wrapped + [current])[..|wrapped|] == wrapped;
  }

  lemma Regroup3(a: seq<Text>, b: seq<Text>, c: seq<Text>)
    ensures a + (b + c) == a + b + c
  {
  }

  /** Lines take the place of an empty last line. */
  lemma LayInPlace(wrapped: seq<Text>, cells: Text, starts: seq<int>, width: nat, word: Text, broken: seq<Text>,
      shifted: seq<int>)
    requires LaidOut(wrapped + [[]], cells, starts, width) && TextChanges(cells, word)
    requires |broken| == |shifted| > 0 && |starts| == |wrapped| + 1 && shifted[0] == starts[|wrapped|] == |cells|
    requires var all := cells + word;
             |cells| <= EndAt(shifted, 0, |all|) <= |all| && Holds(broken[0], all[|cells|..EndAt(shifted, 0, |all|)])
    requires forall k :: 0 <= k < |broken| ==> TailAt(broken[k], cells + word, starts[|wrapped|], shifted, width, k)
    ensures LaidOut(wrapped + broken, cells + word, starts[..|wrapped|] + shifted, width)
  {
    var all, n, tail, tailStarts := cells + word, |wrapped|, broken[1..], shifted[1..];
    hide LaidOut;
    hide Holds;
    hide TailAt;
    hide TextChanges;
    forall k | 0 <= k < |tail|
      ensures TailAt(tail[k], all, starts[n], tailStarts, width, k)
    {
      TailOfTail(broken[k + 1], all, starts[n], shifted, width, k + 1);
    }
    LayMore(wrapped + [[]], cells, starts, broken[0], word, tail, tailStarts, width);
    assert broken == [broken[0]] + tail && (wrapped + [[]])[..n] == wrapped;
    Regroup3(wrapped, [broken[0]], tail);
    assert starts + tailStarts == starts[..n] + shifted;
  }

  lemma LastPart(broken: seq<Text>, word: Text, cut: seq<int>, width: nat, cells: Text)
    requires CutUp(broken, word, cut, width)
    ensures var all, shifted, last := cells + word, Shifted(cut, |cells|), |broken| - 1;
            && |cut| == |broken| > 0 && shifted[0] == |cells| && shifted[last] <= |all|
            && Cells(broken[last]) == all[shifted[last]..]
            && EndAt(shifted, 0, |all|) <= |all|
            && Holds(broken[0], all[|cells|..EndAt(shifted, 0, |all|)]) && |cells| <= EndAt(shifted, 0, |all|)
  {
    var all, shifted, last := cells + word, Shifted(cut, |cells|), |broken| - 1;
    assert PartAt(broken[last], word, cut, width, last) && PartAt(broken[0], word, cut, width, 0);
    hide CutUp;
    hide PartAt;
    hide Cells;
    hide Holds;
    PartHolds(broken[last], cells, word, cut, width, last);
    PartHolds(broken[0], cells, word, cut, width, 0);
    assert all[shifted[last]..|all|] == all[shifted[last]..];
  }

  lemma NothingHasNoCells()
    ensures Cells([]) == []
  {
  }

  lemma {:induction false} WordEndsLine(cells: Text, word: Text, from: int, width: nat)
    requires 0 <= from <= |cells| && Width(word) > width && TextChanges(cells, word)
    requires forall i :: |cells| < i < |cells| + |word| ==> !Boundary(cells + word, i)
    ensures BreakDue(cells + word, from, |cells|, width)
  {
    assert word != [];
    hide Width;
    hide Boundary;
    hide TextChanges;
    hide BreakDue;
    var all := cells + word;
    assert all[|cells|..|all|] == word && all[from..] == all[from..|all|];
    WidthWithin(all, from, |cells|, |all|, |all|);
    TokenBreak(cells, word, from, |cells|, width);
  }

  /** The last line is left out when it is empty and not the only one. */
  lemma LayEnds(wrapped: seq<Text>, current: Text, cells: Text, starts: seq<int>, width: nat, spaces: bool)
    requires Laying(wrapped, current, cells, starts, width, spaces)
    ensures |starts| == |wrapped| + 1
    ensures LaidOut(wrapped + [current], cells, starts, width)
    ensures current == [] && wrapped != [] ==> LaidOut(wrapped, cells, starts[..|wrapped|], width)
  {
    if current == [] && wrapped != [] {
      var all, n, fewer := wrapped + [current], |wrapped|, starts[..|wrapped|];
      assert LineAt(all[n], cells, starts, width, n);
      assert starts[n] == |cells|;
      hide Holds;
      hide BreakDue;
      hide Cells;
      forall k | 0 <= k < n
        ensures LineAt(wrapped[k], cells, fewer, width, k)
      {
        assert LineAt(all[k], cells, starts, width, k);
        assert EndAt(fewer, k, |cells|) == EndAt(starts, k, |cells|);
      }
    }
  }

  lemma HoldsTrimmed(line: Text, cells: Text)
    requires Holds(line, cells)
    ensures Holds(TrimEnd(line), cells)
  {
    CellsTrim(line);
    var inner, outer := Cells(TrimEnd(line)), Cells(line);
    assert cells[|inner|..] == outer[|inner|..] + cells[|outer|..];
  }

  lemma LayTrimmed(lines: seq<Text>, trimmed: seq<Text>, cells: Text, starts: seq<int>, width: nat)
    requires LaidOut(lines, cells, starts, width) && |trimmed| == |lines|
    requires forall k :: 0 <= k < |lines| ==> trimmed[k] == TrimEnd(lines[k])
    ensures LaidOut(trimmed, cells, starts, width)
  {
    hide Holds;
    hide BreakDue;
    hide TrimEnd;
    forall k | 0 <= k < |lines|
      ensures LineAt(trimmed[k], cells, starts, width, k)
    {
      assert LineAt(lines[k], cells, starts, width, k);
      HoldsTrimmed(lines[k], cells[starts[k]..EndAt(starts, k, |cells|)]);
    }
  }
}
