/**
  The inline differential renderer (`TUI.doRender`): it repaints only what changed, with relative
  cursor moves, and lets the terminal scroll. The theorem is that the screen it leaves is the one
  a full repaint would show at the tracked viewport.
*/
module InlineRenderer {
  import opened Basics
  import opened Terminal

  datatype CursorPos = CursorPos(row: nat, col: nat)

  /** Line `i` of a frame, or the empty line outside it. */
  function LineAt(lines: seq<Line>, i: int): Line {
    if 0 <= i < |lines| then lines[i] else ""
  }

  ghost function RowsOf(lines: seq<Line>): (rows: seq<Row>)
    ensures |rows| == |lines|
  {
    seq(|lines|, i requires 0 <= i < |lines| => Clean(lines[i]))
  }

  /** Screen row r shows line top + r of the frame, blank past its end. */
  ghost predicate ShowsFrame(s: Screen, lines: seq<Line>, top: int)
    requires s.Valid()
  {
    forall i {:trigger s.tape[i]} :: s.Top() <= i < |s.tape| ==> s.tape[i] == Clean(LineAt(lines, top + i - s.Top()))
  }

  predicate SameLines(a: seq<Line>, b: seq<Line>) {
    forall i {:trigger LineAt(a, i)} {:trigger LineAt(b, i)} :: 0 <= i < Max(|a|, |b|) ==> LineAt(a, i) == LineAt(b, i)
  }

  /** The fields of the inline differ, as saved while the fullscreen view is up. */
  datatype InlineState = InlineState(
    previousLines: seq<Line>,
    previousWidth: int,
    previousHeight: int,
    cursorRow: int,
    hardwareCursorRow: int,
    maxLinesRendered: int,
    previousViewportTop: int)

  /**
    Unless a forced render is pending, `cursorRow` is the end of the last frame, and `maxLinesRendered`
    covers the frame and the tracked viewport: some frame since the last clearing has reached that far.
  */
  predicate Counted(st: InlineState) {
    st.previousWidth > 0 ==>
      && st.cursorRow == Max(0, |st.previousLines| - 1) && |st.previousLines| <= st.maxLinesRendered
      && 0 <= st.previousViewportTop
      && (st.previousViewportTop > 0 ==> st.previousViewportTop + st.previousHeight <= st.maxLinesRendered)
  }

  /** The size recorded by the last render differs from the terminal's. */
  predicate SizeChanged(st: InlineState, columns: int, rows: int) {
    (st.previousWidth != 0 && st.previousWidth != columns) || (st.previousHeight != 0 && st.previousHeight != rows)
  }

  /** The screen is what the last render left: the tracked window of the last frame, cursor where it is tracked. */
  ghost predicate InSync(st: InlineState, s: Screen) {
    && s.Valid()
    && 0 <= st.previousViewportTop <= st.hardwareCursorRow < st.previousViewportTop + s.height
    && |st.previousLines| <= st.previousViewportTop + s.height
    && st.hardwareCursorRow <= Max(0, |st.previousLines| - 1)
    && ShowsFrame(s, st.previousLines, st.previousViewportTop)
    && s.CursorRow() == st.hardwareCursorRow - st.previousViewportTop
    && (st.previousLines == [] ==> s.AtStart())
  }

  /** A frame line above the tracked viewport changed. */
  predicate ChangedAbove(previous: seq<Line>, lines: seq<Line>, top: int) {
    exists i :: 0 <= i < top && LineAt(previous, i) != LineAt(lines, i)
  }

  /** The change reaches above the tracked viewport, or the frame now ends there. */
  predicate OutOfReach(previous: seq<Line>, lines: seq<Line>, top: int) {
    || ChangedAbove(previous, lines, top)
    || (|lines| <= top && top > 0 && !SameLines(previous, lines))
  }

  /** A frame at least as long as any since the last clearing has the tracked viewport at its end. */
  lemma ShrinkTop(st: InlineState, rows: int, count: nat)
    requires Counted(st)
    ensures st.previousWidth > 0 && st.previousHeight == rows && st.maxLinesRendered <= count ==>
              Max(st.previousViewportTop, count - rows) == Max(0, count - rows)
  {
  }

  /** When a render clears the screen, or repaints it in place, and so begins to count its lines anew. */
  predicate Recounts(st: InlineState, columns: int, rows: int, lines: seq<Line>, shrinkClears: bool) {
    NeedsRedraw(st, columns, rows, lines, shrinkClears) && (st.previousLines != [] || SizeChanged(st, columns, rows))
  }

  /** When a render repaints the whole window instead of the changed rows. */
  predicate NeedsRedraw(st: InlineState, columns: int, rows: int, lines: seq<Line>, shrinkClears: bool) {
    || st.previousLines == []
    || SizeChanged(st, columns, rows)
    || (shrinkClears && |lines| < st.maxLinesRendered)
    || OutOfReach(st.previousLines, lines, st.previousViewportTop)
  }

  /**
    The one frame the differ does not clear: an empty frame after a frame that fits the screen
    and starts with a non-empty line leaves that line on the first row. (On a screen of one row
    the move below the first row is held at it, so the row is cleared after all.)
  */
  predicate LeavesStaleTop(st: InlineState, columns: int, rows: int, lines: seq<Line>, shrinkClears: bool) {
    && lines == []
    && LineAt(st.previousLines, 0) != ""
    && rows > 1
    && st.previousViewportTop == 0
    && !SizeChanged(st, columns, rows)
    && !(shrinkClears && 0 < st.maxLinesRendered)
  }

  /**
    When a render can put the cursor on its marker: a differential one never moves the tracked viewport
    up, so a marker above it, which the search of a shrunk frame's last screenful may find, is out of reach.
  */
  predicate PlacesCursor(st: InlineState, columns: int, rows: int, lines: seq<Line>, shrinkClears: bool,
      cursorPos: Option<CursorPos>)
  {
    cursorPos.None? || st.previousViewportTop <= cursorPos.value.row
      || NeedsRedraw(st, columns, rows, lines, shrinkClears)
  }

  /** A frame whose cursor marker, if any, lies in its bottom `rows` lines, where the renderer looks for it. */
  predicate CursorInWindow(cursorPos: Option<CursorPos>, lines: seq<Line>, rows: int) {
    cursorPos.Some? ==> Max(0, |lines| - rows) <= cursorPos.value.row < |lines|
  }

  /** One line on the next row (or on the current one), cleared first or already blank. */
  method PutLine(buffer: seq<Op>, line: Line, below: bool, clear: bool, ghost s: Screen) returns (out: seq<Op>)
    requires s.Valid()
    requires var b := ApplyAll(s, buffer);
             && (!below ==> b.AtStart())
             && (clear || (if below then b.cur + 1 < |b.tape| ==> b.tape[b.cur + 1] == BLANK
                else b.tape[b.cur] == BLANK))
    ensures var b := ApplyAll(s, buffer);
            var r := ApplyAll(s, out);
            && r.cur == (if below then b.cur + 1 else b.cur)
            && r.tape == (if r.cur == |b.tape| then b.tape + [Clean(line)] else b.tape[r.cur := Clean(line)])
  {
    hide ApplyAll;
    out := buffer;
    if below {
      out := Put(out, NewLine, s);
    }
    if clear {
      out := Put(out, ClearLine, s);
    }
    out := Put(out, Text(line), s);
  }

  /**
    Prints lines[from..to] from the cursor's row downwards, one row each, scrolling at the bottom.
    Rows are cleared first when `clearEach`; otherwise they must be blank.
  */
  method PutLines(buffer: seq<Op>, lines: seq<Line>, from: nat, to: nat, clearEach: bool, ghost s: Screen)
    returns (out: seq<Op>)
    requires s.Valid() && from <= to <= |lines|
    requires var b := ApplyAll(s, buffer);
             b.AtStart()
               && (!clearEach ==> forall k {:trigger b.tape[k]} :: b.cur <= k < |b.tape| ==> b.tape[k] == BLANK)
    ensures var b := ApplyAll(s, buffer);
            var r := ApplyAll(s, out);
            && (from == to ==> r == b)
            && (from < to ==> r.cur == b.cur + to - from - 1)
            && |r.tape| == Max(|b.tape|, b.cur + to - from)
            && (forall k {:trigger r.tape[k]} ::
               b.cur <= k < b.cur + to - from ==> r.tape[k] == Clean(lines[from + k - b.cur]))
            && (forall k {:trigger r.tape[k]} ::
               0 <= k < |b.tape| && !(b.cur <= k < b.cur + to - from) ==> r.tape[k] == b.tape[k])
  {
    hide ApplyAll;
    out := buffer;
    ghost var b := ApplyAll(s, buffer);
    ghost var r := b;
    for i := from to to
      invariant r == ApplyAll(s, out) && r.Valid() && r.height == b.height
      invariant i == from ==> r == b
      invariant i > from ==> r.cur == b.cur + i - from - 1
      invariant |r.tape| == Max(|b.tape|, b.cur + i - from)
      invariant forall k {:trigger r.tape[k]} ::
                b.cur <= k < b.cur + i - from ==> r.tape[k] == Clean(lines[from + k - b.cur])
      invariant forall k {:trigger r.tape[k]} ::
                0 <= k < |b.tape| && !(b.cur <= k < b.cur + i - from) ==> r.tape[k] == b.tape[k]
    {
      out := PutLine(out, lines[i], i > from, clearEach, s);
      r := ApplyAll(s, out);
    }
  }

  /** Blanks the `count` rows below the cursor, all of them on the screen; ends on the last one. */
  method PutClears(buffer: seq<Op>, count: nat, ghost s: Screen) returns (out: seq<Op>)
    requires s.Valid()
    requires var b := ApplyAll(s, buffer); b.cur + count < |b.tape|
    ensures var b := ApplyAll(s, buffer);
            var r := ApplyAll(s, out);
            && r.cur == b.cur + count && |r.tape| == |b.tape|
            && (count == 0 ==> r == b)
            && (count > 0 ==> r.AtStart())
            && (forall k {:trigger r.tape[k]} :: b.cur < k <= b.cur + count ==> r.tape[k] == BLANK)
            && (forall k {:trigger r.tape[k]} ::
               0 <= k < |b.tape| && !(b.cur < k <= b.cur + count) ==> r.tape[k] == b.tape[k])
  {
    hide ApplyAll;
    out := buffer;
    ghost var b := ApplyAll(s, buffer);
    ghost var r := b;
    for i := 0 to count
      invariant r == ApplyAll(s, out) && r.Valid() && r.height == b.height
      invariant r.cur == b.cur + i && |r.tape| == |b.tape|
      invariant if i == 0 then r == b else r.AtStart()
      invariant forall k {:trigger r.tape[k]} :: b.cur < k <= b.cur + i ==> r.tape[k] == BLANK
      invariant forall k {:trigger r.tape[k]} ::
                0 <= k < |b.tape| && !(b.cur < k <= b.cur + i) ==> r.tape[k] == b.tape[k]
    {
      out := Put(out, NewLine, s);
      r := ApplyAll(s, out);
      out := Put(out, ClearLine, s);
      r := ApplyAll(s, out);
    }
  }

  /** The repaint of the visible window: up to its first row, the new lines, then the rows the old frame used below. */
  method RepaintBuffer(newLines: seq<Line>, windowStart: nat, prevScreenRows: nat, screenRow: nat, ghost s: Screen)
    returns (buffer: seq<Op>)
    requires s.Valid() && s.CursorRow() == screenRow
    requires windowStart <= |newLines| <= windowStart + s.height && 0 < prevScreenRows <= s.height
    requires forall k {:trigger s.tape[k]} :: s.Top() + prevScreenRows <= k < |s.tape| ==> s.tape[k] == BLANK
    ensures var r := ApplyAll(s, buffer);
            && r.Scrollback() == s.Scrollback()
            && ShowsFrame(r, newLines, windowStart)
            && r.CursorRow() == Max(0, |newLines| - windowStart - 1)
            && (windowStart == |newLines| ==> r.AtStart())
  {
    hide ApplyAll;
    hide Apply;
    var visibleCount := |newLines| - windowStart;
    EmptyBuffer(s);
    buffer := PutMove([], -(screenRow as int), s);
    buffer := PutReturn(buffer, s);
    if visibleCount == 0 {
      buffer := PutClear(buffer, s);
    }
    buffer := PutLines(buffer, newLines, windowStart, |newLines|, true, s);
    if visibleCount < prevScreenRows {
      var leftover := prevScreenRows - Max(visibleCount, 1);
      buffer := PutClears(buffer, leftover, s);
      buffer := PutMove(buffer, -(leftover as int), s);
    }
  }

  /** Prints a frame from its line `start` on, on a cleared screen or on one that is blank with the cursor at home. */
  method PrintBuffer(newLines: seq<Line>, start: nat, clear: bool, ghost s: Screen) returns (buffer: seq<Op>)
    requires s.Valid() && (start == 0 || start == |newLines| - s.height)
    requires clear || (s.CursorRow() == 0 && s.AtStart() && ShowsFrame(s, [], 0))
    ensures var r := ApplyAll(s, buffer);
            var top := Max(0, |newLines| - s.height);
            && ShowsFrame(r, newLines, top)
            && r.CursorRow() == Max(0, |newLines| - 1) - top
            && (newLines == [] ==> r.AtStart())
            && (start == top ==> r.Scrollback() == s.Scrollback())
            && (start == 0 ==> r.Scrollback() == s.Scrollback() + RowsOf(newLines[..top]))
  {
    hide ApplyAll;
    hide Apply;
    buffer := HomeBuffer(clear, s);
    buffer := PutLines(buffer, newLines, start, |newLines|, false, s);
  }

  /** A blank screen with the cursor at home, cleared unless it is so already. */
  method HomeBuffer(clear: bool, ghost s: Screen) returns (buffer: seq<Op>)
    requires s.Valid() && (clear || (s.CursorRow() == 0 && s.AtStart() && ShowsFrame(s, [], 0)))
    ensures var home := ApplyAll(s, buffer);
            && home.Valid() && home.height == s.height && |home.tape| == |s.tape| && home.CursorRow() == 0
            && home.AtStart()
            && ShowsFrame(home, [], 0) && home.Scrollback() == s.Scrollback()
  {
    EmptyBuffer(s);
    hide ApplyAll;
    buffer := [];
    if clear {
      buffer := Put(buffer, ClearHome, s);
    }
    ghost var home := ApplyAll(s, buffer);
    assert home.tape[..s.Top()] == s.tape[..s.Top()];
  }

  /**
    The update when only lines past the new frame's end went away: every row then shows the new
    frame, except that an emptied frame keeps a non-empty first row.
  */
  method DeletedLinesBuffer(ghost previousLines: seq<Line>, newLines: seq<Line>, extraLines: nat, targetRow: nat,
      top: nat, hardwareCursorRow: int, ghost s: Screen)
    returns (buffer: seq<Op>)
    requires s.Valid() && ShowsFrame(s, previousLines, top) && s.CursorRow() == hardwareCursorRow - top
    requires extraLines == |previousLines| - |newLines| && 0 < extraLines && |previousLines| <= top + s.height
    requires top <= targetRow == Max(0, |newLines| - 1)
    requires forall i {:trigger LineAt(newLines, i)} ::
             0 <= i < |newLines| ==> LineAt(previousLines, i) == LineAt(newLines, i)
    ensures var r := ApplyAll(s, buffer);
            && (ShowsFrame(r, newLines, top) <==> !(newLines == [] && LineAt(previousLines, 0) != "" && s.height > 1))
            && (newLines == [] && s.height > 1 ==> ShowsFrame(r, [LineAt(previousLines, 0)], top))
            && r.CursorRow() == targetRow - top && r.AtStart()
            && r.Scrollback() == s.Scrollback()
  {
    hide ApplyAll;
    hide Apply;
    buffer := DeleteBuffer(extraLines, targetRow - hardwareCursorRow, s);
    ghost var r := ApplyAll(s, buffer);
    ghost var first := Min(s.Top() + targetRow - top + 1, |s.tape| - 1);
    forall k {:trigger r.tape[k]} | s.Top() <= k < |r.tape|
      ensures r.tape[k] == Clean(LineAt(newLines, top + k - s.Top()))
              || (newLines == [] && s.height > 1 && k == s.Top() && r.tape[k] == Clean(LineAt(previousLines, 0)))
    {
      assert r.tape[k] == if first <= k <= s.Top() + targetRow - top + extraLines then BLANK else s.tape[k];
      assert s.tape[k] == Clean(LineAt(previousLines, top + k - s.Top()));
    }
    if newLines == [] && s.height > 1 {
      assert r.tape[s.Top()] == Clean(LineAt(previousLines, 0));
    }
  }

  /** Clears the rows below the last kept line without scrolling, and comes back to it. */
  method DeleteBuffer(extraLines: nat, lineDiff: int, ghost s: Screen) returns (buffer: seq<Op>)
    requires s.Valid() && extraLines > 0
    requires s.Top() <= s.cur + lineDiff < |s.tape|
    ensures var r := ApplyAll(s, buffer);
            var c := s.cur + lineDiff;
            && |r.tape| == |s.tape| && r.AtStart()
            && r.cur == Max(s.Top(), Min(c, |s.tape| - 1 - extraLines))
            && (forall k {:trigger r.tape[k]} :: 0 <= k < |s.tape| ==>
                  r.tape[k] == if Min(c + 1, |s.tape| - 1) <= k <= c + extraLines then BLANK else s.tape[k])
  {
    hide ApplyAll;
    EmptyBuffer(s);
    buffer := PutMove([], lineDiff, s);
    buffer := PutReturn(buffer, s);
    ghost var r := ApplyAll(s, buffer);
    ghost var c := r.cur;
    buffer := PutMove(buffer, 1, s);
    r := ApplyAll(s, buffer);
    hide Apply;
    for i := 0 to extraLines
      invariant r == ApplyAll(s, buffer) && r.Valid() && r.height == s.height && |r.tape| == |s.tape| && r.AtStart()
      invariant r.cur == Min(c + (if i == extraLines then i else i + 1), |s.tape| - 1)
      invariant forall k {:trigger r.tape[k]} :: 0 <= k < |s.tape| ==>
                  r.tape[k] == if i > 0 && Min(c + 1, |s.tape| - 1) <= k <= c + i then BLANK else s.tape[k]
    {
      buffer := PutReturn(buffer, s);
      buffer := PutClear(buffer, s);
      if i < extraLines - 1 {
        buffer := PutMove(buffer, 1, s);
      }
      r := ApplyAll(s, buffer);
    }
    buffer := PutMove(buffer, -(extraLines as int), s);
  }

  /** Where the changed lines of a frame lie. */
  ghost predicate ChangesWithin(previousLines: seq<Line>, newLines: seq<Line>, first: int, last: int) {
    forall i {:trigger LineAt(previousLines, i)} {:trigger LineAt(newLines, i)} ::
      i < first || i > last ==> LineAt(previousLines, i) == LineAt(newLines, i)
  }

  /** First and last changed line; an append always reaches the end of the frame. */
  method FindChanges(previousLines: seq<Line>, newLines: seq<Line>) returns (firstChanged: int, lastChanged: int)
    ensures firstChanged == -1 ==> SameLines(previousLines, newLines) && |newLines| <= |previousLines|
    ensures firstChanged != -1 ==>
              && 0 <= firstChanged <= lastChanged < Max(|newLines|, |previousLines|)
              && ChangesWithin(previousLines, newLines, firstChanged, lastChanged)
              && (LineAt(previousLines, firstChanged) != LineAt(newLines, firstChanged)
                  || (SameLines(previousLines, newLines) && firstChanged == |previousLines| < |newLines|))
              && (|newLines| > |previousLines| ==> lastChanged == |newLines| - 1)
  {
    firstChanged, lastChanged := -1, -1;
    var maxLines := Max(|newLines|, |previousLines|);
    for i := 0 to maxLines
      invariant -1 <= firstChanged <= lastChanged < i
      invariant firstChanged == -1 <==> lastChanged == -1
      invariant firstChanged != -1 ==> LineAt(previousLines, firstChanged) != LineAt(newLines, firstChanged)
      invariant forall k :: 0 <= k < i && (firstChanged == -1 || k < firstChanged || k > lastChanged) ==>
                  LineAt(previousLines, k) == LineAt(newLines, k)
    {
      if LineAt(previousLines, i) != LineAt(newLines, i) {
        if firstChanged == -1 {
          firstChanged := i;
        }
        lastChanged := i;
      }
    }
    if |newLines| > |previousLines| {
      if firstChanged == -1 {
        firstChanged := |previousLines|;
      }
      lastChanged := |newLines| - 1;
    }
  }

  /**
    Moves to the row of line `firstChanged`, in its first column: from the line above by a line
    feed when appending, by scrolling when it is below the screen, else by a relative move.
  */
  method ApproachBuffer(firstChanged: nat, appendStart: bool, prevViewportTop: int, hardwareCursorRow: int, height: nat,
      ghost s: Screen)
    returns (buffer: seq<Op>, viewportTop: int)
    requires s.Valid() && s.height == height
    requires s.CursorRow() == hardwareCursorRow - prevViewportTop && prevViewportTop <= firstChanged
    requires appendStart ==> prevViewportTop < firstChanged <= prevViewportTop + height
    ensures var r := ApplyAll(s, buffer);
            && r.cur == s.Top() + firstChanged - prevViewportTop && r.AtStart()
            && |r.tape| == Max(|s.tape|, r.cur + 1)
            && s.tape <= r.tape
            && (forall k {:trigger r.tape[k]} :: |s.tape| <= k < |r.tape| ==> r.tape[k] == BLANK)
    ensures viewportTop == if appendStart then prevViewportTop else Max(prevViewportTop, firstChanged - height + 1)
  {
    hide ApplyAll;
    EmptyBuffer(s);
    buffer, viewportTop := [], prevViewportTop;
    var currentRow := hardwareCursorRow;
    var prevViewportBottom := prevViewportTop + height - 1;
    var moveTargetRow := if appendStart then firstChanged - 1 else firstChanged;
    if moveTargetRow > prevViewportBottom {
      var currentScreenRow := Max(0, Min(height - 1, currentRow - prevViewportTop));
      buffer := PutMove(buffer, height - 1 - currentScreenRow, s);
      var scroll := moveTargetRow - prevViewportBottom;
      buffer := PutScroll(buffer, scroll, s);
      viewportTop := viewportTop + scroll;
      currentRow := moveTargetRow;
    }
    buffer := PutMove(buffer, (moveTargetRow - viewportTop) - (currentRow - viewportTop), s);
    if appendStart {
      buffer := Put(buffer, NewLine, s);
    } else {
      buffer := PutReturn(buffer, s);
    }
  }

  /** Line feeds on the last row: each scrolls the screen by one blank row. */
  method PutScroll(buffer: seq<Op>, scroll: nat, ghost s: Screen) returns (out: seq<Op>)
    requires s.Valid()
    requires var b := ApplyAll(s, buffer); b.cur == |b.tape| - 1
    ensures var b := ApplyAll(s, buffer);
            var r := ApplyAll(s, out);
            r.tape == b.tape + Blanks(scroll) && r.cur == |r.tape| - 1
  {
    hide ApplyAll;
    out := buffer;
    ghost var b := ApplyAll(s, buffer);
    for i := 0 to scroll
      invariant var r := ApplyAll(s, out); r.tape == b.tape + Blanks(i) && r.cur == |r.tape| - 1
    {
      out := Put(out, NewLine, s);
      assert Blanks(i) + [BLANK] == Blanks(i + 1);
    }
  }

  /** Rewrites lines firstChanged..renderEnd in place; every line kept by the new frame is then on its row. */
  method ChangedLinesBuffer(ghost previousLines: seq<Line>, newLines: seq<Line>, appendStart: bool, firstChanged: nat,
      renderEnd: nat,
                            prevViewportTop: int, hardwareCursorRow: int, height: nat, ghost s: Screen)
    returns (buffer: seq<Op>, viewportTop: int)
    requires s.Valid() && s.height == height && s.CursorRow() == hardwareCursorRow - prevViewportTop
    requires appendStart ==> prevViewportTop < firstChanged <= prevViewportTop + height
    requires 0 <= prevViewportTop <= firstChanged <= renderEnd < |newLines|
    requires |previousLines| <= prevViewportTop + height && ShowsFrame(s, previousLines, prevViewportTop)
    requires forall i {:trigger LineAt(newLines, i)} ::
             0 <= i < |newLines| && !(firstChanged <= i <= renderEnd) ==>
               LineAt(newLines, i) == LineAt(previousLines, i)
    ensures var r := ApplyAll(s, buffer);
            && r.cur == s.Top() + renderEnd - prevViewportTop
            && |r.tape| == Max(|s.tape|, r.cur + 1) && r.tape[..s.Top()] == s.tape[..s.Top()]
            && forall k {:trigger r.tape[k]} :: s.Top() <= k < |r.tape| ==>
                 var i := prevViewportTop + k - s.Top();
                 r.tape[k] == Clean(LineAt(if i < |newLines| then newLines else previousLines, i))
    ensures viewportTop == if appendStart then prevViewportTop else Max(prevViewportTop, firstChanged - height + 1)
  {
    hide ApplyAll;
    hide Apply;
    buffer, viewportTop := ApproachBuffer(firstChanged, appendStart, prevViewportTop, hardwareCursorRow, height, s);
    ghost var b := ApplyAll(s, buffer);
    buffer := PutLines(buffer, newLines, firstChanged, renderEnd + 1, true, s);
    ghost var r := ApplyAll(s, buffer);
    assert b.cur + renderEnd + 1 - firstChanged == r.cur + 1;
    forall k {:trigger r.tape[k]} | s.Top() <= k < |r.tape|
      ensures var i := prevViewportTop + k - s.Top();
              r.tape[k] == Clean(LineAt(if i < |newLines| then newLines else previousLines, i))
    {
      if b.cur <= k <= r.cur {
        assert r.tape[k] == Clean(newLines[firstChanged + k - b.cur]);
      } else {
        assert r.tape[k] == b.tape[k];
        assert b.tape[k] == if k < |s.tape| then s.tape[k] else BLANK;
      }
    }
  }

  /** The differential update: rewrite lines firstChanged..lastChanged and blank the rows of lines that went away. */
  method DiffBuffer(ghost previousLines: seq<Line>, previousCount: nat, newLines: seq<Line>,
                    firstChanged: nat, lastChanged: nat, prevViewportTop: int, hardwareCursorRow: int, height: nat,
                    ghost s: Screen)
    returns (buffer: seq<Op>, finalCursorRow: int, viewportTop: int)
    requires s.Valid() && s.height == height && s.CursorRow() == hardwareCursorRow - prevViewportTop
    requires previousCount == |previousLines| && prevViewportTop < previousCount <= prevViewportTop + height
    requires 0 <= prevViewportTop <= firstChanged <= lastChanged && firstChanged < |newLines|
    requires lastChanged < Max(|newLines|, previousCount)
    requires ChangesWithin(previousLines, newLines, firstChanged, lastChanged)
    requires |newLines| > previousCount ==> lastChanged == |newLines| - 1
    requires ShowsFrame(s, previousLines, prevViewportTop)
    ensures viewportTop == Max(prevViewportTop, |newLines| - height) && viewportTop <= finalCursorRow < |newLines|
    ensures var r := ApplyAll(s, buffer);
            && |r.tape| == |s.tape| + viewportTop - prevViewportTop
            && ShowsFrame(r, newLines, viewportTop)
            && r.CursorRow() == finalCursorRow - viewportTop
            && r.Scrollback() == s.Scrollback() + RowsOf(newLines[prevViewportTop..viewportTop])
  {
    hide ApplyAll;
    hide Apply;
    var appendStart := |newLines| > previousCount && firstChanged == previousCount && firstChanged > 0;
    var renderEnd := Min(lastChanged, |newLines| - 1);
    buffer, viewportTop :=
      ChangedLinesBuffer(previousLines, newLines, appendStart, firstChanged, renderEnd, prevViewportTop,
        hardwareCursorRow, height, s);
    finalCursorRow := renderEnd;
    if previousCount > |newLines| {
      buffer := TailBuffer(buffer, |newLines| - 1 - renderEnd, previousCount - |newLines|, s);
      finalCursorRow := |newLines| - 1;
    }
    viewportTop := Max(viewportTop, finalCursorRow - height + 1);
    ScrolledRows(s, ApplyAll(s, buffer), newLines, prevViewportTop, viewportTop);
  }

  /** Down to the last kept line, blank the rows below it, and back. */
  method TailBuffer(buffer: seq<Op>, moveDown: nat, extraLines: nat, ghost s: Screen) returns (out: seq<Op>)
    requires s.Valid() && extraLines > 0
    requires var b := ApplyAll(s, buffer); b.cur + moveDown + extraLines < |b.tape|
    ensures var b := ApplyAll(s, buffer);
            var r := ApplyAll(s, out);
            && r.cur == b.cur + moveDown && |r.tape| == |b.tape|
            && forall k {:trigger r.tape[k]} :: 0 <= k < |b.tape| ==>
                 r.tape[k] == if r.cur < k <= r.cur + extraLines then BLANK else b.tape[k]
  {
    hide ApplyAll;
    hide Apply;
    out := PutMove(buffer, moveDown, s);
    out := PutClears(out, extraLines, s);
    out := PutMove(out, -(extraLines as int), s);
  }

  /** Rows that show a frame from line `top` on, split where the screen now starts. */
  lemma ScrolledRows(s: Screen, r: Screen, lines: seq<Line>, top: int, newTop: int)
    requires s.Valid() && r.Valid() && r.height == s.height
    requires 0 <= top <= newTop <= |lines| && |r.tape| == |s.tape| + newTop - top
    requires r.tape[..s.Top()] == s.tape[..s.Top()]
    requires forall k {:trigger r.tape[k]} ::
             s.Top() <= k < |r.tape| ==> r.tape[k] == Clean(LineAt(lines, top + k - s.Top()))
    ensures ShowsFrame(r, lines, newTop)
    ensures r.Scrollback() == s.Scrollback() + RowsOf(lines[top..newTop])
  {
    var rows := s.Scrollback() + RowsOf(lines[top..newTop]);
    forall k | 0 <= k < r.Top()
      ensures r.Scrollback()[k] == rows[k]
    {
      if k < s.Top() {
        assert r.tape[..s.Top()][k] == s.tape[..s.Top()][k];
      }
    }
  }

  /** The same rows as another screen, moved up by `shift` and blank below: the same screen when it is zero. */
  ghost predicate ShowsShifted(s: Screen, other: Screen, shift: nat)
    requires s.Valid() && other.Valid() && s.height == other.height
  {
    forall r {:trigger s.tape[s.Top() + r]} :: 0 <= r < s.height ==>
      s.tape[s.Top() + r] == if r + shift < s.height then other.tape[other.Top() + r + shift] else BLANK
  }

  lemma SameFrameShifted(s: Screen, other: Screen, lines: seq<Line>, top: int, otherTop: int)
    requires s.Valid() && other.Valid() && s.height == other.height
    requires ShowsFrame(s, lines, top) && ShowsFrame(other, lines, otherTop)
    requires |lines| - s.height <= otherTop <= top
    ensures ShowsShifted(s, other, top - otherTop)
  {
    forall r {:trigger s.tape[s.Top() + r]} | 0 <= r < s.height
      ensures s.tape[s.Top() + r] == if r + top - otherTop < s.height then other.tape[other.Top() + r + top - otherTop]
              else BLANK
    {
      assert s.tape[s.Top() + r] == Clean(LineAt(lines, top + r));
    }
  }

  /** What may happen to the renderer between two of its operations. */
  datatype Step =
    | Frame(lines: seq<Line>, cursorPos: Option<CursorPos>, overlaysActive: bool)
    | Force
    | PreserveViewport
    | ClearOnShrink(enabled: bool)
    | Enter
    | Exit
    | Resize(columns: nat, rows: nat, reflowed: Screen)

  /** Whether the fullscreen view is up after some steps, and whether a resize has come since the last inline frame. */
  datatype Since = Since(up: bool, resized: bool)

  function ResizedSince(steps: seq<Step>, up: bool): Since {
    if steps == [] then Since(up, false)
    else
      var before := ResizedSince(steps[..|steps| - 1], up);
      match steps[|steps| - 1]
      case Frame(_, _, _) => before.(resized := before.resized && before.up)
      case Enter => before.(up := true)
      case Exit => before.(up := false)
      case Resize(_, _, _) => before.(resized := true)
      case _ => before
  }

  lemma TranscriptTape(st: InlineState, s: Screen, base: seq<Row>)
    requires InSync(st, s) && st.previousViewportTop <= |st.previousLines|
    requires s.Scrollback() == base + RowsOf(st.previousLines[..st.previousViewportTop])
    ensures s.tape == base + RowsOf(st.previousLines) + Blanks(st.previousViewportTop + s.height - |st.previousLines|)
  {
    var lines, top := st.previousLines, st.previousViewportTop;
    var whole := base + RowsOf(lines) + Blanks(top + s.height - |lines|);
    forall k | 0 <= k < |s.tape|
      ensures s.tape[k] == whole[k]
    {
      if k < s.Top() {
        assert s.tape[k] == s.Scrollback()[k];
      }
    }
  }

  /** Rows scrolled out by a differential render continue the transcript. */
  lemma TranscriptStep(base: seq<Row>, previous: seq<Line>, lines: seq<Line>, top: int, newTop: int)
    requires 0 <= top <= |previous| && top <= newTop <= |lines| && !ChangedAbove(previous, lines, top)
    ensures base + RowsOf(previous[..top]) + RowsOf(lines[top..newTop]) == base + RowsOf(lines[..newTop])
  {
    forall i | 0 <= i < top
      ensures previous[i] == lines[i]
    {
      assert LineAt(previous, i) == LineAt(lines, i);
    }
    assert RowsOf(previous[..top]) + RowsOf(lines[top..newTop]) == RowsOf(lines[..newTop]);
    assert base + RowsOf(previous[..top]) + RowsOf(lines[top..newTop])
           == base + (RowsOf(previous[..top]) + RowsOf(lines[top..newTop]));
  }

  class Tui {
    const terminal: Device
    var previousLines: seq<Line>
    var previousWidth: int
    var previousHeight: int
    var cursorRow: int
    var hardwareCursorRow: int
    var maxLinesRendered: int
    var previousViewportTop: int
    var fullRedrawCount: nat
    var clearOnShrink: bool
    var preserveViewportOnNextRender: bool
    var stopped: bool
    var fullscreen: Option<InlineState>

    /** A renderer on a clean screen with the cursor at home, before its first render. */
    constructor (terminal: Device, clearOnShrink: bool)
      requires terminal.Valid()
      requires terminal.screen.CursorRow() == 0 && terminal.screen.AtStart() && ShowsFrame(terminal.screen, [], 0)
      ensures Valid() && this.terminal == terminal && fullscreen.None? && !stopped
      ensures previousLines == [] && previousViewportTop == 0 && fullRedrawCount == 0
              && this.clearOnShrink == clearOnShrink
    {
      this.terminal, this.clearOnShrink := terminal, clearOnShrink;
      previousLines, previousWidth, previousHeight := [], 0, 0;
      cursorRow, hardwareCursorRow, maxLinesRendered, previousViewportTop := 0, 0, 0, 0;
      fullRedrawCount, preserveViewportOnNextRender, stopped, fullscreen := 0, false, false, None;
    }

    function Live(): InlineState
      reads this
    {
      InlineState(previousLines, previousWidth, previousHeight, cursorRow, hardwareCursorRow, maxLinesRendered,
        previousViewportTop)
    }

    /** The state the next inline render works from: the entry snapshot while the fullscreen view is up. */
    function Inline(): InlineState
      reads this
    {
      if fullscreen.Some? then fullscreen.value else Live()
    }

    /** What holds whatever a resize has made of the screen. */
    ghost predicate Sound()
      reads this, terminal
    {
      && terminal.Valid() && Counted(Inline())
      && (Inline().previousLines != [] ==> Inline().previousWidth != 0 && Inline().previousHeight != 0)
    }

    /** The primary screen is what the differ believes it is, or the next inline render will clear it. */
    ghost predicate Valid()
      reads this, terminal
    {
      && Sound()
      && (InSync(Inline(), terminal.screen) || SizeChanged(Inline(), terminal.columns, terminal.rows))
    }

    /** Everything about the state after a render except what the rows show. */
    ghost predicate Settled(newLines: seq<Line>, cursorPos: Option<CursorPos>)
      reads this, terminal
    {
      && terminal.Valid() && SameLines(previousLines, newLines)
      && previousWidth == terminal.columns && previousHeight == terminal.rows
      && 0 <= previousViewportTop <= Max(0, |previousLines| - 1)
      && |newLines| <= |previousLines| <= previousViewportTop + terminal.rows
      && 0 <= hardwareCursorRow <= Max(0, |previousLines| - 1)
      && (if cursorPos.Some? then hardwareCursorRow == cursorPos.value.row
         else previousViewportTop <= hardwareCursorRow)
      // the real cursor is where it is tracked, but held at the first row for a marker above the tracked viewport
      && terminal.screen.CursorRow() == Max(0, hardwareCursorRow - previousViewportTop)
      && (cursorPos.Some? ==> terminal.screen.column == Some(cursorPos.value.col))
      && (previousLines == [] ==> terminal.screen.AtStart())
    }

    /** The real cursor is on the row where it is tracked. */
    ghost predicate CursorPlaced()
      requires terminal.Valid()
      reads this, terminal
    {
      terminal.screen.CursorRow() == hardwareCursorRow - previousViewportTop
    }

    method PositionHardwareCursor(cursorPos: Option<CursorPos>, totalLines: int)
      requires terminal.Valid()
      modifies `hardwareCursorRow, terminal`screen
      ensures terminal.Valid()
      ensures cursorPos.None? || totalLines <= 0 ==>
              hardwareCursorRow == old(hardwareCursorRow) && terminal.screen == old(terminal.screen)
      ensures cursorPos.Some? && totalLines > 0 ==>
                && hardwareCursorRow == Min(cursorPos.value.row, totalLines - 1)
                && terminal.screen.tape == old(terminal.screen.tape)
                && terminal.screen.cur == Moved(old(terminal.screen), hardwareCursorRow - old(hardwareCursorRow)).cur
                && terminal.screen.column == Some(cursorPos.value.col)
    {
      if cursorPos.None? || totalLines <= 0 {
        return;
      }
      var targetRow := Max(0, Min(cursorPos.value.row, totalLines - 1));
      var targetCol := cursorPos.value.col;
      var rowDelta := targetRow - hardwareCursorRow;
      ghost var s := terminal.screen;
      EmptyBuffer(s);
      var buffer := PutMove([], rowDelta, s);
      buffer := Put(buffer, Column(targetCol + 1), s);
      terminal.Write(buffer);
      hardwareCursorRow := targetRow;
    }

    /** The common end of a render: place the cursor for the input method and remember the frame. */
    method FinishRender(newLines: seq<Line>, cursorPos: Option<CursorPos>)
      requires terminal.Valid() && CursorInWindow(cursorPos, newLines, terminal.rows)
      requires 0 <= previousViewportTop <= hardwareCursorRow <= Max(0, |newLines| - 1)
      requires |newLines| <= previousViewportTop + terminal.rows
      requires terminal.screen.CursorRow() == hardwareCursorRow - previousViewportTop
      requires newLines == [] ==> terminal.screen.AtStart()
      modifies this, terminal`screen
      ensures Settled(newLines, cursorPos)
      ensures terminal.screen.Scrollback() == old(terminal.screen.Scrollback())
      ensures ShowsFrame(terminal.screen, newLines, previousViewportTop)
              <==> old(ShowsFrame(terminal.screen, newLines, previousViewportTop))
      ensures newLines == [] ==> terminal.screen == old(terminal.screen)
      ensures previousLines == newLines && previousViewportTop == old(previousViewportTop) && KeptFlags()
      ensures maxLinesRendered == old(maxLinesRendered) && cursorRow == old(cursorRow)
    {
      PositionHardwareCursor(cursorPos, |newLines|);
      previousLines := newLines;
      previousWidth := terminal.columns;
      previousHeight := terminal.rows;
    }

    /** The fields a repaint does not touch. */
    twostate predicate KeptFlags()
      reads this
    {
      && fullRedrawCount == old(fullRedrawCount) && clearOnShrink == old(clearOnShrink) && stopped == old(stopped)
      && fullscreen == old(fullscreen) && preserveViewportOnNextRender == old(preserveViewportOnNextRender)
    }

    /** Rewrites the visible viewport in place: the anchored repaint, which leaves scrollback alone. */
    method RepaintViewport(newLines: seq<Line>, cursorPos: Option<CursorPos>, prevViewportTop: int)
      requires InSync(Live(), terminal.screen) && terminal.Valid()
      requires previousLines != [] && prevViewportTop == previousViewportTop
      requires CursorInWindow(cursorPos, newLines, terminal.rows)
      modifies this, terminal`screen
      ensures Settled(newLines, cursorPos) && ShowsFrame(terminal.screen, newLines, previousViewportTop)
      ensures previousLines == newLines && previousViewportTop == Max(0, |newLines| - terminal.rows)
      ensures terminal.screen.Scrollback() == old(terminal.screen.Scrollback())
      ensures KeptFlags()
      ensures maxLinesRendered == |newLines| && cursorRow == Max(0, |newLines| - 1)
      ensures Counted(Live()) && previousWidth == terminal.columns && previousHeight == terminal.rows
    {
      hide ApplyAll;
      var height := terminal.rows;
      var windowStart := Max(0, |newLines| - height);
      var prevScreenRows := Min(height, |previousLines|);
      var screenRow := Max(0, Min(prevScreenRows - 1, hardwareCursorRow - prevViewportTop));
      var buffer := RepaintBuffer(newLines, windowStart, prevScreenRows, screenRow, terminal.screen);
      terminal.Write(buffer);
      cursorRow := Max(0, |newLines| - 1);
      hardwareCursorRow := cursorRow;
      maxLinesRendered := |newLines|;
      previousViewportTop := windowStart;
      FinishRender(newLines, cursorPos);
    }

    /** All changes are in lines that went away: blank their rows and put the cursor on the last kept line. */
    method DeleteTail(newLines: seq<Line>, cursorPos: Option<CursorPos>, targetRow: int, extraLines: int)
      requires InSync(Live(), terminal.screen) && terminal.Valid() && Counted(Live())
      requires previousWidth == terminal.columns && previousHeight == terminal.rows
      requires CursorInWindow(cursorPos, newLines, terminal.rows)
      requires extraLines == |previousLines| - |newLines| && 0 < extraLines
      requires previousViewportTop <= targetRow == Max(0, |newLines| - 1)
      requires forall i {:trigger LineAt(newLines, i)} ::
               0 <= i < |newLines| ==> LineAt(previousLines, i) == LineAt(newLines, i)
      modifies this, terminal`screen
      ensures terminal.Valid() && Settled(newLines, cursorPos)
      ensures CursorPlaced() <==> cursorPos.None? || previousViewportTop <= cursorPos.value.row
      ensures ShowsFrame(terminal.screen, newLines, previousViewportTop)
              <==> !(newLines == [] && LineAt(old(previousLines), 0) != "" && terminal.rows > 1)
      ensures newLines == [] && terminal.rows > 1 ==>
              ShowsFrame(terminal.screen, [LineAt(old(previousLines), 0)], previousViewportTop)
      ensures terminal.screen.Scrollback() == old(terminal.screen.Scrollback())
      ensures previousLines == newLines && previousViewportTop == old(previousViewportTop) && KeptFlags()
      ensures maxLinesRendered == Max(old(maxLinesRendered), |newLines|) && cursorRow == Max(0, |newLines| - 1)
      ensures Counted(Live()) && previousWidth == terminal.columns && previousHeight == terminal.rows
    {
      hide ApplyAll;
      hide ShowsFrame;
      var buffer :=
          DeletedLinesBuffer(previousLines, newLines, extraLines, targetRow, previousViewportTop, hardwareCursorRow,
            terminal.screen);
      terminal.Write(buffer);
      cursorRow := targetRow;
      hardwareCursorRow := targetRow;
      FinishRender(newLines, cursorPos);
    }

    /** The differential update of the changed lines, none of them above the viewport. */
    method RenderChanges(newLines: seq<Line>, cursorPos: Option<CursorPos>, firstChanged: nat, lastChanged: nat)
      requires InSync(Live(), terminal.screen) && terminal.Valid() && Counted(Live()) && previousLines != []
      requires previousWidth == terminal.columns && previousHeight == terminal.rows
      requires CursorInWindow(cursorPos, newLines, terminal.rows)
      requires previousViewportTop <= firstChanged <= lastChanged && firstChanged < |newLines|
      requires lastChanged < Max(|newLines|, |previousLines|)
      requires ChangesWithin(previousLines, newLines, firstChanged, lastChanged)
      requires |newLines| > |previousLines| ==> lastChanged == |newLines| - 1
      modifies this, terminal`screen
      ensures terminal.Valid() && Settled(newLines, cursorPos)
              && ShowsFrame(terminal.screen, newLines, previousViewportTop)
      ensures CursorPlaced() <==> cursorPos.None? || previousViewportTop <= cursorPos.value.row
      ensures previousViewportTop == Max(old(previousViewportTop), |newLines| - terminal.rows)
      ensures terminal.screen.Scrollback() == old(terminal.screen.Scrollback())
              + RowsOf(newLines[old(previousViewportTop)..previousViewportTop])
      ensures previousLines == newLines && KeptFlags()
      ensures maxLinesRendered == Max(old(maxLinesRendered), |newLines|) && cursorRow == Max(0, |newLines| - 1)
      ensures Counted(Live()) && previousWidth == terminal.columns && previousHeight == terminal.rows
    {
      hide ApplyAll;
      hide ShowsFrame;
      var buffer, finalCursorRow, viewportTop :=
        DiffBuffer(previousLines, |previousLines|, newLines, firstChanged, lastChanged,
          previousViewportTop, hardwareCursorRow, terminal.rows, terminal.screen);
      terminal.Write(buffer);
      cursorRow := Max(0, |newLines| - 1);
      hardwareCursorRow := finalCursorRow;
      maxLinesRendered := Max(maxLinesRendered, |newLines|);
      previousViewportTop := viewportTop;
      FinishRender(newLines, cursorPos);
    }

    /** Clear and print, or the anchored repaint when asked for and there is a frame to paint over. */
    method FullRender(clear: bool, preserveViewport: bool, newLines: seq<Line>, cursorPos: Option<CursorPos>,
        prevViewportTop: int)
      requires terminal.Valid() && CursorInWindow(cursorPos, newLines, terminal.rows)
      requires !clear ==> previousLines == []
      requires !clear || (preserveViewport && previousLines != []) ==>
                 InSync(Live(), terminal.screen) && prevViewportTop == previousViewportTop
      modifies this, terminal`screen
      ensures terminal.Valid() && Settled(newLines, cursorPos)
              && ShowsFrame(terminal.screen, newLines, previousViewportTop) && CursorPlaced()
      ensures previousLines == newLines && previousViewportTop == Max(0, |newLines| - terminal.rows)
      ensures old(previousLines) != [] ==> terminal.screen.Scrollback() == old(terminal.screen.Scrollback())
      ensures old(previousLines) == [] ==>
                terminal.screen.Scrollback()
                  == old(terminal.screen.Scrollback()) + RowsOf(newLines[..previousViewportTop])
      ensures fullRedrawCount == old(fullRedrawCount) + 1
      ensures fullscreen == old(fullscreen) && stopped == old(stopped)
      ensures maxLinesRendered == (if clear then |newLines| else Max(old(maxLinesRendered), |newLines|))
              && cursorRow == Max(0, |newLines| - 1)
      ensures clearOnShrink == old(clearOnShrink) && preserveViewportOnNextRender == old(preserveViewportOnNextRender)
      ensures Counted(Live()) && previousWidth == terminal.columns && previousHeight == terminal.rows
    {
      hide ApplyAll;
      fullRedrawCount := fullRedrawCount + 1;
      if preserveViewport && |previousLines| > 0 {
        RepaintViewport(newLines, cursorPos, prevViewportTop);
      } else {
        ClearAndPrint(clear, newLines, cursorPos);
      }
    }

    /** Clear the screen, when asked, and print the frame or its last screenful. */
    method ClearAndPrint(clear: bool, newLines: seq<Line>, cursorPos: Option<CursorPos>)
      requires terminal.Valid() && CursorInWindow(cursorPos, newLines, terminal.rows)
      requires !clear ==>
               previousLines == [] && terminal.screen.CursorRow() == 0 && terminal.screen.AtStart()
                 && ShowsFrame(terminal.screen, [], 0)
      modifies this, terminal`screen
      ensures Settled(newLines, cursorPos) && ShowsFrame(terminal.screen, newLines, previousViewportTop)
      ensures previousLines == newLines && previousViewportTop == Max(0, |newLines| - terminal.rows)
      ensures old(previousLines) != [] ==> terminal.screen.Scrollback() == old(terminal.screen.Scrollback())
      ensures old(previousLines) == [] ==>
                terminal.screen.Scrollback()
                  == old(terminal.screen.Scrollback()) + RowsOf(newLines[..previousViewportTop])
      ensures KeptFlags()
      ensures maxLinesRendered == (if clear then |newLines| else Max(old(maxLinesRendered), |newLines|))
              && cursorRow == Max(0, |newLines| - 1)
      ensures Counted(Live()) && previousWidth == terminal.columns && previousHeight == terminal.rows
    {
      hide ApplyAll;
      hide ShowsFrame;
      var height := terminal.rows;
      var renderStart := if clear && |previousLines| > 0 then Max(0, |newLines| - height) else 0;
      var buffer := PrintBuffer(newLines, renderStart, clear, terminal.screen);
      terminal.Write(buffer);
      cursorRow := Max(0, |newLines| - 1);
      hardwareCursorRow := cursorRow;
      maxLinesRendered := if clear then |newLines| else Max(maxLinesRendered, |newLines|);
      var bufferLength := Max(height, |newLines|);
      previousViewportTop := Max(0, bufferLength - height);
      FinishRender(newLines, cursorPos);
    }

    /** Nothing has changed: only the cursor moves. */
    method KeepFrame(newLines: seq<Line>, cursorPos: Option<CursorPos>)
      requires terminal.Valid() && Counted(Live()) && previousLines != [] && SameLines(previousLines, newLines)
      requires |newLines| <= |previousLines| && previousWidth == terminal.columns && previousHeight == terminal.rows
      requires CursorInWindow(cursorPos, newLines, terminal.rows)
      modifies `hardwareCursorRow, terminal`screen
      ensures terminal.Valid() && terminal.screen.tape == old(terminal.screen.tape)
              && LineAt(newLines, 0) == LineAt(previousLines, 0)
      ensures old(InSync(Live(), terminal.screen)) ==>
              Settled(newLines, cursorPos) && ShowsFrame(terminal.screen, newLines, previousViewportTop)
      ensures old(InSync(Live(), terminal.screen)) ==>
              (CursorPlaced() <==> cursorPos.None? || previousViewportTop <= cursorPos.value.row)
      ensures Counted(Live()) && previousWidth == terminal.columns && previousHeight == terminal.rows
      ensures maxLinesRendered == Max(old(maxLinesRendered), |newLines|)
    {
      PositionHardwareCursor(cursorPos, |newLines|);
    }

    /** The render of a frame when the terminal's size and the last frame are known. */
    method RenderDifference(newLines: seq<Line>, cursorPos: Option<CursorPos>, preserveViewport: bool)
      requires terminal.Valid() && previousLines != [] && Counted(Live())
      requires InSync(Live(), terminal.screen) || (SameLines(previousLines, newLines) && |newLines| <= |previousLines|)
      requires previousWidth == terminal.columns && previousHeight == terminal.rows
      requires CursorInWindow(cursorPos, newLines, terminal.rows)
      modifies this, terminal`screen
      ensures terminal.Valid() && fullscreen == old(fullscreen) && stopped == old(stopped)
      ensures clearOnShrink == old(clearOnShrink) && preserveViewportOnNextRender == old(preserveViewportOnNextRender)
      ensures Counted(Live()) && previousWidth == terminal.columns && previousHeight == terminal.rows
      ensures maxLinesRendered == if old(OutOfReach(previousLines, newLines, previousViewportTop)) then |newLines|
                                  else Max(old(maxLinesRendered), |newLines|)
      ensures SameLines(old(previousLines), newLines) && |newLines| <= old(|previousLines|) ==>
              terminal.screen.tape == old(terminal.screen.tape)
      ensures old(InSync(Live(), terminal.screen)) ==> Settled(newLines, cursorPos)
      ensures old(InSync(Live(), terminal.screen)) ==>
                (CursorPlaced() <==> cursorPos.None? || old(previousViewportTop) <= cursorPos.value.row
                                     || old(OutOfReach(previousLines, newLines, previousViewportTop)))
      ensures old(InSync(Live(), terminal.screen)) ==>
                (ShowsFrame(terminal.screen, newLines, previousViewportTop)
                 <==> !(newLines == [] && LineAt(old(previousLines), 0) != ""
                        && terminal.rows > 1 && old(previousViewportTop) == 0))
      ensures old(InSync(Live(), terminal.screen)) && newLines == [] && LineAt(old(previousLines), 0) != ""
              && terminal.rows > 1 && old(previousViewportTop) == 0 ==>
                ShowsFrame(terminal.screen, [LineAt(old(previousLines), 0)], 0)
      ensures fullRedrawCount == old(fullRedrawCount)
              + if old(OutOfReach(previousLines, newLines, previousViewportTop)) then 1 else 0
      ensures fullRedrawCount > old(fullRedrawCount) ==>
                && previousLines == newLines && previousViewportTop == Max(0, |newLines| - terminal.rows)
                && terminal.screen.Scrollback() == old(terminal.screen.Scrollback())
      ensures old(InSync(Live(), terminal.screen)) && fullRedrawCount == old(fullRedrawCount) ==>
                && previousViewportTop == Max(old(previousViewportTop), |newLines| - terminal.rows)
                && terminal.screen.Scrollback() == old(terminal.screen.Scrollback())
                   + RowsOf(previousLines[old(previousViewportTop)..previousViewportTop])
    {
      hide ShowsFrame;
      hide CursorPlaced;
      hide Settled;
      hide Counted;
      var firstChanged, lastChanged := FindChanges(previousLines, newLines);
      if firstChanged == -1 {
        KeepFrame(newLines, cursorPos);
        return;
      }
      if firstChanged >= |newLines| {
        var targetRow := Max(0, |newLines| - 1);
        if targetRow < previousViewportTop {
          FullRender(true, preserveViewport, newLines, cursorPos, previousViewportTop);
          return;
        }
        var extraLines := |previousLines| - |newLines|;
        if extraLines > terminal.rows {
          assert false; // every old line below the kept ones is on the screen
        }
        DeleteTail(newLines, cursorPos, targetRow, extraLines);
        return;
      }
      if firstChanged < previousViewportTop {
        var preserveScrollback := |newLines| > terminal.rows && |newLines| >= |previousLines|;
        FullRender(true, preserveScrollback || preserveViewport, newLines, cursorPos, previousViewportTop);
        return;
      }
      RenderChanges(newLines, cursorPos, firstChanged, lastChanged);
    }

    /** A frame that the differ takes for the one it has shown last. */
    ghost predicate Unchanged(newLines: seq<Line>, overlaysActive: bool)
      reads this, terminal
    {
      && previousLines != [] && SameLines(previousLines, newLines) && |newLines| <= |previousLines|
      && !SizeChanged(Live(), terminal.columns, terminal.rows)
      && !(clearOnShrink && !overlaysActive && |newLines| < maxLinesRendered)
    }

    /**
      One inline render of a frame whose lines fit the width. An unchanged frame leaves the rows as they
      are, right or wrong.
    */
    method RenderInline(newLines: seq<Line>, cursorPos: Option<CursorPos>, overlaysActive: bool)
      requires Sound() && fullscreen.None? && CursorInWindow(cursorPos, newLines, terminal.rows)
      requires Valid() || Unchanged(newLines, overlaysActive)
      modifies this, terminal`screen
      ensures Sound() && fullscreen.None? && stopped == old(stopped)
      ensures clearOnShrink == old(clearOnShrink) && !preserveViewportOnNextRender
      ensures maxLinesRendered
              == if old(Recounts(Live(), terminal.columns, terminal.rows, newLines, clearOnShrink && !overlaysActive))
                 then |newLines| else Max(old(maxLinesRendered), |newLines|)
      ensures old(Valid()) && clearOnShrink && !overlaysActive ==>
                previousViewportTop == Max(0, |newLines| - terminal.rows)
      ensures old(Unchanged(newLines, overlaysActive)) ==> terminal.screen.tape == old(terminal.screen.tape)
      ensures old(Valid()) ==> Settled(newLines, cursorPos)
      ensures old(Valid()) ==>
                (ShowsFrame(terminal.screen, newLines, previousViewportTop)
                 <==> !old(LeavesStaleTop(Live(), terminal.columns, terminal.rows, newLines,
                   clearOnShrink && !overlaysActive)))
      ensures old(Valid())
              && old(LeavesStaleTop(Live(), terminal.columns, terminal.rows, newLines,
                 clearOnShrink && !overlaysActive)) ==>
                ShowsFrame(terminal.screen, [LineAt(old(previousLines), 0)], 0)
      ensures old(Valid()) ==>
                (CursorPlaced()
                 <==> old(PlacesCursor(Live(), terminal.columns, terminal.rows, newLines,
                   clearOnShrink && !overlaysActive, cursorPos)))
      ensures fullRedrawCount == old(fullRedrawCount)
              + if old(NeedsRedraw(Live(), terminal.columns, terminal.rows, newLines, clearOnShrink && !overlaysActive))
                then 1 else 0
      ensures fullRedrawCount > old(fullRedrawCount) ==>
                && previousLines == newLines && previousViewportTop == Max(0, |newLines| - terminal.rows)
                && (old(previousLines) != [] ==> terminal.screen.Scrollback() == old(terminal.screen.Scrollback()))
                && (old(previousLines) == [] ==>
                      terminal.screen.Scrollback()
                        == old(terminal.screen.Scrollback()) + RowsOf(newLines[..previousViewportTop]))
      ensures old(Valid()) && fullRedrawCount == old(fullRedrawCount) ==>
                && previousViewportTop == Max(old(previousViewportTop), |newLines| - terminal.rows)
                && !ChangedAbove(old(previousLines), newLines, old(previousViewportTop))
                && terminal.screen.Scrollback() == old(terminal.screen.Scrollback())
                   + RowsOf(previousLines[old(previousViewportTop)..previousViewportTop])
    {
      hide ApplyAll;
      hide ShowsFrame;
      hide InSync;
      hide SameLines;
      hide ChangedAbove;
      hide Settled;
      hide CursorPlaced;
      ShrinkTop(Live(), terminal.rows, |newLines|);
      hide Counted;
      var preserveViewport := preserveViewportOnNextRender;
      preserveViewportOnNextRender := false;
      var width, height := terminal.columns, terminal.rows;
      var widthChanged := previousWidth != 0 && previousWidth != width;
      var heightChanged := previousHeight != 0 && previousHeight != height;
      var previousBufferLength := if previousHeight > 0 then previousViewportTop + previousHeight else height;
      var prevViewportTop := if heightChanged then Max(0, previousBufferLength - height) else previousViewportTop;

      if |previousLines| == 0 && !widthChanged && !heightChanged {
        FullRender(false, false, newLines, cursorPos, prevViewportTop);
        return;
      }
      if widthChanged || heightChanged {
        FullRender(true, false, newLines, cursorPos, prevViewportTop);
        return;
      }
      RenderSameSize(newLines, cursorPos, overlaysActive, preserveViewport);
    }

    /** The render over a frame of the terminal's size: a full one if the screen shrinks and is to be cleared then. */
    method RenderSameSize(newLines: seq<Line>, cursorPos: Option<CursorPos>, overlaysActive: bool,
        preserveViewport: bool)
      requires terminal.Valid() && previousLines != [] && Counted(Live())
      requires previousWidth == terminal.columns && previousHeight == terminal.rows
      requires InSync(Live(), terminal.screen) || Unchanged(newLines, overlaysActive)
      requires CursorInWindow(cursorPos, newLines, terminal.rows)
      modifies this, terminal`screen
      ensures terminal.Valid() && fullscreen == old(fullscreen) && stopped == old(stopped)
      ensures clearOnShrink == old(clearOnShrink) && preserveViewportOnNextRender == old(preserveViewportOnNextRender)
      ensures Counted(Live()) && previousWidth == terminal.columns && previousHeight == terminal.rows
      ensures old(Unchanged(newLines, overlaysActive)) ==> terminal.screen.tape == old(terminal.screen.tape)
      ensures var redraws := old((clearOnShrink && |newLines| < maxLinesRendered && !overlaysActive)
                                 || OutOfReach(previousLines, newLines, previousViewportTop));
              && fullRedrawCount == old(fullRedrawCount) + (if redraws then 1 else 0)
              && maxLinesRendered == (if redraws then |newLines| else Max(old(maxLinesRendered), |newLines|))
              && (old(InSync(Live(), terminal.screen)) ==>
                    && Settled(newLines, cursorPos)
                    && (CursorPlaced()
                        <==> cursorPos.None? || old(previousViewportTop) <= cursorPos.value.row || redraws))
              && (redraws ==>
                    && previousLines == newLines && previousViewportTop == Max(0, |newLines| - terminal.rows)
                    && terminal.screen.Scrollback() == old(terminal.screen.Scrollback()))
      ensures old(InSync(Live(), terminal.screen)) ==>
                (ShowsFrame(terminal.screen, newLines, previousViewportTop)
                 <==> !(newLines == [] && LineAt(old(previousLines), 0) != ""
                        && terminal.rows > 1 && old(previousViewportTop) == 0
                        && !(old(clearOnShrink) && 0 < old(maxLinesRendered) && !overlaysActive)))
      ensures old(InSync(Live(), terminal.screen)) && newLines == [] && LineAt(old(previousLines), 0) != ""
              && terminal.rows > 1 && old(previousViewportTop) == 0
              && !(old(clearOnShrink) && 0 < old(maxLinesRendered) && !overlaysActive) ==>
                ShowsFrame(terminal.screen, [LineAt(old(previousLines), 0)], 0)
      ensures old(InSync(Live(), terminal.screen)) && fullRedrawCount == old(fullRedrawCount) ==>
                && previousViewportTop == Max(old(previousViewportTop), |newLines| - terminal.rows)
                && terminal.screen.Scrollback() == old(terminal.screen.Scrollback())
                   + RowsOf(previousLines[old(previousViewportTop)..previousViewportTop])
    {
      hide ShowsFrame;
      hide Counted;
      hide InSync;
      hide SameLines;
      hide ChangedAbove;
      hide Settled;
      hide CursorPlaced;
      if clearOnShrink && |newLines| < maxLinesRendered && !overlaysActive {
        FullRender(true, preserveViewport, newLines, cursorPos, previousViewportTop);
        return;
      }
      RenderDifference(newLines, cursorPos, preserveViewport);
    }

    /** `doRender`: nothing once stopped, the fullscreen view while it is up, else an inline render. */
    method DoRender(newLines: seq<Line>, cursorPos: Option<CursorPos>, overlaysActive: bool)
      requires Sound() && CursorInWindow(cursorPos, newLines, terminal.rows) && (stopped || fullscreen.Some? || Valid())
      modifies this, terminal`screen
      ensures Sound() && fullscreen == old(fullscreen) && stopped == old(stopped)
      ensures clearOnShrink == old(clearOnShrink) && (!stopped ==> !preserveViewportOnNextRender)
      ensures old(stopped) || old(fullscreen).Some? ==>
              (old(Valid()) ==> Valid()) && Inline() == old(Inline()) && terminal.screen == old(terminal.screen)
      ensures !old(stopped) && old(fullscreen).None? ==>
                && Settled(newLines, cursorPos)
                && (ShowsFrame(terminal.screen, newLines, previousViewportTop)
                    <==> !old(LeavesStaleTop(Live(), terminal.columns, terminal.rows, newLines,
                      clearOnShrink && !overlaysActive)))
                && (CursorPlaced()
                    <==> old(PlacesCursor(Live(), terminal.columns, terminal.rows, newLines,
                      clearOnShrink && !overlaysActive, cursorPos)))
                && (ShowsFrame(terminal.screen, newLines, previousViewportTop) && CursorPlaced() ==> Valid())
                && (clearOnShrink && !overlaysActive ==> previousViewportTop == Max(0, |newLines| - terminal.rows))
    {
      if stopped {
        return;
      }
      if fullscreen.Some? {
        preserveViewportOnNextRender := false;
        return;
      }
      RenderInline(newLines, cursorPos, overlaysActive);
      SettledInSync(newLines, cursorPos);
    }

    lemma SettledInSync(newLines: seq<Line>, cursorPos: Option<CursorPos>)
      requires Settled(newLines, cursorPos)
      ensures ShowsFrame(terminal.screen, newLines, previousViewportTop) && CursorPlaced() ==>
              InSync(Live(), terminal.screen)
    {
      if ShowsFrame(terminal.screen, newLines, previousViewportTop) {
        assert ShowsFrame(terminal.screen, previousLines, previousViewportTop);
      }
    }

    method RequestRender(force: bool)
      requires Sound()
      modifies this
      ensures Sound() && (old(Valid()) ==> Valid()) && fullscreen == old(fullscreen) && stopped == old(stopped)
      ensures previousLines == old(previousLines) && previousViewportTop == old(previousViewportTop)
      ensures force && fullscreen.None? ==> SizeChanged(Live(), terminal.columns, terminal.rows)
    {
      if force {
        previousWidth := -1;
        cursorRow, hardwareCursorRow, maxLinesRendered := 0, 0, 0;
      }
    }

    method RequestRenderPreservingViewport()
      requires Sound()
      modifies `preserveViewportOnNextRender
      ensures Sound() && (old(Valid()) ==> Valid()) && preserveViewportOnNextRender
    {
      preserveViewportOnNextRender := true;
    }

    method SetClearOnShrink(enabled: bool)
      requires Sound()
      modifies `clearOnShrink
      ensures Sound() && (old(Valid()) ==> Valid()) && clearOnShrink == enabled
    {
      clearOnShrink := enabled;
    }

    /** The inline state is set aside, and nothing is written to the primary screen until the view is left. */
    method EnterFullscreen()
      requires Sound()
      modifies `fullscreen
      ensures Sound() && (old(Valid()) ==> Valid()) && fullscreen.Some? && Inline() == old(Inline())
    {
      if fullscreen.None? {
        fullscreen := Some(Live());
      }
    }

    /** The inline state is what it was on entry, whatever has become of the live fields meanwhile. */
    method ExitFullscreen(flush: bool, newLines: seq<Line>, cursorPos: Option<CursorPos>, overlaysActive: bool)
      requires Sound() && CursorInWindow(cursorPos, newLines, terminal.rows)
               && (fullscreen.None? || !flush || stopped || Valid())
      modifies this, terminal`screen
      ensures Sound() && fullscreen.None? && stopped == old(stopped)
      ensures old(fullscreen).None? || !flush || stopped ==>
              (old(Valid()) ==> Valid()) && Live() == old(Inline()) && terminal.screen == old(terminal.screen)
      ensures old(fullscreen).Some? && flush && !stopped ==>
                && Settled(newLines, cursorPos)
                && (ShowsFrame(terminal.screen, newLines, previousViewportTop)
                    <==> !old(LeavesStaleTop(Inline(), terminal.columns, terminal.rows, newLines,
                      clearOnShrink && !overlaysActive)))
                && (CursorPlaced()
                    <==> old(PlacesCursor(Inline(), terminal.columns, terminal.rows, newLines,
                      clearOnShrink && !overlaysActive, cursorPos)))
                && (ShowsFrame(terminal.screen, newLines, previousViewportTop) && CursorPlaced() ==> Valid())
    {
      if fullscreen.None? {
        return;
      }
      var inlineState := fullscreen.value;
      fullscreen := None;
      previousLines := inlineState.previousLines;
      previousWidth := inlineState.previousWidth;
      previousHeight := inlineState.previousHeight;
      cursorRow := inlineState.cursorRow;
      hardwareCursorRow := inlineState.hardwareCursorRow;
      maxLinesRendered := inlineState.maxLinesRendered;
      previousViewportTop := inlineState.previousViewportTop;
      if flush && !stopped {
        DoRender(newLines, cursorPos, overlaysActive);
      }
    }

    /**
      The differ cannot follow this step from here: a frame would leave a stale row, its marker is not
      where it is searched for or would be out of reach, or the screen has been resized since the last
      inline frame but has the recorded size again, or there was no size recorded yet.
    */
    predicate Unfollowed(step: Step, resized: bool)
      reads this, terminal
    {
      match step
      case Frame(lines, cursorPos, overlays) =>
        var shrinkClears := clearOnShrink && !overlays;
        || !CursorInWindow(cursorPos, lines, terminal.rows)
        || (fullscreen.None? && LeavesStaleTop(Live(), terminal.columns, terminal.rows, lines, shrinkClears))
        || (fullscreen.None? && !PlacesCursor(Live(), terminal.columns, terminal.rows, lines, shrinkClears, cursorPos))
        || (fullscreen.None? && resized && !SizeChanged(Live(), terminal.columns, terminal.rows))
      case _ => false
    }

    /**
      The frame is shown, with the cursor on its row and column of the screen; its last screenful, as a
      full repaint would show it, if shrinking frames clear and no overlay is up.
    */
    ghost predicate Shows(step: Step)
      requires step.Frame?
      reads this, terminal
    {
      && terminal.Valid() && ShowsFrame(terminal.screen, step.lines, previousViewportTop) && CursorPlaced()
      && (step.cursorPos.Some? ==>
            && hardwareCursorRow == step.cursorPos.value.row
            && terminal.screen.column == Some(step.cursorPos.value.col))
      && (clearOnShrink && !step.overlaysActive ==> previousViewportTop == Max(0, |step.lines| - terminal.rows))
    }

    /**
      A run of the renderer, whatever resizes make of the screen. It goes on to the last step unless it
      meets a frame the differ cannot follow.
    */
    method Run(steps: seq<Step>) returns (done: nat)
      requires Valid() && !stopped
      requires forall i ::
               0 <= i < |steps| && steps[i].Resize? ==> ValidResize(steps[i].columns, steps[i].rows, steps[i].reflowed)
      modifies this, terminal
      ensures done <= |steps| && Sound() && (Valid() || ResizedSince(steps[..done], old(fullscreen).Some?).resized)
      ensures done < |steps| ==> Unfollowed(steps[done], ResizedSince(steps[..done], old(fullscreen).Some?).resized)
      ensures done > 0 && steps[done - 1].Frame? && fullscreen.None? ==>
              Shows(steps[done - 1])
    {
      hide ShowsFrame;
      hide InSync;
      hide LeavesStaleTop;
      hide PlacesCursor;
      hide Counted;
      done := 0;
      var resized := false;
      while done < |steps| && !Unfollowed(steps[done], resized)
        invariant done <= |steps| && Sound() && !stopped && (Valid() || resized)
        invariant ResizedSince(steps[..done], old(fullscreen).Some?) == Since(fullscreen.Some?, resized)
        invariant done > 0 && steps[done - 1].Frame? && fullscreen.None? ==>
                  Shows(steps[done - 1])
      {
        assert steps[..done + 1][..done] == steps[..done];
        match steps[done] {
          case Frame(lines, cursorPos, overlays) =>
            DoRender(lines, cursorPos, overlays);
            resized := resized && fullscreen.Some?;
          case Force => RequestRender(true);
          case PreserveViewport => RequestRenderPreservingViewport();
          case ClearOnShrink(enabled) => SetClearOnShrink(enabled);
          case Enter => EnterFullscreen();
          case Exit => ExitFullscreen(false, [], None, false);
          case Resize(columns, rows, reflowed) =>
            terminal.Resize(columns, rows, reflowed);
            resized := true;
        }
        done := done + 1;
      }
    }

    /**
      While no frame reaches above the tracked viewport after the first paint, scrollback and screen
      together are the whole transcript, blanks below its end.
    */
    method Transcript(frames: seq<(seq<Line>, Option<CursorPos>)>) returns (done: nat)
      requires Valid() && fullscreen.None? && previousLines == [] && fullRedrawCount == 0
      requires InSync(Live(), terminal.screen)
      modifies this, terminal`screen
      ensures done <= |frames|
      ensures done < |frames| ==>
                var (lines, cursorPos) := frames[done];
                || lines == [] || !CursorInWindow(cursorPos, lines, terminal.rows)
                || !PlacesCursor(Live(), terminal.columns, terminal.rows, lines, clearOnShrink, cursorPos)
      ensures fullRedrawCount <= 1 ==>
                && |previousLines| <= previousViewportTop + terminal.rows
                && terminal.screen.tape == old(terminal.screen.Scrollback()) + RowsOf(previousLines)
                   + Blanks(previousViewportTop + terminal.rows - |previousLines|)
      ensures done > 0 ==> SameLines(previousLines, frames[done - 1].0)
    {
      assert previousViewportTop == 0;
      hide ShowsFrame;
      hide InSync;
      hide Counted;
      ghost var base := terminal.screen.Scrollback();
      done := 0;
      while done < |frames|
        invariant done <= |frames| && Sound() && fullscreen.None? && InSync(Live(), terminal.screen)
        invariant 0 <= previousViewportTop <= |previousLines| <= previousViewportTop + terminal.rows
        invariant if done == 0 then previousLines == [] && fullRedrawCount == 0
                  else previousLines != [] && fullRedrawCount >= 1
        invariant fullRedrawCount <= 1 ==>
                  terminal.screen.Scrollback() == base + RowsOf(previousLines[..previousViewportTop])
        invariant done > 0 ==> SameLines(previousLines, frames[done - 1].0)
      {
        var lines, cursorPos := frames[done].0, frames[done].1;
        if lines == [] || !CursorInWindow(cursorPos, lines, terminal.rows)
           || !PlacesCursor(Live(), terminal.columns, terminal.rows, lines, clearOnShrink, cursorPos) {
          break;
        }
        ghost var before, top := previousLines, previousViewportTop;
        RenderInline(lines, cursorPos, false);
        SettledInSync(lines, cursorPos);
        if fullRedrawCount <= 1 && done > 0 {
          TranscriptStep(base, before, previousLines, top, previousViewportTop);
        }
        done := done + 1;
      }
      if fullRedrawCount <= 1 {
        TranscriptTape(Live(), terminal.screen, base);
      }
    }
  }

  /**
    An inline render against a clear and full repaint of the same frame on a screen of the same size: unless
    it leaves a stale top row, it shows the same rows, moved up by what the frame has shrunk below the
    tracked viewport's end and blank below, and the cursor is on the same place in the frame.
  */
  method RenderAndRepaint(tui: Tui, other: Tui, newLines: seq<Line>, cursorPos: Option<CursorPos>, overlaysActive: bool)
    requires tui != other && tui.terminal != other.terminal
    requires tui.Valid() && tui.fullscreen.None? && CursorInWindow(cursorPos, newLines, tui.terminal.rows)
    requires other.terminal.Valid() && other.terminal.rows == tui.terminal.rows
    modifies tui, tui.terminal`screen, other, other.terminal`screen
    ensures tui.terminal.Valid() && other.terminal.Valid() && 0 <= other.previousViewportTop <= tui.previousViewportTop
    ensures !old(LeavesStaleTop(tui.Live(), tui.terminal.columns, tui.terminal.rows, newLines,
                                tui.clearOnShrink && !overlaysActive)) ==>
              ShowsShifted(tui.terminal.screen, other.terminal.screen,
                           tui.previousViewportTop - other.previousViewportTop)
    ensures tui.previousViewportTop - other.previousViewportTop
            == if old(NeedsRedraw(tui.Live(), tui.terminal.columns, tui.terminal.rows, newLines,
                                  tui.clearOnShrink && !overlaysActive))
               then 0
               else Max(0, old(tui.previousViewportTop) - Max(0, |newLines| - tui.terminal.rows))
    ensures old(tui.clearOnShrink) && !overlaysActive ==> tui.previousViewportTop == other.previousViewportTop
    ensures cursorPos.Some? ==> tui.terminal.screen.column == other.terminal.screen.column
    ensures cursorPos.Some? ==>
              var row := tui.terminal.screen.CursorRow() + tui.previousViewportTop;
              row == other.terminal.screen.CursorRow() + other.previousViewportTop
              <==> old(PlacesCursor(tui.Live(), tui.terminal.columns, tui.terminal.rows, newLines,
                                    tui.clearOnShrink && !overlaysActive, cursorPos))
  {
    hide ShowsFrame;
    hide InSync;
    hide SameLines;
    hide NeedsRedraw;
    hide LeavesStaleTop;
    hide PlacesCursor;
    hide Counted;
    hide Recounts;
    other.ClearAndPrint(true, newLines, cursorPos);
    tui.RenderInline(newLines, cursorPos, overlaysActive);
    if ShowsFrame(tui.terminal.screen, newLines, tui.previousViewportTop) {
      SameFrameShifted(tui.terminal.screen, other.terminal.screen, newLines, tui.previousViewportTop,
        other.previousViewportTop);
    }
  }

  // Two frames and a resize the differ cannot follow, from a clean screen of two rows

  method NewTui() returns (tui: Tui)
    ensures fresh(tui) && fresh(tui.terminal) && tui.Valid() && tui.terminal.rows == 2 && tui.terminal.columns == 80
            && tui.fullscreen.None? && !tui.clearOnShrink
    ensures tui.previousLines == [] && tui.previousViewportTop == 0 && tui.terminal.screen.Scrollback() == []
  {
    var terminal := new Device(Screen([BLANK, BLANK], 2, 0, Some(0)), 80, 2);
    tui := new Tui(terminal, false);
  }

  /** The renderer after its first frame. */
  method AfterFrame(lines: seq<Line>) returns (tui: Tui)
    ensures fresh(tui) && fresh(tui.terminal) && tui.Valid() && tui.terminal.rows == 2 && tui.terminal.columns == 80
    ensures tui.fullscreen.None? && tui.previousLines == lines && tui.previousViewportTop == Max(0, |lines| - 2)
    ensures tui.previousWidth == 80 && tui.previousHeight == 2
    ensures tui.terminal.screen.Scrollback() == RowsOf(lines[..tui.previousViewportTop])
  {
    tui := NewTui();
    tui.RenderInline(lines, None, true);
    tui.SettledInSync(lines, None);
  }

  /**
    Three lines scroll the first one out; without the last line the tracked viewport still starts at the
    second, while the cursor search finds a marker on the first: the real cursor is on the line below it.
  */
  method UnreachableMarker() returns (tui: Tui)
    ensures tui.terminal.Valid() && ShowsFrame(tui.terminal.screen, ["a", "b"], 1)
    ensures tui.previousViewportTop == 1 && tui.hardwareCursorRow == 0 && tui.terminal.screen.CursorRow() == 0
    ensures tui.terminal.screen.Scrollback() == [Clean("a")]
  {
    tui := AfterFrame(["a", "b", "c"]);
    tui.RenderInline(["a", "b"], Some(CursorPos(0, 0)), true);
  }

  /** An empty frame after one line leaves the line on the screen. */
  method StaleTopRow() returns (tui: Tui)
    ensures tui.terminal.Valid() && SameLines(tui.previousLines, []) && ShowsFrame(tui.terminal.screen, ["a"], 0)
  {
    tui := AfterFrame(["a"]);
    tui.RenderInline([], None, true);
  }

  /** Two resizes there and back that leave the screen blank, and the same frame again: it is not shown. */
  method UnnoticedResize() returns (tui: Tui)
    ensures tui.terminal.Valid() && !ShowsFrame(tui.terminal.screen, ["a"], 0)
  {
    tui := AfterFrame(["a"]);
    var blank := Screen([BLANK, BLANK], 2, 0, Some(0));
    tui.terminal.Resize(40, 2, blank);
    tui.terminal.Resize(80, 2, blank);
    tui.RenderInline(["a"], None, true);
    assert tui.terminal.screen.tape[tui.terminal.screen.Top()] == BLANK;
    assert LineAt(["a"], 0) == "a";
  }
}
