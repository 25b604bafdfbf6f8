/**
  The fullscreen view: the transcript scrolls in a window above a dock, and both are composed
  into a frame of exactly the screen's height and painted row by row with absolute addressing.
*/
module FullscreenViewport {
  import opened Basics
  import opened Terminal

  const MIN_TRANSCRIPT_ROWS := 3

  function ClippedDockHeight(dockLength: nat, height: nat): (h: nat)
    ensures h <= dockLength && h <= height
    ensures h < dockLength ==> h == Max(0, height - MIN_TRANSCRIPT_ROWS)
  {
    Min(dockLength, Max(0, height - MIN_TRANSCRIPT_ROWS))
  }

  /** The bottom `n` lines. */
  function Bottom(lines: seq<Line>, n: nat): seq<Line> {
    if |lines| > n then lines[|lines| - n..] else lines
  }

  function RowText(frame: seq<Line>, row: nat): Line {
    if row < |frame| then frame[row] else ""
  }

  function MaxScroll(transcriptLength: nat, windowHeight: nat): nat {
    Max(0, transcriptLength - windowHeight)
  }

  /** Where the window starts: at the end while following, else where it was, held within bounds. */
  function ScrollTop(scrollTop: int, following: bool, maxScroll: nat): nat {
    if following then maxScroll else Max(0, Min(scrollTop, maxScroll))
  }

  /**
    `show` is how the transcript's line of a number appears in the window: highlighted where selected, an
    image as its placeholder.
  */
  ghost function Frame(transcript: seq<Line>, dock: seq<Line>, height: nat, scrollTop: nat,
      show: (nat, Line) -> Line): (frame: seq<Line>)
    ensures |frame| == height
  {
    var dockHeight := ClippedDockHeight(|dock|, height);
    seq(height, r requires 0 <= r < height =>
      if r < height - dockHeight then
        if scrollTop + r < |transcript| then show(scrollTop + r, transcript[scrollTop + r]) else ""
      else
        dock[|dock| - dockHeight + r - (height - dockHeight)])
  }

  /** While the view is not following, a full window keeps its lines when the transcript grows. */
  lemma AppendKeepsWindow(transcript: seq<Line>, added: seq<Line>, dock: seq<Line>, height: nat, scrollTop: int,
      show: (nat, Line) -> Line)
    requires 0 <= scrollTop <= MaxScroll(|transcript|, height - ClippedDockHeight(|dock|, height))
    requires scrollTop + height - ClippedDockHeight(|dock|, height) <= |transcript|
    ensures var later :=
            ScrollTop(scrollTop, false, MaxScroll(|transcript + added|, height - ClippedDockHeight(|dock|, height)));
            later == scrollTop
            && Frame(transcript + added, dock, height, later, show) == Frame(transcript, dock, height, scrollTop, show)
  {
    var a, b := Frame(transcript + added, dock, height, scrollTop, show),
        Frame(transcript, dock, height, scrollTop, show);
    forall r | 0 <= r < height
      ensures a[r] == b[r]
    {
      if r < height - ClippedDockHeight(|dock|, height) {
        assert (transcript + added)[scrollTop + r] == transcript[scrollTop + r];
      }
    }
  }

  /** What may happen to the view between two of its operations. */
  datatype Step =
    | Paint(frame: seq<Line>, cursorPos: Option<(nat, nat)>)
    | Reset
    | Resize(columns: nat, rows: nat, reflowed: Screen)

  /** A resize has come since the last paint. */
  predicate ResizedSince(steps: seq<Step>) {
    steps != [] && (steps[|steps| - 1].Resize? || (steps[|steps| - 1].Reset? && ResizedSince(steps[..|steps| - 1])))
  }

  class Viewport {
    var scrollTop: int
    var following: bool
    var prevFrame: seq<Line>
    var prevWidth: nat
    var prevHeight: nat
    var lastMaxScroll: nat
    var lastWindowHeight: nat
    /** A line cut to a width; lines that fit are left alone. */
    const clip: (Line, nat) -> Line
    const terminal: Device

    constructor (terminal: Device, clip: (Line, nat) -> Line)
      requires terminal.Valid()
      ensures Scrolled() && InStep() && this.terminal == terminal && this.clip == clip
      ensures following && prevFrame == []
    {
      this.terminal, this.clip := terminal, clip;
      scrollTop, following, prevFrame, prevWidth, prevHeight := 0, true, [], 0, 0;
      lastMaxScroll, lastWindowHeight := 0, 0;
    }

    ghost predicate Scrolled()
      reads this
    {
      0 <= scrollTop <= lastMaxScroll && (following ==> scrollTop == lastMaxScroll)
    }

    /** Unless the next paint clears the screen, the rows show the last frame. */
    ghost predicate InStep()
      reads this, terminal
    {
      && terminal.Valid()
      && (prevFrame != [] && prevWidth == terminal.columns && prevHeight == terminal.rows ==>
            |prevFrame| <= terminal.rows && ShowsRows(terminal.screen, prevFrame, |prevFrame|, terminal.columns))
    }

    /** The first `count` rows of a screen show the frame's lines, cut to the width. */
    ghost predicate ShowsRows(s: Screen, frame: seq<Line>, count: nat, width: nat)
      requires s.Valid() && count <= s.height
    {
      forall k {:trigger s.tape[k]} ::
        s.Top() <= k < s.Top() + count ==> s.tape[k] == Clean(clip(RowText(frame, k - s.Top()), width))
    }

    /** The window over the dock is the frame. */
    lemma WindowOverDock(window: seq<Line>, transcript: seq<Line>, dock: seq<Line>, height: nat, scrollTop: nat,
        show: (nat, Line) -> Line)
      requires |window| == height - ClippedDockHeight(|dock|, height)
      requires forall k :: 0 <= k < |window| ==>
                 window[k] == if scrollTop + k < |transcript| then show(scrollTop + k, transcript[scrollTop + k])
                   else ""
      ensures window + Bottom(dock, ClippedDockHeight(|dock|, height))
              == Frame(transcript, dock, height, scrollTop, show)
    {
    }

    method ComposeFrame(transcript: seq<Line>, dock: seq<Line>, height: nat, show: (nat, Line) -> Line)
        returns (frame: seq<Line>)
      modifies this
      ensures Scrolled() && following == old(following) && prevFrame == old(prevFrame)
      ensures prevWidth == old(prevWidth) && prevHeight == old(prevHeight)
      ensures lastWindowHeight == height - ClippedDockHeight(|dock|, height)
      ensures lastMaxScroll == MaxScroll(|transcript|, lastWindowHeight)
      ensures scrollTop == ScrollTop(old(scrollTop), following, lastMaxScroll)
      ensures |frame| == height && frame == Frame(transcript, dock, height, scrollTop, show)
      ensures var dockHeight := ClippedDockHeight(|dock|, height);
              frame[height - dockHeight..] == dock[|dock| - dockHeight..]
    {
      var dockHeight := ClippedDockHeight(|dock|, height);
      var dockLines := Bottom(dock, dockHeight);
      var windowHeight := height - |dockLines|;
      var maxScroll := Max(0, |transcript| - windowHeight);
      if following {
        scrollTop := maxScroll;
      } else {
        scrollTop := Max(0, Min(scrollTop, maxScroll));
      }
      lastMaxScroll := maxScroll;
      lastWindowHeight := windowHeight;
      var window := Window(transcript, scrollTop, windowHeight, show);
      frame := window + dockLines;
      WindowOverDock(window, transcript, dock, height, scrollTop, show);
    }

    /** The visible slice as it appears, padded with empty lines to the window's height. */
    method Window(transcript: seq<Line>, scrollTop: nat, windowHeight: nat, show: (nat, Line) -> Line)
        returns (window: seq<Line>)
      requires scrollTop <= |transcript|
      ensures |window| == windowHeight
      ensures forall k :: 0 <= k < windowHeight ==>
                window[k] == if scrollTop + k < |transcript| then show(scrollTop + k, transcript[scrollTop + k]) else ""
    {
      var end := Min(scrollTop + windowHeight, |transcript|);
      var slice := transcript[scrollTop..end];
      window := slice;
      for i := 0 to |window|
        invariant |window| == |slice|
        invariant forall k :: 0 <= k < |slice| ==> window[k] == if k < i then show(scrollTop + k, slice[k])
                  else slice[k]
      {
        window := window[i := show(scrollTop + i, window[i])];
      }
      while |window| < windowHeight
        invariant |slice| <= |window| <= windowHeight
        invariant forall k :: 0 <= k < |window| ==> window[k] == if k < |slice| then show(scrollTop + k, slice[k])
                  else ""
      {
        window := window + [""];
      }
    }

    /** The next paint writes this row of the frame. */
    predicate Repaints(lines: seq<Line>, row: nat)
      reads `prevFrame, `prevWidth, `prevHeight, terminal`columns, terminal`rows
    {
      prevWidth != terminal.columns || prevHeight != terminal.rows || row >= |prevFrame|
        || prevFrame[row] != RowText(lines, row)
    }

    /**
      Row diff against the last frame: rows that are not written show what they did, which is right when the
      screen is in step.
    */
    method Paint(frame: seq<Line>, cursorPos: Option<(nat, nat)>)
      requires terminal.Valid()
      modifies this, terminal`screen
      ensures terminal.Valid() && prevFrame == Bottom(frame, terminal.rows) && prevWidth == terminal.columns
              && prevHeight == terminal.rows
      ensures var s := terminal.screen;
              var lines := Bottom(frame, terminal.rows);
              forall k {:trigger s.tape[k]} :: s.Top() <= k < |s.tape| ==>
                var row := k - s.Top();
                s.tape[k] == if old(Repaints(lines, row)) then Clean(clip(RowText(lines, row), terminal.columns))
                             else old(terminal.screen.tape[terminal.screen.Top() + row])
      ensures cursorPos.Some? ==>
                && terminal.screen.CursorRow() == Min(cursorPos.value.0, terminal.rows - 1)
                && terminal.screen.column == Some(cursorPos.value.1)
      ensures scrollTop == old(scrollTop) && following == old(following) && lastMaxScroll == old(lastMaxScroll)
    {
      hide ApplyAll;
      var width, height := terminal.columns, terminal.rows;
      var lines := Bottom(frame, height);
      if width != prevWidth || height != prevHeight || |prevFrame| == 0 {
        prevFrame := [];
      }
      var buffer := StartPaint(prevFrame == [], terminal.screen);
      buffer := PaintRows(buffer, prevFrame, lines, terminal.screen);
      buffer := PutCursor(buffer, cursorPos, height, terminal.screen);
      terminal.Write(buffer);
      prevFrame := lines;
      prevWidth := width;
      prevHeight := height;
    }

    /** From a screen in step every row shows the frame's bottom `height` lines, and stays in step. */
    method PaintInStep(frame: seq<Line>, cursorPos: Option<(nat, nat)>)
      requires InStep()
      modifies this, terminal`screen
      ensures InStep() && ShowsRows(terminal.screen, Bottom(frame, terminal.rows), terminal.rows, terminal.columns)
      ensures prevFrame == Bottom(frame, terminal.rows)
    {
      Paint(frame, cursorPos);
    }

    method StartPaint(clear: bool, ghost s: Screen) returns (buffer: seq<Op>)
      requires s.Valid()
      ensures var b := ApplyAll(s, buffer); |b.tape| == |s.tape| && (!clear ==> b == s)
    {
      hide ApplyAll;
      EmptyBuffer(s);
      buffer := [];
      if clear {
        buffer := Put(buffer, ClearHome, s);
      }
    }

    method PutCursor(start: seq<Op>, cursorPos: Option<(nat, nat)>, height: nat, ghost s: Screen)
        returns (buffer: seq<Op>)
      requires s.Valid() && height == s.height
      ensures var b := ApplyAll(s, start);
              var r := ApplyAll(s, buffer);
              && r.tape == b.tape
              && (cursorPos.Some? ==>
                 r.CursorRow() == Min(cursorPos.value.0, height - 1) && r.column == Some(cursorPos.value.1))
    {
      hide ApplyAll;
      buffer := start;
      if cursorPos.Some? {
        buffer := Put(buffer, Position(Min(cursorPos.value.0, height - 1) + 1, cursorPos.value.1 + 1), s);
      }
    }

    /** Writes the rows whose line differs from the last frame's, or that it did not have. */
    method PaintRows(start: seq<Op>, before: seq<Line>, lines: seq<Line>, ghost s: Screen) returns (buffer: seq<Op>)
      requires terminal.Valid() && s == terminal.screen && |ApplyAll(s, start).tape| == |s.tape|
      ensures var b := ApplyAll(s, start);
              var r := ApplyAll(s, buffer);
              && |r.tape| == |s.tape|
              && forall k {:trigger r.tape[k]} :: r.Top() <= k < |r.tape| ==>
                   var row := k - r.Top();
                   r.tape[k] == if row >= |before| || before[row] != RowText(lines, row)
                     then Clean(clip(RowText(lines, row), terminal.columns)) else b.tape[k]
    {
      hide ApplyAll;
      buffer := start;
      ghost var b := ApplyAll(s, start);
      ghost var r := b;
      for row := 0 to terminal.rows
        invariant r == ApplyAll(s, buffer) && r.Valid() && r.height == s.height && |r.tape| == |s.tape|
        invariant forall k {:trigger r.tape[k]} :: r.Top() <= k < |r.tape| ==>
                    var i := k - r.Top();
                    r.tape[k] == if i < row && (i >= |before| || before[i] != RowText(lines, i))
                      then Clean(clip(RowText(lines, i), terminal.columns))
                                 else b.tape[k]
      {
        var line := RowText(lines, row);
        if row >= |before| || before[row] != line {
          buffer := PutRow(buffer, row, clip(line, terminal.columns), s);
          r := ApplyAll(s, buffer);
        }
      }
    }

    method PutRow(start: seq<Op>, row: nat, line: Line, ghost s: Screen) returns (buffer: seq<Op>)
      requires s.Valid() && row < s.height
      ensures var b := ApplyAll(s, start); ApplyAll(s, buffer).tape == b.tape[b.Top() + row := Clean(line)]
    {
      hide ApplyAll;
      buffer := Put(start, Position(row + 1, 1), s);
      buffer := Put(buffer, ClearLine, s);
      buffer := Put(buffer, Text(line), s);
    }

    /** Forgets the last frame, so that nothing is taken to be on the screen. */
    method Reset()
      requires terminal.Valid()
      modifies `prevFrame
      ensures InStep() && prevFrame == []
    {
      prevFrame := [];
    }

    /**
      A paint that cannot notice the resizes since the last one: a frame is remembered, and its size is the
      screen's again.
    */
    predicate Unnoticed(step: Step, resized: bool)
      reads `prevFrame, `prevWidth, `prevHeight, terminal`columns, terminal`rows
    {
      step.Paint? && resized && prevFrame != [] && prevWidth == terminal.columns && prevHeight == terminal.rows
    }

    /**
      A run of paints, resets and resizes, whatever resizes make of the screen. It goes on to the last
      step unless a paint cannot notice a resize before it; after every paint the rows show the frame.
    */
    method Run(steps: seq<Step>) returns (done: nat)
      requires InStep()
      requires forall i ::
               0 <= i < |steps| && steps[i].Resize? ==> ValidResize(steps[i].columns, steps[i].rows, steps[i].reflowed)
      modifies this, terminal
      ensures done <= |steps| && terminal.Valid() && (InStep() || ResizedSince(steps[..done]))
      ensures done < |steps| ==> Unnoticed(steps[done], ResizedSince(steps[..done]))
      ensures done > 0 && steps[done - 1].Paint? ==>
                ShowsRows(terminal.screen, Bottom(steps[done - 1].frame, terminal.rows), terminal.rows,
                  terminal.columns)
    {
      done := 0;
      var resized := false;
      while done < |steps| && !Unnoticed(steps[done], resized)
        invariant done <= |steps| && terminal.Valid() && (InStep() || resized) && ResizedSince(steps[..done]) == resized
        invariant done > 0 && steps[done - 1].Paint? ==>
                    ShowsRows(terminal.screen, Bottom(steps[done - 1].frame, terminal.rows), terminal.rows,
                      terminal.columns)
      {
        assert steps[..done + 1][..done] == steps[..done];
        match steps[done] {
          case Paint(frame, cursorPos) =>
            PaintInStep(frame, cursorPos);
            resized := false;
          case Reset => Reset();
          case Resize(columns, rows, reflowed) =>
            terminal.Resize(columns, rows, reflowed);
            resized := true;
        }
        done := done + 1;
      }
    }

    /** At the bottom, and only there, the view follows again. */
    method ScrollBy(delta: int)
      requires Scrolled()
      modifies `scrollTop, `following
      ensures Scrolled() && (following <==> scrollTop == lastMaxScroll)
      ensures scrollTop == Max(0, Min(old(scrollTop) + delta, lastMaxScroll))
    {
      var base := if following then lastMaxScroll else scrollTop;
      scrollTop := Max(0, Min(base + delta, lastMaxScroll));
      following := scrollTop >= lastMaxScroll;
    }

    method ScrollToTop()
      requires Scrolled()
      modifies `scrollTop, `following
      ensures Scrolled() && scrollTop == 0 && (following <==> lastMaxScroll == 0)
    {
      scrollTop := 0;
      following := lastMaxScroll == 0;
    }

    method ScrollToBottom()
      requires Scrolled()
      modifies `scrollTop, `following
      ensures Scrolled() && following
    {
      scrollTop := lastMaxScroll;
      following := true;
    }
  }

  /**
    A paint, two resizes there and back that leave the screen blank, and the same paint again: the frame is
    not shown.
  */
  method UnnoticedResize(clip: (Line, nat) -> Line) returns (viewport: Viewport)
    requires clip("a", 80) == "a"
    ensures fresh(viewport) && viewport.terminal.Valid() && viewport.prevFrame == ["a"] && viewport.terminal.rows == 1
    ensures !viewport.ShowsRows(viewport.terminal.screen, ["a"], 1, 80)
  {
    var blank := Screen([BLANK], 1, 0, Some(0));
    var terminal := new Device(blank, 80, 1);
    viewport := new Viewport(terminal, clip);
    viewport.Paint(["a"], None);
    terminal.Resize(40, 1, blank);
    terminal.Resize(80, 1, blank);
    viewport.Paint(["a"], None);
    assert viewport.terminal.screen.tape[viewport.terminal.screen.Top()] == BLANK;
  }
}
