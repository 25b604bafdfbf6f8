/**
  A terminal as the inline renderer drives it: one tape of rows, of which the last `height`
  are the screen and the rest is scrollback. Only the operations the renderer emits exist.
*/
module Terminal {
  import opened Basics

  type Line = string

  /** What a row shows: one whole line (blank is the empty line), or text printed over other text. */
  datatype Row = Clean(text: Line) | Mixed

  const BLANK: Row := Clean("")

  /** Escape sequences and text in the order they are written. A zero count moves by one, as ECMA-48 defaults. */
  datatype Op =
    | Up(n: nat)
    | Down(n: nat)
    | Column(n: nat)
    | Position(row: nat, col: nat) // absolute, one-based
    | CarriageReturn
    | NewLine // carriage return and line feed
    | ClearLine
    | ClearHome // clear the screen, cursor home; scrollback stays
    | Text(line: Line)

  /**
    `cur` is the cursor's index on the tape. `column` is its column, counted from zero and before the
    terminal holds it at its right edge; after text, whose width is not modelled, it is not known.
  */
  datatype Screen = Screen(tape: seq<Row>, height: nat, cur: nat, column: Option<nat>) {
    predicate Valid() {
      0 < height <= |tape| && |tape| - height <= cur < |tape|
    }

    predicate AtStart() {
      column == Some(0)
    }

    ghost function Top(): nat
      requires Valid()
    {
      |tape| - height
    }

    ghost function Scrollback(): seq<Row>
      requires Valid()
    {
      tape[..Top()]
    }

    ghost function CursorRow(): nat
      requires Valid()
    {
      cur - Top()
    }
  }

  ghost function Blanks(n: nat): seq<Row> {
    seq(n, _ => BLANK)
  }

  ghost function Apply(s: Screen, op: Op): (r: Screen)
    requires s.Valid()
    ensures r.Valid() && r.height == s.height
  {
    match op
    case Up(n) =>
      var k := if n == 0 then 1 else n;
      s.(cur := if s.cur - k < s.Top() then s.Top() else s.cur - k)
    case Down(n) =>
      var k := if n == 0 then 1 else n;
      s.(cur := if s.cur + k >= |s.tape| then |s.tape| - 1 else s.cur + k)
    case Column(n) => s.(column := Some(Max(n, 1) - 1))
    case Position(row, col) =>
      s.(cur := s.Top() + Max(0, Min(s.height, row) - 1), column := Some(Max(col, 1) - 1))
    case CarriageReturn => s.(column := Some(0))
    case NewLine =>
      s.(cur := s.cur + 1, column := Some(0),
      tape := if s.cur + 1 == |s.tape| then s.tape + [BLANK] else s.tape)
    case ClearLine => s.(tape := s.tape[s.cur := BLANK])
    case ClearHome => Screen(s.Scrollback() + Blanks(s.height), s.height, s.Top(), Some(0))
    case Text(line) =>
      s.(tape := s.tape[s.cur := if s.AtStart() && s.tape[s.cur] == BLANK then Clean(line) else Mixed],
      column := if line == "" then s.column else None)
  }

  ghost function ApplyAll(s: Screen, ops: seq<Op>): (r: Screen)
    requires s.Valid()
    ensures r.Valid() && r.height == s.height
  {
    if ops == [] then s else Apply(ApplyAll(s, ops[..|ops| - 1]), ops[|ops| - 1])
  }

  lemma EmptyBuffer(s: Screen)
    requires s.Valid()
    ensures ApplyAll(s, []) == s
  {
  }

  /** Appending one operation to the buffer runs it on the screen the buffer leads to. */
  method Put(buffer: seq<Op>, op: Op, ghost s: Screen) returns (out: seq<Op>)
    requires s.Valid()
    ensures out == buffer + [op]
    ensures ApplyAll(s, out) == Apply(ApplyAll(s, buffer), op)
  {
    out := buffer + [op];
    assert out[..|out| - 1] == buffer;
  }

  /** The cursor `diff` rows further down, held at the screen's edges. */
  ghost function Moved(s: Screen, diff: int): (r: Screen)
    requires s.Valid()
    ensures r.Valid() && r.height == s.height && r.tape == s.tape
  {
    s.(cur := Max(s.Top(), Min(|s.tape| - 1, s.cur + diff)))
  }

  /** A relative vertical move: nothing is written for a zero difference. */
  method PutMove(buffer: seq<Op>, lineDiff: int, ghost s: Screen) returns (out: seq<Op>)
    requires s.Valid()
    ensures ApplyAll(s, out) == Moved(ApplyAll(s, buffer), lineDiff)
  {
    out := buffer;
    if lineDiff > 0 {
      out := Put(out, Down(lineDiff), s);
    } else if lineDiff < 0 {
      out := Put(out, Up(-lineDiff), s);
    }
  }

  method PutReturn(buffer: seq<Op>, ghost s: Screen) returns (out: seq<Op>)
    requires s.Valid()
    ensures ApplyAll(s, out) == ApplyAll(s, buffer).(column := Some(0))
  {
    out := Put(buffer, CarriageReturn, s);
  }

  method PutClear(buffer: seq<Op>, ghost s: Screen) returns (out: seq<Op>)
    requires s.Valid()
    ensures var b := ApplyAll(s, buffer); ApplyAll(s, out) == b.(tape := b.tape[b.cur := BLANK])
  {
    out := Put(buffer, ClearLine, s);
  }

  /** A resize leaves a screen of the new size, whatever it shows. */
  predicate ValidResize(columns: nat, rows: nat, reflowed: Screen) {
    columns > 0 && rows == reflowed.height && reflowed.Valid()
  }

  /** The terminal a renderer writes to. A resize may reflow it to anything. */
  class Device {
    ghost var screen: Screen
    var columns: nat
    var rows: nat

    constructor (ghost screen: Screen, columns: nat, rows: nat)
      ensures this.screen == screen && this.columns == columns && this.rows == rows
    {
      this.screen, this.columns, this.rows := screen, columns, rows;
    }

    ghost predicate Valid()
      reads this
    {
      screen.Valid() && screen.height == rows && columns > 0
    }

    method Write(buffer: seq<Op>)
      requires Valid()
      modifies `screen
      ensures Valid() && screen == ApplyAll(old(screen), buffer)
    {
      screen := ApplyAll(screen, buffer);
    }

    method Resize(columns: nat, rows: nat, ghost reflowed: Screen)
      requires ValidResize(columns, rows, reflowed)
      modifies this
      ensures Valid() && this.columns == columns && this.rows == rows && screen == reflowed
    {
      this.columns, this.rows, screen := columns, rows, reflowed;
    }
  }
}
