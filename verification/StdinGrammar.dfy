/**
  The sequences a terminal sends, spelled out, and that the input parser takes exactly these off its
  input (packages/tui/src/stdin-buffer.ts), each as soon as it is complete.
*/
module StdinGrammar {
  import opened Basics
  import opened Substrings
  import opened AnsiScanner
  import opened StyleTracker
  import opened StdinBuffer

  /** A control string's introducer. */
  datatype Introducer = Osc | Dcs | Apc

  datatype Sequence =
    | Key(c: char)
    | Meta(c: char)
    | Ss3(c: char)
    | Csi(parameters: string, final: char)
    | LegacyMouse(report: string)
    | SgrMouse(button: string, x: string, y: string, release: bool)
    | ControlString(introducer: Introducer, payload: string, bel: bool)

  function IntroducerChar(introducer: Introducer): char {
    match introducer case Osc => ']' case Dcs => 'P' case Apc => '_'
  }

  function Spelling(g: Sequence): string {
    match g
    case Key(c) => [c]
    case Meta(c) => [ESC, c]
    case Ss3(c) => [ESC, 'O', c]
    case Csi(parameters, final) => [ESC, '['] + parameters + [final]
    case LegacyMouse(report) => [ESC, '[', 'M'] + report
    case SgrMouse(button, x, y, release) =>
      [ESC, '[', '<'] + (button + ";" + x + ";" + y) + [if release then 'm' else 'M']
    case ControlString(introducer, payload, bel) =>
      [ESC, IntroducerChar(introducer)] + payload + if bel then [BEL] else [ESC, '\\']
  }

  /** The final byte of a control sequence: from @ to ~. */
  predicate Ends(c: char) { '@' <= c <= '~' }

  predicate Digits(s: string) {
    s != "" && forall i :: 0 <= i < |s| ==> '0' <= s[i] <= '9'
  }

  /** No string terminator, and for an OSC no BEL. */
  predicate HasNoEnd(introducer: Introducer, payload: string) {
    && (introducer.Osc? ==> BEL !in payload)
    && forall i {:trigger payload[i]} :: 0 <= i < |payload| - 1 ==> !(payload[i] == ESC && payload[i + 1] == '\\')
  }

  predicate WellFormed(g: Sequence) {
    match g
    case Key(c) => c != ESC
    case Meta(c) => c != '[' && c != 'O' && c != ']' && c != 'P' && c != '_'
    case Ss3(_) => true
    case Csi(parameters, final) =>
      && Ends(final) && (forall i :: 0 <= i < |parameters| ==> !Ends(parameters[i]))
      && (if parameters == "" then final != 'M' else parameters[0] != '<')
    case LegacyMouse(report) => |report| == 3
    case SgrMouse(button, x, y, _) => Digits(button) && Digits(x) && Digits(y)
    case ControlString(introducer, payload, bel) => HasNoEnd(introducer, payload) && (bel ==> introducer.Osc?)
  }

  // A well-formed sequence is complete, and no part of it is

  lemma MouseFields(button: string, x: string, y: string)
    requires Digits(button) && Digits(x) && Digits(y)
    ensures Split(button + ";" + x + ";" + y, ';') == [button, x, y]
  {
    SplitNone(button, ';');
    SplitNone(x, ';');
    SplitNone(y, ';');
    SplitConcat(button + ";" + x, y, ';');
    SplitConcat(button, x, ';');
    assert button + ";" + x + ";" + y == (button + ";" + x) + [';'] + y;
    assert button + ";" + x == button + [';'] + x;
  }

  lemma MouseComplete(g: Sequence)
    requires g.SgrMouse? && WellFormed(g)
    ensures IsMouseReport(Spelling(g)[2..])
  {
    var fields := g.button + ";" + g.x + ";" + g.y;
    var payload := Spelling(g)[2..];
    MouseFields(g.button, g.x, g.y);
    hide Split;
    assert payload == ['<'] + fields + [if g.release then 'm' else 'M'];
    assert payload[1..|payload| - 1] == fields;
  }

  lemma IsWhole(g: Sequence)
    requires WellFormed(g) && !g.Key?
    ensures IsCompleteSequence(Spelling(g)).Complete?
  {
    var w := Spelling(g);
    if g.SgrMouse? {
      MouseComplete(g);
      assert w[|w| - 1] == if g.release then 'm' else 'M';
    }
    hide IsMouseReport;
    if g.Csi? {
      assert w[|w| - 1] == g.final && w[2] == if g.parameters == "" then g.final else g.parameters[0];
    } else if g.ControlString? {
      assert w[1] == IntroducerChar(g.introducer);
      assert w[|w| - 1] == if g.bel then BEL else '\\';
    }
  }

  lemma IsPart(g: Sequence, k: nat)
    requires WellFormed(g) && 1 <= k < |Spelling(g)|
    ensures Spelling(g)[0] == ESC && !IsCompleteSequence(Spelling(g)[..k]).Complete?
  {
    var w := Spelling(g);
    var p := w[..k];
    assert p[k - 1] == w[k - 1];
    hide IsMouseReport;
    match g {
      case Csi(parameters, final) =>
        if k >= 3 {
          assert p[2] == parameters[0] && p[k - 1] == parameters[k - 3];
        }
      case SgrMouse(button, x, y, release) =>
        if k >= 3 {
          InsideMouse(g, k - 1);
        }
      case ControlString(introducer, payload, bel) =>
        if k >= 2 {
          InsideString(g, k);
        }
      case _ =>
    }
  }

  lemma InsideMouse(g: Sequence, i: nat)
    requires g.SgrMouse? && WellFormed(g) && 2 <= i < |Spelling(g)| - 1
    ensures !Ends(Spelling(g)[i]) && Spelling(g)[2] == '<'
  {
    var fields := g.button + ";" + g.x + ";" + g.y;
    if i > 2 {
      assert Spelling(g)[i] == fields[i - 3];
    }
  }

  lemma InsideString(g: Sequence, k: nat)
    requires g.ControlString? && WellFormed(g) && 2 <= k < |Spelling(g)|
    ensures !EndsWithSt(Spelling(g)[..k]) && (g.introducer.Osc? ==> Spelling(g)[k - 1] != BEL)
  {
    var w, payload := Spelling(g), g.payload;
    assert w[1] == IntroducerChar(g.introducer);
    assert forall i :: 2 <= i < 2 + |payload| ==> w[i] == payload[i - 2];
    if k > 3 && k <= 2 + |payload| {
      assert w[k - 2] == payload[k - 4] && w[k - 1] == payload[k - 3];
    }
  }

  /** A well-formed sequence is taken off whole, whatever follows. */
  lemma TakenWhole(g: Sequence, rest: string)
    requires WellFormed(g)
    ensures FirstEnd(Spelling(g) + rest) == Some(|Spelling(g)|)
  {
    var w, s := Spelling(g), Spelling(g) + rest;
    if !g.Key? {
      forall k | 1 <= k < |w|
        ensures !IsCompleteSequence(s[..k]).Complete?
      {
        assert s[..k] == w[..k];
        IsPart(g, k);
      }
      IsWhole(g);
      assert s[..|w|] == w;
      hide IsCompleteSequence;
      assert SequenceEnd(s, 1) == Some(|w|);
    }
  }

  /** While only a part of it is there, nothing is. */
  lemma HeldBack(g: Sequence, k: nat)
    requires WellFormed(g) && 1 <= k < |Spelling(g)|
    ensures FirstEnd(Spelling(g)[..k]).None?
  {
    var w, part := Spelling(g), Spelling(g)[..k];
    forall j | 1 <= j <= k
      ensures !IsCompleteSequence(part[..j]).Complete?
    {
      assert part[..j] == w[..j];
      IsPart(g, j);
    }
    IsPart(g, k);
    assert part[0] == ESC;
    hide IsCompleteSequence;
    assert SequenceEnd(part, 1).None?;
  }

  // Nothing else is taken off

  lemma NotYet(s: string, end: nat, k: nat)
    requires s != "" && s[0] == ESC && FirstEnd(s) == Some(end) && 1 <= k < end
    ensures !IsCompleteSequence(s[..k]).Complete?
  {
    hide IsCompleteSequence;
  }

  lemma Earliest(s: string, end: nat, k: nat)
    requires s != "" && FirstEnd(s) == Some(end) && 1 <= k <= |s| && IsCompleteSequence(s[..k]).Complete?
    ensures end <= k
  {
    hide IsCompleteSequence;
  }

  /** Whatever is taken off is a well-formed sequence. */
  lemma TakesSequence(s: string, end: nat) returns (g: Sequence)
    requires s != "" && FirstEnd(s) == Some(end)
    ensures WellFormed(g) && Spelling(g) == s[..end]
  {
    var w := s[..end];
    if s[0] != ESC {
      return Key(s[0]);
    }
    assert IsCompleteSequence(w).Complete? && end >= 2;
    if w[1] == '[' {
      if w[2] == 'M' {
        assert s[..6][0] == ESC && s[..6][1] == '[' && s[..6][2] == 'M';
        Earliest(s, end, 6);
        g := LegacyMouse(w[3..]);
        assert w == [ESC, '[', 'M'] + w[3..];
      } else if w[2] == '<' {
        g := TakesMouse(w);
      } else {
        g := TakesControl(s, end);
      }
    } else if w[1] == ']' || w[1] == 'P' || w[1] == '_' {
      g := TakesString(s, end);
    } else if w[1] == 'O' {
      if end > 3 {
        NotYet(s, end, 3);
        assert false;
      }
      g := Ss3(w[2]);
    } else {
      if end > 2 {
        NotYet(s, end, 2);
        assert false;
      }
      g := Meta(w[1]);
    }
  }

  lemma TakesMouse(w: string) returns (g: Sequence)
    requires |w| >= 3 && w[0] == ESC && w[1] == '[' && w[2] == '<' && IsCompleteCsi(w)
    ensures WellFormed(g) && Spelling(g) == w
  {
    var fields := w[2..][1..|w| - 3];
    assert fields == w[3..|w| - 1];
    var parts := Split(fields, ';');
    JoinOfSplit(fields, ';');
    hide Split;
    assert parts[1..][1..] == [parts[2]] && Join([parts[2]], ';') == parts[2];
    assert Join(parts[1..], ';') == parts[1] + [';'] + parts[2];
    assert Join(parts, ';') == parts[0] + [';'] + (parts[1] + [';'] + parts[2]);
    g := SgrMouse(parts[0], parts[1], parts[2], w[|w| - 1] == 'm');
    assert fields == parts[0] + ";" + parts[1] + ";" + parts[2];
    assert w == [ESC, '[', '<'] + fields + [w[|w| - 1]];
  }

  lemma TakesControl(s: string, end: nat) returns (g: Sequence)
    requires s != "" && FirstEnd(s) == Some(end) && 3 <= end && s[0] == ESC && s[1] == '['
    requires s[2] != 'M' && s[2] != '<' && IsCompleteSequence(s[..end]).Complete?
    ensures WellFormed(g) && Spelling(g) == s[..end]
  {
    var w := s[..end];
    forall j | 2 <= j < end - 1
      ensures !Ends(s[j])
    {
      NotYet(s, end, j + 1);
      assert s[..j + 1][j] == s[j] && s[..j + 1][2] == s[2];
    }
    hide FirstEnd;
    g := Csi(w[2..end - 1], w[end - 1]);
    assert w == [ESC, '['] + w[2..end - 1] + [w[end - 1]];
  }

  lemma TakesString(s: string, end: nat) returns (g: Sequence)
    requires s != "" && FirstEnd(s) == Some(end) && 2 <= end && s[0] == ESC
             && (s[1] == ']' || s[1] == 'P' || s[1] == '_')
    requires IsCompleteSequence(s[..end]).Complete?
    ensures WellFormed(g) && Spelling(g) == s[..end]
  {
    var w := s[..end];
    var introducer := if s[1] == ']' then Osc else if s[1] == 'P' then Dcs else Apc;
    forall j | 2 <= j < end - 1
      ensures (introducer.Osc? ==> s[j] != BEL) && !(s[j - 1] == ESC && s[j] == '\\')
    {
      NotYet(s, end, j + 1);
      var p := s[..j + 1];
      assert p[0] == ESC && p[1] == s[1] && p[j] == s[j] && p[j - 1] == s[j - 1];
    }
    hide FirstEnd;
    var bel := introducer.Osc? && w[end - 1] == BEL;
    var payload := if bel then w[2..end - 1] else w[2..end - 2];
    g := ControlString(introducer, payload, bel);
    assert forall i :: 0 <= i < |payload| ==> payload[i] == s[i + 2];
    assert w == [ESC, IntroducerChar(introducer)] + payload + if bel then [BEL] else [ESC, '\\'];
  }

  // Input

  function Spellings(sequences: seq<Sequence>): seq<string> {
    if sequences == [] then [] else [Spelling(sequences[0])] + Spellings(sequences[1..])
  }

  function Text(sequences: seq<Sequence>): string {
    if sequences == [] then "" else Spelling(sequences[0]) + Text(sequences[1..])
  }

  predicate AllWellFormed(sequences: seq<Sequence>) {
    forall i :: 0 <= i < |sequences| ==> WellFormed(sequences[i])
  }

  /** Nothing, or a sequence that is not all there yet. */
  ghost predicate IsUnfinished(part: string) {
    part == "" || exists g, k: nat :: WellFormed(g) && 1 <= k < |Spelling(g)| && part == Spelling(g)[..k]
  }

  lemma UnfinishedIsHeld(part: string)
    requires IsUnfinished(part)
    ensures Extract(part) == Extracted([], part)
  {
    if part != "" {
      var g, k: nat :| WellFormed(g) && 1 <= k < |Spelling(g)| && part == Spelling(g)[..k];
      HeldBack(g, k);
      ExtractNothing(part);
    }
  }

  /** Any well-formed sequences, and the beginning of another, are told apart as they were sent. */
  lemma {:induction false} ExtractsText(sequences: seq<Sequence>, part: string)
    requires AllWellFormed(sequences) && IsUnfinished(part)
    ensures Extract(Text(sequences) + part) == Extracted(Spellings(sequences), part)
    decreases |sequences|
  {
    hide Extract;
    hide FirstEnd;
    hide WellFormed;
    hide Spelling;
    hide IsUnfinished;
    if sequences == [] {
      UnfinishedIsHeld(part);
      assert "" + part == part;
    } else {
      var w, rest := Spelling(sequences[0]), Text(sequences[1..]) + part;
      assert Text(sequences) + part == w + rest;
      TakenWhole(sequences[0], rest);
      SpellingNotEmpty(sequences[0]);
      StepOver(w + rest, |w|);
      assert (w + rest)[..|w|] == w && (w + rest)[|w|..] == rest;
      ExtractsText(sequences[1..], part);
    }
  }

  lemma SpellingNotEmpty(g: Sequence)
    ensures Spelling(g) != ""
  {
  }

  /** And whatever comes in, what is told apart are well-formed sequences. */
  lemma {:induction false} ExtractsSequences(buffer: string) returns (sequences: seq<Sequence>)
    ensures AllWellFormed(sequences) && Extract(buffer).sequences == Spellings(sequences)
    decreases |buffer|
  {
    hide WellFormed;
    hide Spelling;
    hide FirstEnd;
    sequences := [];
    if buffer != "" && FirstEnd(buffer).Some? {
      var end := FirstEnd(buffer).value;
      var g := TakesSequence(buffer, end);
      var rest := ExtractsSequences(buffer[end..]);
      StepOver(buffer, end);
      sequences := [g] + rest;
      assert sequences[1..] == rest;
    }
  }

  /**
    A chunk of well-formed sequences, the last of them perhaps not all there, is emitted sequence by
    sequence at once, and only the unfinished part is held back.
  */
  lemma EmitsSequences(st: State, sequences: seq<Sequence>, part: string)
    requires !st.pasteMode && st.buffer == "" && AllWellFormed(sequences) && IsUnfinished(part)
    requires Text(sequences) + part != "" && Find(Text(sequences) + part, PASTE_START).None?
    ensures var output := Processed(st, Text(sequences) + part);
            && output.events == EventsOfAll(st.pending, Spellings(sequences))
            && output.state == State(part, false, st.pasteBuffer, PendingAfterAll(st.pending, Spellings(sequences)))
  {
    hide Find;
    hide IsUnfinished;
    hide WellFormed;
    hide EventsOfAll;
    hide PendingAfterAll;
    var chunk := Text(sequences) + part;
    ExtractsText(sequences, part);
    hide Text;
    hide Extract;
    assert st.buffer + chunk == chunk;
    ProcessedPlain(st, chunk, chunk);
    hide Processed;
  }

  /** Sequences that announce no character are each one event. */
  lemma {:induction false} OneEventEach(sequences: seq<string>)
    requires forall i :: 0 <= i < |sequences| ==> KittyPrintable(sequences[i]).None?
    ensures EventsOfAll(None, sequences) == seq(|sequences|, i requires 0 <= i < |sequences| => Data(sequences[i]))
    ensures PendingAfterAll(None, sequences).None?
  {
    hide KittyPrintable;
    if sequences != [] {
      OneEventEach(sequences[1..]);
    }
  }

  // The key that is sent twice

  /** A printable key's report, with its shifted and base codes if they are there, announces the key's character. */
  lemma Announces(code: nat, shifted: Option<string>, base: Option<string>)
    requires code >= 32
    requires (shifted.Some? ==> shifted.value == "" || Digits(shifted.value)) && (base.Some? ==> Digits(base.value))
    requires base.Some? ==> shifted.Some?
    ensures var more :=
            (if shifted.Some? then ":" + shifted.value else "") + if base.Some? then ":" + base.value else "";
            KittyPrintable([ESC, '['] + (Decimal(code) + more) + "u") == Some(code)
  {
    var more := (if shifted.Some? then ":" + shifted.value else "") + if base.Some? then ":" + base.value else "";
    var fields := Decimal(code) + more;
    var w := [ESC, '['] + fields + "u";
    assert w[2..|w| - 1] == fields;
    DecimalValue(code);
    ReportFields(Decimal(code), shifted, base);
    hide Split;
    hide Decimal;
    hide DigitsValue;
  }

  lemma ReportFields(code: string, shifted: Option<string>, base: Option<string>)
    requires Digits(code) && (shifted.Some? ==> shifted.value == "" || Digits(shifted.value))
    requires (base.Some? ==> Digits(base.value)) && (base.Some? ==> shifted.Some?)
    ensures var more :=
            (if shifted.Some? then ":" + shifted.value else "") + if base.Some? then ":" + base.value else "";
            Split(code + more, ':')
            == [code] + (if shifted.Some? then [shifted.value] else []) + (if base.Some? then [base.value] else [])
  {
    hide Split;
    SplitNone(code, ':');
    if shifted.None? {
      assert code + ("" + "") == code;
    } else {
      SplitNone(shifted.value, ':');
      SplitConcat(code, shifted.value, ':');
      if base.None? {
        assert code + (":" + shifted.value + "") == code + [':'] + shifted.value;
      } else {
        SplitNone(base.value, ':');
        SplitConcat(code + [':'] + shifted.value, base.value, ':');
        assert code + (":" + shifted.value + (":" + base.value)) == code + [':'] + shifted.value + [':'] + base.value;
      }
    }
  }

  /** The report of a key and then the key itself are one event. */
  lemma SentTwice(st: State, c: char)
    requires !st.pasteMode && st.buffer == "" && c as int >= 32
    ensures var report := [ESC, '['] + Decimal(c as int) + "u";
            && Processed(st, report + [c]).events == [Data(report)]
            && Processed(st, report + [c]).state == State("", false, st.pasteBuffer, None)
  {
    var digits := Decimal(c as int);
    var report := [ESC, '['] + digits + "u";
    var keys := [Csi(digits, 'u'), Key(c)];
    Announces(c as int, None, None);
    assert digits + ("" + "") == digits;
    hide *;
    ReportThenKey(digits, c);
    NoMarker(digits, c);
    DropsAnnounced(st.pending, report, c);
    NothingUnfinished();
    assert Text(keys) + "" == report + [c];
    EmitsSequences(st, keys, "");
  }

  lemma NothingUnfinished()
    ensures IsUnfinished("")
  {
  }

  lemma ReportThenKey(digits: string, c: char)
    requires Digits(digits) && c != ESC
    ensures var keys, report := [Csi(digits, 'u'), Key(c)], [ESC, '['] + digits + "u";
            AllWellFormed(keys) && Text(keys) == report + [c] && Spellings(keys) == [report, [c]]
  {
    KeyText(Csi(digits, 'u'), Key(c));
    hide Text;
    hide Spellings;
  }

  lemma DropsAnnounced(pending: Option<nat>, report: string, c: char)
    requires KittyPrintable(report) == Some(c as int) && |report| > 1
    ensures EventsOfAll(pending, [report, [c]]) == [Data(report)] && PendingAfterAll(pending, [report, [c]]) == None
  {
    assert KittyPrintable([c]).None?;
    hide KittyPrintable;
    assert [report, [c]][1..] == [[c]] && [[c]][1..] == [];
    assert EventsOfAll(Some(c as int), [[c]]) == [] && PendingAfterAll(Some(c as int), [[c]]) == None;
  }

  lemma KeyText(a: Sequence, b: Sequence)
    ensures Text([a, b]) == Spelling(a) + Spelling(b) && Spellings([a, b]) == [Spelling(a), Spelling(b)]
  {
    assert [a, b][1..] == [b] && [b][1..] == [];
    assert Text([b]) == Spelling(b) && Spellings([b]) == [Spelling(b)];
    hide Spelling;
  }

  lemma NoMarker(digits: string, c: char)
    requires Digits(digits) && c != ESC
    ensures Find([ESC, '['] + digits + "u" + [c], PASTE_START).None?
  {
    var s := [ESC, '['] + digits + "u" + [c];
    assert forall i :: 0 <= i < |digits| ==> s[i + 2] == digits[i];
    assert s[|digits| + 2] == 'u';
    forall i: nat | i + 6 <= |s|
      ensures !Occurs(s, PASTE_START, i)
    {
      assert i > 0 ==> s[i] != ESC;
      var j := if i > 0 then 0 else Min(|digits| + 2, 5);
      assert s[i..i + 6][j] == s[i + j] != PASTE_START[j];
    }
  }

  // Pastes

  /** What comes between the paste markers is one event, whatever it is, and what is typed before it comes first. */
  lemma Pastes(st: State, sequences: seq<Sequence>, content: string)
    requires !st.pasteMode && st.buffer == "" && AllWellFormed(sequences)
    requires Find(Text(sequences) + (PASTE_START + content + PASTE_END), PASTE_START) == Some(|Text(sequences)|)
    requires Find(content + PASTE_END, PASTE_END) == Some(|content|)
    ensures Processed(st, Text(sequences) + (PASTE_START + content + PASTE_END))
            == Output(START_STATE, EventsOfAll(st.pending, Spellings(sequences)) + [Paste(content)])
  {
    var text, pasted := Text(sequences), content + PASTE_END;
    var chunk := text + (PASTE_START + content + PASTE_END);
    assert |PASTE_END| == 6;
    hide *;
    PasteSlices(text, content);
    assert pasted[..|content|] == content;
    EndsPaste(pasted, |content|);
    assert st.buffer + chunk == chunk && text + "" == text;
    NothingUnfinished();
    ExtractsText(sequences, "");
    ProcessedStart(st, chunk, chunk, |text|);
    AfterTyped(EventsOfAll(st.pending, Spellings(sequences)), [Paste(content)]);
  }

  lemma AfterTyped(typed: seq<Event>, events: seq<Event>)
    ensures Prefixed(typed, Output(START_STATE, events)) == Output(START_STATE, typed + events)
  {
  }

  lemma PasteSlices(text: string, content: string)
    ensures var chunk := text + (PASTE_START + content + PASTE_END);
            chunk[..|text|] == text && chunk[|text| + 6..] == content + PASTE_END
  {
    var chunk := text + (PASTE_START + content + PASTE_END);
    assert chunk == text + PASTE_START + (content + PASTE_END);
  }

  lemma EndsPaste(pasted: string, end: nat)
    requires Find(pasted, PASTE_END) == Some(end) && end + 6 == |pasted|
    ensures Pasted(pasted, None) == Output(START_STATE, [Paste(pasted[..end])])
  {
    assert pasted[end + 6..] == "";
    PasteEnds(pasted, None, end);
    AfterTyped([Paste(pasted[..end])], []);
    hide *;
  }
}
