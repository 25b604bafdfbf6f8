/**
  The streaming terminal-input parser (packages/tui/src/stdin-buffer.ts): escape sequences are put
  together from whatever chunks the terminal delivers, with a bracketed-paste mode and suppression
  of the raw character that repeats a key already reported by the Kitty protocol.
*/
module StdinBuffer {
  import opened Basics
  import opened Substrings
  import opened AnsiScanner
  import opened StyleTracker

  const PASTE_START: string := [ESC, '[', '2', '0', '0', '~']
  const PASTE_END: string := [ESC, '[', '2', '0', '1', '~']

  /** All of the paste-start marker but its last character. */
  const MARKER_STEM: string := [ESC, '[', '2', '0', '0']

  datatype Status = Complete | Incomplete | NotEscape

  function Finished(finished: bool): Status {
    if finished then Complete else Incomplete
  }

  predicate EndsWithSt(data: string) {
    |data| >= 2 && data[|data| - 2] == ESC && data[|data| - 1] == '\\'
  }

  predicate IsNumber(s: string) {
    s != "" && AllDigits(s)
  }

  /** An SGR mouse report's payload: `<B;X;Y` and then `M` or `m`. */
  predicate IsMouseReport(payload: string) {
    && |payload| >= 2 && payload[0] == '<' && (payload[|payload| - 1] == 'M' || payload[|payload| - 1] == 'm')
    && var parts := Split(payload[1..|payload| - 1], ';');
       |parts| == 3 && IsNumber(parts[0]) && IsNumber(parts[1]) && IsNumber(parts[2])
  }

  /** `isCompleteCsiSequence`, for data that starts with the introducer. */
  predicate IsCompleteCsi(data: string)
    requires |data| >= 2
  {
    && |data| >= 3 && IsFinal(data[|data| - 1])
    && (data[2] == '<' ==> IsMouseReport(data[2..]))
  }

  /** `isCompleteSequence`. */
  function IsCompleteSequence(data: string): Status {
    if data == "" || data[0] != ESC then NotEscape
    else if |data| == 1 then Incomplete
    else if data[1] == '[' then
      if |data| >= 3 && data[2] == 'M' then Finished(|data| >= 6) else Finished(IsCompleteCsi(data))
    else if data[1] == ']' then Finished(EndsWithSt(data) || data[|data| - 1] == BEL)
    else if data[1] == 'P' || data[1] == '_' then Finished(EndsWithSt(data))
    else if data[1] == 'O' then Finished(|data| >= 3)
    else Complete
  }

  /** The least length, from `n` on, at which a prefix of `s` is a complete sequence. */
  function SequenceEnd(s: string, n: nat): (end: Option<nat>)
    ensures end.Some? ==> n <= end.value <= |s| && IsCompleteSequence(s[..end.value]).Complete?
    ensures forall k :: n <= k <= |s| && (end.Some? ==> k < end.value) ==> !IsCompleteSequence(s[..k]).Complete?
    decreases |s| - n
  {
    if n > |s| then None else if IsCompleteSequence(s[..n]).Complete? then Some(n) else SequenceEnd(s, n + 1)
  }

  /** The length of the first sequence: one character, or the shortest complete escape sequence. */
  function FirstEnd(s: string): (end: Option<nat>)
    requires s != ""
    ensures end.Some? ==> 1 <= end.value <= |s|
  {
    if s[0] == ESC then SequenceEnd(s, 1) else Some(1)
  }

  datatype Extracted = Extracted(sequences: seq<string>, remainder: string)

  /** The first sequence off the front, again and again. */
  ghost function Extract(buffer: string): (result: Extracted)
    ensures |result.remainder| <= |buffer|
    decreases |buffer|
  {
    if buffer == "" then Extracted([], "")
    else
      var end := FirstEnd(buffer);
      if end.None? then Extracted([], buffer)
      else
        var rest := Extract(buffer[end.value..]);
        Extracted([buffer[..end.value]] + rest.sequences, rest.remainder)
  }

  /** Extraction takes one sequence and goes on with what follows it. */
  lemma StepOver(s: string, end: nat)
    requires s != "" && FirstEnd(s) == Some(end)
    ensures Extract(s) == Extracted([s[..end]] + Extract(s[end..]).sequences, Extract(s[end..]).remainder)
  {
  }

  ghost function After(sequences: seq<string>, rest: Extracted): Extracted {
    Extracted(sequences + rest.sequences, rest.remainder)
  }

  lemma AfterOne(sequences: seq<string>, s: string, end: nat)
    requires s != "" && FirstEnd(s) == Some(end)
    ensures After(sequences, Extract(s)) == After(sequences + [s[..end]], Extract(s[end..]))
  {
    StepOver(s, end);
    hide Extract;
    var more := Extract(s[end..]).sequences;
    assert sequences + ([s[..end]] + more) == sequences + [s[..end]] + more;
  }

  lemma AfterNothing(sequences: seq<string>, s: string)
    requires s == "" || FirstEnd(s).None?
    ensures After(sequences, Extract(s)) == Extracted(sequences, s)
    ensures After([], Extract(s)) == Extract(s)
  {
  }

  /** `extractCompleteSequences`. */
  method ExtractCompleteSequences(buffer: string) returns (result: Extracted)
    ensures result == Extract(buffer)
  {
    var sequences: seq<string> := [];
    var pos := 0;
    ghost var rest := buffer;
    assert After([], Extract(buffer)) == Extract(buffer);
    hide Extract;
    hide After;
    hide FirstEnd;
    while pos < |buffer|
      invariant pos <= |buffer| && rest == buffer[pos..]
      invariant Extract(buffer) == After(sequences, Extract(rest))
    {
      var remaining := buffer[pos..];
      var end := FindEnd(remaining);
      if end > |remaining| {
        AfterNothing(sequences, remaining);
        return Extracted(sequences, remaining);
      }
      AfterOne(sequences, remaining, end);
      sequences := sequences + [remaining[..end]];
      pos := pos + end;
      rest := remaining[end..];
    }
    AfterNothing(sequences, rest);
    result := Extracted(sequences, "");
  }

  /** The end of the sequence at the front; past the end when it is not complete. */
  method FindEnd(remaining: string) returns (seqEnd: nat)
    requires remaining != ""
    ensures seqEnd > |remaining| <==> FirstEnd(remaining).None?
    ensures seqEnd <= |remaining| ==> FirstEnd(remaining) == Some(seqEnd)
  {
    seqEnd := 1;
    if remaining[0] != ESC {
      return;
    }
    hide IsCompleteSequence;
    while seqEnd <= |remaining|
      invariant 1 <= seqEnd <= |remaining| + 1
      invariant SequenceEnd(remaining, 1) == SequenceEnd(remaining, seqEnd)
    {
      if IsCompleteSequence(remaining[..seqEnd]).Complete? {
        return;
      }
      seqEnd := seqEnd + 1;
    }
  }

  ghost function Flatten(sequences: seq<string>): string {
    if sequences == [] then "" else sequences[0] + Flatten(sequences[1..])
  }

  /** Nothing is lost: the sequences and the remainder make up the buffer. */
  lemma {:induction false} ExtractConserves(buffer: string)
    ensures Flatten(Extract(buffer).sequences) + Extract(buffer).remainder == buffer
    decreases |buffer|
  {
    hide FirstEnd;
    if buffer != "" && FirstEnd(buffer).Some? {
      var end := FirstEnd(buffer).value;
      var first, rest := buffer[..end], Extract(buffer[end..]);
      ExtractConserves(buffer[end..]);
      StepOver(buffer, end);
      hide Extract;
      assert ([first] + rest.sequences)[1..] == rest.sequences;
      assert first + Flatten(rest.sequences) + rest.remainder == first + (Flatten(rest.sequences) + rest.remainder);
      assert buffer == first + buffer[end..];
    }
  }

  lemma {:induction false} SequenceEndSame(a: string, b: string, n: nat)
    ensures SequenceEnd(a, n).Some? ==> SequenceEnd(a + b, n) == SequenceEnd(a, n)
    decreases |a| - n
  {
    if n <= |a| {
      assert (a + b)[..n] == a[..n];
      hide IsCompleteSequence;
      SequenceEndSame(a, b, n + 1);
    }
  }

  lemma FirstEndSame(a: string, b: string)
    requires a != ""
    ensures FirstEnd(a).Some? ==> FirstEnd(a + b) == FirstEnd(a)
  {
    SequenceEndSame(a, b, 1);
    hide SequenceEnd;
  }

  /** Extraction may stop anywhere and go on from its remainder. */
  lemma {:induction false} ExtractSplits(a: string, b: string)
    ensures var first := Extract(a);
            var second := Extract(first.remainder + b);
            Extract(a + b) == Extracted(first.sequences + second.sequences, second.remainder)
    decreases |a|
  {
    hide FirstEnd;
    hide Extract;
    if a == "" || FirstEnd(a).None? {
      ExtractNothing(a);
      assert a == "" ==> a + b == b;
    } else {
      FirstEndSame(a, b);
      var n := FirstEnd(a).value;
      StepOver(a, n);
      SliceSum(a, b, n);
      StepOver(a + b, n);
      ExtractSplits(a[n..], b);
      var more, second := Extract(a[n..]).sequences, Extract(Extract(a).remainder + b).sequences;
      assert [a[..n]] + (more + second) == [a[..n]] + more + second;
    }
  }

  lemma ExtractNothing(s: string)
    requires s == "" || FirstEnd(s).None?
    ensures Extract(s) == Extracted([], s)
  {
  }

  lemma SliceSum(a: string, b: string, n: nat)
    requires n <= |a|
    ensures (a + b)[..n] == a[..n] && (a + b)[n..] == a[n..] + b
  {
  }

  lemma {:induction false} RemainderSettled(a: string)
    ensures Extract(Extract(a).remainder) == Extracted([], Extract(a).remainder)
    ensures Extract(a).remainder == a[|a| - |Extract(a).remainder|..]
    decreases |a|
  {
    hide FirstEnd;
    if a != "" && FirstEnd(a).Some? {
      RemainderSettled(a[FirstEnd(a).value..]);
    }
  }

  // Whole chunks

  datatype Event = Data(sequence: string) | Paste(content: string)

  datatype State = State(buffer: string, pasteMode: bool, pasteBuffer: string, pending: Option<nat>)

  const START_STATE := State("", false, "", None)

  datatype Output = Output(state: State, events: seq<Event>)

  /** `parseUnmodifiedKittyPrintableCodepoint`: ESC [ codepoint, up to two further fields, u. */
  function KittyPrintable(sequence: string): Option<nat> {
    if |sequence| < 4 || !(CSI <= sequence) || sequence[|sequence| - 1] != 'u' then None
    else
      var fields := Split(sequence[2..|sequence| - 1], ':');
      if |fields| > 3 || !IsNumber(fields[0]) || (|fields| >= 2 && !AllDigits(fields[1]))
        || (|fields| == 3 && !IsNumber(fields[2])) then None
      else if DigitsValue(fields[0]) >= 32 then Some(DigitsValue(fields[0])) else None
  }

  /** The raw character a Kitty report has announced. */
  predicate IsDuplicate(pending: Option<nat>, sequence: string) {
    |sequence| == 1 && pending == Some(sequence[0] as int)
  }

  function PendingAfter(pending: Option<nat>, sequence: string): Option<nat> {
    if IsDuplicate(pending, sequence) then None else KittyPrintable(sequence)
  }

  function EventsOf(pending: Option<nat>, sequence: string): seq<Event> {
    if IsDuplicate(pending, sequence) then [] else [Data(sequence)]
  }

  ghost function PendingAfterAll(pending: Option<nat>, sequences: seq<string>): Option<nat>
    decreases |sequences|
  {
    if sequences == [] then pending else PendingAfterAll(PendingAfter(pending, sequences[0]), sequences[1..])
  }

  ghost function EventsOfAll(pending: Option<nat>, sequences: seq<string>): seq<Event>
    decreases |sequences|
  {
    if sequences == [] then []
    else EventsOf(pending, sequences[0]) + EventsOfAll(PendingAfter(pending, sequences[0]), sequences[1..])
  }

  ghost function Prefixed(events: seq<Event>, output: Output): Output {
    Output(output.state, events + output.events)
  }

  /** `process` on one chunk. */
  ghost function Processed(st: State, chunk: string): Output
    decreases |st.pasteBuffer| + |st.buffer| + |chunk|, 1
  {
    var buffer := st.buffer + chunk;
    if buffer == "" then Output(st.(pending := PendingAfter(st.pending, "")), EventsOf(st.pending, ""))
    else if st.pasteMode then Pasted(st.pasteBuffer + buffer, st.pending)
    else
      var start := Find(buffer, PASTE_START);
      if start.Some? then
        var typed := Extract(buffer[..start.value]).sequences;
        Prefixed(EventsOfAll(st.pending, typed), Pasted(buffer[start.value + 6..], None))
      else
        var extracted := Extract(buffer);
        Output(State(extracted.remainder, false, st.pasteBuffer, PendingAfterAll(st.pending, extracted.sequences)),
               EventsOfAll(st.pending, extracted.sequences))
  }

  /** Pasted text up to the end marker, if it is there, and then what follows it. */
  ghost function Pasted(text: string, pending: Option<nat>): Output
    decreases |text|, 0
  {
    var end := Find(text, PASTE_END);
    if end.None? then Output(State("", true, text, pending), [])
    else
      var rest := text[end.value + 6..];
      Prefixed([Paste(text[..end.value])], if rest == "" then Output(START_STATE, []) else Processed(START_STATE, rest))
  }

  // Chunk independence

  ghost predicate Pending(buffer: string) {
    Extract(buffer) == Extracted([], buffer)
  }

  /** What holds between chunks: the buffer is an unfinished sequence, and no marker has been overlooked. */
  ghost predicate Settled(st: State) {
    if st.pasteMode then st.buffer == "" && Find(st.pasteBuffer, PASTE_END).None?
    else st.pasteBuffer == "" && Pending(st.buffer) && Find(st.buffer, PASTE_START).None?
  }

  /**
    An unfinished sequence that takes in the first characters of a paste-start marker and is still
    unfinished: none at all, a control string (OSC, DCS, APC), or a report that starts ESC [ <.
  */
  predicate Absorbs(unfinished: string) {
    || unfinished == ""
    || (|unfinished| >= 2 && (unfinished[1] == ']' || unfinished[1] == 'P' || unfinished[1] == '_'))
    || (|unfinished| >= 3 && unfinished[1] == '[' && unfinished[2] == '<')
  }

  /** No sequence runs on into a paste-start marker: what is unfinished before each marker absorbs it. */
  ghost predicate Clean(st: State, chunk: string)
    decreases |st.pasteBuffer| + |st.buffer| + |chunk|, 1
  {
    var buffer := st.buffer + chunk;
    if st.pasteMode then CleanPaste(st.pasteBuffer + buffer)
    else
      var start := Find(buffer, PASTE_START);
      start.Some? ==> Absorbs(Extract(buffer[..start.value]).remainder) && CleanPaste(buffer[start.value + 6..])
  }

  ghost predicate CleanPaste(text: string)
    decreases |text|, 0
  {
    var end := Find(text, PASTE_END);
    end.Some? ==> Clean(START_STATE, text[end.value + 6..])
  }

  ghost function Then(first: Output, chunk: string): Output {
    Prefixed(first.events, Processed(first.state, chunk))
  }

  lemma NothingTyped(pending: Option<nat>)
    ensures EventsOfAll(pending, Extract("").sequences) == []
  {
  }

  lemma {:induction false} EmitConcat(pending: Option<nat>, a: seq<string>, b: seq<string>)
    ensures PendingAfterAll(pending, a + b) == PendingAfterAll(PendingAfterAll(pending, a), b)
    ensures EventsOfAll(pending, a + b) == EventsOfAll(pending, a) + EventsOfAll(PendingAfterAll(pending, a), b)
    decreases |a|
  {
    if a == [] {
      assert a + b == b;
    } else {
      hide PendingAfter;
      hide EventsOf;
      assert (a + b)[0] == a[0] && (a + b)[1..] == a[1..] + b;
      EmitConcat(PendingAfter(pending, a[0]), a[1..], b);
    }
  }

  // Where a marker starts inside an unfinished sequence

  lemma NotComplete(s: string, k: nat)
    requires Pending(s) && 1 <= k <= |s|
    ensures s[0] == ESC && !IsCompleteSequence(s[..k]).Complete?
  {
    hide IsCompleteSequence;
  }

  /** A control string or mouse report is not finished by a character of the marker's stem. */
  lemma StemEndsNothing(s: string)
    requires |s| >= 2 && (s[|s| - 1] == ESC || s[|s| - 1] == '[' || s[|s| - 1] == '2' || s[|s| - 1] == '0')
    ensures !EndsWithSt(s) && s[|s| - 1] != BEL
    ensures |s| >= 3 && s[2] == '<' ==> !IsCompleteCsi(s)
  {
    if |s| >= 3 && s[2] == '<' && IsMouseReport(s[2..]) {
      assert s[2..][|s| - 3] == s[|s| - 1];
    }
    hide Split;
    hide AllDigits;
  }

  lemma StemUnfinished(m: nat)
    requires 1 <= m <= |MARKER_STEM|
    ensures !IsCompleteSequence(MARKER_STEM[..m]).Complete?
  {
    var s := MARKER_STEM[..m];
    assert s[m - 1] == MARKER_STEM[m - 1];
    hide IsMouseReport;
  }

  lemma StillUnfinished(unfinished: string, m: nat)
    requires Pending(unfinished) && Absorbs(unfinished) && 1 <= m <= |MARKER_STEM|
    ensures !IsCompleteSequence(unfinished + MARKER_STEM[..m]).Complete?
  {
    var s := unfinished + MARKER_STEM[..m];
    if unfinished == "" {
      assert s == MARKER_STEM[..m];
      StemUnfinished(m);
    } else {
      NotComplete(unfinished, |unfinished|);
      assert s[|s| - 1] == MARKER_STEM[m - 1];
      StemEndsNothing(s);
      hide IsCompleteCsi;
      hide EndsWithSt;
      assert s[0] == ESC && s[1] == unfinished[1];
    }
    hide Extract;
  }

  lemma {:induction false} NoEnd(s: string, n: nat)
    requires forall k :: n <= k <= |s| ==> !IsCompleteSequence(s[..k]).Complete?
    ensures SequenceEnd(s, n).None?
    decreases |s| - n
  {
    hide IsCompleteSequence;
    if n <= |s| {
      NoEnd(s, n + 1);
    }
  }

  /** An absorbed part of a marker leaves the sequence unfinished. */
  lemma Absorbed(unfinished: string, m: nat)
    requires Pending(unfinished) && Absorbs(unfinished) && m <= |MARKER_STEM|
    ensures Pending(unfinished + MARKER_STEM[..m])
  {
    var s := unfinished + MARKER_STEM[..m];
    forall k | 1 <= k <= |s|
      ensures !IsCompleteSequence(s[..k]).Complete?
    {
      if k <= |unfinished| {
        assert s[..k] == unfinished[..k];
        NotComplete(unfinished, k);
      } else {
        assert s[..k] == unfinished + MARKER_STEM[..k - |unfinished|];
        StillUnfinished(unfinished, k - |unfinished|);
      }
    }
    hide IsCompleteSequence;
    hide Absorbs;
    NoEnd(s, 1);
    if s == "" {
    } else if unfinished == "" {
      assert s[0] == MARKER_STEM[0];
    } else {
      NotComplete(unfinished, 1);
      assert s[0] == unfinished[0];
    }
  }

  /** Any other unfinished sequence is finished by the marker's first characters, as a longer event. */
  lemma Finishes(unfinished: string)
    requires Pending(unfinished) && !Absorbs(unfinished)
    ensures var extracted := Extract(unfinished + MARKER_STEM);
            extracted.sequences != [] && |extracted.sequences[0]| > 1
  {
    var s := unfinished + MARKER_STEM;
    var n := |unfinished|;
    NotComplete(unfinished, n);
    assert s[0] == ESC && s[..1] == [ESC];
    var k := FinishedAt(unfinished);
    hide Absorbs;
    assert !IsCompleteSequence(s[..1]).Complete?;
    hide IsCompleteSequence;
    assert SequenceEnd(s, 1).Some?;
    StepOver(s, SequenceEnd(s, 1).value);
  }

  lemma FinishedAt(unfinished: string) returns (k: nat)
    requires Pending(unfinished) && !Absorbs(unfinished)
    ensures 1 <= k <= |unfinished| + |MARKER_STEM| && IsCompleteSequence((unfinished + MARKER_STEM)[..k]).Complete?
  {
    var s, n := unfinished + MARKER_STEM, |unfinished|;
    NotComplete(unfinished, n);
    assert unfinished[..n] == unfinished;
    hide Extract;
    assert forall i :: 0 <= i < n ==> s[i] == unfinished[i];
    assert s[n] == ESC && s[n + 1] == '[';
    if n == 1 {
      k := 2;
      assert s[..2][1] == ESC;
    } else if unfinished[1] == 'O' {
      k := 3;
    } else if n >= 3 && unfinished[2] == 'M' {
      k := 6;
    } else {
      k := n + 2;
      var t := s[..k];
      assert t[k - 1] == '[' && t[0] == ESC && t[1] == unfinished[1] == '[' && t[2] == s[2];
    }
  }

  /** A marker that is complete only with `b` starts no earlier than what extraction has left of `x`. */
  lemma MarkerInRemainder(x: string, b: string, i: nat)
    requires Occurs(x + b, PASTE_START, i) && |x| < i + 6
    requires Absorbs(Extract((x + b)[..i]).remainder)
    ensures var rest := Extract(x).remainder;
            var before := Extract((x + b)[..i]);
            && |x| - |rest| <= i <= |x| - |rest| + |rest + b|
            && before == After(Extract(x).sequences, Extract((rest + b)[..i - (|x| - |rest|)]))
  {
    hide Extract;
    hide Absorbs;
    hide After;
    if |x| <= i {
      MarkerAfter(x, b, i);
    } else {
      MarkerAcross(x, b, i);
    }
  }

  lemma MarkerAfter(x: string, b: string, i: nat)
    requires |x| <= i <= |x + b|
    ensures var rest := Extract(x).remainder;
            Extract((x + b)[..i]) == After(Extract(x).sequences, Extract((rest + b)[..i - (|x| - |rest|)]))
  {
    hide Extract;
    var rest := Extract(x).remainder;
    ExtractSplits(x, b[..i - |x|]);
    assert (x + b)[..i] == x + b[..i - |x|];
    assert (rest + b)[..i - (|x| - |rest|)] == rest + b[..i - |x|];
  }

  lemma MarkerAcross(x: string, b: string, i: nat)
    requires Occurs(x + b, PASTE_START, i) && i < |x| < i + 6
    requires Absorbs(Extract((x + b)[..i]).remainder)
    ensures var rest := Extract(x).remainder;
            && |x| - |rest| <= i
            && Extract((x + b)[..i]) == After(Extract(x).sequences, Extract((rest + b)[..i - (|x| - |rest|)]))
  {
    hide Extract;
    hide Absorbs;
    var before, m := (x + b)[..i], |x| - i;
    StemOf(x, b, i);
    hide Occurs;
    SplitInStem(before, m);
    var unfinished := Extract(before).remainder;
    assert Extract(x).remainder == unfinished + MARKER_STEM[..m] && |x| == |before| + m;
    TakeFront(unfinished, MARKER_STEM[..m], b);
  }

  lemma TakeFront(a: string, b: string, c: string)
    ensures (a + b + c)[..|a|] == a
  {
  }

  lemma StemOf(x: string, b: string, i: nat)
    requires Occurs(x + b, PASTE_START, i) && i <= |x| < i + 6
    ensures x == (x + b)[..i] + MARKER_STEM[..|x| - i]
  {
    var y, m := x + b, |x| - i;
    assert y[i..i + 6][..m] == PASTE_START[..m] == MARKER_STEM[..m];
    assert x == y[..i] + y[i..i + 6][..m];
  }

  /** Where the text before a marker absorbs it, a part of the marker only lengthens the remainder. */
  lemma SplitInStem(before: string, m: nat)
    requires Absorbs(Extract(before).remainder) && m <= |MARKER_STEM|
    ensures Extract(before + MARKER_STEM[..m])
            == Extracted(Extract(before).sequences, Extract(before).remainder + MARKER_STEM[..m])
    ensures Extract(Extract(before).remainder) == Extracted([], Extract(before).remainder)
  {
    hide Extract;
    hide Absorbs;
    RemainderSettled(before);
    ExtractSplits(before, MARKER_STEM[..m]);
    AbsorbedExtract(Extract(before).remainder, m);
  }

  lemma AbsorbedExtract(unfinished: string, m: nat)
    requires Extract(unfinished) == Extracted([], unfinished) && Absorbs(unfinished) && m <= |MARKER_STEM|
    ensures Extract(unfinished + MARKER_STEM[..m]) == Extracted([], unfinished + MARKER_STEM[..m])
  {
    hide Extract;
    hide Absorbs;
    Absorbed(unfinished, m);
  }

  lemma PrefixTwice(a: seq<Event>, b: seq<Event>, output: Output)
    ensures Prefixed(a + b, output) == Prefixed(a, Prefixed(b, output))
  {
  }

  // The cases of one chunk

  ghost function Plain(st: State, x: Extracted): Output {
    Output(State(x.remainder, false, st.pasteBuffer, PendingAfterAll(st.pending, x.sequences)),
      EventsOfAll(st.pending, x.sequences))
  }

  lemma ProcessedPlain(st: State, chunk: string, x: string)
    requires !st.pasteMode && x == st.buffer + chunk && x != "" && Find(x, PASTE_START).None?
    ensures Processed(st, chunk) == Plain(st, Extract(x))
  {
  }

  lemma PlainAfter(st: State, sequences: seq<string>, remainder: string, more: Extracted)
    ensures var first := Plain(st, Extracted(sequences, remainder));
            Plain(st, After(sequences, more)) == Prefixed(first.events, Plain(first.state, more))
  {
    hide PendingAfterAll;
    hide EventsOfAll;
    EmitConcat(st.pending, sequences, more.sequences);
  }

  lemma ProcessedStart(st: State, chunk: string, x: string, i: nat)
    requires !st.pasteMode && x == st.buffer + chunk && Find(x, PASTE_START) == Some(i)
    ensures Processed(st, chunk)
            == Prefixed(EventsOfAll(st.pending, Extract(x[..i]).sequences), Pasted(x[i + 6..], None))
  {
    hide Find;
    hide Extract;
    hide EventsOfAll;
    hide PendingAfterAll;
    hide Pasted;
    hide Prefixed;
  }

  lemma CleanPlain(st: State, chunk: string, x: string)
    requires !st.pasteMode && x == st.buffer + chunk && Find(x, PASTE_START).None?
    ensures Clean(st, chunk)
  {
  }

  lemma CleanStart(st: State, chunk: string, x: string, i: nat)
    requires !st.pasteMode && x == st.buffer + chunk && Find(x, PASTE_START) == Some(i)
    ensures Clean(st, chunk) <==> Absorbs(Extract(x[..i]).remainder) && CleanPaste(x[i + 6..])
  {
    hide Find;
    hide Extract;
    hide Absorbs;
    hide CleanPaste;
  }

  /** A chunk that ends inside a paste, or just after one. */
  lemma PasteSplits(text: string, pending: Option<nat>, b: string)
    requires b != "" && CleanPaste(text + b)
    ensures Pasted(text + b, pending) == Then(Pasted(text, pending), b)
    ensures Settled(Pasted(text, pending).state) && Clean(Pasted(text, pending).state, b)
    decreases |text| + |b|, 0
  {
    hide Find;
    hide Processed;
    hide Clean;
    FindGrows(text, PASTE_END, b);
    var end := Find(text, PASTE_END);
    if end.Some? {
      var e := end.value;
      var rest := text[e + 6..];
      PasteEnds(text, pending, e);
      PasteEnds(text + b, pending, e);
      hide Pasted;
      hide CleanPaste;
      SliceSum(text, b, e);
      SliceSum(text, b, e + 6);
      StartSettled();
      hide Settled;
      if rest == "" {
        assert rest + b == b;
      } else {
        Splits(START_STATE, rest, b);
        PrefixTwice([Paste(text[..e])], Processed(START_STATE, rest).events,
          Processed(Processed(START_STATE, rest).state, b));
      }
    } else {
      PasteGoesOn(text, pending, b);
    }
  }

  lemma PasteEnds(text: string, pending: Option<nat>, e: nat)
    requires Find(text, PASTE_END) == Some(e)
    ensures var rest := text[e + 6..];
            && Pasted(text, pending)
               == Prefixed([Paste(text[..e])],
                 if rest == "" then Output(START_STATE, []) else Processed(START_STATE, rest))
            && (CleanPaste(text) <==> Clean(START_STATE, rest))
  {
    hide Find;
    hide Processed;
    hide Clean;
    hide Prefixed;
  }

  lemma PasteGoesOn(text: string, pending: Option<nat>, chunk: string)
    requires Find(text, PASTE_END).None? && chunk != ""
    ensures Pasted(text, pending) == Output(State("", true, text, pending), [])
    ensures Processed(State("", true, text, pending), chunk) == Pasted(text + chunk, pending)
    ensures Clean(State("", true, text, pending), chunk) <==> CleanPaste(text + chunk)
  {
    hide Find;
    assert "" + chunk == chunk;
  }

  lemma StartSettled()
    ensures Settled(START_STATE)
  {
  }

  /** Two chunks do what their concatenation does in one. */
  lemma Splits(st: State, a: string, b: string)
    requires Settled(st) && a != "" && b != "" && Clean(st, a + b)
    ensures Processed(st, a + b) == Then(Processed(st, a), b)
    ensures Settled(Processed(st, a).state) && Clean(Processed(st, a).state, b)
    decreases |st.pasteBuffer| + |st.buffer| + |a| + |b|, 1
  {
    var x := st.buffer + a;
    assert st.buffer + (a + b) == x + b;
    if st.pasteMode {
      var text := st.pasteBuffer + x;
      assert text + b == st.pasteBuffer + (x + b);
      PasteSplits(text, st.pending, b);
    } else if Find(x, PASTE_START).Some? {
      SplitsAfterStart(st, a, b);
    } else {
      SplitsBeforeStart(st, a, b);
    }
  }

  lemma SplitsAfterStart(st: State, a: string, b: string)
    requires Settled(st) && b != "" && Clean(st, a + b) && !st.pasteMode && Find(st.buffer + a, PASTE_START).Some?
    ensures Processed(st, a + b) == Then(Processed(st, a), b)
    ensures Settled(Processed(st, a).state) && Clean(Processed(st, a).state, b)
    decreases |st.pasteBuffer| + |st.buffer| + |a| + |b|, 0
  {
    hide Find;
    hide Settled;
    hide Extract;
    var x := st.buffer + a;
    var i := Find(x, PASTE_START).value;
    assert st.buffer + (a + b) == x + b;
    FindGrows(x, PASTE_START, b);
    ProcessedStart(st, a, x, i);
    ProcessedStart(st, a + b, x + b, i);
    CleanStart(st, a, x, i);
    CleanStart(st, a + b, x + b, i);
    hide Processed;
    hide Pasted;
    hide Clean;
    hide CleanPaste;
    assert (x + b)[..i] == x[..i] && (x + b)[i + 6..] == x[i + 6..] + b;
    PasteSplits(x[i + 6..], None, b);
    var paste := Pasted(x[i + 6..], None);
    PrefixTwice(EventsOfAll(st.pending, Extract(x[..i]).sequences), paste.events, Processed(paste.state, b));
  }

  /** Without a marker in the first chunk, what it leaves is settled. */
  lemma FirstSettles(st: State, a: string, x: string)
    requires Settled(st) && !st.pasteMode && x == st.buffer + a && x != "" && Find(x, PASTE_START).None?
    ensures Processed(st, a) == Plain(st, Extract(x)) && Settled(Processed(st, a).state)
  {
    hide Find;
    hide Extract;
    hide EventsOfAll;
    hide PendingAfterAll;
    hide Processed;
    ProcessedPlain(st, a, x);
    RemainderSettled(x);
    FindInSuffix(x, PASTE_START, |x| - |Extract(x).remainder|);
  }

  lemma SplitsPlain(st: State, a: string, b: string, x: string)
    requires Settled(st) && b != "" && !st.pasteMode && x == st.buffer + a && x != "" && Find(x + b, PASTE_START).None?
    ensures Processed(st, a + b) == Then(Processed(st, a), b)
    ensures Settled(Processed(st, a).state) && Clean(Processed(st, a).state, b)
  {
    hide Find;
    hide Extract;
    hide EventsOfAll;
    hide PendingAfterAll;
    hide Settled;
    hide Processed;
    var rest := Extract(x).remainder;
    var q := |x| - |rest|;
    FindGrows(x, PASTE_START, b);
    FirstSettles(st, a, x);
    RemainderSettled(x);
    assert rest + b == (x + b)[q..];
    FindInSuffix(x + b, PASTE_START, q);
    assert st.buffer + (a + b) == x + b;
    ProcessedPlain(st, a + b, x + b);
    CleanPlain(Processed(st, a).state, b, rest + b);
    hide Clean;
    hide CleanPaste;
    ExtractSplits(x, b);
    var next := Plain(st, Extract(x)).state;
    ProcessedPlain(next, b, rest + b);
    PlainAfter(st, Extract(x).sequences, rest, Extract(rest + b));
  }

  lemma SplitsInMarker(st: State, a: string, b: string, x: string, i: nat)
    requires Settled(st) && b != "" && Clean(st, a + b) && !st.pasteMode && x == st.buffer + a && x != ""
    requires Find(x, PASTE_START).None? && Find(x + b, PASTE_START) == Some(i)
    ensures Processed(st, a + b) == Then(Processed(st, a), b)
    ensures Settled(Processed(st, a).state) && Clean(Processed(st, a).state, b)
  {
    hide Extract;
    hide Find;
    hide EventsOfAll;
    hide PendingAfterAll;
    hide Settled;
    hide Processed;
    hide Clean;
    hide CleanPaste;
    hide Absorbs;
    hide Pasted;
    hide Plain;
    hide After;
    var y, rest := x + b, Extract(x).remainder;
    var q := |x| - |rest|;
    FindGrows(x, PASTE_START, b);
    FirstSettles(st, a, x);
    RemainderSettled(x);
    assert st.buffer + (a + b) == y && rest + b == y[q..];
    CleanStart(st, a + b, y, i);
    MarkerInRemainder(x, b, i);
    var more := Extract((rest + b)[..i - q]);
    FindInSuffix(y, PASTE_START, q);
    assert y[q..][i - q + 6..] == y[i + 6..];
    MarkerStartsPaste(st, a, b, x, i, q, more);
  }

  lemma MarkerStartsPaste(st: State, a: string, b: string, x: string, i: nat, q: nat, more: Extracted)
    requires !st.pasteMode && st.buffer + (a + b) == x + b && Find(x + b, PASTE_START) == Some(i)
    requires q <= |x| && Extract(x).remainder == x[q..] && Processed(st, a) == Plain(st, Extract(x)) && Clean(st, a + b)
    requires q <= i && x[q..] + b == (x + b)[q..] && Find(x[q..] + b, PASTE_START) == Some(i - q)
    requires more == Extract((x[q..] + b)[..i - q]) && Extract((x + b)[..i]) == After(Extract(x).sequences, more)
    requires (x[q..] + b)[i - q + 6..] == (x + b)[i + 6..]
    ensures Processed(st, a + b) == Then(Processed(st, a), b) && Clean(Processed(st, a).state, b)
  {
    hide Find;
    hide Extract;
    hide EventsOfAll;
    hide PendingAfterAll;
    hide Processed;
    hide Pasted;
    hide Clean;
    hide CleanPaste;
    hide Absorbs;
    var y, rest := x + b, x[q..] + b;
    var first := Plain(st, Extract(x));
    CleanStart(st, a + b, y, i);
    CleanStart(first.state, b, rest, i - q);
    ProcessedStart(st, a + b, y, i);
    ProcessedStart(first.state, b, rest, i - q);
    EmitConcat(st.pending, Extract(x).sequences, more.sequences);
    PrefixTwice(first.events, EventsOfAll(first.state.pending, more.sequences), Pasted(y[i + 6..], None));
  }

  lemma SplitsBeforeStart(st: State, a: string, b: string)
    requires Settled(st) && a != "" && b != "" && Clean(st, a + b) && !st.pasteMode
             && Find(st.buffer + a, PASTE_START).None?
    ensures Processed(st, a + b) == Then(Processed(st, a), b)
    ensures Settled(Processed(st, a).state) && Clean(Processed(st, a).state, b)
  {
    hide Settled;
    hide Clean;
    hide Processed;
    match Find(st.buffer + a + b, PASTE_START)
    case None => SplitsPlain(st, a, b, st.buffer + a);
    case Some(i) => SplitsInMarker(st, a, b, st.buffer + a, i);
  }

  /** Every chunk leaves a settled state, whatever it holds. */
  lemma StaysSettled(st: State, chunk: string)
    requires Settled(st)
    ensures Settled(Processed(st, chunk).state)
    decreases |st.pasteBuffer| + |st.buffer| + |chunk|, 1
  {
    hide Find;
    hide Extract;
    var x := st.buffer + chunk;
    if x == "" {
    } else if st.pasteMode {
      PasteSettles(st.pasteBuffer + x, st.pending);
    } else if Find(x, PASTE_START).Some? {
      var i := Find(x, PASTE_START).value;
      ProcessedStart(st, chunk, x, i);
      PasteSettles(x[i + 6..], None);
    } else {
      FirstSettles(st, chunk, x);
    }
  }

  lemma PasteSettles(text: string, pending: Option<nat>)
    ensures Settled(Pasted(text, pending).state)
    decreases |text|, 0
  {
    hide Find;
    StartSettled();
    match Find(text, PASTE_END)
    case None =>
    case Some(e) =>
      PasteEnds(text, pending, e);
      StaysSettled(START_STATE, text[e + 6..]);
  }

  // A sequence that runs on into a marker

  lemma FirstEvent(pending: Option<nat>, sequences: seq<string>)
    requires sequences != [] && |sequences[0]| > 1
    ensures EventsOfAll(pending, sequences) != [] && EventsOfAll(pending, sequences)[0].Data?
  {
  }

  lemma PasteFirst(text: string, pending: Option<nat>)
    ensures Pasted(text, pending).events != [] ==> Pasted(text, pending).events[0].Paste?
  {
    hide Find;
    hide Processed;
  }

  lemma Differ(before: seq<Event>, data: seq<Event>, more: seq<Event>, paste: seq<Event>)
    requires data != [] && data[0].Data? && (paste != [] ==> paste[0].Paste?)
    ensures before + data + more != before + paste
  {
    assert (before + data + more)[|before|] == data[0];
    if paste != [] {
      assert (before + paste)[|before|] == paste[0];
    }
  }

  lemma SamePrefix(before: seq<Event>, a: seq<Event>, b: seq<Event>)
    requires a != b
    ensures before + a != before + b
  {
    assert (before + a)[|before|..] == a && (before + b)[|before|..] == b;
  }

  /** Stopping just short of the marker's last character lets the sequence before it be finished. */
  lemma StemRunsOn(st: State, a: string, before: string)
    requires Settled(st) && !st.pasteMode && st.buffer + a == before + MARKER_STEM
    requires !Absorbs(Extract(before).remainder) && Find(before + MARKER_STEM, PASTE_START).None?
    ensures a != ""
    ensures exists data: seq<Event> ::
            data != [] && data[0].Data?
              && Processed(st, a).events == EventsOfAll(st.pending, Extract(before).sequences) + data
  {
    var unfinished := Extract(before).remainder;
    var more := Extract(unfinished + MARKER_STEM);
    RemainderSettled(before);
    Finishes(unfinished);
    ExtractSplits(before, MARKER_STEM);
    assert st.buffer + "" == st.buffer;
    hide Absorbs;
    hide Find;
    ProcessedPlain(st, a, before + MARKER_STEM);
    hide Extract;
    hide Processed;
    hide Settled;
    EmitConcat(st.pending, Extract(before).sequences, more.sequences);
    FirstEvent(PendingAfterAll(st.pending, Extract(before).sequences), more.sequences);
    hide EventsOfAll;
    hide PendingAfterAll;
  }

  /** A paste after which a sequence runs on into a marker can be split so that it tells. */
  lemma PasteTellsApart(text: string) returns (a: string, b: string)
    requires !CleanPaste(text)
    ensures a + b == text && b != "" && Find(text, PASTE_END).Some? && |a| > Find(text, PASTE_END).value + 6
    ensures forall pending :: Then(Pasted(a, pending), b).events != Pasted(text, pending).events
    decreases |text|, 0
  {
    var e := Find(text, PASTE_END).value;
    var rest, front := text[e + 6..], text[..e + 6];
    PasteEnds(text, None, e);
    StartSettled();
    hide CleanPaste;
    hide Find;
    hide Clean;
    hide Settled;
    var c;
    c, b := TellsApart(START_STATE, rest);
    a := front + c;
    PasteFront(text, e, c, b);
    forall pending
      ensures Then(Pasted(a, pending), b).events != Pasted(text, pending).events
    {
      PasteEnds(text, pending, e);
      PasteEnds(a, pending, e);
      hide Pasted;
      hide Processed;
      var first := Processed(START_STATE, c);
      PrefixTwice([Paste(text[..e])], first.events, Processed(first.state, b));
      SamePrefix([Paste(text[..e])], Then(first, b).events, Processed(START_STATE, rest).events);
    }
  }

  lemma PasteFront(text: string, e: nat, c: string, b: string)
    requires Find(text, PASTE_END) == Some(e) && text[e + 6..] == c + b && c != ""
    ensures Find(text[..e + 6] + c, PASTE_END) == Some(e)
    ensures (text[..e + 6] + c)[..e] == text[..e] && (text[..e + 6] + c)[e + 6..] == c && text[..e + 6] + c + b == text
  {
    hide Find;
    FindInPrefix(text, PASTE_END, e + 6);
    FindGrows(text[..e + 6], PASTE_END, c);
    assert text == text[..e + 6] + text[e + 6..];
    assert text[..e + 6] + c + b == text[..e + 6] + (c + b);
  }

  /** A chunk in which a sequence runs on into a marker can be split so that it tells. */
  lemma TellsApart(st: State, chunk: string) returns (a: string, b: string)
    requires Settled(st) && !Clean(st, chunk)
    ensures a + b == chunk && a != "" && b != "" && Then(Processed(st, a), b).events != Processed(st, chunk).events
    decreases |st.pasteBuffer| + |st.buffer| + |chunk|, 2
  {
    var x := st.buffer + chunk;
    if st.pasteMode {
      a, b := InPasteTellsApart(st, chunk);
    } else {
      var i := Find(x, PASTE_START).value;
      CleanStart(st, chunk, x, i);
      if Absorbs(Extract(x[..i]).remainder) {
        a, b := PasteAheadTellsApart(st, chunk, x, i);
      } else {
        a, b := MarkerTellsApart(st, chunk, x, i);
      }
    }
  }

  lemma InPasteTellsApart(st: State, chunk: string) returns (a: string, b: string)
    requires Settled(st) && st.pasteMode && !Clean(st, chunk)
    ensures a + b == chunk && a != "" && b != "" && Then(Processed(st, a), b).events != Processed(st, chunk).events
    decreases |st.pasteBuffer| + |st.buffer| + |chunk|, 1
  {
    var text := st.pasteBuffer + chunk;
    assert "" + chunk == chunk;
    var front;
    front, b := PasteTellsApart(text);
    FindGrows(st.pasteBuffer, PASTE_END, chunk);
    a := front[|st.pasteBuffer|..];
    assert front == st.pasteBuffer + a && chunk == a + b by { CutFront(st.pasteBuffer, chunk, front, b); }
    hide Find;
    PasteGoesOn(st.pasteBuffer, st.pending, a);
    PasteGoesOn(st.pasteBuffer, st.pending, chunk);
  }

  lemma CutFront(a: string, b: string, c: string, d: string)
    requires a + b == c + d && |a| <= |c|
    ensures c == a + c[|a|..] && b == c[|a|..] + d
  {
    assert c == (c + d)[..|c|] && a == (a + b)[..|a|] && b == (a + b)[|a|..];
  }

  lemma PasteAheadTellsApart(st: State, chunk: string, x: string, i: nat) returns (a: string, b: string)
    requires Settled(st) && !st.pasteMode && x == st.buffer + chunk && Find(x, PASTE_START) == Some(i)
    requires !CleanPaste(x[i + 6..])
    ensures a + b == chunk && a != "" && b != "" && Then(Processed(st, a), b).events != Processed(st, chunk).events
    decreases |st.pasteBuffer| + |st.buffer| + |chunk|, 0
  {
    hide CleanPaste;
    hide Find;
    hide Processed;
    hide Pasted;
    hide Extract;
    hide EventsOfAll;
    var c;
    c, b := PasteTellsApart(x[i + 6..]);
    var front := x[..i + 6] + c;
    FindInPrefix(x, PASTE_START, i + 6);
    FindGrows(x[..i + 6], PASTE_START, c);
    assert st.buffer + chunk == front + b by { assert x == x[..i + 6] + x[i + 6..]; }
    FindGrows(st.buffer, PASTE_START, chunk);
    assert Find(st.buffer, PASTE_START).None?;
    hide Settled;
    CutFront(st.buffer, chunk, front, b);
    a := front[|st.buffer|..];
    assert front[..i] == x[..i] && front[i + 6..] == c;
    ProcessedStart(st, chunk, x, i);
    ProcessedStart(st, a, front, i);
    var typed, paste := EventsOfAll(st.pending, Extract(x[..i]).sequences), Pasted(c, None);
    PrefixTwice(typed, paste.events, Processed(paste.state, b));
    SamePrefix(typed, Then(paste, b).events, Pasted(x[i + 6..], None).events);
  }

  lemma MarkerTellsApart(st: State, chunk: string, x: string, i: nat) returns (a: string, b: string)
    requires Settled(st) && !st.pasteMode && x == st.buffer + chunk && Find(x, PASTE_START) == Some(i)
    requires !Absorbs(Extract(x[..i]).remainder)
    ensures a + b == chunk && a != "" && b != "" && Then(Processed(st, a), b).events != Processed(st, chunk).events
  {
    hide Extract;
    hide Absorbs;
    var before, tail := x[..i], x[i + 5..];
    assert x == before + MARKER_STEM + tail by {
      assert x[i..i + 6] == PASTE_START && x[i..i + 6][..5] == MARKER_STEM;
      assert x == x[..i] + x[i..i + 6][..5] + x[i + 5..];
    }
    FindGrows(before + MARKER_STEM, PASTE_START, tail);
    FindGrows(st.buffer, PASTE_START, chunk);
    hide Find;
    CutFront(st.buffer, chunk, before + MARKER_STEM, tail);
    a, b := (before + MARKER_STEM)[|st.buffer|..], tail;
    StemRunsOn(st, a, before);
    ProcessedStart(st, chunk, x, i);
    hide Settled;
    hide Processed;
    hide Pasted;
    hide EventsOfAll;
    var typed := EventsOfAll(st.pending, Extract(before).sequences);
    var data: seq<Event> :| data != [] && data[0].Data? && Processed(st, a).events == typed + data;
    PasteFirst(x[i + 6..], None);
    Differ(typed, data, Processed(Processed(st, a).state, b).events, Pasted(x[i + 6..], None).events);
  }

  // Any number of chunks

  ghost function Run(st: State, chunks: seq<string>): Output
    decreases |chunks|
  {
    if chunks == [] then Output(st, [])
    else Prefixed(Processed(st, chunks[0]).events, Run(Processed(st, chunks[0]).state, chunks[1..]))
  }

  ghost predicate IsSplit(chunks: seq<string>, input: string) {
    Flatten(chunks) == input && forall k :: 0 <= k < |chunks| ==> chunks[k] != ""
  }

  lemma {:induction false} SplitRuns(st: State, chunks: seq<string>, input: string)
    requires Settled(st) && input != "" && Clean(st, input) && IsSplit(chunks, input)
    ensures Run(st, chunks) == Processed(st, input)
    decreases |chunks|
  {
    hide Settled;
    hide Clean;
    hide Processed;
    var rest := Flatten(chunks[1..]);
    assert input == chunks[0] + rest;
    var first := Processed(st, chunks[0]);
    if |chunks| == 1 {
      assert input == chunks[0];
      assert Run(first.state, chunks[1..]) == Output(first.state, []);
    } else {
      assert chunks[1..][0] != "";
      Splits(st, chunks[0], rest);
      SplitRuns(first.state, chunks[1..], rest);
    }
  }

  /**
    Chunk independence, and exactly when: every split of the input into non-empty chunks gives the
    events of the whole if and only if no sequence runs on into a paste-start marker.
  */
  lemma ChunkIndependence(st: State, input: string)
    requires Settled(st) && input != ""
    ensures Clean(st, input)
            <==> forall chunks :: IsSplit(chunks, input) ==> Run(st, chunks).events == Processed(st, input).events
    ensures Clean(st, input) ==> forall chunks :: IsSplit(chunks, input) ==> Run(st, chunks) == Processed(st, input)
  {
    hide Settled;
    hide Clean;
    hide Processed;
    hide Run;
    hide IsSplit;
    if Clean(st, input) {
      forall chunks | IsSplit(chunks, input)
        ensures Run(st, chunks) == Processed(st, input)
      {
        SplitRuns(st, chunks, input);
      }
    } else {
      var chunks := SplitDiffers(st, input);
    }
  }

  lemma SplitDiffers(st: State, input: string) returns (chunks: seq<string>)
    requires Settled(st) && input != "" && !Clean(st, input)
    ensures IsSplit(chunks, input) && Run(st, chunks).events != Processed(st, input).events
  {
    hide Settled;
    hide Clean;
    hide Processed;
    var a, b := TellsApart(st, input);
    chunks := [a, b];
    assert chunks[1..] == [b] && [b][1..] == [];
    assert b + "" == b;
    assert Flatten([b]) == b && Flatten(chunks) == a + Flatten([b]);
    var first := Processed(st, a);
    assert Run(first.state, [b]).events == Processed(first.state, b).events;
    assert Run(st, chunks).events == Then(first, b).events;
  }

  /**
    An escape key and a paste right after it: the marker's start can make up a sequence with the escape, if
    the input is cut there.
  */
  lemma EscapeBeforePaste() returns (chunks: seq<string>)
    ensures Settled(START_STATE) && !Clean(START_STATE, [ESC] + PASTE_START)
    ensures IsSplit(chunks, [ESC] + PASTE_START)
    ensures Run(START_STATE, chunks).events != Processed(START_STATE, [ESC] + PASTE_START).events
  {
    var input := [ESC] + PASTE_START;
    StartSettled();
    assert input[0..6][1] == ESC && input[1..7] == PASTE_START;
    FindIs(input, PASTE_START, 1);
    assert input[..1] == [ESC] && Extract([ESC]).remainder == [ESC];
    assert START_STATE.buffer + input == input;
    CleanStart(START_STATE, input, input, 1);
    chunks := SplitDiffers(START_STATE, input);
  }

  class InputBuffer {
    var buffer: string
    var pasteMode: bool
    var pasteBuffer: string
    var pendingKittyPrintableCodepoint: Option<nat>
    ghost var events: seq<Event>

    constructor ()
      ensures Now() == START_STATE && events == []
    {
      buffer, pasteMode, pasteBuffer, pendingKittyPrintableCodepoint, events := "", false, "", None, [];
    }

    function Now(): State
      reads this
    {
      State(buffer, pasteMode, pasteBuffer, pendingKittyPrintableCodepoint)
    }

    method EmitDataSequence(sequence: string)
      modifies `pendingKittyPrintableCodepoint, `events
      ensures pendingKittyPrintableCodepoint == PendingAfter(old(pendingKittyPrintableCodepoint), sequence)
      ensures events == old(events) + EventsOf(old(pendingKittyPrintableCodepoint), sequence)
    {
      if |sequence| == 1 && pendingKittyPrintableCodepoint == Some(sequence[0] as int) {
        pendingKittyPrintableCodepoint := None;
        return;
      }
      pendingKittyPrintableCodepoint := KittyPrintable(sequence);
      events := events + [Data(sequence)];
    }

    method EmitAll(sequences: seq<string>)
      modifies `pendingKittyPrintableCodepoint, `events
      ensures pendingKittyPrintableCodepoint == PendingAfterAll(old(pendingKittyPrintableCodepoint), sequences)
      ensures events == old(events) + EventsOfAll(old(pendingKittyPrintableCodepoint), sequences)
    {
      ghost var rest := sequences;
      hide PendingAfter;
      hide EventsOf;
      for i := 0 to |sequences|
        invariant rest == sequences[i..]
        invariant PendingAfterAll(pendingKittyPrintableCodepoint, rest)
                  == PendingAfterAll(old(pendingKittyPrintableCodepoint), sequences)
        invariant events + EventsOfAll(pendingKittyPrintableCodepoint, rest)
               == old(events) + EventsOfAll(old(pendingKittyPrintableCodepoint), sequences)
      {
        EmitDataSequence(sequences[i]);
        rest := rest[1..];
      }
    }

    /** `process`. */
    method Process(data: string)
      modifies this
      ensures var output := Processed(old(Now()), data);
              Now() == output.state && events == old(events) + output.events
      decreases |pasteBuffer| + |buffer| + |data|, 1
    {
      hide Find;
      hide Extract;
      hide EventsOfAll;
      hide PendingAfterAll;
      hide EventsOf;
      hide PendingAfter;
      hide Pasted;
      if |data| == 0 && |buffer| == 0 {
        EmitDataSequence("");
        return;
      }
      buffer := buffer + data;
      if pasteMode {
        pasteBuffer := pasteBuffer + buffer;
        buffer := "";
        TakePaste();
        return;
      }
      var start := Find(buffer, PASTE_START);
      if start.Some? {
        ghost var typed := EventsOfAll(pendingKittyPrintableCodepoint, Extract(buffer[..start.value]).sequences);
        NothingTyped(pendingKittyPrintableCodepoint);
        if start.value > 0 {
          var result := ExtractCompleteSequences(buffer[..start.value]);
          EmitAll(result.sequences);
        }
        assert events == old(events) + typed;
        pendingKittyPrintableCodepoint := None;
        pasteMode := true;
        pasteBuffer := buffer[start.value + |PASTE_START|..];
        buffer := "";
        ghost var before := old(events);
        ghost var more := Pasted(pasteBuffer, None).events;
        TakePaste();
        assert before + typed + more == before + (typed + more);
        return;
      }
      var result := ExtractCompleteSequences(buffer);
      buffer := result.remainder;
      EmitAll(result.sequences);
    }

    /** Ends the paste once its end marker has arrived, and goes on with what follows. */
    method TakePaste()
      requires pasteMode && buffer == ""
      modifies this
      ensures var output := Pasted(old(pasteBuffer), old(pendingKittyPrintableCodepoint));
              Now() == output.state && events == old(events) + output.events
      decreases |pasteBuffer|, 0
    {
      hide Find;
      hide Processed;
      var end := Find(pasteBuffer, PASTE_END);
      if end.Some? {
        var pastedContent, remaining := pasteBuffer[..end.value], pasteBuffer[end.value + |PASTE_END|..];
        pasteMode := false;
        pasteBuffer := "";
        pendingKittyPrintableCodepoint := None;
        events := events + [Paste(pastedContent)];
        if |remaining| > 0 {
          Process(remaining);
        }
      }
    }
  }
}
