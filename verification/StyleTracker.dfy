/**
  The style tracker (`AnsiCodeTracker`): which SGR attributes (section 8.3.117 of ECMA-48) and which
  OSC 8 hyperlink are active. Printing a state and reading the print back gives the state again.
*/
module StyleTracker {
  import opened Basics
  import opened AnsiScanner

  /** The terminator is remembered, for a terminal may know links with only one of the two. */
  datatype Hyperlink = Hyperlink(params: string, url: string, bel: bool)

  datatype Attributes = Attributes(
    bold: bool, dim: bool, italic: bool, underline: bool,
    blink: bool, inverse: bool, hidden: bool, strikethrough: bool)

  datatype Style = Style(attributes: Attributes, fgColor: Option<string>, bgColor: Option<string>,
      link: Option<Hyperlink>)

  const NO_ATTRIBUTES := Attributes(false, false, false, false, false, false, false, false)

  const PLAIN := Style(NO_ATTRIBUTES, None, None, None)

  const OSC8: string := [ESC, ']', '8', ';']

  predicate IsDigit(c: char) { '0' <= c <= '9' }

  predicate IsSgrByte(c: char) { IsDigit(c) || c == ';' }

  predicate AllSgr(s: string) {
    forall i :: 0 <= i < |s| ==> IsSgrByte(s[i])
  }

  function Split(s: string, sep: char): (parts: seq<string>)
    ensures |parts| >= 1
  {
    if s == [] then [""]
    else if s[0] == sep then [""] + Split(s[1..], sep)
    else
      var rest := Split(s[1..], sep);
      [[s[0]] + rest[0]] + rest[1..]
  }

  function Join(parts: seq<string>, sep: char): string {
    if parts == [] then "" else if |parts| == 1 then parts[0] else parts[0] + [sep] + Join(parts[1..], sep)
  }

  predicate AllDigits(s: string) {
    forall i :: 0 <= i < |s| ==> IsDigit(s[i])
  }

  function DigitValue(c: char): nat
    requires IsDigit(c)
  {
    c as int - '0' as int
  }

  function DigitsValue(s: string): nat
    requires AllDigits(s)
  {
    if s == "" then 0 else 10 * DigitsValue(s[..|s| - 1]) + DigitValue(s[|s| - 1])
  }

  /** `Number.parseInt` of a parameter, which holds digits only; an empty one is not a number. */
  function ParseInt(s: string): Option<nat> {
    if s == "" || !AllDigits(s) then None else Some(DigitsValue(s))
  }

  function Decimal(n: nat): (s: string)
    ensures s != "" && AllDigits(s)
  {
    if n < 10 then [('0' as int + n) as char] else Decimal(n / 10) + [('0' as int + n % 10) as char]
  }

  /** Parameters that turn an attribute on. */
  function TurnOn(a: Attributes, n: nat): Attributes {
    if n == 1 then a.(bold := true)
    else if n == 2 then a.(dim := true)
    else if n == 3 then a.(italic := true)
    else if n == 4 then a.(underline := true)
    else if n == 5 then a.(blink := true)
    else if n == 7 then a.(inverse := true)
    else if n == 8 then a.(hidden := true)
    else if n == 9 then a.(strikethrough := true)
    else a
  }

  /** Parameters that turn an attribute off. */
  function TurnOff(a: Attributes, n: nat): Attributes {
    if n == 21 then a.(bold := false)
    else if n == 22 then a.(bold := false, dim := false)
    else if n == 23 then a.(italic := false)
    else if n == 24 then a.(underline := false)
    else if n == 25 then a.(blink := false)
    else if n == 27 then a.(inverse := false)
    else if n == 28 then a.(hidden := false)
    else if n == 29 then a.(strikethrough := false)
    else a
  }

  function SetColor(st: Style, n: nat): Style {
    if n == 39 then st.(fgColor := None)
    else if n == 49 then st.(bgColor := None)
    else if IsFg(n) then st.(fgColor := Some(Decimal(n)))
    else if IsBg(n) then st.(bgColor := Some(Decimal(n)))
    else st
  }

  /** One standard SGR parameter. */
  function ApplyCode(st: Style, code: Option<nat>): Style {
    match code
    case None => st
    case Some(n) =>
      if n == 0 then PLAIN.(link := st.link)
      else if n < 10 then st.(attributes := TurnOn(st.attributes, n))
      else if n < 30 then st.(attributes := TurnOff(st.attributes, n))
      else SetColor(st, n)
  }

  predicate IsFg(n: nat) { 30 <= n <= 37 || 90 <= n <= 97 }

  predicate IsBg(n: nat) { 40 <= n <= 47 || 100 <= n <= 107 }

  /** How many parameters the extended colour at the front takes: 38;5;N or 38;2;R;G;B, else none. */
  function ExtendedLength(parts: seq<string>): (n: nat)
    requires parts != []
    ensures n <= |parts|
  {
    if ParseInt(parts[0]) != Some(38) && ParseInt(parts[0]) != Some(48) then 0
    else if |parts| >= 3 && parts[1] == "5" then 3
    else if |parts| >= 5 && parts[1] == "2" then 5
    else 0
  }

  /** The parameters of one SGR sequence, in order. */
  function ApplyParts(st: Style, parts: seq<string>): Style
    decreases |parts|
  {
    if parts == [] then st
    else
      var n := ExtendedLength(parts);
      if n == 0 then ApplyParts(ApplyCode(st, ParseInt(parts[0])), parts[1..])
      else if ParseInt(parts[0]) == Some(38) then ApplyParts(st.(fgColor := Some(Join(parts[..n], ';'))), parts[n..])
      else ApplyParts(st.(bgColor := Some(Join(parts[..n], ';'))), parts[n..])
  }

  /** The parameters of the first SGR sequence at or after `i`. */
  function MatchSgr(code: string, i: nat): (params: Option<string>)
    ensures params.Some? ==> AllSgr(params.value)
    decreases |code| - i
  {
    if i + 2 >= |code| then None
    else
      var stop := SgrStop(code, i + 2);
      if code[i] == ESC && code[i + 1] == '[' && stop < |code| && code[stop] == 'm' then Some(code[i + 2..stop])
      else MatchSgr(code, i + 1)
  }

  function SgrStop(code: string, j: nat): (stop: nat)
    requires j <= |code|
    ensures j <= stop <= |code| && AllSgr(code[j..stop])
    ensures stop < |code| ==> !IsSgrByte(code[stop])
    decreases |code| - j
  {
    if j < |code| && IsSgrByte(code[j]) then SgrStop(code, j + 1) else j
  }

  function IndexOf(s: string, c: char): (i: int)
    ensures i == -1 ==> c !in s
    ensures i != -1 ==> 0 <= i < |s| && s[i] == c && c !in s[..i]
  {
    if s == [] then -1
    else if s[0] == c then 0
    else
      var i := IndexOf(s[1..], c);
      assert s == [s[0]] + s[1..];
      if i == -1 then -1
      else
        assert s[..i + 1] == [s[0]] + s[1..][..i];
        i + 1
  }

  datatype LinkCode = NotALink | CloseLink | OpenLink(link: Hyperlink)

  /** `parseOsc8Hyperlink`. */
  function ParseOsc8(code: string): LinkCode {
    if !(OSC8 <= code) then NotALink
    else
      var bel := code[|code| - 1] == BEL;
      var end := if bel then |code| - 1 else |code| - 2;
      var body := if end > 4 then code[4..end] else "";
      var separator := IndexOf(body, ';');
      if separator == -1 then NotALink
      else if body[separator + 1..] == "" then CloseLink
      else OpenLink(Hyperlink(body[..separator], body[separator + 1..], bel))
  }

  function ApplySgr(st: Style, params: string): Style {
    if params == "" || params == "0" then PLAIN.(link := st.link) else ApplyParts(st, Split(params, ';'))
  }

  /** What one escape sequence does to the style. */
  function AfterCode(st: Style, code: string): Style {
    match ParseOsc8(code)
    case CloseLink => st.(link := None)
    case OpenLink(link) => st.(link := Some(link))
    case NotALink =>
      if code == "" || code[|code| - 1] != 'm' then st
      else match MatchSgr(code, 0)
           case None => st
           case Some(params) => ApplySgr(st, params)
  }

  function AfterPieces(st: Style, pieces: seq<Piece>): Style
    decreases |pieces|
  {
    if pieces == [] then st
    else AfterPieces(if pieces[0].Code? then AfterCode(st, pieces[0].code) else st, pieces[1..])
  }

  /** `updateTrackerFromText`. */
  function Read(st: Style, text: string): Style {
    AfterPieces(st, Pieces(text, 0))
  }

  function When(condition: bool, code: string): seq<string> {
    if condition then [code] else []
  }

  function WhenSome(color: Option<string>): seq<string> {
    if color.Some? && color.value != "" then [color.value] else []
  }

  function SgrCodes(st: Style): seq<string> {
    When(st.attributes.bold, "1")
      + (When(st.attributes.dim, "2") + (When(st.attributes.italic, "3") + (When(st.attributes.underline, "4")
    + (When(st.attributes.blink, "5")
      + (When(st.attributes.inverse, "7") + (When(st.attributes.hidden, "8") + (When(st.attributes.strikethrough, "9")
    + (WhenSome(st.fgColor) + WhenSome(st.bgColor)))))))))
  }

  function Terminator(bel: bool): string {
    if bel then [BEL] else [ESC, '\\']
  }

  function SgrPrint(st: Style): string {
    if SgrCodes(st) == [] then "" else CSI + Join(SgrCodes(st), ';') + "m"
  }

  function LinkPrint(st: Style): string {
    if st.link.None? then "" else LinkCodeOf(st.link.value)
  }

  /** `getActiveCodes`. */
  function ActiveCodes(st: Style): string {
    SgrPrint(st) + LinkPrint(st)
  }

  /** The standard codes of the foreground (extended code 38) or the background (48). */
  predicate IsStandard(extended: nat, n: nat) {
    if extended == 38 then IsFg(n) else extended == 48 && IsBg(n)
  }

  /** A colour as the tracker stores it: a standard code, or an extended colour copied from its sequence. */
  ghost predicate IsColor(color: string, extended: nat) {
    AllSgr(color) && (IsStandardColor(color, extended) || IsExtendedColor(Split(color, ';'), extended))
  }

  ghost predicate IsStandardColor(color: string, extended: nat) {
    exists n: nat :: IsStandard(extended, n) && color == Decimal(n)
  }

  predicate IsExtendedColor(parts: seq<string>, extended: nat) {
    && parts != [] && ParseInt(parts[0]) == Some(extended)
    && ((|parts| == 3 && parts[1] == "5") || (|parts| == 5 && parts[1] == "2"))
  }

  function WithColor(st: Style, extended: nat, color: Option<string>): Style {
    if extended == 38 then st.(fgColor := color) else st.(bgColor := color)
  }

  ghost predicate GoodLink(link: Hyperlink) {
    && ';' !in link.params && link.url != ""
    && ControlEnd("8;" + link.params + ";" + link.url, 0, true).None?
  }

  /** The states a tracker can be in. */
  ghost predicate Reachable(st: Style) {
    && (st.fgColor.Some? ==> IsColor(st.fgColor.value, 38))
    && (st.bgColor.Some? ==> IsColor(st.bgColor.value, 48))
    && (st.link.Some? ==> GoodLink(st.link.value))
  }

  // Strings of parameters

  /** A part list with `c` put in front of its first part, and one with an empty part put in front. */
  function Extend(c: char, parts: seq<string>, sep: char): seq<string>
    requires parts != []
  {
    if c == sep then [""] + parts else [[c] + parts[0]] + parts[1..]
  }

  lemma ExtendConcat(c: char, parts: seq<string>, tail: seq<string>, sep: char)
    requires parts != []
    ensures Extend(c, parts + tail, sep) == Extend(c, parts, sep) + tail
  {
  }

  lemma SplitCons(c: char, s: string, sep: char)
    ensures Split([c] + s, sep) == Extend(c, Split(s, sep), sep)
  {
    assert ([c] + s)[1..] == s;
  }

  lemma {:induction false} SplitConcat(a: string, b: string, sep: char)
    ensures Split(a + [sep] + b, sep) == Split(a, sep) + Split(b, sep)
  {
    if a == [] {
      assert a + [sep] + b == [sep] + b;
      SplitCons(sep, b, sep);
    } else {
      var c, rest := a[0], a[1..];
      SplitConcat(rest, b, sep);
      SplitCons(c, rest + [sep] + b, sep);
      SplitCons(c, rest, sep);
      ExtendConcat(c, Split(rest, sep), Split(b, sep), sep);
      hide Split;
      hide Extend;
      assert a == [c] + rest;
      assert a + [sep] + b == [c] + (rest + [sep] + b);
    }
  }

  lemma {:induction false} SplitNone(a: string, sep: char)
    requires sep !in a
    ensures Split(a, sep) == [a]
  {
    if a != [] {
      SplitNone(a[1..], sep);
      assert a == [a[0]] + a[1..];
    }
  }

  lemma {:induction false} PartsHaveNoSep(a: string, sep: char)
    ensures forall i :: 0 <= i < |Split(a, sep)| ==> sep !in Split(a, sep)[i]
    ensures AllSgr(a) && sep == ';' ==> forall i :: 0 <= i < |Split(a, sep)| ==> AllDigits(Split(a, sep)[i])
  {
    if a != [] {
      PartsHaveNoSep(a[1..], sep);
    }
  }

  /** The parts of a string put together from codes are the codes' parts in order. */
  function SplitAll(codes: seq<string>): seq<string> {
    if codes == [] then [] else Split(codes[0], ';') + SplitAll(codes[1..])
  }

  lemma {:induction false} SplitJoin(codes: seq<string>)
    requires codes != []
    ensures Split(Join(codes, ';'), ';') == SplitAll(codes)
  {
    if |codes| == 1 {
      assert SplitAll(codes[1..]) == [];
    } else {
      SplitJoin(codes[1..]);
      SplitConcat(codes[0], Join(codes[1..], ';'), ';');
    }
  }

  lemma {:induction false} SplitAllParts(parts: seq<string>)
    requires forall i :: 0 <= i < |parts| ==> ';' !in parts[i]
    ensures SplitAll(parts) == parts
  {
    if parts != [] {
      SplitNone(parts[0], ';');
      SplitAllParts(parts[1..]);
    }
  }

  lemma {:induction false} DecimalValue(n: nat)
    ensures DigitsValue(Decimal(n)) == n
  {
    if n >= 10 {
      DecimalValue(n / 10);
      var s := Decimal(n);
      assert s[..|s| - 1] == Decimal(n / 10);
    }
  }

  lemma {:induction false} JoinIsSgr(parts: seq<string>)
    requires EachSgr(parts)
    ensures AllSgr(Join(parts, ';'))
  {
    if |parts| > 1 {
      JoinIsSgr(parts[1..]);
    }
  }

  // Reading one printed code back

  /** A part that starts no extended colour is applied by itself. */
  lemma ApplyOne(st: Style, code: string, rest: seq<string>)
    requires ParseInt(code) != Some(38) && ParseInt(code) != Some(48)
    ensures ApplyParts(st, [code] + rest) == ApplyParts(ApplyCode(st, ParseInt(code)), rest)
  {
    assert ([code] + rest)[1..] == rest;
  }

  lemma FlagValue(code: char)
    requires '1' <= code <= '9'
    ensures ParseInt([code]) == Some(DigitValue(code)) && 0 < DigitValue(code) < 10
    ensures Split([code], ';') == [[code]]
  {
    SplitNone([code], ';');
    assert [code][..0] == "" && DigitsValue("") == 0;
  }

  lemma {:induction false} ApplyFlag(st: Style, condition: bool, code: char, rest: seq<string>)
    requires '1' <= code <= '9'
    ensures ApplyParts(st, SplitAll(When(condition, [code]) + rest))
            == ApplyParts(if condition then st.(attributes := TurnOn(st.attributes, DigitValue(code))) else st,
              SplitAll(rest))
  {
    if condition {
      assert ([[code]] + rest)[1..] == rest;
      hide ApplyParts;
      hide TurnOn;
      hide ParseInt;
      hide Split;
      FlagValue(code);
      ApplyOne(st, [code], SplitAll(rest));
    } else {
      assert [] + rest == rest;
    }
  }

  lemma ApplyStandard(st: Style, color: string, extended: nat, rest: seq<string>)
    requires IsStandardColor(color, extended)
    ensures Split(color, ';') == [color] && color != ""
    ensures ApplyParts(st, Split(color, ';') + rest) == ApplyParts(WithColor(st, extended, Some(color)), rest)
  {
    var n: nat :| IsStandard(extended, n) && color == Decimal(n);
    SplitNone(color, ';');
    DecimalValue(n);
    hide ApplyParts;
    hide Split;
    ApplyOne(st, color, rest);
  }

  lemma ApplyExtended(st: Style, parts: seq<string>, extended: nat, rest: seq<string>)
    requires IsExtendedColor(parts, extended) && (extended == 38 || extended == 48)
    ensures ApplyParts(st, parts + rest) == ApplyParts(WithColor(st, extended, Some(Join(parts, ';'))), rest)
  {
    var all := parts + rest;
    assert all[0] == parts[0] && all[1] == parts[1];
    assert all[..|parts|] == parts && all[|parts|..] == rest;
    assert ExtendedLength(all) == |parts|;
    hide Join;
  }

  /** A standard colour is one part; an extended one is copied from its parts. */
  lemma ApplyColor(st: Style, color: string, extended: nat, rest: seq<string>)
    requires IsColor(color, extended) && (extended == 38 || extended == 48)
    ensures color != ""
    ensures ApplyParts(st, Split(color, ';') + rest) == ApplyParts(WithColor(st, extended, Some(color)), rest)
  {
    if IsStandardColor(color, extended) {
      ApplyStandard(st, color, extended, rest);
    } else {
      JoinOfSplit(color, ';');
      hide ApplyParts;
      ApplyExtended(st, Split(color, ';'), extended, rest);
    }
  }

  lemma {:induction false} JoinOfSplit(s: string, sep: char)
    ensures Join(Split(s, sep), sep) == s
  {
    if s != [] {
      JoinOfSplit(s[1..], sep);
      var rest := Split(s[1..], sep);
      assert s == [s[0]] + s[1..];
      if s[0] == sep {
        assert ([""] + rest)[1..] == rest;
      } else {
        var parts := Split(s, sep);
        assert parts[1..] == rest[1..];
        if |rest| > 1 {
          assert Join(rest, sep) == rest[0] + [sep] + Join(rest[1..], sep);
        }
      }
    }
  }

  lemma ApplyColorOption(st: Style, color: Option<string>, extended: nat, rest: seq<string>)
    requires (color.Some? ==> IsColor(color.value, extended)) && (extended == 38 || extended == 48)
    ensures ApplyParts(st, SplitAll(WhenSome(color) + rest))
            == ApplyParts(if color.None? then st else WithColor(st, extended, color), SplitAll(rest))
  {
    hide ApplyParts;
    if color.Some? {
      ApplyColor(st, color.value, extended, SplitAll(rest));
      assert ([color.value] + rest)[1..] == rest;
    } else {
      assert [] + rest == rest;
    }
  }

  /** The printed flags, read in order from a cleared style. */
  lemma ApplyFlags(a: Attributes, rest: seq<string>)
    ensures ApplyParts(PLAIN,
            SplitAll(When(a.bold, "1") + (When(a.dim, "2") + (When(a.italic, "3") + (When(a.underline, "4") + rest)))))
            == ApplyParts(PLAIN.(attributes :=
              NO_ATTRIBUTES.(bold := a.bold, dim := a.dim, italic := a.italic, underline := a.underline)),
                SplitAll(rest))
  {
    hide ApplyParts;
    hide SplitAll;
    hide When;
    var c4 := When(a.underline, "4") + rest;
    var c3 := When(a.italic, "3") + c4;
    var c2 := When(a.dim, "2") + c3;
    ApplyFlag(PLAIN, a.bold, '1', c2);
    var a1 := NO_ATTRIBUTES.(bold := a.bold);
    ApplyFlag(PLAIN.(attributes := a1), a.dim, '2', c3);
    var a2 := a1.(dim := a.dim);
    ApplyFlag(PLAIN.(attributes := a2), a.italic, '3', c4);
    var a3 := a2.(italic := a.italic);
    ApplyFlag(PLAIN.(attributes := a3), a.underline, '4', rest);
  }

  lemma ApplyMoreFlags(start: Attributes, a: Attributes, rest: seq<string>)
    requires start == NO_ATTRIBUTES.(bold := a.bold, dim := a.dim, italic := a.italic, underline := a.underline)
    ensures ApplyParts(PLAIN.(attributes := start),
                       SplitAll(When(a.blink, "5")
                         + (When(a.inverse, "7") + (When(a.hidden, "8") + (When(a.strikethrough, "9") + rest)))))
            == ApplyParts(PLAIN.(attributes := a), SplitAll(rest))
  {
    hide ApplyParts;
    hide SplitAll;
    hide When;
    var c4 := When(a.strikethrough, "9") + rest;
    var c3 := When(a.hidden, "8") + c4;
    var c2 := When(a.inverse, "7") + c3;
    ApplyFlag(PLAIN.(attributes := start), a.blink, '5', c2);
    var a1 := start.(blink := a.blink);
    ApplyFlag(PLAIN.(attributes := a1), a.inverse, '7', c3);
    var a2 := a1.(inverse := a.inverse);
    ApplyFlag(PLAIN.(attributes := a2), a.hidden, '8', c4);
    var a3 := a2.(hidden := a.hidden);
    ApplyFlag(PLAIN.(attributes := a3), a.strikethrough, '9', rest);
  }

  /** The printed attributes, read in order from a cleared style, set exactly what was set. */
  lemma ApplySgrCodes(st: Style)
    requires Reachable(st)
    ensures ApplyParts(PLAIN, SplitAll(SgrCodes(st))) == st.(link := None)
  {
    hide ApplyParts;
    hide SplitAll;
    var colors := WhenSome(st.fgColor) + WhenSome(st.bgColor);
    var more := When(st.attributes.blink, "5")
        + (When(st.attributes.inverse, "7")
          + (When(st.attributes.hidden, "8") + (When(st.attributes.strikethrough, "9") + colors)));
    ApplyFlags(st.attributes, more);
    var some := NO_ATTRIBUTES.(bold := st.attributes.bold, dim := st.attributes.dim, italic := st.attributes.italic,
        underline := st.attributes.underline);
    ApplyMoreFlags(some, st.attributes, colors);
    var flags := PLAIN.(attributes := st.attributes);
    ApplyColorOption(flags, st.fgColor, 38, WhenSome(st.bgColor));
    ApplyColorOption(flags.(fgColor := st.fgColor), st.bgColor, 48, []);
    assert WhenSome(st.bgColor) + [] == WhenSome(st.bgColor);
    ApplyNothing(st.(link := None));
  }

  lemma ApplyNothing(st: Style)
    ensures ApplyParts(st, SplitAll([])) == ApplyParts(st, []) == st
  {
  }

  // The printed attributes as one control sequence

  lemma {:induction false} SgrRun(code: string, j: nat, stop: nat)
    requires j <= stop < |code| && code[stop] == 'm' && AllSgr(code[j..stop])
    ensures CsiStop(code, j, false) == stop && SgrStop(code, j) == stop
    decreases stop - j
  {
    if j < stop {
      assert code[j..stop][0] == code[j];
      assert code[j + 1..stop] == code[j..stop][1..];
      SgrRun(code, j + 1, stop);
    }
  }

  lemma SgrSequence(params: string)
    requires AllSgr(params)
    ensures var code := CSI + params + "m";
            IsCode(code) && forall st :: AfterCode(st, code) == ApplySgr(st, params)
  {
    var code := CSI + params + "m";
    assert code[2..|code| - 1] == params;
    SgrRun(code, 2, |code| - 1);
    assert code[0] == ESC && code[1] == '[';
    assert !(OSC8 <= code);
  }

  ghost predicate EachSgr(codes: seq<string>) {
    forall i :: 0 <= i < |codes| ==> AllSgr(codes[i])
  }

  lemma EachFlag(condition: bool, c: char, rest: seq<string>)
    requires IsDigit(c) && EachSgr(rest)
    ensures EachSgr(When(condition, [c]) + rest)
  {
  }

  lemma CodesAreSgr(st: Style)
    requires Reachable(st)
    ensures EachSgr(SgrCodes(st))
  {
    var c8 := WhenSome(st.fgColor) + WhenSome(st.bgColor);
    assert EachSgr(c8);
    hide EachSgr;
    EachFlag(st.attributes.strikethrough, '9', c8);
    var c7 := When(st.attributes.strikethrough, "9") + c8;
    EachFlag(st.attributes.hidden, '8', c7);
    var c6 := When(st.attributes.hidden, "8") + c7;
    EachFlag(st.attributes.inverse, '7', c6);
    var c5 := When(st.attributes.inverse, "7") + c6;
    EachFlag(st.attributes.blink, '5', c5);
    var c4 := When(st.attributes.blink, "5") + c5;
    EachFlag(st.attributes.underline, '4', c4);
    var c3 := When(st.attributes.underline, "4") + c4;
    EachFlag(st.attributes.italic, '3', c3);
    var c2 := When(st.attributes.italic, "3") + c3;
    EachFlag(st.attributes.dim, '2', c2);
    EachFlag(st.attributes.bold, '1', When(st.attributes.dim, "2") + c2);
  }

  /** From a cleared style the printed attributes give the attributes back. */
  lemma SgrRoundTrip(st: Style)
    requires Reachable(st)
    ensures SgrCodes(st) == [] ==> st.(link := None) == PLAIN
    ensures SgrCodes(st) != [] ==> IsCode(SgrPrint(st)) && AfterCode(PLAIN, SgrPrint(st)) == st.(link := None)
  {
    ApplySgrCodes(st);
    var codes := SgrCodes(st);
    if codes == [] {
      ApplyNothing(PLAIN);
    } else {
      var params := Join(codes, ';');
      CodesAreSgr(st);
      JoinIsSgr(codes);
      SplitJoin(codes);
      SgrSequence(params);
      ResetIsNoPart(params);
    }
  }

  /** On a cleared style the two spellings of a full reset do what their parts would. */
  lemma ResetIsNoPart(params: string)
    ensures ApplySgr(PLAIN, params) == ApplyParts(PLAIN, Split(params, ';'))
  {
    if params == "" {
      ApplyOne(PLAIN, "", []);
      assert [""] + [] == [""];
    } else if params == "0" {
      SplitNone("0", ';');
      assert ['0'][..0] == "" && DigitsValue("") == 0;
      ApplyOne(PLAIN, "0", []);
      assert ["0"] + [] == ["0"];
    }
  }

  // The printed hyperlink as one control string

  lemma {:induction false} EndsAtTerminator(code: string, body: string, k: nat, bel: bool)
    requires code == [ESC, ']'] + body + Terminator(bel) && k <= |body|
    requires ControlEnd(body, k, true).None?
    ensures ControlEnd(code, 2 + k, true) == Some(|code|)
    decreases |body| - k
  {
    if k < |body| {
      assert code[2 + k] == body[k];
      if k + 1 < |body| {
        assert code[2 + k + 1] == body[k + 1];
      } else {
        assert code[2 + k + 1] == Terminator(bel)[0];
      }
      EndsAtTerminator(code, body, k + 1, bel);
    } else {
      assert code[2 + k..] == Terminator(bel);
      assert code[2 + k] == Terminator(bel)[0];
      if !bel {
        assert code[2 + k + 1] == Terminator(bel)[1];
      }
    }
  }

  lemma {:induction false} IndexOfFirst(a: string, c: char, b: string)
    requires c !in a
    ensures IndexOf(a + [c] + b, c) == |a|
  {
    if a != [] {
      assert (a + [c] + b)[1..] == a[1..] + [c] + b;
      IndexOfFirst(a[1..], c, b);
    } else {
      assert a + [c] + b == [c] + b;
    }
  }

  function LinkCodeOf(link: Hyperlink): string {
    OSC8 + link.params + ";" + link.url + Terminator(link.bel)
  }

  lemma LinkIsCode(link: Hyperlink)
    requires GoodLink(link)
    ensures IsCode(LinkCodeOf(link))
  {
    var code := LinkCodeOf(link);
    var body := "8;" + link.params + ";" + link.url;
    assert code == [ESC, ']'] + body + Terminator(link.bel);
    EndsAtTerminator(code, body, 0, link.bel);
    assert code[0] == ESC && code[1] == ']';
  }

  lemma LinkParses(link: Hyperlink)
    requires GoodLink(link)
    ensures ParseOsc8(LinkCodeOf(link)) == OpenLink(link)
  {
    var code, t := LinkCodeOf(link), Terminator(link.bel);
    var body := link.params + [';'] + link.url;
    assert code == OSC8 + body + t;
    assert code[|code| - 1] == t[|t| - 1];
    assert code[4..|code| - |t|] == body;
    IndexOfFirst(link.params, ';', link.url);
    hide IndexOf;
    assert body[..|link.params|] == link.params && body[|link.params| + 1..] == link.url;
  }

  lemma ProcessFirst(st: Style, code: string, rest: seq<Piece>)
    ensures AfterPieces(st, [Code(code)] + rest) == AfterPieces(AfterCode(st, code), rest)
  {
    assert ([Code(code)] + rest)[1..] == rest;
  }

  lemma ReadOne(st: Style, code: string)
    requires IsCode(code)
    ensures Read(st, code) == AfterCode(st, code)
  {
    hide AfterCode;
    PiecesOfCode(code, "");
    assert code + "" == code;
    ProcessFirst(st, code, []);
  }

  lemma ReadTwo(st: Style, a: string, b: string)
    requires IsCode(a) && IsCode(b)
    ensures Read(st, a + b) == AfterCode(AfterCode(st, a), b)
  {
    hide AfterCode;
    PiecesOfCode(a, b);
    assert (a + b)[|a|..|a| + |b|] == b;
    EndAtLocal(b, 0, a + b, |a|);
    ProcessFirst(st, a, Pieces(a + b, |a|));
    ProcessFirst(AfterCode(st, a), b, []);
    assert Pieces(a + b, |a|) == [Code(b)] + [];
  }

  /** What the printed pieces do, sequence by sequence. */
  lemma PrintedPieces(st: Style)
    requires Reachable(st)
    ensures SgrCodes(st) == [] ==> st.(link := None) == PLAIN
    ensures SgrCodes(st) != [] ==> IsCode(SgrPrint(st)) && AfterCode(PLAIN, SgrPrint(st)) == st.(link := None)
    ensures st.link.Some? ==> IsCode(LinkPrint(st)) && AfterCode(st.(link := None), LinkPrint(st)) == st
  {
    SgrRoundTrip(st);
    if st.link.Some? {
      LinkIsCode(st.link.value);
      LinkParses(st.link.value);
    }
  }

  /**
    The round trip: from a cleared style, the text a reachable state prints is read back as that
    state, extended colours and the hyperlink's terminator included.
  */
  lemma PrintThenRead(st: Style)
    requires Reachable(st)
    ensures Read(PLAIN, ActiveCodes(st)) == st
  {
    PrintedPieces(st);
    var sgr, link := SgrPrint(st), LinkPrint(st);
    hide AfterCode;
    hide SgrCodes;
    hide Reachable;
    if SgrCodes(st) == [] {
      assert ActiveCodes(st) == link;
      if st.link.Some? {
        ReadOne(PLAIN, link);
      }
    } else if st.link.None? {
      assert ActiveCodes(st) == sgr;
      ReadOne(PLAIN, sgr);
    } else {
      ReadTwo(PLAIN, sgr, link);
    }
  }

  // What a tracker can hold

  lemma StandardColor(n: nat, extended: nat)
    requires IsStandard(extended, n)
    ensures IsColor(Decimal(n), extended)
  {
    assert IsStandardColor(Decimal(n), extended);
  }

  lemma ColorCodeKeepsReachable(st: Style, n: nat)
    requires Reachable(st)
    ensures Reachable(SetColor(st, n))
  {
    if IsFg(n) {
      StandardColor(n, 38);
    } else if IsBg(n) {
      StandardColor(n, 48);
    }
    hide IsColor;
    hide GoodLink;
    hide Decimal;
  }

  lemma CodeKeepsReachable(st: Style, code: Option<nat>)
    requires Reachable(st)
    ensures Reachable(ApplyCode(st, code))
  {
    hide IsColor;
    hide GoodLink;
    if code.Some? {
      ColorCodeKeepsReachable(st, code.value);
      hide TurnOn;
      hide TurnOff;
      hide SetColor;
    }
  }

  lemma ColorKeepsReachable(st: Style, extended: nat, color: string)
    requires Reachable(st) && IsColor(color, extended) && (extended == 38 || extended == 48)
    ensures Reachable(WithColor(st, extended, Some(color)))
  {
  }

  lemma {:induction false} PartsKeepReachable(st: Style, parts: seq<string>)
    requires Reachable(st) && forall i :: 0 <= i < |parts| ==> AllDigits(parts[i])
    ensures Reachable(ApplyParts(st, parts))
    decreases |parts|
  {
    if parts != [] {
      var n := ExtendedLength(parts);
      if n == 0 {
        CodeKeepsReachable(st, ParseInt(parts[0]));
        hide ApplyCode;
        hide Reachable;
        PartsKeepReachable(ApplyCode(st, ParseInt(parts[0])), parts[1..]);
      } else {
        var extended := if ParseInt(parts[0]) == Some(38) then 38 else 48;
        CopiedColor(parts[..n], extended);
        ColorKeepsReachable(st, extended, Join(parts[..n], ';'));
        hide ApplyCode;
        hide Reachable;
        hide Join;
        PartsKeepReachable(WithColor(st, extended, Some(Join(parts[..n], ';'))), parts[n..]);
      }
    }
  }

  lemma CopiedColor(parts: seq<string>, extended: nat)
    requires IsExtendedColor(parts, extended) && forall i :: 0 <= i < |parts| ==> AllDigits(parts[i])
    ensures IsColor(Join(parts, ';'), extended)
  {
    assert EachSgr(parts);
    JoinIsSgr(parts);
    SplitJoin(parts);
    SplitAllParts(parts);
  }

  /** Nothing ends the body of a control string before its terminator. */
  lemma {:induction false} BodyHasNoEnd(s: string, j: nat, end: nat)
    requires ControlEnd(s, j, true).Some? && j <= end <= |s|
    requires end < ControlEnd(s, j, true).value
    requires end + 1 == ControlEnd(s, j, true).value ==> s[end] == BEL
    ensures ControlEnd(s[..end], j, true).None?
    decreases end - j
  {
    if j < end {
      BodyHasNoEnd(s, j + 1, end);
    }
  }

  lemma {:induction false} ControlEndShift(a: string, b: string, j: nat)
    ensures ControlEnd(a + b, |a| + j, true).None? <==> ControlEnd(b, j, true).None?
    decreases |b| - j
  {
    if j < |b| {
      ControlEndShift(a, b, j + 1);
    }
  }

  /** An opened link's code is its text between the introducer and the terminator. */
  lemma OpenedLinkText(code: string) returns (text: string, end: nat)
    requires |code| >= 2 && ParseOsc8(code).OpenLink?
    ensures var link := ParseOsc8(code).link;
            && text == "8;" + link.params + ";" + link.url
            && ';' !in link.params && link.url != ""
            && end == |code| - |Terminator(link.bel)| && end >= 4
            && code[..end] == [ESC, ']'] + text
            && (link.bel <==> code[|code| - 1] == BEL)
  {
    var link := ParseOsc8(code).link;
    end := |code| - |Terminator(link.bel)|;
    var body := code[4..end];
    OpenedLinkBody(code, body, end);
    IndexSplits(body, ';');
    hide IndexOf;
    hide ParseOsc8;
    text := "8;" + link.params + ";" + link.url;
    LinkTextParts(link.params, link.url);
    assert code[..end] == code[..4] + body;
  }

  lemma OpenedLinkBody(code: string, body: string, end: int)
    requires |code| >= 2 && ParseOsc8(code).OpenLink? && end == |code| - |Terminator(ParseOsc8(code).link.bel)|
    requires 4 <= end <= |code| ==> body == code[4..end]
    ensures var link := ParseOsc8(code).link;
            && 4 <= end && code[..4] == OSC8 && (link.bel <==> code[|code| - 1] == BEL)
            && IndexOf(body, ';') != -1 && link.params == body[..IndexOf(body, ';')]
            && link.url == body[IndexOf(body, ';') + 1..]
            && ';' !in link.params && link.url != ""
  {
    hide IndexOf;
  }

  lemma IndexSplits(s: string, c: char)
    requires IndexOf(s, c) != -1
    ensures s == s[..IndexOf(s, c)] + [c] + s[IndexOf(s, c) + 1..]
  {
  }

  lemma LinkTextParts(params: string, url: string)
    ensures OSC8 + (params + [';'] + url) == [ESC, ']'] + ("8;" + params + ";" + url)
  {
  }

  lemma OpenedLinkIsGood(code: string)
    requires IsCode(code) && ParseOsc8(code).OpenLink?
    ensures GoodLink(ParseOsc8(code).link)
  {
    var text, end := OpenedLinkText(code);
    assert code[..end][1] == ']';
    assert ControlEnd(code, 2, true) == Some(|code|);
    hide EndAt;
    hide ParseOsc8;
    TerminatorAtEnd(code, 2);
    BodyHasNoEnd(code, 2, end);
    ControlEndShift([ESC, ']'], text, 0);
  }

  lemma {:induction false} TerminatorAtEnd(s: string, j: nat)
    requires ControlEnd(s, j, true) == Some(|s|)
    ensures s[|s| - 1] == BEL || (|s| >= j + 2 && s[|s| - 2] == ESC && s[|s| - 1] == '\\')
    decreases |s| - j
  {
    if !(s[j] == BEL) && !(s[j] == ESC && j + 1 < |s| && s[j + 1] == '\\') {
      TerminatorAtEnd(s, j + 1);
    }
  }

  lemma SgrKeepsReachable(st: Style, params: string)
    requires Reachable(st) && AllSgr(params)
    ensures Reachable(ApplySgr(st, params))
  {
    PartsHaveNoSep(params, ';');
    PartsKeepReachable(st, Split(params, ';'));
  }

  lemma ProcessKeepsReachable(st: Style, code: string)
    requires Reachable(st) && IsCode(code)
    ensures Reachable(AfterCode(st, code))
  {
    match ParseOsc8(code) {
      case CloseLink => LinkKeepsReachable(st, None);
      case OpenLink(link) =>
        OpenedLinkIsGood(code);
        LinkKeepsReachable(st, Some(link));
      case NotALink =>
        var params := MatchSgr(code, 0);
        if params.Some? {
          SgrKeepsReachable(st, params.value);
        }
    }
    hide Reachable;
    hide ParseOsc8;
    hide MatchSgr;
    hide ApplySgr;
  }

  lemma LinkKeepsReachable(st: Style, link: Option<Hyperlink>)
    requires Reachable(st) && (link.Some? ==> GoodLink(link.value))
    ensures Reachable(st.(link := link))
  {
  }

  lemma {:induction false} AllKeepReachable(st: Style, pieces: seq<Piece>)
    requires Reachable(st) && forall i :: 0 <= i < |pieces| && pieces[i].Code? ==> IsCode(pieces[i].code)
    ensures Reachable(AfterPieces(st, pieces))
    decreases |pieces|
  {
    if pieces != [] {
      if pieces[0].Code? {
        ProcessKeepsReachable(st, pieces[0].code);
      }
      AllKeepReachable(if pieces[0].Code? then AfterCode(st, pieces[0].code) else st, pieces[1..]);
    }
  }

  /** The state after any text, printed, is read back as itself. */
  lemma TextRoundTrip(text: string)
    ensures Reachable(Read(PLAIN, text))
    ensures Read(PLAIN, ActiveCodes(Read(PLAIN, text))) == Read(PLAIN, text)
  {
    PiecesAreCodes(text, 0);
    AllKeepReachable(PLAIN, Pieces(text, 0));
    PrintThenRead(Read(PLAIN, text));
  }

  function LineEndReset(st: Style): string {
    (if st.attributes.underline then CSI + "24m" else "")
      + (if st.link.Some? then OSC8 + ";" + Terminator(st.link.value.bel) else "")
  }

  lemma OffCode(st: Style, d: char)
    requires IsDigit(d)
    ensures var n := ['2', d];
            && IsCode(CSI + (n + "m"))
            && AfterCode(st, CSI + (n + "m")) == st.(attributes := TurnOff(st.attributes, 20 + DigitValue(d)))
  {
    var n := ['2', d];
    assert CSI + (n + "m") == CSI + n + "m";
    SgrSequence(n);
    assert Split(n, ';') == [n] && [n] + [] == [n] by { SplitNone(n, ';'); }
    assert n[..1] == "2" && "2"[..0] == "" && DigitsValue("") == 0 && DigitsValue("2") == 2;
    ApplyOne(st, n, []);
  }

  lemma OnCode(st: Style, d: char)
    requires '1' <= d <= '9'
    ensures AfterCode(st, CSI + ([d] + "m")) == st.(attributes := TurnOn(st.attributes, DigitValue(d)))
  {
    assert CSI + ([d] + "m") == CSI + [d] + "m";
    SgrSequence([d]);
    FlagValue(d);
    assert [[d]] + [] == [[d]];
    ApplyOne(st, [d], []);
    assert [d] != "0";
  }

  /** The codes that turn attributes on, each with all else left as it is. */
  lemma OnCodes(st: Style)
    ensures AfterCode(st, CSI + "1m") == st.(attributes := st.attributes.(bold := true))
    ensures AfterCode(st, CSI + "2m") == st.(attributes := st.attributes.(dim := true))
    ensures AfterCode(st, CSI + "3m") == st.(attributes := st.attributes.(italic := true))
    ensures AfterCode(st, CSI + "4m") == st.(attributes := st.attributes.(underline := true))
    ensures AfterCode(st, CSI + "5m") == st.(attributes := st.attributes.(blink := true))
    ensures AfterCode(st, CSI + "7m") == st.(attributes := st.attributes.(inverse := true))
    ensures AfterCode(st, CSI + "8m") == st.(attributes := st.attributes.(hidden := true))
    ensures AfterCode(st, CSI + "9m") == st.(attributes := st.attributes.(strikethrough := true))
  {
    hide AfterCode;
    OnCode(st, '1');
    OnCode(st, '2');
    OnCode(st, '3');
    OnCode(st, '4');
    OnCode(st, '5');
    OnCode(st, '7');
    OnCode(st, '8');
    OnCode(st, '9');
    assert ['1'] + "m" == "1m" && ['2'] + "m" == "2m" && ['3'] + "m" == "3m" && ['4'] + "m" == "4m";
    assert ['5'] + "m" == "5m" && ['7'] + "m" == "7m" && ['8'] + "m" == "8m" && ['9'] + "m" == "9m";
  }

  /** The standard colours: 30 to 37 and 90 to 97 in front, 40 to 47 and 100 to 107 behind. */
  lemma StandardColors(st: Style, n: nat)
    requires 30 <= n <= 37 || 40 <= n <= 47 || 90 <= n <= 97 || 100 <= n <= 107
    ensures var front := n <= 37 || 90 <= n <= 97;
            AfterCode(st, CSI + Decimal(n) + "m")
            == if front then st.(fgColor := Some(Decimal(n))) else st.(bgColor := Some(Decimal(n)))
  {
    var extended := if n <= 37 || 90 <= n <= 97 then 38 else 48;
    assert IsStandard(extended, n);
    SgrSequence(Decimal(n));
    DecimalValue(n);
    hide AfterCode;
    assert Split(Decimal(n), ';') + [] == Split(Decimal(n), ';');
    ApplyStandard(st, Decimal(n), extended, []);
    assert ParseInt("0") == Some(0) by { FlagZero(); }
  }

  lemma FlagZero()
    ensures ParseInt("0") == Some(0)
  {
    assert "0"[..0] == "" && DigitsValue("") == 0;
  }

  /** The extended colours: 38 in front and 48 behind, with 5 and a number, or with 2 and three. */
  lemma ExtendedColors(st: Style, extended: nat, parts: seq<string>)
    requires extended == 38 || extended == 48
    requires |parts| == 1 || |parts| == 3
    requires forall k :: 0 <= k < |parts| ==> AllDigits(parts[k])
    ensures var color := Decimal(extended) + ";" + (if |parts| == 1 then "5" else "2") + ";" + Join(parts, ';');
            AfterCode(st, CSI + color + "m")
            == if extended == 38 then st.(fgColor := Some(color)) else st.(bgColor := Some(color))
  {
    var mode := if |parts| == 1 then "5" else "2";
    var all := [Decimal(extended), mode] + parts;
    var color := Decimal(extended) + ";" + mode + ";" + Join(parts, ';');
    DecimalValue(extended);
    JoinsTo(Decimal(extended), mode, parts);
    DigitsApart(all);
    SgrSequence(color);
    hide AfterCode;
    hide Join;
    hide Split;
    assert all + [] == all;
    ApplyExtended(st, all, extended, []);
  }

  lemma JoinsTo(first: string, second: string, parts: seq<string>)
    requires parts != []
    ensures Join([first, second] + parts, ';') == first + ";" + second + ";" + Join(parts, ';')
  {
    var all := [first, second] + parts;
    assert all[1..] == [second] + parts && all[1..][1..] == parts;
    assert Join(all[1..], ';') == second + ";" + Join(parts, ';');
    assert first + ";" + (second + ";" + Join(parts, ';')) == first + ";" + second + ";" + Join(parts, ';');
  }

  lemma {:induction false} DigitsApart(parts: seq<string>)
    requires parts != [] && forall k :: 0 <= k < |parts| ==> AllDigits(parts[k])
    ensures Split(Join(parts, ';'), ';') == parts && AllSgr(Join(parts, ';'))
  {
    SplitNone(parts[0], ';');
    if |parts| > 1 {
      DigitsApart(parts[1..]);
      SplitConcat(parts[0], Join(parts[1..], ';'), ';');
      assert [parts[0]] + parts[1..] == parts;
    } else {
      assert parts == [parts[0]];
    }
  }

  /** The codes that turn attributes off (section 8.3.117 of ECMA-48), each with all else left as it is. */
  lemma OffCodes(st: Style)
    ensures AfterCode(st, CSI + "21m") == st.(attributes := st.attributes.(bold := false))
    ensures AfterCode(st, CSI + "22m") == st.(attributes := st.attributes.(bold := false, dim := false))
    ensures AfterCode(st, CSI + "23m") == st.(attributes := st.attributes.(italic := false))
    ensures AfterCode(st, CSI + "24m") == st.(attributes := st.attributes.(underline := false))
    ensures AfterCode(st, CSI + "25m") == st.(attributes := st.attributes.(blink := false))
    ensures AfterCode(st, CSI + "27m") == st.(attributes := st.attributes.(inverse := false))
    ensures AfterCode(st, CSI + "28m") == st.(attributes := st.attributes.(hidden := false))
    ensures AfterCode(st, CSI + "29m") == st.(attributes := st.attributes.(strikethrough := false))
  {
    hide AfterCode;
    hide IsCode;
    OffCode(st, '1');
    OffCode(st, '2');
    OffCode(st, '3');
    OffCode(st, '4');
    OffCode(st, '5');
    OffCode(st, '7');
    OffCode(st, '8');
    OffCode(st, '9');
    assert ['2', '1'] + "m" == "21m" && ['2', '2'] + "m" == "22m" && ['2', '3'] + "m" == "23m";
    assert ['2', '4'] + "m" == "24m" && ['2', '5'] + "m" == "25m" && ['2', '7'] + "m" == "27m";
    assert ['2', '8'] + "m" == "28m" && ['2', '9'] + "m" == "29m";
  }

  /** The codes of the default colours; and without a parameter, as with zero, all but the hyperlink is reset. */
  lemma DefaultCodes(st: Style)
    ensures AfterCode(st, CSI + "39m") == st.(fgColor := None) && AfterCode(st, CSI + "49m") == st.(bgColor := None)
    ensures AfterCode(st, CSI + "m") == AfterCode(st, CSI + "0m") == PLAIN.(link := st.link)
  {
    assert CSI + "39m" == CSI + "39" + "m" && CSI + "49m" == CSI + "49" + "m";
    assert CSI + "m" == CSI + "" + "m" && CSI + "0m" == CSI + "0" + "m";
    SgrSequence("39");
    SgrSequence("49");
    SgrSequence("");
    SgrSequence("0");
    hide MatchSgr;
    hide ParseOsc8;
    ColourOff(st, '3');
    ColourOff(st, '4');
  }

  lemma ColourOff(st: Style, d: char)
    requires d == '3' || d == '4'
    ensures ApplySgr(st, [d, '9']) == if d == '3' then st.(fgColor := None) else st.(bgColor := None)
  {
    var n := [d, '9'];
    assert Split(n, ';') == [n] && [n] + [] == [n] by { SplitNone(n, ';'); }
    assert n[..1] == [d] && [d][..0] == "" && DigitsValue("") == 0 && DigitsValue([d]) == DigitValue(d);
    ApplyOne(st, n, []);
  }

  lemma UnderlineOffCode(st: Style)
    ensures IsCode(CSI + "24m") && AfterCode(st, CSI + "24m") == st.(attributes := st.attributes.(underline := false))
  {
    OffCode(st, '4');
    assert ['2', '4'] + "m" == "24m";
  }

  lemma LinkCloseCode(st: Style, bel: bool)
    ensures IsCode(OSC8 + ";" + Terminator(bel)) && AfterCode(st, OSC8 + ";" + Terminator(bel)) == st.(link := None)
  {
    var code, t := OSC8 + ";" + Terminator(bel), Terminator(bel);
    assert code == [ESC, ']'] + "8;;" + t;
    EndsAtTerminator(code, "8;;", 0, bel);
    assert code[|code| - 1] == t[|t| - 1];
    assert code[4..|code| - |t|] == ";";
    IndexOfFirst("", ';', "");
    assert "" + [';'] + "" == ";";
  }

  /** The reset put at a line's end turns the underline off, closes the hyperlink, and leaves the rest as it is. */
  lemma LineEndResets(st: Style)
    ensures Read(st, LineEndReset(st)) == st.(attributes := st.attributes.(underline := false), link := None)
  {
    var off, close := CSI + "24m", if st.link.Some? then OSC8 + ";" + Terminator(st.link.value.bel) else "";
    UnderlineOffCode(st);
    var next := if st.attributes.underline then st.(attributes := st.attributes.(underline := false)) else st;
    if st.link.Some? {
      LinkCloseCode(next, st.link.value.bel);
    }
    hide AfterCode;
    hide IsCode;
    hide Terminator;
    if st.attributes.underline && st.link.Some? {
      ReadTwo(st, off, close);
    } else if st.attributes.underline {
      assert off + "" == off;
      ReadOne(st, off);
    } else if st.link.Some? {
      assert "" + close == close;
      ReadOne(st, close);
    }
  }

  lemma SgrCodesNested(st: Style, whole: seq<string>)
    requires whole == When(st.attributes.bold, "1")
             + (When(st.attributes.dim, "2") + (When(st.attributes.italic, "3") + (When(st.attributes.underline, "4")
                      + (When(st.attributes.blink, "5")
                        + (When(st.attributes.inverse, "7")
                          + (When(st.attributes.hidden, "8") + (When(st.attributes.strikethrough, "9")
                      + (WhenSome(st.fgColor) + WhenSome(st.bgColor)))))))))
    ensures whole == SgrCodes(st)
  {
  }

  lemma ApplyExtendedAt(st: Style, parts: seq<string>, i: nat, n: nat)
    requires i + n <= |parts| && ((n == 3 && parts[i + 1] == "5") || (n == 5 && parts[i + 1] == "2"))
    requires ParseInt(parts[i]) == Some(38) || ParseInt(parts[i]) == Some(48)
    ensures var extended := if ParseInt(parts[i]) == Some(38) then 38 else 48;
            ApplyParts(st, parts[i..])
              == ApplyParts(WithColor(st, extended, Some(Join(parts[i..i + n], ';'))), parts[i + n..])
  {
    var extended := if ParseInt(parts[i]) == Some(38) then 38 else 48;
    var copied := parts[i..i + n];
    assert copied[0] == parts[i] && copied[1] == parts[i + 1];
    assert parts[i..] == copied + parts[i + n..];
    ApplyExtended(st, copied, extended, parts[i + n..]);
  }

  lemma ApplyOneAt(st: Style, parts: seq<string>, i: nat)
    requires i < |parts|
    requires ParseInt(parts[i]) == Some(38) || ParseInt(parts[i]) == Some(48) ==>
               !(i + 2 < |parts| && parts[i + 1] == "5") && !(i + 4 < |parts| && parts[i + 1] == "2")
    ensures ApplyParts(st, parts[i..]) == ApplyParts(ApplyCode(st, ParseInt(parts[i])), parts[i + 1..])
    ensures ParseInt(parts[i]).None? ==> ApplyCode(st, ParseInt(parts[i])) == st
  {
    var rest := parts[i..];
    assert |rest| > 1 ==> rest[1] == parts[i + 1];
    assert rest[1..] == parts[i + 1..] && ExtendedLength(rest) == 0;
  }

  class AnsiCodeTracker {
    var bold: bool
    var dim: bool
    var italic: bool
    var underline: bool
    var blink: bool
    var inverse: bool
    var hidden: bool
    var strikethrough: bool
    var fgColor: Option<string>
    var bgColor: Option<string>
    var activeHyperlink: Option<Hyperlink>

    constructor ()
      ensures State() == PLAIN
    {
      bold, dim, italic, underline, blink, inverse, hidden, strikethrough :=
        false, false, false, false, false, false, false, false;
      fgColor, bgColor, activeHyperlink := None, None, None;
    }

    function State(): Style
      reads this
    {
      Style(Shown(), fgColor, bgColor, activeHyperlink)
    }

    function Shown(): Attributes
      reads this
    {
      Attributes(bold, dim, italic, underline, blink, inverse, hidden, strikethrough)
    }

    /** An SGR reset; it does not affect the hyperlink. */
    method Reset()
      modifies this
      ensures State() == PLAIN.(link := old(activeHyperlink))
    {
      bold, dim, italic, underline, blink, inverse, hidden, strikethrough :=
        false, false, false, false, false, false, false, false;
      fgColor, bgColor := None, None;
    }

    method Clear()
      modifies this
      ensures State() == PLAIN
    {
      Reset();
      activeHyperlink := None;
    }

    method SetAttribute(code: nat)
      modifies this
      ensures State() == old(State()).(attributes := TurnOn(old(Shown()), code))
    {
      if code == 1 { bold := true; }
      else if code == 2 { dim := true; }
      else if code == 3 { italic := true; }
      else if code == 4 { underline := true; }
      else if code == 5 { blink := true; }
      else if code == 7 { inverse := true; }
      else if code == 8 { hidden := true; }
      else if code == 9 { strikethrough := true; }
    }

    method UnsetAttribute(code: nat)
      modifies this
      ensures State() == old(State()).(attributes := TurnOff(old(Shown()), code))
    {
      if code == 21 { bold := false; }
      else if code == 22 { bold, dim := false, false; }
      else if code == 23 { italic := false; }
      else if code == 24 { underline := false; }
      else if code == 25 { blink := false; }
      else if code == 27 { inverse := false; }
      else if code == 28 { hidden := false; }
      else if code == 29 { strikethrough := false; }
    }

    method SetParameter(code: nat)
      modifies this
      ensures State() == ApplyCode(old(State()), Some(code))
    {
      if code == 0 { Reset(); }
      else if code < 10 { SetAttribute(code); }
      else if code < 30 { UnsetAttribute(code); }
      else if code == 39 { fgColor := None; }
      else if code == 49 { bgColor := None; }
      else if IsFg(code) { fgColor := Some(Decimal(code)); }
      else if IsBg(code) { bgColor := Some(Decimal(code)); }
    }

    method SetExtendedColor(foreground: bool, color: string)
      modifies this
      ensures State() == WithColor(old(State()), if foreground then 38 else 48, Some(color))
    {
      if foreground {
        fgColor := Some(color);
      } else {
        bgColor := Some(color);
      }
    }

    method SetParameters(parts: seq<string>)
      modifies this
      ensures State() == ApplyParts(old(State()), parts)
    {
      hide ApplyParts;
      hide ApplyCode;
      hide Join;
      var i := 0;
      assert parts[0..] == parts;
      while i < |parts|
        invariant i <= |parts|
        invariant ApplyParts(State(), parts[i..]) == ApplyParts(old(State()), parts)
      {
        var code := ParseInt(parts[i]);
        if (code == Some(38) || code == Some(48)) && i + 2 < |parts| && parts[i + 1] == "5" {
          ApplyExtendedAt(State(), parts, i, 3);
          SetExtendedColor(code == Some(38), Join(parts[i..i + 3], ';'));
          i := i + 3;
        } else if (code == Some(38) || code == Some(48)) && i + 4 < |parts| && parts[i + 1] == "2" {
          ApplyExtendedAt(State(), parts, i, 5);
          SetExtendedColor(code == Some(38), Join(parts[i..i + 5], ';'));
          i := i + 5;
        } else {
          ApplyOneAt(State(), parts, i);
          if code.Some? {
            SetParameter(code.value);
          }
          i := i + 1;
        }
      }
      assert parts[|parts|..] == [];
      ApplyNothing(State());
    }

    method Process(ansiCode: string)
      modifies this
      ensures State() == AfterCode(old(State()), ansiCode)
    {
      match ParseOsc8(ansiCode) {
        case CloseLink => activeHyperlink := None;
        case OpenLink(link) => activeHyperlink := Some(link);
        case NotALink =>
          if ansiCode == "" || ansiCode[|ansiCode| - 1] != 'm' {
            return;
          }
          var params := MatchSgr(ansiCode, 0);
          if params.None? {
            return;
          }
          if params.value == "" || params.value == "0" {
            Reset();
          } else {
            SetParameters(Split(params.value, ';'));
          }
      }
    }

    /** Pushes the codes of four attributes that are on; `rest` is what is still to be pushed. */
    static method PushCodes(codes: seq<string>, on1: bool, code1: string, on2: bool, code2: string, on3: bool,
        code3: string,
                            on4: bool, code4: string, ghost rest: seq<string>)
      returns (out: seq<string>)
      ensures out + rest
              == codes + (When(on1, code1) + (When(on2, code2) + (When(on3, code3) + (When(on4, code4) + rest))))
    {
      ghost var w1, w2, w3, w4 := When(on1, code1), When(on2, code2), When(on3, code3), When(on4, code4);
      out := PushIf(codes, on1, code1);
      out := PushIf(out, on2, code2);
      out := PushIf(out, on3, code3);
      out := PushIf(out, on4, code4);
      hide When;
      Regroup(codes, w1, w2 + (w3 + (w4 + rest)));
      Regroup(codes + w1, w2, w3 + (w4 + rest));
      Regroup(codes + w1 + w2, w3, w4 + rest);
      Regroup(codes + w1 + w2 + w3, w4, rest);
    }

    static method PushIf(codes: seq<string>, on: bool, code: string) returns (out: seq<string>)
      ensures out == codes + When(on, code)
    {
      out := if on then codes + [code] else codes;
    }

    method GetActiveCodes() returns (result: string)
      ensures result == ActiveCodes(State())
    {
      ghost var st := State();
      ghost var colors := WhenSome(fgColor) + WhenSome(bgColor);
      ghost var more :=
        When(blink, "5") + (When(inverse, "7") + (When(hidden, "8") + (When(strikethrough, "9") + colors)));
      ghost var whole := When(bold, "1") + (When(dim, "2") + (When(italic, "3") + (When(underline, "4") + more)));
      SgrCodesNested(st, whole);
      hide SgrCodes;
      var codes := PushCodes([], bold, "1", dim, "2", italic, "3", underline, "4", more);
      codes := PushCodes(codes, blink, "5", inverse, "7", hidden, "8", strikethrough, "9", colors);
      codes := codes + (WhenSome(fgColor) + WhenSome(bgColor));
      assert codes == whole;
      hide When;
      hide WhenSome;
      hide Join;
      hide LinkCodeOf;
      result := if |codes| > 0 then CSI + Join(codes, ';') + "m" else "";
      assert result == SgrPrint(st);
      if activeHyperlink.Some? {
        result := result + LinkCodeOf(activeHyperlink.value);
      }
    }

    method GetLineEndReset() returns (result: string)
      ensures result == LineEndReset(State())
    {
      result := "";
      if underline {
        result := result + CSI + "24m";
      }
      if activeHyperlink.Some? {
        result := result + OSC8 + ";" + Terminator(activeHyperlink.value.bel);
      }
    }

    /** `updateTrackerFromText`: feeds the tracker every complete sequence of a text. */
    method UpdateFromText(text: string)
      modifies this
      ensures State() == Read(old(State()), text)
    {
      var scanner := new Scanner(text);
      var i := 0;
      while i < |text|
        invariant i <= |text| && scanner.Valid() && scanner.str == text
        invariant fresh(scanner)
        invariant AfterPieces(State(), Pieces(text, i)) == Read(old(State()), text)
      {
        var end, _ := scanner.At(i);
        if end.Some? {
          Process(text[i..end.value]);
          i := end.value;
        } else {
          i := i + 1;
        }
      }
    }
  }
}
