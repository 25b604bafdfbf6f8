/**
  Word wrapping with styles kept (`wrapTextWithAnsi`). Each output line, read on its own from a cleared
  style, shows its graphemes in the style they had in the whole text; the lines hold all cells but white
  space at line ends, and end only where the next word does not fit.
*/
module TextWrap {
  import opened Basics
  import opened AnsiScanner
  import opened StyleTracker
  import opened TextLayout

  /** Every escape sequence in the text is complete. */
  ghost predicate Complete(text: Text) {
    forall i :: 0 <= i < |text| && text[i].Ansi? ==> IsCode(text[i].code)
  }

  function ItemStyle(st: Style, item: Item): Style {
    if item.Ansi? then AfterCode(st, item.code) else st
  }

  ghost function StyleAfter(st: Style, text: Text): Style {
    if text == [] then st else ItemStyle(StyleAfter(st, text[..|text| - 1]), text[|text| - 1])
  }

  /** The graphemes that leave ink, each with the style it is shown in. */
  ghost function Marks(st: Style, text: Text): seq<(string, Style)> {
    if text == [] then []
    else
      var init, last := text[..|text| - 1], text[|text| - 1];
      Marks(st, init) + if last.Cell? && last.ink.Visible? then [(last.glyph, StyleAfter(st, init))] else []
  }

  /** Reading every line from a cleared style. */
  ghost function LineMarks(lines: seq<Text>): seq<(string, Style)> {
    if lines == [] then [] else LineMarks(lines[..|lines| - 1]) + Marks(PLAIN, lines[|lines| - 1])
  }

  ghost function Concat(lines: seq<Text>): Text {
    if lines == [] then [] else Concat(lines[..|lines| - 1]) + lines[|lines| - 1]
  }

  function CodeItem(present: bool, code: string): Text {
    if present then [Ansi(code)] else []
  }

  /** `getActiveCodes` as items. */
  function ActiveItems(st: Style): Text {
    CodeItem(SgrCodes(st) != [], SgrPrint(st)) + CodeItem(st.link.Some?, LinkPrint(st))
  }

  /** `getLineEndReset` as items: underline off and the hyperlink closed. */
  function LineEndItems(st: Style): Text {
    CodeItem(st.attributes.underline, CSI + "24m")
    + if st.link.Some? then [Ansi(OSC8 + ";" + Terminator(st.link.value.bel))] else []
  }

  /** The characters that items stand for. */
  function TextOf(items: Text): string {
    if items == [] then "" else TextOf(items[..|items| - 1]) + if items[|items| - 1].Ansi? then items[|items| - 1].code
      else items[|items| - 1].glyph
  }

  /** The items put at a line's start and end are the tracker's printed codes. */
  lemma PrintedAsItems(st: Style)
    ensures TextOf(ActiveItems(st)) == ActiveCodes(st)
    ensures TextOf(LineEndItems(st)) == LineEndReset(st)
  {
    OneItem(SgrCodes(st) != [], SgrPrint(st), st.link.Some?, LinkPrint(st));
    var close := if st.link.Some? then OSC8 + ";" + Terminator(st.link.value.bel) else "";
    OneItem(st.attributes.underline, CSI + "24m", st.link.Some?, close);
    hide TextOf;
    hide SgrCodes;
    hide LinkCodeOf;
    hide Join;
    hide Terminator;
  }

  lemma OneItem(first: bool, a: string, second: bool, b: string)
    ensures TextOf(CodeItem(first, a) + CodeItem(second, b)) == (if first then a else "") + if second then b else ""
  {
    var items := CodeItem(first, a) + CodeItem(second, b);
    if first && second {
      assert items == [Ansi(a), Ansi(b)] && items[..1] == [Ansi(a)] && items[..1][..0] == [];
      assert TextOf(items[..1]) == "" + a == a;
    } else if first || second {
      assert items == [Ansi(if first then a else b)] && items[..0] == [];
    }
  }

  // Reading concatenations

  lemma {:induction false} StyleConcat(st: Style, a: Text, b: Text)
    ensures StyleAfter(st, a + b) == StyleAfter(StyleAfter(st, a), b)
  {
    if b == [] {
      assert a + b == a;
    } else {
      var ab := a + b;
      assert ab[..|ab| - 1] == a + b[..|b| - 1];
      hide ItemStyle;
      StyleConcat(st, a, b[..|b| - 1]);
    }
  }

  lemma {:induction false} MarksConcat(st: Style, a: Text, b: Text)
    ensures Marks(st, a + b) == Marks(st, a) + Marks(StyleAfter(st, a), b)
  {
    if b == [] {
      assert a + b == a;
    } else {
      var ab, init := a + b, b[..|b| - 1];
      assert ab[..|ab| - 1] == a + init && ab[|ab| - 1] == b[|b| - 1];
      MarksConcat(st, a, init);
      StyleConcat(st, a, init);
      hide StyleAfter;
    }
  }

  lemma LineMarksAdd(lines: seq<Text>, line: Text)
    ensures LineMarks(lines + [line]) == LineMarks(lines) + Marks(PLAIN, line)
  {
    assert (lines + [line])[..|lines|] == lines;
  }

  lemma OneMoreLine(a: seq<Text>, init: seq<Text>, last: Text)
    requires LineMarks(a + init) == LineMarks(a) + LineMarks(init)
    ensures LineMarks(a + (init + [last])) == LineMarks(a) + LineMarks(init + [last])
  {
    hide Marks;
    hide LineMarks;
    Regroup(a, init, [last]);
    LineMarksAdd(init, last);
    LineMarksAdd(a + init, last);
    Regroup(LineMarks(a), LineMarks(init), Marks(PLAIN, last));
  }

  lemma {:induction false} LineMarksConcat(a: seq<Text>, b: seq<Text>)
    ensures LineMarks(a + b) == LineMarks(a) + LineMarks(b)
  {
    if b == [] {
      assert a + b == a;
    } else {
      hide Marks;
      hide LineMarks;
      var init, last := b[..|b| - 1], b[|b| - 1];
      assert b == init + [last];
      LineMarksConcat(a, init);
      OneMoreLine(a, init, last);
    }
  }

  lemma ConcatAdd(lines: seq<Text>, line: Text)
    ensures Concat(lines + [line]) == Concat(lines) + line
  {
    assert (lines + [line])[..|lines|] == lines;
  }

  /** A text that leaves no ink. */
  lemma {:induction false} NoInk(st: Style, text: Text)
    requires forall i :: 0 <= i < |text| ==> text[i].Ansi? || !text[i].ink.Visible?
    ensures Marks(st, text) == []
    ensures NoCells(text) ==> Width(text) == 0
    ensures (forall i :: 0 <= i < |text| ==> text[i].Cell?) ==> StyleAfter(st, text) == st
  {
    if text != [] {
      NoInk(st, text[..|text| - 1]);
    }
  }

  lemma {:induction false} TrimKeeps(text: Text)
    ensures forall st :: Marks(st, TrimEnd(text)) == Marks(st, text)
    ensures forall st :: StyleAfter(st, TrimEnd(text)) == StyleAfter(st, text)
    ensures Width(TrimEnd(text)) <= Width(text)
    ensures Complete(text) ==> Complete(TrimEnd(text))
  {
    if text != [] && text[|text| - 1].Cell? && !text[|text| - 1].ink.Visible? {
      TrimKeeps(text[..|text| - 1]);
    }
  }

  lemma ActiveItemsAreCodes(st: Style)
    requires Reachable(st)
    ensures Complete(ActiveItems(st)) && NoCells(ActiveItems(st))
  {
    PrintedPieces(st);
    var sgr, link := CodeItem(SgrCodes(st) != [], SgrPrint(st)), CodeItem(st.link.Some?, LinkPrint(st));
    hide AfterCode;
    hide SgrCodes;
    hide SgrPrint;
    hide LinkPrint;
    hide Reachable;
    hide IsCode;
    CodeItemIsCode(SgrCodes(st) != [], SgrPrint(st));
    CodeItemIsCode(st.link.Some?, LinkPrint(st));
    hide CodeItem;
    CompleteConcat(sgr, link);
  }

  lemma CodeItemIsCode(present: bool, code: string)
    requires present ==> IsCode(code)
    ensures Complete(CodeItem(present, code)) && NoCells(CodeItem(present, code))
  {
    hide IsCode;
  }

  lemma CompleteConcat(a: Text, b: Text)
    requires Complete(a) && Complete(b)
    ensures Complete(a + b)
    ensures NoCells(a) && NoCells(b) ==> NoCells(a + b)
  {
    hide IsCode;
  }

  lemma ActiveItemsShowNothing(st: Style)
    requires Reachable(st)
    ensures forall start :: Marks(start, ActiveItems(st)) == []
    ensures Width(ActiveItems(st)) == 0 && Complete(ActiveItems(st))
  {
    ActiveItemsAreCodes(st);
    hide ActiveItems;
    hide Reachable;
    hide Marks;
    forall start
      ensures Marks(start, ActiveItems(st)) == []
    {
      NoInk(start, ActiveItems(st));
    }
    NoInk(st, ActiveItems(st));
  }

  /** The codes printed at a line's start bring a cleared style to the active one. */
  lemma ActiveItemsRestore(st: Style)
    requires Reachable(st)
    ensures StyleAfter(PLAIN, ActiveItems(st)) == st
  {
    PrintedPieces(st);
    var sgr, link := CodeItem(SgrCodes(st) != [], SgrPrint(st)), CodeItem(st.link.Some?, LinkPrint(st));
    hide AfterCode;
    hide SgrCodes;
    StyleConcat(PLAIN, sgr, link);
    OneCode(PLAIN, SgrPrint(st));
    OneCode(st.(link := None), LinkPrint(st));
  }

  /** A line that starts with the active codes reads like its text in the active style. */
  lemma FreshLine(st: Style, text: Text)
    requires Reachable(st)
    ensures Marks(PLAIN, ActiveItems(st) + text) == Marks(st, text)
    ensures StyleAfter(PLAIN, ActiveItems(st) + text) == StyleAfter(st, text)
    ensures Width(ActiveItems(st) + text) == Width(text)
  {
    ActiveItemsShowNothing(st);
    ActiveItemsRestore(st);
    hide ActiveItems;
    MarksConcat(PLAIN, ActiveItems(st), text);
    StyleConcat(PLAIN, ActiveItems(st), text);
    WidthConcat(ActiveItems(st), text);
  }

  lemma OneCode(st: Style, code: string)
    ensures StyleAfter(st, [Ansi(code)]) == AfterCode(st, code)
  {
    assert [Ansi(code)][..0] == [];
  }

  lemma LineEndIsCodes(st: Style)
    ensures NoCells(LineEndItems(st))
    ensures st == PLAIN ==> LineEndItems(st) == []
  {
  }

  lemma LineEndKeeps(line: Text, st: Style)
    ensures Marks(PLAIN, line + LineEndItems(st)) == Marks(PLAIN, line)
    ensures Width(line + LineEndItems(st)) == Width(line)
  {
    LineEndIsCodes(st);
    hide LineEndItems;
    NoInk(StyleAfter(PLAIN, line), LineEndItems(st));
    hide Marks;
    hide StyleAfter;
    hide Width;
    MarksConcat(PLAIN, line, LineEndItems(st));
    WidthConcat(line, LineEndItems(st));
  }

  /** Nothing runs on past the line's end: the underline is off and no hyperlink is open. */
  ghost predicate Closed(line: Text) {
    !StyleAfter(PLAIN, line).attributes.underline && StyleAfter(PLAIN, line).link.None?
  }

  ghost predicate AllClosed(lines: seq<Text>) {
    forall k :: 0 <= k < |lines| ==> Closed(lines[k])
  }

  lemma LineEndCloses(line: Text, st: Style)
    requires StyleAfter(PLAIN, line) == st
    ensures Closed(line + LineEndItems(st))
  {
    var off := CodeItem(st.attributes.underline, CSI + "24m");
    var close: Text := if st.link.Some? then [Ansi(OSC8 + ";" + Terminator(st.link.value.bel))] else [];
    StyleConcat(PLAIN, line, off + close);
    StyleConcat(st, off, close);
    UnderlineOffCode(st);
    OneCode(st, CSI + "24m");
    var next := StyleAfter(st, off);
    if st.link.Some? {
      LinkCloseCode(next, st.link.value.bel);
      OneCode(next, OSC8 + ";" + Terminator(st.link.value.bel));
    }
    hide AfterCode;
    hide IsCode;
    hide Terminator;
  }

  lemma ClosedMore(lines: seq<Text>, more: seq<Text>)
    requires AllClosed(lines) && AllClosed(more)
    ensures AllClosed(lines + more)
  {
    hide Closed;
  }

  lemma {:induction false} StyleStaysReachable(st: Style, text: Text)
    requires Reachable(st) && Complete(text)
    ensures Reachable(StyleAfter(st, text))
  {
    if text != [] {
      StyleStaysReachable(st, text[..|text| - 1]);
      if text[|text| - 1].Ansi? {
        ProcessKeepsReachable(StyleAfter(st, text[..|text| - 1]), text[|text| - 1].code);
      }
    }
  }

  // Tokens

  /** Runs of plain spaces and of everything else take turns. */
  ghost predicate Alternate(tokens: seq<Text>, kinds: seq<bool>) {
    && |kinds| == |tokens|
    && (forall k :: 0 <= k < |tokens| ==> HasCell(tokens[k]) && OfKind(tokens[k], kinds[k]))
    && (forall k :: 0 < k < |kinds| ==> kinds[k - 1] != kinds[k])
  }

  lemma AddToken(tokens: seq<Text>, kinds: seq<bool>, token: Text, spaces: bool)
    requires Alternate(tokens, kinds) && HasCell(token) && OfKind(token, spaces)
    requires kinds != [] ==> kinds[|kinds| - 1] != spaces
    ensures Alternate(tokens + [token], kinds + [spaces])
  {
    hide HasCell;
    hide OfKind;
  }

  /** Held-back escape sequences and the cell they were waiting for join a token. */
  lemma GrowToken(current: Text, pendingAnsi: Text, cell: Item, spaces: bool)
    requires OfKind(current, spaces) && NoCells(pendingAnsi) && cell.Cell? && (cell.ink == PlainSpace) == spaces
    ensures HasCell(current + pendingAnsi + [cell]) && OfKind(current + pendingAnsi + [cell], spaces)
  {
    var grown := current + pendingAnsi + [cell];
    assert grown[|grown| - 1] == cell;
  }

  lemma TrailingCodes(current: Text, pendingAnsi: Text, spaces: bool)
    requires NoCells(pendingAnsi) && (current != [] ==> HasCell(current) && OfKind(current, spaces))
    ensures current != [] ==> HasCell(current + pendingAnsi) && OfKind(current + pendingAnsi, spaces)
    ensures current == [] ==> NoCells(current + pendingAnsi)
  {
    if current != [] {
      var i :| 0 <= i < |current| && current[i].Cell?;
      assert (current + pendingAnsi)[i] == current[i];
    }
  }

  lemma Associate4(a: Text, b: Text, c: Text, d: Text)
    ensures a + b + c + d == a + (b + c + d) + []
    ensures a + b + c + d == a + b + (c + d)
    ensures a + b + c == a + (b + c)
    ensures a + b + c == a + b + [] + c
  {
  }

  /** `splitIntoTokensWithAnsi`: escape sequences go to the next visible item, trailing ones to the last token. */
  method SplitIntoTokens(text: Text) returns (tokens: seq<Text>, ghost kinds: seq<bool>)
    ensures Concat(tokens) == text
    ensures HasCell(text) ==> Alternate(tokens, kinds)
  {
    tokens, kinds := [], [];
    var current: Text, pendingAnsi: Text := [], [];
    var inWhitespace := false;
    assert NoCells([]);
    hide HasCell;
    hide OfKind;
    hide NoCells;
    for i := 0 to |text|
      invariant Concat(tokens) + current + pendingAnsi == text[..i]
      invariant Alternate(tokens, kinds) && NoCells(pendingAnsi)
      invariant current == [] ==> tokens == [] && NoCells(text[..i])
      invariant current != [] ==>
                HasCell(current) && OfKind(current, inWhitespace)
                  && (kinds != [] ==> kinds[|kinds| - 1] != inWhitespace)
    {
      assert text[..i + 1] == text[..i] + [text[i]];
      Associate4(Concat(tokens), current, pendingAnsi, [text[i]]);
      if text[i].Ansi? {
        CodesAdd(pendingAnsi, text[i]);
        CodesAdd(text[..i], text[i]);
        pendingAnsi := pendingAnsi + [text[i]];
      } else {
        var charIsSpace := text[i].ink == PlainSpace;
        if charIsSpace != inWhitespace && current != [] {
          ConcatAdd(tokens, current);
          AddToken(tokens, kinds, current, inWhitespace);
          tokens, kinds := tokens + [current], kinds + [inWhitespace];
          current := [];
          Associate4(Concat(tokens), current, pendingAnsi, [text[i]]);
        }
        EmptyIsOfKind(charIsSpace);
        GrowToken(current, pendingAnsi, text[i], charIsSpace);
        current := current + pendingAnsi + [text[i]];
        pendingAnsi := [];
        inWhitespace := charIsSpace;
      }
    }
    assert text[..|text|] == text;
    TrailingCodes(current, pendingAnsi, inWhitespace);
    NoCellsHasNone(text);
    Associate4(Concat(tokens), current, pendingAnsi, []);
    current := current + pendingAnsi;
    if current != [] {
      ConcatAdd(tokens, current);
      if HasCell(current) && OfKind(current, inWhitespace) && (kinds != [] ==> kinds[|kinds| - 1] != inWhitespace) {
        AddToken(tokens, kinds, current, inWhitespace);
      }
      tokens, kinds := tokens + [current], kinds + [inWhitespace];
    }
  }

  lemma CodesAdd(text: Text, code: Item)
    requires code.Ansi?
    ensures NoCells(text) ==> NoCells(text + [code])
  {
  }

  lemma EmptyIsOfKind(spaces: bool)
    ensures OfKind([], spaces)
  {
  }

  lemma NoCellsHasNone(text: Text)
    ensures NoCells(text) ==> !HasCell(text)
  {
  }

  // Lines in the making

  function ItemMark(st: Style, item: Item): seq<(string, Style)> {
    if item.Cell? && item.ink.Visible? then [(item.glyph, st)] else []
  }

  lemma AddItem(st: Style, text: Text, item: Item)
    ensures Marks(st, text + [item]) == Marks(st, text) + ItemMark(StyleAfter(st, text), item)
    ensures StyleAfter(st, text + [item]) == ItemStyle(StyleAfter(st, text), item)
    ensures Width(text + [item]) == Width(text) + ItemWidth(item)
  {
    assert (text + [item])[..|text|] == text;
    hide ItemStyle;
  }

  /** The lines done so far and the current one, each read from a cleared style, show what `text` shows from `st`. */
  ghost predicate Reads(wrapped: seq<Text>, current: Text, st: Style, text: Text) {
    && LineMarks(wrapped) + Marks(PLAIN, current) == Marks(st, text)
    && StyleAfter(PLAIN, current) == StyleAfter(st, text) && Reachable(StyleAfter(st, text))
    && AllClosed(wrapped)
  }

  lemma ReadsItem(wrapped: seq<Text>, current: Text, st: Style, text: Text, item: Item)
    requires Reads(wrapped, current, st, text) && (item.Ansi? ==> IsCode(item.code))
    ensures Reads(wrapped, current + [item], st, text + [item])
  {
    hide Closed;
    hide AllClosed;
    if item.Ansi? {
      ProcessKeepsReachable(StyleAfter(st, text), item.code);
    }
    hide Reachable;
    hide AfterCode;
    AddItem(PLAIN, current, item);
    AddItem(st, text, item);
    hide Marks;
    hide StyleAfter;
    hide LineMarks;
  }

  lemma ReadsToken(wrapped: seq<Text>, current: Text, st: Style, text: Text, token: Text)
    requires Reads(wrapped, current, st, text) && Complete(token)
    ensures Reads(wrapped, current + token, st, text + token)
  {
    hide Closed;
    hide AllClosed;
    StyleStaysReachable(StyleAfter(st, text), token);
    hide Reachable;
    hide Complete;
    MarksConcat(PLAIN, current, token);
    MarksConcat(st, text, token);
    StyleConcat(PLAIN, current, token);
    StyleConcat(st, text, token);
    hide Marks;
    hide StyleAfter;
    hide LineMarks;
  }

  /** Ending the line, with or without its trailing white space, and starting the next with the active codes. */
  lemma ReadsBreak(wrapped: seq<Text>, current: Text, st: Style, text: Text)
    requires Reads(wrapped, current, st, text)
    ensures var now := StyleAfter(st, text);
            && Reads(wrapped + [current + LineEndItems(now)], ActiveItems(now), st, text)
            && Reads(wrapped + [TrimEnd(current) + LineEndItems(now)], ActiveItems(now), st, text)
            && LineMarks(wrapped + [current + LineEndItems(now)]) == Marks(st, text)
            && AllClosed(wrapped + [current + LineEndItems(now)])
  {
    hide Closed;
    hide AllClosed;
    var now := StyleAfter(st, text);
    ActiveItemsRestore(now);
    ActiveItemsShowNothing(now);
    hide Reachable;
    hide ActiveItems;
    LineEndKeeps(current, now);
    LineEndKeeps(TrimEnd(current), now);
    TrimKeeps(current);
    LineEndCloses(current, now);
    LineEndCloses(TrimEnd(current), now);
    OneClosed(wrapped, current + LineEndItems(now));
    OneClosed(wrapped, TrimEnd(current) + LineEndItems(now));
    hide LineEndItems;
    LineMarksAdd(wrapped, current + LineEndItems(now));
    LineMarksAdd(wrapped, TrimEnd(current) + LineEndItems(now));
    hide Marks;
    hide LineMarks;
    hide StyleAfter;
    hide TrimEnd;
  }

  lemma OneClosed(lines: seq<Text>, line: Text)
    requires AllClosed(lines) && Closed(line)
    ensures AllClosed(lines + [line])
  {
    hide Closed;
  }

  lemma ReadsBlank(wrapped: seq<Text>, current: Text, st: Style, text: Text, token: Text)
    requires Reads(wrapped, current, st, text) && IsBlank(token)
    ensures Reads(wrapped, current, st, text + token)
  {
    hide Closed;
    hide AllClosed;
    NoInk(StyleAfter(st, text), token);
    hide Reachable;
    MarksConcat(st, text, token);
    StyleConcat(st, text, token);
    hide Marks;
    hide LineMarks;
    hide StyleAfter;
  }

  lemma ReadsStart(st: Style)
    requires Reachable(st)
    ensures Reads([], ActiveItems(st), st, [])
  {
    ActiveItemsRestore(st);
    ActiveItemsShowNothing(st);
    hide Reachable;
    hide ActiveItems;
  }

  /** The lines of a broken word follow the lines before it. */
  lemma ReadsBroken(wrapped: seq<Text>, broken: seq<Text>, text: Text, word: Text, width: nat)
    requires LineMarks(wrapped) == Marks(PLAIN, text) && AllClosed(wrapped)
             && ShowsWord(broken, StyleAfter(PLAIN, text), word, width)
    ensures Reads(wrapped + broken[..|broken| - 1], broken[|broken| - 1], PLAIN, text + word)
  {
    hide Closed;
    hide AllClosed;
    hide Reachable;
    hide Marks;
    hide StyleAfter;
    hide Fits;
    hide LinesWithin;
    hide Width;
    var init, last := broken[..|broken| - 1], broken[|broken| - 1];
    LineMarksConcat(wrapped, init);
    ClosedMore(wrapped, init);
    MarksConcat(PLAIN, text, word);
    StyleConcat(PLAIN, text, word);
    Regroup(LineMarks(wrapped), LineMarks(init), Marks(PLAIN, last));
    assert LineMarks(broken) == LineMarks(init) + Marks(PLAIN, last);
    hide LineMarks;
  }

  // Breaking and wrapping

  /** Every cell fits a line of the given width. */
  ghost predicate Fits(text: Text, width: nat) {
    forall i :: 0 <= i < |text| && text[i].Cell? ==> text[i].width <= width
  }

  ghost predicate LinesWithin(lines: seq<Text>, width: nat) {
    forall k :: 0 <= k < |lines| ==> Width(lines[k]) <= width
  }

  method UpdateTracker(tracker: AnsiCodeTracker, text: Text)
    modifies tracker
    ensures tracker.State() == StyleAfter(old(tracker.State()), text)
  {
    for i := 0 to |text|
      invariant tracker.State() == StyleAfter(old(tracker.State()), text[..i])
    {
      assert text[..i + 1] == text[..i] + [text[i]];
      AddItem(old(tracker.State()), text[..i], text[i]);
      if text[i].Ansi? {
        tracker.Process(text[i].code);
      }
    }
    assert text[..|text|] == text;
  }

  /**
    The lines of a word that was read in style `st`: its marks, its final style, and within the width if its
    cells are.
  */
  ghost predicate ShowsWord(lines: seq<Text>, st: Style, word: Text, width: nat) {
    && lines != [] && LineMarks(lines) == Marks(st, word) && AllClosed(lines[..|lines| - 1])
    && StyleAfter(PLAIN, lines[|lines| - 1]) == StyleAfter(st, word) && Reachable(StyleAfter(st, word))
    && (Fits(word, width) ==> LinesWithin(lines, width) && (Width(word) > 0 ==> Width(lines[|lines| - 1]) > 0))
  }

  /** What `breakLongWord` has made of a prefix `text` of the word. */
  ghost predicate BrokenSoFar(lines: seq<Text>, current: Text, st: Style, text: Text, width: nat) {
    && Reads(lines, current, st, text) && (current == [] ==> lines == [])
    && (Fits(text, width) ==> LinesWithin(lines, width) && Width(current) <= width)
    && (Fits(text, width) && Width(text) > 0 ==> Width(current) > 0)
  }

  lemma FitsMore(text: Text, item: Item, width: nat)
    ensures Fits(text + [item], width) ==> Fits(text, width) && ItemWidth(item) <= width
  {
    var all := text + [item];
    assert all[|text|] == item;
    assert forall i :: 0 <= i < |text| ==> all[i] == text[i];
  }

  lemma BreakAdds(lines: seq<Text>, current: Text, st: Style, text: Text, item: Item, width: nat)
    requires BrokenSoFar(lines, current, st, text, width) && (item.Ansi? ==> IsCode(item.code))
    requires item.Cell? ==> Width(current) + item.width <= width
    ensures BrokenSoFar(lines, current + [item], st, text + [item], width)
    ensures Width(current + [item]) == Width(current) + ItemWidth(item)
  {
    ReadsItem(lines, current, st, text, item);
    AddItem(st, text, item);
    AddItem(st, current, item);
    FitsMore(text, item, width);
    hide Reads;
    hide Width;
    hide Fits;
    hide LinesWithin;
    hide IsCode;
  }

  lemma BreakStartsLine(lines: seq<Text>, current: Text, st: Style, text: Text, item: Item, width: nat)
    requires BrokenSoFar(lines, current, st, text, width) && item.Cell?
    requires Width(current) + item.width > width
    ensures var now := StyleAfter(st, text);
            && BrokenSoFar(lines + [current + LineEndItems(now)], ActiveItems(now) + [item], st, text + [item], width)
            && Width(ActiveItems(now) + [item]) == item.width
  {
    hide Reads;
    hide Width;
    hide Fits;
    hide IsCode;
    hide Reachable;
    hide LinesWithin;
    hide ActiveItems;
    hide LineEndItems;
    hide StyleAfter;
    hide Marks;
    hide LineMarks;
    hide TrimEnd;
    hide ItemMark;
    hide ItemStyle;
    var now := StyleAfter(st, text);
    ReadsBreak(lines, current, st, text);
    BreakWidth(st, text, lines, current);
    LineEndKeeps(current, now);
    var done, next := lines + [current + LineEndItems(now)], ActiveItems(now);
    ReadsItem(done, next, st, text, item);
    AddItem(st, text, item);
    AddItem(st, next, item);
    FitsMore(text, item, width);
    LinesMore(lines, current + LineEndItems(now), width);
  }

  lemma CutsLine(lines: seq<Text>, current: Text, st: Style, text: Text, starts: seq<int>, width: nat, item: Item)
    requires CutUp(lines + [current], Cells(text), starts, width) && item.Cell? && Width(current) + item.width > width
    requires Reads(lines, current, st, text)
    ensures var now := StyleAfter(st, text);
            CutUp((lines + [current + LineEndItems(now)]) + [ActiveItems(now) + [item]], Cells(text + [item]),
              starts + [|Cells(text)|], width)
  {
    hide CutUp;
    hide Cells;
    hide Width;
    hide Reachable;
    var now := StyleAfter(st, text);
    ActiveItemsAreCodes(now);
    EndHasNoCells(current, now);
    hide ActiveItems;
    hide LineEndItems;
    hide StyleAfter;
    CutBreaks(lines, current, text, starts, width, item, current + LineEndItems(now), ActiveItems(now));
  }

  lemma EndHasNoCells(line: Text, now: Style)
    ensures Cells(line + LineEndItems(now)) == Cells(line)
  {
    LineEndIsCodes(now);
    CellsConcat(line, LineEndItems(now));
    CellsSay(LineEndItems(now), false);
    hide LineEndItems;
  }

  lemma LinesMore(lines: seq<Text>, line: Text, width: nat)
    ensures LinesWithin(lines, width) && Width(line) <= width ==> LinesWithin(lines + [line], width)
  {
    hide Width;
  }

  /** One round of the loop in `breakLongWord`. */
  method BreakItem(item: Item, lines: seq<Text>, line: Text, lineWidth: nat, width: nat, tracker: AnsiCodeTracker,
      ghost st: Style, ghost text: Text, ghost starts: seq<int>)
    returns (allLines: seq<Text>, currentLine: Text, currentWidth: nat, ghost allStarts: seq<int>)
    requires BrokenSoFar(lines, line, st, text, width) && lineWidth == Width(line)
    requires tracker.State() == StyleAfter(st, text) && (item.Ansi? ==> IsCode(item.code))
    requires CutUp(lines + [line], Cells(text), starts, width)
    modifies tracker
    ensures BrokenSoFar(allLines, currentLine, st, text + [item], width) && currentWidth == Width(currentLine)
    ensures CutUp(allLines + [currentLine], Cells(text + [item]), allStarts, width)
    ensures tracker.State() == StyleAfter(st, text + [item])
  {
    AddItem(st, text, item);
    if item.Cell? && lineWidth + item.width > width {
      BreakStartsLine(lines, line, st, text, item, width);
      CutsLine(lines, line, st, text, starts, width, item);
      allStarts := starts + [|Cells(text)|];
    } else {
      BreakAdds(lines, line, st, text, item, width);
      CutAdds(lines, line, text, starts, width, item);
      allStarts := starts;
    }
    hide CutUp;
    hide Cells;
    hide BrokenSoFar;
    hide IsCode;
    hide AfterCode;
    hide StyleAfter;
    hide Marks;
    hide Width;
    hide ActiveItems;
    hide LineEndItems;
    allLines, currentLine, currentWidth := lines, line, lineWidth;
    if item.Ansi? {
      currentLine := currentLine + [item];
      tracker.Process(item.code);
    } else {
      if currentWidth + item.width > width {
        allLines := allLines + [currentLine + LineEndItems(tracker.State())];
        currentLine, currentWidth := ActiveItems(tracker.State()), 0;
      }
      currentLine := currentLine + [item];
      currentWidth := currentWidth + item.width;
    }
  }

  /**
    `breakLongWord`: the word's lines read like the word, and the tracker has read it. The lines are its cells,
    cut wherever the next one does not fit.
  */
  method BreakLongWord(word: Text, width: nat, tracker: AnsiCodeTracker)
      returns (lines: seq<Text>, ghost starts: seq<int>)
    requires Complete(word) && Reachable(tracker.State())
    modifies tracker
    ensures tracker.State() == StyleAfter(old(tracker.State()), word)
    ensures ShowsWord(lines, old(tracker.State()), word, width) && CutUp(lines, Cells(word), starts, width)
  {
    hide *;
    ghost var st, done: Text := tracker.State(), [];
    lines := [];
    var currentLine, currentWidth := ActiveItems(tracker.State()), 0;
    BreakStart(st, width);
    starts := [0];
    for i := 0 to |word|
      invariant BrokenSoFar(lines, currentLine, st, done, width) && tracker.State() == StyleAfter(st, done)
      invariant currentWidth == Width(currentLine) && done == word[..i]
      invariant CutUp(lines + [currentLine], Cells(done), starts, width)
    {
      CodeAt(word, i);
      lines, currentLine, currentWidth, starts :=
        BreakItem(word[i], lines, currentLine, currentWidth, width, tracker, st, done, starts);
      done := done + [word[i]];
    }
    assert done == word;
    BreakEnd(lines, currentLine, st, word, width);
    lines := CloseLines(lines, currentLine);
  }

  /** The lines with the last one, which is left out when empty unless there is no other. */
  method CloseLines(lines: seq<Text>, currentLine: Text) returns (allLines: seq<Text>)
    requires currentLine == [] ==> lines == []
    ensures allLines == lines + [currentLine]
  {
    allLines := lines;
    if currentLine != [] {
      allLines := allLines + [currentLine];
    }
    if allLines == [] {
      allLines := [[]];
    }
  }

  lemma BreakStart(st: Style, width: nat)
    requires Reachable(st)
    ensures BrokenSoFar([], ActiveItems(st), st, [], width) && Width(ActiveItems(st)) == 0
    ensures StyleAfter(st, []) == st && CutUp([] + [ActiveItems(st)], Cells([]), [0], width)
  {
    ReadsStart(st);
    ActiveItemsAreCodes(st);
    CutStarts(ActiveItems(st), width);
    hide CutUp;
    hide Cells;
    ActiveItemsShowNothing(st);
    hide Reachable;
    hide ActiveItems;
    hide Reads;
  }

  lemma BreakEnd(lines: seq<Text>, current: Text, st: Style, text: Text, width: nat)
    requires BrokenSoFar(lines, current, st, text, width)
    ensures (current == [] ==> lines == []) && ShowsWord(lines + [current], st, text, width)
  {
    hide Reachable;
    LineMarksAdd(lines, current);
  }

  lemma CodeAt(text: Text, i: nat)
    requires Complete(text) && i < |text|
    ensures text[i].Ansi? ==> IsCode(text[i].code)
  {
    hide IsCode;
  }

  lemma BreakWidth(st: Style, text: Text, lines: seq<Text>, current: Text)
    requires Reads(lines, current, st, text)
    ensures Width(ActiveItems(StyleAfter(st, text))) == 0
  {
    ActiveItemsShowNothing(StyleAfter(st, text));
  }

  // Wrapping one line

  /**
    The case the width bound is stated for: every cell is one to `width` wide, and the only white space is
    the plain space.
  */
  ghost predicate Measured(text: Text, width: nat) {
    forall i :: 0 <= i < |text| && text[i].Cell? ==> 1 <= text[i].width <= width && !text[i].ink.OtherSpace?
  }

  ghost predicate TrimmedWithin(lines: seq<Text>, width: nat) {
    forall k :: 0 <= k < |lines| ==> Width(TrimEnd(lines[k])) <= width
  }

  /** The current line fits, or it is one overlong run of spaces at the very start, which trimming removes. */
  ghost predicate LineFits(current: Text, now: Style, width: nat) {
    Width(current) <= width || (TrimEnd(current) == [] && now == PLAIN)
  }

  /** What `wrapSingleLine` has made of the tokens in `text`; `spaces` tells the kind of the last one. */
  ghost predicate WrappedSoFar(wrapped: seq<Text>, current: Text, text: Text, width: nat, spaces: bool) {
    && Reads(wrapped, current, PLAIN, text) && (text == [] ==> current == [])
    && (Measured(text, width) ==> Sized(wrapped, current, text, width, spaces))
  }

  ghost predicate Sized(wrapped: seq<Text>, current: Text, text: Text, width: nat, spaces: bool) {
    && TrimmedWithin(wrapped, width) && LineFits(current, StyleAfter(PLAIN, text), width)
    && (Width(current) == 0 && text != [] ==> spaces)
  }

  lemma MeasuredParts(a: Text, b: Text, width: nat)
    ensures Measured(a + b, width) ==> Measured(a, width) && Measured(b, width)
    ensures Measured(b, width) ==> Fits(b, width)
  {
    var ab := a + b;
    assert forall i :: 0 <= i < |a| ==> ab[i] == a[i];
    assert forall i :: 0 <= i < |b| ==> b[i] == ab[|a| + i];
  }

  lemma {:induction false} CellHasWidth(text: Text, width: nat)
    requires HasCell(text) && Measured(text, width)
    ensures Width(text) > 0
  {
    if !text[|text| - 1].Cell? {
      CellHasWidth(text[..|text| - 1], width);
    }
  }

  lemma TokenKind(token: Text, spaces: bool, width: nat)
    requires HasCell(token) && OfKind(token, spaces) && Measured(token, width)
    ensures Width(token) > 0 && (!spaces ==> !IsBlank(token))
  {
    CellHasWidth(token, width);
    var i :| 0 <= i < |token| && token[i].Cell?;
    hide Width;
  }

  lemma {:induction false} BlankTrims(token: Text)
    requires IsBlank(token)
    ensures TrimEnd(token) == []
  {
    if token != [] {
      BlankTrims(token[..|token| - 1]);
    }
  }

  lemma EndedLine(current: Text, now: Style, width: nat)
    requires LineFits(current, now, width)
    ensures Width(TrimEnd(current + LineEndItems(now))) <= width
    ensures Width(TrimEnd(TrimEnd(current) + LineEndItems(now))) <= width
  {
    var end := LineEndItems(now);
    LineEndIsCodes(now);
    hide LineEndItems;
    hide Marks;
    TrimKeeps(current);
    if end == [] {
      assert current + end == current && TrimEnd(current) + end == TrimEnd(current);
      TrimKeeps(TrimEnd(current));
    } else {
      WidthConcat(current, end);
      WidthConcat(TrimEnd(current), end);
      NoInk(now, end);
      TrimKeeps(current + end);
      TrimKeeps(TrimEnd(current) + end);
    }
    hide Width;
    hide TrimEnd;
  }

  lemma TrimmedMore(lines: seq<Text>, line: Text, width: nat)
    requires TrimmedWithin(lines, width) && Width(TrimEnd(line)) <= width
    ensures TrimmedWithin(lines + [line], width)
  {
    hide Width;
    hide TrimEnd;
  }

  lemma TrimmedBroken(wrapped: seq<Text>, broken: seq<Text>, width: nat)
    requires TrimmedWithin(wrapped, width) && LinesWithin(broken, width)
    ensures TrimmedWithin(wrapped + broken, width)
  {
    forall k | 0 <= k < |broken|
      ensures Width(TrimEnd(broken[k])) <= width
    {
      TrimKeeps(broken[k]);
    }
    hide Width;
    hide TrimEnd;
  }

  // One token at a time. `spaces` is the kind of the token before, `kind` that of the token itself.

  ghost predicate NextToken(text: Text, token: Text, spaces: bool, kind: bool) {
    Complete(token) && HasCell(token) && OfKind(token, kind) && (text != [] ==> kind != spaces)
  }

  /** What a measured token gives every step. */
  lemma TokenMeasured(text: Text, token: Text, kind: bool, width: nat)
    requires HasCell(token) && OfKind(token, kind) && Measured(text + token, width)
    ensures Measured(text, width) && Width(token) > 0 && (!kind ==> !IsBlank(token)) && Fits(token, width)
    ensures text + token != []
  {
    MeasuredParts(text, token, width);
    TokenKind(token, kind, width);
  }

  lemma AppendToken(wrapped: seq<Text>, current: Text, text: Text, token: Text, width: nat, spaces: bool, kind: bool)
    requires WrappedSoFar(wrapped, current, text, width, spaces) && NextToken(text, token, spaces, kind)
    requires Width(current) + Width(token) <= width || Width(current) == 0
    requires Width(token) <= width || IsBlank(token)
    ensures WrappedSoFar(wrapped, current + token, text + token, width, kind)
    ensures Width(current + token) == Width(current) + Width(token)
  {
    ReadsToken(wrapped, current, PLAIN, text, token);
    WidthConcat(current, token);
    hide Reads;
    hide Width;
    hide Fits;
    hide Complete;
    assert text + token != [] by { TokenNotEmpty(text, token); }
    if Measured(text + token, width) {
      TokenMeasured(text, token, kind, width);
      if Width(current + token) > width {
        assert text == [] && current == [];
        assert current + token == token && text + token == token;
        BlankTrims(token);
        NoInk(PLAIN, token);
      }
    }
  }

  lemma TokenNotEmpty(text: Text, token: Text)
    requires HasCell(token)
    ensures text + token != []
  {
  }

  lemma DropBlank(wrapped: seq<Text>, current: Text, text: Text, token: Text, width: nat, spaces: bool, kind: bool)
    requires WrappedSoFar(wrapped, current, text, width, spaces) && NextToken(text, token, spaces, kind)
             && IsBlank(token)
    ensures var now := StyleAfter(PLAIN, text);
            && WrappedSoFar(wrapped + [TrimEnd(current) + LineEndItems(now)], ActiveItems(now), text + token, width,
               kind)
            && Width(ActiveItems(now)) == 0
  {
    var now := StyleAfter(PLAIN, text);
    var line := TrimEnd(current) + LineEndItems(now);
    ReadsBreak(wrapped, current, PLAIN, text);
    BreakWidth(PLAIN, text, wrapped, current);
    ReadsBlank(wrapped + [line], ActiveItems(now), PLAIN, text, token);
    TokenNotEmpty(text, token);
    hide Reads;
    hide ActiveItems;
    if Measured(text + token, width) {
      TokenMeasured(text, token, kind, width);
      EndedLine(current, now, width);
      TrimmedMore(wrapped, line, width);
    }
    hide Width;
    hide TrimEnd;
    hide LineEndItems;
    hide StyleAfter;
  }

  lemma StartLine(wrapped: seq<Text>, current: Text, text: Text, token: Text, width: nat, spaces: bool, kind: bool)
    requires WrappedSoFar(wrapped, current, text, width, spaces) && NextToken(text, token, spaces, kind)
    requires Width(token) <= width
    ensures var now := StyleAfter(PLAIN, text);
            && WrappedSoFar(wrapped + [TrimEnd(current) + LineEndItems(now)], ActiveItems(now) + token, text + token,
               width, kind)
            && Width(ActiveItems(now) + token) == Width(token)
  {
    var now := StyleAfter(PLAIN, text);
    var line := TrimEnd(current) + LineEndItems(now);
    ReadsBreak(wrapped, current, PLAIN, text);
    BreakWidth(PLAIN, text, wrapped, current);
    ReadsToken(wrapped + [line], ActiveItems(now), PLAIN, text, token);
    TokenNotEmpty(text, token);
    WidthConcat(ActiveItems(now), token);
    hide Reads;
    hide ActiveItems;
    if Measured(text + token, width) {
      TokenMeasured(text, token, kind, width);
      EndedLine(current, now, width);
      TrimmedMore(wrapped, line, width);
    }
    hide Width;
    hide TrimEnd;
    hide LineEndItems;
    hide StyleAfter;
  }

  /** The line before an overlong word is ended as it is, unless it is empty. */
  function Ended(wrapped: seq<Text>, current: Text, now: Style): seq<Text> {
    if current == [] then wrapped else wrapped + [current + LineEndItems(now)]
  }

  lemma EndBeforeWord(wrapped: seq<Text>, current: Text, text: Text, width: nat, spaces: bool)
    requires WrappedSoFar(wrapped, current, text, width, spaces)
    ensures LineMarks(Ended(wrapped, current, StyleAfter(PLAIN, text))) == Marks(PLAIN, text)
    ensures AllClosed(Ended(wrapped, current, StyleAfter(PLAIN, text)))
    ensures Measured(text, width) ==> TrimmedWithin(Ended(wrapped, current, StyleAfter(PLAIN, text)), width)
  {
    var now := StyleAfter(PLAIN, text);
    if current != [] {
      ReadsBreak(wrapped, current, PLAIN, text);
      if Measured(text, width) {
        EndedLine(current, now, width);
        TrimmedMore(wrapped, current + LineEndItems(now), width);
      }
    }
    hide Reachable;
    hide LineMarks;
    hide Width;
    hide TrimEnd;
    hide LineEndItems;
    hide StyleAfter;
  }

  lemma BreakWord(wrapped: seq<Text>, current: Text, text: Text, token: Text, broken: seq<Text>, width: nat,
      spaces: bool, kind: bool)
    requires WrappedSoFar(wrapped, current, text, width, spaces) && NextToken(text, token, spaces, kind)
    requires ShowsWord(broken, StyleAfter(PLAIN, text), token, width)
    ensures WrappedSoFar(Ended(wrapped, current, StyleAfter(PLAIN, text)) + broken[..|broken| - 1],
            broken[|broken| - 1], text + token, width, kind)
  {
    var ended := Ended(wrapped, current, StyleAfter(PLAIN, text));
    var init := broken[..|broken| - 1];
    EndBeforeWord(wrapped, current, text, width, spaces);
    ReadsBroken(ended, broken, text, token, width);
    TokenNotEmpty(text, token);
    hide Reads;
    hide Ended;
    if Measured(text + token, width) {
      TokenMeasured(text, token, kind, width);
      TrimmedBroken(ended, init, width);
    }
    hide LineMarks;
    hide Marks;
    hide Width;
    hide TrimEnd;
    hide StyleAfter;
    hide Reachable;
  }

  // Where the cells go

  lemma TokenCells(text: Text, token: Text, spaces: bool, kind: bool)
    requires NextToken(text, token, spaces, kind)
    ensures NextCells(Cells(text), Cells(token), spaces, kind) && Cells(text + token) == Cells(text) + Cells(token)
  {
    CellsSay(token, kind);
    CellsConcat(text, token);
    hide Complete;
  }

  lemma LaysToken(wrapped: seq<Text>, current: Text, text: Text, starts: seq<int>, token: Text, width: nat,
      spaces: bool, kind: bool)
    requires Laying(wrapped, current, Cells(text), starts, width, spaces) && NextToken(text, token, spaces, kind)
    ensures Laying(wrapped, current + token, Cells(text + token), starts, width, kind)
  {
    TokenCells(text, token, spaces, kind);
    LayAppend(wrapped, current, Cells(text), starts, width, spaces, token, kind);
  }

  lemma TokenTooWide(current: Text, token: Text)
    ensures Width(Cells(current) + Cells(token)) == Width(current) + Width(token)
  {
    CellsWidth(current);
    CellsWidth(token);
    WidthConcat(Cells(current), Cells(token));
  }

  /** A run of spaces that does not fit is left out with the white space before it. */
  lemma LaysBreak(wrapped: seq<Text>, current: Text, text: Text, starts: seq<int>, token: Text, width: nat,
      spaces: bool, kind: bool, now: Style)
    requires Laying(wrapped, current, Cells(text), starts, width, spaces) && NextToken(text, token, spaces, kind)
    requires IsBlank(token) && Width(current) + Width(token) > width && Reachable(now)
    ensures Laying(wrapped + [TrimEnd(current) + LineEndItems(now)], ActiveItems(now), Cells(text + token),
              starts + [|Cells(text)| + |Cells(token)|], width, kind)
  {
    hide *;
    TokenCells(text, token, spaces, kind);
    TokenTooWide(current, token);
    NoCellsIn(now);
    BlankCells(token);
    EndedHolds(current, now, Cells(token));
    assert Cells(token)[..|Cells(token)|] == Cells(token) && Cells(token)[|Cells(token)|..] == [];
    LayBreak(wrapped, current, Cells(text), starts, width, spaces, Cells(token), kind,
      TrimEnd(current) + LineEndItems(now), ActiveItems(now), |Cells(text)| + |Cells(token)|);
  }

  lemma NoCellsIn(st: Style)
    requires Reachable(st)
    ensures Cells(ActiveItems(st)) == []
  {
    ActiveItemsAreCodes(st);
    CellsSay(ActiveItems(st), false);
  }

  lemma BlankCells(token: Text)
    requires IsBlank(token)
    ensures IsBlank(Cells(token))
  {
    CellsSay(token, false);
  }

  lemma NothingIsBlank()
    ensures IsBlank([])
  {
  }

  /** The trimmed line, ended, holds the line's cells, and white space that follows them. */
  lemma EndedHolds(current: Text, now: Style, more: Text)
    requires IsBlank(more)
    ensures Holds(TrimEnd(current) + LineEndItems(now), Cells(current) + more)
  {
    hide *;
    EndHasNoCells(TrimEnd(current), now);
    CellsTrim(current);
    HoldsBlank(TrimEnd(current), TrimEnd(current) + LineEndItems(now), Cells(current), more);
  }

  lemma HoldsBlank(line: Text, ended: Text, cells: Text, more: Text)
    requires Holds(line, cells) && Cells(ended) == Cells(line) && IsBlank(more)
    ensures Holds(ended, cells + more)
  {
    assert (cells + more)[|Cells(line)|..] == cells[|Cells(line)|..] + more;
    hide Cells;
  }

  /** A word that does not fit starts the next line. */
  lemma LaysStart(wrapped: seq<Text>, current: Text, text: Text, starts: seq<int>, token: Text, width: nat,
      spaces: bool, kind: bool, now: Style)
    requires Laying(wrapped, current, Cells(text), starts, width, spaces) && NextToken(text, token, spaces, kind)
    requires Width(current) + Width(token) > width && Reachable(now)
    ensures Laying(wrapped + [TrimEnd(current) + LineEndItems(now)], ActiveItems(now) + token, Cells(text + token),
              starts + [|Cells(text)|], width, kind)
  {
    hide *;
    TokenCells(text, token, spaces, kind);
    TokenTooWide(current, token);
    NoCellsIn(now);
    CellsConcat(ActiveItems(now), token);
    NothingIsBlank();
    EndedHolds(current, now, []);
    assert Cells(token)[..0] == [] && Cells(token)[0..] == Cells(token) == [] + Cells(token);
    LayBreak(wrapped, current, Cells(text), starts, width, spaces, Cells(token), kind,
      TrimEnd(current) + LineEndItems(now), ActiveItems(now) + token, |Cells(text)|);
  }

  lemma LaysWord(wrapped: seq<Text>, current: Text, text: Text, starts: seq<int>, token: Text, width: nat,
      spaces: bool, kind: bool, now: Style, broken: seq<Text>, cut: seq<int>)
    requires Laying(wrapped, current, Cells(text), starts, width, spaces) && NextToken(text, token, spaces, kind)
    requires Width(token) > width && CutUp(broken, Cells(token), cut, width) && broken != []
    ensures starts != []
    ensures var first := if current == [] then starts[..|starts| - 1] else starts;
            Laying(Ended(wrapped, current, now) + broken[..|broken| - 1], broken[|broken| - 1], Cells(text + token),
              first + Shifted(cut, |Cells(text)|), width, kind)
  {
    assert |starts| == |wrapped| + 1;
    hide Cells;
    hide Laying;
    hide CutUp;
    TokenCells(text, token, spaces, kind);
    hide NextToken;
    hide NextCells;
    CellsWidth(token);
    hide Width;
    EndHasNoCells(current, now);
    hide LineEndItems;
    LayWord(wrapped, current, Cells(text), starts, width, spaces, Cells(token), kind, current + LineEndItems(now),
      broken, cut);
  }

  /** A word that is too long for any line is broken, after the line before it has ended. */
  method WrapLongWord(token: Text, lines: seq<Text>, line: Text, width: nat, tracker: AnsiCodeTracker,
                      ghost text: Text, ghost spaces: bool, ghost kind: bool, ghost starts: seq<int>)
    returns (wrapped: seq<Text>, currentLine: Text, currentWidth: nat, ghost allStarts: seq<int>)
    requires WrappedSoFar(lines, line, text, width, spaces) && Width(token) > width
    requires NextToken(text, token, spaces, kind) && tracker.State() == StyleAfter(PLAIN, text)
    requires Laying(lines, line, Cells(text), starts, width, spaces)
    modifies tracker
    ensures WrappedSoFar(wrapped, currentLine, text + token, width, kind) && currentWidth == Width(currentLine)
    ensures Laying(wrapped, currentLine, Cells(text + token), allStarts, width, kind)
    ensures tracker.State() == StyleAfter(PLAIN, text + token)
  {
    StyleConcat(PLAIN, text, token);
    assert Complete(token) && Reachable(StyleAfter(PLAIN, text));
    hide *;
    ghost var now := tracker.State();
    wrapped := EndLine(lines, line, tracker);
    var broken, cut := BreakLongWord(token, width, tracker);
    BreakWord(lines, line, text, token, broken, width, spaces, kind);
    BrokenNotEmpty(broken, StyleAfter(PLAIN, text), token, width);
    LaysWord(lines, line, text, starts, token, width, spaces, kind, now, broken, cut);
    allStarts := (if line == [] then starts[..|starts| - 1] else starts) + Shifted(cut, |Cells(text)|);
    wrapped := wrapped + broken[..|broken| - 1];
    currentLine := broken[|broken| - 1];
    currentWidth := Width(currentLine);
  }

  /** The line ends before the token, which starts the next one unless it is white space. */
  method BreakBefore(token: Text, lines: seq<Text>, line: Text, width: nat, now: Style, isWhitespace: bool,
                     ghost text: Text, ghost spaces: bool, ghost kind: bool, ghost starts: seq<int>)
    returns (wrapped: seq<Text>, currentLine: Text, currentWidth: nat, ghost allStarts: seq<int>)
    requires WrappedSoFar(lines, line, text, width, spaces) && Laying(lines, line, Cells(text), starts, width, spaces)
    requires NextToken(text, token, spaces, kind) && now == StyleAfter(PLAIN, text) && Reachable(now)
    requires isWhitespace == IsBlank(token) && Width(line) + Width(token) > width
    requires Width(token) <= width || isWhitespace
    ensures WrappedSoFar(wrapped, currentLine, text + token, width, kind) && currentWidth == Width(currentLine)
    ensures Laying(wrapped, currentLine, Cells(text + token), allStarts, width, kind)
  {
    hide *;
    wrapped := lines + [TrimEnd(line) + LineEndItems(now)];
    if isWhitespace {
      DropBlank(lines, line, text, token, width, spaces, kind);
      LaysBreak(lines, line, text, starts, token, width, spaces, kind, now);
      allStarts := starts + [|Cells(text)| + |Cells(token)|];
      currentLine, currentWidth := ActiveItems(now), 0;
    } else {
      StartLine(lines, line, text, token, width, spaces, kind);
      LaysStart(lines, line, text, starts, token, width, spaces, kind, now);
      allStarts := starts + [|Cells(text)|];
      currentLine, currentWidth := ActiveItems(now) + token, Width(token);
    }
  }

  /** One round of the loop in `wrapSingleLine`. */
  method WrapToken(token: Text, lines: seq<Text>, line: Text, lineWidth: nat, width: nat, tracker: AnsiCodeTracker,
                   ghost text: Text, ghost spaces: bool, ghost kind: bool, ghost starts: seq<int>)
    returns (wrapped: seq<Text>, currentLine: Text, currentWidth: nat, ghost allStarts: seq<int>)
    requires WrappedSoFar(lines, line, text, width, spaces) && lineWidth == Width(line)
    requires NextToken(text, token, spaces, kind) && tracker.State() == StyleAfter(PLAIN, text)
    requires Laying(lines, line, Cells(text), starts, width, spaces)
    modifies tracker
    ensures WrappedSoFar(wrapped, currentLine, text + token, width, kind) && currentWidth == Width(currentLine)
    ensures Laying(wrapped, currentLine, Cells(text + token), allStarts, width, kind)
    ensures tracker.State() == StyleAfter(PLAIN, text + token)
  {
    StyleConcat(PLAIN, text, token);
    var isWhitespace := IsBlank(token);
    assert Complete(token) && Reachable(StyleAfter(PLAIN, text));
    hide *;
    wrapped, currentLine, currentWidth, allStarts := lines, line, lineWidth, starts;
    if Width(token) > width && !isWhitespace {
      wrapped, currentLine, currentWidth, allStarts :=
        WrapLongWord(token, lines, line, width, tracker, text, spaces, kind, starts);
      return;
    }
    if currentWidth + Width(token) > width && currentWidth > 0 {
      wrapped, currentLine, currentWidth, allStarts :=
        BreakBefore(token, lines, line, width, tracker.State(), isWhitespace, text, spaces, kind, starts);
    } else {
      AppendToken(lines, line, text, token, width, spaces, kind);
      LaysToken(lines, line, text, starts, token, width, spaces, kind);
      currentLine, currentWidth := currentLine + token, currentWidth + Width(token);
    }
    UpdateTracker(tracker, token);
  }

  method EndLine(lines: seq<Text>, currentLine: Text, tracker: AnsiCodeTracker) returns (wrapped: seq<Text>)
    ensures wrapped == Ended(lines, currentLine, tracker.State())
  {
    wrapped := lines;
    if currentLine != [] {
      wrapped := wrapped + [currentLine + LineEndItems(tracker.State())];
    }
  }

  lemma BrokenNotEmpty(lines: seq<Text>, st: Style, word: Text, width: nat)
    requires ShowsWord(lines, st, word, width)
    ensures lines != []
  {
  }

  lemma {:induction false} TokensComplete(tokens: seq<Text>, k: nat)
    requires Complete(Concat(tokens)) && k < |tokens|
    ensures Complete(tokens[k])
  {
    var init, last := tokens[..|tokens| - 1], tokens[|tokens| - 1];
    CompleteParts(Concat(init), last);
    if k < |init| {
      TokensComplete(init, k);
    }
    hide Complete;
  }

  lemma CompleteParts(a: Text, b: Text)
    requires Complete(a + b)
    ensures Complete(a) && Complete(b)
  {
    var ab := a + b;
    assert forall i :: 0 <= i < |a| ==> ab[i] == a[i];
    assert forall i :: 0 <= i < |b| ==> b[i] == ab[|a| + i];
    hide IsCode;
  }

  lemma ConcatNext(lines: seq<Text>, k: nat)
    requires k < |lines|
    ensures Concat(lines[..k + 1]) == Concat(lines[..k]) + lines[k]
  {
    assert lines[..k + 1] == lines[..k] + [lines[k]];
    ConcatAdd(lines[..k], lines[k]);
  }

  lemma TokenFollows(tokens: seq<Text>, kinds: seq<bool>, k: nat, text: Text)
    requires Alternate(tokens, kinds) && k < |tokens| && Complete(Concat(tokens)) && text == Concat(tokens[..k])
    ensures NextToken(text, tokens[k], k > 0 && kinds[k - 1], kinds[k])
    ensures text + tokens[k] == Concat(tokens[..k + 1])
  {
    TokensComplete(tokens, k);
    ConcatNext(tokens, k);
    hide Complete;
    hide HasCell;
    hide OfKind;
  }

  lemma {:induction false} WideHasCell(text: Text)
    requires Width(text) > 0
    ensures HasCell(text)
  {
    if !text[|text| - 1].Cell? {
      WideHasCell(text[..|text| - 1]);
    }
  }

  /** Trailing white space may exceed the width, so every line is trimmed in the end. */
  method TrimLines(lines: seq<Text>) returns (trimmed: seq<Text>)
    ensures AreTrimmed(lines, trimmed)
  {
    trimmed := [];
    hide TrimEnd;
    for i := 0 to |lines|
      invariant |trimmed| == i && forall k :: 0 <= k < i ==> trimmed[k] == TrimEnd(lines[k])
    {
      trimmed := trimmed + [TrimEnd(lines[i])];
    }
  }

  ghost predicate AreTrimmed(lines: seq<Text>, trimmed: seq<Text>) {
    |trimmed| == |lines| && forall k :: 0 <= k < |lines| ==> trimmed[k] == TrimEnd(lines[k])
  }

  lemma {:induction false} TrimmedMarks(lines: seq<Text>, trimmed: seq<Text>)
    requires AreTrimmed(lines, trimmed)
    ensures LineMarks(trimmed) == LineMarks(lines)
  {
    if lines != [] {
      TrimKeeps(lines[|lines| - 1]);
      hide TrimEnd;
      hide Marks;
      hide StyleAfter;
      hide Width;
      TrimmedMarks(lines[..|lines| - 1], trimmed[..|lines| - 1]);
    }
  }

  lemma TrimmedKeep(lines: seq<Text>, trimmed: seq<Text>, width: nat)
    requires AreTrimmed(lines, trimmed)
    ensures TrimmedWithin(lines, width) ==> LinesWithin(trimmed, width)
    ensures lines != [] && AllClosed(lines[..|lines| - 1]) ==> AllClosed(trimmed[..|lines| - 1])
  {
    forall k | 0 <= k < |lines| && Closed(lines[k])
      ensures Closed(trimmed[k])
    {
      TrimKeeps(lines[k]);
      hide TrimEnd;
      hide StyleAfter;
    }
    hide TrimEnd;
    hide Closed;
    hide Width;
  }

  lemma WrapStarts(width: nat)
    ensures WrappedSoFar([], [], [], width, false)
    ensures StyleAfter(PLAIN, []) == PLAIN && Width([]) == 0 && Concat([]) == []
    ensures Laying([], [], Cells([]), [0], width, false)
  {
    LayStarts(width);
    hide Laying;
    ReadsStart(PLAIN);
    assert ActiveItems(PLAIN) == [];
  }

  lemma KindsMatch(tokens: seq<Text>, kinds: seq<bool>)
    requires Alternate(tokens, kinds)
    ensures |kinds| == |tokens|
  {
  }

  lemma WrapEnds(wrapped: seq<Text>, current: Text, text: Text, width: nat, spaces: bool)
    requires WrappedSoFar(wrapped, current, text, width, spaces)
    ensures AllClosed(wrapped)
    ensures current != [] ==> LineMarks(wrapped + [current]) == Marks(PLAIN, text)
    ensures current == [] ==> LineMarks(wrapped) == Marks(PLAIN, text)
    ensures Measured(text, width) ==> TrimmedWithin(wrapped, width) && TrimmedWithin(wrapped + [current], width)
  {
    LineMarksAdd(wrapped, current);
    TrimKeeps(current);
    if Measured(text, width) {
      TrimmedMore(wrapped, current, width);
    }
    hide Reachable;
    hide Width;
    hide TrimEnd;
    hide StyleAfter;
  }

  /**
    `wrapSingleLine`: `starts` are the positions among the line's cells at which the output lines start. What an
    output line does not show of the cells up to the next one's start is white space; and it ends there because
    the next word, or the next cell of a word that fills it alone, does not fit.
  */
  method WrapSingleLine(line: Text, width: nat) returns (lines: seq<Text>, ghost starts: seq<int>)
    requires Complete(line)
    ensures lines != [] && LineMarks(lines) == Marks(PLAIN, line)
    ensures AllClosed(lines[..|lines| - 1]) && LaidOut(lines, Cells(line), starts, width)
    ensures Measured(line, width) ==> LinesWithin(lines, width)
  {
    if Width(line) <= width {
      lines, starts := [line], [0];
      OneLine(line, width);
      assert [line][..0] == [];
      return;
    }
    WideHasCell(line);
    var tokens, kinds := SplitIntoTokens(line);
    lines, starts := WrapTokens(line, tokens, kinds, width);
  }

  lemma OneLine(line: Text, width: nat)
    ensures LaidOut([line], Cells(line), [0], width)
  {
    assert Cells(line)[0..|Cells(line)|] == Cells(line);
    hide Cells;
  }

  method WrapTokens(ghost line: Text, tokens: seq<Text>, ghost kinds: seq<bool>, width: nat)
      returns (lines: seq<Text>, ghost starts: seq<int>)
    requires Complete(line) && Concat(tokens) == line && Alternate(tokens, kinds)
    ensures lines != [] && LineMarks(lines) == Marks(PLAIN, line)
    ensures AllClosed(lines[..|lines| - 1]) && LaidOut(lines, Cells(line), starts, width)
    ensures Measured(line, width) ==> LinesWithin(lines, width)
  {
    hide *;
    WrapStarts(width);
    KindsMatch(tokens, kinds);
    var tracker := new AnsiCodeTracker();
    var wrapped: seq<Text>, currentLine: Text, currentWidth := [], [], 0;
    ghost var done: Text := [];
    starts := [0];
    for k := 0 to |tokens|
      invariant fresh(tracker) && tracker.State() == StyleAfter(PLAIN, done) && done == Concat(tokens[..k])
      invariant WrappedSoFar(wrapped, currentLine, done, width, k > 0 && kinds[k - 1])
                && currentWidth == Width(currentLine)
      invariant Laying(wrapped, currentLine, Cells(done), starts, width, k > 0 && kinds[k - 1])
    {
      TokenFollows(tokens, kinds, k, done);
      wrapped, currentLine, currentWidth, starts :=
        WrapToken(tokens[k], wrapped, currentLine, currentWidth, width, tracker, done, k > 0 && kinds[k - 1], kinds[k],
          starts);
      done := done + tokens[k];
    }
    assert tokens[..|tokens|] == tokens;
    lines, starts := FinishLines(wrapped, currentLine, line, width, |tokens| > 0 && kinds[|tokens| - 1], starts);
  }

  /** The lines that are done, before they are trimmed: the current one is among them unless it is empty. */
  ghost predicate DoneLines(lines: seq<Text>, text: Text, starts: seq<int>, width: nat) {
    && lines != [] && LineMarks(lines) == Marks(PLAIN, text) && AllClosed(lines[..|lines| - 1])
    && LaidOut(lines, Cells(text), starts, width) && (Measured(text, width) ==> TrimmedWithin(lines, width))
  }

  lemma LinesAreDone(wrapped: seq<Text>, current: Text, text: Text, width: nat, spaces: bool, starts: seq<int>)
    requires WrappedSoFar(wrapped, current, text, width, spaces)
    requires Laying(wrapped, current, Cells(text), starts, width, spaces)
    ensures current != [] || wrapped == [] ==> DoneLines(wrapped + [current], text, starts, width)
    ensures current == [] && wrapped != [] ==> |starts| == |wrapped| + 1
    ensures current == [] && wrapped != [] ==> DoneLines(wrapped, text, starts[..|wrapped|], width)
  {
    LineMarksAdd([], []);
    hide LaidOut;
    hide Cells;
    hide Measured;
    hide Closed;
    hide TrimmedWithin;
    LayEnds(wrapped, current, Cells(text), starts, width, spaces);
    hide Laying;
    WrapEnds(wrapped, current, text, width, spaces);
    hide WrappedSoFar;
    hide Marks;
    hide StyleAfter;
    assert (wrapped + [current])[..|wrapped|] == wrapped;
    assert wrapped == [] ==> wrapped + [current] == [current];
  }

  lemma DoneTrimmed(lines: seq<Text>, trimmed: seq<Text>, text: Text, starts: seq<int>, width: nat)
    requires DoneLines(lines, text, starts, width) && AreTrimmed(lines, trimmed)
    ensures trimmed != [] && LineMarks(trimmed) == Marks(PLAIN, text)
    ensures AllClosed(trimmed[..|trimmed| - 1]) && LaidOut(trimmed, Cells(text), starts, width)
    ensures Measured(text, width) ==> LinesWithin(trimmed, width)
  {
    hide Cells;
    hide LaidOut;
    hide Marks;
    hide LineMarks;
    hide AllClosed;
    hide Measured;
    hide TrimmedWithin;
    hide LinesWithin;
    TrimmedMarks(lines, trimmed);
    TrimmedKeep(lines, trimmed, width);
    LayTrimmed(lines, trimmed, Cells(text), starts, width);
  }

  method FinishLines(wrapped: seq<Text>, currentLine: Text, ghost text: Text, ghost width: nat, ghost spaces: bool,
      ghost was: seq<int>)
      returns (lines: seq<Text>, ghost starts: seq<int>)
    requires WrappedSoFar(wrapped, currentLine, text, width, spaces)
    requires Laying(wrapped, currentLine, Cells(text), was, width, spaces)
    ensures lines != [] && LineMarks(lines) == Marks(PLAIN, text)
    ensures AllClosed(lines[..|lines| - 1]) && LaidOut(lines, Cells(text), starts, width)
    ensures Measured(text, width) ==> LinesWithin(lines, width)
  {
    hide *;
    LinesAreDone(wrapped, currentLine, text, width, spaces, was);
    starts := if currentLine == [] && wrapped != [] then was[..|wrapped|] else was;
    lines := wrapped;
    if currentLine != [] {
      lines := lines + [currentLine];
    }
    ghost var all := if lines == [] then lines + [currentLine] else lines;
    lines := TrimLines(lines);
    OneIsTrimmed();
    if lines == [] {
      lines := [[]];
    }
    DoneTrimmed(all, lines, text, starts, width);
  }

  lemma OneIsTrimmed()
    ensures AreTrimmed([[]], [[]]) && AreTrimmed([] + [[]], [[]])
    ensures forall lines, trimmed :: AreTrimmed(lines, trimmed) ==> |lines| == |trimmed|
  {
  }

  /** What the lines of the first part of the input have become. */
  ghost predicate WrappedText(result: seq<Text>, text: Text, width: nat) {
    && LineMarks(result) == Marks(PLAIN, text) && Reachable(StyleAfter(PLAIN, text))
    && (Measured(text, width) ==> LinesWithin(result, width))
  }

  /** A further input line, wrapped with the active codes in front of it. */
  lemma NextInputLine(result: seq<Text>, text: Text, line: Text, wrapped: seq<Text>, width: nat)
    requires WrappedText(result, text, width) && Complete(line)
    requires LineMarks(wrapped) == Marks(PLAIN, ActiveItems(StyleAfter(PLAIN, text)) + line)
    requires Measured(ActiveItems(StyleAfter(PLAIN, text)) + line, width) ==> LinesWithin(wrapped, width)
    ensures WrappedText(result + wrapped, text + line, width)
  {
    var now := StyleAfter(PLAIN, text);
    FreshLine(now, line);
    LineMarksConcat(result, wrapped);
    MarksConcat(PLAIN, text, line);
    StyleConcat(PLAIN, text, line);
    StyleStaysReachable(now, line);
    MeasuredParts(text, line, width);
    ActiveItemsAreCodes(now);
    MeasuredCodes(ActiveItems(now), line, width);
    hide ActiveItems;
    hide Marks;
    hide LineMarks;
    hide StyleAfter;
    hide Measured;
    hide Reachable;
    hide Complete;
    hide NoCells;
    hide Width;
  }

  lemma MeasuredCodes(codes: Text, line: Text, width: nat)
    requires NoCells(codes)
    ensures Measured(line, width) ==> Measured(codes + line, width)
  {
  }

  lemma PrefixedComplete(st: Style, line: Text)
    requires Reachable(st) && Complete(line)
    ensures Complete(ActiveItems(st) + line)
  {
    ActiveItemsAreCodes(st);
    CompleteConcat(ActiveItems(st), line);
  }

  /**
    `wrapTextWithAnsi` on the text's lines. Read line by line from a cleared style, the output shows
    the same graphemes in the same styles as the whole input read in one go; and no line is wider
    than `width` when every cell is measured so. The lines of each input line are laid out for it.
  */
  method WrapText(inputLines: seq<Text>, width: nat) returns (result: seq<Text>)
    requires Complete(Concat(inputLines))
    ensures result != [] && LineMarks(result) == Marks(PLAIN, Concat(inputLines))
    ensures Measured(Concat(inputLines), width) ==> LinesWithin(result, width)
    ensures inputLines != [] ==> EachLaidOut(result, inputLines, width)
  {
    TrackerStart(width);
    hide *;
    result := [];
    var tracker := new AnsiCodeTracker();
    ghost var done: Text := [];
    for k := 0 to |inputLines|
      invariant fresh(tracker) && tracker.State() == StyleAfter(PLAIN, done) && done == Concat(inputLines[..k])
      invariant WrappedText(result, done, width) && (result == [] ==> k == 0)
      invariant EachLaidOut(result, inputLines[..k], width)
    {
      TokensComplete(inputLines, k);
      ConcatNext(inputLines, k);
      InputStyle(result, done, width);
      PrefixedComplete(tracker.State(), inputLines[k]);
      var prefix := if |result| > 0 then ActiveItems(tracker.State()) else [];
      var wrapped, starts := WrapSingleLine(prefix + inputLines[k], width);
      PrefixHasNoCells(tracker.State());
      EachMore(result, inputLines[..k], inputLines[k], prefix, wrapped, starts, width);
      assert inputLines[..k + 1] == inputLines[..k] + [inputLines[k]];
      NextInputLine(result, done, inputLines[k], wrapped, width);
      StyleConcat(PLAIN, done, inputLines[k]);
      result := result + wrapped;
      UpdateTracker(tracker, inputLines[k]);
      done := done + inputLines[k];
    }
    assert inputLines[..|inputLines|] == inputLines;
    TextEnds(result, done, width);
    if result == [] {
      result := [[]];
    }
  }

  /** The lines each input line has become, in order, are laid out for it. */
  ghost predicate EachLaidOut(result: seq<Text>, inputLines: seq<Text>, width: nat) {
    if inputLines == [] then result == []
    else
      var init, last := inputLines[..|inputLines| - 1], inputLines[|inputLines| - 1];
      exists m :: LaidOutFrom(result, m, last, width) && EachLaidOut(result[..m], init, width)
  }

  ghost predicate LaidOutFrom(lines: seq<Text>, m: int, inputLine: Text, width: nat) {
    0 <= m < |lines| && exists starts :: LaidOut(lines[m..], Cells(inputLine), starts, width)
  }

  lemma EachMore(result: seq<Text>, inputLines: seq<Text>, line: Text, prefix: Text, wrapped: seq<Text>,
      starts: seq<int>, width: nat)
    requires EachLaidOut(result, inputLines, width) && NoCells(prefix) && wrapped != []
    requires LaidOut(wrapped, Cells(prefix + line), starts, width)
    ensures EachLaidOut(result + wrapped, inputLines + [line], width)
  {
    CellsConcat(prefix, line);
    CellsSay(prefix, false);
    var all, lines := result + wrapped, inputLines + [line];
    assert all[..|result|] == result && all[|result|..] == wrapped && lines[..|inputLines|] == inputLines;
    assert [] + Cells(line) == Cells(line);
    hide Cells;
    hide LaidOut;
    assert LaidOutFrom(all, |result|, line, width);
  }

  lemma PrefixHasNoCells(st: Style)
    requires Reachable(st)
    ensures NoCells(ActiveItems(st)) && NoCells([])
  {
    ActiveItemsAreCodes(st);
  }

  lemma TrackerStart(width: nat)
    ensures WrappedText([], [], width)
    ensures StyleAfter(PLAIN, []) == PLAIN && ActiveItems(PLAIN) == [] && Concat([]) == []
    ensures EachLaidOut([], [], width)
  {
  }

  lemma InputStyle(result: seq<Text>, text: Text, width: nat)
    requires WrappedText(result, text, width)
    ensures Reachable(StyleAfter(PLAIN, text))
  {
    hide Reachable;
  }

  lemma TextEnds(result: seq<Text>, text: Text, width: nat)
    requires WrappedText(result, text, width)
    ensures LineMarks(result) == Marks(PLAIN, text)
    ensures Measured(text, width) ==> LinesWithin(result, width)
    ensures LineMarks([[]]) == LineMarks([]) && LinesWithin([[]], width)
  {
    hide Reachable;
    LineMarksAdd([], []);
  }
}
