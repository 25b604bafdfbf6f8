/**
  The escape-sequence scanner (`extractAnsiCode`, `createAnsiCodeExtractor`): control sequences and
  control strings as in sections 5.4 and 5.6 of ECMA-48, with BEL also ending OSC and APC. The
  stateful scanner answers malformed control strings from a map built backwards; it agrees with the
  plain forward scan for every order of queries, and one left-to-right scan takes linear time.
*/
module AnsiScanner {
  import opened Basics

  const ESC := '\U{1B}'
  const BEL := '\U{07}'

  /** The control sequence introducer and the string terminator. */
  const CSI: string := [ESC, '[']
  const ST: string := [ESC, '\\']

  /** End of the control string whose body starts at `j`: past the first BEL, if allowed, or the first ESC \. */
  function ControlEnd(str: string, j: nat, allowBel: bool): (end: Option<nat>)
    ensures end.Some? ==> j < end.value <= |str|
    decreases |str| - j
  {
    if j >= |str| then None
    else if allowBel && str[j] == BEL then Some(j + 1)
    else if str[j] == ESC && j + 1 < |str| && str[j + 1] == '\\' then Some(j + 2)
    else ControlEnd(str, j + 1, allowBel)
  }

  predicate IsParameter(c: char) { 0x30 <= c as int <= 0x3f }

  predicate IsIntermediate(c: char) { 0x20 <= c as int <= 0x2f }

  predicate IsFinal(c: char) { 0x40 <= c as int <= 0x7e }

  /**
    Where a control sequence's parameters and intermediates stop: its final byte, a byte that spoils it, or
    the end.
  */
  function CsiStop(str: string, j: nat, hasIntermediate: bool): (stop: nat)
    requires j <= |str|
    ensures j <= stop <= |str|
    ensures forall k :: j <= k < stop ==> str[k] != ESC
    decreases |str| - j
  {
    if j == |str| then j
    else if IsParameter(str[j]) && !hasIntermediate then CsiStop(str, j + 1, false)
    else if IsIntermediate(str[j]) then CsiStop(str, j + 1, true)
    else j
  }

  /** Parameter bytes, the private ones among them, and then intermediate bytes (section 5.4 of ECMA-48). */
  ghost predicate ControlBytes(bytes: string, parameters: nat) {
    && parameters <= |bytes|
    && (forall i :: 0 <= i < parameters ==> '0' <= bytes[i] <= '?')
    && (forall i :: parameters <= i < |bytes| ==> ' ' <= bytes[i] <= '/')
  }

  lemma {:induction false} CsiReads(str: string, j: nat, hasIntermediate: bool, bytes: string, parameters: nat)
    requires ControlBytes(bytes, parameters) && (hasIntermediate ==> parameters == 0)
    requires j + |bytes| < |str| && str[j..j + |bytes|] == bytes && IsFinal(str[j + |bytes|])
    ensures CsiStop(str, j, hasIntermediate) == j + |bytes|
    decreases |bytes|
  {
    if bytes != [] {
      assert str[j] == bytes[0] && str[j + 1..j + |bytes|] == bytes[1..];
      CsiReads(str, j + 1, parameters == 0, bytes[1..], if parameters == 0 then 0 else parameters - 1);
    }
  }

  /** A control sequence is complete with its final byte, whatever follows. */
  lemma ControlSequence(bytes: string, parameters: nat, final: char, rest: string)
    requires ControlBytes(bytes, parameters) && 0x40 <= final as int <= 0x7e
    ensures EndAt(CSI + bytes + [final] + rest, 0) == Some(|bytes| + 3)
  {
    var str := CSI + bytes + [final] + rest;
    assert str[2..2 + |bytes|] == bytes && str[2 + |bytes|] == final;
    CsiReads(str, 2, false, bytes, parameters);
  }

  predicate AllowsBel(c: char) { c == ']' || c == '_' }

  predicate IsIntroducer(str: string, pos: nat) {
    pos + 1 < |str| && str[pos] == ESC
      && (AllowsBel(str[pos + 1]) || str[pos + 1] == 'P' || str[pos + 1] == '^' || str[pos + 1] == 'X')
  }

  /** The end of the complete escape sequence at `pos`, without any state. */
  function EndAt(str: string, pos: nat): (end: Option<nat>)
    ensures end.Some? ==> pos + 2 < end.value <= |str| && str[pos] == ESC
  {
    if pos + 1 >= |str| || str[pos] != ESC then None
    else if str[pos + 1] == '[' then
      var stop := CsiStop(str, pos + 2, false);
      if stop < |str| && IsFinal(str[stop]) then Some(stop + 1) else None
    else if IsIntroducer(str, pos) then ControlEnd(str, pos + 2, AllowsBel(str[pos + 1]))
    else None
  }

  predicate TerminatorAt(s: string, i: int) {
    0 <= i < |s| - 1 && s[i] == ESC && s[i + 1] == '\\'
  }

  /** A control string's body: no string terminator in it, nor a BEL where that would end it. */
  ghost predicate IsBody(body: string, allowBel: bool) {
    (allowBel ==> BEL !in body) && forall i :: !TerminatorAt(body, i)
  }

  lemma BodyRest(body: string, allowBel: bool)
    requires IsBody(body, allowBel) && body != []
    ensures IsBody(body[1..], allowBel) && (allowBel ==> body[0] != BEL)
    ensures |body| > 1 ==> body[..2] != ST
  {
    var rest := body[1..];
    forall i
      ensures !TerminatorAt(rest, i)
    {
      assert !TerminatorAt(body, i + 1);
    }
    assert !TerminatorAt(body, 0);
    assert |body| > 1 ==> body[..2] == [body[0], body[1]];
  }

  lemma {:induction false} ControlReads(str: string, j: nat, allowBel: bool, body: string, end: string)
    requires j + |body| + |end| <= |str| && str[j..j + |body| + |end|] == body + end
    requires (end == [BEL] && allowBel) || end == ST
    requires IsBody(body, allowBel)
    ensures ControlEnd(str, j, allowBel) == Some(j + |body| + |end|)
    decreases |body|
  {
    var all := body + end;
    assert str[j] == str[j..j + |all|][0] == all[0];
    assert |all| > 1 ==> str[j + 1] == str[j..j + |all|][1] == all[1];
    if body != [] {
      BodyRest(body, allowBel);
      hide IsBody;
      assert |body| > 1 ==> body[..2] == [body[0], body[1]];
      assert all[0] == body[0] && all[1] == if |body| > 1 then body[1] else end[0];
      assert str[j + 1..j + |all|] == all[1..] == body[1..] + end;
      ControlReads(str, j + 1, allowBel, body[1..], end);
    } else {
      assert all == end;
    }
  }

  /** Of an OSC or APC, whose strings BEL ends, too. */
  predicate EndsWithBel(introducer: char) {
    introducer == ']' || introducer == '_'
  }

  /** Of an OSC, APC, DCS, PM or SOS. */
  predicate OpensString(introducer: char) {
    EndsWithBel(introducer) || introducer == 'P' || introducer == '^' || introducer == 'X'
  }

  /**
    An OSC, APC, DCS, PM or SOS is complete with its first string terminator, whatever follows; an OSC or APC
    with its first BEL, too (section 5.6 of ECMA-48).
  */
  lemma ControlString(introducer: char, body: string, bel: bool, rest: string)
    requires OpensString(introducer) && (bel ==> EndsWithBel(introducer)) && IsBody(body, EndsWithBel(introducer))
    ensures var end := if bel then [BEL] else ST;
            EndAt([ESC, introducer] + body + end + rest, 0) == Some(2 + |body| + |end|)
  {
    hide IsBody;
    var end := if bel then [BEL] else ST;
    var str := [ESC, introducer] + body + end + rest;
    assert str == [ESC, introducer] + (body + end) + rest;
    assert str[2..2 + |body| + |end|] == body + end;
    ControlReads(str, 2, EndsWithBel(introducer), body, end);
  }

  /** First BEL at or after `i`, or -1. */
  function NextBel(str: string, i: nat): (k: int)
    ensures k == -1 || i <= k < |str|
    decreases |str| - i
  {
    if i >= |str| then -1 else if str[i] == BEL then i else NextBel(str, i + 1)
  }

  /** First ESC \ at or after `i`, or -1. */
  function NextSt(str: string, i: nat): (k: int)
    ensures k == -1 || i <= k < |str| - 1
    decreases |str| - i
  {
    if i + 1 >= |str| then -1 else if str[i] == ESC && str[i + 1] == '\\' then i else NextSt(str, i + 1)
  }

  /** The forward scan finds the nearer of the two terminators. */
  lemma {:induction false} ControlEndIsNearest(str: string, j: nat, allowBel: bool)
    ensures var bel, st := NextBel(str, j), NextSt(str, j);
            ControlEnd(str, j, allowBel)
            == if allowBel && bel != -1 && (st == -1 || bel < st) then Some(bel + 1)
               else if st == -1 then None else Some(st + 2)
    decreases |str| - j
  {
    if j < |str| {
      ControlEndIsNearest(str, j + 1, allowBel);
    }
  }

  type Ends = map<nat, Option<nat>>

  /** Every control string from `from` on is in the map with the end the forward scan finds. */
  ghost predicate Caches(ends: Ends, str: string, from: nat) {
    && (forall p :: p in ends ==> IsIntroducer(str, p) && ends[p] == ControlEnd(str, p + 2, AllowsBel(str[p + 1])))
    && (forall p :: from <= p && IsIntroducer(str, p) ==> p in ends)
  }

  /** The end computed backwards from the nearest terminators is the one the forward scan finds. */
  lemma IntroducedEnd(str: string, i: nat, end: Option<nat>, nextBel: int, nextSt: int)
    requires IsIntroducer(str, i) && nextBel == NextBel(str, i + 1) && nextSt == NextSt(str, i + 1)
    requires end == if AllowsBel(str[i + 1]) && nextBel != -1 && (nextSt == -1 || nextBel < nextSt)
             then Some(nextBel + 1)
                    else if nextSt == -1 then None else Some(nextSt + 2)
    ensures end == ControlEnd(str, i + 2, AllowsBel(str[i + 1]))
  {
    ControlEndIsNearest(str, i + 2, AllowsBel(str[i + 1]));
    hide ControlEnd;
  }

  lemma CachesMore(ends: Ends, str: string, i: nat, end: Option<nat>, nextBel: int, nextSt: int)
    requires Caches(ends, str, i + 1) && IsIntroducer(str, i)
    requires nextBel == NextBel(str, i + 1) && nextSt == NextSt(str, i + 1)
    requires end == if AllowsBel(str[i + 1]) && nextBel != -1 && (nextSt == -1 || nextBel < nextSt)
             then Some(nextBel + 1)
                    else if nextSt == -1 then None else Some(nextSt + 2)
    ensures Caches(ends[i := end], str, i)
  {
    IntroducedEnd(str, i, end, nextBel, nextSt);
    hide ControlEnd;
    hide NextBel;
    hide NextSt;
  }

  /** `createAnsiCodeExtractor`: `work` counts inspected code units. */
  class Scanner {
    const str: string
    var ends: Option<Ends>
    ghost var cachedFrom: nat
    ghost var work: nat

    constructor (str: string)
      ensures this.str == str && Valid() && ends.None? && work == 0
    {
      this.str, ends, work := str, None, 0;
    }

    ghost predicate Valid()
      reads this
    {
      ends.Some? ==> Caches(ends.value, str, cachedFrom)
    }

    /** `cacheControlStringEnds`: one backward pass. */
    method CacheControlStringEnds(from: nat)
      requires from <= |str|
      modifies this
      ensures ends.Some? && Caches(ends.value, str, from)
      ensures Valid() && cachedFrom == from
      ensures work <= old(work) + 2 * (|str| - from)
    {
      var nextBel, nextSt := -1, -1;
      var found: Ends := map[];
      var i := |str| - 1;
      while i >= from
        invariant from - 1 <= i < |str|
        invariant nextBel == NextBel(str, i + 1) && nextSt == NextSt(str, i + 1)
        invariant Caches(found, str, i + 1)
        invariant work <= old(work) + 2 * (|str| - 1 - i)
      {
        work := work + 2;
        if str[i] == BEL {
          nextBel := i;
        }
        if str[i] == ESC && i + 1 < |str| {
          var next := str[i + 1];
          if next == '\\' {
            nextSt := i;
          } else if next == ']' || next == '_' {
            var end := if nextBel != -1 && (nextSt == -1 || nextBel < nextSt) then Some(nextBel + 1)
                       else if nextSt == -1 then None else Some(nextSt + 2);
            CachesMore(found, str, i, end, nextBel, nextSt);
            found := found[i := end];
          } else if next == 'P' || next == '^' || next == 'X' {
            var end := if nextSt == -1 then None else Some(nextSt + 2);
            CachesMore(found, str, i, end, nextBel, nextSt);
            found := found[i := end];
          }
        }
        i := i - 1;
      }
      ends := Some(found);
      cachedFrom := from;
    }

    /** The price of the one failed search a left-to-right scan may make, until it has been paid. */
    ghost function Credit(): nat
      reads this
    {
      if ends.None? then 4 * |str| else 0
    }

    /** The cache, if there is one, answers every query from `pos` on. */
    ghost predicate Answers(pos: nat)
      reads this
    {
      ends.Some? ==> cachedFrom <= pos
    }

    /** `extractControlStringEnd`: the cached answer, else a forward search that fills the cache when it fails. */
    method ExtractControlStringEnd(pos: nat) returns (end: Option<nat>)
      requires Valid() && IsIntroducer(str, pos)
      modifies this
      ensures Valid() && end == ControlEnd(str, pos + 2, AllowsBel(str[pos + 1]))
      ensures old(Answers(pos)) ==>
                && Answers(pos)
                && work + Credit() <= old(work + Credit()) + if end.Some? then 2 * (end.value - pos - 2) else 0
    {
      if ends.Some? && pos in ends.value {
        return ends.value[pos];
      }
      var allowBel := AllowsBel(str[pos + 1]);
      var j := pos + 2;
      while j < |str|
        invariant pos + 2 <= j <= |str|
        invariant ControlEnd(str, j, allowBel) == ControlEnd(str, pos + 2, allowBel)
        invariant work <= old(work) + 2 * (j - pos - 2)
        invariant ends == old(ends) && cachedFrom == old(cachedFrom)
      {
        work := work + 2;
        if allowBel && str[j] == BEL {
          return Some(j + 1);
        }
        if str[j] == ESC && j + 1 < |str| && str[j + 1] == '\\' {
          return Some(j + 2);
        }
        j := j + 1;
      }
      CacheControlStringEnds(pos);
      end := None;
    }

    /**
      `extractAnsiEndAt`: agrees with the stateless scan whatever was asked before. `reach` is how far
      the text is known to hold no further escape when the answer is none.
    */
    method At(pos: nat) returns (end: Option<nat>, ghost reach: nat)
      requires Valid()
      modifies this
      ensures Valid() && end == EndAt(str, pos)
      ensures end.None? && pos < |str| ==> pos < reach <= |str| && forall k :: pos < k < reach ==> str[k] != ESC
      ensures old(Answers(pos)) && pos < |str| ==>
                && Answers(pos)
                && work + Credit() <= old(work + Credit()) + (if end.Some? then 2 * (end.value - pos)
                                                              else if str[pos] == ESC then 2 + reach - pos else 2)
    {
      reach := pos + 1;
      if pos >= |str| {
        return None, reach;
      }
      work := work + 2;
      if str[pos] != ESC || pos + 1 >= |str| {
        return None, reach;
      }
      var next := str[pos + 1];
      if next == '[' {
        var j := pos + 2;
        var hasIntermediate := false;
        while j < |str|
          invariant pos + 2 <= j <= |str|
          invariant CsiStop(str, j, hasIntermediate) == CsiStop(str, pos + 2, false)
          invariant work <= old(work) + j - pos
          invariant ends == old(ends) && cachedFrom == old(cachedFrom)
        {
          work := work + 1;
          if IsParameter(str[j]) && !hasIntermediate {
            j := j + 1;
          } else if IsIntermediate(str[j]) {
            hasIntermediate := true;
            j := j + 1;
          } else if IsFinal(str[j]) {
            return Some(j + 1), reach;
          } else {
            return None, j;
          }
        }
        return None, j;
      }
      if next == ']' || next == '_' || next == 'P' || next == '^' || next == 'X' {
        end := ExtractControlStringEnd(pos);
        return end, reach;
      }
      return None, reach;
    }

    /** Any queries, in any order. */
    method Queries(positions: seq<nat>) returns (ends: seq<Option<nat>>)
      requires Valid()
      modifies this
      ensures |ends| == |positions| && forall i :: 0 <= i < |ends| ==> ends[i] == EndAt(str, positions[i])
    {
      ends := [];
      for i := 0 to |positions|
        invariant Valid() && |ends| == i
        invariant forall k :: 0 <= k < i ==> ends[k] == EndAt(str, positions[k])
      {
        var end, _ := At(positions[i]);
        ends := ends + [end];
      }
    }

    /** The left-to-right scan every caller makes: the text's pieces, in time linear in its length. */
    method Scan() returns (pieces: seq<Piece>)
      requires Valid() && ends.None?
      modifies this
      ensures pieces == Pieces(str, 0)
      ensures work <= old(work) + 8 * |str|
    {
      pieces := [];
      var i := 0;
      ghost var clear := 0;
      while i < |str|
        invariant i <= |str| && clear <= |str| && Valid() && Answers(i)
        invariant pieces + Pieces(str, i) == Pieces(str, 0)
        invariant forall k :: i <= k < clear ==> str[k] != ESC
        invariant work + Credit() <= old(work) + 4 * |str| + 4 * i + Max(0, clear - i)
      {
        var end, reach := At(i);
        PiecesFrom(str, i);
        if end.Some? {
          pieces := pieces + [Code(str[i..end.value])];
          i := end.value;
        } else {
          pieces := pieces + [Unit(str[i])];
          clear := Max(clear, reach);
          i := i + 1;
        }
      }
    }
  }

  /** A complete escape sequence, or one code unit of text. */
  datatype Piece = Code(code: string) | Unit(c: char)

  function Pieces(str: string, pos: nat): seq<Piece>
    decreases |str| - pos
  {
    if pos >= |str| then []
    else match EndAt(str, pos)
    case Some(end) => [Code(str[pos..end])] + Pieces(str, end)
    case None => [Unit(str[pos])] + Pieces(str, pos + 1)
  }

  lemma PiecesFrom(str: string, pos: nat)
    requires pos < |str|
    ensures forall before: seq<Piece> {:trigger before + Pieces(str, pos)} ::
              before + Pieces(str, pos) == match EndAt(str, pos)
                                           case Some(end) => before + [Code(str[pos..end])] + Pieces(str, end)
                                           case None => before + [Unit(str[pos])] + Pieces(str, pos + 1)
  {
  }

  /** A complete escape sequence by itself. */
  predicate IsCode(code: string) {
    EndAt(code, 0) == Some(|code|)
  }

  /** Equal stretches have equal heads and equal tails. */
  lemma SameStretch(s: string, j: nat, t: string, k: nat, n: nat, x: nat)
    requires j + n <= |s| && k + n <= |t| && s[j..j + n] == t[k..k + n] && x <= n
    ensures x < n ==> s[j + x] == t[k + x]
    ensures s[j + x..j + n] == t[k + x..k + n]
  {
    assert s[j + x..j + n] == s[j..j + n][x..];
    assert t[k + x..k + n] == t[k..k + n][x..];
    if x < n {
      assert s[j..j + n][x] == t[k..k + n][x];
    }
  }

  /** Whether a sequence is complete depends on its own characters only: found in one text, it is found in any other. */
  lemma EndAtLocal(s: string, i: nat, t: string, k: nat)
    requires EndAt(s, i).Some?
    requires var n := EndAt(s, i).value - i; k + n <= |t| && s[i..i + n] == t[k..k + n]
    ensures EndAt(t, k) == Some(k + EndAt(s, i).value - i)
  {
    var n := EndAt(s, i).value - i;
    SameStretch(s, i, t, k, n, 0);
    SameStretch(s, i, t, k, n, 1);
    SameStretch(s, i, t, k, n, 2);
    if s[i + 1] == '[' {
      CsiLocal(s, i + 2, t, k + 2, false);
    } else {
      ControlEndLocal(s, i + 2, t, k + 2, AllowsBel(s[i + 1]));
    }
  }

  lemma {:induction false} ControlEndLocal(s: string, j: nat, t: string, k: nat, allowBel: bool)
    requires ControlEnd(s, j, allowBel).Some?
    requires var n := ControlEnd(s, j, allowBel).value - j; k + n <= |t| && s[j..j + n] == t[k..k + n]
    ensures ControlEnd(t, k, allowBel) == Some(k + ControlEnd(s, j, allowBel).value - j)
    decreases |s| - j
  {
    var n := ControlEnd(s, j, allowBel).value - j;
    SameStretch(s, j, t, k, n, 0);
    SameStretch(s, j, t, k, n, 1);
    if !(allowBel && s[j] == BEL) && !(s[j] == ESC && s[j + 1] == '\\') {
      ControlEndLocal(s, j + 1, t, k + 1, allowBel);
    }
  }

  lemma {:induction false} CsiLocal(s: string, j: nat, t: string, k: nat, hasIntermediate: bool)
    requires j <= |s| && CsiStop(s, j, hasIntermediate) < |s| && IsFinal(s[CsiStop(s, j, hasIntermediate)])
    requires var n := CsiStop(s, j, hasIntermediate) - j + 1; k + n <= |t| && s[j..j + n] == t[k..k + n]
    ensures CsiStop(t, k, hasIntermediate) == k + CsiStop(s, j, hasIntermediate) - j
    ensures t[CsiStop(t, k, hasIntermediate)] == s[CsiStop(s, j, hasIntermediate)]
    decreases |s| - j
  {
    var n := CsiStop(s, j, hasIntermediate) - j + 1;
    SameStretch(s, j, t, k, n, 0);
    SameStretch(s, j, t, k, n, 1);
    if n > 1 {
      CsiLocal(s, j + 1, t, k + 1, IsIntermediate(s[j]));
    }
  }

  /** Every piece the scan calls a sequence is complete by itself. */
  lemma {:induction false} PiecesAreCodes(str: string, pos: nat)
    ensures forall i :: 0 <= i < |Pieces(str, pos)| && Pieces(str, pos)[i].Code? ==> IsCode(Pieces(str, pos)[i].code)
    decreases |str| - pos
  {
    if pos < |str| {
      match EndAt(str, pos)
      case Some(end) =>
        EndAtLocal(str, pos, str[pos..end], 0);
        PiecesAreCodes(str, end);
      case None => PiecesAreCodes(str, pos + 1);
    }
  }

  /** A sequence in front of a text is its first piece. */
  lemma PiecesOfCode(code: string, rest: string)
    requires IsCode(code)
    ensures Pieces(code + rest, 0) == [Code(code)] + Pieces(code + rest, |code|)
  {
    EndAtLocal(code, 0, code + rest, 0);
    assert (code + rest)[0..|code|] == code;
  }
}
