/** Where one string occurs in another (`indexOf`, `includes`). */
module Substrings {
  import opened Basics

  predicate Occurs(s: string, marker: string, i: int) {
    0 <= i && i + |marker| <= |s| && s[i..i + |marker|] == marker
  }

  function FindFrom(s: string, marker: string, i: nat): (at: Option<nat>)
    ensures at.Some? ==> i <= at.value && Occurs(s, marker, at.value)
    ensures forall j :: i <= j && (at.Some? ==> j < at.value) ==> !Occurs(s, marker, j)
    decreases |s| - i
  {
    if i > |s| then None else if Occurs(s, marker, i) then Some(i) else FindFrom(s, marker, i + 1)
  }

  /** Where the marker starts for the first time. */
  function Find(s: string, marker: string): (at: Option<nat>)
    ensures at.Some? ==> Occurs(s, marker, at.value)
    ensures forall j: nat :: (at.Some? ==> j < at.value) ==> !Occurs(s, marker, j)
  {
    FindFrom(s, marker, 0)
  }

  lemma FindIs(s: string, marker: string, i: nat)
    requires Occurs(s, marker, i) && forall j: nat :: j < i ==> !Occurs(s, marker, j)
    ensures Find(s, marker) == Some(i)
  {
    hide FindFrom;
    assert Find(s, marker).Some?;
  }

  lemma FindGrows(s: string, marker: string, t: string)
    ensures Find(s, marker).Some? ==> Find(s + t, marker) == Find(s, marker)
    ensures Find(s, marker).None? && Find(s + t, marker).Some? ==> |s| < Find(s + t, marker).value + |marker|
  {
    forall j: nat | j + |marker| <= |s|
      ensures Occurs(s, marker, j) <==> Occurs(s + t, marker, j)
    {
      assert (s + t)[j..j + |marker|] == s[j..j + |marker|];
    }
    hide FindFrom;
    hide Find;
    if Find(s, marker).Some? {
      FindIs(s + t, marker, Find(s, marker).value);
    }
  }

  lemma FindInSuffix(s: string, marker: string, k: nat)
    requires k <= |s|
    ensures Find(s, marker).None? ==> Find(s[k..], marker).None?
    ensures Find(s, marker).Some? && k <= Find(s, marker).value ==>
            Find(s[k..], marker) == Some(Find(s, marker).value - k)
  {
    forall j: nat | j + |marker| <= |s| - k
      ensures Occurs(s[k..], marker, j) <==> Occurs(s, marker, j + k)
    {
      assert s[k..][j..j + |marker|] == s[j + k..j + k + |marker|];
    }
    hide FindFrom;
    hide Find;
    if Find(s, marker).Some? && k <= Find(s, marker).value {
      FindIs(s[k..], marker, Find(s, marker).value - k);
    }
  }

  lemma FindInPrefix(s: string, marker: string, n: nat)
    requires Find(s, marker).Some? && Find(s, marker).value + |marker| <= n <= |s|
    ensures Find(s[..n], marker) == Find(s, marker)
  {
    hide FindFrom;
    var i := Find(s, marker).value;
    assert s[..n] + s[n..] == s;
    FindGrows(s[..n], marker, s[n..]);
  }
}
