/** String helpers shared by the backend and the client model. */
module Text {
  import opened Wrappers

  /** Lower-casing of one character; only ASCII letters change. */
  function LowerChar(c: char): char {
    if 'A' <= c <= 'Z' then (c as int + 32) as char else c
  }

  function Lower(s: string): (r: string)
    ensures |r| == |s|
    ensures forall i :: 0 <= i < |s| ==> r[i] == LowerChar(s[i])
  {
    if s == [] then [] else [LowerChar(s[0])] + Lower(s[1..])
  }

  predicate StartsWith(s: string, prefix: string) {
    |prefix| <= |s| && s[..|prefix|] == prefix
  }

  /** The index of the last occurrence of `c` in `s`, if any. */
  function LastIndexOf(s: string, c: char): (r: Option<nat>)
    ensures r.Some? ==> r.value < |s| && s[r.value] == c
    ensures r.Some? ==> forall j :: r.value < j < |s| ==> s[j] != c
    ensures r.None? ==> forall j :: 0 <= j < |s| ==> s[j] != c
  {
    if s == [] then None
    else if s[|s| - 1] == c then Some(|s| - 1)
    else LastIndexOf(s[..|s| - 1], c)
  }

  /** `i` is the position of the last `c` in `s`. */
  predicate LastAt(s: string, c: char, i: int) {
    0 <= i < |s| && s[i] == c && forall j :: i < j < |s| ==> s[j] != c
  }

  /** LastIndexOf finds the position LastAt describes. */
  lemma LastIndexOfAt(s: string, c: char, i: int)
    requires LastAt(s, c, i)
    ensures LastIndexOf(s, c) == Some(i)
  {
    var r := LastIndexOf(s, c);
    assert r.Some?;
    assert !(r.value < i) && !(i < r.value);
  }

  /** LastIndexOf finds exactly the position LastAt describes. */
  lemma LastIndexOfExact(s: string, c: char)
    ensures forall i :: LastAt(s, c, i) <==> LastIndexOf(s, c) == Some(i)
  {
    forall i | LastAt(s, c, i)
      ensures LastIndexOf(s, c) == Some(i)
    {
      LastIndexOfAt(s, c, i);
    }
  }

  /** The last occurrence in a concatenation is found in the second part when it has one. */
  lemma LastIndexOfAppend(a: string, b: string, c: char, k: nat)
    requires LastIndexOf(b, c) == Some(k)
    ensures LastIndexOf(a + b, c) == Some(|a| + k)
  {
    var s := a + b;
    assert s[|a| + k] == c;
    forall j | |a| + k < j < |s|
      ensures s[j] != c
    {
      assert s[j] == b[j - |a|];
    }
  }
}
