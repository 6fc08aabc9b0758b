/** Strings of the C library: no NUL inside, and reading at the end gives NUL. */
module CStrings {

  function At(s: string, i: nat): char { if i < |s| then s[i] else '\0' }

  // strchr from position i on: the first place of c, or the length when there is none.
  function Find(s: string, c: char, i: nat): (j: nat)
    requires i <= |s|
    ensures i <= j <= |s| && (j < |s| ==> s[j] == c)
    ensures forall k :: i <= k < j ==> s[k] != c
    decreases |s| - i
  {
    if i == |s| || s[i] == c then i else Find(s, c, i + 1)
  }

  // The place that Find finds is the only one with its two properties.
  lemma {:induction false} FindIs(s: string, c: char, i: nat, j: nat)
    requires i <= j <= |s| && (j < |s| ==> s[j] == c) && forall k :: i <= k < j ==> s[k] != c
    ensures Find(s, c, i) == j
    decreases j - i
  {
    if i == j {
    } else {
      FindIs(s, c, i + 1, j);
    }
  }
}
