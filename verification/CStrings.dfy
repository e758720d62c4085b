// Strings that end at a NUL, and the runs of characters in them.

module CStrings {
  const NUL: char := '\0'

  predicate CString(s: string) { s != "" && s[|s| - 1] == NUL }

  // The end of the longest run of characters of cs that starts at i.
  ghost function RunEnd(s: string, i: nat, cs: set<char>): (j: nat)
    requires i <= |s|
    ensures i <= j <= |s|
    ensures forall k :: i <= k < j ==> s[k] in cs
    ensures j < |s| ==> s[j] !in cs
    decreases |s| - i
  {
    if i < |s| && s[i] in cs then RunEnd(s, i + 1, cs) else i
  }

  lemma {:induction false} RunEndIs(s: string, i: nat, j: nat, cs: set<char>)
    requires i <= j < |s| && s[j] !in cs
    requires forall k :: i <= k < j ==> s[k] in cs
    ensures RunEnd(s, i, cs) == j
    decreases j - i
  {
    if i < j { RunEndIs(s, i + 1, j, cs); }
  }

  lemma RunStops(s: string, i: nat, cs: set<char>)
    requires CString(s) && i < |s| && NUL !in cs
    ensures RunEnd(s, i, cs) < |s|
  {
  }
}
