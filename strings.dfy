/** String helpers with Python's semantics where the source relies on them. */
module Strings {
  import opened Wrappers

  /** `s.endswith(suffix)` */
  predicate EndsWith(s: string, suffix: string)
  {
    |suffix| <= |s| && s[|s| - |suffix|..] == suffix
  }

  /** `s[:-n]` for a positive `n`: Python clamps the slice, so a string shorter
      than `n` yields the empty string. */
  function DropLast(s: string, n: nat): (r: string)
    requires n > 0
    ensures |s| >= n ==> |r| == |s| - n && r == s[..|s| - n]
    ensures |s| < n ==> r == ""
    ensures r <= s
  {
    if |s| >= n then s[..|s| - n] else ""
  }

  /** `sub` occurs in `s` starting at index `i`. */
  predicate OccursAt(s: string, sub: string, i: nat)
  {
    i + |sub| <= |s| && s[i..i + |sub|] == sub
  }

  /** `sub in s` */
  predicate Contains(s: string, sub: string)
  {
    exists i: nat | i <= |s| :: OccursAt(s, sub, i)
  }

  lemma OccursShift(s: string, sub: string, j: nat)
    requires |s| > 0
    ensures OccursAt(s, sub, j + 1) <==> OccursAt(s[1..], sub, j)
  {
    if j + 1 + |sub| <= |s| {
      assert s[1..][j..j + |sub|] == s[j + 1..j + 1 + |sub|];
    }
  }

  /** `s.find(sub)` for a non-empty `sub`: the leftmost occurrence. */
  function Find(s: string, sub: string): (r: Option<nat>)
    requires |sub| > 0
    ensures r.Some? ==> OccursAt(s, sub, r.value) && forall j: nat :: j < r.value ==> !OccursAt(s, sub, j)
    ensures r.None? ==> forall j: nat :: !OccursAt(s, sub, j)
    decreases |s|
  {
    if |s| < |sub| then None
    else if OccursAt(s, sub, 0) then Some(0)
    else
      var rest := Find(s[1..], sub);
      assert forall j: nat :: OccursAt(s, sub, j + 1) <==> OccursAt(s[1..], sub, j) by {
        forall j: nat
          ensures OccursAt(s, sub, j + 1) <==> OccursAt(s[1..], sub, j)
        {
          OccursShift(s, sub, j);
        }
      }
      assert forall j: nat :: OccursAt(s, sub, j) ==> j == 0 || OccursAt(s[1..], sub, j - 1);
      match rest
      case None => None
      case Some(k) => Some(k + 1)
  }

  /** The fields joined back with `sep` between them. */
  function JoinWith(fields: seq<string>, sep: string): string
    requires |fields| >= 1
  {
    if |fields| == 1 then fields[0] else fields[0] + sep + JoinWith(fields[1..], sep)
  }

  /** A prefix of `s` that ends before `k` sees only occurrences in `s`
      that end before `k`. */
  lemma OccursInPrefix(s: string, sub: string, k: nat, j: nat)
    requires k <= |s| && OccursAt(s[..k], sub, j)
    ensures OccursAt(s, sub, j) && j + |sub| <= k
  {
    assert s[..k][j..j + |sub|] == s[j..j + |sub|];
  }

  /** `s.split(sep)` for a non-empty `sep`: cut at every leftmost
      non-overlapping occurrence. There is always at least one field, and
      joining the fields gives back `s`. */
  function Split(s: string, sep: string): (r: seq<string>)
    requires |sep| > 0
    ensures |r| >= 1
    ensures JoinWith(r, sep) == s
    decreases |s|
  {
    match Find(s, sep)
    case None => [s]
    case Some(k) =>
      var rest := Split(s[k + |sep|..], sep);
      var r := [s[..k]] + rest;
      assert r[1..] == rest;
      assert s == s[..k] + sep + s[k + |sep|..];
      r
  }

  /** No field of a split contains the separator. */
  lemma {:induction false} SplitFieldsLackSeparator(s: string, sep: string)
    requires |sep| > 0
    ensures forall i :: 0 <= i < |Split(s, sep)| ==> !Contains(Split(s, sep)[i], sep)
    decreases |s|
  {
    match Find(s, sep)
    case None =>
    case Some(k) =>
      var head := s[..k];
      assert !Contains(head, sep) by {
        forall j: nat | j <= |head|
          ensures !OccursAt(head, sep, j)
        {
          if OccursAt(head, sep, j) {
            OccursInPrefix(s, sep, k, j);
          }
        }
      }
      SplitFieldsLackSeparator(s[k + |sep|..], sep);
      assert Split(s, sep) == [head] + Split(s[k + |sep|..], sep);
  }
}
