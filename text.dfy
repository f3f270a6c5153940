/** The string operations of Rust's `str` that the program relies on:
    `contains`, `split` and (for ASCII) `to_lowercase`. */
module Text {
  import opened Wrappers

  /** `t` occurs in `s` starting at position `i`. */
  predicate OccursAt(s: string, t: string, i: nat) {
    i + |t| <= |s| && s[i..i + |t|] == t
  }

  /** The leftmost occurrence of `t` in `s` at or after position `k`. */
  function FindFrom(s: string, t: string, k: nat): (r: Option<nat>)
    requires |t| > 0
    decreases |s| - k
    ensures r.Some? ==> k <= r.value && OccursAt(s, t, r.value)
    ensures r.Some? ==> forall j: nat :: k <= j < r.value ==> !OccursAt(s, t, j)
    ensures r.None? ==> forall j: nat :: k <= j ==> !OccursAt(s, t, j)
  {
    if k + |t| > |s| then None
    else if s[k..k + |t|] == t then Some(k)
    else FindFrom(s, t, k + 1)
  }

  /** The leftmost occurrence of a non-empty pattern. */
  function Find(s: string, t: string): (r: Option<nat>)
    requires |t| > 0
    ensures r.Some? ==> OccursAt(s, t, r.value) && forall j: nat :: j < r.value ==> !OccursAt(s, t, j)
    ensures r.None? ==> forall j: nat :: !OccursAt(s, t, j)
  {
    FindFrom(s, t, 0)
  }

  /** `str::contains` with a non-empty `&str` pattern. */
  function Contains(s: string, t: string): (b: bool)
    requires |t| > 0
    ensures b <==> exists i :: OccursAt(s, t, i)
  {
    Find(s, t).Some?
  }

  /** `str::split` with a non-empty `&str` separator: the pieces between the
      leftmost, non-overlapping occurrences of `sep`, scanning left to right. */
  function Split(s: string, sep: string): (parts: seq<string>)
    requires |sep| > 0
    decreases |s|
    ensures |parts| >= 1
  {
    match Find(s, sep)
    case None => [s]
    case Some(i) => [s[..i]] + Split(s[i + |sep|..], sep)
  }

  /** The first occurrence of `sep` in `a + sep + ...` is the one right after `a`:
      `sep` does not occur in `a`, nor does it straddle the end of `a`. */
  predicate Delimits(a: string, sep: string)
    requires |sep| > 0
  {
    !Contains(a + sep[..|sep| - 1], sep)
  }

  /** Splitting never yields an empty list, and yields a single piece exactly
      when the separator does not occur. */
  lemma {:induction false} SplitShape(s: string, sep: string)
    requires |sep| > 0
    ensures |Split(s, sep)| >= 1
    ensures |Split(s, sep)| == 1 <==> !Contains(s, sep)
    ensures !Contains(s, sep) ==> Split(s, sep) == [s]
    decreases |s|
  {
    match Find(s, sep)
    case None =>
    case Some(i) => SplitShape(s[i + |sep|..], sep);
  }

  /** A piece followed by the separator is split off intact when `Delimits` holds. */
  lemma {:induction false} SplitJoin(a: string, sep: string, b: string)
    requires |sep| > 0 && Delimits(a, sep)
    ensures Split(a + sep + b, sep) == [a] + Split(b, sep)
  {
    var s := a + sep + b;
    assert OccursAt(s, sep, |a|) by { assert s[|a|..|a| + |sep|] == sep; }
    forall j: nat | j < |a|
      ensures !OccursAt(s, sep, j)
    {
      if OccursAt(s, sep, j) {
        var u := a + sep[..|sep| - 1];
        assert s[j..j + |sep|] == u[j..j + |sep|];
        assert OccursAt(u, sep, j);
        assert false;
      }
    }
    assert Find(s, sep) == Some(|a|);
    assert s[..|a|] == a;
    assert s[|a| + |sep|..] == b;
  }

  /** A separator occurring in `s` always yields at least two pieces. */
  lemma SplitOfContaining(s: string, sep: string)
    requires |sep| > 0 && Contains(s, sep)
    ensures |Split(s, sep)| >= 2
  {
    SplitShape(s, sep);
  }

  /** ASCII lower-casing of one character. */
  function LowerChar(c: char): (l: char)
    ensures 'A' <= c <= 'Z' ==> l as int == c as int + 32
    ensures !('A' <= c <= 'Z') ==> l == c
  {
    if 'A' <= c <= 'Z' then (c as int + 32) as char else c
  }

  /** `str::to_lowercase`, restricted to ASCII letters. */
  function Lower(s: string): (r: string)
    ensures |r| == |s|
    ensures forall i :: 0 <= i < |s| ==> r[i] == LowerChar(s[i])
  {
    if s == [] then [] else [LowerChar(s[0])] + Lower(s[1..])
  }

  /** Lower-casing twice is lower-casing once. */
  lemma {:induction false} LowerIdempotent(s: string)
    ensures Lower(Lower(s)) == Lower(s)
  {
    if s != [] {
      LowerIdempotent(s[1..]);
    }
  }
}
