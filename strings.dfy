/**
 * Searches on character strings shared by the build tooling: the C library's
 * `strchr`, `strrchr` and `strstr` (on strings without their terminator) and
 * Python's `str.startswith` and `str.find`.
 */
module Strings {
  import opened Wrappers

  /** First position of `c` in `s`. */
  function IndexOf(s: string, c: char): (r: Option<nat>)
    ensures r.None? <==> c !in s
    ensures r.Some? ==> r.value < |s| && s[r.value] == c && c !in s[..r.value]
  {
    if s == [] then None
    else if s[0] == c then Some(0)
    else
      match IndexOf(s[1..], c)
      case None => None
      case Some(i) =>
        assert s[..i + 1] == [s[0]] + s[1..][..i];
        Some(i + 1)
  }

  /** Last position of `c` in `s`; `LastIndexOfIsLast` states that it is the last. */
  function LastIndexOf(s: string, c: char): (r: Option<nat>)
    ensures r.Some? ==> r.value < |s| && s[r.value] == c
    decreases |s|
  {
    if s == [] then None
    else if s[|s| - 1] == c then Some(|s| - 1)
    else LastIndexOf(s[..|s| - 1], c)
  }

  /** `None` exactly when `c` does not occur; otherwise an occurrence with no `c` after it. */
  lemma {:induction false} LastIndexOfIsLast(s: string, c: char)
    ensures LastIndexOf(s, c).None? <==> c !in s
    ensures LastIndexOf(s, c).Some? ==> c !in s[LastIndexOf(s, c).value + 1..]
    decreases |s|
  {
    if s != [] && s[|s| - 1] != c {
      var init := s[..|s| - 1];
      LastIndexOfIsLast(init, c);
      assert s == init + [s[|s| - 1]];
      if LastIndexOf(init, c).Some? {
        var i := LastIndexOf(init, c).value;
        assert s[i + 1..] == init[i + 1..] + [s[|s| - 1]];
      }
    }
  }

  predicate StartsWith(s: string, prefix: string)
  {
    |prefix| <= |s| && s[..|prefix|] == prefix
  }

  /** `t` occurs in `s` starting at position `i`. */
  predicate OccursAt(s: string, t: string, i: nat)
  {
    i + |t| <= |s| && s[i..i + |t|] == t
  }

  /** The first occurrence of `t` in `s` at or after `from`. */
  function FindFrom(s: string, t: string, from: nat): (r: Option<nat>)
    requires from <= |s|
    ensures r.Some? ==> from <= r.value && OccursAt(s, t, r.value)
    ensures forall k: nat :: from <= k && (r.None? || k < r.value) ==> !OccursAt(s, t, k)
    decreases |s| - from
  {
    if OccursAt(s, t, from) then Some(from)
    else if from == |s| then None
    else FindFrom(s, t, from + 1)
  }

  /** The first occurrence of `t` in `s`. */
  function FindSubstring(s: string, t: string): (r: Option<nat>)
    ensures r.Some? ==> OccursAt(s, t, r.value)
    ensures forall k: nat :: r.None? || k < r.value ==> !OccursAt(s, t, k)
  {
    FindFrom(s, t, 0)
  }
}
