/**
 * The piece of JavaScript's string library that the status handler relies on:
 * `String.prototype.replace` with a string pattern, which replaces only the
 * FIRST occurrence of the pattern. The replacement is inserted literally:
 * JavaScript's `$&`, `$$`, `` $` `` and `$'` patterns in it are not expanded
 * (the server only ever replaces with the empty string).
 */
module Text {
  import opened Wrappers

  /** `pat` occurs in `h` starting at index `i`. */
  predicate OccursAt(h: string, pat: string, i: nat) {
    i + |pat| <= |h| && h[i..i + |pat|] == pat
  }

  /** `i` is the first index at which `pat` occurs in `h`. */
  predicate FirstOccurrence(h: string, pat: string, i: nat) {
    OccursAt(h, pat, i) && forall j: nat :: j < i ==> !OccursAt(h, pat, j)
  }

  /** The first index at or after `from` where `pat` occurs in `h`, as `indexOf` searches. */
  function IndexOfFrom(h: string, pat: string, from: nat): (r: Option<nat>)
    requires from <= |h|
    ensures r.Some? ==> from <= r.value && OccursAt(h, pat, r.value)
    ensures r.Some? ==> forall j: nat :: from <= j < r.value ==> !OccursAt(h, pat, j)
    ensures r.None? ==> forall j: nat :: from <= j ==> !OccursAt(h, pat, j)
    decreases |h| - from
  {
    if OccursAt(h, pat, from) then Some(from)
    else if from == |h| then None
    else IndexOfFrom(h, pat, from + 1)
  }

  /**
   * `h.replace(pat, rep)` for a replacement without `$` patterns: the first
   * occurrence of `pat` is replaced by `rep`; without one, `h` is returned.
   */
  function ReplaceFirst(h: string, pat: string, rep: string): (r: string)
    ensures (forall j: nat :: !OccursAt(h, pat, j)) ==> r == h
    ensures forall i: nat :: FirstOccurrence(h, pat, i) ==> r == h[..i] + rep + h[i + |pat|..]
  {
    match IndexOfFrom(h, pat, 0)
    case None => h
    case Some(i) => h[..i] + rep + h[i + |pat|..]
  }

  /** Removing a pattern that the string starts with leaves exactly the rest of the string. */
  lemma ReplaceLeadingPattern(pat: string, rest: string)
    ensures ReplaceFirst(pat + rest, pat, "") == rest
  {
    var h := pat + rest;
    assert h[0..|pat|] == pat;
    assert FirstOccurrence(h, pat, 0);
    assert h[|pat|..] == rest;
  }
}
