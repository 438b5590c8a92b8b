// The "nearest candidate" scan shared by both quadrant searches of the
// program: walk a list once, keep the best score seen so far (starting from a
// fixed bound) and replace it only on a strictly smaller score.
module Search {
  import opened Wrappers

  /** Position of the element the scan over the first `n` elements of `s`
      ends with, or None when no element passing `ok` scores below `bound`. */
  function FirstArgmin<T>(s: seq<T>, ok: T -> bool, score: T -> real, bound: real, n: nat): (r: Option<nat>)
    requires n <= |s|
    ensures r.Some? ==> r.value < n
    decreases n
  {
    if n == 0 then None
    else
      var prev := FirstArgmin(s, ok, score, bound, n - 1);
      var limit := if prev.Some? then score(s[prev.value]) else bound;
      if ok(s[n - 1]) && score(s[n - 1]) < limit then Some(n - 1) else prev
  }

  /** The scan finds nothing exactly when no element passes `ok` below the
      bound; otherwise it returns a passing element whose score is minimal
      among all passing elements, and the first such one. */
  lemma {:induction false} FirstArgminIsFirstMinimum<T>(s: seq<T>, ok: T -> bool, score: T -> real, bound: real, n: nat)
    requires n <= |s|
    ensures var r := FirstArgmin(s, ok, score, bound, n);
      (r.None? <==> forall j :: 0 <= j < n ==> !(ok(s[j]) && score(s[j]) < bound))
    ensures var r := FirstArgmin(s, ok, score, bound, n);
      r.Some? ==>
        && ok(s[r.value]) && score(s[r.value]) < bound
        && (forall j :: 0 <= j < n && ok(s[j]) ==> score(s[r.value]) <= score(s[j]))
        && (forall j :: 0 <= j < r.value && ok(s[j]) ==> score(s[r.value]) < score(s[j]))
  {
    if n > 0 {
      FirstArgminIsFirstMinimum(s, ok, score, bound, n - 1);
    }
  }
}
