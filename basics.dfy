/** Helpers shared by every module: an optional value, JavaScript's
    `Array.prototype.find` over a sequence and `String.prototype.indexOf`. */
module Basics {

  datatype Option<+T> = None | Some(value: T)

  /** The index of the first element of `xs` that satisfies `p`, as `find`
      and `some` scan an array from the front; `None` when no element does. */
  function FindIndex<T>(xs: seq<T>, p: T -> bool): (r: Option<nat>)
    ensures r.Some? ==> r.value < |xs| && p(xs[r.value])
    ensures r.Some? ==> forall j :: 0 <= j < r.value ==> !p(xs[j])
    ensures r.None? <==> forall j :: 0 <= j < |xs| ==> !p(xs[j])
  {
    if |xs| == 0 then None
    else if p(xs[0]) then Some(0)
    else
      match FindIndex(xs[1..], p)
      case None =>
        assert forall j :: 1 <= j < |xs| ==> xs[j] == xs[1..][j - 1];
        None
      case Some(i) =>
        assert forall j :: 1 <= j <= i ==> xs[j] == xs[1..][j - 1];
        Some(i + 1)
  }

  /** Elements after the first one that satisfies `p` are never looked at. */
  lemma {:induction false} FindIndexAppend<T>(xs: seq<T>, ys: seq<T>, p: T -> bool)
    requires FindIndex(xs, p).Some?
    ensures FindIndex(xs + ys, p) == FindIndex(xs, p)
  {
    var i := FindIndex(xs, p).value;
    assert (xs + ys)[i] == xs[i];
    assert forall j :: 0 <= j < i ==> (xs + ys)[j] == xs[j];
  }

  /** The first element that satisfies `p` is the one found. */
  lemma FindIndexFirst<T>(xs: seq<T>, p: T -> bool, i: nat)
    requires i < |xs| && p(xs[i])
    requires forall j :: 0 <= j < i ==> !p(xs[j])
    ensures FindIndex(xs, p) == Some(i)
  {
  }

  /** Whether some element satisfies `p` (`Array.prototype.some`). */
  predicate Any<T>(xs: seq<T>, p: T -> bool): (b: bool)
    ensures b <==> exists x :: x in xs && p(x)
  {
    var r := FindIndex(xs, p);
    assert r.Some? ==> xs[r.value] in xs;
    r.Some?
  }

  /** `k` occurs in `s` starting at position `j`. */
  predicate OccursAt(s: string, k: string, j: int) {
    0 <= j && j + |k| <= |s| && s[j..j + |k|] == k
  }

  /** `s.indexOf(k, from)`: the first position at or after `from` where `k` occurs in `s`, or -1. */
  function IndexFrom(s: string, k: string, from: nat): (r: int)
    requires from <= |s|
    ensures r == -1 || (from <= r && OccursAt(s, k, r))
    ensures r == -1 ==> forall j :: from <= j ==> !OccursAt(s, k, j)
    ensures r != -1 ==> forall j :: from <= j < r ==> !OccursAt(s, k, j)
    decreases |s| - from
  {
    if from + |k| > |s| then -1
    else if s[from..from + |k|] == k then from
    else IndexFrom(s, k, from + 1)
  }

  /** `s.indexOf(k)`. */
  function IndexOf(s: string, k: string): int {
    IndexFrom(s, k, 0)
  }

  /** The test `s.indexOf(k) === 0` holds exactly when `k` is a prefix of `s`. */
  lemma IndexOfZeroIsPrefix(s: string, k: string)
    ensures IndexOf(s, k) == 0 <==> k <= s
  {
    if k <= s {
      assert OccursAt(s, k, 0);
    }
  }
}
