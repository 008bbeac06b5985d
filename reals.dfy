/** Python's `abs`, `max` and `list.index` on lists of (real-valued) numbers. */
module Reals {
  function Abs(r: real): (a: real)
    ensures a >= 0.0 && (a == r || a == -r)
  {
    if r < 0.0 then -r else r
  }

  /** Python's `max(a, b)`. */
  function Larger(a: real, b: real): (m: real)
    ensures m >= a && m >= b && (m == a || m == b)
  {
    if b > a then b else a
  }

  /** Python's `max(s)` for a non-empty list: its largest element. */
  function Max(s: seq<real>): real
    requires |s| > 0
  {
    if |s| == 1 then s[0] else Larger(Max(s[..|s| - 1]), s[|s| - 1])
  }

  /** Max is an element of the list, and no element is larger. */
  lemma {:induction false} MaxIsLargest(s: seq<real>)
    requires |s| > 0
    ensures Max(s) in s
    ensures forall i :: 0 <= i < |s| ==> s[i] <= Max(s)
  {
    if |s| > 1 {
      MaxIsLargest(s[..|s| - 1]);
      assert s[..|s| - 1][..] == s[..|s| - 1];
    }
  }

  /** Python's `s.index(v)`: the first position holding `v`. */
  function IndexOf(s: seq<real>, v: real): (k: nat)
    requires v in s
    ensures k < |s| && s[k] == v
    ensures forall i :: 0 <= i < k ==> s[i] != v
  {
    if s[0] == v then 0 else 1 + IndexOf(s[1..], v)
  }

  /** `s.index(max(s))`: the first position of a largest element; every earlier one is strictly smaller. */
  function FirstMaxIndex(s: seq<real>): (k: nat)
    requires |s| > 0
    ensures k < |s|
  {
    if |s| == 1 then 0
    else
      var k := FirstMaxIndex(s[..|s| - 1]);
      if s[|s| - 1] > s[k] then |s| - 1 else k
  }

  /** FirstMaxIndex is the first position of a largest element: every earlier one is strictly smaller. */
  lemma {:induction false} FirstMaxIndexIsFirstMax(s: seq<real>)
    requires |s| > 0
    ensures s[FirstMaxIndex(s)] == Max(s)
    ensures forall i :: 0 <= i < FirstMaxIndex(s) ==> s[i] < s[FirstMaxIndex(s)]
    ensures forall i :: FirstMaxIndex(s) < i < |s| ==> s[i] <= s[FirstMaxIndex(s)]
  {
    if |s| > 1 {
      FirstMaxIndexIsFirstMax(s[..|s| - 1]);
    }
  }

  /** Maxima of two lists that differ by at most `d` entry by entry differ by at most `d`. */
  lemma MaxLipschitz(a: seq<real>, b: seq<real>, d: real)
    requires |a| == |b| > 0
    requires forall i :: 0 <= i < |a| ==> Abs(a[i] - b[i]) <= d
    ensures Abs(Max(a) - Max(b)) <= d
  {
    MaxIsLargest(a);
    MaxIsLargest(b);
    var ma, mb := Max(a), Max(b);
    var i :| 0 <= i < |a| && a[i] == ma;
    var j :| 0 <= j < |b| && b[j] == mb;
    assert a[j] <= ma && b[i] <= mb;
    assert a[i] - b[i] <= d by { assert Abs(a[i] - b[i]) <= d; }
    assert b[j] - a[j] <= d by { assert Abs(a[j] - b[j]) <= d; }
    assert ma - mb <= d && mb - ma <= d;
  }
}
