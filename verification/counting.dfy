/**
 Counting and summing over sequences, the two reductions every dashboard
 figure is built from.
 */
module Counting {

  /** Number of elements of `s` that satisfy `p`, counted left to right. */
  function CountWhere<T>(s: seq<T>, p: T -> bool): (c: nat)
    ensures c <= |s|
  {
    if |s| == 0 then 0
    else CountWhere(s[..|s| - 1], p) + (if p(s[|s| - 1]) then 1 else 0)
  }

  /** `p` holds of every element exactly when it counts every element. */
  lemma {:induction false} CountWhereAll<T>(s: seq<T>, p: T -> bool)
    ensures CountWhere(s, p) == |s| <==> forall i :: 0 <= i < |s| ==> p(s[i])
  {
    if |s| > 0 {
      var init := s[..|s| - 1];
      CountWhereAll(init, p);
      if forall i :: 0 <= i < |s| ==> p(s[i]) {
        assert forall i :: 0 <= i < |init| ==> p(init[i]) by {
          forall i | 0 <= i < |init| ensures p(init[i]) {
            assert init[i] == s[i];
          }
        }
      } else {
        var j :| 0 <= j < |s| && !p(s[j]);
        if j < |s| - 1 {
          assert init[j] == s[j];
        }
      }
    }
  }

  /** `p` holds of no element exactly when the count is zero. */
  lemma {:induction false} CountWhereNone<T>(s: seq<T>, p: T -> bool)
    ensures CountWhere(s, p) == 0 <==> forall i :: 0 <= i < |s| ==> !p(s[i])
  {
    if |s| > 0 {
      var init := s[..|s| - 1];
      CountWhereNone(init, p);
      if CountWhere(s, p) == 0 {
        forall i | 0 <= i < |s| ensures !p(s[i]) {
          if i < |s| - 1 {
            assert init[i] == s[i];
          }
        }
      } else if !p(s[|s| - 1]) {
        var j :| 0 <= j < |init| && p(init[j]);
        assert s[j] == init[j];
      }
    }
  }

  /** Sum of `f` over the elements of `s`. */
  function SumOf<T>(s: seq<T>, f: T -> nat): nat
  {
    if |s| == 0 then 0 else SumOf(s[..|s| - 1], f) + f(s[|s| - 1])
  }

  /** Replacing one element changes the sum by the difference of the two values. */
  lemma {:induction false} SumOfUpdate<T>(s: seq<T>, k: nat, v: T, f: T -> nat)
    requires k < |s|
    ensures SumOf(s[k := v], f) + f(s[k]) == SumOf(s, f) + f(v)
  {
    var t := s[k := v];
    var n := |s| - 1;
    if k == n {
      assert t[..n] == s[..n];
    } else {
      assert t[..n] == s[..n][k := v];
      SumOfUpdate(s[..n], k, v, f);
    }
  }

  /** No single element exceeds the sum. */
  lemma {:induction false} ElementAtMostSum<T>(s: seq<T>, k: nat, f: T -> nat)
    requires k < |s|
    ensures f(s[k]) <= SumOf(s, f)
  {
    var n := |s| - 1;
    if k < n {
      assert s[..n][k] == s[k];
      ElementAtMostSum(s[..n], k, f);
    }
  }
}
