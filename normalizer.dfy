/** `Recommender._minmax`: min-max rescaling of one column to [0, 1], with the
    constant 0.5 for a column that has no spread. */
module Normalizer {

  /** `series.min()` of a non-empty column. */
  function Min(xs: seq<real>): (m: real)
    requires |xs| > 0
    ensures m in xs
    ensures forall i :: 0 <= i < |xs| ==> m <= xs[i]
  {
    if |xs| == 1 then xs[0]
    else
      var rest := Min(xs[1..]);
      assert forall i :: 1 <= i < |xs| ==> xs[i] == xs[1..][i - 1];
      if xs[0] <= rest then xs[0] else rest
  }

  /** `series.max()` of a non-empty column. */
  function Max(xs: seq<real>): (m: real)
    requires |xs| > 0
    ensures m in xs
    ensures forall i :: 0 <= i < |xs| ==> xs[i] <= m
  {
    if |xs| == 1 then xs[0]
    else
      var rest := Max(xs[1..]);
      assert forall i :: 1 <= i < |xs| ==> xs[i] == xs[1..][i - 1];
      if xs[0] >= rest then xs[0] else rest
  }

  /** Every value of the column is the same. */
  predicate Constant(xs: seq<real>) {
    forall i, j :: 0 <= i < |xs| && 0 <= j < |xs| ==> xs[i] == xs[j]
  }

  /** The position of `v` within the range from `mn` to `mx`, as a fraction. */
  function Scale(v: real, mn: real, mx: real): (r: real)
    requires mn < mx
    ensures v == mn ==> r == 0.0
    ensures v == mx ==> r == 1.0
  {
    var d := mx - mn;
    assert d / d == 1.0;
    (v - mn) / d
  }

  /** For a positive spread, `Scale` is order-preserving in both directions. */
  lemma ScaleOrder(a: real, b: real, mn: real, mx: real)
    requires mn < mx
    ensures a <= b <==> Scale(a, mn, mx) <= Scale(b, mn, mx)
  {
    var d := mx - mn;
    assert Scale(b, mn, mx) - Scale(a, mn, mx) == (b - a) / d;
    if a <= b {
      assert (b - a) / d >= 0.0;
    } else {
      assert (a - b) / d > 0.0;
      assert (b - a) / d == -((a - b) / d);
    }
  }

  /** The minimum scales to 0, the maximum to 1, and nothing in between leaves [0, 1]. */
  lemma ScaleRange(v: real, mn: real, mx: real)
    requires mn <= v <= mx && mn < mx
    ensures 0.0 <= Scale(v, mn, mx) <= 1.0
    ensures Scale(v, mn, mx) == 0.0 <==> v == mn
    ensures Scale(v, mn, mx) == 1.0 <==> v == mx
  {
    ScaleOrder(mn, v, mn, mx);
    ScaleOrder(v, mx, mn, mx);
    ScaleOrder(v, mn, mn, mx);
    ScaleOrder(mx, v, mn, mx);
    assert Scale(mn, mn, mx) == 0.0;
    assert Scale(mx, mn, mx) == 1.0;
  }

  /** `_minmax(series)`: an empty or constant column becomes all 0.5,
      any other column is rescaled to [0, 1]. */
  function MinMax(xs: seq<real>): (r: seq<real>)
    ensures |r| == |xs|
    ensures forall i :: 0 <= i < |r| ==> 0.0 <= r[i] <= 1.0
  {
    if |xs| == 0 then []
    else
      var mn, mx := Min(xs), Max(xs);
      if mx - mn == 0.0 then seq(|xs|, _ => 0.5)
      else
        var r := seq(|xs|, i requires 0 <= i < |xs| => Scale(xs[i], mn, mx));
        assert forall i :: 0 <= i < |xs| ==> 0.0 <= r[i] <= 1.0 by {
          forall i | 0 <= i < |xs| ensures 0.0 <= r[i] <= 1.0 {
            ScaleRange(xs[i], mn, mx);
          }
        }
        r
  }

  /** The neutral 0.5 appears everywhere exactly when the column has no spread. */
  lemma {:induction false} MinMaxNeutral(xs: seq<real>)
    ensures Constant(xs) <==> forall i :: 0 <= i < |xs| ==> MinMax(xs)[i] == 0.5
  {
    if |xs| > 0 {
      var mn, mx := Min(xs), Max(xs);
      if Constant(xs) {
        assert mn == mx;
      } else {
        var i, j :| 0 <= i < |xs| && 0 <= j < |xs| && xs[i] != xs[j];
        assert mn < mx;
        var k :| 0 <= k < |xs| && xs[k] == mn;
        ScaleRange(xs[k], mn, mx);
        assert MinMax(xs)[k] == 0.0;
      }
    }
  }

  /** On a column with spread, the minimum maps to 0 and only it, the maximum
      to 1 and only it; both values occur. */
  lemma MinMaxEndpoints(xs: seq<real>)
    requires !Constant(xs)
    ensures forall i :: 0 <= i < |xs| ==> (MinMax(xs)[i] == 0.0 <==> xs[i] == Min(xs))
    ensures forall i :: 0 <= i < |xs| ==> (MinMax(xs)[i] == 1.0 <==> xs[i] == Max(xs))
    ensures exists i :: 0 <= i < |xs| && MinMax(xs)[i] == 0.0
    ensures exists i :: 0 <= i < |xs| && MinMax(xs)[i] == 1.0
  {
    var mn, mx := Min(xs), Max(xs);
    assert mn < mx;
    forall i | 0 <= i < |xs|
      ensures MinMax(xs)[i] == 0.0 <==> xs[i] == mn
      ensures MinMax(xs)[i] == 1.0 <==> xs[i] == mx
    {
      ScaleRange(xs[i], mn, mx);
    }
    var k :| 0 <= k < |xs| && xs[k] == mn;
    var l :| 0 <= l < |xs| && xs[l] == mx;
    assert MinMax(xs)[k] == 0.0 && MinMax(xs)[l] == 1.0;
  }

  /** On a column with spread, rescaling keeps the order of every pair of
      values, in both directions. */
  lemma MinMaxMonotone(xs: seq<real>, i: int, j: int)
    requires !Constant(xs)
    requires 0 <= i < |xs| && 0 <= j < |xs|
    ensures xs[i] <= xs[j] <==> MinMax(xs)[i] <= MinMax(xs)[j]
  {
    var mn, mx := Min(xs), Max(xs);
    assert mn < mx;
    ScaleOrder(xs[i], xs[j], mn, mx);
  }
}
