/** Sums, means and discounted sums of real numbers. */
module Reals {
  function RealSum(s: seq<real>): real {
    if s == [] then 0.0 else s[0] + RealSum(s[1..])
  }

  lemma {:induction false} RealSumSnoc(s: seq<real>, x: real)
    ensures RealSum(s + [x]) == RealSum(s) + x
  {
    if s == [] {
      assert [] + [x] == [x];
    } else {
      RealSumSnoc(s[1..], x);
      assert (s + [x])[1..] == s[1..] + [x];
    }
  }

  lemma {:induction false} RealSumAdd(x: seq<real>, y: seq<real>, z: seq<real>)
    requires |x| == |y| == |z| && forall k :: 0 <= k < |z| ==> z[k] == x[k] + y[k]
    ensures RealSum(z) == RealSum(x) + RealSum(y)
  {
    if z != [] {
      RealSumAdd(x[1..], y[1..], z[1..]);
    }
  }

  function Mean(s: seq<real>): real
    requires s != []
  {
    RealSum(s) / |s| as real
  }

  lemma {:induction false} ConstantSum(s: seq<real>, c: real)
    requires forall t :: 0 <= t < |s| ==> s[t] == c
    ensures RealSum(s) == |s| as real * c
  {
    if s != [] {
      ConstantSum(s[1..], c);
    }
  }

  lemma MeanOfConstant(s: seq<real>, c: real)
    requires s != [] && RealSum(s) == |s| as real * c
    ensures Mean(s) == c
  {
  }

  function Horner(value: real, factor: real, rest: real): real {
    value + factor * rest
  }

  // v_0 + factor * (v_1 + factor * (v_2 + ...)).
  function Discounted(values: seq<real>, factor: real): real {
    if values == [] then 0.0 else Horner(values[0], factor, Discounted(values[1..], factor))
  }

  lemma NothingDiscounted(factor: real)
    ensures Discounted([], factor) == 0.0
  {
  }

  lemma SuffixDiscounted(values: seq<real>, t: nat, factor: real)
    requires t < |values|
    ensures Discounted(values[t..], factor) == Horner(values[t], factor, Discounted(values[t + 1..], factor))
  {
    assert values[t..][1..] == values[t + 1..];
  }

  function Times(x: real, y: real): real {
    x * y
  }

  function Power(factor: real, n: nat): real {
    if n == 0 then 1.0 else factor * Power(factor, n - 1)
  }

  function PowerTerms(values: seq<real>, factor: real): (terms: seq<real>)
    ensures |terms| == |values| && forall t :: 0 <= t < |values| ==> terms[t] == Times(Power(factor, t), values[t])
  {
    seq(|values|, t requires 0 <= t < |values| => Times(Power(factor, t), values[t]))
  }

  // v_0 + factor * v_1 + factor^2 * v_2 + ...
  function PowerSum(values: seq<real>, factor: real): real {
    RealSum(PowerTerms(values, factor))
  }

  lemma {:induction false} ScaledSum(x: seq<real>, y: seq<real>, factor: real)
    requires |x| == |y| && forall t :: 0 <= t < |x| ==> y[t] == Times(factor, x[t])
    ensures RealSum(y) == Times(factor, RealSum(x))
  {
    if x != [] {
      ScaledSum(x[1..], y[1..], factor);
    }
  }

  lemma PowerShift(factor: real, t: nat, value: real)
    ensures Times(Power(factor, t + 1), value) == Times(factor, Times(Power(factor, t), value))
  {
  }

  lemma FirstPower(factor: real, value: real)
    ensures Times(Power(factor, 0), value) == value
  {
  }

  // The terms after the first are those of the later values, times the factor once more.
  lemma LaterTerms(values: seq<real>, factor: real)
    requires values != []
    ensures PowerSum(values, factor) == values[0] + Times(factor, PowerSum(values[1..], factor))
  {
    hide Power, Times;
    var terms, later := PowerTerms(values, factor), PowerTerms(values[1..], factor);
    forall t | 0 <= t < |later|
      ensures terms[1..][t] == Times(factor, later[t])
    {
      PowerShift(factor, t, values[t + 1]);
    }
    ScaledSum(later, terms[1..], factor);
    FirstPower(factor, values[0]);
  }

  // The nested form is the sum of the values times the powers of the factor.
  lemma {:induction false} DiscountedIsPowerSum(values: seq<real>, factor: real)
    ensures Discounted(values, factor) == PowerSum(values, factor)
  {
    hide PowerTerms, Power;
    if values != [] {
      DiscountedIsPowerSum(values[1..], factor);
      LaterTerms(values, factor);
    } else {
      assert PowerTerms(values, factor) == [];
    }
  }

  function ReturnsOf(values: seq<real>, factor: real): (r: seq<real>)
    ensures |r| == |values| && forall t :: 0 <= t < |values| ==> r[t] == PowerSum(values[t..], factor)
  {
    seq(|values|, t requires 0 <= t < |values| => PowerSum(values[t..], factor))
  }

  lemma {:induction false} Undiscounted(values: seq<real>)
    ensures Discounted(values, 1.0) == PowerSum(values, 1.0) == RealSum(values)
  {
    DiscountedIsPowerSum(values, 1.0);
    if values != [] {
      Undiscounted(values[1..]);
    }
  }
}
