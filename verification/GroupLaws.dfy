/** What the group baseline guarantees: sums, shifts, additivity, and names that do not matter. */
module GroupLaws {
  import opened Wrappers
  import opened Reals
  import opened Normalization

  ghost predicate Results<G, K>(r: seq<real>, scores: seq<real>, groups: seq<G>, dedup: Option<seq<K>>,
                                settings: Settings, sqrt: real -> real)
    requires |scores| == |groups| && Keyed(groups, dedup) && Sound(settings, sqrt)
  {
    |r| == |scores| && forall k :: 0 <= k < |scores| ==> r[k] == Normalized(scores, groups, dedup, settings, sqrt, k)
  }

  // Rows changed one by one change the group's scores one by one.
  lemma {:induction false} MappedScores<G, K>(x: seq<real>, y: seq<real>, groups: seq<G>, dedup: Option<seq<K>>, g: G,
                                              n: nat, f: real -> real)
    requires |x| == |y| == |groups| && Keyed(groups, dedup) && n <= |groups|
    requires forall k :: 0 <= k < n && groups[k] == g ==> y[k] == f(x[k])
    ensures var xs, ys := GroupScores(x, groups, dedup, g, n), GroupScores(y, groups, dedup, g, n);
      |ys| == |xs| && forall i :: 0 <= i < |xs| ==> ys[i] == f(xs[i])
  {
    hide Contributes;
    if n > 0 {
      MappedScores(x, y, groups, dedup, g, n - 1, f);
    }
  }

  lemma {:induction false} AddedScores<G, K>(x: seq<real>, y: seq<real>, z: seq<real>, groups: seq<G>,
                                             dedup: Option<seq<K>>, g: G, n: nat)
    requires |x| == |y| == |z| == |groups| && Keyed(groups, dedup) && n <= |groups|
    requires forall k :: 0 <= k < n ==> z[k] == x[k] + y[k]
    ensures var xs, ys, zs := GroupScores(x, groups, dedup, g, n), GroupScores(y, groups, dedup, g, n),
                              GroupScores(z, groups, dedup, g, n);
      |xs| == |ys| == |zs| && forall i :: 0 <= i < |zs| ==> zs[i] == xs[i] + ys[i]
  {
    hide Contributes;
    if n > 0 {
      AddedScores(x, y, z, groups, dedup, g, n - 1);
    }
  }

  // ----- Sums -----

  lemma SplitProduct(x: real, y: real, d: real)
    ensures Times(x + y, d) == Times(x, d) + Times(y, d)
    ensures Times(1.0, d) == d && Times(0.0, d) == 0.0
  {
  }

  // Each value, times d, is the other value less m.
  ghost predicate Scaled(own: seq<real>, values: seq<real>, m: real, d: real) {
    |own| == |values| && forall i :: 0 <= i < |own| ==> Times(own[i], d) == values[i] - m
  }

  lemma {:induction false} SumOfScaled(own: seq<real>, values: seq<real>, m: real, d: real)
    requires Scaled(own, values, m, d)
    ensures Times(RealSum(own), d) == RealSum(values) - Times(|values| as real, m)
  {
    hide Times;
    SplitProduct(0.0, 0.0, d);
    SplitProduct(0.0, 0.0, m);
    if own != [] {
      SumOfScaled(own[1..], values[1..], m, d);
      SplitProduct(own[0], RealSum(own[1..]), d);
      SplitProduct(1.0, |values[1..]| as real, m);
    }
  }

  lemma MeanTimes(values: seq<real>)
    requires values != []
    ensures Times(|values| as real, Mean(values)) == RealSum(values)
  {
  }

  lemma ProductZero(x: real, d: real)
    requires Times(x, d) == 0.0 && d != 0.0
    ensures x == 0.0
  {
  }

  lemma SumAboutMean(own: seq<real>, values: seq<real>, d: real)
    requires values != [] && d != 0.0 && Scaled(own, values, Mean(values), d)
    ensures RealSum(own) == 0.0
  {
    hide Scaled, RealSum, Mean, Times;
    SumOfScaled(own, values, Mean(values), d);
    MeanTimes(values);
    ProductZero(RealSum(own), d);
  }

  function Divisor(values: seq<real>, settings: Settings, sqrt: real -> real): real
    requires values != []
  {
    if settings.removeStd then 1.0 else Spread(values, sqrt) + settings.epsilon
  }

  lemma CentredTimes(score: real, values: seq<real>, settings: Settings, sqrt: real -> real)
    requires |values| >= 2 && Sound(settings, sqrt)
    ensures settings.removeStd || Spread(values, sqrt) + settings.epsilon != 0.0
    ensures Divisor(values, settings, sqrt) > 0.0
    ensures Times(Centred(score, values, settings, sqrt), Divisor(values, settings, sqrt)) == score - Mean(values)
  {
    SpreadNonNegative(values, sqrt);
  }

  ghost function CentredBy(values: seq<real>, settings: Settings, sqrt: real -> real): real -> real
    requires values != [] && Sound(settings, sqrt)
  {
    SpreadNonNegative(values, sqrt);
    x => Centred(x, values, settings, sqrt)
  }

  lemma CentredByAt(values: seq<real>, settings: Settings, sqrt: real -> real, x: real)
    requires values != [] && Sound(settings, sqrt)
    ensures settings.removeStd || Spread(values, sqrt) + settings.epsilon != 0.0
    ensures CentredBy(values, settings, sqrt)(x) == Centred(x, values, settings, sqrt)
  {
    SpreadNonNegative(values, sqrt);
  }

  lemma ScaledOwn(own: seq<real>, values: seq<real>, settings: Settings, sqrt: real -> real)
    requires |own| == |values| >= 2 && Sound(settings, sqrt)
    requires forall i :: 0 <= i < |own| ==> own[i] == CentredBy(values, settings, sqrt)(values[i])
    ensures Scaled(own, values, Mean(values), Divisor(values, settings, sqrt))
  {
    hide CentredBy, Centred, Divisor, Mean, Times;
    forall i | 0 <= i < |own|
      ensures Times(own[i], Divisor(values, settings, sqrt)) == values[i] - Mean(values)
    {
      CentredByAt(values, settings, sqrt, values[i]);
      CentredTimes(values[i], values, settings, sqrt);
    }
  }

  // Without deduplication, the results of a group are its centred scores over its divisor.
  lemma OwnScaled<G, K>(r: seq<real>, scores: seq<real>, groups: seq<G>, settings: Settings, sqrt: real -> real, g: G)
    requires |scores| == |groups| && Sound(settings, sqrt) && Results<G, K>(r, scores, groups, None, settings, sqrt)
    requires |GroupScores<G, K>(scores, groups, None, g, |groups|)| >= 2
    ensures |GroupScores<G, K>(r, groups, None, g, |groups|)| == |GroupScores<G, K>(scores, groups, None, g, |groups|)|
    ensures var values := GroupScores<G, K>(scores, groups, None, g, |groups|);
      Scaled(GroupScores<G, K>(r, groups, None, g, |groups|), values, Mean(values), Divisor(values, settings, sqrt))
  {
    hide GroupScores, Scaled, CentredBy, Divisor;
    var values := GroupScores<G, K>(scores, groups, None, g, |groups|);
    var own := GroupScores<G, K>(r, groups, None, g, |groups|);
    forall k | 0 <= k < |groups| && groups[k] == g
      ensures r[k] == CentredBy(values, settings, sqrt)(scores[k])
    {
      CentredByAt(values, settings, sqrt, scores[k]);
    }
    MappedScores<G, K>(scores, r, groups, None, g, |groups|, CentredBy(values, settings, sqrt));
    ScaledOwn(own, values, settings, sqrt);
  }

  // Without deduplication, the results of a group of two or more rows add up to zero, whether
  // or not they are scaled.
  lemma ZeroSum<G, K>(r: seq<real>, scores: seq<real>, groups: seq<G>, settings: Settings, sqrt: real -> real, g: G)
    requires |scores| == |groups| && Sound(settings, sqrt) && Results<G, K>(r, scores, groups, None, settings, sqrt)
    requires |GroupScores<G, K>(scores, groups, None, g, |groups|)| >= 2
    ensures RealSum(GroupScores<G, K>(r, groups, None, g, |groups|)) == 0.0
  {
    hide GroupScores, Scaled, CentredBy, Divisor;
    var values := GroupScores<G, K>(scores, groups, None, g, |groups|);
    var own := GroupScores<G, K>(r, groups, None, g, |groups|);
    OwnScaled<G, K>(r, scores, groups, settings, sqrt, g);
    CentredTimes(0.0, values, settings, sqrt);
    SumAboutMean(own, values, Divisor(values, settings, sqrt));
  }

  // ----- Shifts -----

  lemma {:induction false} ShiftedSum(x: seq<real>, y: seq<real>, c: real)
    requires |x| == |y| && forall i :: 0 <= i < |x| ==> y[i] == x[i] + c
    ensures RealSum(y) == RealSum(x) + Times(|x| as real, c)
  {
    hide Times;
    SplitProduct(0.0, 0.0, c);
    if x != [] {
      ShiftedSum(x[1..], y[1..], c);
      SplitProduct(1.0, |x[1..]| as real, c);
    }
  }

  lemma Cancel(n: real, x: real, y: real)
    requires n != 0.0 && Times(n, x) == Times(n, y)
    ensures x == y
  {
  }

  lemma ShiftedMean(x: seq<real>, y: seq<real>, c: real)
    requires |x| == |y| >= 1 && forall i :: 0 <= i < |x| ==> y[i] == x[i] + c
    ensures Mean(y) == Mean(x) + c
  {
    hide Mean, RealSum;
    ShiftedSum(x, y, c);
    MeanTimes(x);
    MeanTimes(y);
    assert Times(|x| as real, Mean(x) + c) == Times(|x| as real, Mean(x)) + Times(|x| as real, c);
    Cancel(|x| as real, Mean(y), Mean(x) + c);
  }

  lemma ShiftedSpread(x: seq<real>, y: seq<real>, c: real, sqrt: real -> real)
    requires |x| == |y| >= 2 && forall i :: 0 <= i < |x| ==> y[i] == x[i] + c
    ensures Spread(y, sqrt) == Spread(x, sqrt)
  {
    hide Mean, Square;
    ShiftedMean(x, y, c);
    assert forall i :: 0 <= i < |x| ==> y[i] - Mean(y) == x[i] - Mean(x);
    assert SquaredDeviations(y, Mean(y)) == SquaredDeviations(x, Mean(x));
  }

  // Adding one constant to a whole group with two or more contributing rows changes nothing.
  lemma ShiftInvisible<G, K>(scores: seq<real>, shifted: seq<real>, groups: seq<G>, dedup: Option<seq<K>>,
                             settings: Settings, sqrt: real -> real, c: real, k: nat)
    requires |scores| == |shifted| == |groups| && Keyed(groups, dedup) && Sound(settings, sqrt) && k < |groups|
    requires forall j :: 0 <= j < |groups| && groups[j] == groups[k] ==> shifted[j] == scores[j] + c
    requires |GroupScores(scores, groups, dedup, groups[k], |groups|)| >= 2
    ensures Normalized(shifted, groups, dedup, settings, sqrt, k)
        == Normalized(scores, groups, dedup, settings, sqrt, k)
  {
    hide GroupScores, Mean, Spread;
    var x := GroupScores(scores, groups, dedup, groups[k], |groups|);
    var y := GroupScores(shifted, groups, dedup, groups[k], |groups|);
    MappedScores(scores, shifted, groups, dedup, groups[k], |groups|, s => s + c);
    ShiftedMean(x, y, c);
    ShiftedSpread(x, y, c, sqrt);
  }

  // ----- Additivity -----

  lemma AddedQuotient(x: real, y: real, n: real)
    requires n != 0.0
    ensures (x + y) / n == x / n + y / n
  {
  }

  lemma AddedMean(x: seq<real>, y: seq<real>, z: seq<real>)
    requires |x| == |y| == |z| >= 1 && forall i :: 0 <= i < |z| ==> z[i] == x[i] + y[i]
    ensures Mean(z) == Mean(x) + Mean(y)
  {
    RealSumAdd(x, y, z);
    AddedQuotient(RealSum(x), RealSum(y), |x| as real);
  }

  // Without scaling, normalising a sum of scores adds the normalised scores.
  lemma NormalizedAdds<G, K>(x: seq<real>, y: seq<real>, z: seq<real>, groups: seq<G>, dedup: Option<seq<K>>,
                       settings: Settings, sqrt: real -> real, k: nat)
    requires |x| == |y| == |z| == |groups| && Keyed(groups, dedup) && Sound(settings, sqrt) && k < |groups|
    requires settings.removeStd && forall j :: 0 <= j < |groups| ==> z[j] == x[j] + y[j]
    ensures Normalized(z, groups, dedup, settings, sqrt, k)
         == Normalized(x, groups, dedup, settings, sqrt, k) + Normalized(y, groups, dedup, settings, sqrt, k)
  {
    hide GroupScores, Mean, Spread;
    var n := |groups|;
    AddedScores(x, y, z, groups, dedup, groups[k], n);
    SomeScores(x, groups, dedup, groups[k], n);
    assert groups[..n] == groups;
    AddedMean(GroupScores(x, groups, dedup, groups[k], n), GroupScores(y, groups, dedup, groups[k], n),
              GroupScores(z, groups, dedup, groups[k], n));
  }

  // ----- Names -----

  // The same rows grouped together, under whatever ids.
  ghost predicate SamePartition<G, H>(groups: seq<G>, groups': seq<H>) {
    && |groups| == |groups'|
    && forall j, k :: 0 <= j < |groups| && 0 <= k < |groups| ==> (groups[j] == groups[k] <==> groups'[j] == groups'[k])
  }

  lemma SameContribution<G, H, K>(groups: seq<G>, groups': seq<H>, dedup: Option<seq<K>>, k: nat)
    requires SamePartition(groups, groups') && Keyed(groups, dedup) && k < |groups|
    ensures Contributes(groups, dedup, k) <==> Contributes(groups', dedup, k)
  {
  }

  lemma SameGroup<G, H>(groups: seq<G>, groups': seq<H>, j: nat, k: nat)
    requires SamePartition(groups, groups') && j < |groups| && k < |groups|
    ensures |groups'| == |groups|
    ensures groups[j] == groups[k] <==> groups'[j] == groups'[k]
  {
  }

  lemma {:induction false} RenamedScores<G, H, K>(scores: seq<real>, groups: seq<G>, groups': seq<H>,
                                                  dedup: Option<seq<K>>, k: nat, n: nat)
    requires SamePartition(groups, groups') && |scores| == |groups| == |groups'| && Keyed(groups, dedup)
    requires k < |groups| && n <= |groups|
    ensures GroupScores(scores, groups, dedup, groups[k], n) == GroupScores(scores, groups', dedup, groups'[k], n)
  {
    hide Contributes, SamePartition;
    if n > 0 {
      RenamedScores(scores, groups, groups', dedup, k, n - 1);
      SameContribution(groups, groups', dedup, n - 1);
      SameGroup(groups, groups', n - 1, k);
    }
  }

  // Only the partition matters, not the ids.
  lemma RenamedGroups<G, H, K>(scores: seq<real>, groups: seq<G>, groups': seq<H>, dedup: Option<seq<K>>,
                               settings: Settings, sqrt: real -> real, k: nat)
    requires SamePartition(groups, groups') && |scores| == |groups| && Keyed(groups, dedup)
    requires Sound(settings, sqrt) && k < |groups|
    ensures Normalized(scores, groups, dedup, settings, sqrt, k)
        == Normalized(scores, groups', dedup, settings, sqrt, k)
  {
    RenamedScores(scores, groups, groups', dedup, k, |groups|);
  }

  // ----- Lone rows -----

  // A group with one contributing row: an episode keeps its score, divided by one plus the guard
  // when scaling; a step gets exactly zero for that row.
  lemma LoneRow<G, K>(scores: seq<real>, groups: seq<G>, dedup: Option<seq<K>>, settings: Settings,
                      sqrt: real -> real, k: nat)
    requires |scores| == |groups| && Keyed(groups, dedup) && Sound(settings, sqrt) && k < |groups|
    requires GroupScores(scores, groups, dedup, groups[k], |groups|) == [scores[k]]
    ensures Normalized(scores, groups, dedup, settings, sqrt, k) ==
      if settings.policy == SelfBaseline then 0.0
      else if settings.removeStd then scores[k] else scores[k] / (1.0 + settings.epsilon)
  {
    hide GroupScores, Variance;
    assert RealSum([scores[k]]) == scores[k] + RealSum([]);
  }

  lemma NoScores<G, K>(scores: seq<real>, groups: seq<G>, dedup: Option<seq<K>>, g: G)
    requires |scores| == |groups| && Keyed(groups, dedup)
    ensures GroupScores(scores, groups, dedup, g, 0) == []
  {
  }

  // The only row of its group contributes, and nothing else does.
  lemma {:induction false} LoneScores<G, K>(scores: seq<real>, groups: seq<G>, dedup: Option<seq<K>>, k: nat, n: nat)
    requires |scores| == |groups| && Keyed(groups, dedup) && k < |groups| && n <= |groups|
    requires forall i :: 0 <= i < |groups| && i != k ==> groups[i] != groups[k]
    ensures GroupScores(scores, groups, dedup, groups[k], n) == if k < n then [scores[k]] else []
  {
    hide GroupScores;
    if n > 0 {
      LoneScores(scores, groups, dedup, k, n - 1);
      GroupScoresStep(scores, groups, dedup, groups[k], n - 1);
    } else {
      NoScores(scores, groups, dedup, groups[k]);
    }
  }

  // ----- Equal scores -----

  lemma {:induction false} OneScore<G, K>(scores: seq<real>, groups: seq<G>, dedup: Option<seq<K>>, g: G, n: nat,
                                          c: real)
    requires |scores| == |groups| && Keyed(groups, dedup) && n <= |groups|
    requires forall i :: 0 <= i < n && groups[i] == g ==> scores[i] == c
    ensures forall i :: 0 <= i < |GroupScores(scores, groups, dedup, g, n)| ==>
              GroupScores(scores, groups, dedup, g, n)[i] == c
  {
    if n > 0 {
      OneScore(scores, groups, dedup, g, n - 1, c);
    }
  }

  // Where all rows of a group have one score, none stands out.
  lemma EqualScores<G, K>(scores: seq<real>, groups: seq<G>, dedup: Option<seq<K>>, settings: Settings,
                          sqrt: real -> real, k: nat)
    requires |scores| == |groups| && Keyed(groups, dedup) && Sound(settings, sqrt) && k < |groups|
    requires |GroupScores(scores, groups, dedup, groups[k], |groups|)| >= 2
    requires forall i :: 0 <= i < |groups| && groups[i] == groups[k] ==> scores[i] == scores[k]
    ensures Normalized(scores, groups, dedup, settings, sqrt, k) == 0.0
  {
    var values := GroupScores(scores, groups, dedup, groups[k], |groups|);
    OneScore(scores, groups, dedup, groups[k], |groups|, scores[k]);
    hide GroupScores;
    ConstantSum(values, scores[k]);
    MeanOfConstant(values, scores[k]);
    SpreadNonNegative(values, sqrt);
  }

  // ----- The spread -----

  function Squares(s: seq<real>): (r: seq<real>)
    ensures |r| == |s| && forall k :: 0 <= k < |s| ==> r[k] == Times(s[k], s[k])
  {
    seq(|s|, k requires 0 <= k < |s| => Times(s[k], s[k]))
  }

  lemma SquareScaled(x: real, d: real, v: real)
    requires Times(x, d) == v
    ensures Square(v) == Times(Times(d, d), Times(x, x))
  {
    assert (x * d) * (x * d) == (d * d) * (x * x);
  }

  lemma SquaresAbout(own: seq<real>, values: seq<real>, m: real, d: real)
    requires Scaled(own, values, m, d)
    ensures RealSum(SquaredDeviations(values, m)) == Times(Times(d, d), RealSum(Squares(own)))
  {
    hide Times, Square;
    forall i | 0 <= i < |own|
      ensures SquaredDeviations(values, m)[i] == Times(Times(d, d), Squares(own)[i])
    {
      SquareScaled(own[i], d, values[i] - m);
    }
    ScaledSum(Squares(own), SquaredDeviations(values, m), Times(d, d));
  }

  lemma SpreadSquared(values: seq<real>, sqrt: real -> real)
    requires |values| >= 2 && IsSqrt(sqrt)
    ensures RealSum(SquaredDeviations(values, Mean(values)))
         == (|values| - 1) as real * (Spread(values, sqrt) * Spread(values, sqrt))
  {
    VarianceNonNegative(values);
  }

  lemma DividedOut(values: seq<real>, settings: Settings, sqrt: real -> real, q: real)
    requires values != [] && !settings.removeStd
    ensures var d, spread := Divisor(values, settings, sqrt), Spread(values, sqrt);
      Times(Times(d, d), q) == (spread + settings.epsilon) * (spread + settings.epsilon) * q
  {
  }

  // The squares of the scaled results of a group of n rows add up to n - 1, but for the guard: their
  // unbiased sample variance would be 1 if nothing were added to the spread.
  lemma ScaledVariance<G, K>(r: seq<real>, scores: seq<real>, groups: seq<G>, settings: Settings, sqrt: real -> real,
                             g: G)
    requires |scores| == |groups| && Sound(settings, sqrt) && Results<G, K>(r, scores, groups, None, settings, sqrt)
    requires !settings.removeStd && |GroupScores<G, K>(scores, groups, None, g, |groups|)| >= 2
    ensures var values := GroupScores<G, K>(scores, groups, None, g, |groups|);
      var own := GroupScores<G, K>(r, groups, None, g, |groups|);
      var spread := Spread(values, sqrt);
      && |own| == |values|
      && (spread + settings.epsilon) * (spread + settings.epsilon) * RealSum(Squares(own))
         == (|own| - 1) as real * (spread * spread)
  {
    hide GroupScores, Scaled, CentredBy, Divisor, Times, Spread, Square, RealSum, Mean, Normalized, IsSqrt,
      SquaredDeviations, Squares;
    var values := GroupScores<G, K>(scores, groups, None, g, |groups|);
    var own := GroupScores<G, K>(r, groups, None, g, |groups|);
    OwnScaled<G, K>(r, scores, groups, settings, sqrt, g);
    SquaresAbout(own, values, Mean(values), Divisor(values, settings, sqrt));
    SpreadSquared(values, sqrt);
    DividedOut(values, settings, sqrt, RealSum(Squares(own)));
  }
}
