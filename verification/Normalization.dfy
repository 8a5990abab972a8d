/** Critic-free group normalisation: scores centred on, and optionally scaled by, their group. */
module Normalization {
  import opened Wrappers
  import opened Reals

  // What a lone row is compared with: nothing, or itself.
  datatype SingletonPolicy = ZeroBaseline | SelfBaseline

  // Rows after the first with the same group and key contribute nothing.
  ghost predicate Contributes<G, K>(groups: seq<G>, dedup: Option<seq<K>>, k: nat)
    requires k < |groups| && (dedup.Some? ==> |dedup.value| == |groups|)
  {
    dedup.Some? ==> forall j :: 0 <= j < k ==> !(groups[j] == groups[k] && dedup.value[j] == dedup.value[k])
  }

  ghost predicate Keyed<G, K>(groups: seq<G>, dedup: Option<seq<K>>) {
    dedup.Some? ==> |dedup.value| == |groups|
  }

  // The contributing scores of a group among the first n rows, in row order.
  ghost function GroupScores<G, K>(scores: seq<real>, groups: seq<G>, dedup: Option<seq<K>>, g: G,
                                   n: nat): (r: seq<real>)
    requires |scores| == |groups| && Keyed(groups, dedup) && n <= |groups|
    ensures r != [] ==> g in groups[..n]
  {
    if n == 0 then []
    else
      GroupScores(scores, groups, dedup, g, n - 1)
      + if groups[n - 1] == g && Contributes(groups, dedup, n - 1) then [scores[n - 1]] else []
  }

  // The first row of a group contributes, so no group is without scores.
  lemma {:induction false} SomeScores<G, K>(scores: seq<real>, groups: seq<G>, dedup: Option<seq<K>>, g: G, n: nat)
    requires |scores| == |groups| && Keyed(groups, dedup) && n <= |groups|
    ensures g in groups[..n] <==> GroupScores(scores, groups, dedup, g, n) != []
  {
    if n > 0 {
      SomeScores(scores, groups, dedup, g, n - 1);
      assert groups[..n] == groups[..n - 1] + [groups[n - 1]];
    }
  }

  // ----- Statistics -----

  function Square(x: real): real {
    x * x
  }

  function SquaredDeviations(values: seq<real>, mean: real): (r: seq<real>)
    ensures |r| == |values| && forall k :: 0 <= k < |r| ==> r[k] == Square(values[k] - mean)
  {
    seq(|values|, k requires 0 <= k < |values| => Square(values[k] - mean))
  }

  // The unbiased sample variance.
  function Variance(values: seq<real>): real
    requires |values| >= 2
  {
    RealSum(SquaredDeviations(values, Mean(values))) / (|values| - 1) as real
  }

  ghost predicate IsSqrt(sqrt: real -> real) {
    forall x :: x >= 0.0 ==> sqrt(x) >= 0.0 && sqrt(x) * sqrt(x) == x
  }

  function Baseline(values: seq<real>, policy: SingletonPolicy): real
    requires values != []
  {
    if |values| == 1 && policy == ZeroBaseline then 0.0 else Mean(values)
  }

  function Spread(values: seq<real>, sqrt: real -> real): real
    requires values != []
  {
    if |values| == 1 then 1.0 else sqrt(Variance(values))
  }

  lemma {:induction false} SumNonNegative(s: seq<real>)
    requires forall k :: 0 <= k < |s| ==> s[k] >= 0.0
    ensures RealSum(s) >= 0.0
  {
    if s != [] {
      SumNonNegative(s[1..]);
    }
  }

  lemma SquareNonNegative(x: real)
    ensures Square(x) >= 0.0
  {
  }

  lemma QuotientNonNegative(x: real, y: real)
    requires x >= 0.0 && y > 0.0
    ensures x / y >= 0.0
  {
  }

  lemma VarianceNonNegative(values: seq<real>)
    requires |values| >= 2
    ensures Variance(values) >= 0.0
  {
    var m := Mean(values);
    forall k | 0 <= k < |values|
      ensures SquaredDeviations(values, m)[k] >= 0.0
    {
      SquareNonNegative(values[k] - m);
    }
    SumNonNegative(SquaredDeviations(values, m));
    QuotientNonNegative(RealSum(SquaredDeviations(values, m)), (|values| - 1) as real);
  }

  lemma SpreadNonNegative(values: seq<real>, sqrt: real -> real)
    requires values != [] && IsSqrt(sqrt)
    ensures Spread(values, sqrt) >= 0.0
  {
    if |values| > 1 {
      VarianceNonNegative(values);
    }
  }

  // ----- The normalised score of one row -----

  datatype Settings = Settings(removeStd: bool, policy: SingletonPolicy, epsilon: real)

  // Scaling divides by the spread plus a guard; centring alone divides by nothing.
  predicate Guarded(removeStd: bool, epsilon: real) {
    removeStd || epsilon > 0.0
  }

  ghost predicate Sound(settings: Settings, sqrt: real -> real) {
    Guarded(settings.removeStd, settings.epsilon) && IsSqrt(sqrt)
  }

  function Centred(score: real, values: seq<real>, settings: Settings, sqrt: real -> real): real
    requires values != [] && (settings.removeStd || Spread(values, sqrt) + settings.epsilon != 0.0)
  {
    var centred := score - Baseline(values, settings.policy);
    if settings.removeStd then centred else centred / (Spread(values, sqrt) + settings.epsilon)
  }

  ghost function Normalized<G, K>(scores: seq<real>, groups: seq<G>, dedup: Option<seq<K>>, settings: Settings,
                                  sqrt: real -> real, k: nat): real
    requires |scores| == |groups| && Keyed(groups, dedup) && Sound(settings, sqrt) && k < |groups|
  {
    var values := GroupScores(scores, groups, dedup, groups[k], |groups|);
    SomeScores(scores, groups, dedup, groups[k], |groups|);
    assert groups[..|groups|] == groups;
    SpreadNonNegative(values, sqrt);
    Centred(scores[k], values, settings, sqrt)
  }

  // ----- The method -----

  ghost predicate SeenFirst<G, K>(seen: set<(G, K)>, groups: seq<G>, keys: seq<K>, n: nat)
    requires |keys| == |groups| && n <= |groups|
  {
    && (forall p :: p in seen ==> exists j :: 0 <= j < n && p == (groups[j], keys[j]))
    && forall j :: 0 <= j < n ==> (groups[j], keys[j]) in seen
  }

  ghost predicate Gathered<G, K>(table: map<G, seq<real>>, scores: seq<real>, groups: seq<G>, dedup: Option<seq<K>>,
                                 n: nat)
    requires |scores| == |groups| && Keyed(groups, dedup) && n <= |groups|
  {
    && (forall g :: g in table ==> table[g] != [] && table[g] == GroupScores(scores, groups, dedup, g, n))
    && forall j :: 0 <= j < n ==> groups[j] in table
  }

  lemma GroupScoresStep<G, K>(scores: seq<real>, groups: seq<G>, dedup: Option<seq<K>>, g: G, n: nat)
    requires |scores| == |groups| && Keyed(groups, dedup) && n < |groups|
    ensures GroupScores(scores, groups, dedup, g, n + 1) == GroupScores(scores, groups, dedup, g, n)
      + if groups[n] == g && Contributes(groups, dedup, n) then [scores[n]] else []
  {
  }

  lemma GatheredStep<G, K>(before: map<G, seq<real>>, table: map<G, seq<real>>, scores: seq<real>, groups: seq<G>,
                           dedup: Option<seq<K>>, n: nat)
    requires |scores| == |groups| && Keyed(groups, dedup) && n < |groups| && Gathered(before, scores, groups, dedup, n)
    requires var g, old_ := groups[n], if groups[n] in before then before[groups[n]] else [];
      table == if Contributes(groups, dedup, n) then before[g := old_ + [scores[n]]] else before
    ensures Gathered(table, scores, groups, dedup, n + 1)
  {
    hide GroupScores;
    var g := groups[n];
    if g !in before {
      SomeScores(scores, groups, dedup, g, n);
      assert GroupScores(scores, groups, dedup, g, n) == [];
    }
    forall h | h in table
      ensures table[h] != [] && table[h] == GroupScores(scores, groups, dedup, h, n + 1)
    {
      GroupScoresStep(scores, groups, dedup, h, n);
    }
    if !Contributes(groups, dedup, n) {
      assert g in before;
    }
  }

  lemma GatheredNone<G, K>(scores: seq<real>, groups: seq<G>, dedup: Option<seq<K>>)
    requires |scores| == |groups| && Keyed(groups, dedup)
    ensures Gathered(map[], scores, groups, dedup, 0)
  {
  }

  // One pass over the rows, skipping the duplicates.
  method CollectScores<G(==), K(==)>(scores: seq<real>, groups: seq<G>, dedup: Option<seq<K>>)
    returns (table: map<G, seq<real>>)
    requires |scores| == |groups| && Keyed(groups, dedup)
    ensures Gathered(table, scores, groups, dedup, |groups|)
  {
    hide GroupScores, Gathered;
    table := map[];
    var seen: set<(G, K)> := {};
    GatheredNone(scores, groups, dedup);
    for row := 0 to |scores|
      invariant dedup.Some? ==> SeenFirst(seen, groups, dedup.value, row)
      invariant Gathered(table, scores, groups, dedup, row)
    {
      var group := groups[row];
      ghost var before := table;
      if dedup.Some? {
        var key := (group, dedup.value[row]);
        if key in seen {
          GatheredStep(before, table, scores, groups, dedup, row);
          continue;
        }
        seen := seen + {key};
      }
      table := table[group := (if group in table then table[group] else []) + [scores[row]]];
      GatheredStep(before, table, scores, groups, dedup, row);
    }
  }

  method GroupNormalize<G(==), K(==)>(scores: seq<real>, groups: seq<G>, dedup: Option<seq<K>>, settings: Settings,
                                      sqrt: real -> real) returns (r: seq<real>)
    requires |scores| == |groups| && Keyed(groups, dedup) && Sound(settings, sqrt)
    ensures |r| == |scores|
    ensures forall k :: 0 <= k < |scores| ==> r[k] == Normalized(scores, groups, dedup, settings, sqrt, k)
  {
    hide GroupScores, Centred;
    var table := CollectScores(scores, groups, dedup);
    r := [];
    for k := 0 to |scores|
      invariant |r| == k
      invariant forall j :: 0 <= j < k ==> r[j] == Normalized(scores, groups, dedup, settings, sqrt, j)
    {
      SpreadNonNegative(table[groups[k]], sqrt);
      r := r + [Centred(scores[k], table[groups[k]], settings, sqrt)];
    }
  }
}
