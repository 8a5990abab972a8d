/** The GiGPO baseline, and how SELAUR's advantages relate to it. */
module Gigpo {
  import opened Wrappers
  import opened Reals
  import opened Selections
  import opened Smoothing
  import opened Normalization
  import opened GroupLaws
  import opened StepGroups
  import opened Estimator
  import opened Advantage

  const DIAGNOSTIC_SETTINGS := SelaurSettings(EstimatorSettings(0.95, 0.85, Linear), 0.0, 10.0)

  function GigpoOptions(stepAdvantageW: real, mode: string, epsilon: real): Options {
    Options(stepAdvantageW, mode, epsilon, false, false)
  }

  // SELAUR with the shaping switched off; what it computes never depends on the gate.
  method ComputeGigpoOutcomeAdvantage<G(==), K(==)>(b: Batch<G, K>, raw: seq<real>, stepAdvantageW: real, mode: string,
                                                    epsilon: real, order: seq<K>, groupOrder: seq<G>, unused: nat,
                                                    exp: real -> real, sqrt: real -> real)
    returns (r: Result<seq<seq<real>>, AdvantageError>, ghost run: Run)
    requires Rectangular(b) && |raw| == |b.traj| && GuardedMode(mode, epsilon) && IsSqrt(sqrt)
    requires Lists(order, b.traj) && Lists(groupOrder, b.index)
    ensures r == Err(UnknownMode) <==> mode != "mean_norm" && mode != "mean_std_norm"
    ensures mode == "mean_norm" || mode == "mean_std_norm" ==>
      (r == Err(BadAnchor(UnhashableAnchor)) <==> exists k :: 0 <= k < |b.anchors| && Hashes(b.anchors)[k].None?)
    ensures r.Err? ==> r.error == UnknownMode || r.error == BadAnchor(UnhashableAnchor)
    ensures r.Ok? ==> Fits(run, b) && StepPartition(run.ids, b.anchors, b.index)
    ensures r.Ok? ==> Derived(r.value, run, b, DIAGNOSTIC_SETTINGS, GigpoOptions(stepAdvantageW, mode, epsilon), false,
                              mode == "mean_norm", sqrt)
  {
    hide Derived, Shaped, StepPartition, Present, Lists, IsSqrt, Hashes;
    r, run := ComputeSelaurOutcomeAdvantage(b, raw, DIAGNOSTIC_SETTINGS, GigpoOptions(stepAdvantageW, mode, epsilon),
                                            order, groupOrder, unused, exp, sqrt);
  }

  // ----- The terms of one row -----

  lemma RowOfOwn<K>(uids: seq<K>, vals: seq<real>, own: seq<real>, k: nat) returns (t: nat)
    requires |vals| == |uids| && k < |uids| && Own(uids, vals, uids[k]) == own
    ensures t < |own| == |Where(uids, uids[k])| && vals[k] == own[t] && Where(uids, uids[k])[t] == k
  {
    WhereRank(uids, k);
    t := CountTrue(Matches(uids, uids[k])[..k]);
  }

  // The transform has nothing to shape: under the additive ones every trajectory succeeded, under
  // the exponential one every trajectory failed.
  ghost predicate NoneOwned<G, K>(b: Batch<G, K>, settings: EstimatorSettings)
    requires Rectangular(b)
  {
    forall u :: u in b.traj && Where(b.traj, u) != [] ==>
      (b.success[Where(b.traj, u)[0]] <==> settings.transform != Exponential)
  }

  lemma NeutralRows<G, K>(run: Run, b: Batch<G, K>, exp: real -> real, raw: seq<real>, settings: SelaurSettings,
                          order: seq<K>, k: nat)
    requires Fits(run, b) && |raw| == |b.traj| && settings.estimator.lambdaUq >= 0.0 && Lists(order, b.traj)
    requires SoundRun(run, b, exp, raw, settings, order) && NoneOwned(b, settings.estimator) && k < |b.traj|
    ensures run.step[k] == run.episode[k] == NeutralTerm(settings.estimator.transform)
  {
    hide StepPartition, NeutralTerm;
    var u := b.traj[k];
    assert u in order;
    var i :| 0 <= i < |order| && order[i] == u;
    assert Shaped(run.step, run.episode, exp, raw, b.success, b.traj, settings.estimator, order[i]);
    var s := RowOfOwn(b.traj, run.step, StepTerms(exp, raw, b.success, b.traj, settings.estimator, u), k);
    var e := RowOfOwn(b.traj, run.episode, EpisodeTerms(exp, raw, b.success, b.traj, settings.estimator, u), k);
  }

  // ----- Parity -----

  // Neutral terms, or a closed gate, leave the scores alone.
  lemma SameScores(scores: seq<real>, term: seq<real>, settings: SelaurSettings, shape: bool)
    requires |term| == |scores|
    requires shape ==> forall k :: 0 <= k < |term| ==> term[k] == NeutralTerm(settings.estimator.transform)
    ensures Score(scores, term, settings, shape) == scores
  {
    forall k | 0 <= k < |scores|
      ensures Score(scores, term, settings, shape)[k] == scores[k]
    {
      NeutralShapes(scores[k], settings.estimator.transform, settings.shapingScale);
    }
  }

  lemma PartitionsAgree<G, K>(run: Run, run': Run, b: Batch<G, K>)
    requires Fits(run, b) && Fits(run', b)
    requires StepPartition(run.ids, b.anchors, b.index) && StepPartition(run'.ids, b.anchors, b.index)
    ensures SamePartition(run.ids, run'.ids)
  {
  }

  lemma SameParts<G, K>(run: Run, run': Run, b: Batch<G, K>, settings: SelaurSettings, settings': SelaurSettings,
                        options: Options, options': Options, shape: bool, removeStd: bool, sqrt: real -> real, k: nat)
    requires Fits(run, b) && Fits(run', b) && Guarded(removeStd, options.epsilon) && IsSqrt(sqrt) && k < |b.traj|
    requires options' == options.(applyShaping := false) && SamePartition(run.ids, run'.ids)
    requires Score(EpisodeScores(b.tokenRewards), run.episode, settings, shape) == EpisodeScores(b.tokenRewards)
    requires Score(b.stepRewards, run.step, settings, shape) == b.stepRewards
    ensures EpisodePart(run, b, settings, options, shape, removeStd, sqrt, k)
         == EpisodePart(run', b, settings', options', false, removeStd, sqrt, k)
    ensures StepPart(run, b, settings, options, shape, removeStd, sqrt, k)
         == StepPart(run', b, settings', options', false, removeStd, sqrt, k)
  {
    hide Normalized, SamePartition, IsSqrt;
    RenamedGroups<nat, nat, K>(b.stepRewards, run.ids, run'.ids, None, StepLevel(removeStd, options.epsilon), sqrt, k);
  }

  lemma UntouchedScores<G, K>(run: Run, raw: seq<real>, settings: SelaurSettings, b: Batch<G, K>, order: seq<K>,
                              shape: bool, exp: real -> real)
    requires Fits(run, b) && |raw| == |b.traj| && settings.estimator.lambdaUq >= 0.0 && Lists(order, b.traj)
    requires SoundRun(run, b, exp, raw, settings, order) && (shape ==> NoneOwned(b, settings.estimator))
    ensures Score(EpisodeScores(b.tokenRewards), run.episode, settings, shape) == EpisodeScores(b.tokenRewards)
    ensures Score(b.stepRewards, run.step, settings, shape) == b.stepRewards
  {
    hide SoundRun, NoneOwned, Lists, Score, NeutralTerm;
    if shape {
      forall k | 0 <= k < |b.traj|
        ensures run.step[k] == run.episode[k] == NeutralTerm(settings.estimator.transform)
      {
        NeutralRows(run, b, exp, raw, settings, order, k);
      }
    }
    SameScores(EpisodeScores(b.tokenRewards), run.episode, settings, shape);
    SameScores(b.stepRewards, run.step, settings, shape);
  }

  // With the gate shut, or no trajectory with the outcome the transform owns, SELAUR's advantages
  // are the baseline's on every token, in either mode.
  lemma Parity<G, K>(adv: seq<seq<real>>, run: Run, raw: seq<real>, settings: SelaurSettings, options: Options,
                     base: seq<seq<real>>, baseRun: Run, baseSettings: SelaurSettings, b: Batch<G, K>, order: seq<K>,
                     removeStd: bool, exp: real -> real, sqrt: real -> real)
    requires Fits(run, b) && Fits(baseRun, b) && |raw| == |b.traj| && settings.estimator.lambdaUq >= 0.0
    requires Guarded(removeStd, options.epsilon) && IsSqrt(sqrt) && Lists(order, b.traj) && Present(order, b.traj)
             && order != []
    requires SoundRun(run, b, exp, raw, settings, order) && StepPartition(baseRun.ids, b.anchors, b.index)
    requires Derived(adv, run, b, settings, options, GateOpen(b, settings, options, order), removeStd, sqrt)
    requires Derived(base, baseRun, b, baseSettings, options.(applyShaping := false), false, removeStd, sqrt)
    requires !GateOpen(b, settings, options, order) || NoneOwned(b, settings.estimator)
    ensures adv == base
  {
    hide EpisodePart, StepPart, SamePartition, StepPartition, Present, Lists, GateOpen, Score, NoneOwned,
      IsSqrt, Shaped;
    var shape := GateOpen(b, settings, options, order);
    UntouchedScores(run, raw, settings, b, order, shape, exp);
    PartitionsAgree(run, baseRun, b);
    hide SoundRun;
    forall k | 0 <= k < |b.traj|
      ensures adv[k] == base[k]
    {
      SameParts(run, baseRun, b, settings, baseSettings, options, options.(applyShaping := false), shape, removeStd,
                sqrt, k);
    }
  }

  lemma SoundPartition<G, K>(run: Run, b: Batch<G, K>, exp: real -> real, raw: seq<real>, settings: SelaurSettings,
                             order: seq<K>)
    requires Fits(run, b) && |raw| == |b.traj| && settings.estimator.lambdaUq >= 0.0
    requires SoundRun(run, b, exp, raw, settings, order)
    ensures StepPartition(run.ids, b.anchors, b.index)
  {
  }

  // What the two estimators return on the same batch, the episode baseline being taken over rows:
  // the same error, or, in the cases above, the same advantages.
  method ParityEndToEnd<G(==), K(==)>(b: Batch<G, K>, raw: seq<real>, settings: SelaurSettings, options: Options,
                                      order: seq<K>, groupOrder: seq<G>, unused: nat, unused': nat,
                                      exp: real -> real, sqrt: real -> real)
    returns (selaur: Result<seq<seq<real>>, AdvantageError>, gigpo: Result<seq<seq<real>>, AdvantageError>)
    requires Rectangular(b) && |raw| == |b.traj| && IsDecay(settings.estimator.lambdaUq) && !options.overTrajectories
    requires GuardedMode(options.mode, options.epsilon) && IsSqrt(sqrt)
    requires Lists(order, b.traj) && Lists(groupOrder, b.index)
    ensures order != [] && Present(order, b.traj)
    ensures selaur.Err? || gigpo.Err? ==> selaur == gigpo
    ensures !GateOpen(b, settings, options, order) || NoneOwned(b, settings.estimator) ==> selaur == gigpo
  {
    hide GateOpen, NoneOwned, SoundRun, Derived, Present, Lists, IsSqrt, Hashes, StepPartition;
    ghost var run, baseRun;
    selaur, run := ComputeSelaurOutcomeAdvantage(b, raw, settings, options, order, groupOrder, unused, exp, sqrt);
    gigpo, baseRun := ComputeGigpoOutcomeAdvantage(b, raw, options.stepAdvantageW, options.mode, options.epsilon, order,
                                                   groupOrder, unused', exp, sqrt);
    if selaur.Ok? && gigpo.Ok? && (!GateOpen(b, settings, options, order) || NoneOwned(b, settings.estimator)) {
      assert GigpoOptions(options.stepAdvantageW, options.mode, options.epsilon) == options.(applyShaping := false);
      SoundPartition(run, b, exp, raw, settings, order);
      Parity(selaur.value, run, raw, settings, options, gigpo.value, baseRun, DIAGNOSTIC_SETTINGS, b, order,
             options.mode == "mean_norm", exp, sqrt);
    }
  }

  // ----- Mirror -----

  // The same settings with the other additive transform.
  ghost predicate Mirrored(linear: SelaurSettings, neg: SelaurSettings) {
    && linear.estimator.transform == Linear
    && neg == linear.(estimator := linear.estimator.(transform := Neg))
  }

  lemma SamePlace<K>(uids: seq<K>, u: K, t: nat, t': nat)
    requires t < |Where(uids, u)| && t' < |Where(uids, u)| && Where(uids, u)[t] == Where(uids, u)[t']
    ensures t == t'
  {
  }

  ghost predicate Opposite(x: seq<real>, y: seq<real>) {
    |x| == |y| && forall t :: 0 <= t < |x| ==> y[t] == -x[t]
  }

  lemma OppositeTerms<K>(exp: real -> real, raw: seq<real>, success: seq<bool>, uids: seq<K>,
                         linear: EstimatorSettings, neg: EstimatorSettings, u: K)
    requires |raw| == |success| == |uids| && linear.lambdaUq >= 0.0 && Where(uids, u) != []
    requires linear.transform == Linear && neg == linear.(transform := Neg)
    ensures Opposite(StepTerms(exp, raw, success, uids, linear, u), StepTerms(exp, raw, success, uids, neg, u))
    ensures Opposite(EpisodeTerms(exp, raw, success, uids, linear, u), EpisodeTerms(exp, raw, success, uids, neg, u))
  {
    hide Own, Mean, Smoothed, Succeeded;
  }

  lemma OppositeRows<G, K>(run: Run, run': Run, b: Batch<G, K>, exp: real -> real, raw: seq<real>,
                           linear: SelaurSettings, neg: SelaurSettings, order: seq<K>, k: nat)
    requires Fits(run, b) && Fits(run', b) && |raw| == |b.traj| && linear.estimator.lambdaUq >= 0.0
    requires Mirrored(linear, neg) && Lists(order, b.traj) && k < |b.traj|
    requires SoundRun(run, b, exp, raw, linear, order) && SoundRun(run', b, exp, raw, neg, order)
    ensures run'.step[k] == -run.step[k] && run'.episode[k] == -run.episode[k]
  {
    hide StepPartition, Own, Mean, Smoothed, Succeeded;
    var u := b.traj[k];
    assert u in order;
    var i :| 0 <= i < |order| && order[i] == u;
    assert Shaped(run.step, run.episode, exp, raw, b.success, b.traj, linear.estimator, order[i]);
    assert Shaped(run'.step, run'.episode, exp, raw, b.success, b.traj, neg.estimator, order[i]);
    OppositeTerms(exp, raw, b.success, b.traj, linear.estimator, neg.estimator, u);
    var s := RowOfOwn(b.traj, run.step, StepTerms(exp, raw, b.success, b.traj, linear.estimator, u), k);
    var s' := RowOfOwn(b.traj, run'.step, StepTerms(exp, raw, b.success, b.traj, neg.estimator, u), k);
    var e := RowOfOwn(b.traj, run.episode, EpisodeTerms(exp, raw, b.success, b.traj, linear.estimator, u), k);
    var e' := RowOfOwn(b.traj, run'.episode, EpisodeTerms(exp, raw, b.success, b.traj, neg.estimator, u), k);
    SamePlace(b.traj, u, s, s');
    SamePlace(b.traj, u, e, e');
  }

  function Doubled(s: seq<real>): (r: seq<real>)
    ensures |r| == |s| && forall k :: 0 <= k < |s| ==> r[k] == s[k] + s[k]
  {
    seq(|s|, k requires 0 <= k < |s| => s[k] + s[k])
  }

  lemma OppositeProduct(scale: real, x: real)
    ensures scale * (-x) == -(scale * x)
  {
  }

  lemma OppositeScores(scores: seq<real>, term: seq<real>, term': seq<real>, linear: SelaurSettings,
                       neg: SelaurSettings, shape: bool, k: nat)
    requires |term| == |term'| == |scores| && Mirrored(linear, neg) && k < |scores| && term'[k] == -term[k]
    ensures Score(scores, term, linear, shape)[k] + Score(scores, term', neg, shape)[k] == Doubled(scores)[k]
  {
    OppositeProduct(linear.shapingScale, term[k]);
  }

  // Scores that add up to twice the plain ones normalise to twice the plain result.
  lemma NormalizedMirror<G, K>(x: seq<real>, y: seq<real>, scores: seq<real>, groups: seq<G>, dedup: Option<seq<K>>,
                               settings: Settings, sqrt: real -> real, k: nat)
    requires |x| == |y| == |scores| == |groups| && Keyed(groups, dedup) && Sound(settings, sqrt) && k < |groups|
    requires settings.removeStd && forall j :: 0 <= j < |groups| ==> x[j] + y[j] == Doubled(scores)[j]
    ensures Normalized(x, groups, dedup, settings, sqrt, k) + Normalized(y, groups, dedup, settings, sqrt, k)
         == 2.0 * Normalized(scores, groups, dedup, settings, sqrt, k)
  {
    hide Normalized;
    NormalizedAdds(x, y, Doubled(scores), groups, dedup, settings, sqrt, k);
    NormalizedAdds(scores, scores, Doubled(scores), groups, dedup, settings, sqrt, k);
  }

  lemma MirroredParts<G, K>(run: Run, run': Run, baseRun: Run, b: Batch<G, K>, linear: SelaurSettings,
                            neg: SelaurSettings, baseSettings: SelaurSettings, options: Options, options': Options,
                            shape: bool, sqrt: real -> real, k: nat)
    requires Fits(run, b) && Fits(run', b) && Fits(baseRun, b) && IsSqrt(sqrt) && k < |b.traj|
    requires options' == options.(applyShaping := false) && Mirrored(linear, neg)
    requires SamePartition(run.ids, baseRun.ids) && SamePartition(run'.ids, baseRun.ids)
    requires forall j :: 0 <= j < |b.traj| ==> run'.step[j] == -run.step[j] && run'.episode[j] == -run.episode[j]
    ensures EpisodePart(run, b, linear, options, shape, true, sqrt, k)
            + EpisodePart(run', b, neg, options, shape, true, sqrt, k)
         == 2.0 * EpisodePart(baseRun, b, baseSettings, options', false, true, sqrt, k)
    ensures StepPart(run, b, linear, options, shape, true, sqrt, k)
            + StepPart(run', b, neg, options, shape, true, sqrt, k)
         == 2.0 * StepPart(baseRun, b, baseSettings, options', false, true, sqrt, k)
  {
    hide Normalized, SamePartition, IsSqrt;
    var plain, steps := EpisodeScores(b.tokenRewards), b.stepRewards;
    var x, y := Score(plain, run.episode, linear, shape), Score(plain, run'.episode, neg, shape);
    var p, q := Score(steps, run.step, linear, shape), Score(steps, run'.step, neg, shape);
    forall j | 0 <= j < |b.traj|
      ensures x[j] + y[j] == Doubled(plain)[j] && p[j] + q[j] == Doubled(steps)[j]
    {
      OppositeScores(plain, run.episode, run'.episode, linear, neg, shape, j);
      OppositeScores(steps, run.step, run'.step, linear, neg, shape, j);
    }
    hide Score;
    NormalizedMirror(x, y, plain, b.index, DedupKeys(b.traj, options.overTrajectories),
                     EpisodeLevel(true, options.epsilon), sqrt, k);
    var level := StepLevel(true, options.epsilon);
    RenamedGroups<nat, nat, K>(p, run.ids, baseRun.ids, None, level, sqrt, k);
    RenamedGroups<nat, nat, K>(q, run'.ids, baseRun.ids, None, level, sqrt, k);
    NormalizedMirror<nat, K>(p, q, steps, baseRun.ids, None, level, sqrt, k);
  }

  lemma MirroredToken(e: real, e': real, e0: real, s: real, s': real, s0: real, weight: real, mask: real)
    requires e + e' == 2.0 * e0 && s + s' == 2.0 * s0
    ensures mask * (e + weight * s) + mask * (e' + weight * s') == 2.0 * (mask * (e0 + weight * s0))
  {
    assert weight * s + weight * s' == weight * (s + s') == 2.0 * (weight * s0);
    assert mask * (e + weight * s) + mask * (e' + weight * s') == mask * ((e + e') + (weight * s + weight * s'));
    assert mask * (2.0 * (e0 + weight * s0)) == 2.0 * (mask * (e0 + weight * s0));
  }

  // In mean mode, the advantages under `linear` and under `neg` add up to twice the baseline's, on
  // every token.
  lemma Mirror<G, K>(adv: seq<seq<real>>, run: Run, linear: SelaurSettings, adv': seq<seq<real>>, run': Run,
                     neg: SelaurSettings, base: seq<seq<real>>, baseRun: Run, baseSettings: SelaurSettings,
                     options: Options, raw: seq<real>, b: Batch<G, K>, order: seq<K>, exp: real -> real,
                     sqrt: real -> real, k: nat, j: nat)
    requires Fits(run, b) && Fits(run', b) && Fits(baseRun, b) && |raw| == |b.traj| && linear.estimator.lambdaUq >= 0.0
    requires IsSqrt(sqrt) && Lists(order, b.traj) && Present(order, b.traj) && order != []
    requires Mirrored(linear, neg) && options.mode == "mean_norm"
    requires SoundRun(run, b, exp, raw, linear, order) && SoundRun(run', b, exp, raw, neg, order)
    requires StepPartition(baseRun.ids, b.anchors, b.index)
    requires Derived(adv, run, b, linear, options, GateOpen(b, linear, options, order), true, sqrt)
    requires Derived(adv', run', b, neg, options, GateOpen(b, neg, options, order), true, sqrt)
    requires Derived(base, baseRun, b, baseSettings, options.(applyShaping := false), false, true, sqrt)
    requires k < |b.traj| && j < |b.mask[k]|
    ensures |adv| == |adv'| == |base| == |b.traj| && |adv[k]| == |adv'[k]| == |base[k]| == |b.mask[k]|
    ensures adv[k][j] + adv'[k][j] == 2.0 * base[k][j]
  {
    hide EpisodePart, StepPart, SamePartition, StepPartition, Present, Lists, IsSqrt, Shaped, SuccessRate;
    var shape := GateOpen(b, linear, options, order);
    assert GateOpen(b, neg, options, order) == shape;
    forall i | 0 <= i < |b.traj|
      ensures run'.step[i] == -run.step[i] && run'.episode[i] == -run.episode[i]
    {
      OppositeRows(run, run', b, exp, raw, linear, neg, order, i);
    }
    PartitionsAgree(run, baseRun, b);
    PartitionsAgree(run', baseRun, b);
    hide SoundRun, GateOpen;
    var plain := options.(applyShaping := false);
    MirroredParts(run, run', baseRun, b, linear, neg, baseSettings, options, plain, shape, sqrt, k);
    MirroredToken(EpisodePart(run, b, linear, options, shape, true, sqrt, k),
                  EpisodePart(run', b, neg, options, shape, true, sqrt, k),
                  EpisodePart(baseRun, b, baseSettings, plain, false, true, sqrt, k),
                  StepPart(run, b, linear, options, shape, true, sqrt, k),
                  StepPart(run', b, neg, options, shape, true, sqrt, k),
                  StepPart(baseRun, b, baseSettings, plain, false, true, sqrt, k),
                  options.stepAdvantageW, b.mask[k][j]);
  }

  // The token is there in all three, and the first two add up to twice the third.
  ghost predicate SumsToTwice(x: seq<seq<real>>, y: seq<seq<real>>, z: seq<seq<real>>, k: int, j: int) {
    && 0 <= k < |x| && k < |y| && k < |z|
    && 0 <= j < |x[k]| && j < |y[k]| && j < |z[k]|
    && x[k][j] + y[k][j] == 2.0 * z[k][j]
  }

  lemma TwiceThere(x: seq<seq<real>>, y: seq<seq<real>>, z: seq<seq<real>>, k: nat, j: nat)
    requires k < |x| == |y| == |z| && j < |x[k]| == |y[k]| == |z[k]| && x[k][j] + y[k][j] == 2.0 * z[k][j]
    ensures SumsToTwice(x, y, z, k, j)
  {
  }

  lemma RowCounts<G, K>(adv: seq<seq<real>>, run: Run, b: Batch<G, K>, settings: SelaurSettings, options: Options,
                        shape: bool, removeStd: bool, sqrt: real -> real)
    requires Fits(run, b) && Guarded(removeStd, options.epsilon) && IsSqrt(sqrt)
    requires Derived(adv, run, b, settings, options, shape, removeStd, sqrt)
    ensures |adv| == |b.traj|
  {
  }

  // The three calls on one batch, the episode baseline being taken over rows.
  method MirrorEndToEnd<G(==), K(==)>(b: Batch<G, K>, raw: seq<real>, linear: SelaurSettings, neg: SelaurSettings,
                                      options: Options, order: seq<K>, groupOrder: seq<G>, unused: nat,
                                      exp: real -> real, sqrt: real -> real)
    returns (up: Result<seq<seq<real>>, AdvantageError>, down: Result<seq<seq<real>>, AdvantageError>,
             gigpo: Result<seq<seq<real>>, AdvantageError>)
    requires Rectangular(b) && |raw| == |b.traj| && IsDecay(linear.estimator.lambdaUq) && !options.overTrajectories
    requires options.mode == "mean_norm" && IsSqrt(sqrt) && Mirrored(linear, neg)
    requires Lists(order, b.traj) && Lists(groupOrder, b.index)
    ensures up.Err? || down.Err? || gigpo.Err? ==> up == down == gigpo
    ensures up.Ok? ==> |up.value| == |down.value| == |gigpo.value| == |b.traj|
    ensures up.Ok? ==> forall k, j :: 0 <= k < |b.traj| && 0 <= j < |b.mask[k]| ==>
        SumsToTwice(up.value, down.value, gigpo.value, k, j)
  {
    hide SoundRun, Derived, Present, Lists, IsSqrt, Hashes, StepPartition, SumsToTwice;
    ghost var run, run', baseRun;
    up, run := ComputeSelaurOutcomeAdvantage(b, raw, linear, options, order, groupOrder, unused, exp, sqrt);
    down, run' := ComputeSelaurOutcomeAdvantage(b, raw, neg, options, order, groupOrder, unused, exp, sqrt);
    gigpo, baseRun := ComputeGigpoOutcomeAdvantage(b, raw, options.stepAdvantageW, options.mode, options.epsilon, order,
                                                   groupOrder, unused, exp, sqrt);
    if up.Ok? && down.Ok? && gigpo.Ok? {
      assert GigpoOptions(options.stepAdvantageW, options.mode, options.epsilon) == options.(applyShaping := false);
      forall k, j | 0 <= k < |b.traj| && 0 <= j < |b.mask[k]|
        ensures |up.value| == |down.value| == |gigpo.value| == |b.traj|
                && SumsToTwice(up.value, down.value, gigpo.value, k, j)
      {
        Mirror(up.value, run, linear, down.value, run', neg, gigpo.value, baseRun, DIAGNOSTIC_SETTINGS, options, raw, b,
               order, exp, sqrt, k, j);
        TwiceThere(up.value, down.value, gigpo.value, k, j);
      }
      RowCounts(up.value, run, b, linear, options, GateOpen(b, linear, options, order), true, sqrt);
      RowCounts(down.value, run', b, neg, options, GateOpen(b, neg, options, order), true, sqrt);
      RowCounts(gigpo.value, baseRun, b, DIAGNOSTIC_SETTINGS, options.(applyShaping := false), false, true, sqrt);
    }
  }
}
