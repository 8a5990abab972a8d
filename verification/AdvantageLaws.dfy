/** What the advantage of a token is made of, in terms of the batch alone. */
module AdvantageLaws {
  import opened Wrappers
  import opened Reals
  import opened Selections
  import opened Smoothing
  import opened Normalization
  import opened GroupLaws
  import opened Grouping
  import opened StepGroups
  import opened Estimator
  import opened Advantage
  import opened Gigpo

  // ----- Levels -----

  // A token that the mask leaves out gets no advantage.
  lemma MaskedToken<G, K>(adv: seq<seq<real>>, run: Run, b: Batch<G, K>, settings: SelaurSettings, options: Options,
                          shape: bool, removeStd: bool, sqrt: real -> real, k: nat, j: nat)
    requires Fits(run, b) && Guarded(removeStd, options.epsilon) && IsSqrt(sqrt)
    requires Derived(adv, run, b, settings, options, shape, removeStd, sqrt)
    requires k < |b.traj| && j < |b.mask[k]| && b.mask[k][j] == 0.0
    ensures |adv| == |b.traj| && |adv[k]| == |b.mask[k]| && adv[k][j] == 0.0
  {
    assert RowDerived(adv[k], b.mask[k], EpisodePart(run, b, settings, options, shape, removeStd, sqrt, k),
                      StepPart(run, b, settings, options, shape, removeStd, sqrt, k), options.stepAdvantageW);
  }

  // Where all rows of a task have one episode score, and at least two of them contribute, only the
  // weighted step level is left.
  lemma StepLevelAlone<G, K>(adv: seq<seq<real>>, run: Run, b: Batch<G, K>, settings: SelaurSettings,
                             options: Options, shape: bool, removeStd: bool, sqrt: real -> real, k: nat, j: nat)
    requires Fits(run, b) && Guarded(removeStd, options.epsilon) && IsSqrt(sqrt)
    requires Derived(adv, run, b, settings, options, shape, removeStd, sqrt)
    requires k < |b.traj| && j < |b.mask[k]|
    requires var scores := Score(EpisodeScores(b.tokenRewards), run.episode, settings, shape);
             var dedup := if options.overTrajectories then Some(b.traj) else None;
             && |GroupScores(scores, b.index, dedup, b.index[k], |b.index|)| >= 2
             && forall i :: 0 <= i < |b.index| && b.index[i] == b.index[k] ==> scores[i] == scores[k]
    ensures |adv| == |b.traj| && |adv[k]| == |b.mask[k]|
    ensures adv[k][j]
         == b.mask[k][j] * (options.stepAdvantageW * StepPart(run, b, settings, options, shape, removeStd, sqrt, k))
  {
    hide Normalized, GroupScores, Score;
    EqualScores(Score(EpisodeScores(b.tokenRewards), run.episode, settings, shape), b.index,
                DedupKeys(b.traj, options.overTrajectories), EpisodeLevel(removeStd, options.epsilon), sqrt, k);
    assert RowDerived(adv[k], b.mask[k], EpisodePart(run, b, settings, options, shape, removeStd, sqrt, k),
                      StepPart(run, b, settings, options, shape, removeStd, sqrt, k), options.stepAdvantageW);
  }

  // A step whose task has no other step with its canonical anchor has nothing to be compared with,
  // and only the episode level is left.
  lemma EpisodeLevelAlone<G, K>(adv: seq<seq<real>>, run: Run, b: Batch<G, K>, settings: SelaurSettings,
                                options: Options, shape: bool, removeStd: bool, sqrt: real -> real, k: nat, j: nat)
    requires Fits(run, b) && Guarded(removeStd, options.epsilon) && IsSqrt(sqrt)
    requires Derived(adv, run, b, settings, options, shape, removeStd, sqrt)
    requires StepPartition(run.ids, b.anchors, b.index)
    requires k < |b.traj| && j < |b.mask[k]|
    requires forall i :: 0 <= i < |b.traj| && i != k ==>
               b.index[i] != b.index[k] || ToHashable(b.anchors[i]) != ToHashable(b.anchors[k])
    ensures |adv| == |b.traj| && |adv[k]| == |b.mask[k]|
    ensures adv[k][j] == b.mask[k][j] * EpisodePart(run, b, settings, options, shape, removeStd, sqrt, k)
  {
    hide Normalized, Score, ToHashable;
    var scores := Score(b.stepRewards, run.step, settings, shape);
    LoneScores<nat, K>(scores, run.ids, None, k, |run.ids|);
    LoneRow<nat, K>(scores, run.ids, None, StepLevel(removeStd, options.epsilon), sqrt, k);
    assert RowDerived(adv[k], b.mask[k], EpisodePart(run, b, settings, options, shape, removeStd, sqrt, k),
                      StepPart(run, b, settings, options, shape, removeStd, sqrt, k), options.stepAdvantageW);
  }

  lemma SameSizes<G, K>(run: Run, b: Batch<G, K>)
    requires Fits(run, b)
    ensures |b.tokenRewards| == |b.stepRewards| == |b.index| == |b.traj|
  {
  }

  // The only row of its task keeps its episode score, divided by one plus the guard when scaling.
  lemma LoneTask<G, K>(run: Run, b: Batch<G, K>, settings: SelaurSettings, options: Options, shape: bool,
                       removeStd: bool, sqrt: real -> real, k: nat)
    requires Fits(run, b) && Guarded(removeStd, options.epsilon) && IsSqrt(sqrt) && k < |b.traj|
    requires forall i :: 0 <= i < |b.traj| && i != k ==> b.index[i] != b.index[k]
    ensures var score := Score(EpisodeScores(b.tokenRewards), run.episode, settings, shape)[k];
      EpisodePart(run, b, settings, options, shape, removeStd, sqrt, k)
      == if removeStd then score else score / (1.0 + options.epsilon)
  {
    hide Normalized, Score, GroupScores, EpisodeScores, IsSqrt, Rectangular;
    SameSizes(run, b);
    var scores := Score(EpisodeScores(b.tokenRewards), run.episode, settings, shape);
    var dedup := DedupKeys(b.traj, options.overTrajectories);
    LoneScores(scores, b.index, dedup, k, |b.index|);
    LoneRow(scores, b.index, dedup, EpisodeLevel(removeStd, options.epsilon), sqrt, k);
  }

  // ----- Scores -----

  // How the shaping changes a score: by `change`, or by the factor `factor`.
  ghost predicate ShapedBy(shaped: real, score: real, transform: Transform, failed: bool, scale: real, change: real,
                           factor: real) {
    match transform
    case Linear => shaped == score + if failed then scale * change else 0.0
    case Neg => shaped == score - if failed then scale * change else 0.0
    case Exponential => shaped == score * if failed then 1.0 else factor
  }

  // The two terms of a row, by the transform and the outcome of its trajectory.
  ghost predicate TermsBy(step: real, episode: real, exp: real -> real, transform: Transform, failed: bool,
                          weighted: real, mean: real) {
    match transform
    case Linear => step == (if failed then weighted else 0.0) && episode == if failed then mean else 0.0
    case Neg => step == (if failed then -weighted else 0.0) && episode == if failed then -mean else 0.0
    case Exponential =>
      step == (if failed then 1.0 else exp(-weighted)) && episode == if failed then 1.0 else exp(-mean)
  }

  lemma WeightedIsTimes(value: real, stepWeight: real)
    ensures Weighted(value, stepWeight) == Times(value, stepWeight)
  {
  }

  lemma TermValues<K>(exp: real -> real, raw: seq<real>, success: seq<bool>, uids: seq<K>,
                      settings: EstimatorSettings, u: K, t: nat)
    requires |raw| == |success| == |uids| && settings.lambdaUq >= 0.0 && t < |Where(uids, u)|
    ensures var own := Smoothed(Own(uids, raw, u), settings.lambdaUq);
      && |own| == |Where(uids, u)|
      && TermsBy(StepTerms(exp, raw, success, uids, settings, u)[t],
                 EpisodeTerms(exp, raw, success, uids, settings, u)[t], exp, settings.transform,
                 !success[Where(uids, u)[0]], Times(own[t], settings.stepWeight), Mean(own))
  {
    hide SmoothAt, Where, Mean, Times, Weighted;
    var own := Smoothed(Own(uids, raw, u), settings.lambdaUq);
    WeightedIsTimes(own[t], settings.stepWeight);
  }

  // Row k is the t-th of its trajectory: its terms come from the smoothed uncertainty there and
  // from the trajectory's mean, if the trajectory failed under the additive transforms and if it
  // succeeded under the exponential one.
  lemma TermsOfRow<G, K>(run: Run, b: Batch<G, K>, exp: real -> real, raw: seq<real>, settings: SelaurSettings,
                         order: seq<K>, k: nat) returns (t: nat)
    requires Fits(run, b) && |raw| == |b.traj| && settings.estimator.lambdaUq >= 0.0 && Lists(order, b.traj)
    requires SoundRun(run, b, exp, raw, settings, order) && k < |b.traj|
    ensures var u, rows := b.traj[k], Where(b.traj, b.traj[k]);
      && t < |rows| && rows[t] == k
      && var own := Smoothed(Own(b.traj, raw, u), settings.estimator.lambdaUq);
         && |own| == |rows|
         && TermsBy(run.step[k], run.episode[k], exp, settings.estimator.transform, !b.success[rows[0]],
                    Times(own[t], settings.estimator.stepWeight), Mean(own))
  {
    hide StepPartition, StepTerms, EpisodeTerms, TermsBy, Smoothed, Where, Mean, Times;
    var u := b.traj[k];
    assert u in order;
    var i :| 0 <= i < |order| && order[i] == u;
    assert Shaped(run.step, run.episode, exp, raw, b.success, b.traj, settings.estimator, order[i]);
    t := RowOfOwn(b.traj, run.step, StepTerms(exp, raw, b.success, b.traj, settings.estimator, u), k);
    var e := RowOfOwn(b.traj, run.episode, EpisodeTerms(exp, raw, b.success, b.traj, settings.estimator, u), k);
    SamePlace(b.traj, u, t, e);
    TermValues(exp, raw, b.success, b.traj, settings.estimator, u, t);
  }

  lemma ShapeByTerms(step: real, episode: real, exp: real -> real, transform: Transform, failed: bool,
                     weighted: real, mean: real, scale: real, stepScore: real, episodeScore: real)
    requires TermsBy(step, episode, exp, transform, failed, weighted, mean)
    ensures ShapedBy(ShapeOne(stepScore, step, transform, scale), stepScore, transform, failed, scale, weighted,
                     exp(-weighted))
    ensures ShapedBy(ShapeOne(episodeScore, episode, transform, scale), episodeScore, transform, failed, scale, mean,
                     exp(-mean))
  {
    assert scale * (-weighted) == -(scale * weighted) && scale * (-mean) == -(scale * mean);
  }

  // With the gate open, what the terms make of the scores; with the gate shut, nothing.
  lemma ShapedScores<G, K>(run: Run, b: Batch<G, K>, exp: real -> real, raw: seq<real>, settings: SelaurSettings,
                           order: seq<K>, k: nat) returns (t: nat)
    requires Fits(run, b) && |raw| == |b.traj| && settings.estimator.lambdaUq >= 0.0 && Lists(order, b.traj)
    requires SoundRun(run, b, exp, raw, settings, order) && k < |b.traj|
    ensures Score(b.stepRewards, run.step, settings, false) == b.stepRewards
    ensures Score(EpisodeScores(b.tokenRewards), run.episode, settings, false)[k] == RealSum(b.tokenRewards[k])
    ensures var u, rows := b.traj[k], Where(b.traj, b.traj[k]);
      && t < |rows| && rows[t] == k
      && var own := Smoothed(Own(b.traj, raw, u), settings.estimator.lambdaUq);
         && |own| == |rows|
         && var weighted, mean := Times(own[t], settings.estimator.stepWeight), Mean(own);
            var failed := !b.success[rows[0]];
            && ShapedBy(Score(b.stepRewards, run.step, settings, true)[k], b.stepRewards[k],
                        settings.estimator.transform, failed, settings.shapingScale, weighted, exp(-weighted))
            && ShapedBy(Score(EpisodeScores(b.tokenRewards), run.episode, settings, true)[k],
                        RealSum(b.tokenRewards[k]), settings.estimator.transform, failed, settings.shapingScale,
                        mean, exp(-mean))
  {
    hide SoundRun, Smoothed, Own, TermsBy, ShapedBy, ShapeOne, RealSum, Where, Mean, Times;
    t := TermsOfRow(run, b, exp, raw, settings, order, k);
    var own := Smoothed(Own(b.traj, raw, b.traj[k]), settings.estimator.lambdaUq);
    ShapeByTerms(run.step[k], run.episode[k], exp, settings.estimator.transform,
                 !b.success[Where(b.traj, b.traj[k])[0]],
                 Times(own[t], settings.estimator.stepWeight), Mean(own), settings.shapingScale,
                 b.stepRewards[k], RealSum(b.tokenRewards[k]));
  }
}
