/** The SELAUR advantage: two levels of group-normalised scores, shaped by uncertainty behind a gate. */
module Advantage {
  import opened Wrappers
  import opened Reals
  import opened Selections
  import opened Smoothing
  import opened Normalization
  import opened Grouping
  import opened StepGroups
  import opened Estimator

  datatype AdvantageError = UnknownMode | BadAnchor(error: GroupError)

  // One row per step; the mask marks the response tokens.
  datatype Batch<G, K> = Batch(tokenRewards: seq<seq<real>>, stepRewards: seq<real>, mask: seq<seq<real>>,
                               anchors: seq<Obs>, index: seq<G>, traj: seq<K>, success: seq<bool>)

  datatype SelaurSettings = SelaurSettings(estimator: EstimatorSettings, thresholdSuccessRate: real, shapingScale: real)

  datatype Options = Options(stepAdvantageW: real, mode: string, epsilon: real, applyShaping: bool,
                             overTrajectories: bool)

  ghost predicate Rectangular<G, K>(b: Batch<G, K>) {
    && |b.tokenRewards| == |b.stepRewards| == |b.mask| == |b.anchors| == |b.index| == |b.traj| == |b.success|
    && b.traj != []
  }

  function RemoveStd(mode: string): Option<bool> {
    if mode == "mean_norm" then Some(true) else if mode == "mean_std_norm" then Some(false) else None
  }

  // ----- The gate -----

  function Flags(success: seq<bool>): (r: seq<real>)
    ensures |r| == |success| && forall k :: 0 <= k < |r| ==> r[k] == if success[k] then 1.0 else 0.0
  {
    seq(|success|, k requires 0 <= k < |success| => if success[k] then 1.0 else 0.0)
  }

  ghost function Rates<K>(success: seq<bool>, traj: seq<K>, order: seq<K>): (r: seq<real>)
    requires |success| == |traj| && Present(order, traj)
    ensures |r| == |order|
  {
    seq(|order|, i requires 0 <= i < |order| => Mean(Own(traj, Flags(success), order[i])))
  }

  // The mean over the trajectories of each one's mean.
  ghost function SuccessRate<K>(success: seq<bool>, traj: seq<K>, order: seq<K>): real
    requires |success| == |traj| && Present(order, traj) && order != []
  {
    Mean(Rates(success, traj, order))
  }

  method ComputeTrajectorySuccessRate<K(==)>(success: seq<bool>, traj: seq<K>, order: seq<K>) returns (rate: real)
    requires |success| == |traj| && Present(order, traj) && order != []
    ensures rate == SuccessRate(success, traj, order)
  {
    var perTrajectory: seq<real> := [];
    for i := 0 to |order|
      invariant perTrajectory == Rates(success, traj, order)[..i]
    {
      perTrajectory := perTrajectory + [Mean(Own(traj, Flags(success), order[i]))];
    }
    assert Rates(success, traj, order)[..|order|] == Rates(success, traj, order);
    rate := Mean(perTrajectory);
  }

  // The successful trajectories among those listed.
  ghost function Successes<K>(success: seq<bool>, traj: seq<K>, order: seq<K>): (c: nat)
    requires |success| == |traj| && Present(order, traj)
    ensures c <= |order|
  {
    if order == [] then 0
    else
      assert Present(order[1..], traj);
      (if Succeeded(success, traj, order[0]) then 1 else 0) + Successes(success, traj, order[1..])
  }

  ghost predicate OneOutcomeEach<K>(success: seq<bool>, traj: seq<K>, order: seq<K>)
    requires |success| == |traj| && Present(order, traj)
  {
    forall i :: 0 <= i < |order| ==> forall t :: 0 <= t < |Where(traj, order[i])| ==>
      success[Where(traj, order[i])[t]] == Succeeded(success, traj, order[i])
  }

  lemma RateOfOne<K>(success: seq<bool>, traj: seq<K>, order: seq<K>)
    requires |success| == |traj| && Present(order, traj) && OneOutcomeEach(success, traj, order) && order != []
    ensures Rates(success, traj, order)[0] == if Succeeded(success, traj, order[0]) then 1.0 else 0.0
  {
    var own := Own(traj, Flags(success), order[0]);
    var c := if Succeeded(success, traj, order[0]) then 1.0 else 0.0;
    ConstantSum(own, c);
    MeanOfConstant(own, c);
  }

  lemma {:induction false} RatesSum<K>(success: seq<bool>, traj: seq<K>, order: seq<K>)
    requires |success| == |traj| && Present(order, traj) && OneOutcomeEach(success, traj, order)
    ensures RealSum(Rates(success, traj, order)) == Successes(success, traj, order) as real
  {
    if order != [] {
      assert Present(order[1..], traj);
      assert forall i :: 0 <= i < |order[1..]| ==> order[1..][i] == order[i + 1];
      RatesSum(success, traj, order[1..]);
      assert Rates(success, traj, order)[1..] == Rates(success, traj, order[1..]);
      RateOfOne(success, traj, order);
    }
  }

  // When each trajectory has one outcome, the rate is the share of successful trajectories, each
  // counted once however many steps it took.
  lemma EpisodesWeighEqually<K>(success: seq<bool>, traj: seq<K>, order: seq<K>)
    requires |success| == |traj| && Present(order, traj) && order != [] && OneOutcomeEach(success, traj, order)
    ensures SuccessRate(success, traj, order) == Successes(success, traj, order) as real / |order| as real
  {
    RatesSum(success, traj, order);
  }

  // ----- Scores -----

  function EpisodeScores(tokenRewards: seq<seq<real>>): (r: seq<real>)
    ensures |r| == |tokenRewards| && forall k :: 0 <= k < |r| ==> r[k] == RealSum(tokenRewards[k])
  {
    seq(|tokenRewards|, k requires 0 <= k < |tokenRewards| => RealSum(tokenRewards[k]))
  }

  function Shape(scores: seq<real>, term: seq<real>, transform: Transform, scale: real): (r: seq<real>)
    requires |term| == |scores|
    ensures |r| == |scores| && forall k :: 0 <= k < |r| ==> r[k] == ShapeOne(scores[k], term[k], transform, scale)
  {
    seq(|scores|, k requires 0 <= k < |scores| => ShapeOne(scores[k], term[k], transform, scale))
  }

  function Score(scores: seq<real>, term: seq<real>, settings: SelaurSettings, shape: bool): (r: seq<real>)
    requires |term| == |scores|
    ensures |r| == |scores|
  {
    if shape then Shape(scores, term, settings.estimator.transform, settings.shapingScale) else scores
  }

  function EpisodeLevel(removeStd: bool, epsilon: real): Settings {
    Settings(removeStd, ZeroBaseline, epsilon)
  }

  function StepLevel(removeStd: bool, epsilon: real): Settings {
    Settings(removeStd, SelfBaseline, epsilon)
  }

  function DedupKeys<K>(traj: seq<K>, overTrajectories: bool): Option<seq<K>> {
    if overTrajectories then Some(traj) else None
  }

  // ----- The advantage of one token -----

  // What a run computes on the way: both terms, and the step groups.
  datatype Run = Run(step: seq<real>, episode: seq<real>, ids: seq<nat>)

  ghost predicate Fits<G, K>(run: Run, b: Batch<G, K>) {
    Rectangular(b) && |run.step| == |run.episode| == |run.ids| == |b.traj|
  }

  ghost function EpisodePart<G, K>(run: Run, b: Batch<G, K>, settings: SelaurSettings, options: Options, shape: bool,
                                   removeStd: bool, sqrt: real -> real, k: nat): real
    requires Fits(run, b) && Guarded(removeStd, options.epsilon) && IsSqrt(sqrt) && k < |b.traj|
  {
    Normalized(Score(EpisodeScores(b.tokenRewards), run.episode, settings, shape), b.index,
               DedupKeys(b.traj, options.overTrajectories), EpisodeLevel(removeStd, options.epsilon), sqrt, k)
  }

  ghost function StepPart<G, K>(run: Run, b: Batch<G, K>, settings: SelaurSettings, options: Options, shape: bool,
                                removeStd: bool, sqrt: real -> real, k: nat): real
    requires Fits(run, b) && Guarded(removeStd, options.epsilon) && IsSqrt(sqrt) && k < |b.traj|
  {
    Normalized<nat, K>(Score(b.stepRewards, run.step, settings, shape), run.ids, None,
                       StepLevel(removeStd, options.epsilon), sqrt, k)
  }

  // One row of advantages: on every token the mask's share of the episode level and of the
  // weighted step level.
  ghost predicate RowDerived(row: seq<real>, mask: seq<real>, episode: real, step: real, weight: real) {
    |row| == |mask| && forall j :: 0 <= j < |row| ==> row[j] == mask[j] * (episode + weight * step)
  }

  // Both levels spread over the response tokens, the step level weighted.
  function Token(episode: real, step: real, weight: real, mask: real): real {
    episode * mask + weight * (step * mask)
  }

  function TokenRow(episode: real, step: real, weight: real, mask: seq<real>): (r: seq<real>)
    ensures |r| == |mask| && forall j :: 0 <= j < |mask| ==> r[j] == Token(episode, step, weight, mask[j])
  {
    seq(|mask|, j requires 0 <= j < |mask| => Token(episode, step, weight, mask[j]))
  }

  ghost predicate Derived<G, K>(adv: seq<seq<real>>, run: Run, b: Batch<G, K>, settings: SelaurSettings,
                                options: Options, shape: bool, removeStd: bool, sqrt: real -> real)
    requires Fits(run, b) && Guarded(removeStd, options.epsilon) && IsSqrt(sqrt)
  {
    |adv| == |b.traj| && forall k :: 0 <= k < |adv| ==>
      RowDerived(adv[k], b.mask[k], EpisodePart(run, b, settings, options, shape, removeStd, sqrt, k),
                 StepPart(run, b, settings, options, shape, removeStd, sqrt, k), options.stepAdvantageW)
  }

  lemma TokenValue(episode: real, step: real, weight: real, mask: real)
    ensures Token(episode, step, weight, mask) == mask * (episode + weight * step)
  {
    assert weight * (step * mask) == mask * (weight * step);
  }

  lemma TokenRowDerived(episode: real, step: real, weight: real, mask: seq<real>)
    ensures RowDerived(TokenRow(episode, step, weight, mask), mask, episode, step, weight)
  {
    hide Token;
    forall j | 0 <= j < |mask|
      ensures TokenRow(episode, step, weight, mask)[j] == mask[j] * (episode + weight * step)
    {
      TokenValue(episode, step, weight, mask[j]);
    }
  }

  // A run is sound: its terms are the estimator's and its step groups the batch's.
  ghost predicate SoundRun<G, K>(run: Run, b: Batch<G, K>, exp: real -> real, raw: seq<real>, settings: SelaurSettings,
                                 order: seq<K>)
    requires Fits(run, b) && |raw| == |b.traj| && settings.estimator.lambdaUq >= 0.0
  {
    && StepPartition(run.ids, b.anchors, b.index)
    && forall i :: 0 <= i < |order| ==>
         Shaped(run.step, run.episode, exp, raw, b.success, b.traj, settings.estimator, order[i])
  }

  ghost predicate GateOpen<G, K>(b: Batch<G, K>, settings: SelaurSettings, options: Options, order: seq<K>)
    requires Rectangular(b) && Present(order, b.traj) && order != []
  {
    options.applyShaping && SuccessRate(b.success, b.traj, order) > settings.thresholdSuccessRate
  }

  predicate GuardedMode(mode: string, epsilon: real) {
    Guarded(mode != "mean_std_norm", epsilon)
  }

  // ----- The method -----

  method BroadcastAndAdd(episode: seq<real>, step: seq<real>, weight: real, mask: seq<seq<real>>)
    returns (adv: seq<seq<real>>)
    requires |episode| == |step| == |mask|
    ensures |adv| == |mask|
    ensures forall k :: 0 <= k < |mask| ==> RowDerived(adv[k], mask[k], episode[k], step[k], weight)
  {
    hide RowDerived, TokenRow;
    adv := seq(|mask|, k requires 0 <= k < |mask| => TokenRow(episode[k], step[k], weight, mask[k]));
    forall k | 0 <= k < |mask|
      ensures RowDerived(adv[k], mask[k], episode[k], step[k], weight)
    {
      TokenRowDerived(episode[k], step[k], weight, mask[k]);
    }
  }

  lemma OrderNonEmpty<K>(order: seq<K>, ids: seq<K>)
    requires Lists(order, ids) && ids != []
    ensures order != []
  {
    assert ids[0] in ids;
  }

  lemma HashesOfPartition<G>(ids: seq<nat>, anchors: seq<Obs>, index: seq<G>)
    requires StepPartition(ids, anchors, index)
    ensures |ids| == |anchors| == |index|
  {
  }

  method ComputeSelaurOutcomeAdvantage<G(==), K(==)>(b: Batch<G, K>, raw: seq<real>, settings: SelaurSettings,
                                                     options: Options, order: seq<K>, groupOrder: seq<G>, unused: nat,
                                                     exp: real -> real, sqrt: real -> real)
    returns (r: Result<seq<seq<real>>, AdvantageError>, ghost run: Run)
    requires Rectangular(b) && |raw| == |b.traj| && IsDecay(settings.estimator.lambdaUq)
    requires GuardedMode(options.mode, options.epsilon) && IsSqrt(sqrt)
    requires Lists(order, b.traj) && Lists(groupOrder, b.index)
    ensures order != [] && Present(order, b.traj)
    ensures r == Err(UnknownMode) <==> options.mode != "mean_norm" && options.mode != "mean_std_norm"
    ensures options.mode == "mean_norm" || options.mode == "mean_std_norm" ==>
      (r == Err(BadAnchor(UnhashableAnchor)) <==> exists k :: 0 <= k < |b.anchors| && Hashes(b.anchors)[k].None?)
    ensures r.Err? ==> r.error == UnknownMode || r.error == BadAnchor(UnhashableAnchor)
    ensures r.Ok? ==> Fits(run, b) && SoundRun(run, b, exp, raw, settings, order)
    ensures r.Ok? ==> Derived(r.value, run, b, settings, options, GateOpen(b, settings, options, order),
                              options.mode == "mean_norm", sqrt)
  {
    hide Shaped, Logged, StepPartition, SuccessRate, Normalized, IsSqrt, Lists, Hashes, Records, Present, Score;
    run := Run([], [], []);
    OrderNonEmpty(order, b.traj);
    ListedPresent(order, b.traj);
    var removeStd := RemoveStd(options.mode);
    if removeStd.None? {
      return Err(UnknownMode), run;
    }
    var trace := Compute(exp, raw, b.success, b.traj, settings.estimator, order);
    var rate := ComputeTrajectorySuccessRate(b.success, b.traj, order);
    var shape := options.applyShaping && rate > settings.thresholdSuccessRate;
    var episode := GroupNormalize(Score(EpisodeScores(b.tokenRewards), trace.episode, settings, shape), b.index,
                                  DedupKeys(b.traj, options.overTrajectories),
                                  EpisodeLevel(removeStd.value, options.epsilon), sqrt);
    var ids := BuildStepGroup(b.anchors, b.index, groupOrder, unused);
    if ids.Err? {
      return Err(BadAnchor(ids.error)), run;
    }
    HashesOfPartition(ids.value, b.anchors, b.index);
    var step := GroupNormalize<nat, K>(Score(b.stepRewards, trace.step, settings, shape), ids.value, None,
                                       StepLevel(removeStd.value, options.epsilon), sqrt);
    var adv := BroadcastAndAdd(episode, step, options.stepAdvantageW, b.mask);
    run := Run(trace.step, trace.episode, ids.value);
    return Ok(adv), run;
  }
}
