/** The uncertainty estimator: per-step uncertainties to step-level and episode-level shaping terms. */
module Estimator {
  import opened SeqLib
  import opened Reals
  import opened Selections
  import opened Smoothing

  // Diagnostic values, split by how the episode ended.
  class OutcomeSplit {
    var success: seq<real>
    var failure: seq<real>

    constructor ()
      ensures success == [] && failure == []
    {
      success, failure := [], [];
    }

    method Record(values: seq<real>, succeeded: bool)
      modifies this
      ensures success == old(success) + if succeeded then values else []
      ensures failure == old(failure) + if succeeded then [] else values
    {
      if succeeded {
        success := success + values;
      } else {
        failure := failure + values;
      }
    }
  }

  datatype EstimatorSettings = EstimatorSettings(lambdaUq: real, stepWeight: real, transform: Transform)

  datatype UncertaintyTrace = UncertaintyTrace(
    step: seq<real>, episode: seq<real>, stepDiagnostics: OutcomeSplit, episodeDiagnostics: OutcomeSplit)

  // The smoothed uncertainty of one trajectory, from its own steps alone.
  function OwnSmoothed<K(==)>(raw: seq<real>, uids: seq<K>, settings: EstimatorSettings, u: K): (r: seq<real>)
    requires |raw| == |uids| && settings.lambdaUq >= 0.0
    ensures |r| == |Where(uids, u)|
  {
    Smoothed(Own(uids, raw, u), settings.lambdaUq)
  }

  // How the trajectory ended, as its first row says.
  function Succeeded<K(==)>(success: seq<bool>, uids: seq<K>, u: K): bool
    requires |success| == |uids| && Where(uids, u) != []
  {
    Own(uids, success, u)[0]
  }

  // The transform shapes this trajectory.
  predicate Owns<K(==)>(success: seq<bool>, uids: seq<K>, settings: EstimatorSettings, u: K)
    requires |success| == |uids| && Where(uids, u) != []
  {
    Succeeded(success, uids, u) != ShapesFailures(settings.transform)
  }

  ghost function StepTerms<K>(exp: real -> real, raw: seq<real>, success: seq<bool>, uids: seq<K>,
                              settings: EstimatorSettings, u: K): (r: seq<real>)
    requires |raw| == |success| == |uids| && settings.lambdaUq >= 0.0 && Where(uids, u) != []
    ensures |r| == |Where(uids, u)|
  {
    if Owns(success, uids, settings, u)
    then StepTransform(exp, OwnSmoothed(raw, uids, settings, u), settings.transform, settings.stepWeight)
    else Copies(NeutralTerm(settings.transform), |Where(uids, u)|)
  }

  ghost function EpisodeTerms<K>(exp: real -> real, raw: seq<real>, success: seq<bool>, uids: seq<K>,
                                 settings: EstimatorSettings, u: K): (r: seq<real>)
    requires |raw| == |success| == |uids| && settings.lambdaUq >= 0.0 && Where(uids, u) != []
    ensures |r| == |Where(uids, u)|
  {
    Copies(if Owns(success, uids, settings, u)
             then EpisodeTransform(exp, Mean(OwnSmoothed(raw, uids, settings, u)), settings.transform)
             else NeutralTerm(settings.transform), |Where(uids, u)|)
  }

  // Both terms of one trajectory are in place.
  ghost predicate Shaped<K>(step: seq<real>, episode: seq<real>, exp: real -> real, raw: seq<real>, success: seq<bool>,
                            uids: seq<K>, settings: EstimatorSettings, u: K)
    requires |step| == |episode| == |raw| == |success| == |uids| && settings.lambdaUq >= 0.0
  {
    && Where(uids, u) != []
    && Own(uids, step, u) == StepTerms(exp, raw, success, uids, settings, u)
    && Own(uids, episode, u) == EpisodeTerms(exp, raw, success, uids, settings, u)
  }

  ghost predicate Neutral<K>(step: seq<real>, episode: seq<real>, uids: seq<K>, settings: EstimatorSettings, u: K)
    requires |step| == |episode| == |uids|
  {
    && Own(uids, step, u) == Copies(NeutralTerm(settings.transform), |Where(uids, u)|)
    && Own(uids, episode, u) == Copies(NeutralTerm(settings.transform), |Where(uids, u)|)
  }

  // What the diagnostics record: the smoothed uncertainty, scaled for the steps and averaged for
  // the episode, never negated and whatever the transform.
  ghost function StepRecord<K>(raw: seq<real>, uids: seq<K>, settings: EstimatorSettings, u: K): seq<real>
    requires |raw| == |uids| && settings.lambdaUq >= 0.0
  {
    var own := OwnSmoothed(raw, uids, settings, u);
    seq(|own|, t requires 0 <= t < |own| => Weighted(own[t], settings.stepWeight))
  }

  ghost function EpisodeRecord<K>(raw: seq<real>, uids: seq<K>, settings: EstimatorSettings, u: K): seq<real>
    requires |raw| == |uids| && settings.lambdaUq >= 0.0 && Where(uids, u) != []
  {
    Copies(Mean(OwnSmoothed(raw, uids, settings, u)), |Where(uids, u)|)
  }

  ghost predicate Present<K>(order: seq<K>, uids: seq<K>) {
    forall i :: 0 <= i < |order| ==> Where(uids, order[i]) != []
  }

  // The step (or episode) records of the trajectories that ended as asked, in the given order.
  ghost function Records<K>(raw: seq<real>, success: seq<bool>, uids: seq<K>, settings: EstimatorSettings,
                            order: seq<K>, succeeded: bool, episodes: bool): seq<real>
    requires |raw| == |success| == |uids| && settings.lambdaUq >= 0.0 && Present(order, uids)
  {
    if order == [] then []
    else
      var u := order[|order| - 1];
      Records(raw, success, uids, settings, order[..|order| - 1], succeeded, episodes)
      + if Succeeded(success, uids, u) != succeeded then []
        else if episodes then EpisodeRecord(raw, uids, settings, u) else StepRecord(raw, uids, settings, u)
  }

  // The terms of one trajectory; the others keep theirs.
  method ShapeTrajectory<K(==)>(exp: real -> real, smoothed: seq<real>, succeeded: bool, uids: seq<K>,
                                settings: EstimatorSettings, u: K, stepTerm: array<real>, episodeTerm: array<real>,
                                ghost raw: seq<real>, ghost success: seq<bool>)
    requires |raw| == |success| == |uids| == stepTerm.Length == episodeTerm.Length && settings.lambdaUq >= 0.0
    requires Where(uids, u) != [] && stepTerm != episodeTerm
    requires smoothed == OwnSmoothed(raw, uids, settings, u) && succeeded == Succeeded(success, uids, u)
    requires Neutral(stepTerm[..], episodeTerm[..], uids, settings, u)
    modifies stepTerm, episodeTerm
    ensures Shaped(stepTerm[..], episodeTerm[..], exp, raw, success, uids, settings, u)
    ensures forall v :: v in uids && v != u ==>
      && Own(uids, stepTerm[..], v) == old(Own(uids, stepTerm[..], v))
      && Own(uids, episodeTerm[..], v) == old(Own(uids, episodeTerm[..], v))
  {
    hide Own, OwnSmoothed, StepTransform, EpisodeTransform;
    if succeeded != ShapesFailures(settings.transform) {
      var rows := Where(uids, u);
      ghost var step, episode := stepTerm[..], episodeTerm[..];
      var stepValues := StepTransform(exp, smoothed, settings.transform, settings.stepWeight);
      var episodeValues := Copies(EpisodeTransform(exp, Mean(smoothed), settings.transform), |rows|);
      WriteRows(stepTerm, rows, stepValues);
      WriteRows(episodeTerm, rows, episodeValues);
      OwnWritten(uids, stepTerm[..], stepValues, u);
      OwnWritten(uids, episodeTerm[..], episodeValues, u);
      forall v | v in uids && v != u
        ensures Own(uids, stepTerm[..], v) == Own(uids, step, v)
        ensures Own(uids, episodeTerm[..], v) == Own(uids, episode, v)
      {
        OwnUntouched(uids, step, stepTerm[..], u, v);
        OwnUntouched(uids, episode, episodeTerm[..], u, v);
      }
    }
  }

  // The four logs after the trajectories listed in done.
  ghost predicate Logged<K>(stepLog: OutcomeSplit, episodeLog: OutcomeSplit, raw: seq<real>, success: seq<bool>,
                            uids: seq<K>, settings: EstimatorSettings, done: seq<K>)
    requires |raw| == |success| == |uids| && settings.lambdaUq >= 0.0 && Present(done, uids)
    reads stepLog, episodeLog
  {
    && stepLog.success == Records(raw, success, uids, settings, done, true, false)
    && stepLog.failure == Records(raw, success, uids, settings, done, false, false)
    && episodeLog.success == Records(raw, success, uids, settings, done, true, true)
    && episodeLog.failure == Records(raw, success, uids, settings, done, false, true)
  }

  method RecordTrajectory<K(==)>(exp: real -> real, smoothed: seq<real>, succeeded: bool, uids: seq<K>,
                                 settings: EstimatorSettings, u: K, stepLog: OutcomeSplit, episodeLog: OutcomeSplit,
                                 ghost raw: seq<real>, ghost success: seq<bool>, ghost done: seq<K>)
    requires |raw| == |success| == |uids| && settings.lambdaUq >= 0.0 && Where(uids, u) != [] && stepLog != episodeLog
    requires smoothed == OwnSmoothed(raw, uids, settings, u) && succeeded == Succeeded(success, uids, u)
    requires Present(done, uids) && Logged(stepLog, episodeLog, raw, success, uids, settings, done)
    modifies stepLog, episodeLog
    ensures Present(done + [u], uids) && Logged(stepLog, episodeLog, raw, success, uids, settings, done + [u])
  {
    hide OwnSmoothed, Own, Where, Mean, Copies;
    assert (done + [u])[..|done|] == done;
    var steps := StepTransform(exp, smoothed, Linear, settings.stepWeight);
    assert steps == StepRecord(raw, uids, settings, u);
    stepLog.Record(steps, succeeded);
    episodeLog.Record(Copies(EpisodeTransform(exp, Mean(smoothed), Linear), |smoothed|), succeeded);
  }

  lemma ListedPresent<K>(order: seq<K>, uids: seq<K>)
    requires Lists(order, uids)
    ensures Present(order, uids)
  {
    forall i | 0 <= i < |order|
      ensures Where(uids, order[i]) != []
    {
      assert order[i] in order;
      var k :| 0 <= k < |uids| && uids[k] == order[i];
      WhereRank(uids, k);
    }
  }

  lemma NeutralStart<K>(n: nat, uids: seq<K>, settings: EstimatorSettings, u: K)
    requires n == |uids|
    ensures Neutral(Copies(NeutralTerm(settings.transform), n), Copies(NeutralTerm(settings.transform), n), uids,
                    settings, u)
  {
    hide NeutralTerm;
  }

  lemma LoggedNone<K>(stepLog: OutcomeSplit, episodeLog: OutcomeSplit, raw: seq<real>, success: seq<bool>,
                      uids: seq<K>, settings: EstimatorSettings)
    requires |raw| == |success| == |uids| && settings.lambdaUq >= 0.0
    requires stepLog.success == stepLog.failure == episodeLog.success == episodeLog.failure == []
    ensures Logged(stepLog, episodeLog, raw, success, uids, settings, [])
  {
  }

  lemma OthersKeep<K>(step: seq<real>, episode: seq<real>, step': seq<real>, episode': seq<real>, exp: real -> real,
                      raw: seq<real>, success: seq<bool>, uids: seq<K>, settings: EstimatorSettings, v: K)
    requires |step| == |episode| == |step'| == |episode'| == |raw| == |success| == |uids| && settings.lambdaUq >= 0.0
    requires Own(uids, step', v) == Own(uids, step, v) && Own(uids, episode', v) == Own(uids, episode, v)
    ensures Shaped(step, episode, exp, raw, success, uids, settings, v)
        ==> Shaped(step', episode', exp, raw, success, uids, settings, v)
    ensures Neutral(step, episode, uids, settings, v) ==> Neutral(step', episode', uids, settings, v)
  {
  }

  // Smooths, shapes and logs trajectory by trajectory; whatever the order and the interleaving,
  // each trajectory's terms come from its own steps.
  method Compute<K(==)>(exp: real -> real, raw: seq<real>, success: seq<bool>, uids: seq<K>,
                   settings: EstimatorSettings,
                        order: seq<K>) returns (trace: UncertaintyTrace)
    requires |raw| == |success| == |uids| && IsDecay(settings.lambdaUq) && Lists(order, uids)
    ensures fresh(trace.stepDiagnostics) && fresh(trace.episodeDiagnostics)
    ensures |trace.step| == |trace.episode| == |uids| && Present(order, uids)
    ensures forall i :: 0 <= i < |order| ==>
        Shaped(trace.step, trace.episode, exp, raw, success, uids, settings, order[i])
    ensures Logged(trace.stepDiagnostics, trace.episodeDiagnostics, raw, success, uids, settings, order)
  {
    hide Shaped, Neutral, Logged, Own, Smoothed, Records, Where, NeutralTerm;
    ListedPresent(order, uids);
    var neutral := NeutralTerm(settings.transform);
    var stepTerm := new real[|uids|](_ => neutral);
    var episodeTerm := new real[|uids|](_ => neutral);
    var stepLog := new OutcomeSplit();
    var episodeLog := new OutcomeSplit();
    assert stepTerm[..] == Copies(neutral, |uids|) == episodeTerm[..];
    forall i | 0 <= i < |order|
      ensures Neutral(stepTerm[..], episodeTerm[..], uids, settings, order[i])
    {
      NeutralStart(|uids|, uids, settings, order[i]);
    }
    LoggedNone(stepLog, episodeLog, raw, success, uids, settings);
    for j := 0 to |order|
      invariant fresh(stepLog) && fresh(episodeLog) && stepLog != episodeLog
      invariant forall i :: 0 <= i < j ==>
          Shaped(stepTerm[..], episodeTerm[..], exp, raw, success, uids, settings, order[i])
      invariant forall i :: j <= i < |order| ==> Neutral(stepTerm[..], episodeTerm[..], uids, settings, order[i])
      invariant Logged(stepLog, episodeLog, raw, success, uids, settings, order[..j])
    {
      ghost var step, episode := stepTerm[..], episodeTerm[..];
      var u := order[j];
      var succeeded := Succeeded(success, uids, u);
      var smoothed := DiscountedSmooth(Own(uids, raw, u), settings.lambdaUq);
      ShapeTrajectory(exp, smoothed, succeeded, uids, settings, u, stepTerm, episodeTerm, raw, success);
      forall i | 0 <= i < |order| && i != j
        ensures Shaped(step, episode, exp, raw, success, uids, settings, order[i])
            ==> Shaped(stepTerm[..], episodeTerm[..], exp, raw, success, uids, settings, order[i])
        ensures Neutral(step, episode, uids, settings, order[i])
            ==> Neutral(stepTerm[..], episodeTerm[..], uids, settings, order[i])
      {
        OthersKeep(step, episode, stepTerm[..], episodeTerm[..], exp, raw, success, uids, settings, order[i]);
      }
      RecordTrajectory(exp, smoothed, succeeded, uids, settings, u, stepLog, episodeLog, raw, success, order[..j]);
      assert order[..j + 1] == order[..j] + [u];
    }
    assert order[..|order|] == order;
    trace := UncertaintyTrace(stepTerm[..], episodeTerm[..], stepLog, episodeLog);
  }
}
