/**
 The multi-turn rollout: many environments stepped together, each until its own episode is over,
 and the training batch gathered from what they did while they were active.
 */
module Rollout {
  import opened Reals

  type Uid = nat

  // What an environment reports beside its reward; `won` is what the success evaluator reads.
  datatype Info = Info(won: real)

  // One step of the loop: what the policy generated and what the environments answered.
  datatype Turn<D, P> =
    Turn(data: seq<D>, logProbs: seq<P>, rewards: seq<real>, dones: seq<bool>, infos: seq<Info>)

  ghost predicate Sized<D, P>(turns: seq<Turn<D, P>>, n: nat) {
    forall s :: 0 <= s < |turns| ==>
      && |turns[s].data| == n && |turns[s].logProbs| == n && |turns[s].rewards| == n
      && |turns[s].dones| == n && |turns[s].infos| == n
  }

  // One step of one environment, as the batch keeps it.
  datatype Record<D> = Record(trajUid: Uid, active: bool, reward: real, data: D)

  datatype Trajectories<D, P> = Trajectories(
    records: seq<seq<Record<D>>>, logProbs: seq<seq<P>>, infos: seq<seq<Info>>,
    episodeRewards: seq<real>, episodeLengths: seq<nat>)

  // ----- What a run leaves behind -----

  ghost predicate StillActive<D, P>(turns: seq<Turn<D, P>>, n: nat, i: nat, t: nat)
    requires Sized(turns, n) && i < n && t <= |turns|
  {
    forall s :: 0 <= s < t ==> !turns[s].dones[i]
  }

  ghost predicate AllDone<D, P>(turns: seq<Turn<D, P>>, n: nat, t: nat)
    requires Sized(turns, n) && t <= |turns|
  {
    forall i :: 0 <= i < n ==> !StillActive(turns, n, i, t)
  }

  // The loop stops after the first step that leaves no environment active, or when the steps
  // are used up.
  ghost predicate StopsAfter<D, P>(turns: seq<Turn<D, P>>, n: nat, t: nat)
    requires Sized(turns, n)
  {
    && t <= |turns|
    && (t < |turns| ==> t > 0 && AllDone(turns, n, t))
    && forall s :: 0 < s < t ==> !AllDone(turns, n, s)
  }

  ghost function RecordsOf<D, P>(turns: seq<Turn<D, P>>, n: nat, i: nat, uid: Uid, t: nat): (r: seq<Record<D>>)
    requires Sized(turns, n) && i < n && t <= |turns|
    ensures |r| == t
  {
    seq(t, s requires 0 <= s < t =>
      Record(uid, StillActive(turns, n, i, s), turns[s].rewards[i], turns[s].data[i]))
  }

  ghost function LogProbsOf<D, P>(turns: seq<Turn<D, P>>, n: nat, i: nat, t: nat): (r: seq<P>)
    requires Sized(turns, n) && i < n && t <= |turns|
    ensures |r| == t
  {
    seq(t, s requires 0 <= s < t => turns[s].logProbs[i])
  }

  ghost function InfosOf<D, P>(turns: seq<Turn<D, P>>, n: nat, i: nat, t: nat): (r: seq<Info>)
    requires Sized(turns, n) && i < n && t <= |turns|
    ensures |r| == t
  {
    seq(t, s requires 0 <= s < t => turns[s].infos[i])
  }

  // The step at which the episode of environment i is over, counted from 1, within t steps.
  ghost function EpisodeLength<D, P>(turns: seq<Turn<D, P>>, n: nat, i: nat, t: nat): (len: nat)
    requires Sized(turns, n) && i < n && t <= |turns|
    ensures len <= t
  {
    if t == 0 then 0
    else EpisodeLength(turns, n, i, t - 1) + if StillActive(turns, n, i, t - 1) then 1 else 0
  }

  ghost function RewardsOf<D, P>(turns: seq<Turn<D, P>>, n: nat, i: nat, t: nat): (r: seq<real>)
    requires Sized(turns, n) && i < n && t <= |turns|
    ensures |r| == t
  {
    seq(t, s requires 0 <= s < t => turns[s].rewards[i])
  }

  // An environment is active exactly on the first EpisodeLength steps, and that is at least one.
  lemma {:induction false} ActivePrefix<D, P>(turns: seq<Turn<D, P>>, n: nat, i: nat, t: nat)
    requires Sized(turns, n) && i < n && t <= |turns|
    ensures forall s :: 0 <= s < t ==> (StillActive(turns, n, i, s) <==> s < EpisodeLength(turns, n, i, t))
    ensures t >= 1 ==> EpisodeLength(turns, n, i, t) >= 1
    ensures EpisodeLength(turns, n, i, t) == t || !StillActive(turns, n, i, t)
    ensures forall k :: t <= k <= |turns| && !StillActive(turns, n, i, t) ==> !StillActive(turns, n, i, k)
  {
    if t > 0 {
      ActivePrefix(turns, n, i, t - 1);
    }
  }

  // The rewards an environment earns while it is active.
  ghost function EpisodeReward<D, P>(turns: seq<Turn<D, P>>, n: nat, i: nat, t: nat): real
    requires Sized(turns, n) && i < n && t <= |turns|
  {
    RealSum(RewardsOf(turns, n, i, EpisodeLength(turns, n, i, t)))
  }

  lemma EpisodeRewardStep<D, P>(turns: seq<Turn<D, P>>, n: nat, i: nat, t: nat)
    requires Sized(turns, n) && i < n && t < |turns|
    ensures EpisodeReward(turns, n, i, t + 1)
         == EpisodeReward(turns, n, i, t) + turns[t].rewards[i] * (if StillActive(turns, n, i, t) then 1.0 else 0.0)
  {
    ActivePrefix(turns, n, i, t);
    if StillActive(turns, n, i, t) {
      assert EpisodeLength(turns, n, i, t) == t;
      assert RewardsOf(turns, n, i, t + 1) == RewardsOf(turns, n, i, t) + [turns[t].rewards[i]];
      RealSumSnoc(RewardsOf(turns, n, i, t), turns[t].rewards[i]);
    }
  }

  // Everything collected after t steps.
  ghost predicate Collected<D, P>(out: Trajectories<D, P>, turns: seq<Turn<D, P>>, uids: seq<Uid>, t: nat)
    requires Sized(turns, |uids|) && t <= |turns|
  {
    var n := |uids|;
    && |out.records| == |out.logProbs| == |out.infos| == |out.episodeRewards| == |out.episodeLengths| == n
    && forall i :: 0 <= i < n ==>
        && out.records[i] == RecordsOf(turns, n, i, uids[i], t)
        && out.logProbs[i] == LogProbsOf(turns, n, i, t)
        && out.infos[i] == InfosOf(turns, n, i, t)
        && out.episodeLengths[i] == EpisodeLength(turns, n, i, t)
        && out.episodeRewards[i] == EpisodeReward(turns, n, i, t)
  }

  // ----- The loop -----

  // Lists that grow by one item each.
  ghost predicate Extended<T>(now: seq<seq<T>>, before: seq<seq<T>>, items: seq<T>) {
    |now| == |before| == |items| && forall i :: 0 <= i < |before| ==> now[i] == before[i] + [items[i]]
  }

  method AppendEach<T>(lists: seq<seq<T>>, items: seq<T>) returns (now: seq<seq<T>>)
    requires |lists| == |items|
    ensures Extended(now, lists, items)
  {
    now := lists;
    for i := 0 to |items|
      invariant |now| == |lists|
      invariant forall j :: 0 <= j < i ==> now[j] == lists[j] + [items[j]]
      invariant forall j :: i <= j < |lists| ==> now[j] == lists[j]
    {
      now := now[i := lists[i] + [items[i]]];
    }
  }

  function AsFloat(b: bool): real {
    if b then 1.0 else 0.0
  }

  // The rewards and lengths count the active environments only.
  method Accumulate(active: seq<bool>, rewards: seq<real>, episodeRewards: array<real>, episodeLengths: array<nat>)
    requires |active| == |rewards| == episodeRewards.Length == episodeLengths.Length
    modifies episodeRewards, episodeLengths
    ensures forall i :: 0 <= i < |active| ==>
      episodeRewards[i] == old(episodeRewards[i]) + rewards[i] * AsFloat(active[i])
    ensures forall i :: 0 <= i < |active| ==> episodeLengths[i] == old(episodeLengths[i]) + if active[i] then 1 else 0
  {
    forall i | 0 <= i < |active| {
      episodeRewards[i] := episodeRewards[i] + rewards[i] * AsFloat(active[i]);
    }
    forall i | 0 <= i < |active| && active[i] {
      episodeLengths[i] := episodeLengths[i] + 1;
    }
  }

  function NewRecords<D, P>(turn: Turn<D, P>, uids: seq<Uid>, active: seq<bool>): (r: seq<Record<D>>)
    requires |turn.data| == |turn.rewards| == |uids| == |active|
    ensures |r| == |uids|
  {
    seq(|uids|, i requires 0 <= i < |uids| => Record(uids[i], active[i], turn.rewards[i], turn.data[i]))
  }

  lemma RecordsStep<D, P>(turns: seq<Turn<D, P>>, n: nat, i: nat, uid: Uid, t: nat)
    requires Sized(turns, n) && i < n && t < |turns|
    ensures RecordsOf(turns, n, i, uid, t + 1) == RecordsOf(turns, n, i, uid, t)
      + [Record(uid, StillActive(turns, n, i, t), turns[t].rewards[i], turns[t].data[i])]
    ensures LogProbsOf(turns, n, i, t + 1) == LogProbsOf(turns, n, i, t) + [turns[t].logProbs[i]]
    ensures InfosOf(turns, n, i, t + 1) == InfosOf(turns, n, i, t) + [turns[t].infos[i]]
  {
  }

  // What one pass of the loop does to everything collected.
  ghost predicate OneStep<D, P>(before: Trajectories<D, P>, now: Trajectories<D, P>,
                                turn: Turn<D, P>, uids: seq<Uid>, active: seq<bool>)
    requires |turn.data| == |turn.rewards| == |turn.infos| == |turn.logProbs| == |uids| == |active|
  {
    && Extended(now.records, before.records, NewRecords(turn, uids, active))
    && Extended(now.logProbs, before.logProbs, turn.logProbs)
    && Extended(now.infos, before.infos, turn.infos)
    && |now.episodeRewards| == |before.episodeRewards| == |active|
    && |now.episodeLengths| == |before.episodeLengths| == |active|
    && (forall i :: 0 <= i < |active| ==>
          now.episodeRewards[i] == before.episodeRewards[i] + turn.rewards[i] * AsFloat(active[i]))
    && (forall i :: 0 <= i < |active| ==>
          now.episodeLengths[i] == before.episodeLengths[i] + if active[i] then 1 else 0)
  }

  lemma CollectedStep<D, P>(before: Trajectories<D, P>, now: Trajectories<D, P>, turns: seq<Turn<D, P>>,
                            uids: seq<Uid>, active: seq<bool>, t: nat)
    requires Sized(turns, |uids|) && t < |turns| && |active| == |uids|
    requires forall i :: 0 <= i < |uids| ==> (active[i] <==> StillActive(turns, |uids|, i, t))
    requires Collected(before, turns, uids, t) && OneStep(before, now, turns[t], uids, active)
    ensures Collected(now, turns, uids, t + 1)
  {
    hide StillActive, RecordsOf, LogProbsOf, InfosOf, EpisodeReward;
    forall i | 0 <= i < |uids|
      ensures now.records[i] == RecordsOf(turns, |uids|, i, uids[i], t + 1)
      ensures now.logProbs[i] == LogProbsOf(turns, |uids|, i, t + 1)
      ensures now.infos[i] == InfosOf(turns, |uids|, i, t + 1)
      ensures now.episodeLengths[i] == EpisodeLength(turns, |uids|, i, t + 1)
      ensures now.episodeRewards[i] == EpisodeReward(turns, |uids|, i, t + 1)
    {
      RecordsStep(turns, |uids|, i, uids[i], t);
      EpisodeRewardStep(turns, |uids|, i, t);
    }
  }

  lemma NothingCollected<D, P>(out: Trajectories<D, P>, turns: seq<Turn<D, P>>, uids: seq<Uid>)
    requires Sized(turns, |uids|)
    requires |out.records| == |out.logProbs| == |out.infos| == |out.episodeRewards| == |out.episodeLengths| == |uids|
    requires forall i :: 0 <= i < |uids| ==> out.records[i] == [] && out.logProbs[i] == [] && out.infos[i] == []
    requires forall i :: 0 <= i < |uids| ==> out.episodeRewards[i] == 0.0 && out.episodeLengths[i] == 0
    ensures Collected(out, turns, uids, 0)
  {
  }

  // One pass of the loop: who is active is decided before the environments answer.
  method TakeStep<D, P>(before: Trajectories<D, P>, turn: Turn<D, P>, uids: seq<Uid>, isDone: array<bool>,
                        episodeRewards: array<real>, episodeLengths: array<nat>)
    returns (now: Trajectories<D, P>, ghost active: seq<bool>)
    requires |turn.data| == |turn.rewards| == |turn.infos| == |turn.logProbs| == |turn.dones| == |uids|
    requires |before.records| == |before.logProbs| == |before.infos| == |uids|
    requires isDone.Length == episodeRewards.Length == episodeLengths.Length == |uids|
    requires before.episodeRewards == episodeRewards[..] && before.episodeLengths == episodeLengths[..]
    modifies isDone, episodeRewards, episodeLengths
    ensures |active| == |uids| && forall i :: 0 <= i < |uids| ==> (active[i] <==> !old(isDone[i]))
    ensures OneStep(before, now, turn, uids, active)
    ensures now.episodeRewards == episodeRewards[..] && now.episodeLengths == episodeLengths[..]
    ensures forall i :: 0 <= i < |uids| ==> (isDone[i] <==> old(isDone[i]) || turn.dones[i])
  {
    hide Extended;
    var n := |uids|;
    var activeMasks := seq(n, i requires 0 <= i < n reads isDone => !isDone[i]);
    var logProbs := AppendEach(before.logProbs, turn.logProbs);
    Accumulate(activeMasks, turn.rewards, episodeRewards, episodeLengths);
    var records := AppendEach(before.records, NewRecords(turn, uids, activeMasks));
    var infos := AppendEach(before.infos, turn.infos);
    now := Trajectories(records, logProbs, infos, episodeRewards[..], episodeLengths[..]);
    forall i | 0 <= i < n {
      isDone[i] := isDone[i] || turn.dones[i];
    }
    active := activeMasks;
  }

  // The flags say whose episode is over after t steps.
  ghost predicate Flags<D, P>(isDone: seq<bool>, turns: seq<Turn<D, P>>, n: nat, t: nat)
    requires Sized(turns, n) && t <= |turns|
  {
    |isDone| == n && forall i :: 0 <= i < n ==> (isDone[i] <==> !StillActive(turns, n, i, t))
  }

  lemma NoFlags<D, P>(isDone: seq<bool>, turns: seq<Turn<D, P>>, n: nat)
    requires Sized(turns, n) && |isDone| == n && forall i :: 0 <= i < n ==> !isDone[i]
    ensures Flags(isDone, turns, n, 0)
  {
  }

  lemma FlagsStep<D, P>(before: seq<bool>, now: seq<bool>, turns: seq<Turn<D, P>>, n: nat, t: nat)
    requires Sized(turns, n) && t < |turns| && Flags(before, turns, n, t) && |now| == n
    requires forall i :: 0 <= i < n ==> (now[i] <==> before[i] || turns[t].dones[i])
    ensures Flags(now, turns, n, t + 1)
    ensures (forall i :: 0 <= i < n ==> now[i]) <==> AllDone(turns, n, t + 1)
  {
  }

  // After t steps the loop is still to go on.
  ghost predicate Unfinished<D, P>(turns: seq<Turn<D, P>>, n: nat, t: nat)
    requires Sized(turns, n) && t <= |turns|
  {
    forall s :: 0 < s <= t ==> !AllDone(turns, n, s)
  }

  predicate AllTrue(flags: seq<bool>) {
    forall i :: 0 <= i < |flags| ==> flags[i]
  }

  lemma Stopping<D, P>(isDone: seq<bool>, turns: seq<Turn<D, P>>, n: nat, t: nat)
    requires Sized(turns, n) && t < |turns| && Flags(isDone, turns, n, t + 1) && Unfinished(turns, n, t)
    ensures AllTrue(isDone) || t + 1 == |turns| ==> StopsAfter(turns, n, t + 1)
    ensures !AllTrue(isDone) ==> Unfinished(turns, n, t + 1)
  {
    if AllTrue(isDone) {
      assert AllDone(turns, n, t + 1);
    } else {
      var i :| 0 <= i < n && !isDone[i];
      assert StillActive(turns, n, i, t + 1);
    }
  }

  lemma StartsUnfinished<D, P>(turns: seq<Turn<D, P>>, n: nat)
    requires Sized(turns, n)
    ensures Unfinished(turns, n, 0) && (turns == [] ==> StopsAfter(turns, n, 0))
  {
  }

  lemma CollectedSizes<D, P>(out: Trajectories<D, P>, turns: seq<Turn<D, P>>, uids: seq<Uid>, t: nat)
    requires Sized(turns, |uids|) && t <= |turns| && Collected(out, turns, uids, t)
    ensures |out.records| == |out.logProbs| == |out.infos| == |out.episodeRewards| == |out.episodeLengths| == |uids|
  {
  }

  // Steps every environment with the policy's actions until all are done or the steps run out.
  method VanillaMultiTurnLoop<D, P>(turns: seq<Turn<D, P>>, uids: seq<Uid>)
    returns (out: Trajectories<D, P>, steps: nat)
    requires |uids| >= 1 && Sized(turns, |uids|)
    ensures StopsAfter(turns, |uids|, steps)
    ensures Collected(out, turns, uids, steps)
  {
    hide OneStep, AllDone, StopsAfter, Unfinished, AllTrue, Collected, StillActive;
    var n := |uids|;
    var isDone := new bool[n](_ => false);
    var episodeLengths := new nat[n](_ => 0);
    var episodeRewards := new real[n](_ => 0.0);
    out := Trajectories(seq(n, _ => []), seq(n, _ => []), seq(n, _ => []), episodeRewards[..], episodeLengths[..]);
    steps := 0;
    NothingCollected(out, turns, uids);
    NoFlags(isDone[..], turns, n);
    StartsUnfinished(turns, n);
    while steps < |turns|
      invariant 0 <= steps <= |turns|
      invariant Flags(isDone[..], turns, n, steps)
      invariant out.episodeRewards == episodeRewards[..] && out.episodeLengths == episodeLengths[..]
      invariant Unfinished(turns, n, steps) && (steps == |turns| ==> StopsAfter(turns, n, steps))
      invariant Collected(out, turns, uids, steps)
    {
      ghost var done := isDone[..];
      CollectedSizes(out, turns, uids, steps);
      var now, active := TakeStep(out, turns[steps], uids, isDone, episodeRewards, episodeLengths);
      CollectedStep(out, now, turns, uids, active, steps);
      FlagsStep(done, isDone[..], turns, n, steps);
      Stopping(isDone[..], turns, n, steps);
      out := now;
      steps := steps + 1;
      if AllTrue(isDone[..]) {
        break;
      }
    }
  }
}
