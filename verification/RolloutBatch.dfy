/** From the collected trajectories to the training batch: success per environment, and the kept rows. */
module RolloutBatch {
  import opened Wrappers
  import opened SeqLib
  import opened Rollout

  datatype RolloutError = MissingSuccess | WrongTrajectory

  // One row of the training batch: an active step with the statistics of its episode.
  datatype Row<D, P> = Row(record: Record<D>, episodeReward: real, episodeLength: nat, success: real,
                           logProbs: Option<P>)

  // ----- Success -----

  ghost predicate SomeActive<D>(records: seq<Record<D>>) {
    exists k :: 0 <= k < |records| && records[k].active
  }

  ghost predicate LastActive<D>(records: seq<Record<D>>, k: nat) {
    k < |records| && records[k].active && forall j :: k < j < |records| ==> !records[j].active
  }

  // The outcome an environment reported at its last active step.
  ghost predicate WonAtLast<D>(records: seq<Record<D>>, infos: seq<Info>, won: real) {
    exists k: nat :: LastActive(records, k) && k < |infos| && won == infos[k].won
  }

  // Scans backwards for the last active step and appends its outcome; appends nothing without one.
  method ProcessBatch<D>(records: seq<Record<D>>, infos: seq<Info>, success: seq<real>) returns (now: seq<real>)
    requires |infos| == |records|
    ensures SomeActive(records) ==> |now| == |success| + 1 && now[..|success|] == success
    ensures SomeActive(records) ==> WonAtLast(records, infos, now[|success|])
    ensures !SomeActive(records) ==> now == success
  {
    var i := |records|;
    while i > 0
      invariant 0 <= i <= |records|
      invariant forall j :: i <= j < |records| ==> !records[j].active
    {
      i := i - 1;
      if records[i].active {
        now := success + [infos[i].won];
        assert LastActive(records, i);
        return;
      }
    }
    now := success;
  }

  method SuccessEvaluator<D>(records: seq<seq<Record<D>>>, infos: seq<seq<Info>>)
    returns (r: Result<seq<real>, RolloutError>)
    requires |records| == |infos| && forall i :: 0 <= i < |records| ==> |records[i]| == |infos[i]|
    ensures r.Ok? <==> forall i :: 0 <= i < |records| ==> SomeActive(records[i])
    ensures r.Ok? ==> |r.value| == |records|
    ensures r.Ok? ==> forall i :: 0 <= i < |records| ==> WonAtLast(records[i], infos[i], r.value[i])
  {
    hide SomeActive, WonAtLast;
    var success: seq<real> := [];
    for i := 0 to |records|
      invariant |success| <= i
      invariant |success| == i <==> forall j :: 0 <= j < i ==> SomeActive(records[j])
      invariant |success| == i ==> forall j :: 0 <= j < i ==> WonAtLast(records[j], infos[j], success[j])
    {
      ghost var before := success;
      success := ProcessBatch(records[i], infos[i], success);
      assert |success| == i + 1 ==> success[..i] == before && forall j :: 0 <= j < i ==> success[j] == before[j];
    }
    if |success| != |records| {
      return Err(MissingSuccess);
    }
    return Ok(success);
  }

  // ----- Gathering -----

  // The active steps of one environment, in order.
  function KeptRows<D, P>(records: seq<Record<D>>, logProbs: seq<P>, reward: real, length: nat,
                          success: real, carry: bool): seq<Row<D, P>>
    requires |records| == |logProbs|
  {
    if records == [] then []
    else
      var last := |records| - 1;
      KeptRows(records[..last], logProbs[..last], reward, length, success, carry)
      + if records[last].active
        then [Row(records[last], reward, length, success, if carry then Some(logProbs[last]) else None)] else []
  }

  ghost predicate Aligned<D, P>(out: Trajectories<D, P>, n: nat) {
    && |out.records| == |out.logProbs| == |out.infos| == |out.episodeRewards| == |out.episodeLengths| == n
    && forall i :: 0 <= i < n ==> |out.records[i]| == |out.logProbs[i]| == |out.infos[i]|
  }

  ghost predicate OwnRecords<D>(records: seq<Record<D>>, uid: Uid) {
    forall k :: 0 <= k < |records| ==> records[k].trajUid == uid
  }

  ghost function EnvRows<D, P>(out: Trajectories<D, P>, success: seq<real>, carry: bool, i: nat): seq<Row<D, P>>
    requires Aligned(out, |success|) && i < |success|
  {
    KeptRows(out.records[i], out.logProbs[i], out.episodeRewards[i], out.episodeLengths[i], success[i], carry)
  }

  ghost function AllRows<D, P>(out: Trajectories<D, P>, success: seq<real>, carry: bool,
                               n: nat): (r: seq<seq<Row<D, P>>>)
    requires Aligned(out, |success|) && n <= |success|
    ensures |r| == n
  {
    seq(n, i requires 0 <= i < n => EnvRows(out, success, carry, i))
  }

  method GatherEnvironment<D, P>(records: seq<Record<D>>, logProbs: seq<P>, reward: real, length: nat, success: real,
                                 carry: bool, uid: Uid, batch: seq<Row<D, P>>)
    returns (r: Result<seq<Row<D, P>>, RolloutError>)
    requires |records| == |logProbs|
    ensures r == if OwnRecords(records, uid)
                 then Ok(batch + KeptRows(records, logProbs, reward, length, success, carry))
                 else Err(WrongTrajectory)
  {
    var effective := batch;
    for idx := 0 to |records|
      invariant OwnRecords(records[..idx], uid)
      invariant effective == batch + KeptRows(records[..idx], logProbs[..idx], reward, length, success, carry)
    {
      if records[idx].trajUid != uid {
        return Err(WrongTrajectory);
      }
      if records[idx].active {
        var carried := if carry then Some(logProbs[idx]) else None;
        effective := effective + [Row(records[idx], reward, length, success, carried)];
      }
      assert records[..idx + 1][..idx] == records[..idx] && logProbs[..idx + 1][..idx] == logProbs[..idx];
    }
    assert records[..|records|] == records && logProbs[..|records|] == logProbs;
    return Ok(effective);
  }

  lemma EmptyFlatten<T>()
    ensures Flatten<T>([]) == []
  {
  }

  // Appends the active steps of every environment, environment by environment, each with the
  // log-probabilities recorded at its own step.
  method GatherRolloutData<D, P>(out: Trajectories<D, P>, uids: seq<Uid>, success: seq<real>, carry: bool)
    returns (r: Result<seq<Row<D, P>>, RolloutError>)
    requires |uids| == |success| && Aligned(out, |uids|)
    ensures r == if forall i :: 0 <= i < |uids| ==> OwnRecords(out.records[i], uids[i])
                 then Ok(Flatten(AllRows(out, success, carry, |uids|))) else Err(WrongTrajectory)
  {
    hide OwnRecords, KeptRows, Flatten;
    var effective: seq<Row<D, P>> := [];
    EmptyFlatten<Row<D, P>>();
    assert AllRows(out, success, carry, 0) == [];
    for bs := 0 to |uids|
      invariant forall i :: 0 <= i < bs ==> OwnRecords(out.records[i], uids[i])
      invariant effective == Flatten(AllRows(out, success, carry, bs))
    {
      var next := GatherEnvironment(out.records[bs], out.logProbs[bs], out.episodeRewards[bs], out.episodeLengths[bs],
                                    success[bs], carry, uids[bs], effective);
      if next.Err? {
        return Err(WrongTrajectory);
      }
      effective := next.value;
      assert AllRows(out, success, carry, bs + 1)
          == AllRows(out, success, carry, bs) + [EnvRows(out, success, carry, bs)];
      FlattenSnoc(AllRows(out, success, carry, bs), EnvRows(out, success, carry, bs));
    }
    return Ok(effective);
  }

  // ----- The whole rollout -----

  // What the batch holds for environment i after t steps: one row for each step of its episode,
  // all active, with the outcome reported at the last of them.
  ghost function EpisodeRows<D, P>(turns: seq<Turn<D, P>>, uids: seq<Uid>, t: nat, carry: bool,
                                   i: nat): (r: seq<Row<D, P>>)
    requires Sized(turns, |uids|) && 1 <= t <= |turns| && i < |uids|
    ensures |r| == EpisodeLength(turns, |uids|, i, t) >= 1
    ensures forall s :: 0 <= s < |r| ==>
              && r[s].record == Record(uids[i], true, turns[s].rewards[i], turns[s].data[i])
              && r[s].episodeReward == EpisodeReward(turns, |uids|, i, t)
              && r[s].episodeLength == EpisodeLength(turns, |uids|, i, t)
              && r[s].success == turns[|r| - 1].infos[i].won
              && r[s].logProbs == if carry then Some(turns[s].logProbs[i]) else None
  {
    var n := |uids|;
    var len := EpisodeLength(turns, n, i, t);
    ActivePrefix(turns, n, i, t);
    seq(len, s requires 0 <= s < len =>
      Row(Record(uids[i], true, turns[s].rewards[i], turns[s].data[i]), EpisodeReward(turns, n, i, t), len,
          turns[len - 1].infos[i].won, if carry then Some(turns[s].logProbs[i]) else None))
  }

  ghost function Episodes<D, P>(turns: seq<Turn<D, P>>, uids: seq<Uid>, t: nat, carry: bool): (r: seq<seq<Row<D, P>>>)
    requires Sized(turns, |uids|) && 1 <= t <= |turns|
    ensures |r| == |uids| && forall i :: 0 <= i < |uids| ==> r[i] == EpisodeRows(turns, uids, t, carry, i)
  {
    seq(|uids|, i requires 0 <= i < |uids| => EpisodeRows(turns, uids, t, carry, i))
  }

  ghost predicate ActiveBefore<D>(records: seq<Record<D>>, len: nat) {
    len <= |records| && forall s :: 0 <= s < |records| ==> (records[s].active <==> s < len)
  }

  // Keeping the active steps keeps exactly the prefix.
  lemma {:induction false} KeptIsPrefix<D, P>(records: seq<Record<D>>, logProbs: seq<P>, reward: real, length: nat,
                                              success: real, carry: bool, len: nat)
    requires |records| == |logProbs| && ActiveBefore(records, len)
    ensures KeptRows(records, logProbs, reward, length, success, carry)
         == seq(len, s requires 0 <= s < len =>
                  Row(records[s], reward, length, success, if carry then Some(logProbs[s]) else None))
  {
    if records != [] {
      var last := |records| - 1;
      KeptIsPrefix(records[..last], logProbs[..last], reward, length, success, carry, if len > last then last else len);
    }
  }

  lemma RecordsActive<D, P>(turns: seq<Turn<D, P>>, n: nat, i: nat, uid: Uid, t: nat)
    requires Sized(turns, n) && i < n && 1 <= t <= |turns|
    ensures var records, len := RecordsOf(turns, n, i, uid, t), EpisodeLength(turns, n, i, t);
      len >= 1 && ActiveBefore(records, len) && OwnRecords(records, uid)
      && SomeActive(records) && LastActive(records, len - 1)
  {
    ActivePrefix(turns, n, i, t);
    var records, len := RecordsOf(turns, n, i, uid, t), EpisodeLength(turns, n, i, t);
    assert records[len - 1].active;
  }

  lemma OneLast<D>(records: seq<Record<D>>, infos: seq<Info>, k: nat, won: real)
    requires LastActive(records, k) && |infos| == |records| && WonAtLast(records, infos, won)
    ensures won == infos[k].won
  {
    var j: nat :| LastActive(records, j) && j < |infos| && won == infos[j].won;
    assert !(j < k) && !(k < j);
  }

  // The rows gathered for one environment are the rows of its episode.
  lemma EnvRowsAreEpisode<D, P>(out: Trajectories<D, P>, turns: seq<Turn<D, P>>, uids: seq<Uid>, t: nat,
                                success: seq<real>, carry: bool, i: nat)
    requires Sized(turns, |uids|) && 1 <= t <= |turns| && Collected(out, turns, uids, t) && i < |uids| == |success|
    requires Aligned(out, |uids|) && WonAtLast(out.records[i], out.infos[i], success[i])
    ensures EnvRows(out, success, carry, i) == EpisodeRows(turns, uids, t, carry, i)
  {
    hide KeptRows, StillActive, LastActive, WonAtLast, EpisodeLength, EpisodeReward, OwnRecords, SomeActive;
    var n := |uids|;
    var len := EpisodeLength(turns, n, i, t);
    RecordsActive(turns, n, i, uids[i], t);
    OneLast(out.records[i], out.infos[i], len - 1, success[i]);
    KeptIsPrefix(out.records[i], out.logProbs[i], out.episodeRewards[i], len, success[i], carry, len);
  }

  lemma CollectedFacts<D, P>(out: Trajectories<D, P>, turns: seq<Turn<D, P>>, uids: seq<Uid>, t: nat)
    requires Sized(turns, |uids|) && t <= |turns| && Collected(out, turns, uids, t)
    ensures Aligned(out, |uids|)
    ensures forall i :: 0 <= i < |uids| ==> OwnRecords(out.records[i], uids[i])
    ensures t >= 1 ==> forall i :: 0 <= i < |uids| ==> SomeActive(out.records[i])
    ensures t == 0 ==> forall i :: 0 <= i < |uids| ==> !SomeActive(out.records[i])
  {
    hide StillActive, EpisodeReward;
    if t >= 1 {
      forall i | 0 <= i < |uids|
        ensures SomeActive(out.records[i])
      {
        RecordsActive(turns, |uids|, i, uids[i], t);
      }
    }
  }

  // Rolls out, evaluates and gathers. With no step allowed there is no outcome to read and the
  // evaluator's assertion fails; otherwise the batch is every episode in full, in order.
  method MultiTurnLoop<D, P>(turns: seq<Turn<D, P>>, uids: seq<Uid>, carry: bool)
    returns (batch: Result<seq<Row<D, P>>, RolloutError>, steps: nat)
    requires |uids| >= 1 && Sized(turns, |uids|)
    ensures StopsAfter(turns, |uids|, steps)
    ensures turns == [] ==> batch == Err(MissingSuccess)
    ensures turns != [] ==> steps >= 1 && batch == Ok(Flatten(Episodes(turns, uids, steps, carry)))
  {
    hide Collected, SomeActive, WonAtLast, OwnRecords, EnvRows, EpisodeRows, Flatten, AllDone;
    var out;
    out, steps := VanillaMultiTurnLoop(turns, uids);
    CollectedFacts(out, turns, uids, steps);
    assert steps == 0 ==> !SomeActive(out.records[0]);
    var success := SuccessEvaluator(out.records, out.infos);
    if success.Err? {
      return Err(MissingSuccess), steps;
    }
    batch := GatherRolloutData(out, uids, success.value, carry);
    if turns != [] {
      forall i | 0 <= i < |uids|
        ensures EnvRows(out, success.value, carry, i) == EpisodeRows(turns, uids, steps, carry, i)
      {
        EnvRowsAreEpisode(out, turns, uids, steps, success.value, carry, i);
      }
      assert AllRows(out, success.value, carry, |uids|) == Episodes(turns, uids, steps, carry);
    }
  }
}
