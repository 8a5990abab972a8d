/** Discounted returns behind every step of a batch, trajectory by trajectory. */
module Returns {
  import opened Wrappers
  import opened SeqLib
  import opened Reals
  import opened Selections
  import opened Rollout
  import opened RolloutBatch

  datatype ReturnsError = InactiveStep

  method ScanBackwards(rewards: seq<real>, gamma: real) returns (returns_: seq<real>)
    ensures |returns_| == |rewards|
    ensures forall t :: 0 <= t < |rewards| ==> returns_[t] == RealSum(PowerTerms(rewards[t..], gamma))
  {
    hide Horner, Discounted;
    var trajReturns := new real[|rewards|](_ => 0.0);
    var running := 0.0;
    NothingDiscounted(gamma);
    assert rewards[|rewards|..] == [];
    var t := |rewards|;
    while t > 0
      invariant 0 <= t <= |rewards|
      invariant running == Discounted(rewards[t..], gamma)
      invariant forall s :: t <= s < |rewards| ==> trajReturns[s] == Discounted(rewards[s..], gamma)
    {
      t := t - 1;
      SuffixDiscounted(rewards, t, gamma);
      running := Horner(rewards[t], gamma, running);
      trajReturns[t] := running;
    }
    returns_ := trajReturns[..];
    forall s | 0 <= s < |rewards|
      ensures returns_[s] == PowerSum(rewards[s..], gamma)
    {
      DiscountedIsPowerSum(rewards[s..], gamma);
    }
  }

  // The trajectory's own rows, read in order, carry the returns of its own rewards.
  ghost predicate Scored<K>(result: seq<real>, rewards: seq<real>, uids: seq<K>, gamma: real, u: K)
    requires |result| == |rewards| == |uids|
  {
    var own, returns_ := Own(uids, rewards, u), Own(uids, result, u);
    |returns_| == |own| && forall t :: 0 <= t < |own| ==> returns_[t] == RealSum(PowerTerms(own[t..], gamma))
  }

  ghost predicate StepReturns<K>(result: seq<real>, rewards: seq<real>, uids: seq<K>, gamma: real) {
    && |result| == |rewards| == |uids|
    && forall u :: u in uids ==> Scored(result, rewards, uids, gamma, u)
  }

  ghost predicate AllActive<K>(active: seq<bool>, uids: seq<K>, u: K)
    requires |active| == |uids|
  {
    forall t :: 0 <= t < |Where(uids, u)| ==> active[Where(uids, u)[t]]
  }

  lemma EveryRowActive<K>(uids: seq<K>, active: seq<bool>)
    requires |active| == |uids|
    ensures (forall u :: u in uids ==> AllActive(active, uids, u)) <==> (forall k :: 0 <= k < |active| ==> active[k])
  {
    if forall u :: u in uids ==> AllActive(active, uids, u) {
      forall k | 0 <= k < |active|
        ensures active[k]
      {
        assert AllActive(active, uids, uids[k]);
        WhereRank(uids, k);
      }
    }
  }

  method FillTrajectory<K(==)>(all: array<real>, rewards: seq<real>, uids: seq<K>, active: seq<bool>, gamma: real, u: K)
    returns (ok: bool)
    requires all.Length == |rewards| == |uids| == |active|
    modifies all
    ensures ok <==> AllActive(active, uids, u)
    ensures ok ==> Scored(all[..], rewards, uids, gamma, u)
    ensures forall v :: v in uids && v != u && old(Scored(all[..], rewards, uids, gamma, v)) ==>
        Scored(all[..], rewards, uids, gamma, v)
  {
    hide ReturnsOf;
    var rows := Where(uids, u);
    if exists t :: 0 <= t < |rows| && !active[rows[t]] {
      return false;
    }
    var trajReturns := ScanBackwards(Own(uids, rewards, u), gamma);
    ghost var before := all[..];
    WriteRows(all, rows, trajReturns);
    OwnWritten(uids, all[..], trajReturns, u);
    forall v | v in uids && v != u && Scored(before, rewards, uids, gamma, v)
      ensures Scored(all[..], rewards, uids, gamma, v)
    {
      OwnUntouched(uids, before, all[..], u, v);
    }
    return true;
  }

  method ComputeStepDiscountedReturns<K(==)>(rewards: seq<real>, uids: seq<K>, active: seq<bool>, gamma: real,
                                        order: seq<K>)
    returns (r: Result<seq<real>, ReturnsError>)
    requires |rewards| == |uids| == |active| && Lists(order, uids)
    ensures r.Ok? <==> forall k :: 0 <= k < |active| ==> active[k]
    ensures r.Ok? ==> StepReturns(r.value, rewards, uids, gamma)
  {
    hide Scored, AllActive;
    EveryRowActive(uids, active);
    var all := new real[|rewards|](_ => 0.0);
    for j := 0 to |order|
      invariant forall i :: 0 <= i < j ==> Scored(all[..], rewards, uids, gamma, order[i])
      invariant forall i :: 0 <= i < j ==> AllActive(active, uids, order[i])
    {
      var ok := FillTrajectory(all, rewards, uids, active, gamma, order[j]);
      if !ok {
        return Err(InactiveStep);
      }
    }
    return Ok(all[..]);
  }

  // Two batches that give a trajectory the same rewards in the same order give it the same
  // returns, however its rows are mixed with those of others.
  lemma InterleavingIrrelevant<K>(result: seq<real>, rewards: seq<real>, uids: seq<K>,
                                  result': seq<real>, rewards': seq<real>, uids': seq<K>, gamma: real, u: K)
    requires StepReturns(result, rewards, uids, gamma) && StepReturns(result', rewards', uids', gamma)
    requires u in uids && u in uids' && Own(uids, rewards, u) == Own(uids', rewards', u)
    ensures Own(uids, result, u) == Own(uids', result', u)
  {
  }

  // ----- The columns of a gathered batch -----

  function RowUids<D, P>(batch: seq<Row<D, P>>): (r: seq<Uid>)
    ensures |r| == |batch| && forall k :: 0 <= k < |batch| ==> r[k] == batch[k].record.trajUid
  {
    seq(|batch|, k requires 0 <= k < |batch| => batch[k].record.trajUid)
  }

  function RowRewards<D, P>(batch: seq<Row<D, P>>): (r: seq<real>)
    ensures |r| == |batch| && forall k :: 0 <= k < |batch| ==> r[k] == batch[k].record.reward
  {
    seq(|batch|, k requires 0 <= k < |batch| => batch[k].record.reward)
  }

  function RowActive<D, P>(batch: seq<Row<D, P>>): (r: seq<bool>)
    ensures |r| == |batch| && forall k :: 0 <= k < |batch| ==> r[k] == batch[k].record.active
  {
    seq(|batch|, k requires 0 <= k < |batch| => batch[k].record.active)
  }

  ghost predicate Distinct(uids: seq<Uid>) {
    forall i, j :: 0 <= i < j < |uids| ==> uids[i] != uids[j]
  }

  // Block i holds rows of trajectory uids[i] only.
  ghost predicate BlockPerUid<D, P>(blocks: seq<seq<Row<D, P>>>, uids: seq<Uid>) {
    |blocks| == |uids| && forall i :: 0 <= i < |blocks| ==> forall k :: 0 <= k < |blocks[i]| ==>
      blocks[i][k].record.trajUid == uids[i]
  }

  lemma {:induction false} UidsInBlocks<D, P>(blocks: seq<seq<Row<D, P>>>, uids: seq<Uid>, u: Uid)
    requires BlockPerUid(blocks, uids) && u !in uids
    ensures u !in RowUids(Flatten(blocks))
  {
    if blocks != [] {
      assert BlockPerUid(blocks[1..], uids[1..]);
      UidsInBlocks(blocks[1..], uids[1..], u);
      assert RowUids(Flatten(blocks)) == RowUids(blocks[0]) + RowUids(Flatten(blocks[1..]));
    }
  }

  // With distinct ids, a trajectory's own rows are exactly its block.
  lemma {:induction false} OwnBlock<D, P>(blocks: seq<seq<Row<D, P>>>, uids: seq<Uid>, i: nat)
    requires BlockPerUid(blocks, uids) && Distinct(uids) && i < |uids|
    ensures Own(RowUids(Flatten(blocks)), RowRewards(Flatten(blocks)), uids[i]) == RowRewards(blocks[i])
  {
    hide Where, Own;
    var first, rest := blocks[0], Flatten(blocks[1..]);
    assert RowUids(first + rest) == RowUids(first) + RowUids(rest);
    assert RowRewards(first + rest) == RowRewards(first) + RowRewards(rest);
    OwnAppend(RowUids(first), RowUids(rest), RowRewards(first), RowRewards(rest), uids[i]);
    assert BlockPerUid(blocks[1..], uids[1..]);
    if i == 0 {
      OwnAll(RowUids(first), RowRewards(first), uids[0]);
      assert uids[0] !in uids[1..];
      UidsInBlocks(blocks[1..], uids[1..], uids[0]);
      OwnNone(RowUids(rest), RowRewards(rest), uids[0]);
    } else {
      OwnNone(RowUids(first), RowRewards(first), uids[i]);
      OwnBlock(blocks[1..], uids[1..], i - 1);
    }
  }

  lemma {:induction false} ActiveBlocks<D, P>(blocks: seq<seq<Row<D, P>>>)
    requires forall i :: 0 <= i < |blocks| ==> forall k :: 0 <= k < |blocks[i]| ==> blocks[i][k].record.active
    ensures forall k :: 0 <= k < |RowActive(Flatten(blocks))| ==> RowActive(Flatten(blocks))[k]
  {
    if blocks != [] {
      ActiveBlocks(blocks[1..]);
      assert RowActive(Flatten(blocks)) == RowActive(blocks[0]) + RowActive(Flatten(blocks[1..]));
    }
  }

  lemma EpisodeColumns<D, P>(turns: seq<Turn<D, P>>, uids: seq<Uid>, t: nat, carry: bool, i: nat)
    requires Sized(turns, |uids|) && 1 <= t <= |turns| && i < |uids|
    ensures RowRewards(EpisodeRows(turns, uids, t, carry, i))
         == RewardsOf(turns, |uids|, i, EpisodeLength(turns, |uids|, i, t))
    ensures forall k :: 0 <= k < |EpisodeRows(turns, uids, t, carry, i)| ==>
      EpisodeRows(turns, uids, t, carry, i)[k].record.active
    ensures forall k :: 0 <= k < |EpisodeRows(turns, uids, t, carry, i)| ==>
      EpisodeRows(turns, uids, t, carry, i)[k].record.trajUid == uids[i]
  {
    hide StillActive, EpisodeReward;
  }

  lemma EpisodeBlocks<D, P>(turns: seq<Turn<D, P>>, uids: seq<Uid>, t: nat, carry: bool)
    requires Sized(turns, |uids|) && 1 <= t <= |turns|
    ensures var blocks: seq<seq<Row<D, P>>> := Episodes(turns, uids, t, carry);
      && BlockPerUid(blocks, uids)
      && forall i :: 0 <= i < |blocks| ==> forall k :: 0 <= k < |blocks[i]| ==> blocks[i][k].record.active
  {
    hide EpisodeRows, StillActive, Sized;
    forall i | 0 <= i < |uids|
      ensures forall k :: 0 <= k < |Episodes(turns, uids, t, carry)[i]| ==>
        var row := Episodes(turns, uids, t, carry)[i][k]; row.record.active && row.record.trajUid == uids[i]
    {
      EpisodeColumns(turns, uids, t, carry, i);
    }
  }

  // A trajectory of known rewards gets their returns, the first of which is, undiscounted, their sum.
  lemma OwnReturns<K>(result: seq<real>, rewards: seq<real>, uids: seq<K>, gamma: real, u: K, own: seq<real>)
    requires |rewards| == |uids| && StepReturns(result, rewards, uids, gamma)
    requires Own(uids, rewards, u) == own && own != []
    ensures |result| == |uids| && Own(uids, result, u) == ReturnsOf(own, gamma) != []
    ensures gamma == 1.0 ==> Own(uids, result, u)[0] == RealSum(own)
  {
    hide Where, Own;
    OwnPresent(uids, rewards, u);
    assert own[0..] == own;
    Undiscounted(own);
  }

  // On a gathered batch the inactive-step assertion holds, and each episode gets the discounted
  // returns of the rewards it earned; undiscounted, its first row gets the episode's reward.
  lemma GatheredReturns<D, P>(turns: seq<Turn<D, P>>, uids: seq<Uid>, t: nat, carry: bool,
                              result: seq<real>, gamma: real, i: nat)
    requires Sized(turns, |uids|) && 1 <= t <= |turns| && Distinct(uids) && i < |uids|
    requires var batch := Flatten(Episodes(turns, uids, t, carry));
      StepReturns(result, RowRewards(batch), RowUids(batch), gamma)
    ensures var batch := Flatten(Episodes(turns, uids, t, carry));
      && (forall k :: 0 <= k < |batch| ==> RowActive(batch)[k])
      && var own := Own(RowUids(batch), result, uids[i]);
         && own == ReturnsOf(RewardsOf(turns, |uids|, i, EpisodeLength(turns, |uids|, i, t)), gamma)
         && own != [] && (gamma == 1.0 ==> own[0] == EpisodeReward(turns, |uids|, i, t))
  {
    hide Where, Own, EpisodeRows, StillActive, Flatten, Sized, BlockPerUid, Distinct, StepReturns, ReturnsOf,
      RewardsOf, RealSum;
    var blocks: seq<seq<Row<D, P>>> := Episodes(turns, uids, t, carry);
    var batch := Flatten(blocks);
    EpisodeBlocks(turns, uids, t, carry);
    ActiveBlocks(blocks);
    OwnBlock(blocks, uids, i);
    EpisodeColumns(turns, uids, t, carry, i);
    OwnReturns(result, RowRewards(batch), RowUids(batch), gamma, uids[i],
               RewardsOf(turns, |uids|, i, EpisodeLength(turns, |uids|, i, t)));
  }
}
