/**
 How much the offloader keeps on the device, and exactly when it gives back what it took.
 */
module OffloadMemory {
  import opened Wrappers
  import opened OffloadState
  import opened OffloadRuns

  ghost predicate HeldOnDevice(s: State, tag: Tag) {
    || (tag in s.table && s.table[tag].OnDevice?)
    || (tag in s.buffer && s.buffer[tag].Some?)
  }

  // Some tensor of group g occupies device memory, through either dictionary.
  ghost predicate Resident(s: State, g: nat) {
    exists tag: Tag :: tag.group == g && HeldOnDevice(s, tag)
  }

  // The configuration that is used: one group fewer than layers.
  ghost predicate Used(s: State) {
    2 <= s.layers && s.groups == s.layers - 1 && WindowOk(s)
  }

  lemma UsedWindow(s: State)
    requires Used(s)
    ensures forall i: nat :: i < s.groups ==> s.window[i] == i + 1
  {
    var n := s.groups;
    if n == 1 {
      assert s.layers / n == 2 && s.layers % n == 0;
    } else {
      assert s.layers / n == 1 && s.layers % n == 1;
    }
    forall i: nat | i < n
      ensures Window(n, s.layers, i) == i + 1
    {
      if n > 1 {
        assert (s.layers / n) * (i + 1) == i + 1;
      }
    }
  }

  // No group is copied to the host before its last tensor was pushed: tensors are only ever
  // pushed into the current group, and the departing group is not a later one.
  lemma DepartsComplete(r: Run, g: nat)
    requires Inv(r) && WindowOk(r.h) && r.h.groups < r.h.layers
    requires Legal(r, CommitF) && CanCommitForward(r.h) && g in Departing(r.h)
    ensures g <= r.h.current
  {
    WindowLeavesTime(r.h.groups, r.h.layers);
  }

  // With fewer groups than layers every host copy is of a group that is behind the current
  // layer, so no later push adds to it.
  lemma CopiedComplete(r: Run)
    requires Inv(r) && WindowOk(r.h) && r.forward
    requires r.h.groups < r.h.layers || r.h.groups == 1
    ensures forall g :: g in r.h.copies ==> g < r.h.current
    ensures forall t :: Legal(r, Push(t)) ==> Tag(r.h.current, r.h.pushCount).group !in r.h.copies
  {
    var s := r.h;
    WindowLeavesTime(s.groups, s.layers);
    forall g | g in s.copies
      ensures g < s.current
    {
      if g > 0 {
        assert s.window[g - 1] <= s.window[s.offloadedCount - 1];
      }
    }
  }

  // A layer's backward pass is over, with all its tensors popped, before the next one starts.
  ghost predicate Orderly(r: Run) {
    forall tag :: tag in r.h.table ==> tag.group <= r.h.current
  }

  ghost predicate OrderlyLegal(r: Run, a: Action) {
    && Legal(r, a)
    && (a.CommitB? ==> forall tag :: tag in r.h.table ==> tag.group < r.h.current)
  }

  lemma ForwardCounter(r: Run)
    requires Shape(r) && r.forward && ForwardInv(r) && Used(r.h) && r.h.current > 0
    ensures r.h.offloadedCount == r.h.current - 1
  {
    UsedWindow(r.h);
  }

  lemma ForwardResident(r: Run, tag: Tag)
    requires Inv(r) && r.forward && Used(r.h) && HeldOnDevice(r.h, tag)
    ensures tag.group == r.h.current - 1 || tag.group == r.h.current
  {
    hide WindowOk, Window, Consistent, AllWellFormed, Scheduled, ReleasedOnTime;
    UsedWindow(r.h);
    assert tag in r.h.table && EntryOk(r, tag);
    if r.h.current > 0 {
      ForwardCounter(r);
    }
  }

  lemma BackwardResident(r: Run, tag: Tag)
    requires Inv(r) && !r.forward && Orderly(r) && Used(r.h) && HeldOnDevice(r.h, tag)
    ensures tag.group == r.h.current - 1 || tag.group == r.h.current
  {
    UsedWindow(r.h);
    assert tag in r.h.table && EntryOk(r, tag);
  }

  // At most two groups are on the device: the current layer's and its predecessor's.
  lemma AtMostTwoResident(r: Run)
    requires Inv(r) && Orderly(r) && Used(r.h)
    ensures forall g: nat :: Resident(r.h, g) ==> g == r.h.current - 1 || g == r.h.current
  {
    forall g: nat | Resident(r.h, g)
      ensures g == r.h.current - 1 || g == r.h.current
    {
      var tag: Tag :| tag.group == g && HeldOnDevice(r.h, tag);
      if r.forward {
        ForwardResident(r, tag);
      } else {
        BackwardResident(r, tag);
      }
    }
  }

  ghost predicate SameConfig(s: State, s': State) {
    s'.groups == s.groups && s'.layers == s.layers && s'.window == s.window
  }

  lemma OrderlyStep(r: Run, a: Action, r': Run)
    requires Inv(r) && Orderly(r) && OrderlyLegal(r, a) && Enabled(r, a) && Next(r, a, r')
    ensures Orderly(r') && SameConfig(r.h, r'.h) && (Used(r.h) ==> Used(r'.h))
  {
    match a
    case Push(t) =>
    case CommitF =>
    case CommitB =>
    case Pop(tag) =>
    case NextIteration =>
  }

  // The bound over whole runs, of any number of iterations.
  lemma {:induction false} TwoGroupsResident(runs: seq<Run>, actions: seq<Action>, i: nat)
    requires IsTrace(runs, actions) && i < |runs| && Used(runs[0].h)
    requires forall j :: 0 <= j < |actions| ==> OrderlyLegal(runs[j], actions[j])
    ensures Inv(runs[i]) && Orderly(runs[i]) && Used(runs[i].h)
    ensures forall g: nat :: Resident(runs[i].h, g) ==> g == runs[i].h.current - 1 || g == runs[i].h.current
  {
    hide Inv, Used;
    TraceSafe(runs, actions, i);
    if i > 0 {
      TwoGroupsResident(runs, actions, i - 1);
      TraceSafe(runs, actions, i - 1);
      OrderlyStep(runs[i - 1], actions[i - 1], runs[i]);
    }
    AtMostTwoResident(runs[i]);
  }

  // ----- exactly when everything is given back -----

  // Two tensors under one key of a departed group share one host copy.
  lemma OneLost(r: Run, a: Tag, b: Tag)
    requires Core(r) && r.forward && r.h.current == r.h.layers
    requires a in r.pushed && b in r.pushed && a.group == b.group && a.group < r.h.groups && Departs(r.h, a.group)
    requires r.pushed[a].key == r.pushed[b].key && r.pushed[a].data != r.pushed[b].data
    ensures !Restorable(r, a) || !Restorable(r, b)
  {
    hide CopiedFromGroup, AllWellFormed, SameContents;
    ForwardDone(r);
    assert a.group in r.h.copies;
    assert EntryOk(r, a) && EntryOk(r, b);
  }

  // Without assuming that equal keys mean equal data: at the end of a forward pass, reloading
  // can restore every pushed tensor if and only if tensors that share a key in a departed
  // group hold the same data.
  lemma RestoredExactly(r: Run)
    requires Core(r) && r.forward && r.h.current == r.h.layers
    ensures (forall tag :: tag in r.pushed ==> Restorable(r, tag)) <==> Consistent(r)
  {
    if Consistent(r) {
      forall tag | tag in r.pushed ensures Restorable(r, tag) { EntryRestores(r, tag); }
    } else {
      var a, b :| a in r.pushed && b in r.pushed && a.group == b.group && a.group < r.h.groups && Departs(r.h, a.group)
                  && r.pushed[a].key == r.pushed[b].key && r.pushed[a].data != r.pushed[b].data;
      OneLost(r, a, b);
    }
  }

  // A matrix and its transpose share address and shape.
  function Matrix(k: Key): Tensor {
    Tensor(k, [2, 2], [1, 2, 3, 4])
  }

  function Transpose(k: Key): Tensor {
    Tensor(k, [2, 2], [1, 3, 2, 4])
  }

  const ONE_LAYER := State(1, 1, [0], 0, 0, map[], map[], 0, map[])

  function BothPushed(k: Key): Run {
    Pushed(Pushed(Run(ONE_LAYER, true, map[]), Matrix(k)), Transpose(k))
  }

  function BothOffloaded(k: Key): State {
    BothPushed(k).h.(current := 1, pushCount := 0, offloadedCount := 1,
                     table := map[Tag(0, 0) := Offloaded(k, [2, 2]), Tag(0, 1) := Offloaded(k, [2, 2])],
                     buffer := map[Tag(0, 0) := None, Tag(0, 1) := None],
                     copies := map[0 := map[k := Matrix(k)]])
  }

  lemma StartCore()
    ensures Core(Run(ONE_LAYER, true, map[]))
  {
    StartInv(ONE_LAYER);
  }

  lemma BothPushedCore(k: Key)
    ensures Core(BothPushed(k))
  {
    hide Core;
    assert Numel([2, 2]) == 2 * Numel([2]) == 4;
    StartCore();
    PushCore(Run(ONE_LAYER, true, map[]), Matrix(k));
    PushCore(Pushed(Run(ONE_LAYER, true, map[]), Matrix(k)), Transpose(k));
  }

  lemma BothPushedState(k: Key)
    ensures BothPushed(k) == Run(State(1, 1, [0], 0, 2,
                                       map[Tag(0, 0) := OnDevice(Matrix(k)), Tag(0, 1) := OnDevice(Transpose(k))],
                                       map[Tag(0, 0) := Some(Matrix(k)), Tag(0, 1) := Some(Transpose(k))],
                                       0, map[]),
                                 true, map[Tag(0, 0) := Matrix(k), Tag(0, 1) := Transpose(k)])
  {
  }

  lemma BothOffloadedNext(k: Key)
    ensures CanCommitForward(BothPushed(k).h) && CommitForward(BothPushed(k).h, BothOffloaded(k))
  {
    BothPushedState(k);
    var s := BothPushed(k).h;
    assert s.table[Tag(0, 0)].tensor == Matrix(k);
    assert IsCopySet(s.table, 0, map[k := Matrix(k)]);
  }

  lemma TransposeWrong(k: Key)
    ensures var r := BothPushed(k).(h := BothOffloaded(k));
            Tag(0, 1) in r.pushed && Tag(0, 1) in r.h.table && !Restorable(r, Tag(0, 1))
  {
    BothPushedState(k);
    assert BothOffloaded(k).copies[0][k].data[1] == 2;
  }

  // Pushing both is legal bookkeeping, but one of the two comes back wrong.
  lemma TransposeLost(k: Key)
    ensures var r := BothPushed(k).(h := BothOffloaded(k));
            && Core(r) && r.forward && r.h.current == r.h.layers
            && exists tag :: tag in r.pushed && !Restorable(r, tag)
  {
    var r := BothPushed(k).(h := BothOffloaded(k));
    BothPushedCore(k);
    BothOffloadedNext(k);
    CommitFStep(BothPushed(k), BothOffloaded(k));
    TransposeWrong(k);
  }
}
