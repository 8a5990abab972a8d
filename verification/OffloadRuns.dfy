/**
 Whole runs of the activation offloader.

 A run alternates a forward pass (pushes and one forward commit per layer) with a backward
 pass (one backward commit per layer, after which that layer's tensors, or those of later
 layers, may be popped in any order).  `Inv` holds in every reachable state; it implies that
 no assertion and no dictionary lookup of the handler can fail, that every pop returns what
 was pushed, and that the handler ends each iteration in the state it began it in.
 */
module OffloadRuns {
  import opened Wrappers
  import opened OffloadState

  // `pushed` remembers every tensor tagged in this iteration.
  datatype Run = Run(h: State, forward: bool, pushed: map<Tag, Tensor>)

  datatype Action = Push(tensor: Tensor) | CommitF | CommitB | Pop(tag: Tag) | NextIteration

  // Group g is copied to the host only once all of it has been pushed.
  predicate Departs(s: State, g: nat)
    requires g == 0 || g - 1 < |s.window|
  {
    g == 0 || s.window[g - 1] >= g
  }

  // All that the runs need to know about the window map.
  ghost predicate Scheduled(s: State) {
    && 1 <= s.groups <= s.layers
    && |s.window| == s.groups
    && (forall i: nat :: i < s.groups ==> i <= s.window[i] < s.layers)
    && (forall i: nat, j: nat :: i < j < s.groups ==> s.window[i] < s.window[j])
    && s.window[s.groups - 1] == s.layers - 1
  }

  lemma WindowSchedules(s: State)
    requires WindowOk(s)
    ensures Scheduled(s)
  {
    WindowShape(s.groups, s.layers);
  }

  // Tensors that share an address and travel in the same group hold the same elements.
  ghost predicate Consistent(r: Run)
    requires Scheduled(r.h)
  {
    forall a, b :: a in r.pushed && b in r.pushed && a.group == b.group && a.group < r.h.groups && Departs(r.h, a.group)
      && r.pushed[a].key == r.pushed[b].key
      ==> r.pushed[a].data == r.pushed[b].data
  }

  // ----- the invariant -----

  ghost predicate Shape(r: Run) {
    var s := r.h;
    && Scheduled(s)
    && 0 <= s.current <= s.layers
    && s.table.Keys <= r.pushed.Keys
    && (forall tag :: tag in s.buffer <==> tag in s.table && tag.group < s.groups)
  }

  // The groups released so far are those whose window lies behind the current layer.
  ghost predicate ReleasedOnTime(s: State)
    requires Scheduled(s)
  {
    && s.offloadedCount <= s.groups
    && (s.offloadedCount > 0 ==> s.window[s.offloadedCount - 1] < s.current)
    && (s.offloadedCount < s.groups ==> s.current <= s.window[s.offloadedCount])
  }

  ghost predicate BufferInv(r: Run)
    requires Shape(r) && r.h.table.Keys == r.pushed.Keys
  {
    forall tag :: tag in r.h.buffer ==>
      r.h.buffer[tag] == if tag.group < r.h.offloadedCount then None else Some(r.pushed[tag])
  }

  ghost predicate ForwardInv(r: Run)
    requires Shape(r)
  {
    var s := r.h;
    && s.table.Keys == r.pushed.Keys
    && (forall tag :: tag in s.table ==> tag.group <= s.current && tag.group < s.layers)
    && (forall tag :: tag in s.table && tag.group == s.current ==> tag.index < s.pushCount)
    && (s.current == s.layers ==> s.pushCount == 0)
    && ReleasedOnTime(s)
    && (forall g: nat :: g in s.copies <==> s.current > 0 && g < s.groups && g <= s.offloadedCount)
    && BufferInv(r)
  }

  // The host holds exactly the groups whose window lies before the current layer.
  ghost predicate BackwardFields(s: State) {
    && s.pushCount == 0
    && (forall g: nat :: g in s.copies <==> g < |s.window| && s.window[g] < s.current)
    && (forall tag :: tag in s.buffer ==> s.buffer[tag] == None)
  }

  // The counter points just past the last group still on the host, or past the first group.
  ghost predicate ReloadsDue(s: State)
    requires Scheduled(s)
  {
    && 1 <= s.offloadedCount <= s.groups
    && (s.offloadedCount < s.groups ==> s.current <= s.window[s.offloadedCount])
    && (s.offloadedCount > 1 ==> s.window[s.offloadedCount - 1] < s.current)
  }

  ghost predicate BackwardInv(r: Run)
    requires Shape(r)
  {
    var s := r.h;
    && s.current < s.layers
    && BackwardFields(s)
    && (if s.current == 0 then s.offloadedCount == 0 else ReloadsDue(s))
  }

  ghost predicate CopiedFromGroup(r: Run, g: nat, key: Key)
    requires g in r.h.copies && key in r.h.copies[g]
  {
    exists src :: src in r.pushed && src.group == g && r.pushed[src].key == key && r.h.copies[g][key] == r.pushed[src]
  }

  // Which entries are on the host, and whose contents their copies hold.
  ghost predicate EntryOk(r: Run, tag: Tag)
    requires Shape(r) && tag in r.h.table
  {
    var s := r.h;
    var t := r.pushed[tag];
    match s.table[tag]
    case OnDevice(u) =>
      && SameContents(u, t)
      && (r.forward ==> u == t)
      && !(tag.group < s.groups && tag.group in s.copies && Departs(s, tag.group))
    case Offloaded(key, shape) =>
      && tag.group < s.groups && tag.group in s.copies && Departs(s, tag.group)
      && key == t.key && shape == t.shape
      && key in s.copies[tag.group]
      && CopiedFromGroup(r, tag.group, key)
  }

  ghost predicate Entries(r: Run)
    requires Shape(r)
  {
    forall tag :: tag in r.h.table ==> EntryOk(r, tag)
  }

  ghost predicate AllWellFormed(r: Run) {
    forall tag :: tag in r.pushed ==> WellFormed(r.pushed[tag])
  }

  ghost predicate Core(r: Run) {
    && Shape(r)
    && AllWellFormed(r)
    && (if r.forward then ForwardInv(r) else BackwardInv(r))
    && Entries(r)
  }

  ghost predicate Inv(r: Run) {
    Core(r) && Consistent(r)
  }

  // ----- what autograd may do next -----

  ghost predicate Legal(r: Run, a: Action) {
    match a
    case Push(t) =>
      && r.forward && r.h.current < r.h.layers && WellFormed(t)
      && (Scheduled(r.h) && r.h.current < r.h.groups && Departs(r.h, r.h.current) ==>
            forall tag :: tag in r.pushed && tag.group == r.h.current && r.pushed[tag].key == t.key
              ==> r.pushed[tag].data == t.data)
    case CommitF => r.forward && r.h.current < r.h.layers
    case CommitB => if r.forward then r.h.current == r.h.layers else r.h.current > 0
    case Pop(tag) => !r.forward && tag in r.h.table && tag.group >= r.h.current
    case NextIteration => !r.forward && r.h.current == 0 && r.h.table == map[]
  }

  // The assertions and lookups on the handler's path for this action all succeed.
  ghost predicate Enabled(r: Run, a: Action) {
    match a
    case Push(t) => CanPush(r.h)
    case CommitF => CanCommitForward(r.h)
    case CommitB => CanCommitBackward(r.h)
    case Pop(tag) => CanPop(r.h, tag)
    case NextIteration => true
  }

  function Pushed(r: Run, t: Tensor): Run {
    Run(PushTagged(r.h, t), r.forward, r.pushed[Tag(r.h.current, r.h.pushCount) := t])
  }

  ghost predicate Next(r: Run, a: Action, r': Run)
    requires Enabled(r, a)
  {
    match a
    case Push(t) => r' == Pushed(r, t)
    case CommitF => r' == Run(r'.h, true, r.pushed) && CommitForward(r.h, r'.h)
    case CommitB => r' == Run(r'.h, false, r.pushed) && CommitBackward(r.h, r'.h)
    case Pop(tag) => r' == r.(h := PopTagged(r.h, tag))
    case NextIteration => r' == Run(r.h, true, map[])
  }

  // ----- the proof -----

  lemma StartInv(s: State)
    requires WindowOk(s) && AtRest(s)
    ensures Inv(Run(s, true, map[]))
  {
    WindowSchedules(s);
  }

  lemma PushBuffer(r: Run, t: Tensor)
    requires Shape(r) && r.forward && ForwardInv(r) && CanPush(r.h)
    requires Shape(Pushed(r, t)) && Pushed(r, t).h.table.Keys == Pushed(r, t).pushed.Keys
    ensures BufferInv(Pushed(r, t))
  {
    assert r.h.current >= r.h.offloadedCount by {
      if r.h.offloadedCount > 0 {
        assert r.h.window[r.h.offloadedCount - 1] >= r.h.offloadedCount - 1;
      }
    }
  }

  lemma PushShape(r: Run, t: Tensor)
    requires Shape(r) && CanPush(r.h)
    ensures Shape(Pushed(r, t))
  {
  }

  lemma PushInv(r: Run, t: Tensor)
    requires Shape(r) && r.forward && ForwardInv(r)
    requires r.h.current < r.h.layers && CanPush(r.h)
    ensures Shape(Pushed(r, t)) && ForwardInv(Pushed(r, t))
  {
    hide Shape, Scheduled, BufferInv, CanPush;
    PushShape(r, t);
    PushBuffer(r, t);
  }

  // The group being pushed is not on the host, unless it left before it had any tensor.
  lemma PushedGroupHere(r: Run)
    requires Shape(r) && r.forward && ForwardInv(r) && r.h.current < r.h.groups
    ensures r.h.current in r.h.copies ==> !Departs(r.h, r.h.current)
  {
    var s := r.h;
    if 0 < s.current <= s.offloadedCount {
      assert s.window[s.current - 1] <= s.window[s.offloadedCount - 1];
    }
  }

  // A host copy stays a copy of the same pushed tensor while both are left alone.
  lemma SourceKept(r: Run, r': Run, g: nat, key: Key)
    requires g in r.h.copies && key in r.h.copies[g] && CopiedFromGroup(r, g, key)
    requires g in r'.h.copies && r'.h.copies[g] == r.h.copies[g]
    requires forall src :: src in r.pushed ==> src in r'.pushed && r'.pushed[src] == r.pushed[src]
    ensures CopiedFromGroup(r', g, key)
  {
    var src :| src in r.pushed && src.group == g && r.pushed[src].key == key && r.h.copies[g][key] == r.pushed[src];
    assert r'.pushed[src] == r.pushed[src];
  }

  lemma PushEntry(r: Run, t: Tensor, tag: Tag)
    requires Shape(r) && CanPush(r.h) && Shape(Pushed(r, t)) && tag in Pushed(r, t).h.table
    requires r.h.current < r.h.groups && r.h.current in r.h.copies ==> !Departs(r.h, r.h.current)
    requires Tag(r.h.current, r.h.pushCount) !in r.pushed
    requires tag in r.h.table ==> EntryOk(r, tag)
    ensures EntryOk(Pushed(r, t), tag)
  {
    if tag != Tag(r.h.current, r.h.pushCount) && r.h.table[tag].Offloaded? {
      SourceKept(r, Pushed(r, t), tag.group, r.h.table[tag].key);
    }
  }

  lemma PushConsistent(r: Run, t: Tensor)
    requires Shape(r) && Consistent(r) && Legal(r, Push(t)) && CanPush(r.h)
    requires Shape(Pushed(r, t))
    ensures Consistent(Pushed(r, t))
  {
    var fresh', r' := Tag(r.h.current, r.h.pushCount), Pushed(r, t);
    forall a, b | a in r'.pushed && b in r'.pushed && a.group == b.group && a.group < r.h.groups
        && Departs(r.h, a.group)
                  && r'.pushed[a].key == r'.pushed[b].key
      ensures r'.pushed[a].data == r'.pushed[b].data
    {
      if a != fresh' && b != fresh' {
        assert r'.pushed[a] == r.pushed[a] && r'.pushed[b] == r.pushed[b];
      } else if a != fresh' {
        assert r'.pushed[a] == r.pushed[a];
      } else if b != fresh' {
        assert r'.pushed[b] == r.pushed[b];
      }
    }
  }

  lemma PushCore(r: Run, t: Tensor)
    requires Core(r) && r.forward && r.h.current < r.h.layers && WellFormed(t) && CanPush(r.h)
    ensures Core(Pushed(r, t))
  {
    PushInv(r, t);
    if r.h.current < r.h.groups {
      PushedGroupHere(r);
    }
    forall tag | tag in Pushed(r, t).h.table
      ensures EntryOk(Pushed(r, t), tag)
    {
      PushEntry(r, t, tag);
    }
  }

  lemma PushStep(r: Run, t: Tensor)
    requires Inv(r) && Legal(r, Push(t)) && CanPush(r.h)
    ensures Inv(Pushed(r, t))
  {
    PushCore(r, t);
    PushConsistent(r, t);
  }

  lemma PushEnabled(r: Run, t: Tensor)
    requires Core(r) && Legal(r, Push(t))
    ensures Enabled(r, Push(t))
  {
  }

  lemma CommitFEnabled(r: Run)
    requires Core(r) && Legal(r, CommitF)
    ensures Enabled(r, CommitF)
  {
    var s := r.h;
    assert s.offloadedCount < s.groups;
    forall tag | tag in s.table && tag.group in Departing(s)
      ensures s.table[tag].OnDevice?
    {
      assert EntryOk(r, tag);
    }
  }

  lemma CommitFRelease(s: State, h': State)
    requires Scheduled(s) && ReleasedOnTime(s) && s.current < s.layers
    requires ForwardCounters(s, h')
    ensures s.offloadedCount < s.groups
    ensures Scheduled(h') && ReleasedOnTime(h')
  {
  }

  lemma CommitFBuffer(r: Run, h': State)
    requires Shape(r) && r.h.table.Keys == r.pushed.Keys && BufferInv(r)
    requires r.h.offloadedCount < |r.h.window|
    requires ForwardCounters(r.h, h') && ForwardBuffer(r.h, h')
    requires Shape(r.(h := h')) && h'.table.Keys == r.pushed.Keys
    ensures BufferInv(r.(h := h'))
  {
  }

  lemma CommitFCopies(s: State, h': State)
    requires Scheduled(s) && ReleasedOnTime(s) && 0 <= s.current < s.layers
    requires CanCommitForward(s) && ForwardCounters(s, h') && ForwardCopies(s, h')
    requires forall g: nat :: g in s.copies <==> s.current > 0 && g < s.groups && g <= s.offloadedCount
    ensures forall g: nat :: g in h'.copies <==> g < s.groups && g <= h'.offloadedCount
  {
    assert s.current == 0 ==> s.offloadedCount == 0 && s.copies.Keys == {};
    forall g: nat
      ensures g in h'.copies <==> g < s.groups && g <= h'.offloadedCount
    {
      assert g in h'.copies.Keys <==> g in s.copies || g in Departing(s);
    }
  }

  lemma CommitFInv(r: Run, h': State)
    requires Shape(r) && r.forward && ForwardInv(r) && r.h.current < r.h.layers
    requires CanCommitForward(r.h) && CommitForward(r.h, h')
    ensures Shape(r.(h := h')) && ForwardInv(r.(h := h'))
  {
    CommitFRelease(r.h, h');
    CommitFCopies(r.h, h');
    CommitFBuffer(r, h');
  }

  lemma CopyHasSource(r: Run, h': State, tag: Tag)
    requires Shape(r) && r.forward && r.h.table.Keys == r.pushed.Keys && Entries(r)
    requires CanCommitForward(r.h)
    requires tag in r.h.table && tag.group in Departing(r.h)
    requires tag.group in h'.copies && IsCopySet(r.h.table, tag.group, h'.copies[tag.group])
    ensures r.h.table[tag] == OnDevice(r.pushed[tag])
    ensures r.pushed[tag].key in h'.copies[tag.group]
    ensures CopiedFromGroup(r.(h := h'), tag.group, r.pushed[tag].key)
  {
    var s, g, key := r.h, tag.group, r.pushed[tag].key;
    assert EntryOk(r, tag);
    assert s.table[tag].tensor.key == key;
    var src :| src in s.table && src.group == g && s.table[src].tensor.key == key
               && s.table[src].tensor == h'.copies[g][key];
    assert EntryOk(r, src);
  }

  lemma DepartedEntry(r: Run, h': State, tag: Tag)
    requires Shape(r) && r.h.offloadedCount < r.h.groups && ForwardCounters(r.h, h') && ForwardTable(r.h, h')
    requires Shape(r.(h := h')) && tag in r.h.table && tag.group in Departing(r.h) && tag.group <= r.h.current
    requires r.h.table[tag] == OnDevice(r.pushed[tag])
    requires tag.group in h'.copies && r.pushed[tag].key in h'.copies[tag.group]
    requires CopiedFromGroup(r.(h := h'), tag.group, r.pushed[tag].key)
    ensures EntryOk(r.(h := h'), tag)
  {
  }

  lemma StayingEntry(r: Run, h': State, tag: Tag)
    requires Shape(r) && r.forward && tag in r.h.table && EntryOk(r, tag)
    requires CanCommitForward(r.h) && ForwardCounters(r.h, h') && ForwardTable(r.h, h') && ForwardCopies(r.h, h')
    requires Shape(r.(h := h')) && tag.group !in Departing(r.h)
    ensures EntryOk(r.(h := h'), tag)
  {
    if r.h.table[tag].Offloaded? {
      SourceKept(r, r.(h := h'), tag.group, r.h.table[tag].key);
    }
  }

  lemma CommitFEntry(r: Run, h': State, tag: Tag)
    requires Shape(r) && r.forward && r.h.table.Keys == r.pushed.Keys && Entries(r)
    requires CanCommitForward(r.h) && CommitForward(r.h, h')
    requires Shape(r.(h := h')) && tag in r.h.table && tag.group <= r.h.current
    ensures EntryOk(r.(h := h'), tag)
  {
    var s, g := r.h, tag.group;
    assert EntryOk(r, tag);
    if g in Departing(s) {
      assert g in h'.copies.Keys;
      CopyHasSource(r, h', tag);
      DepartedEntry(r, h', tag);
    } else {
      StayingEntry(r, h', tag);
    }
  }

  lemma CommitFStep(r: Run, h': State)
    requires Core(r) && r.forward && r.h.current < r.h.layers
    requires CanCommitForward(r.h) && CommitForward(r.h, h')
    ensures Core(r.(h := h'))
  {
    CommitFInv(r, h');
    forall tag | tag in h'.table
      ensures EntryOk(r.(h := h'), tag)
    {
      CommitFEntry(r, h', tag);
    }
  }

  ghost predicate Restorable(r: Run, tag: Tag)
    requires tag in r.h.table && tag in r.pushed
  {
    match r.h.table[tag]
    case OnDevice(u) => SameContents(u, r.pushed[tag])
    case Offloaded(key, shape) =>
      && tag.group in r.h.copies && key in r.h.copies[tag.group]
      && |r.h.copies[tag.group][key].data| == Numel(shape)
      && shape == r.pushed[tag].shape
      && r.h.copies[tag.group][key].data == r.pushed[tag].data
  }

  // What a reload of this entry would put back is what was pushed.
  lemma EntryRestores(r: Run, tag: Tag)
    requires Inv(r) && tag in r.h.table
    ensures Restorable(r, tag)
  {
    assert EntryOk(r, tag);
    if r.h.table[tag].Offloaded? {
      var src :| src in r.pushed && src.group == tag.group && r.pushed[src].key == r.h.table[tag].key
                 && r.h.copies[tag.group][r.h.table[tag].key] == r.pushed[src];
      assert r.pushed[src].data == r.pushed[tag].data;
    }
  }

  lemma CanReloadLast(r: Run, g: nat)
    requires Inv(r) && g in r.h.copies && g < r.h.groups
    ensures CanReload(r.h, g)
  {
    var s := r.h;
    forall tag | tag in s.table && tag.group == g && s.table[tag].Offloaded?
      ensures s.table[tag].key in s.copies[g] && |s.copies[g][s.table[tag].key].data| == Numel(s.table[tag].shape)
    {
      EntryRestores(r, tag);
    }
  }

  // Turning round: a finished forward pass already looks like a backward pass about to start.
  lemma ForwardDone(r: Run)
    requires Shape(r) && ForwardInv(r) && r.h.current == r.h.layers
    ensures ReloadsDue(r.h) && BackwardFields(r.h)
  {
  }

  lemma CommitBDue(r: Run)
    requires Core(r) && Legal(r, CommitB)
    ensures 1 <= r.h.current && ReloadsDue(r.h) && BackwardFields(r.h)
  {
    if r.forward {
      ForwardDone(r);
    }
  }

  lemma CommitBEnabled(r: Run)
    requires Inv(r) && Legal(r, CommitB)
    ensures Enabled(r, CommitB)
  {
    CommitBDue(r);
    if Restores(r.h) {
      CanReloadLast(r, r.h.offloadedCount - 1);
    }
  }

  lemma CommitBShape(r: Run, h': State)
    requires Shape(r) && 1 <= r.h.current && CanCommitBackward(r.h) && CommitBackward(r.h, h')
    ensures Shape(Run(h', false, r.pushed)) && h'.current == r.h.current - 1 < r.h.layers
  {
  }

  // The only window that can lie just before the current layer is that of the group due next.
  lemma LastDue(s: State, g: nat)
    requires Scheduled(s) && 1 <= s.current && ReloadsDue(s) && g < s.groups
    ensures s.window[g] == s.current - 1 <==> Restores(s) && g == s.offloadedCount - 1
  {
    var last := s.offloadedCount - 1;
    if g < last {
      assert s.window[g] < s.window[last];
    } else if last < g {
      assert s.window[last] < s.window[g];
      assert last + 1 < g ==> s.window[last + 1] < s.window[g];
    }
  }

  lemma CommitBCopies(s: State, h': State)
    requires Scheduled(s) && 1 <= s.current && ReloadsDue(s) && BackwardFields(s)
    requires BackwardCounters(s, h')
    ensures BackwardFields(h')
  {
    forall g: nat | g < s.groups
      ensures s.window[g] < s.current - 1 <==> s.window[g] < s.current && !(Restores(s) && g == s.offloadedCount - 1)
    {
      LastDue(s, g);
    }
  }

  lemma CommitBCount(s: State, h': State)
    requires Scheduled(s) && 1 < s.current <= s.layers && ReloadsDue(s)
    requires BackwardCounters(s, h')
    ensures Scheduled(h') && ReloadsDue(h')
  {
  }

  lemma CommitBInv(r: Run, h': State)
    requires Shape(r) && 1 <= r.h.current && ReloadsDue(r.h) && BackwardFields(r.h)
    requires CanCommitBackward(r.h) && CommitBackward(r.h, h')
    ensures Shape(Run(h', false, r.pushed)) && BackwardInv(Run(h', false, r.pushed))
  {
    CommitBShape(r, h');
    hide Shape, Scheduled, ReloadsDue, BackwardFields, BackwardTable;
    CommitBCopies(r.h, h');
    if r.h.current > 1 {
      CommitBCount(r.h, h');
    }
  }

  lemma CommitBEntry(r: Run, h': State, tag: Tag)
    requires Shape(r) && CanCommitBackward(r.h) && CommitBackward(r.h, h')
    requires Shape(Run(h', false, r.pushed)) && tag in h'.table
    requires EntryOk(r, tag) && Restorable(r, tag)
    ensures EntryOk(Run(h', false, r.pushed), tag)
  {
    if h'.table[tag].Offloaded? {
      SourceKept(r, Run(h', false, r.pushed), tag.group, r.h.table[tag].key);
    }
  }

  lemma StillWellFormed(r: Run, r': Run)
    requires AllWellFormed(r) && r'.pushed == r.pushed
    ensures AllWellFormed(r')
  {
  }

  // Consistency is a matter of the tensors pushed and of the window map.
  lemma StillConsistent(r: Run, r': Run)
    requires Scheduled(r.h) && Scheduled(r'.h) && Consistent(r)
    requires r'.pushed == r.pushed && r'.h.groups == r.h.groups && r'.h.window == r.h.window
    ensures Consistent(r')
  {
  }

  lemma CommitBStep(r: Run, h': State)
    requires Inv(r) && Legal(r, CommitB)
    requires CanCommitBackward(r.h) && CommitBackward(r.h, h')
    ensures Inv(Run(h', false, r.pushed))
  {
    hide Scheduled, ForwardInv, BackwardInv, AllWellFormed, EntryOk, Restorable, BackwardFields, ReloadsDue, CanReload;
    CommitBDue(r);
    CommitBInv(r, h');
    forall tag | tag in h'.table
      ensures EntryOk(Run(h', false, r.pushed), tag)
    {
      EntryRestores(r, tag);
      CommitBEntry(r, h', tag);
    }
    StillConsistent(r, Run(h', false, r.pushed));
    StillWellFormed(r, Run(h', false, r.pushed));
  }

  lemma PopEnabled(r: Run, tag: Tag)
    requires Inv(r) && Legal(r, Pop(tag))
    ensures Enabled(r, Pop(tag)) && tag in r.pushed
    ensures SameContents(r.h.table[tag].tensor, r.pushed[tag])
  {
    assert EntryOk(r, tag);
  }

  lemma PopEntry(r: Run, tag: Tag, other: Tag)
    requires Shape(r) && CanPop(r.h, tag)
    requires Shape(r.(h := PopTagged(r.h, tag))) && other in r.h.table && other != tag
    requires EntryOk(r, other)
    ensures EntryOk(r.(h := PopTagged(r.h, tag)), other)
  {
    if r.h.table[other].Offloaded? {
      SourceKept(r, r.(h := PopTagged(r.h, tag)), other.group, r.h.table[other].key);
    }
  }

  lemma PopShape(r: Run, tag: Tag)
    requires Shape(r) && CanPop(r.h, tag)
    ensures Shape(r.(h := PopTagged(r.h, tag)))
  {
    var h' := PopTagged(r.h, tag);
    assert h'.table.Keys == r.h.table.Keys - {tag} && h'.buffer.Keys == r.h.buffer.Keys - {tag};
    assert Scheduled(h');
  }

  lemma PopFields(s: State, tag: Tag)
    requires BackwardFields(s) && CanPop(s, tag)
    ensures BackwardFields(PopTagged(s, tag))
  {
  }

  lemma PopInv(r: Run, tag: Tag)
    requires Shape(r) && !r.forward && BackwardInv(r) && CanPop(r.h, tag)
    ensures Shape(r.(h := PopTagged(r.h, tag))) && BackwardInv(r.(h := PopTagged(r.h, tag)))
  {
    hide Shape, Scheduled, BackwardFields;
    PopShape(r, tag);
    PopFields(r.h, tag);
  }

  lemma PopStep(r: Run, tag: Tag)
    requires Inv(r) && !r.forward && CanPop(r.h, tag)
    ensures Inv(r.(h := PopTagged(r.h, tag)))
  {
    PopInv(r, tag);
    forall other | other in PopTagged(r.h, tag).table
      ensures EntryOk(r.(h := PopTagged(r.h, tag)), other)
    {
      PopEntry(r, tag, other);
    }
  }

  lemma AllCopied(r: Run)
    requires Inv(r) && r.forward && r.h.current == r.h.layers
    ensures 1 <= r.h.groups == |r.h.window|
    ensures forall g: nat :: g < r.h.groups ==> g in r.h.copies
  {
    hide EntryOk, Consistent, BufferInv;
  }

  lemma EntryAt(r: Run, tag: Tag)
    requires Inv(r) && tag in r.h.table
    ensures Shape(r) && EntryOk(r, tag)
  {
    hide EntryOk, Consistent, BufferInv, ReleasedOnTime, Scheduled;
  }

  lemma HostEntry(r: Run, tag: Tag)
    requires Shape(r) && tag in r.h.table && EntryOk(r, tag)
    requires tag.group < r.h.groups ==> tag.group in r.h.copies
    ensures r.h.groups == |r.h.window|
    ensures r.h.table[tag].Offloaded? <==>
              tag.group < r.h.groups && (tag.group == 0 || r.h.window[tag.group - 1] >= tag.group)
  {
    hide SameContents, CopiedFromGroup;
  }

  // After the forward pass the tensors on the host are exactly those of the groups that leave the
  // device: a group whose predecessor is released before its own layer departs empty.
  lemma OnHostExactly(r: Run, tag: Tag)
    requires Inv(r) && r.forward && r.h.current == r.h.layers && tag in r.h.table
    ensures 1 <= r.h.groups == |r.h.window|
    ensures r.h.table[tag].Offloaded? <==>
              tag.group < r.h.groups && (tag.group == 0 || r.h.window[tag.group - 1] >= tag.group)
  {
    hide Inv, Shape, EntryOk;
    AllCopied(r);
    EntryAt(r, tag);
    HostEntry(r, tag);
  }

  // An iteration that has popped everything leaves the handler exactly as it found it.
  lemma EndsAtRest(r: Run)
    requires Inv(r) && Legal(r, NextIteration)
    ensures AtRest(r.h)
  {
    assert r.h.copies.Keys == {};
    assert r.h.buffer.Keys == {};
  }

  // ----- main results -----

  // One step: whatever autograd does next, the handler can do it and stays consistent.
  lemma StepSafe(r: Run, a: Action)
    requires Inv(r) && Legal(r, a)
    ensures Enabled(r, a)
    ensures a.Pop? ==> r.h.table[a.tag].tensor.shape == r.pushed[a.tag].shape
    ensures a.Pop? ==> r.h.table[a.tag].tensor.data == r.pushed[a.tag].data
    ensures a.NextIteration? ==> AtRest(r.h)
    ensures forall r' :: Next(r, a, r') ==> Inv(r')
  {
    match a
    case Push(t) =>
      PushEnabled(r, t);
      forall r' | Next(r, a, r') ensures Inv(r') { PushStep(r, t); }
    case CommitF =>
      CommitFEnabled(r);
      forall r' | Next(r, a, r') ensures Inv(r') { CommitFStep(r, r'.h); }
    case CommitB =>
      CommitBEnabled(r);
      forall r' | Next(r, a, r') ensures Inv(r') { CommitBStep(r, r'.h); }
    case Pop(tag) =>
      PopEnabled(r, tag);
      forall r' | Next(r, a, r') ensures Inv(r') { PopStep(r, tag); }
    case NextIteration =>
      EndsAtRest(r);
      forall r' | Next(r, a, r') ensures Inv(r') { }
  }

  ghost predicate IsTrace(runs: seq<Run>, actions: seq<Action>) {
    && |runs| == |actions| + 1
    && WindowOk(runs[0].h) && AtRest(runs[0].h) && runs[0].forward && runs[0].pushed == map[]
    && forall i :: 0 <= i < |actions| ==>
         Legal(runs[i], actions[i]) && (Enabled(runs[i], actions[i]) ==> Next(runs[i], actions[i], runs[i + 1]))
  }

  // Every run, of any length and over any number of iterations.
  lemma {:induction false} TraceSafe(runs: seq<Run>, actions: seq<Action>, i: nat)
    requires IsTrace(runs, actions) && i < |runs|
    ensures Inv(runs[i])
    ensures i < |actions| ==> Enabled(runs[i], actions[i])
    ensures i < |actions| && actions[i].Pop? ==>
              var saved, entry := runs[i].pushed[actions[i].tag], runs[i].h.table[actions[i].tag];
              entry.tensor.shape == saved.shape && entry.tensor.data == saved.data
    ensures i < |actions| && actions[i].NextIteration? ==> AtRest(runs[i].h)
  {
    if i == 0 {
      StartInv(runs[0].h);
    } else {
      TraceSafe(runs, actions, i - 1);
      StepSafe(runs[i - 1], actions[i - 1]);
    }
    if i < |actions| {
      StepSafe(runs[i], actions[i]);
    }
  }
}
