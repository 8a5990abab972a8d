/**
 The double-buffered offload handler itself, and one training iteration driven through it.

 Copies between device and host preserve contents; streams and pinned memory are not modelled.
 */
module OffloadHandler {
  import opened Wrappers
  import opened OffloadState
  import opened OffloadRuns

  // Part way through moving group g off the device: the entries still to do are as they were.
  ghost predicate Moving(before: map<Tag, Saved>, g: nat, todo: set<Tag>, table: map<Tag, Saved>) {
    && table.Keys == before.Keys
    && forall tag :: tag in table ==>
         table[tag] == if tag.group == g && tag !in todo then Evicted(before[tag]) else before[tag]
  }

  ghost predicate CopyOf(before: map<Tag, Saved>, g: nat, key: Key, tensor: Tensor)
    requires OnDeviceIn(before, {g})
  {
    exists tag :: tag in before && tag.group == g && before[tag].tensor.key == key && before[tag].tensor == tensor
  }

  // The host copies made so far: one for every key among the entries that are done.
  ghost predicate CopiesOf(before: map<Tag, Saved>, g: nat, todo: set<Tag>, mapping: map<Key, Tensor>)
    requires OnDeviceIn(before, {g})
  {
    && (forall tag :: tag in before && tag !in todo && tag.group == g ==> before[tag].tensor.key in mapping)
    && (forall key :: key in mapping ==> CopyOf(before, g, key, mapping[key]))
  }

  lemma MovingStarts(table: map<Tag, Saved>, g: nat)
    requires OnDeviceIn(table, {g})
    ensures Moving(table, g, table.Keys, table) && CopiesOf(table, g, table.Keys, map[])
  {
  }

  lemma MovesNext(before: map<Tag, Saved>, g: nat, todo: set<Tag>, table: map<Tag, Saved>, mapping: map<Key, Tensor>,
                  tag: Tag)
    requires OnDeviceIn(before, {g}) && Moving(before, g, todo, table) && CopiesOf(before, g, todo, mapping)
    requires tag in todo && tag in table && tag.group == g
    ensures table[tag].OnDevice?
    ensures var t := table[tag].tensor;
            && Moving(before, g, todo - {tag}, table[tag := Offloaded(t.key, t.shape)])
            && CopiesOf(before, g, todo - {tag}, if t.key in mapping then mapping else mapping[t.key := t])
  {
    assert CopyOf(before, g, table[tag].tensor.key, table[tag].tensor);
  }

  lemma StaysNext(before: map<Tag, Saved>, g: nat, todo: set<Tag>, table: map<Tag, Saved>, mapping: map<Key, Tensor>,
                  tag: Tag)
    requires OnDeviceIn(before, {g}) && Moving(before, g, todo, table) && CopiesOf(before, g, todo, mapping)
    requires tag in todo && tag in table && tag.group != g
    ensures Moving(before, g, todo - {tag}, table) && CopiesOf(before, g, todo - {tag}, mapping)
  {
  }

  lemma AllMoved(before: map<Tag, Saved>, copies: map<nat, map<Key, Tensor>>, g: nat, table: map<Tag, Saved>,
                 mapping: map<Key, Tensor>)
    requires OnDeviceIn(before, {g}) && Moving(before, g, {}, table) && CopiesOf(before, g, {}, mapping)
    ensures TableMoved(before, {g}, table) && CopiesMoved(before, copies, {g}, copies[g := mapping])
  {
    forall key | key in mapping
      ensures exists tag :: tag in before && tag.group == g && before[tag].tensor.key == key
                            && before[tag].tensor == mapping[key]
    {
      assert CopyOf(before, g, key, mapping[key]);
    }
    assert IsCopySet(before, g, mapping);
  }

  lemma NothingMoved(table: map<Tag, Saved>, copies: map<nat, map<Key, Tensor>>)
    ensures TableMoved(table, {}, table) && CopiesMoved(table, copies, {}, copies)
  {
  }

  lemma OnDeviceSubset(table: map<Tag, Saved>, groups: set<nat>, more: set<nat>)
    requires OnDeviceIn(table, more) && groups <= more
    ensures OnDeviceIn(table, groups)
  {
  }

  lemma StillOnDevice(table: map<Tag, Saved>, groups: set<nat>, table': map<Tag, Saved>, more: set<nat>)
    requires TableMoved(table, groups, table') && groups !! more && OnDeviceIn(table, groups + more)
    ensures OnDeviceIn(table', more)
  {
  }

  class AsyncDoubleBufferGroupOffloadHandler {
    const groups: nat
    const layers: nat
    var window: seq<int>
    var current: int
    var pushCount: nat
    var table: map<Tag, Saved>
    var buffer: map<Tag, Option<Tensor>>
    var offloadedCount: nat
    var copies: map<nat, map<Key, Tensor>>

    ghost predicate Valid()
      reads this
    {
      current >= 0
    }

    ghost function View(): State
      reads this
      requires Valid()
    {
      State(groups, layers, window, current, pushCount, table, buffer, offloadedCount, copies)
    }

    // A run needs a layer for every group, and at least one group.
    constructor (groups: nat, layers: nat)
      ensures Valid() && AtRest(View())
      ensures this.groups == groups && this.layers == layers && |window| == groups
      ensures forall i: nat :: i < groups ==> window[i] == Window(groups, layers, i)
      ensures 1 <= groups <= layers <==> WindowOk(View())
    {
      this.groups, this.layers := groups, layers;
      window := [];
      current, pushCount, offloadedCount := 0, 0, 0;
      table, buffer, copies := map[], map[], map[];
      new;
      var constant := 0;
      for i := 0 to groups
        invariant Valid() && AtRest(View())
        invariant |window| == i && constant == if groups == 0 then 0 else Min(i, layers % groups)
        invariant forall j: nat :: j < i ==> window[j] == Window(groups, layers, j)
      {
        var end := (layers / groups) * (i + 1) - 1;
        assert end == Window(groups, layers, i) - Min(i + 1, layers % groups);
        if i < layers % groups {
          end := end + i + 1;
          constant := i + 1;
        } else {
          end := end + constant;
        }
        window := window + [end];
      }
    }

    method TensorPush(tensor: Tensor, wanted: bool) returns (handle: Handle)
      requires Valid() && (wanted ==> CanPush(View()))
      modifies this
      ensures Valid()
      ensures wanted ==> handle == Tagged(Tag(old(current), old(pushCount)))
      ensures wanted ==> View() == PushTagged(old(View()), tensor)
      ensures !wanted ==> handle == Direct(tensor) && View() == old(View())
    {
      if wanted {
        var tag := Tag(current, pushCount);
        pushCount := pushCount + 1;
        table := table[tag := OnDevice(tensor)];
        if current < groups {
          buffer := buffer[tag := Some(tensor)];
        }
        handle := Tagged(tag);
      } else {
        handle := Direct(tensor);
      }
    }

    method TensorPop(handle: Handle) returns (tensor: Tensor)
      requires Valid() && (handle.Tagged? ==> CanPop(View(), handle.tag))
      modifies this
      ensures Valid()
      ensures handle.Tagged? ==>
                tensor == old(table)[handle.tag].tensor && View() == PopTagged(old(View()), handle.tag)
      ensures handle.Direct? ==> tensor == handle.tensor && View() == old(View())
    {
      match handle {
        case Direct(t) => tensor := t;
        case Tagged(tag) =>
          tensor := table[tag].tensor;
          table := table - {tag};
          buffer := buffer - {tag};
      }
    }

    method BulkOffloadGroup(g: nat)
      requires Valid() && OnDeviceIn(table, {g})
      modifies this`table, this`copies
      ensures Valid()
      ensures TableMoved(old(table), {g}, table)
      ensures CopiesMoved(old(table), old(copies), {g}, copies)
    {
      hide OnDeviceIn, Moving, CopiesOf, TableMoved, CopiesMoved;
      var todo := table.Keys;
      var mapping: map<Key, Tensor> := map[];
      MovingStarts(table, g);
      while todo != {}
        invariant Valid() && copies == old(copies)
        invariant todo <= table.Keys && Moving(old(table), g, todo, table) && CopiesOf(old(table), g, todo, mapping)
        decreases |todo|
      {
        var tag :| tag in todo;
        if tag.group == g {
          MovesNext(old(table), g, todo, table, mapping, tag);
          var tensor := table[tag].tensor;
          if tensor.key !in mapping {
            mapping := mapping[tensor.key := tensor];
          }
          table := table[tag := Offloaded(tensor.key, tensor.shape)];
        } else {
          StaysNext(old(table), g, todo, table, mapping, tag);
        }
        todo := todo - {tag};
      }
      AllMoved(old(table), copies, g, table, mapping);
      copies := copies[g := mapping];
    }

    // The released group's device memory is let go, and the next group starts to leave.
    method ReleaseAndOffloadNext()
      requires Valid() && OnDeviceIn(table, Successor(offloadedCount))
      modifies this`table, this`buffer, this`copies, this`offloadedCount
      ensures Valid() && offloadedCount == old(offloadedCount) + 1
      ensures buffer.Keys == old(buffer).Keys
      ensures forall tag :: tag in buffer ==>
                buffer[tag] == if tag.group == old(offloadedCount) then None else old(buffer)[tag]
      ensures TableMoved(old(table), Successor(old(offloadedCount)), table)
      ensures CopiesMoved(old(table), old(copies), Successor(old(offloadedCount)), copies)
    {
      hide TableMoved, CopiesMoved, OnDeviceIn;
      NothingMoved(table, copies);
      buffer := map tag | tag in buffer :: if tag.group == offloadedCount then None else buffer[tag];
      if offloadedCount < groups - 1 {
        BulkOffloadGroup(offloadedCount + 1);
      }
      offloadedCount := offloadedCount + 1;
    }

    function Successor(g: nat): set<nat> {
      if g + 1 < groups then {g + 1} else {}
    }

    method SynchronizeOnGroupCommitForward()
      requires Valid() && CanCommitForward(View())
      modifies this`table, this`buffer, this`copies, this`offloadedCount
      ensures Valid()
      ensures offloadedCount == if Releases(old(View())) then old(offloadedCount) + 1 else old(offloadedCount)
      ensures ForwardTable(old(View()), View())
      ensures ForwardBuffer(old(View()), View())
      ensures ForwardCopies(old(View()), View())
    {
      hide TableMoved, CopiesMoved, OnDeviceIn, IsCopySet;
      ghost var s := View();
      ghost var kick := if current == 0 then {0} else {};
      ghost var next := if Releases(s) then Successor(offloadedCount) else {};
      assert Departing(s) == kick + next;
      OnDeviceSubset(s.table, kick, Departing(s));
      NothingMoved(table, copies);
      if current == 0 {
        BulkOffloadGroup(0);
      }
      ghost var table1, copies1 := table, copies;
      StillOnDevice(s.table, kick, table1, next);
      NothingMoved(table, copies);
      if window[offloadedCount] == current {
        ReleaseAndOffloadNext();
      }
      MovedTwice(s.table, table1, table, s.copies, copies1, copies, kick, next);
    }

    method OnGroupCommitForward()
      requires Valid() && CanCommitForward(View())
      modifies this
      ensures Valid() && CommitForward(old(View()), View())
    {
      SynchronizeOnGroupCommitForward();
      current := current + 1;
      pushCount := 0;
    }

    method BulkReloadGroup(g: nat)
      requires Valid() && CanReload(View(), g)
      modifies this`table, this`copies
      ensures Valid()
      ensures copies == old(copies) - {g}
      ensures table.Keys == old(table).Keys
      ensures forall tag :: tag in table ==>
                if tag.group == g then Reloaded(old(table)[tag], old(copies)[g], table[tag])
                else table[tag] == old(table)[tag]
    {
      var mapping := copies[g];
      copies := copies - {g};
      var todo := table.Keys;
      while todo != {}
        invariant Valid() && copies == old(copies) - {g}
        invariant todo <= table.Keys == old(table).Keys
        invariant forall tag :: tag in table ==>
                    if tag.group == g && tag !in todo then Reloaded(old(table)[tag], mapping, table[tag])
                    else table[tag] == old(table)[tag]
        decreases |todo|
      {
        var tag :| tag in todo;
        if tag.group == g && table[tag].Offloaded? {
          var address: Key := *;
          table := table[tag := OnDevice(Tensor(address, table[tag].shape, mapping[table[tag].key].data))];
        }
        todo := todo - {tag};
      }
    }

    method OnGroupCommitBackward()
      requires Valid() && CanCommitBackward(View())
      modifies this
      ensures Valid() && CommitBackward(old(View()), View())
    {
      current := current - 1;
      if window[offloadedCount - 1] == current {
        BulkReloadGroup(offloadedCount - 1);
        offloadedCount := offloadedCount - if offloadedCount > 1 then 1 else 0;
      }
      if current == 0 {
        offloadedCount := 0;
      }
    }
  }

  // ----- one training iteration -----

  // A group whose tensors leave the device once all of it has been pushed.
  predicate Leaves(groups: nat, window: seq<int>, g: nat) {
    g < groups && (g == 0 || (g - 1 < |window| && window[g - 1] >= g))
  }

  // What the filter lets through in one layer is well formed, and if the layer's group leaves the
  // device, equal keys there mean equal data.
  ghost predicate LayerConsistent(layer: seq<Tensor>, filter: Tensor -> bool, leaves: bool) {
    && (forall t :: t in layer && filter(t) ==> WellFormed(t))
    && (leaves ==> forall t, u :: t in layer && u in layer && filter(t) && filter(u) && t.key == u.key ==>
          t.data == u.data)
  }

  ghost predicate LayersConsistent(layers: seq<seq<Tensor>>, filter: Tensor -> bool, groups: nat, window: seq<int>) {
    forall g :: 0 <= g < |layers| ==> LayerConsistent(layers[g], filter, Leaves(groups, window, g))
  }

  ghost predicate AllPass(pushed: map<Tag, Tensor>, filter: Tensor -> bool) {
    forall tag :: tag in pushed ==> filter(pushed[tag])
  }

  // The handle stands for the tensor at place i of layer g.
  ghost predicate Stands(pushed: map<Tag, Tensor>, layers: seq<seq<Tensor>>, origin: map<Tag, nat>, g: nat, i: nat,
                         handle: Handle)
    requires g < |layers|
  {
    && i < |layers[g]|
    && match handle
       case Direct(t) => t == layers[g][i]
       case Tagged(tag) =>
         && tag.group == g && tag in pushed && pushed[tag] == layers[g][i]
         && tag in origin && origin[tag] == i
  }

  ghost predicate HandlesStand(pushed: map<Tag, Tensor>, layers: seq<seq<Tensor>>, handles: seq<seq<Handle>>,
                               origin: map<Tag, nat>) {
    && |handles| <= |layers|
    && forall g: nat, i: nat :: g < |handles| && i < |handles[g]| ==>
         Stands(pushed, layers, origin, g, i, handles[g][i])
  }

  ghost predicate IssuedFor(handles: seq<seq<Handle>>, origin: map<Tag, nat>, tag: Tag) {
    && tag.group < |handles| && tag in origin && origin[tag] < |handles[tag.group]|
    && handles[tag.group][origin[tag]] == Tagged(tag)
  }

  ghost predicate TagsIssued(pushed: map<Tag, Tensor>, handles: seq<seq<Handle>>, origin: map<Tag, nat>) {
    forall tag :: tag in pushed ==> IssuedFor(handles, origin, tag)
  }

  // The handles issued so far stand for the tensors pushed so far, each tag for one of them.
  ghost predicate Issued(pushed: map<Tag, Tensor>, layers: seq<seq<Tensor>>, handles: seq<seq<Handle>>,
                         origin: map<Tag, nat>) {
    HandlesStand(pushed, layers, handles, origin) && TagsIssued(pushed, handles, origin)
  }

  lemma IssuedMembers(pushed: map<Tag, Tensor>, layers: seq<seq<Tensor>>, handles: seq<seq<Handle>>,
                      origin: map<Tag, nat>, g: nat)
    requires Issued(pushed, layers, handles, origin)
    ensures forall tag :: tag in pushed && tag.group == g ==> g < |layers| && pushed[tag] in layers[g]
  {
    forall tag | tag in pushed && tag.group == g
      ensures g < |layers| && pushed[tag] in layers[g]
    {
      assert IssuedFor(handles, origin, tag);
      assert Stands(pushed, layers, origin, g, origin[tag], handles[g][origin[tag]]);
    }
  }

  lemma PushLegal(r: Run, layers: seq<seq<Tensor>>, handles: seq<seq<Handle>>, origin: map<Tag, nat>, g: nat,
                  filter: Tensor -> bool, t: Tensor)
    requires r.forward && r.h.current == g < |layers| == r.h.layers
    requires LayerConsistent(layers[g], filter, Leaves(r.h.groups, r.h.window, g))
    requires Issued(r.pushed, layers, handles, origin) && AllPass(r.pushed, filter)
    requires t in layers[g] && filter(t)
    ensures Legal(r, Push(t))
  {
    hide Issued;
    IssuedMembers(r.pushed, layers, handles, origin, g);
  }

  // What comes back for a layer: the same contents in the same places.
  ghost predicate Restored(popped: seq<Tensor>, saved: seq<Tensor>) {
    |popped| == |saved| && forall i :: 0 <= i < |saved| ==>
      popped[i].shape == saved[i].shape && popped[i].data == saved[i].data
  }

  // The handler's operations beside the run they belong to.

  method TrackedPush(h: AsyncDoubleBufferGroupOffloadHandler, ghost r: Run, t: Tensor)
    returns (handle: Handle, ghost r': Run)
    requires h.Valid() && Inv(r) && r.h == h.View() && Legal(r, Push(t))
    modifies h
    ensures h.Valid() && Inv(r') && r'.h == h.View()
    ensures handle == Tagged(Tag(r.h.current, r.h.pushCount)) && handle.tag !in r.pushed
    ensures r' == Pushed(r, t)
  {
    PushEnabled(r, t);
    handle := h.TensorPush(t, true);
    PushStep(r, t);
    r' := Pushed(r, t);
  }

  method TrackedCommitForward(h: AsyncDoubleBufferGroupOffloadHandler, ghost r: Run) returns (ghost r': Run)
    requires h.Valid() && Inv(r) && r.h == h.View() && Legal(r, CommitF)
    modifies h
    ensures h.Valid() && h.current == old(h.current) + 1 && h.window == old(h.window)
    ensures Inv(r') && r'.h == h.View() && r'.forward && r'.pushed == r.pushed
  {
    CommitFEnabled(r);
    h.OnGroupCommitForward();
    CommitFStep(r, h.View());
    r' := r.(h := h.View());
  }

  method TrackedCommitBackward(h: AsyncDoubleBufferGroupOffloadHandler, ghost r: Run) returns (ghost r': Run)
    requires h.Valid() && Inv(r) && r.h == h.View() && Legal(r, CommitB)
    modifies h
    ensures h.Valid() && h.current == old(h.current) - 1 && h.window == old(h.window)
    ensures Inv(r') && r'.h == h.View() && !r'.forward && r'.pushed == r.pushed
    ensures h.table.Keys == old(h.table).Keys
  {
    CommitBEnabled(r);
    h.OnGroupCommitBackward();
    CommitBStep(r, h.View());
    r' := Run(h.View(), false, r.pushed);
  }

  method TrackedPop(h: AsyncDoubleBufferGroupOffloadHandler, ghost r: Run, handle: Handle)
    returns (tensor: Tensor, ghost r': Run)
    requires h.Valid() && Inv(r) && r.h == h.View() && handle.Tagged? && Legal(r, Pop(handle.tag))
    modifies h
    ensures h.Valid() && h.current == old(h.current) && h.window == old(h.window)
    ensures Inv(r') && r'.h == h.View() && !r'.forward && r'.pushed == r.pushed
    ensures h.table.Keys == old(h.table).Keys - {handle.tag}
    ensures handle.tag in r.pushed && SameContents(tensor, r.pushed[handle.tag])
  {
    hide Inv, SameContents;
    PopEnabled(r, handle.tag);
    tensor := h.TensorPop(handle);
    PopStep(r, handle.tag);
    r' := r.(h := h.View());
  }

  lemma RowStarts(pushed: map<Tag, Tensor>, layers: seq<seq<Tensor>>, handles: seq<seq<Handle>>, origin: map<Tag, nat>)
    requires Issued(pushed, layers, handles, origin) && |handles| < |layers|
    ensures Issued(pushed, layers, handles + [[]], origin)
  {
    forall g: nat, i: nat | g < |handles + [[]]| && i < |(handles + [[]])[g]|
      ensures Stands(pushed, layers, origin, g, i, (handles + [[]])[g][i])
    {
      assert (handles + [[]])[g][i] == handles[g][i];
    }
    forall tag | tag in pushed
      ensures IssuedFor(handles + [[]], origin, tag)
    {
      assert IssuedFor(handles, origin, tag);
    }
  }

  // One more handle in the last row keeps the others in their places.
  lemma RowGrows(handles: seq<seq<Handle>>, row: seq<Handle>, handle: Handle)
    ensures forall g: nat, i: nat :: g <= |handles| && i < |(handles + [row + [handle]])[g]| ==>
              if g == |handles| && i == |row| then (handles + [row + [handle]])[g][i] == handle
              else i < |(handles + [row])[g]| && (handles + [row + [handle]])[g][i] == (handles + [row])[g][i]
  {
  }

  lemma StillIssued(handles: seq<seq<Handle>>, row: seq<Handle>, handle: Handle, origin: map<Tag, nat>, tag: Tag)
    requires IssuedFor(handles + [row], origin, tag)
    ensures IssuedFor(handles + [row + [handle]], origin, tag)
  {
  }

  lemma IssueTagged(pushed: map<Tag, Tensor>, layers: seq<seq<Tensor>>, handles: seq<seq<Handle>>, row: seq<Handle>,
                    origin: map<Tag, nat>, tag: Tag, t: Tensor)
    requires Issued(pushed, layers, handles + [row], origin) && tag.group == |handles|
    requires |row| < |layers[|handles|]| && t == layers[|handles|][|row|]
    requires tag !in pushed
    ensures Issued(pushed[tag := t], layers, handles + [row + [Tagged(tag)]], origin[tag := |row|])
  {
    var before, after, pushed', origin' := handles + [row], handles + [row + [Tagged(tag)]], pushed[tag := t],
        origin[tag := |row|];
    RowGrows(handles, row, Tagged(tag));
    forall g: nat, i: nat | g < |after| && i < |after[g]|
      ensures Stands(pushed', layers, origin', g, i, after[g][i])
    {
      if !(g == |handles| && i == |row|) {
        assert Stands(pushed, layers, origin, g, i, before[g][i]);
      }
    }
    forall other | other in pushed'
      ensures IssuedFor(after, origin', other)
    {
      if other != tag {
        StillIssued(handles, row, Tagged(tag), origin, other);
      }
    }
  }

  lemma IssueDirect(pushed: map<Tag, Tensor>, layers: seq<seq<Tensor>>, handles: seq<seq<Handle>>, row: seq<Handle>,
                    origin: map<Tag, nat>, t: Tensor)
    requires Issued(pushed, layers, handles + [row], origin)
    requires |row| < |layers[|handles|]| && t == layers[|handles|][|row|]
    ensures Issued(pushed, layers, handles + [row + [Direct(t)]], origin)
  {
    var before, after := handles + [row], handles + [row + [Direct(t)]];
    RowGrows(handles, row, Direct(t));
    forall g: nat, i: nat | g < |after| && i < |after[g]|
      ensures Stands(pushed, layers, origin, g, i, after[g][i])
    {
      if !(g == |handles| && i == |row|) {
        assert Stands(pushed, layers, origin, g, i, before[g][i]);
      }
    }
    forall tag | tag in pushed
      ensures IssuedFor(after, origin, tag)
    {
      StillIssued(handles, row, Direct(t), origin, tag);
    }
  }

  method LayerForward(h: AsyncDoubleBufferGroupOffloadHandler, layers: seq<seq<Tensor>>, g: nat, filter: Tensor -> bool,
                      ghost handles: seq<seq<Handle>>, ghost r: Run, ghost origin: map<Tag, nat>)
    returns (row: seq<Handle>, ghost r': Run, ghost origin': map<Tag, nat>)
    requires h.Valid() && Inv(r) && r.h == h.View() && r.forward && h.current == g == |handles|
    requires g < |layers| == h.layers && LayerConsistent(layers[g], filter, Leaves(h.groups, h.window, g))
    requires Issued(r.pushed, layers, handles, origin) && AllPass(r.pushed, filter)
    modifies h
    ensures h.Valid() && h.window == old(h.window) && h.current == g
    ensures Inv(r') && r'.h == h.View() && r'.forward
    ensures |row| == |layers[g]| && Issued(r'.pushed, layers, handles + [row], origin') && AllPass(r'.pushed, filter)
  {
    hide Inv, Issued, Legal, LayerConsistent, Leaves;
    row, r', origin' := [], r, origin;
    RowStarts(r.pushed, layers, handles, origin);
    for i := 0 to |layers[g]|
      invariant h.Valid() && h.window == old(h.window) && h.current == g
      invariant Inv(r') && r'.h == h.View() && r'.forward
      invariant |row| == i && Issued(r'.pushed, layers, handles + [row], origin') && AllPass(r'.pushed, filter)
    {
      var t := layers[g][i];
      var handle;
      if filter(t) {
        PushLegal(r', layers, handles + [row], origin', g, filter, t);
        ghost var before := r';
        handle, r' := TrackedPush(h, r', t);
        IssueTagged(before.pushed, layers, handles, row, origin', handle.tag, t);
        origin' := origin'[handle.tag := i];
      } else {
        handle := h.TensorPush(t, false);
        IssueDirect(r'.pushed, layers, handles, row, origin', t);
      }
      row := row + [handle];
    }
  }

  lemma LeavesIsOnHost(r: Run, tag: Tag)
    requires Inv(r) && r.forward && r.h.current == r.h.layers && tag in r.h.table
    ensures r.h.table[tag].Offloaded? <==> Leaves(r.h.groups, r.h.window, tag.group)
  {
    hide Inv;
    OnHostExactly(r, tag);
  }

  method ForwardPass(h: AsyncDoubleBufferGroupOffloadHandler, layers: seq<seq<Tensor>>, filter: Tensor -> bool)
    returns (handles: seq<seq<Handle>>, ghost r: Run, ghost origin: map<Tag, nat>)
    requires h.Valid() && WindowOk(h.View()) && AtRest(h.View()) && h.layers == |layers|
    requires LayersConsistent(layers, filter, h.groups, h.window)
    modifies h
    ensures h.Valid() && h.window == old(h.window)
    ensures Inv(r) && r.h == h.View() && r.forward && h.current == |layers|
    ensures Issued(r.pushed, layers, handles, origin) && |handles| == |layers|
    ensures forall g :: 0 <= g < |layers| ==> |handles[g]| == |layers[g]|
    ensures forall tag :: tag in h.table ==> (h.table[tag].Offloaded? <==> Leaves(h.groups, h.window, tag.group))
  {
    hide Inv, LayerConsistent, Leaves;
    r, origin := Run(h.View(), true, map[]), map[];
    StartInv(h.View());
    handles := [];
    for g := 0 to |layers|
      invariant h.Valid() && h.window == old(h.window) && h.current == g
      invariant Inv(r) && r.h == h.View() && r.forward
      invariant Issued(r.pushed, layers, handles, origin) && |handles| == g && AllPass(r.pushed, filter)
      invariant forall k :: 0 <= k < g ==> |handles[k]| == |layers[k]|
    {
      var row;
      row, r, origin := LayerForward(h, layers, g, filter, handles, r, origin);
      handles := handles + [row];
      r := TrackedCommitForward(h, r);
    }
    forall tag | tag in h.table
      ensures h.table[tag].Offloaded? <==> Leaves(h.groups, h.window, tag.group)
    {
      LeavesIsOnHost(r, tag);
    }
  }

  // The table holds exactly the tags of groups before g and, in group g, of indices before n.
  ghost predicate Remaining(table: set<Tag>, pushed: set<Tag>, origin: map<Tag, nat>, g: int, n: nat) {
    forall tag :: tag in pushed && tag in origin ==>
      (tag in table <==> tag.group < g || (tag.group == g && origin[tag] < n))
  }

  // The tensors popped so far are those saved from index n on.
  ghost predicate RestoredFrom(popped: seq<Tensor>, saved: seq<Tensor>, n: nat) {
    |popped| + n == |saved| && forall i :: n <= i < |saved| ==> SameContents(popped[i - n], saved[i])
  }

  lemma RestoredOneMore(popped: seq<Tensor>, saved: seq<Tensor>, n: nat, tensor: Tensor)
    requires RestoredFrom(popped, saved, n + 1) && n < |saved| && SameContents(tensor, saved[n])
    ensures RestoredFrom([tensor] + popped, saved, n)
  {
    hide SameContents;
  }

  lemma RestoredEnds(popped: seq<Tensor>, saved: seq<Tensor>)
    ensures RestoredFrom([], saved, |saved|)
    ensures RestoredFrom(popped, saved, 0) ==> Restored(popped, saved)
  {
  }

  lemma PoppedOne(pushed: map<Tag, Tensor>, layers: seq<seq<Tensor>>, handles: seq<seq<Handle>>,
                  origin: map<Tag, nat>, table: set<Tag>, g: nat, n: nat)
    requires g < |handles| && n < |handles[g]| && handles[g][n].Tagged?
    requires Issued(pushed, layers, handles, origin) && Remaining(table, pushed.Keys, origin, g, n + 1)
    ensures Remaining(table - {handles[g][n].tag}, pushed.Keys, origin, g, n)
  {
  }

  lemma HandleHere(pushed: map<Tag, Tensor>, layers: seq<seq<Tensor>>, handles: seq<seq<Handle>>, origin: map<Tag, nat>,
                   table: set<Tag>, g: nat, n: nat)
    requires g < |handles| && n < |handles[g]| && handles[g][n].Tagged?
    requires Issued(pushed, layers, handles, origin) && Remaining(table, pushed.Keys, origin, g, n + 1)
    ensures var tag := handles[g][n].tag;
            && tag in table && tag.group == g && tag in pushed
            && g < |layers| && n < |layers[g]| && pushed[tag] == layers[g][n]
  {
    assert Stands(pushed, layers, origin, g, n, handles[g][n]);
  }

  lemma DirectHere(pushed: map<Tag, Tensor>, layers: seq<seq<Tensor>>, handles: seq<seq<Handle>>,
                   origin: map<Tag, nat>, g: nat, n: nat)
    requires g < |handles| && n < |handles[g]| && handles[g][n].Direct?
    requires Issued(pushed, layers, handles, origin)
    ensures g < |layers| && n < |layers[g]| && handles[g][n].tensor == layers[g][n]
  {
    assert Stands(pushed, layers, origin, g, n, handles[g][n]);
  }

  lemma DirectSkipped(pushed: map<Tag, Tensor>, layers: seq<seq<Tensor>>, handles: seq<seq<Handle>>,
                      origin: map<Tag, nat>, table: set<Tag>, g: nat, n: nat)
    requires g < |handles| && n < |handles[g]| && handles[g][n].Direct?
    requires Issued(pushed, layers, handles, origin) && Remaining(table, pushed.Keys, origin, g, n + 1)
    ensures Remaining(table, pushed.Keys, origin, g, n)
  {
  }

  // One layer's backward pass, its tensors in reverse order.
  method LayerBackward(h: AsyncDoubleBufferGroupOffloadHandler, ghost layers: seq<seq<Tensor>>,
                       ghost handles: seq<seq<Handle>>,
                       ghost g: nat, row: seq<Handle>, ghost r: Run, ghost origin: map<Tag, nat>)
    returns (layer: seq<Tensor>, ghost r': Run)
    requires h.Valid() && Inv(r) && r.h == h.View() && !r.forward && h.current == g < |layers|
    requires Issued(r.pushed, layers, handles, origin) && g < |handles| && row == handles[g]
    requires |row| == |layers[g]|
    requires Remaining(h.table.Keys, r.pushed.Keys, origin, g, |row|)
    modifies h
    ensures h.Valid() && h.window == old(h.window) && h.current == g
    ensures Inv(r') && r'.h == h.View() && !r'.forward && r'.pushed == r.pushed
    ensures Remaining(h.table.Keys, r.pushed.Keys, origin, g, 0)
    ensures Restored(layer, layers[g])
  {
    hide Inv, Issued, Remaining, CanPop, PopTagged, RestoredFrom, Restored;
    layer, r' := [], r;
    var n := |row|;
    RestoredEnds(layer, layers[g]);
    while n > 0
      invariant 0 <= n <= |row|
      invariant h.Valid() && h.window == old(h.window) && h.current == g
      invariant Inv(r') && r'.h == h.View() && !r'.forward && r'.pushed == r.pushed
      invariant Remaining(h.table.Keys, r.pushed.Keys, origin, g, n)
      invariant RestoredFrom(layer, layers[g], n)
    {
      n := n - 1;
      var handle := row[n];
      var tensor;
      ghost var before := h.table.Keys;
      if handle.Tagged? {
        HandleHere(r.pushed, layers, handles, origin, before, g, n);
        tensor, r' := TrackedPop(h, r', handle);
        PoppedOne(r.pushed, layers, handles, origin, before, g, n);
      } else {
        DirectHere(r.pushed, layers, handles, origin, g, n);
        tensor := h.TensorPop(handle);
        DirectSkipped(r.pushed, layers, handles, origin, before, g, n);
      }
      RestoredOneMore(layer, layers[g], n, tensor);
      layer := [tensor] + layer;
    }
    RestoredEnds(layer, layers[g]);
  }

  lemma NextGroup(pushed: map<Tag, Tensor>, layers: seq<seq<Tensor>>, handles: seq<seq<Handle>>,
                  origin: map<Tag, nat>, table: set<Tag>, g: nat)
    requires g < |handles|
    requires Issued(pushed, layers, handles, origin) && Remaining(table, pushed.Keys, origin, g + 1, 0)
    ensures Remaining(table, pushed.Keys, origin, g, |handles[g]|)
  {
  }

  // What came back for the layers from g on.
  ghost predicate RestoredLayers(popped: seq<seq<Tensor>>, layers: seq<seq<Tensor>>, g: nat) {
    |popped| + g == |layers| && forall k :: g <= k < |layers| ==> Restored(popped[k - g], layers[k])
  }

  lemma NoLayerYet(layers: seq<seq<Tensor>>)
    ensures RestoredLayers([], layers, |layers|)
  {
  }

  lemma LayerMore(popped: seq<seq<Tensor>>, layers: seq<seq<Tensor>>, g: nat, layer: seq<Tensor>)
    requires RestoredLayers(popped, layers, g + 1) && g < |layers| && Restored(layer, layers[g])
    ensures RestoredLayers([layer] + popped, layers, g)
  {
    hide Restored;
  }

  lemma AllRemain(r: Run, origin: map<Tag, nat>)
    requires Inv(r) && r.forward && r.h.current == r.h.layers
    ensures Remaining(r.h.table.Keys, r.pushed.Keys, origin, r.h.layers, 0)
    ensures r.h.layers > 0
  {
  }

  lemma NothingLeft(r: Run, layers: seq<seq<Tensor>>, handles: seq<seq<Handle>>, origin: map<Tag, nat>)
    requires Inv(r) && Issued(r.pushed, layers, handles, origin)
             && Remaining(r.h.table.Keys, r.pushed.Keys, origin, 0, 0)
    ensures r.h.table == map[]
  {
    assert r.h.table.Keys == {};
  }

  // Layers in reverse order.
  method BackwardPass(h: AsyncDoubleBufferGroupOffloadHandler, ghost layers: seq<seq<Tensor>>,
                      handles: seq<seq<Handle>>, ghost r0: Run, ghost origin: map<Tag, nat>)
    returns (popped: seq<seq<Tensor>>)
    requires h.Valid() && Inv(r0) && r0.h == h.View() && r0.forward && h.current == h.layers == |layers|
    requires Issued(r0.pushed, layers, handles, origin) && |handles| == |layers|
    requires forall g :: 0 <= g < |layers| ==> |handles[g]| == |layers[g]|
    modifies h
    ensures h.Valid() && AtRest(h.View()) && h.window == old(h.window)
    ensures RestoredLayers(popped, layers, 0)
  {
    hide Inv, Issued, Remaining, RestoredLayers;
    ghost var r := r0;
    AllRemain(r0, origin);
    popped := [];
    NoLayerYet(layers);
    var g := |handles|;
    while g > 0
      invariant 0 <= g <= |layers|
      invariant h.Valid() && h.window == old(h.window) && h.current == g
      invariant Inv(r) && r.h == h.View() && r.pushed == r0.pushed
      invariant r.forward <==> g == |layers|
      invariant Remaining(h.table.Keys, r0.pushed.Keys, origin, g, 0)
      invariant RestoredLayers(popped, layers, g)
    {
      r := TrackedCommitBackward(h, r);
      g := g - 1;
      NextGroup(r0.pushed, layers, handles, origin, h.table.Keys, g);
      var layer;
      layer, r := LayerBackward(h, layers, handles, g, handles[g], r, origin);
      LayerMore(popped, layers, g, layer);
      popped := [layer] + popped;
    }
    NothingLeft(r, layers, handles, origin);
    EndsAtRest(r);
  }

  // One full iteration: every tensor comes back with the contents it was saved with, and the
  // handler is as it was, ready for the next iteration.
  method TrainIteration(h: AsyncDoubleBufferGroupOffloadHandler, layers: seq<seq<Tensor>>, filter: Tensor -> bool)
    returns (popped: seq<seq<Tensor>>)
    requires h.Valid() && WindowOk(h.View()) && AtRest(h.View()) && h.layers == |layers|
    requires LayersConsistent(layers, filter, h.groups, h.window)
    modifies h
    ensures h.Valid() && h.View() == old(h.View())
    ensures |popped| == |layers| && forall g :: 0 <= g < |layers| ==> Restored(popped[g], layers[g])
  {
    var handles, r, origin := ForwardPass(h, layers, filter);
    popped := BackwardPass(h, layers, handles, r, origin);
  }
}
