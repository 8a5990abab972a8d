/**
 The bookkeeping of the double-buffered activation offloader, as values.

 A handler keeps, for every saved tensor, a tag (group, index).  Groups are layers.
 After a layer's forward pass the whole group is copied to the host in bulk, and before
 the layer's backward pass it is copied back.  `State` gathers every field of the handler;
 the predicates below say, field by field, what each of its operations does to them.
 */
module OffloadState {
  import opened Wrappers

  // Storage address plus offset, and element type: what identifies a tensor on the device.
  datatype Key = Key(address: int, dtype: int)

  // `data` is the tensor's contents in row-major order.
  datatype Tensor = Tensor(key: Key, shape: seq<nat>, data: seq<int>)

  datatype Tag = Tag(group: nat, index: nat)

  datatype Saved = OnDevice(tensor: Tensor) | Offloaded(key: Key, shape: seq<nat>)

  // What a push hands to autograd: the tensor itself when it is not worth offloading.
  datatype Handle = Direct(tensor: Tensor) | Tagged(tag: Tag)

  // `window` is the dictionary from 0, 1, ... to layers, so it is kept as a sequence.
  datatype State = State(
    groups: nat,
    layers: nat,
    window: seq<int>,
    current: nat,
    pushCount: nat,
    table: map<Tag, Saved>,
    buffer: map<Tag, Option<Tensor>>,
    offloadedCount: nat,
    copies: map<nat, map<Key, Tensor>>)

  function Numel(shape: seq<nat>): nat {
    if shape == [] then 1 else shape[0] * Numel(shape[1..])
  }

  predicate WellFormed(t: Tensor) {
    |t.data| == Numel(t.shape)
  }

  ghost predicate SameContents(t: Tensor, u: Tensor) {
    t.shape == u.shape && t.data == u.data
  }

  function Min(a: int, b: int): int {
    if a < b then a else b
  }

  // The layer after whose forward pass group i is released: the layers are dealt to the
  // groups as evenly as possible, the longer shares first.
  function Window(groups: nat, layers: nat, i: nat): int
    requires 0 < groups
  {
    (layers / groups) * (i + 1) - 1 + Min(i + 1, layers % groups)
  }

  ghost predicate WindowOk(s: State) {
    && 1 <= s.groups <= s.layers
    && |s.window| == s.groups
    && (forall i: nat :: i < s.groups ==> s.window[i] == Window(s.groups, s.layers, i))
  }

  // A handler between two training iterations.
  ghost predicate AtRest(s: State) {
    && s.current == 0 && s.pushCount == 0 && s.offloadedCount == 0
    && s.table == map[] && s.buffer == map[] && s.copies == map[]
  }

  // `copies` holds, for every key that occurs in group g, one tensor of g with that key.
  ghost predicate IsCopySet(table: map<Tag, Saved>, g: nat, copies: map<Key, Tensor>)
    requires forall tag :: tag in table && tag.group == g ==> table[tag].OnDevice?
  {
    && (forall tag :: tag in table && tag.group == g ==> table[tag].tensor.key in copies)
    && (forall key :: key in copies ==>
          exists tag :: tag in table && tag.group == g && table[tag].tensor.key == key
                        && table[tag].tensor == copies[key])
  }

  function Evicted(saved: Saved): Saved {
    match saved
    case OnDevice(t) => Offloaded(t.key, t.shape)
    case Offloaded(_, _) => saved
  }

  ghost predicate OnDeviceIn(table: map<Tag, Saved>, groups: set<nat>) {
    forall tag :: tag in table && tag.group in groups ==> table[tag].OnDevice?
  }

  // The entries of these groups, and no others, become references to the host.
  ghost predicate TableMoved(table: map<Tag, Saved>, groups: set<nat>, table': map<Tag, Saved>) {
    && table'.Keys == table.Keys
    && forall tag :: tag in table ==>
         table'[tag] == if tag.group in groups then Evicted(table[tag]) else table[tag]
  }

  // Host copies of these groups are made, and no others change.
  ghost predicate CopiesMoved(table: map<Tag, Saved>, copies: map<nat, map<Key, Tensor>>, groups: set<nat>,
                              copies': map<nat, map<Key, Tensor>>)
    requires OnDeviceIn(table, groups)
  {
    && copies'.Keys == copies.Keys + groups
    && forall g :: g in copies' ==>
         if g in groups then IsCopySet(table, g, copies'[g]) else copies'[g] == copies[g]
  }

  // Whether a set of copies is one for group g depends on the entries of g alone.
  lemma CopySetAgrees(table: map<Tag, Saved>, table': map<Tag, Saved>, g: nat, copies: map<Key, Tensor>)
    requires table'.Keys == table.Keys && forall tag :: tag in table && tag.group == g ==> table'[tag] == table[tag]
    requires forall tag :: tag in table && tag.group == g ==> table[tag].OnDevice?
    requires IsCopySet(table', g, copies)
    ensures IsCopySet(table, g, copies)
  {
  }

  // Moving some groups and then others moves them all.
  lemma MovedTwice(table: map<Tag, Saved>, table1: map<Tag, Saved>, table2: map<Tag, Saved>,
                   copies: map<nat, map<Key, Tensor>>, copies1: map<nat, map<Key, Tensor>>,
                   copies2: map<nat, map<Key, Tensor>>, groups: set<nat>, more: set<nat>)
    requires groups !! more && OnDeviceIn(table, groups + more) && OnDeviceIn(table, groups) && OnDeviceIn(table1, more)
    requires TableMoved(table, groups, table1) && CopiesMoved(table, copies, groups, copies1)
    requires TableMoved(table1, more, table2) && CopiesMoved(table1, copies1, more, copies2)
    ensures TableMoved(table, groups + more, table2) && CopiesMoved(table, copies, groups + more, copies2)
  {
    forall g | g in more
      ensures IsCopySet(table, g, copies2[g])
    {
      CopySetAgrees(table, table1, g, copies2[g]);
    }
  }

  // ----- the operations -----

  ghost predicate CanPush(s: State) {
    Tag(s.current, s.pushCount) !in s.table
  }

  function PushTagged(s: State, t: Tensor): State {
    var tag := Tag(s.current, s.pushCount);
    s.(pushCount := s.pushCount + 1,
       table := s.table[tag := OnDevice(t)],
       buffer := if s.current < s.groups then s.buffer[tag := Some(t)] else s.buffer)
  }

  ghost predicate CanPop(s: State, tag: Tag) {
    tag in s.table && s.table[tag].OnDevice?
  }

  function PopTagged(s: State, tag: Tag): State {
    s.(table := s.table - {tag}, buffer := s.buffer - {tag})
  }

  predicate Releases(s: State)
    requires s.offloadedCount < |s.window|
  {
    s.window[s.offloadedCount] == s.current
  }

  // The groups a forward commit copies to the host: the first group straight away, every
  // later one when its predecessor is released.
  function Departing(s: State): set<nat>
    requires s.offloadedCount < |s.window|
  {
    (if s.current == 0 then {0} else {}) +
    (if Releases(s) && s.offloadedCount + 1 < s.groups
     then {s.offloadedCount + 1} else {})
  }

  ghost predicate CanCommitForward(s: State) {
    && s.offloadedCount < |s.window|
    && OnDeviceIn(s.table, Departing(s))
  }

  // A forward commit moves on to the next layer and counts the group it releases, ...
  predicate ForwardCounters(s: State, s': State)
    requires s.offloadedCount < |s.window|
  {
    && s'.groups == s.groups && s'.layers == s.layers && s'.window == s.window
    && s'.current == s.current + 1
    && s'.pushCount == 0
    && s'.offloadedCount == if Releases(s) then s.offloadedCount + 1 else s.offloadedCount
  }

  // ... replaces the entries of the departing groups by references to the host, ...
  ghost predicate ForwardTable(s: State, s': State)
    requires s.offloadedCount < |s.window|
  {
    TableMoved(s.table, Departing(s), s'.table)
  }

  // ... lets go of the released group's device memory, ...
  ghost predicate ForwardBuffer(s: State, s': State)
    requires s.offloadedCount < |s.window|
  {
    && s'.buffer.Keys == s.buffer.Keys
    && forall tag :: tag in s.buffer ==>
         s'.buffer[tag] == if Releases(s) && tag.group == s.offloadedCount then None else s.buffer[tag]
  }

  // ... and makes the host copies of the departing groups.
  ghost predicate ForwardCopies(s: State, s': State)
    requires CanCommitForward(s)
  {
    CopiesMoved(s.table, s.copies, Departing(s), s'.copies)
  }

  ghost predicate CommitForward(s: State, s': State)
    requires CanCommitForward(s)
  {
    ForwardCounters(s, s') && ForwardTable(s, s') && ForwardBuffer(s, s') && ForwardCopies(s, s')
  }

  // A reload of group g can serve every entry that points at a host copy: the copy is there
  // and has as many elements as the view that is wanted.
  ghost predicate CanReload(s: State, g: nat) {
    && g < s.groups
    && g in s.copies
    && forall tag :: tag in s.table && tag.group == g && s.table[tag].Offloaded? ==>
         && s.table[tag].key in s.copies[g]
         && |s.copies[g][s.table[tag].key].data| == Numel(s.table[tag].shape)
  }

  predicate Restores(s: State)
    requires 1 <= s.offloadedCount && s.offloadedCount - 1 < |s.window|
  {
    s.window[s.offloadedCount - 1] == s.current - 1
  }

  ghost predicate CanCommitBackward(s: State) {
    && 1 <= s.current
    && 1 <= s.offloadedCount
    && s.offloadedCount - 1 < |s.window|
    && (Restores(s) ==> CanReload(s, s.offloadedCount - 1))
  }

  // The reloaded tensor lives at an address of the allocator's choice.
  ghost predicate Reloaded(before: Saved, copies: map<Key, Tensor>, after: Saved) {
    match before
    case OnDevice(_) => after == before
    case Offloaded(key, shape) =>
      && key in copies
      && after.OnDevice?
      && after.tensor.shape == shape
      && after.tensor.data == copies[key].data
  }

  // A backward commit moves back one layer, reloading a group when that layer is its window.
  predicate BackwardCounters(s: State, s': State)
    requires 1 <= s.offloadedCount && s.offloadedCount - 1 < |s.window|
  {
    && s'.groups == s.groups && s'.layers == s.layers && s'.window == s.window
    && s'.current == s.current - 1
    && s'.pushCount == s.pushCount
    && s'.buffer == s.buffer
    && s'.copies == (if Restores(s) then s.copies - {s.offloadedCount - 1} else s.copies)
    && s'.offloadedCount == (if s.current == 1 then 0
                             else if Restores(s) && s.offloadedCount > 1 then s.offloadedCount - 1
                             else s.offloadedCount)
  }

  ghost predicate BackwardTable(s: State, s': State)
    requires CanCommitBackward(s)
  {
    && s'.table.Keys == s.table.Keys
    && forall tag :: tag in s.table ==>
         if Restores(s) && tag.group == s.offloadedCount - 1
         then Reloaded(s.table[tag], s.copies[s.offloadedCount - 1], s'.table[tag])
         else s'.table[tag] == s.table[tag]
  }

  ghost predicate CommitBackward(s: State, s': State)
    requires CanCommitBackward(s)
  {
    BackwardCounters(s, s') && BackwardTable(s, s')
  }

  // ----- the window map -----

  lemma DivAtLeastOne(groups: nat, layers: nat)
    requires 1 <= groups <= layers
    ensures layers / groups >= 1
  {
    assert layers == (layers / groups) * groups + layers % groups;
  }

  lemma MulGrows(q: int, x: int)
    requires q >= 1 && x >= 0
    ensures q * x >= x
  {
    assert q * x == x + (q - 1) * x;
    assert (q - 1) * x >= 0;
  }

  // Raising i by d raises the window by at least d, because every share holds a layer.
  lemma WindowStep(groups: nat, layers: nat, i: nat, d: nat)
    requires 1 <= groups <= layers
    ensures Window(groups, layers, i + d) >= Window(groups, layers, i) + d
  {
    var q := layers / groups;
    assert q >= 1 by { DivAtLeastOne(groups, layers); }
    assert q * (i + d + 1) == q * (i + 1) + q * d;
    MulGrows(q, d);
  }

  lemma WindowLast(groups: nat, layers: nat)
    requires 1 <= groups
    ensures Window(groups, layers, groups - 1) == layers - 1
  {
    assert layers == (layers / groups) * groups + layers % groups;
  }

  lemma WindowFirst(groups: nat, layers: nat)
    requires 1 <= groups <= layers
    ensures Window(groups, layers, 0) >= 0
  {
    DivAtLeastOne(groups, layers);
  }

  // The window map is strictly increasing, never releases a group before its own layer, and
  // releases the last group after the last layer.
  lemma WindowShape(groups: nat, layers: nat)
    requires 1 <= groups <= layers
    ensures forall i: nat :: i < groups ==> i <= Window(groups, layers, i) < layers
    ensures forall i: nat, j: nat :: i < j < groups ==> Window(groups, layers, i) < Window(groups, layers, j)
    ensures Window(groups, layers, groups - 1) == layers - 1
  {
    WindowLast(groups, layers);
    WindowFirst(groups, layers);
    forall i: nat, j: nat | i < j < groups
      ensures Window(groups, layers, i) < Window(groups, layers, j)
    {
      WindowStep(groups, layers, i, j - i);
    }
    forall i: nat | i < groups
      ensures i <= Window(groups, layers, i) < layers
    {
      WindowStep(groups, layers, 0, i);
      WindowStep(groups, layers, i, groups - 1 - i);
    }
  }

  // Every group is released only after a later layer started, hence after it was pushed in
  // full, except when each layer is its own group and there are at least two.
  lemma WindowLeavesTime(groups: nat, layers: nat)
    requires 1 <= groups <= layers
    ensures (forall i: nat :: i + 1 < groups ==> Window(groups, layers, i) >= i + 1) <==>
        (groups < layers || groups == 1)
  {
    if groups < layers {
      forall i: nat | i + 1 < groups
        ensures Window(groups, layers, i) >= i + 1
      {
        WindowStep(groups, layers, 0, i);
        var q := layers / groups;
        assert q >= 1 by { DivAtLeastOne(groups, layers); }
        assert layers == q * groups + layers % groups;
        if q == 1 {
          assert layers % groups == layers - groups;
        }
      }
    } else if groups > 1 {
      assert layers / groups == 1 && layers % groups == 0;
      assert Window(groups, layers, 0) == 0;
    }
  }
}
