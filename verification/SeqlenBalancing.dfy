/**
 Balancing sequence lengths over k parts by the largest differencing method, and the checks
 made on its result.
 */
module SeqlenBalancing {
  import opened SeqLib
  import opened Differencing
  import opened Partitions

  function Spread(sets: seq<PartitionSet>): int
    requires sets != []
  {
    sets[0].sum - sets[|sets| - 1].sum
  }

  // The wider spread goes first; on a tie, the state with the larger first set.
  predicate Before(a: seq<PartitionSet>, b: seq<PartitionSet>)
    requires a != [] && b != []
  {
    if Spread(a) != Spread(b) then Spread(a) > Spread(b) else Less(b[0], a[0])
  }

  lemma NotBeforeTransitive(a: seq<PartitionSet>, b: seq<PartitionSet>, c: seq<PartitionSet>)
    requires a != [] && b != [] && c != []
    requires !Before(a, b) && !Before(b, c)
    ensures !Before(a, c)
  {
    if Spread(a) == Spread(b) == Spread(c) {
      NotLessTransitive(c[0], b[0], a[0]);
    }
  }

  lemma NotBeforeItself(a: seq<PartitionSet>)
    requires a != []
    ensures !Before(a, a)
  {
    if Less(a[0], a[0]) {
      LessAsymmetric(a[0], a[0]);
    }
  }

  lemma BeforeAsymmetric(a: seq<PartitionSet>, b: seq<PartitionSet>)
    requires a != [] && b != [] && Before(a, b)
    ensures !Before(b, a)
  {
    if Spread(a) == Spread(b) {
      LessAsymmetric(b[0], a[0]);
    }
  }

  // ----- the rounds -----

  lemma SpreadExactly(sets: seq<PartitionSet>, d: int)
    requires Descending(sets) && sets != []
    ensures SpreadAtMost(sets, d) <==> Spread(sets) <= d
  {
    if Spread(sets) <= d {
      forall i, j | 0 <= i < |sets| && 0 <= j < |sets|
        ensures sets[i].sum - sets[j].sum <= d
      {
        assert i > 0 ==> !Less(sets[0], sets[i]);
        assert j < |sets| - 1 ==> !Less(sets[j], sets[|sets| - 1]);
      }
    }
  }

  // However far apart the sets of `b` are, those of `a` are no farther.
  ghost predicate NoWider(a: seq<PartitionSet>, b: seq<PartitionSet>) {
    forall d :: SpreadAtMost(b, d) ==> SpreadAtMost(a, d)
  }

  // No state of the pool is wider, and none as wide has a larger first set.
  ghost predicate Foremost(a: seq<PartitionSet>, pool: multiset<seq<PartitionSet>>) {
    a in pool && a != [] && forall b :: b in pool ==>
      NoWider(b, a) && (NoWider(a, b) ==> b != [] && !Less(a[0], b[0]))
  }

  // One round of the differencing method replaces the two foremost states by their merger.
  ghost predicate Merges(pool: multiset<seq<PartitionSet>>, pool': multiset<seq<PartitionSet>>, a: seq<PartitionSet>,
                         b: seq<PartitionSet>) {
    && Foremost(a, pool) && Foremost(b, pool - multiset{a}) && |a| == |b|
    && pool' == pool - multiset{a, b} + multiset{MergeStates(a, b)}
  }

  ghost predicate IsRound(pool: multiset<seq<PartitionSet>>, pool': multiset<seq<PartitionSet>>) {
    exists a, b :: Merges(pool, pool', a, b)
  }

  // Rounds from the starting states until one is left.
  ghost predicate IsRun(rounds: seq<multiset<seq<PartitionSet>>>, starts: seq<seq<PartitionSet>>,
                        last: seq<PartitionSet>) {
    && rounds != [] && rounds[0] == multiset(starts) && rounds[|rounds| - 1] == multiset{last}
    && forall i :: 0 <= i < |rounds| - 1 ==> IsRound(rounds[i], rounds[i + 1])
  }

  lemma NotBefore(a: seq<PartitionSet>, b: seq<PartitionSet>)
    requires StateOk(a) && StateOk(b) && a != [] && b != [] && !Before(b, a)
    ensures NoWider(b, a) && (NoWider(a, b) ==> !Less(a[0], b[0]))
  {
    hide SpreadAtMost, Summed, Sparse, Descending, Less;
    forall d | SpreadAtMost(a, d)
      ensures SpreadAtMost(b, d)
    {
      SpreadExactly(a, d);
      SpreadExactly(b, d);
    }
    if NoWider(a, b) {
      SpreadExactly(b, Spread(b));
      SpreadExactly(a, Spread(b));
    }
  }

  class State {
    const k: nat
    var sets: seq<PartitionSet>

    constructor (items: seq<Item>, k: nat)
      requires |items| <= k && (|items| == 1 || |items| == k)
      ensures this.k == k && sets == InitialSets(items, k)
    {
      this.k := k;
      sets := seq(k, _ => EMPTY_SET);
      new;
      for i := 0 to |items|
        invariant |sets| == k
        invariant forall j :: 0 <= j < k ==> sets[j] == if j < i then EMPTY_SET.Add(items[j]) else EMPTY_SET
      {
        sets := sets[i := sets[i].Add(items[i])];
      }
      assert sets == Singles(items, k);
      sets := SortDescending(sets);
    }

    method Merge(other: State)
      requires other != this && |sets| == k && |other.sets| == k
      modifies this
      ensures sets == MergeStates(old(sets), other.sets)
    {
      for i := 0 to k
        invariant |sets| == k
        invariant forall j :: 0 <= j < k ==>
                    sets[j] == if j < i then old(sets)[j].Merge(other.sets[k - 1 - j]) else old(sets)[j]
      {
        sets := sets[i := sets[i].Merge(other.sets[k - 1 - i])];
      }
      assert sets == Paired(old(sets), other.sets);
      sets := SortDescending(sets);
    }

    method GetPartitions() returns (partitions: seq<seq<nat>>)
      ensures partitions == PartitionsOf(sets)
    {
      partitions := [];
      for i := 0 to |sets|
        invariant partitions == PartitionsOf(sets)[..i]
      {
        var part := [];
        for j := 0 to |sets[i].items|
          invariant part == Indices(sets[i].items)[..j]
        {
          part := part + [sets[i].items[j].index];
        }
        assert part == Indices(sets[i].items) == PartitionsOf(sets)[i];
        partitions := partitions + [part];
      }
    }
  }

  ghost predicate HeldOk(sets: seq<PartitionSet>, k: nat, d: int) {
    |sets| == k && StateOk(sets) && SpreadAtMost(sets, d)
  }

  // The heap and, beside it, what its states hold.
  ghost predicate HeapOk(heap: seq<State>, held: seq<seq<PartitionSet>>, k: nat, d: int)
    reads heap
  {
    && |heap| == |held|
    && (forall i, j :: 0 <= i < j < |heap| ==> heap[i] != heap[j])
    && (forall i :: 0 <= i < |heap| ==> heap[i].k == k && heap[i].sets == held[i])
    && (forall i :: 0 <= i < |heap| ==> HeldOk(held[i], k, d))
  }

  ghost predicate Even(sets: seq<PartitionSet>) {
    exists m: nat :: EvenlyFilled(sets, m)
  }

  // Each state fills its sets evenly.
  ghost predicate AllEven(held: seq<seq<PartitionSet>>) {
    forall i :: 0 <= i < |held| ==> Even(held[i])
  }

  function Without<T>(s: seq<T>, i: nat): seq<T>
    requires i < |s|
  {
    s[..i] + s[i + 1..]
  }

  // The position of a state that no other goes before.
  method Least(heap: seq<State>) returns (least: nat)
    requires heap != [] && forall s :: s in heap ==> s.sets != []
    ensures least < |heap|
    ensures forall j :: 0 <= j < |heap| ==> !Before(heap[j].sets, heap[least].sets)
  {
    least := 0;
    NotBeforeItself(heap[0].sets);
    for i := 1 to |heap|
      invariant least < i
      invariant forall j :: 0 <= j < i ==> !Before(heap[j].sets, heap[least].sets)
    {
      if Before(heap[i].sets, heap[least].sets) {
        forall j | 0 <= j < i
          ensures !Before(heap[j].sets, heap[i].sets)
        {
          BeforeAsymmetric(heap[i].sets, heap[least].sets);
          NotBeforeTransitive(heap[j].sets, heap[least].sets, heap[i].sets);
        }
        NotBeforeItself(heap[i].sets);
        least := i;
      }
    }
  }

  lemma HeldMerge(a: seq<PartitionSet>, b: seq<PartitionSet>, k: nat, d: int)
    requires HeldOk(a, k, d) && HeldOk(b, k, d)
    ensures HeldOk(MergeStates(a, b), k, d)
  {
    MergeStateOk(a, b);
    MergeSpread(a, b, d);
  }

  lemma HeldInitial(items: seq<Item>, k: nat, d: nat)
    requires 1 <= |items| <= k
    requires forall i :: 0 <= i < |items| ==>
        items[i].length <= d || (|items| == k && items[i].length - items[0].length <= d)
    requires |items| == k ==> Ascending(items)
    ensures HeldOk(InitialSets(items, k), k, d)
    ensures |items| == k ==> Even(InitialSets(items, k))
  {
    InitialOk(items, k);
    InitialSpread(items, k, d);
  }

  lemma NextSlice(items: seq<Item>, offset: nat, step: nat)
    requires offset + step <= |items|
    ensures multiset(items[..offset + step]) == multiset(items[..offset]) + multiset(items[offset..offset + step])
  {
    assert items[..offset + step] == items[..offset] + items[offset..offset + step];
  }

  function Step(k: nat, equalSize: bool): nat {
    if equalSize then k else 1
  }

  function Offset(b: nat, step: nat): nat {
    b * step
  }

  lemma AllItemsLength(lens: seq<nat>)
    ensures |AllItems(lens)| == |lens|
  {
  }

  lemma ItemLengthBound(lens: seq<nat>, item: Item)
    requires item in SortItems(AllItems(lens))
    ensures item.length <= Maximum(lens)
  {
    assert item in multiset(SortItems(AllItems(lens)));
    assert item in AllItems(lens);
    MaximumBounds(lens, item.index);
  }

  // The items of one initial state differ by no more than the bound.
  lemma BlockWithin(lens: seq<nat>, k: nat, equalSize: bool, b: nat)
    requires 1 <= k && (equalSize ==> |lens| % k == 0)
    requires b < |lens| / Step(k, equalSize)
    ensures var step := Step(k, equalSize);
            var sorted := SortItems(AllItems(lens));
            && |sorted| == |lens| && Offset(b, step) + step <= |lens|
            && var items := sorted[Offset(b, step)..Offset(b, step) + step];
               && |items| == step
               && Ascending(items)
               && forall i :: 0 <= i < |items| ==>
                    items[i].length <= SpreadBound(lens, k, equalSize)
                    || (|items| == k && items[i].length - items[0].length <= SpreadBound(lens, k, equalSize))
  {
    hide SortItems, AllItems, BlockGap, Maximum;
    var sorted := SortItems(AllItems(lens));
    SortItemsLength(AllItems(lens));
    SortItemsAscending(AllItems(lens));
    AllItemsLength(lens);
    if equalSize {
      BlocksFit(|lens|, k);
      BlockGapBounds(sorted, k, |lens| / k, b);
    } else {
      ItemLengthBound(lens, sorted[b]);
    }
  }

  lemma BlockInitial(lens: seq<nat>, k: nat, equalSize: bool, b: nat)
    requires 1 <= k && (equalSize ==> |lens| % k == 0)
    requires b < |lens| / Step(k, equalSize)
    ensures var step := Step(k, equalSize);
            var sorted := SortItems(AllItems(lens));
            && |sorted| == |lens| && Offset(b, step) + step <= |lens|
            && var items := sorted[Offset(b, step)..Offset(b, step) + step];
               && |items| == step
               && HeldOk(InitialSets(items, k), k, SpreadBound(lens, k, equalSize))
               && Contents(InitialSets(items, k)) == multiset(items)
               && (equalSize ==> Even(InitialSets(items, k)))
  {
    hide SortItems, AllItems, SpreadBound, Contents, HeldOk;
    BlockWithin(lens, k, equalSize, b);
    var step := Step(k, equalSize);
    var items := SortItems(AllItems(lens))[Offset(b, step)..Offset(b, step) + step];
    HeldInitial(items, k, SpreadBound(lens, k, equalSize));
    InitialContents(items, k);
  }

  // The state of the b-th block of the sorted items.
  method BlockState(lens: seq<nat>, k: nat, equalSize: bool, items: seq<Item>, ghost b: nat) returns (state: State)
    requires 1 <= k && (equalSize ==> |lens| % k == 0)
    requires b < |lens| / Step(k, equalSize)
    requires |SortItems(AllItems(lens))| == |lens| && Offset(b, Step(k, equalSize)) + Step(k, equalSize) <= |lens|
    requires var step := Step(k, equalSize); items == SortItems(AllItems(lens))[Offset(b, step)..Offset(b, step) + step]
    ensures fresh(state) && state.k == k && HeldOk(state.sets, k, SpreadBound(lens, k, equalSize))
    ensures Contents(state.sets) == multiset(items)
    ensures equalSize ==> Even(state.sets)
    ensures |items| <= k && state.sets == InitialSets(items, k)
  {
    hide SortItems, AllItems, SpreadBound, Contents, HeldOk, Even, InitialSets, Offset;
    BlockInitial(lens, k, equalSize, b);
    state := new State(items, k);
  }

  lemma OffsetZero(step: nat)
    ensures Offset(0, step) == 0
  {
  }

  lemma EmptyHeap(k: nat, d: int)
    ensures HeapContents([]) == multiset{} && HeapOk([], [], k, d) && AllEven([])
  {
  }

  lemma StepsCover(n: nat, step: nat)
    requires step >= 1 && n % step == 0
    ensures Offset(n / step, step) == n
  {
  }

  lemma OffsetNext(b: nat, step: nat)
    ensures Offset(b + 1, step) == Offset(b, step) + step
  {
  }

  lemma OffsetGrows(a: nat, b: nat, step: nat)
    requires a <= b
    ensures Offset(a, step) <= Offset(b, step)
  {
    assert b * step == a * step + (b - a) * step;
  }

  lemma StepsLeft(b: nat, n: nat, step: nat)
    requires step >= 1 && Offset(b, step) < n == Offset(n / step, step)
    ensures b < n / step
    ensures Offset(b, step) + step == Offset(b + 1, step) <= n
  {
    OffsetNext(b, step);
    if b >= n / step {
      OffsetGrows(n / step, b, step);
    } else {
      OffsetGrows(b + 1, n / step, step);
    }
  }

  method PushState(heap: seq<State>, ghost held: seq<seq<PartitionSet>>, state: State, ghost k: nat, ghost d: int)
    returns (heap': seq<State>, ghost held': seq<seq<PartitionSet>>)
    requires HeapOk(heap, held, k, d) && state !in heap && state.k == k && HeldOk(state.sets, k, d)
    ensures heap' == heap + [state] && HeapOk(heap', held', k, d) && held' == held + [state.sets]
    ensures HeapContents(held') == HeapContents(held) + Contents(state.sets)
    ensures AllEven(held) && Even(state.sets) ==> AllEven(held')
  {
    hide HeapContents, Contents, HeldOk, Even;
    heap', held' := heap + [state], held + [state.sets];
    HeapPush(held, state.sets);
  }

  ghost predicate StartsSoFar(held: seq<seq<PartitionSet>>, sorted: seq<Item>, step: nat, k: nat)
    requires step <= k
  {
    forall b :: 0 <= b < |held| ==>
      && 0 <= Offset(b, step) && Offset(b, step) + step <= |sorted|
      && held[b] == InitialSets(sorted[Offset(b, step)..Offset(b, step) + step], k)
  }

  lemma StartsMore(held: seq<seq<PartitionSet>>, sorted: seq<Item>, step: nat, k: nat, sets: seq<PartitionSet>)
    requires step <= k && StartsSoFar(held, sorted, step, k) && Offset(|held|, step) + step <= |sorted|
    requires sets == InitialSets(sorted[Offset(|held|, step)..Offset(|held|, step) + step], k)
    ensures StartsSoFar(held + [sets], sorted, step, k)
  {
    hide InitialSets, Offset;
  }

  // One starting state for each item in ascending order, or for each block of k of them.
  ghost predicate Starts(starts: seq<seq<PartitionSet>>, lens: seq<nat>, k: nat, equalSize: bool)
    requires 1 <= k
  {
    var sorted, step := SortItems(AllItems(lens)), if equalSize then k else 1;
    StartsSoFar(starts, sorted, step, k) && Offset(|starts|, step) == |sorted|
  }

  // One state per item, or one per block of k items.
  method InitialHeap(lens: seq<nat>, k: nat, equalSize: bool)
    returns (heap: seq<State>, ghost held: seq<seq<PartitionSet>>)
    requires 1 <= k && lens != [] && (equalSize ==> |lens| % k == 0)
    ensures heap != [] && forall i :: 0 <= i < |heap| ==> fresh(heap[i])
    ensures HeapOk(heap, held, k, SpreadBound(lens, k, equalSize))
    ensures HeapContents(held) == multiset(AllItems(lens))
    ensures equalSize ==> AllEven(held)
    ensures Starts(held, lens, k, equalSize)
  {
    hide HeldOk, HeapContents, SpreadBound, InitialSets, Even, AllEven, Offset, AllItems, Contents, HeapOk, SortItems;
    var sorted := SortItems(AllItems(lens));
    SortItemsLength(AllItems(lens));
    AllItemsLength(lens);
    ghost var d := SpreadBound(lens, k, equalSize);
    heap, held := [], [];
    EmptyHeap(k, d);
    var step := Step(k, equalSize);
    var offset := 0;
    ghost var b := 0;
    OffsetZero(step);
    StepsCover(|lens|, step);
    while offset < |lens|
      invariant |heap| == b && forall i :: 0 <= i < b ==> fresh(heap[i])
      invariant HeapOk(heap, held, k, d)
      invariant offset == Offset(b, step) <= |lens|
      invariant HeapContents(held) == multiset(sorted[..offset])
      invariant equalSize ==> AllEven(held)
      invariant |held| == b && StartsSoFar(held, sorted, step, k)
    {
      StepsLeft(b, |lens|, step);
      var items := sorted[offset..offset + step];
      var state := BlockState(lens, k, equalSize, items, b);
      StartsMore(held, sorted, step, k, state.sets);
      heap, held := PushState(heap, held, state, k, d);
      NextSlice(sorted, offset, step);
      offset := offset + step;
      b := b + 1;
    }
    assert sorted[..offset] == sorted;
  }

  lemma HeldSizes(heap: seq<State>, held: seq<seq<PartitionSet>>, k: nat, d: int)
    requires HeapOk(heap, held, k, d)
    ensures forall s :: s in heap ==> |s.sets| == k
    ensures k >= 1 ==> forall j :: 0 <= j < |held| ==> held[j] != [] && StateOk(held[j])
  {
    hide StateOk, SpreadAtMost;
  }

  lemma EvenWithout(held: seq<seq<PartitionSet>>, i: nat)
    requires i < |held|
    ensures AllEven(held) ==> Even(held[i]) && AllEven(Without(held, i))
  {
  }

  lemma LeastIsForemost(held: seq<seq<PartitionSet>>, i: nat)
    requires forall j :: 0 <= j < |held| ==> held[j] != [] && StateOk(held[j])
    requires i < |held| && forall j :: 0 <= j < |held| ==> !Before(held[j], held[i])
    ensures Foremost(held[i], multiset(held))
  {
    hide Before, NoWider, Less, StateOk;
    forall b | b in multiset(held)
      ensures NoWider(b, held[i]) && (NoWider(held[i], b) ==> b != [] && !Less(held[i][0], b[0]))
    {
      var j :| 0 <= j < |held| && held[j] == b;
      NotBefore(held[i], held[j]);
    }
  }

  lemma WithoutMultiset<T>(s: seq<T>, i: nat)
    requires i < |s|
    ensures multiset(Without(s, i)) == multiset(s) - multiset{s[i]}
  {
    assert s == s[..i] + [s[i]] + s[i + 1..];
  }

  // Removes a state that no other goes before.
  method PopLeast(heap: seq<State>, ghost held: seq<seq<PartitionSet>>, ghost k: nat, ghost d: int)
    returns (state: State, rest: seq<State>, ghost sets: seq<PartitionSet>, ghost others: seq<seq<PartitionSet>>)
    requires heap != [] && 1 <= k && HeapOk(heap, held, k, d)
    ensures state in heap && state.sets == sets && state.k == k && HeldOk(sets, k, d)
    ensures forall s :: s in heap ==> s.sets != [] && !Before(s.sets, sets)
    ensures state !in rest && |rest| == |heap| - 1 && forall i :: 0 <= i < |rest| ==> rest[i] in heap
    ensures HeapOk(rest, others, k, d)
    ensures HeapContents(held) == HeapContents(others) + Contents(sets)
    ensures AllEven(held) ==> Even(sets) && AllEven(others)
    ensures Foremost(sets, multiset(held)) && multiset(others) == multiset(held) - multiset{sets}
  {
    hide HeapContents, Contents, Before, AllEven, HeldOk, Foremost;
    HeldSizes(heap, held, k, d);
    var i := Least(heap);
    state, rest, sets, others := heap[i], Without(heap, i), held[i], Without(held, i);
    LeastIsForemost(held, i);
    WithoutMultiset(held, i);
    HeapPop(held, i);
    EvenWithout(held, i);
  }

  lemma HeldSize(sets: seq<PartitionSet>, k: nat, d: int)
    requires HeldOk(sets, k, d)
    ensures |sets| == k
  {
  }

  lemma EvenMerge(a: seq<PartitionSet>, b: seq<PartitionSet>)
    requires |a| == |b|
    ensures Even(a) && Even(b) ==> Even(MergeStates(a, b))
  {
    if Even(a) && Even(b) {
      var m: nat :| EvenlyFilled(a, m);
      var n: nat :| EvenlyFilled(b, n);
      MergeEvenlyFilled(a, b, m, n);
    }
  }

  lemma TwoGone<T>(all: multiset<T>, most: multiset<T>, rest: multiset<T>, a: T, b: T)
    requires most == all - multiset{a} && rest == most - multiset{b}
    ensures rest == all - multiset{a, b}
  {
  }

  // Takes the two foremost states off the heap, merges them and puts the result back.
  method MergeFirstTwo(heap: seq<State>, ghost held: seq<seq<PartitionSet>>, ghost k: nat, ghost d: int)
    returns (heap': seq<State>, ghost held': seq<seq<PartitionSet>>)
    requires |heap| > 1 && 1 <= k && HeapOk(heap, held, k, d)
    modifies set i | 0 <= i < |heap| :: heap[i]
    ensures |heap'| == |heap| - 1 && forall i :: 0 <= i < |heap'| ==> heap'[i] in heap
    ensures HeapOk(heap', held', k, d)
    ensures HeapContents(held') == HeapContents(held)
    ensures AllEven(held) ==> AllEven(held')
    ensures IsRound(multiset(held), multiset(held'))
  {
    hide MergeStates, HeldOk, Even, HeapContents, Contents, AllEven, Before, Foremost;
    var state0, rest0, state1, rest1;
    ghost var sets0, others0, sets1, others1;
    state0, rest0, sets0, others0 := PopLeast(heap, held, k, d);
    state1, rest1, sets1, others1 := PopLeast(rest0, others0, k, d);
    HeldSize(sets0, k, d);
    HeldSize(sets1, k, d);
    HeldMerge(sets0, sets1, k, d);
    MergeContents(sets0, sets1);
    EvenMerge(sets0, sets1);
    state0.Merge(state1);
    heap', held' := PushState(rest1, others1, state0, k, d);
    TwoGone(multiset(held), multiset(others0), multiset(others1), sets0, sets1);
    assert Merges(multiset(held), multiset(held'), sets0, sets1);
  }

  lemma OneLeft(held: seq<seq<PartitionSet>>)
    requires |held| == 1
    ensures HeapContents(held) == Contents(held[0])
  {
    assert held[1..] == [];
  }

  method KarmarkarKarp(lens: seq<nat>, k: nat, equalSize: bool)
    returns (partitions: seq<seq<nat>>, ghost starts: seq<seq<PartitionSet>>,
             ghost rounds: seq<multiset<seq<PartitionSet>>>, ghost last: seq<PartitionSet>)
    requires 1 <= k && lens != [] && (equalSize ==> |lens| % k == 0)
    ensures |partitions| == k && IndexLists(partitions, |lens|)
    ensures Permutation(Flatten(partitions), |lens|)
    ensures LoadsWithin(lens, partitions, SpreadBound(lens, k, equalSize))
    ensures |lens| >= k ==> NoneEmpty(partitions)
    ensures equalSize ==> EqualParts(partitions, |lens|)
    ensures Starts(starts, lens, k, equalSize) && IsRun(rounds, starts, last) && partitions == PartitionsOf(last)
  {
    hide LoadsWithin, NoneEmpty, EqualParts, StateOk, SpreadAtMost, EvenlyFilled, HeapContents, AllItems, Permutation,
      Contents, SpreadBound, Starts, IsRound;
    ghost var d := SpreadBound(lens, k, equalSize);
    var heap: seq<State>;
    ghost var held;
    heap, held := InitialHeap(lens, k, equalSize);
    starts, rounds := held, [multiset(held)];
    while |heap| > 1
      invariant |heap| >= 1 && forall i :: 0 <= i < |heap| ==> fresh(heap[i])
      invariant HeapOk(heap, held, k, d)
      invariant HeapContents(held) == multiset(AllItems(lens))
      invariant equalSize ==> AllEven(held)
      invariant rounds != [] && rounds[0] == multiset(starts) && rounds[|rounds| - 1] == multiset(held)
      invariant forall i :: 0 <= i < |rounds| - 1 ==> IsRound(rounds[i], rounds[i + 1])
      decreases |heap|
    {
      heap, held := MergeFirstTwo(heap, held, k, d);
      rounds := rounds + [multiset(held)];
    }
    last := held[0];
    assert held == [last];
    OneLeft(held);
    FinalPartition(lens, held[0], d);
    if equalSize {
      assert Even(held[0]);
      ghost var m: nat :| EvenlyFilled(held[0], m);
      FinalSizes(lens, held[0], m);
    }
    partitions := heap[0].GetPartitions();
  }
}
