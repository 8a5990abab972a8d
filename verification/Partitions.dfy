/**
 From states of the differencing method to partitions of the indices.
 */
module Partitions {
  import opened Arith
  import opened SeqLib
  import opened Differencing

  function AllItems(lens: seq<nat>): seq<Item> {
    seq(|lens|, i requires 0 <= i < |lens| => Item(i, lens[i]))
  }

  // ----- sorting the items by length, then index -----

  predicate Shorter(a: Item, b: Item) {
    a.length < b.length || (a.length == b.length && a.index < b.index)
  }

  ghost predicate UpTo(a: Item, b: Item) {
    a.length < b.length || (a.length == b.length && a.index <= b.index)
  }

  ghost predicate Ascending(items: seq<Item>) {
    forall i, j :: 0 <= i < j < |items| ==> UpTo(items[i], items[j])
  }

  function InsertItem(x: Item, items: seq<Item>): (r: seq<Item>)
    ensures multiset(r) == multiset{x} + multiset(items)
  {
    if items == [] || !Shorter(items[0], x) then [x] + items
    else
      assert items == [items[0]] + items[1..];
      [items[0]] + InsertItem(x, items[1..])
  }

  function SortItems(items: seq<Item>): (r: seq<Item>)
    ensures multiset(r) == multiset(items)
  {
    if items == [] then []
    else
      assert items == [items[0]] + items[1..];
      InsertItem(items[0], SortItems(items[1..]))
  }

  lemma {:induction false} InsertItemAscending(x: Item, items: seq<Item>)
    requires Ascending(items)
    ensures Ascending(InsertItem(x, items))
  {
    if items != [] && Shorter(items[0], x) {
      InsertItemAscending(x, items[1..]);
      var rest := InsertItem(x, items[1..]);
      forall j | 0 <= j < |rest|
        ensures UpTo(items[0], rest[j])
      {
        assert rest[j] in multiset(rest);
        assert rest[j] == x || rest[j] in items[1..];
      }
    }
  }

  lemma {:induction false} SortItemsAscending(items: seq<Item>)
    ensures Ascending(SortItems(items))
  {
    if items != [] {
      SortItemsAscending(items[1..]);
      InsertItemAscending(items[0], SortItems(items[1..]));
    }
  }

  lemma SortItemsLength(items: seq<Item>)
    ensures |SortItems(items)| == |items|
  {
    assert |multiset(SortItems(items))| == |multiset(items)|;
  }

  lemma BlocksFit(n: nat, k: nat)
    requires 1 <= k
    ensures (n / k) * k <= n
  {
  }

  // ----- the states the method starts from -----

  // k sets, the first ones holding one item each.
  function Singles(items: seq<Item>, k: nat): seq<PartitionSet>
    requires |items| <= k
  {
    seq(k, i requires 0 <= i < k => if i < |items| then EMPTY_SET.Add(items[i]) else EMPTY_SET)
  }

  function InitialSets(items: seq<Item>, k: nat): seq<PartitionSet>
    requires |items| <= k
  {
    SortDescending(Singles(items, k))
  }

  lemma {:induction false} SinglesContents(items: seq<Item>, sets: seq<PartitionSet>)
    requires |items| <= |sets|
    requires forall i :: 0 <= i < |sets| ==> sets[i].items == if i < |items| then [items[i]] else []
    ensures Contents(sets) == multiset(items)
  {
    if sets != [] {
      if items == [] {
        SinglesContents([], sets[1..]);
      } else {
        SinglesContents(items[1..], sets[1..]);
        assert items == [items[0]] + items[1..];
      }
    }
  }

  lemma SingleSets(items: seq<Item>, k: nat, i: nat)
    requires |items| <= k && i < k
    ensures var x := Singles(items, k)[i];
            && x.items == (if i < |items| then [items[i]] else [])
            && x.sum == Total(x.items)
  {
    if i < |items| {
      assert EMPTY_SET.Add(items[i]).items == [items[i]];
      assert Total([items[i]]) == items[i].length + Total([]);
    }
  }

  lemma InitialContents(items: seq<Item>, k: nat)
    requires |items| <= k
    ensures Contents(InitialSets(items, k)) == multiset(items)
  {
    forall i | 0 <= i < k ensures Singles(items, k)[i].items == if i < |items| then [items[i]] else [] {
      SingleSets(items, k, i);
    }
    SinglesContents(items, Singles(items, k));
    ContentsSort(Singles(items, k));
  }

  lemma InitialOk(items: seq<Item>, k: nat)
    requires 1 <= |items| <= k
    ensures StateOk(InitialSets(items, k)) && |InitialSets(items, k)| == k
    ensures |items| == k ==> EvenlyFilled(InitialSets(items, k), 1)
  {
    hide SortDescending, Descending, Total;
    var r, s := Singles(items, k), InitialSets(items, k);
    SortCorrect(r);
    SortKeeps(r);
    forall i | 0 <= i < k
      ensures s[i].sum == Total(s[i].items) && |s[i].items| <= 1 && (|items| == k ==> |s[i].items| == 1)
    {
      assert s[i] in r;
      var j :| 0 <= j < k && s[i] == r[j];
      SingleSets(items, k, j);
    }
  }

  lemma InitialSpread(items: seq<Item>, k: nat, d: nat)
    requires 1 <= |items| <= k
    requires forall i :: 0 <= i < |items| ==>
        items[i].length <= d || (|items| == k && items[i].length - items[0].length <= d)
    requires |items| == k ==> Ascending(items)
    ensures SpreadAtMost(InitialSets(items, k), d)
  {
    var r, s := Singles(items, k), InitialSets(items, k);
    SortKeeps(r);
    forall i, j | 0 <= i < |s| && 0 <= j < |s|
      ensures s[i].sum - s[j].sum <= d
    {
      assert s[i] in r && s[j] in r;
      var i' :| 0 <= i' < k && r[i'] == s[i];
      var j' :| 0 <= j' < k && r[j'] == s[j];
      if i' < |items| {
        if |items| == k {
          assert items[0].length <= items[j'].length;
        }
      }
    }
  }

  // The widest gap between longest and shortest within one of the first blocks of k items.
  function BlockGap(items: seq<Item>, k: nat, blocks: nat): nat
    requires 1 <= k
  {
    if blocks == 0 || blocks * k > |items| then 0
    else
      assert blocks * k == (blocks - 1) * k + k && (blocks - 1) * k >= 0;
      var gap := items[(blocks - 1) * k + k - 1].length - items[(blocks - 1) * k].length;
      var rest := BlockGap(items, k, blocks - 1);
      if gap > rest then gap else rest
  }

  lemma {:induction false} BlockGapBounds(items: seq<Item>, k: nat, blocks: nat, b: nat)
    requires 1 <= k && blocks * k <= |items| && b < blocks
    ensures 0 <= b * k && b * k + k <= |items|
    ensures items[b * k + k - 1].length - items[b * k].length <= BlockGap(items, k, blocks)
  {
    assert blocks * k == (blocks - 1) * k + k && (blocks - 1) * k >= 0;
    if b < blocks - 1 {
      BlockGapBounds(items, k, blocks - 1, b);
    }
  }

  // The widest spread the method can end with.
  function SpreadBound(lens: seq<nat>, k: nat, equalSize: bool): nat
    requires 1 <= k
  {
    QuotientNonNegative(|lens|, k);
    if equalSize then BlockGap(SortItems(AllItems(lens)), k, |lens| / k) else Maximum(lens)
  }

  lemma {:induction false} BlockGapAttained(items: seq<Item>, k: nat, blocks: nat) returns (b: nat)
    requires 1 <= k && 1 <= blocks && blocks * k <= |items| && Ascending(items)
    ensures b < blocks && 0 <= b * k && b * k + k <= |items|
    ensures BlockGap(items, k, blocks) == items[b * k + k - 1].length - items[b * k].length
  {
    assert blocks * k == (blocks - 1) * k + k && (blocks - 1) * k >= 0;
    b := blocks - 1;
    assert k > 1 ==> UpTo(items[b * k], items[b * k + k - 1]);
    var gap := items[b * k + k - 1].length - items[b * k].length;
    if blocks > 1 && gap <= BlockGap(items, k, blocks - 1) {
      b := BlockGapAttained(items, k, blocks - 1);
    }
  }

  // The bound is no wider than the lengths make it: it is one of them, or the gap between the
  // ends of some block of k items in ascending order.
  lemma SpreadAttained(lens: seq<nat>, k: nat, equalSize: bool) returns (i: nat)
    requires 1 <= k && lens != [] && (equalSize ==> |lens| % k == 0)
    ensures !equalSize ==> i < |lens| && SpreadBound(lens, k, equalSize) == lens[i]
    ensures var sorted := SortItems(AllItems(lens));
      && Ascending(sorted) && multiset(sorted) == multiset(AllItems(lens))
      && (equalSize ==> i + k <= |sorted| && i % k == 0
                        && SpreadBound(lens, k, equalSize) == sorted[i + k - 1].length - sorted[i].length)
  {
    hide SortItems, BlockGap, Maximum;
    var sorted := SortItems(AllItems(lens));
    SortItemsLength(AllItems(lens));
    SortItemsAscending(AllItems(lens));
    if equalSize {
      BlocksFit(|lens|, k);
      DivMod(|lens|, k);
      MulSign(|lens| / k, k);
      var b := BlockGapAttained(sorted, k, |lens| / k);
      i := b * k;
      ModMultiple(b, k);
    } else {
      i := MaximumAttained(lens);
    }
  }

  // ----- partitions -----

  function Indices(items: seq<Item>): (r: seq<nat>)
    ensures |r| == |items| && forall i :: 0 <= i < |items| ==> r[i] == items[i].index
  {
    seq(|items|, i requires 0 <= i < |items| => items[i].index)
  }

  function PartitionsOf(sets: seq<PartitionSet>): (r: seq<seq<nat>>)
    ensures |r| == |sets| && forall i :: 0 <= i < |sets| ==> r[i] == Indices(sets[i].items)
  {
    seq(|sets|, i requires 0 <= i < |sets| => Indices(sets[i].items))
  }

  // The tokens in a part; an index that is not there weighs nothing.
  function Load(lens: seq<nat>, part: seq<nat>): nat {
    if part == [] then 0
    else (if part[0] < |lens| then lens[part[0]] else 0) + Load(lens, part[1..])
  }

  function AllOf(sets: seq<PartitionSet>): seq<Item> {
    if sets == [] then [] else sets[0].items + AllOf(sets[1..])
  }

  lemma {:induction false} AllOfContents(sets: seq<PartitionSet>)
    ensures multiset(AllOf(sets)) == Contents(sets)
    ensures Flatten(PartitionsOf(sets)) == Indices(AllOf(sets))
    ensures forall i :: 0 <= i < |sets| ==> forall x :: x in sets[i].items ==> x in AllOf(sets)
  {
    if sets != [] {
      AllOfContents(sets[1..]);
      assert PartitionsOf(sets)[1..] == PartitionsOf(sets[1..]);
      assert Indices(sets[0].items + AllOf(sets[1..])) == Indices(sets[0].items) + Indices(AllOf(sets[1..]));
    }
  }

  // Rearranging the items of `lens` lists every index once.
  lemma ItemsPermutation(lens: seq<nat>, items: seq<Item>)
    requires multiset(items) == multiset(AllItems(lens))
    ensures Permutation(Indices(items), |lens|)
    ensures forall x :: x in items ==> x.index < |lens| && x.length == lens[x.index]
  {
    var all := AllItems(lens);
    assert |items| == |multiset(items)| == |multiset(all)| == |lens|;
    forall x | x in items
      ensures x.index < |lens| && x.length == lens[x.index]
    {
      assert x in multiset(items);
      assert x in all;
    }
    forall i, j | 0 <= i < j < |items|
      ensures items[i].index != items[j].index
    {
      assert items[i] in items && items[j] in items;
      if items[i].index == items[j].index {
        Occurrences(items, i, j);
        DistinctOnce(all, items[i]);
      }
    }
    forall v: nat | v < |lens|
      ensures v in Indices(items)
    {
      assert all[v] == Item(v, lens[v]) && all[v] in multiset(all);
      var i :| 0 <= i < |items| && items[i] == Item(v, lens[v]);
      assert Indices(items)[i] == v;
    }
  }

  lemma {:induction false} LoadIsTotal(lens: seq<nat>, items: seq<Item>)
    requires forall x :: x in items ==> x.index < |lens| && x.length == lens[x.index]
    ensures Load(lens, Indices(items)) == Total(items)
  {
    if items != [] {
      assert items[0] in items;
      LoadIsTotal(lens, items[1..]);
      assert Indices(items)[1..] == Indices(items[1..]);
    }
  }

  ghost predicate IndexLists(parts: seq<seq<nat>>, n: nat) {
    forall p, i :: 0 <= p < |parts| && 0 <= i < |parts[p]| ==> parts[p][i] < n
  }

  // Any two parts differ by at most d tokens.
  ghost predicate LoadsWithin(lens: seq<nat>, parts: seq<seq<nat>>, d: int) {
    forall p, q :: 0 <= p < |parts| && 0 <= q < |parts| ==> Load(lens, parts[p]) - Load(lens, parts[q]) <= d
  }

  ghost predicate NoneEmpty(parts: seq<seq<nat>>) {
    forall p :: 0 <= p < |parts| ==> parts[p] != []
  }

  // Parts of equal size that together have n items.
  ghost predicate EqualParts(parts: seq<seq<nat>>, n: nat) {
    forall p :: 0 <= p < |parts| ==> |parts[p]| * |parts| == n
  }

  lemma OneMore(n: nat, m: nat)
    ensures m + n * m == (n + 1) * m
  {
  }

  lemma {:induction false} EvenCount(sets: seq<PartitionSet>, m: nat)
    requires EvenlyFilled(sets, m)
    ensures |Contents(sets)| == |sets| * m
  {
    if sets != [] {
      var rest := sets[1..];
      assert EvenlyFilled(rest, m);
      EvenCount(rest, m);
      assert |multiset(sets[0].items)| == |sets[0].items| == m;
      OneMore(|rest|, m);
    }
  }

  lemma SetLoads(lens: seq<nat>, sets: seq<PartitionSet>, p: nat)
    requires Summed(sets) && Contents(sets) == multiset(AllItems(lens)) && p < |sets|
    ensures forall i :: 0 <= i < |sets[p].items| ==> sets[p].items[i].index < |lens|
    ensures Load(lens, Indices(sets[p].items)) == sets[p].sum
  {
    AllOfContents(sets);
    ItemsPermutation(lens, AllOf(sets));
    forall x | x in sets[p].items
      ensures x.index < |lens| && x.length == lens[x.index]
    {
      assert x in AllOf(sets);
    }
    LoadIsTotal(lens, sets[p].items);
  }

  lemma AllItemsCount(lens: seq<nat>)
    ensures |multiset(AllItems(lens))| == |lens|
  {
  }

  lemma FinalPartition(lens: seq<nat>, sets: seq<PartitionSet>, d: int)
    requires StateOk(sets) && SpreadAtMost(sets, d)
    requires Contents(sets) == multiset(AllItems(lens))
    ensures IndexLists(PartitionsOf(sets), |lens|)
    ensures Permutation(Flatten(PartitionsOf(sets)), |lens|)
    ensures LoadsWithin(lens, PartitionsOf(sets), d)
    ensures |lens| >= |sets| ==> NoneEmpty(PartitionsOf(sets))
  {
    hide Contents, Sparse, Descending, Permutation, Load, Summed, AllItems;
    AllOfContents(sets);
    ItemsPermutation(lens, AllOf(sets));
    forall p | 0 <= p < |sets|
      ensures forall i :: 0 <= i < |sets[p].items| ==> sets[p].items[i].index < |lens|
      ensures Load(lens, Indices(sets[p].items)) == sets[p].sum
    {
      SetLoads(lens, sets, p);
    }
    AllItemsCount(lens);
    if |lens| >= |sets| {
      NoEmptySet(sets);
    }
  }

  lemma FinalSizes(lens: seq<nat>, sets: seq<PartitionSet>, m: nat)
    requires EvenlyFilled(sets, m) && Contents(sets) == multiset(AllItems(lens))
    ensures EqualParts(PartitionsOf(sets), |lens|)
  {
    hide Contents;
    EvenCount(sets, m);
    assert |Contents(sets)| == |multiset(AllItems(lens))| == |lens|;
    forall p | 0 <= p < |sets|
      ensures |PartitionsOf(sets)[p]| * |sets| == |lens|
    {
      assert |PartitionsOf(sets)[p]| == m;
      assert |sets| * m == m * |sets|;
    }
  }

  // ----- the heap's contents -----

  function HeapContents(heap: seq<seq<PartitionSet>>): multiset<Item> {
    if heap == [] then multiset{} else Contents(heap[0]) + HeapContents(heap[1..])
  }

  lemma {:induction false} HeapAppend(a: seq<seq<PartitionSet>>, b: seq<seq<PartitionSet>>)
    ensures HeapContents(a + b) == HeapContents(a) + HeapContents(b)
  {
    if a == [] {
      assert a + b == b;
    } else {
      assert (a + b)[0] == a[0] && (a + b)[1..] == a[1..] + b;
      HeapAppend(a[1..], b);
    }
  }

  lemma HeapPush(heap: seq<seq<PartitionSet>>, sets: seq<PartitionSet>)
    ensures HeapContents(heap + [sets]) == HeapContents(heap) + Contents(sets)
  {
    HeapAppend(heap, [sets]);
    assert HeapContents([sets]) == Contents(sets) + HeapContents([]);
  }

  lemma HeapPop(heap: seq<seq<PartitionSet>>, i: nat)
    requires i < |heap|
    ensures HeapContents(heap) == HeapContents(heap[..i] + heap[i + 1..]) + Contents(heap[i])
  {
    hide Contents, HeapContents;
    assert heap == heap[..i] + [heap[i]] + heap[i + 1..];
    HeapAppend(heap[..i] + [heap[i]], heap[i + 1..]);
    HeapPush(heap[..i], heap[i]);
    HeapAppend(heap[..i], heap[i + 1..]);
  }
}
