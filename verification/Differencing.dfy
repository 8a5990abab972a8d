/**
 The largest differencing method as values: sets of items, states of k sets in descending
 order, and what merging two states keeps.
 */
module Differencing {


  // A sequence and its length in tokens.
  datatype Item = Item(index: nat, length: nat)

  datatype PartitionSet = PartitionSet(sum: int, items: seq<Item>) {
    function Add(item: Item): PartitionSet {
      PartitionSet(sum + item.length, items + [item])
    }

    function Merge(other: PartitionSet): PartitionSet {
      PartitionSet(sum + other.sum, items + other.items)
    }
  }

  const EMPTY_SET := PartitionSet(0, [])

  function Total(items: seq<Item>): nat {
    if items == [] then 0 else items[0].length + Total(items[1..])
  }

  lemma {:induction false} TotalAppend(a: seq<Item>, b: seq<Item>)
    ensures Total(a + b) == Total(a) + Total(b)
  {
    if a == [] {
      assert a + b == b;
    } else {
      assert (a + b)[0] == a[0] && (a + b)[1..] == a[1..] + b;
      TotalAppend(a[1..], b);
    }
  }

  // ----- the order of sets: by sum, then by number of items, then item by item -----

  predicate ItemLess(a: Item, b: Item) {
    a.index < b.index || (a.index == b.index && a.length < b.length)
  }

  predicate ItemsLess(a: seq<Item>, b: seq<Item>) {
    if b == [] then false
    else if a == [] then true
    else if a[0] != b[0] then ItemLess(a[0], b[0])
    else ItemsLess(a[1..], b[1..])
  }

  predicate Less(a: PartitionSet, b: PartitionSet) {
    if a.sum != b.sum then a.sum < b.sum
    else if |a.items| != |b.items| then |a.items| < |b.items|
    else ItemsLess(a.items, b.items)
  }

  // The lists agree before position j, and there the item of `a` comes before the one of `b`.
  ghost predicate FirstBelow(a: seq<Item>, b: seq<Item>, j: nat) {
    && j < |a| && j < |b| && a[..j] == b[..j]
    && (a[j].index < b[j].index || (a[j].index == b[j].index && a[j].length < b[j].length))
  }

  lemma {:induction false} ItemsLessExactly(a: seq<Item>, b: seq<Item>)
    requires |a| == |b|
    ensures ItemsLess(a, b) <==> exists j: nat :: FirstBelow(a, b, j)
  {
    if a != [] {
      forall j: nat | FirstBelow(a, b, j)
        ensures j == 0 || a[0] == b[0]
      {
        if j > 0 {
          assert a[0] == a[..j][0] && b[0] == b[..j][0];
        }
      }
      if a[0] == b[0] {
        ItemsLessExactly(a[1..], b[1..]);
        if j: nat :| FirstBelow(a[1..], b[1..], j) {
          assert a[..j + 1] == [a[0]] + a[1..][..j] && b[..j + 1] == [b[0]] + b[1..][..j];
          assert FirstBelow(a, b, j + 1);
        }
        if j: nat :| FirstBelow(a, b, j) {
          assert a[1..][..j - 1] == a[..j][1..] && b[1..][..j - 1] == b[..j][1..];
          assert FirstBelow(a[1..], b[1..], j - 1);
        }
      } else {
        assert ItemLess(a[0], b[0]) ==> FirstBelow(a, b, 0);
      }
    }
  }

  // Sets are ordered by sum, sets of one sum by size, and those of one size by the first item
  // in which they differ.
  lemma LessExactly(a: PartitionSet, b: PartitionSet)
    ensures Less(a, b) <==>
              a.sum < b.sum || (a.sum == b.sum && |a.items| < |b.items|)
              || (a.sum == b.sum && |a.items| == |b.items| && exists j: nat :: FirstBelow(a.items, b.items, j))
  {
    if |a.items| == |b.items| {
      ItemsLessExactly(a.items, b.items);
    }
  }

  lemma {:induction false} ItemsNotLessTransitive(a: seq<Item>, b: seq<Item>, c: seq<Item>)
    requires !ItemsLess(a, b) && !ItemsLess(b, c)
    ensures !ItemsLess(a, c)
    decreases |b|
  {
    if a != [] && b != [] && c != [] && a[0] == b[0] == c[0] {
      ItemsNotLessTransitive(a[1..], b[1..], c[1..]);
    }
  }

  lemma NotLessTransitive(a: PartitionSet, b: PartitionSet, c: PartitionSet)
    requires !Less(a, b) && !Less(b, c)
    ensures !Less(a, c)
  {
    if a.sum == b.sum == c.sum && |a.items| == |b.items| == |c.items| {
      ItemsNotLessTransitive(a.items, b.items, c.items);
    }
  }

  lemma {:induction false} ItemsLessAsymmetric(a: seq<Item>, b: seq<Item>)
    requires ItemsLess(a, b)
    ensures !ItemsLess(b, a)
  {
    if a != [] && a[0] == b[0] {
      ItemsLessAsymmetric(a[1..], b[1..]);
    }
  }

  lemma LessAsymmetric(a: PartitionSet, b: PartitionSet)
    requires Less(a, b)
    ensures !Less(b, a)
  {
    if a.sum == b.sum && |a.items| == |b.items| {
      ItemsLessAsymmetric(a.items, b.items);
    }
  }

  // Descending order, which is the order `sorted(..., reverse=True)` leaves.
  ghost predicate Descending(sets: seq<PartitionSet>) {
    forall i, j :: 0 <= i < j < |sets| ==> !Less(sets[i], sets[j])
  }

  function Insert(x: PartitionSet, sets: seq<PartitionSet>): seq<PartitionSet> {
    if sets == [] || Less(sets[0], x) then [x] + sets else [sets[0]] + Insert(x, sets[1..])
  }

  function SortDescending(sets: seq<PartitionSet>): seq<PartitionSet> {
    if sets == [] then [] else Insert(sets[0], SortDescending(sets[1..]))
  }

  lemma {:induction false} InsertMultiset(x: PartitionSet, sets: seq<PartitionSet>)
    ensures multiset(Insert(x, sets)) == multiset{x} + multiset(sets)
  {
    if sets != [] && !Less(sets[0], x) {
      InsertMultiset(x, sets[1..]);
      assert sets == [sets[0]] + sets[1..];
    }
  }

  lemma {:induction false} InsertDescending(x: PartitionSet, sets: seq<PartitionSet>)
    requires Descending(sets)
    ensures Descending(Insert(x, sets))
  {
    if sets == [] {
    } else if Less(sets[0], x) {
      LessAsymmetric(sets[0], x);
      forall j | 0 <= j < |sets|
        ensures !Less(x, sets[j])
      {
        if j > 0 {
          NotLessTransitive(x, sets[0], sets[j]);
        }
      }
    } else {
      InsertDescending(x, sets[1..]);
      InsertMultiset(x, sets[1..]);
      var rest := Insert(x, sets[1..]);
      forall j | 0 <= j < |rest|
        ensures !Less(sets[0], rest[j])
      {
        assert rest[j] in multiset(rest);
        assert rest[j] == x || rest[j] in sets[1..];
      }
    }
  }

  lemma {:induction false} SortCorrect(sets: seq<PartitionSet>)
    ensures Descending(SortDescending(sets))
    ensures multiset(SortDescending(sets)) == multiset(sets)
    ensures |SortDescending(sets)| == |sets|
  {
    if sets != [] {
      SortCorrect(sets[1..]);
      InsertDescending(sets[0], SortDescending(sets[1..]));
      InsertMultiset(sets[0], SortDescending(sets[1..]));
      assert sets == [sets[0]] + sets[1..];
    }
    assert |multiset(SortDescending(sets))| == |multiset(sets)|;
  }

  // ----- what a state holds -----

  function Contents(sets: seq<PartitionSet>): multiset<Item> {
    if sets == [] then multiset{} else multiset(sets[0].items) + Contents(sets[1..])
  }

  lemma {:induction false} ContentsAppend(a: seq<PartitionSet>, b: seq<PartitionSet>)
    ensures Contents(a + b) == Contents(a) + Contents(b)
  {
    if a == [] {
      assert a + b == b;
    } else {
      assert (a + b)[0] == a[0] && (a + b)[1..] == a[1..] + b;
      ContentsAppend(a[1..], b);
    }
  }

  lemma {:induction false} ContentsInsert(x: PartitionSet, sets: seq<PartitionSet>)
    ensures Contents(Insert(x, sets)) == multiset(x.items) + Contents(sets)
  {
    if sets != [] && !Less(sets[0], x) {
      ContentsInsert(x, sets[1..]);
      assert Insert(x, sets)[1..] == Insert(x, sets[1..]);
    } else {
      assert ([x] + sets)[1..] == sets;
    }
  }

  lemma {:induction false} ContentsSort(sets: seq<PartitionSet>)
    ensures Contents(SortDescending(sets)) == Contents(sets)
  {
    if sets != [] {
      ContentsSort(sets[1..]);
      ContentsInsert(sets[0], SortDescending(sets[1..]));
    }
  }

  function Reverse(sets: seq<PartitionSet>): (r: seq<PartitionSet>)
    ensures |r| == |sets| && forall i :: 0 <= i < |sets| ==> r[i] == sets[|sets| - 1 - i]
  {
    if sets == [] then [] else Reverse(sets[1..]) + [sets[0]]
  }

  lemma {:induction false} ContentsReverse(sets: seq<PartitionSet>)
    ensures Contents(Reverse(sets)) == Contents(sets)
  {
    if sets != [] {
      ContentsReverse(sets[1..]);
      ContentsAppend(Reverse(sets[1..]), [sets[0]]);
      assert Contents([sets[0]]) == multiset(sets[0].items) + Contents([]);
    }
  }

  // The i-th largest set of one state joins the i-th smallest of the other.
  function Paired(a: seq<PartitionSet>, b: seq<PartitionSet>): (r: seq<PartitionSet>)
    requires |a| == |b|
    ensures |r| == |a| && forall i :: 0 <= i < |a| ==> r[i] == a[i].Merge(b[|b| - 1 - i])
  {
    seq(|a|, i requires 0 <= i < |a| => a[i].Merge(b[|b| - 1 - i]))
  }

  lemma {:induction false} ContentsZip(a: seq<PartitionSet>, b: seq<PartitionSet>, r: seq<PartitionSet>)
    requires |a| == |b| == |r| && forall i :: 0 <= i < |a| ==> r[i] == a[i].Merge(b[i])
    ensures Contents(r) == Contents(a) + Contents(b)
  {
    if a != [] {
      ContentsZip(a[1..], b[1..], r[1..]);
      assert multiset(r[0].items) == multiset(a[0].items) + multiset(b[0].items);
    }
  }

  function MergeStates(a: seq<PartitionSet>, b: seq<PartitionSet>): seq<PartitionSet>
    requires |a| == |b|
  {
    SortDescending(Paired(a, b))
  }

  // Merging two states loses nothing and adds nothing.
  lemma MergeContents(a: seq<PartitionSet>, b: seq<PartitionSet>)
    requires |a| == |b|
    ensures Contents(MergeStates(a, b)) == Contents(a) + Contents(b)
  {
    ContentsZip(a, Reverse(b), Paired(a, b));
    ContentsReverse(b);
    ContentsSort(Paired(a, b));
  }

  // ----- what every state of the heap satisfies -----

  ghost predicate Summed(sets: seq<PartitionSet>) {
    forall i :: 0 <= i < |sets| ==> sets[i].sum == Total(sets[i].items)
  }

  ghost predicate Sparse(sets: seq<PartitionSet>) {
    (exists i :: 0 <= i < |sets| && sets[i].items == []) ==> forall j :: 0 <= j < |sets| ==> |sets[j].items| <= 1
  }

  // Sums are right, the sets are in descending order, and if some set is empty then no set
  // has more than one item.
  ghost predicate StateOk(sets: seq<PartitionSet>) {
    Summed(sets) && Descending(sets) && Sparse(sets)
  }

  ghost predicate SpreadAtMost(sets: seq<PartitionSet>, d: int) {
    forall i, j :: 0 <= i < |sets| && 0 <= j < |sets| ==> sets[i].sum - sets[j].sum <= d
  }

  ghost predicate EvenlyFilled(sets: seq<PartitionSet>, m: nat) {
    forall i :: 0 <= i < |sets| ==> |sets[i].items| == m
  }

  // Sorting only permutes the sets, so it keeps whatever holds of all of them.
  lemma SortKeeps(sets: seq<PartitionSet>)
    ensures forall x :: x in SortDescending(sets) <==> x in sets
  {
    SortCorrect(sets);
    forall x ensures x in SortDescending(sets) <==> x in sets {
      assert x in SortDescending(sets) <==> x in multiset(SortDescending(sets));
      assert x in sets <==> x in multiset(sets);
    }
  }

  // Empty sets come last.
  lemma EmptyLast(sets: seq<PartitionSet>, i: nat, j: nat)
    requires Summed(sets) && Descending(sets) && i < j < |sets| && sets[i].items == []
    ensures sets[j].items == []
  {
    assert sets[i].sum == 0 && !Less(sets[i], sets[j]);
  }

  lemma PairedSparse(a: seq<PartitionSet>, b: seq<PartitionSet>)
    requires |a| == |b| && StateOk(a) && StateOk(b)
    ensures Sparse(Paired(a, b))
  {
    var r, k := Paired(a, b), |a|;
    if i :| 0 <= i < k && r[i].items == [] {
      assert a[i].items == [] && b[k - 1 - i].items == [];
      forall j | 0 <= j < k
        ensures |r[j].items| <= 1
      {
        if j > i {
          EmptyLast(a, i, j);
        } else if j < i {
          EmptyLast(b, k - 1 - i, k - 1 - j);
        }
      }
    }
  }

  lemma MergeStateOk(a: seq<PartitionSet>, b: seq<PartitionSet>)
    requires |a| == |b| && StateOk(a) && StateOk(b)
    ensures StateOk(MergeStates(a, b)) && |MergeStates(a, b)| == |a|
  {
    var r, s := Paired(a, b), MergeStates(a, b);
    SortCorrect(r);
    SortKeeps(r);
    PairedSparse(a, b);
    forall i | 0 <= i < |r|
      ensures r[i].sum == Total(r[i].items)
    {
      TotalAppend(a[i].items, b[|b| - 1 - i].items);
    }
    forall i | 0 <= i < |s|
      ensures s[i].sum == Total(s[i].items)
    {
      assert s[i] in r;
    }
    if i :| 0 <= i < |s| && s[i].items == [] {
      assert s[i] in r;
      forall j | 0 <= j < |s|
        ensures |s[j].items| <= 1
      {
        assert s[j] in r;
      }
    }
  }

  // Merging never widens the spread beyond the larger of the two.
  lemma MergeSpread(a: seq<PartitionSet>, b: seq<PartitionSet>, d: int)
    requires |a| == |b| && Descending(a) && Descending(b)
    requires SpreadAtMost(a, d) && SpreadAtMost(b, d)
    ensures SpreadAtMost(MergeStates(a, b), d)
  {
    var r, s, k := Paired(a, b), MergeStates(a, b), |a|;
    forall i, j | 0 <= i < k && 0 <= j < k
      ensures r[i].sum - r[j].sum <= d
    {
      var i', j' := k - 1 - i, k - 1 - j;
      if i < j {
        assert b[i'].sum - b[j'].sum <= 0 by { assert !Less(b[j'], b[i']); }
      } else if j < i {
        assert a[i].sum - a[j].sum <= 0 by { assert !Less(a[j], a[i]); }
      }
    }
    SortKeeps(r);
    forall i, j | 0 <= i < |s| && 0 <= j < |s|
      ensures s[i].sum - s[j].sum <= d
    {
      assert s[i] in r && s[j] in r;
    }
  }

  lemma MergeEvenlyFilled(a: seq<PartitionSet>, b: seq<PartitionSet>, m: nat, n: nat)
    requires |a| == |b| && EvenlyFilled(a, m) && EvenlyFilled(b, n)
    ensures EvenlyFilled(MergeStates(a, b), m + n)
  {
    var r, s := Paired(a, b), MergeStates(a, b);
    SortKeeps(r);
    forall i | 0 <= i < |s|
      ensures |s[i].items| == m + n
    {
      assert s[i] in r;
    }
  }

  // ----- what the final state gives -----

  lemma {:induction false} ThinCount(sets: seq<PartitionSet>)
    requires forall j :: 0 <= j < |sets| ==> |sets[j].items| <= 1
    ensures |Contents(sets)| <= |sets|
  {
    if sets != [] {
      ThinCount(sets[1..]);
    }
  }

  // k sets of at most one item, one of them empty, hold fewer than k items.
  lemma {:induction false} SparseCount(sets: seq<PartitionSet>, i: nat)
    requires i < |sets| && sets[i].items == []
    requires forall j :: 0 <= j < |sets| ==> |sets[j].items| <= 1
    ensures |Contents(sets)| < |sets|
  {
    if i > 0 {
      SparseCount(sets[1..], i - 1);
    } else {
      ThinCount(sets[1..]);
    }
  }

  lemma NoEmptySet(sets: seq<PartitionSet>)
    requires StateOk(sets) && |Contents(sets)| >= |sets|
    ensures forall i :: 0 <= i < |sets| ==> sets[i].items != []
  {
    if i :| 0 <= i < |sets| && sets[i].items == [] {
      SparseCount(sets, i);
    }
  }
}
