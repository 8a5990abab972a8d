/**
 The checked entry point of sequence-length balancing, and the greedy alternative.
 */
module BalancedPartitions {
  import opened Wrappers
  import opened Arith
  import opened SeqLib
  import opened Partitions
  import opened SeqlenBalancing

  datatype BalanceError =
    | TooFewItems
    | NoParts
    | NotDivisible
    | WrongPartCount
    | EmptyPart
    | IndicesMismatch
    | UnequalParts

  // ----- sorting the indices of a part -----

  function InsertIndex(x: nat, s: seq<nat>): seq<nat> {
    if s == [] || x <= s[0] then [x] + s else [s[0]] + InsertIndex(x, s[1..])
  }

  function SortIndices(s: seq<nat>): seq<nat> {
    if s == [] then [] else InsertIndex(s[0], SortIndices(s[1..]))
  }

  ghost predicate InOrder(s: seq<nat>) {
    forall i, j :: 0 <= i < j < |s| ==> s[i] <= s[j]
  }

  lemma {:induction false} InsertIndexMultiset(x: nat, s: seq<nat>)
    ensures multiset(InsertIndex(x, s)) == multiset{x} + multiset(s)
  {
    if s != [] && x > s[0] {
      InsertIndexMultiset(x, s[1..]);
      assert s == [s[0]] + s[1..];
    }
  }

  lemma InsertedAbove(x: nat, s: seq<nat>, low: nat)
    requires low <= x && forall j :: 0 <= j < |s| ==> low <= s[j]
    requires multiset(InsertIndex(x, s)) == multiset{x} + multiset(s)
    ensures forall j :: 0 <= j < |InsertIndex(x, s)| ==> low <= InsertIndex(x, s)[j]
  {
    var rest := InsertIndex(x, s);
    forall j | 0 <= j < |rest|
      ensures low <= rest[j]
    {
      assert rest[j] in multiset(rest);
      assert rest[j] == x || rest[j] in s;
    }
  }

  lemma {:induction false} InsertIndexOrder(x: nat, s: seq<nat>)
    requires InOrder(s)
    ensures InOrder(InsertIndex(x, s))
  {
    if s != [] && x > s[0] {
      InsertIndexOrder(x, s[1..]);
      InsertIndexMultiset(x, s[1..]);
      InsertedAbove(x, s[1..], s[0]);
    }
  }

  lemma {:induction false} SortIndicesFacts(s: seq<nat>)
    ensures multiset(SortIndices(s)) == multiset(s) && InOrder(SortIndices(s))
    ensures |SortIndices(s)| == |s|
  {
    if s != [] {
      SortIndicesFacts(s[1..]);
      InsertIndexMultiset(s[0], SortIndices(s[1..]));
      InsertIndexOrder(s[0], SortIndices(s[1..]));
      assert s == [s[0]] + s[1..];
    }
    assert |multiset(SortIndices(s))| == |multiset(s)|;
  }

  lemma FindIn(s: seq<nat>, t: seq<nat>) returns (i: nat)
    requires multiset(s) == multiset(t) && s != []
    ensures i < |t| && t[i] == s[0]
    ensures multiset(t[..i] + t[i + 1..]) == multiset(t) - multiset{s[0]}
  {
    assert s[0] in multiset(s) && s[0] in multiset(t);
    i :| 0 <= i < |t| && t[i] == s[0];
    assert t == t[..i] + [t[i]] + t[i + 1..];
  }

  lemma {:induction false} LoadAppend(lens: seq<nat>, a: seq<nat>, b: seq<nat>)
    ensures Load(lens, a + b) == Load(lens, a) + Load(lens, b)
  {
    if a == [] {
      assert a + b == b;
    } else {
      assert (a + b)[0] == a[0] && (a + b)[1..] == a[1..] + b;
      LoadAppend(lens, a[1..], b);
    }
  }

  lemma {:induction false} LoadWithout(lens: seq<nat>, t: seq<nat>, i: nat)
    requires i < |t|
    ensures Load(lens, t) == Load(lens, [t[i]]) + Load(lens, t[..i] + t[i + 1..])
  {
    LoadAppend(lens, t[..i], t[i..]);
    LoadAppend(lens, [t[i]], t[i + 1..]);
    LoadAppend(lens, t[..i], t[i + 1..]);
    assert t == t[..i] + t[i..] && t[i..] == [t[i]] + t[i + 1..];
  }

  lemma {:induction false} LoadByMultiset(lens: seq<nat>, s: seq<nat>, t: seq<nat>)
    requires multiset(s) == multiset(t)
    ensures Load(lens, s) == Load(lens, t)
  {
    if s == [] {
      assert |multiset(t)| == 0;
    } else {
      var i := FindIn(s, t);
      var t' := t[..i] + t[i + 1..];
      assert s == [s[0]] + s[1..];
      assert multiset(s[1..]) == multiset(s) - multiset{s[0]} == multiset(t');
      LoadByMultiset(lens, s[1..], t');
      LoadWithout(lens, t, i);
    }
  }

  function SortedParts(parts: seq<seq<nat>>): (r: seq<seq<nat>>)
    ensures |r| == |parts| && forall p :: 0 <= p < |parts| ==> r[p] == SortIndices(parts[p])
  {
    seq(|parts|, p requires 0 <= p < |parts| => SortIndices(parts[p]))
  }

  lemma {:induction false} FlattenSorted(parts: seq<seq<nat>>)
    ensures multiset(Flatten(SortedParts(parts))) == multiset(Flatten(parts))
  {
    if parts != [] {
      FlattenSorted(parts[1..]);
      SortIndicesFacts(parts[0]);
      assert SortedParts(parts)[1..] == SortedParts(parts[1..]);
    }
  }

  lemma PermutationByMultiset(s: seq<nat>, t: seq<nat>, n: nat)
    requires multiset(s) == multiset(t) && Permutation(s, n)
    ensures Permutation(t, n)
  {
    assert |t| == |multiset(t)| == |multiset(s)| == n;
    forall i | 0 <= i < |t|
      ensures t[i] < n
    {
      assert t[i] in multiset(t);
      assert t[i] in multiset(s);
    }
    forall i, j | 0 <= i < j < |t|
      ensures t[i] != t[j]
    {
      if t[i] == t[j] {
        Occurrences(t, i, j);
        DistinctOnce(s, t[i]);
      }
    }
    forall v: nat | v < n
      ensures v in t
    {
      assert v in s && v in multiset(s);
      assert v in multiset(t);
    }
  }

  // Sorting within the parts changes neither which indices they hold nor their loads.
  lemma SortedPartsKeep(lens: seq<nat>, parts: seq<seq<nat>>, d: int)
    requires IndexLists(parts, |lens|) && LoadsWithin(lens, parts, d) && Permutation(Flatten(parts), |lens|)
    ensures IndexLists(SortedParts(parts), |lens|) && LoadsWithin(lens, SortedParts(parts), d)
    ensures Permutation(Flatten(SortedParts(parts)), |lens|)
  {
    hide Permutation;
    var r := SortedParts(parts);
    FlattenSorted(parts);
    PermutationByMultiset(Flatten(parts), Flatten(r), |lens|);
    forall p | 0 <= p < |parts|
      ensures forall i :: 0 <= i < |r[p]| ==> r[p][i] < |lens|
      ensures Load(lens, r[p]) == Load(lens, parts[p])
    {
      SortIndicesFacts(parts[p]);
      LoadByMultiset(lens, parts[p], r[p]);
      forall i | 0 <= i < |r[p]|
        ensures r[p][i] < |lens|
      {
        assert r[p][i] in multiset(r[p]);
        assert r[p][i] in multiset(parts[p]);
      }
    }
  }

  function Below(n: nat): (s: set<nat>)
    ensures forall v: nat :: v in s <==> v < n
  {
    if n == 0 then {} else Below(n - 1) + {n - 1}
  }

  function Members(s: seq<nat>): set<nat> {
    set v | v in s
  }

  function IndexSet(parts: seq<seq<nat>>): set<nat> {
    set v | v in Flatten(parts)
  }

  // The final checks: part count, no empty part, all indices seen; each part is sorted.
  method CheckAndSortPartitions(parts: seq<seq<nat>>, k: nat, n: nat) returns (r: Result<seq<seq<nat>>, BalanceError>)
    ensures r.Ok? <==> |parts| == k && NoneEmpty(parts) && IndexSet(parts) == Below(n)
    ensures r.Ok? ==> r.value == SortedParts(parts)
    ensures r.Err? ==>
      r.error == (if |parts| != k then WrongPartCount else if !NoneEmpty(parts) then EmptyPart else IndicesMismatch)
  {
    if |parts| != k {
      return Err(WrongPartCount);
    }
    var seen: set<nat> := {};
    var sorted: seq<seq<nat>> := [];
    for i := 0 to k
      invariant seen == IndexSet(parts[..i])
      invariant sorted == SortedParts(parts)[..i]
      invariant NoneEmpty(parts[..i])
    {
      if parts[i] == [] {
        return Err(EmptyPart);
      }
      for j := 0 to |parts[i]|
        invariant seen == IndexSet(parts[..i]) + Members(parts[i][..j])
      {
        seen := seen + {parts[i][j]};
      }
      assert parts[..i + 1] == parts[..i] + [parts[i]] && parts[i][..|parts[i]|] == parts[i];
      FlattenSnoc(parts[..i], parts[i]);
      sorted := sorted + [SortIndices(parts[i])];
    }
    assert parts[..k] == parts;
    if seen != Below(n) {
      return Err(IndicesMismatch);
    }
    return Ok(sorted);
  }

  lemma PermutationIndexSet(parts: seq<seq<nat>>, n: nat)
    requires Permutation(Flatten(parts), n)
    ensures IndexSet(parts) == Below(n)
  {
  }

  // Every later check succeeds: the only failures are the ones the caller can see coming.
  method GetSeqlenBalancedPartitions(lens: seq<nat>, k: nat, equalSize: bool)
    returns (r: Result<seq<seq<nat>>, BalanceError>)
    ensures r.Ok? <==> 1 <= k <= |lens| && (equalSize ==> |lens| % k == 0)
    ensures r.Ok? ==>
              && |r.value| == k && NoneEmpty(r.value) && IndexLists(r.value, |lens|)
              && Permutation(Flatten(r.value), |lens|)
              && LoadsWithin(lens, r.value, SpreadBound(lens, k, equalSize))
              && (equalSize ==> EqualParts(r.value, |lens|))
              && forall p :: 0 <= p < k ==> InOrder(r.value[p])
  {
    hide Permutation, SpreadBound, LoadsWithin, SortIndices;
    if |lens| < k {
      return Err(TooFewItems);
    }
    if k == 0 {
      return Err(NoParts);
    }
    if equalSize && |lens| % k != 0 {
      return Err(NotDivisible);
    }
    var parts;
    ghost var starts, rounds, last;
    parts, starts, rounds, last := KarmarkarKarp(lens, k, equalSize);
    PermutationIndexSet(parts, |lens|);
    SortedPartsKeep(lens, parts, SpreadBound(lens, k, equalSize));
    r := CheckAndSortPartitions(parts, k, |lens|);
    forall p | 0 <= p < k
      ensures |r.value[p]| == |parts[p]| && InOrder(r.value[p])
    {
      SortIndicesFacts(parts[p]);
    }
  }

  // ----- the greedy variant -----

  lemma FlattenHead(parts: seq<seq<nat>>)
    requires parts != []
    ensures multiset(Flatten(parts)) == multiset(parts[0]) + multiset(Flatten(parts[1..]))
  {
  }

  lemma {:induction false} FlattenGrow(parts: seq<seq<nat>>, p: nat, x: nat)
    requires p < |parts|
    ensures multiset(Flatten(parts[p := parts[p] + [x]])) == multiset(Flatten(parts)) + multiset{x}
  {
    hide Flatten;
    var r := parts[p := parts[p] + [x]];
    FlattenHead(r);
    FlattenHead(parts);
    if p == 0 {
      assert r[1..] == parts[1..];
      assert multiset(r[0]) == multiset(parts[0]) + multiset{x};
    } else {
      FlattenGrow(parts[1..], p - 1, x);
      assert r[1..] == parts[1..][p - 1 := parts[1..][p - 1] + [x]];
    }
  }

  lemma {:induction false} LoadGrow(lens: seq<nat>, part: seq<nat>, x: nat)
    requires x < |lens|
    ensures Load(lens, part + [x]) == Load(lens, part) + lens[x]
  {
    LoadAppend(lens, part, [x]);
    assert Load(lens, [x]) == lens[x] + Load(lens, []);
  }

  lemma RangePermutation(n: nat)
    ensures Permutation(Range(0, n), n)
  {
    forall v: nat | v < n
      ensures v in Range(0, n)
    {
      assert Range(0, n)[v] == v;
    }
  }

  lemma {:induction false} EmptyPartsFlatten(parts: seq<seq<nat>>)
    requires forall p :: 0 <= p < |parts| ==> parts[p] == []
    ensures Flatten(parts) == []
  {
    if parts != [] {
      EmptyPartsFlatten(parts[1..]);
    }
  }

  // The sum of a part counts the bias once per item.
  ghost predicate SumsBiased(lens: seq<nat>, parts: seq<seq<nat>>, sums: seq<int>, bias: nat) {
    |sums| == |parts| && forall p :: 0 <= p < |parts| ==> sums[p] == Load(lens, parts[p]) + bias * |parts[p]|
  }

  ghost predicate CountsWithinOne(parts: seq<seq<nat>>) {
    forall p, q :: 0 <= p < |parts| && 0 <= q < |parts| ==> |parts[p]| <= |parts[q]| + 1
  }

  ghost predicate Smallest(sums: seq<int>, j: nat) {
    j < |sums| && forall q :: 0 <= q < |sums| ==> sums[j] <= sums[q]
  }

  lemma {:induction false} LoadsTotal(lens: seq<nat>, parts: seq<seq<nat>>, p: nat)
    requires p < |parts|
    ensures Load(lens, parts[p]) <= Load(lens, Flatten(parts))
  {
    LoadAppend(lens, parts[0], Flatten(parts[1..]));
    if p > 0 {
      LoadsTotal(lens, parts[1..], p - 1);
    }
  }

  lemma {:induction false} LoadRange(lens: seq<nat>, lo: nat, hi: nat)
    requires lo <= hi <= |lens|
    ensures Load(lens, Range(lo, hi)) <= Sum(lens[lo..])
    decreases hi - lo
  {
    if lo < hi {
      LoadRange(lens, lo + 1, hi);
      assert Range(lo, hi)[1..] == Range(lo + 1, hi);
      assert lens[lo..][1..] == lens[lo + 1..];
    } else {
      SumAtLeast(lens[lo..], 0);
    }
  }

  lemma BiasDominates(bias: nat, a: nat, b: nat)
    requires a > b
    ensures bias * a >= bias * b + bias
  {
    Distribute(b, 1, bias);
    MulMono(b + 1, a, bias);
  }

  // A part with the smallest biased sum has the fewest items: the loads together stay below
  // one bias.
  lemma FewestItems(lens: seq<nat>, parts: seq<seq<nat>>, sums: seq<int>, bias: nat, j: nat, q: nat)
    requires SumsBiased(lens, parts, sums, bias) && Smallest(sums, j) && q < |parts|
    requires Load(lens, parts[q]) < bias
    ensures |parts[j]| <= |parts[q]|
  {
    assert sums[j] <= sums[q];
    if |parts[j]| > |parts[q]| {
      BiasDominates(bias, |parts[j]|, |parts[q]|);
    }
  }

  // The index of the first smallest sum.
  method MinIndex(sums: seq<int>) returns (j: nat)
    requires sums != []
    ensures Smallest(sums, j) && forall q :: 0 <= q < j ==> sums[q] > sums[j]
  {
    j := 0;
    for q := 0 to |sums|
      invariant j < |sums| && j <= q
      invariant forall p :: 0 <= p < q ==> sums[j] <= sums[p]
      invariant forall p :: 0 <= p < j ==> sums[p] > sums[j]
    {
      if sums[q] < sums[j] {
        j := q;
      }
    }
  }

  lemma GreedyCounts(lens: seq<nat>, parts: seq<seq<nat>>, sums: seq<int>, bias: nat, i: nat, j: nat)
    requires SumsBiased(lens, parts, sums, bias) && Smallest(sums, j)
    requires CountsWithinOne(parts) && i < |lens| && multiset(Flatten(parts)) == multiset(Range(0, i))
    requires bias == Sum(lens) + 1
    ensures forall q :: 0 <= q < |parts| ==> |parts[j]| <= |parts[q]|
    ensures CountsWithinOne(parts[j := parts[j] + [i]])
  {
    forall q | 0 <= q < |parts|
      ensures |parts[j]| <= |parts[q]|
    {
      LoadsTotal(lens, parts, q);
      LoadByMultiset(lens, Flatten(parts), Range(0, i));
      LoadRange(lens, 0, i);
      assert lens[0..] == lens;
      FewestItems(lens, parts, sums, bias, j, q);
    }
  }

  lemma GreedyLoads(lens: seq<nat>, parts: seq<seq<nat>>, sums: seq<int>, i: nat, j: nat)
    requires SumsBiased(lens, parts, sums, 0) && Smallest(sums, j)
    requires i < |lens| && LoadsWithin(lens, parts, Maximum(lens))
    ensures LoadsWithin(lens, parts[j := parts[j] + [i]], Maximum(lens))
  {
    LoadGrow(lens, parts[j], i);
    MaximumBounds(lens, i);
    var r := parts[j := parts[j] + [i]];
    forall p, q | 0 <= p < |r| && 0 <= q < |r|
      ensures Load(lens, r[p]) - Load(lens, r[q]) <= Maximum(lens)
    {
      assert sums[j] <= sums[p] && sums[j] <= sums[q];
      assert Load(lens, parts[p]) - Load(lens, parts[q]) <= Maximum(lens);
      assert Load(lens, parts[p]) - Load(lens, parts[j]) <= Maximum(lens);
    }
  }

  lemma GreedySums(lens: seq<nat>, parts: seq<seq<nat>>, sums: seq<int>, bias: nat, i: nat, j: nat)
    requires IndexLists(parts, |lens|) && SumsBiased(lens, parts, sums, bias) && j < |parts| && i < |lens|
    ensures IndexLists(parts[j := parts[j] + [i]], |lens|)
    ensures SumsBiased(lens, parts[j := parts[j] + [i]], sums[j := sums[j] + lens[i] + bias], bias)
  {
    LoadGrow(lens, parts[j], i);
    assert bias * (|parts[j]| + 1) == bias * |parts[j]| + bias;
  }

  function Sizes(parts: seq<seq<nat>>): (r: seq<int>)
    ensures |r| == |parts| && forall p :: 0 <= p < |parts| ==> r[p] == |parts[p]|
  {
    seq(|parts|, p requires 0 <= p < |parts| => |parts[p]|)
  }

  lemma {:induction false} FlattenSize(parts: seq<seq<nat>>)
    ensures |Flatten(parts)| == Sum(Sizes(parts))
  {
    if parts != [] {
      FlattenSize(parts[1..]);
      assert Sizes(parts)[1..] == Sizes(parts[1..]);
    }
  }

  lemma SumBetween(sizes: seq<int>, low: int, j: nat, q: nat)
    requires j < |sizes| && q < |sizes| && sizes[j] == low < sizes[q]
    requires forall i :: 0 <= i < |sizes| ==> low <= sizes[i] <= low + 1
    ensures low * |sizes| < Sum(sizes) < low * |sizes| + |sizes|
  {
    SumUpdate(sizes, j, low + 1);
    SumAtMost(sizes[j := low + 1], low + 1);
    Distribute(low, 1, |sizes|);
    SumUpdate(sizes, q, low);
    SumAtLeast(sizes[q := low], low);
  }

  // A part away from the fewest leaves a total strictly between two multiples of k.
  lemma UnequalCount(parts: seq<seq<nat>>, n: nat, j: nat, p: nat)
    requires CountsWithinOne(parts) && |Flatten(parts)| == n
    requires j < |parts| && forall q :: 0 <= q < |parts| ==> |parts[j]| <= |parts[q]|
    requires p < |parts| && |parts[p]| * |parts| != n
    ensures n % |parts| != 0
  {
    hide Flatten;
    var sizes, low := Sizes(parts), |parts[j]|;
    FlattenSize(parts);
    assert forall i :: 0 <= i < |sizes| ==> low <= sizes[i] <= low + 1;
    hide CountsWithinOne;
    if q :| 0 <= q < |parts| && sizes[q] > low {
      SumBetween(sizes, low, j, q);
      BetweenMultiples(n, |parts|, low);
    } else {
      SumAtMost(sizes, low);
      SumAtLeast(sizes, low);
    }
  }

  lemma FewestPart(parts: seq<seq<nat>>) returns (j: nat)
    requires parts != []
    ensures j < |parts| && forall q :: 0 <= q < |parts| ==> |parts[j]| <= |parts[q]|
  {
    j := 0;
    for q := 0 to |parts|
      invariant j < |parts| && forall p :: 0 <= p < q ==> |parts[j]| <= |parts[p]|
    {
      if |parts[q]| < |parts[j]| {
        j := q;
      }
    }
  }

  // Counts that differ by at most one are equal exactly when the number of parts divides n.
  lemma EqualExactly(parts: seq<seq<nat>>, n: nat)
    requires parts != [] && CountsWithinOne(parts) && |Flatten(parts)| == n
    ensures EqualParts(parts, n) <==> n % |parts| == 0
  {
    hide CountsWithinOne, Flatten;
    var k := |parts|;
    var j := FewestPart(parts);
    if EqualParts(parts, n) {
      assert |parts[j]| * k == n;
      ModMultiple(|parts[j]|, k);
    } else {
      var p :| 0 <= p < k && |parts[p]| * k != n;
      UnequalCount(parts, n, j, p);
    }
  }

  lemma SmallestInRange(sums: seq<int>, j: nat)
    requires Smallest(sums, j)
    ensures j < |sums|
  {
  }

  // The first i items are dealt out, evenly in the sense that is wanted.
  ghost predicate Dealt(lens: seq<nat>, parts: seq<seq<nat>>, sums: seq<int>, bias: nat, equalSize: bool, i: nat) {
    && i <= |lens| && IndexLists(parts, |lens|)
    && SumsBiased(lens, parts, sums, bias)
    && multiset(Flatten(parts)) == multiset(Range(0, i))
    && (if equalSize then CountsWithinOne(parts) else LoadsWithin(lens, parts, Maximum(lens)))
  }

  lemma NoneDealt(lens: seq<nat>, parts: seq<seq<nat>>, sums: seq<int>, bias: nat, equalSize: bool)
    requires |parts| == |sums| && forall p :: 0 <= p < |parts| ==> parts[p] == [] && sums[p] == 0
    ensures Dealt(lens, parts, sums, bias, equalSize, 0)
  {
    EmptyPartsFlatten(parts);
  }

  lemma DealOne(lens: seq<nat>, parts: seq<seq<nat>>, sums: seq<int>, bias: nat, equalSize: bool, i: nat, j: nat)
    requires Dealt(lens, parts, sums, bias, equalSize, i) && i < |lens| && Smallest(sums, j)
    requires bias == if equalSize then Sum(lens) + 1 else 0
    ensures j < |parts| == |sums|
    ensures Dealt(lens, parts[j := parts[j] + [i]], sums[j := sums[j] + lens[i] + bias], bias, equalSize, i + 1)
  {
    hide LoadsWithin, Flatten, Maximum, CountsWithinOne;
    GreedySums(lens, parts, sums, bias, i, j);
    if equalSize {
      GreedyCounts(lens, parts, sums, bias, i, j);
    } else {
      GreedyLoads(lens, parts, sums, i, j);
    }
    FlattenGrow(parts, j, i);
    assert Range(0, i + 1) == Range(0, i) + [i];
  }

  lemma AllDealt(lens: seq<nat>, parts: seq<seq<nat>>, sums: seq<int>, bias: nat, equalSize: bool)
    requires Dealt(lens, parts, sums, bias, equalSize, |lens|)
    ensures IndexLists(parts, |lens|) && Permutation(Flatten(parts), |lens|) && |Flatten(parts)| == |lens|
    ensures if equalSize then CountsWithinOne(parts) else LoadsWithin(lens, parts, Maximum(lens))
  {
    hide LoadsWithin, Flatten, Maximum, CountsWithinOne, SumsBiased;
    RangePermutation(|lens|);
    PermutationByMultiset(Range(0, |lens|), Flatten(parts), |lens|);
    assert |multiset(Flatten(parts))| == |multiset(Range(0, |lens|))|;
  }

  // Each length in turn goes to the part with the smallest sum; with equal sizes asked for,
  // every item weighs more than all the lengths together.
  method GreedyPartition(lens: seq<nat>, k: nat, equalSize: bool) returns (r: Result<seq<seq<nat>>, BalanceError>)
    requires 1 <= k
    ensures r.Ok? <==> (equalSize ==> |lens| % k == 0)
    ensures r.Ok? ==> |r.value| == k && IndexLists(r.value, |lens|) && Permutation(Flatten(r.value), |lens|)
    ensures r.Ok? && equalSize ==> EqualParts(r.value, |lens|)
    ensures r.Ok? && !equalSize ==> LoadsWithin(lens, r.value, Maximum(lens))
  {
    hide SumsBiased, LoadsWithin, Permutation, Flatten, Maximum, CountsWithinOne, Smallest, Dealt;
    SumAtLeast(lens, 0);
    var bias := if equalSize then Sum(lens) + 1 else 0;
    var parts: seq<seq<nat>> := seq(k, _ => []);
    var sums: seq<int> := seq(k, _ => 0);
    NoneDealt(lens, parts, sums, bias, equalSize);
    for i := 0 to |lens|
      invariant |parts| == |sums| == k && Dealt(lens, parts, sums, bias, equalSize, i)
    {
      var j := MinIndex(sums);
      SmallestInRange(sums, j);
      DealOne(lens, parts, sums, bias, equalSize, i, j);
      parts := parts[j := parts[j] + [i]];
      sums := sums[j := sums[j] + lens[i] + bias];
    }
    AllDealt(lens, parts, sums, bias, equalSize);
    if equalSize {
      EqualExactly(parts, |lens|);
      for p := 0 to k
        invariant forall q :: 0 <= q < p ==> |parts[q]| * k == |lens|
      {
        if |parts[p]| * k != |lens| {
          return Err(UnequalParts);
        }
      }
    }
    return Ok(parts);
  }
}
