/**
 Token-bounded micro-batching, the inverse index map, and the reward model's use of both.
 */
module MicroBatches {
  import opened Wrappers
  import opened Arith
  import opened SeqLib
  import opened Selections
  import opened Partitions
  import opened BalancedPartitions

  datatype MicroBatchError =
    | TokenLimitTooSmall
    | ZeroDivision
    | TooManyMicroBatches
    | Unbalanced(error: BalanceError)

  // The knobs: the token limit, a minimum number of micro-batches, the largest number any
  // other rank of the data-parallel group asks for, and a divisor for the number.
  datatype Limits = Limits(maxTokenLen: nat, minNum: Option<nat>, groupMax: Option<nat>, divisor: Option<nat>)

  predicate WellSet(limits: Limits, maxSeqLen: nat) {
    && maxSeqLen <= limits.maxTokenLen && limits.maxTokenLen != 0
    && (limits.divisor.Some? ==> limits.divisor.value != 0)
  }

  function Max(a: int, b: int): int {
    if a < b then b else a
  }

  function MicroBatchCount(lens: seq<nat>, limits: Limits): int
    requires limits.maxTokenLen != 0 && (limits.divisor.Some? ==> limits.divisor.value != 0)
  {
    var needed := CeilDiv(Sum(lens), limits.maxTokenLen);
    var base := if |lens| < needed then |lens| else needed;
    var local := if limits.minNum.Some? then Max(limits.minNum.value, base) else base;
    var agreed := if limits.groupMax.Some? then Max(local, limits.groupMax.value) else local;
    if limits.divisor.Some? then RoundUp(agreed, limits.divisor.value) else agreed
  }

  lemma CountNotBelow(lens: seq<nat>, limits: Limits)
    requires limits.maxTokenLen != 0 && (limits.divisor.Some? ==> limits.divisor.value != 0)
    ensures MicroBatchCount(lens, limits) >= 0
    ensures MicroBatchCount(lens, limits) >= |lens| || MicroBatchCount(lens, limits) * limits.maxTokenLen >= Sum(lens)
  {
    SumAtLeast(lens, 0);
    var needed := CeilDiv(Sum(lens), limits.maxTokenLen);
    CeilDivLeast(Sum(lens), limits.maxTokenLen);
    MulSign(needed, limits.maxTokenLen);
    var base := if |lens| < needed then |lens| else needed;
    var local := if limits.minNum.Some? then Max(limits.minNum.value, base) else base;
    var agreed := if limits.groupMax.Some? then Max(local, limits.groupMax.value) else local;
    if limits.divisor.Some? {
      RoundUpLeast(agreed, limits.divisor.value, 0);
    }
    var m := MicroBatchCount(lens, limits);
    assert m >= base;
    if needed <= m {
      MulMono(needed, m, limits.maxTokenLen);
    }
  }

  // As many micro-batches as rows, or enough to hold every token at the limit.
  ghost predicate Enough(lens: seq<nat>, maxTokenLen: nat, m: int) {
    m >= |lens| || m * maxTokenLen >= Sum(lens)
  }

  // A number of micro-batches that serves this rank's rows and everything that was asked for.
  ghost predicate Serves(lens: seq<nat>, limits: Limits, m: int) {
    && Enough(lens, limits.maxTokenLen, m)
    && (limits.minNum.Some? ==> m >= limits.minNum.value)
    && (limits.groupMax.Some? ==> m >= limits.groupMax.value)
    && (limits.divisor.Some? ==> limits.divisor.value != 0 && m % limits.divisor.value == 0)
  }

  // The number is the least that serves.
  lemma CountIsLeast(lens: seq<nat>, limits: Limits, m: int)
    requires limits.maxTokenLen != 0 && (limits.divisor.Some? ==> limits.divisor.value != 0)
    ensures Serves(lens, limits, MicroBatchCount(lens, limits))
    ensures Serves(lens, limits, m) ==> MicroBatchCount(lens, limits) <= m
  {
    CountNotBelow(lens, limits);
    var needed := CeilDiv(Sum(lens), limits.maxTokenLen);
    CeilDivLeast(Sum(lens), limits.maxTokenLen);
    if m * limits.maxTokenLen >= Sum(lens) && m < needed {
      MulMono(m, needed - 1, limits.maxTokenLen);
    }
    var base := if |lens| < needed then |lens| else needed;
    var local := if limits.minNum.Some? then Max(limits.minNum.value, base) else base;
    var agreed := if limits.groupMax.Some? then Max(local, limits.groupMax.value) else local;
    if limits.divisor.Some? {
      RoundUpLeast(agreed, limits.divisor.value, m);
    }
  }

  lemma LeastServes(lens: seq<nat>, limits: Limits)
    requires limits.maxTokenLen != 0 && (limits.divisor.Some? ==> limits.divisor.value != 0)
    ensures Serves(lens, limits, MicroBatchCount(lens, limits))
    ensures forall m :: Serves(lens, limits, m) ==> MicroBatchCount(lens, limits) <= m
  {
    CountIsLeast(lens, limits, 0);
    forall m | Serves(lens, limits, m)
      ensures MicroBatchCount(lens, limits) <= m
    {
      CountIsLeast(lens, limits, m);
    }
  }

  // What a rank asks for before it hears of the others.
  function LocalCount(lens: seq<nat>, limits: Limits): int
    requires limits.maxTokenLen != 0
  {
    MicroBatchCount(lens, limits.(groupMax := None, divisor := None))
  }

  // Ranks that have agreed on a number that none of them exceeds, under one divisor, make the same
  // number of micro-batches, whatever their rows.
  lemma RanksAgree(lens: seq<nat>, limits: Limits, lens': seq<nat>, limits': Limits)
    requires limits.maxTokenLen != 0 && limits'.maxTokenLen != 0
    requires limits.divisor == limits'.divisor && (limits.divisor.Some? ==> limits.divisor.value != 0)
    requires limits.groupMax.Some? && limits.groupMax == limits'.groupMax
    requires LocalCount(lens, limits) <= limits.groupMax.value && LocalCount(lens', limits') <= limits.groupMax.value
    ensures MicroBatchCount(lens, limits) == MicroBatchCount(lens', limits')
  {
  }

  // ----- how many tokens a micro-batch can hold -----

  function Loads(lens: seq<nat>, parts: seq<seq<nat>>): (r: seq<int>)
    ensures |r| == |parts| && forall p :: 0 <= p < |parts| ==> r[p] == Load(lens, parts[p])
  {
    seq(|parts|, p requires 0 <= p < |parts| => Load(lens, parts[p]))
  }

  lemma {:induction false} LoadsSum(lens: seq<nat>, parts: seq<seq<nat>>)
    ensures Sum(Loads(lens, parts)) == Load(lens, Flatten(parts))
  {
    if parts != [] {
      LoadsSum(lens, parts[1..]);
      assert Loads(lens, parts)[1..] == Loads(lens, parts[1..]);
      LoadAppend(lens, parts[0], Flatten(parts[1..]));
    }
  }

  lemma {:induction false} LoadAll(lens: seq<nat>, lo: nat)
    requires lo <= |lens|
    ensures Load(lens, Range(lo, |lens|)) == Sum(lens[lo..])
    decreases |lens| - lo
  {
    if lo < |lens| {
      LoadAll(lens, lo + 1);
      assert Range(lo, |lens|)[1..] == Range(lo + 1, |lens|);
      assert lens[lo..][1..] == lens[lo + 1..];
    }
  }

  lemma PermutationMultiset(s: seq<nat>, n: nat)
    requires Permutation(s, n)
    ensures multiset(s) == multiset(Range(0, n))
  {
    RangePermutation(n);
    forall v: nat
      ensures multiset(s)[v] == multiset(Range(0, n))[v]
    {
      DistinctOnce(s, v);
      DistinctOnce(Range(0, n), v);
      assert v in multiset(s) <==> v in s;
      assert v in multiset(Range(0, n)) <==> v in Range(0, n);
    }
  }

  // All the tokens are in some part.
  lemma LoadsConserved(lens: seq<nat>, parts: seq<seq<nat>>)
    requires Permutation(Flatten(parts), |lens|)
    ensures Sum(Loads(lens, parts)) == Sum(lens)
  {
    LoadsSum(lens, parts);
    PermutationMultiset(Flatten(parts), |lens|);
    LoadByMultiset(lens, Flatten(parts), Range(0, |lens|));
    assert lens[0..] == lens;
    LoadAll(lens, 0);
  }

  lemma {:induction false} SumAtLeastBut(s: seq<int>, p: nat, c: int)
    requires p < |s| && forall i :: 0 <= i < |s| ==> s[i] >= s[p] - c
    ensures Sum(s) >= |s| * s[p] - (|s| - 1) * c
  {
    var t := s[p := s[p] - c];
    SumUpdate(s, p, s[p] - c);
    SumAtLeast(t, s[p] - c);
    Distribute(s[p], c, |s|);
    Distribute(|s|, 1, c);
  }

  // A part exceeds its fair share by less than one longest row.
  lemma FairShare(lens: seq<nat>, parts: seq<seq<nat>>, p: nat)
    requires p < |parts| && Permutation(Flatten(parts), |lens|)
    requires LoadsWithin(lens, parts, Maximum(lens))
    ensures |parts| * Load(lens, parts[p]) <= Sum(lens) + (|parts| - 1) * Maximum(lens)
  {
    LoadsConserved(lens, parts);
    SumAtLeastBut(Loads(lens, parts), p, Maximum(lens));
  }

  // With as many parts as rows, every part is a single row.
  lemma SingleRows(lens: seq<nat>, parts: seq<seq<nat>>, p: nat)
    requires p < |parts| && Permutation(Flatten(parts), |lens|) && NoneEmpty(parts) && |parts| >= |lens|
    ensures Load(lens, parts[p]) <= Maximum(lens)
  {
    var sizes := Sizes(parts);
    FlattenSize(parts);
    if |parts[p]| > 1 {
      SumUpdate(sizes, p, 1);
      SumAtLeast(sizes[p := 1], 1);
    }
    assert parts[p] == [parts[p][0]];
    assert Load(lens, parts[p]) == (if parts[p][0] < |lens| then lens[parts[p][0]] else 0) + Load(lens, []);
    if parts[p][0] < |lens| {
      MaximumBounds(lens, parts[p][0]);
    }
  }

  // No micro-batch exceeds the limit by more than the longest row.
  lemma TokenBound(lens: seq<nat>, parts: seq<seq<nat>>, limits: Limits, p: nat)
    requires limits.maxTokenLen != 0 && (limits.divisor.Some? ==> limits.divisor.value != 0)
    requires p < |parts| == MicroBatchCount(lens, limits) && Permutation(Flatten(parts), |lens|) && NoneEmpty(parts)
    requires LoadsWithin(lens, parts, Maximum(lens))
    ensures Load(lens, parts[p]) <= limits.maxTokenLen + Maximum(lens)
  {
    CountNotBelow(lens, limits);
    var m, load, longest := |parts|, Load(lens, parts[p]), Maximum(lens);
    if m >= |lens| {
      SingleRows(lens, parts, p);
    } else {
      FairShare(lens, parts, p);
      Distribute(m, 1, longest);
      Distribute(limits.maxTokenLen, longest, m);
      MulCancel(load, limits.maxTokenLen + longest, m);
    }
  }

  lemma {:induction false} MaximumAtMost(lens: seq<nat>, c: nat)
    requires forall i :: 0 <= i < |lens| ==> lens[i] <= c
    ensures Maximum(lens) <= c
  {
    if lens != [] {
      MaximumAtMost(lens[1..], c);
    }
  }

  lemma {:induction false} LoadOfThrees(part: seq<nat>)
    requires forall i :: 0 <= i < |part| ==> part[i] < 3
    ensures Load([3, 3, 3], part) == 3 * |part|
  {
    if part != [] {
      LoadOfThrees(part[1..]);
      assert [3, 3, 3][part[0]] == 3;
    }
  }

  // The plain limit is not kept: three rows of three tokens cannot be put into the two
  // micro-batches that a limit of five asks for.
  lemma PlainLimitBroken(parts: seq<seq<nat>>)
    requires |parts| == MicroBatchCount([3, 3, 3], Limits(5, None, None, None))
    requires Permutation(Flatten(parts), 3) && IndexLists(parts, 3)
    ensures exists p :: 0 <= p < |parts| && Load([3, 3, 3], parts[p]) > 5
  {
    var lens := [3, 3, 3];
    assert Sum(lens) == 3 + Sum([3, 3]) == 6 + Sum([3]) == 9;
    assert |parts| == 2;
    LoadsConserved(lens, parts);
    var loads := Loads(lens, parts);
    LoadOfThrees(parts[0]);
    LoadOfThrees(parts[1]);
    assert Sum(loads) == loads[0] + Sum(loads[1..]) && loads[1..] == [loads[1]];
    assert Sum([loads[1]]) == loads[1] + Sum([]);
    assert Load(lens, parts[0]) > 5 || Load(lens, parts[1]) > 5;
  }

  // A limit that leaves room for uneven rows is kept, and so is any limit that no row exceeds when
  // there are as many micro-batches as rows.
  lemma PlainLimitKept(lens: seq<nat>, parts: seq<seq<nat>>, maxTokenLen: nat, p: nat)
    requires p < |parts| && Permutation(Flatten(parts), |lens|) && NoneEmpty(parts)
    requires LoadsWithin(lens, parts, Maximum(lens))
    requires || Sum(lens) + (|parts| - 1) * Maximum(lens) <= |parts| * maxTokenLen
             || (|parts| >= |lens| && Maximum(lens) <= maxTokenLen)
    ensures Load(lens, parts[p]) <= maxTokenLen
  {
    hide LoadsWithin, Permutation, NoneEmpty;
    if |parts| >= |lens| && Maximum(lens) <= maxTokenLen {
      SingleRows(lens, parts, p);
    } else {
      FairShare(lens, parts, p);
      MulCancel(Load(lens, parts[p]), maxTokenLen, |parts|);
    }
  }

  lemma {:induction false} SomePart(parts: seq<seq<nat>>, x: nat) returns (p: nat, k: nat)
    requires x in Flatten(parts)
    ensures p < |parts| && k < |parts[p]| && parts[p][k] == x
  {
    if x in parts[0] {
      p := 0;
      k :| 0 <= k < |parts[0]| && parts[0][k] == x;
    } else {
      p, k := SomePart(parts[1..], x);
      p := p + 1;
    }
  }

  // Where the limit is kept, the rows fit into the micro-batches and so does each row on its own.
  lemma PlainLimitNeeds(lens: seq<nat>, parts: seq<seq<nat>>, maxTokenLen: nat)
    requires Permutation(Flatten(parts), |lens|)
    requires forall p :: 0 <= p < |parts| ==> Load(lens, parts[p]) <= maxTokenLen
    ensures Sum(lens) <= |parts| * maxTokenLen && Maximum(lens) <= maxTokenLen
  {
    LoadsConserved(lens, parts);
    SumAtMost(Loads(lens, parts), maxTokenLen);
    forall i | 0 <= i < |lens|
      ensures lens[i] <= maxTokenLen
    {
      assert i in Flatten(parts);
      var p, k := SomePart(parts, i);
      LoadWithout(lens, parts[p], k);
    }
    MaximumAtMost(lens, maxTokenLen);
  }

  // ----- the method -----

  ghost predicate Gathered<Row(!new)>(batch: seq<Row>, micro: seq<seq<Row>>, parts: seq<seq<nat>>) {
    && |micro| == |parts| && IndexLists(parts, |batch|)
    && forall p :: 0 <= p < |parts| ==> micro[p] == Gather(batch, parts[p])
  }

  method RearrangeMicroBatches<Row(!new)>(batch: seq<Row>, masks: seq<seq<bool>>, maxSeqLen: nat, limits: Limits)
    returns (r: Result<(seq<seq<Row>>, seq<seq<nat>>), MicroBatchError>)
    requires |masks| == |batch| && forall i :: 0 <= i < |masks| ==> |masks[i]| == maxSeqLen
    ensures r.Ok? <==> WellSet(limits, maxSeqLen) && 1 <= MicroBatchCount(Lengths(masks), limits) <= |batch|
    ensures r.Ok? ==>
              var (micro, parts) := r.value;
              && |parts| == MicroBatchCount(Lengths(masks), limits)
              && Serves(Lengths(masks), limits, |parts|)
              && (forall m :: Serves(Lengths(masks), limits, m) ==> |parts| <= m)
              && NoneEmpty(parts) && Permutation(Flatten(parts), |batch|)
              && Gathered(batch, micro, parts)
              && LoadsWithin(Lengths(masks), parts, Maximum(Lengths(masks)))
              && forall p :: 0 <= p < |parts| ==>
                   && Load(Lengths(masks), parts[p]) <= limits.maxTokenLen + Maximum(Lengths(masks))
                   && Load(Lengths(masks), parts[p]) <= 2 * limits.maxTokenLen
  {
    hide MicroBatchCount, Serves, Permutation, LoadsWithin, Maximum, Flatten, Load;
    if limits.maxTokenLen < maxSeqLen {
      return Err(TokenLimitTooSmall);
    }
    if limits.maxTokenLen == 0 || (limits.divisor.Some? && limits.divisor.value == 0) {
      return Err(ZeroDivision);
    }
    var lens := Lengths(masks);
    var count := MicroBatchCount(lens, limits);
    CountNotBelow(lens, limits);
    if count > |lens| {
      return Err(TooManyMicroBatches);
    }
    var balanced := GetSeqlenBalancedPartitions(lens, count, false);
    if balanced.Err? {
      return Err(Unbalanced(balanced.error));
    }
    var parts := balanced.value;
    var micro: seq<seq<Row>> := [];
    for p := 0 to |parts|
      invariant |micro| == p && forall q :: 0 <= q < p ==> micro[q] == Gather(batch, parts[q])
    {
      var current: seq<Row> := [];
      for i := 0 to |parts[p]|
        invariant current == Gather(batch, parts[p])[..i]
      {
        current := current + batch[parts[p][i]..parts[p][i] + 1];
      }
      micro := micro + [current];
    }
    LeastServes(lens, limits);
    MaximumAtMost(lens, maxSeqLen);
    assert SpreadBound(lens, count, false) == Maximum(lens);
    forall p | 0 <= p < |parts|
      ensures Load(lens, parts[p]) <= limits.maxTokenLen + Maximum(lens)
    {
      TokenBound(lens, parts, limits, p);
    }
    return Ok((micro, parts));
  }

  // ----- undoing the rearrangement -----

  ghost predicate InverseOf(r: seq<nat>, m: seq<nat>) {
    && |r| == |m|
    && (forall i :: 0 <= i < |m| ==> m[i] < |r| && r[m[i]] == i)
    && (forall j :: 0 <= j < |r| ==> r[j] < |m| && m[r[j]] == j)
  }

  method GetReverseIdx(idxMap: seq<nat>) returns (reverse: seq<nat>)
    requires forall i :: 0 <= i < |idxMap| ==> idxMap[i] < |idxMap|
    ensures |reverse| == |idxMap|
    ensures Permutation(idxMap, |idxMap|) ==> InverseOf(reverse, idxMap)
  {
    reverse := idxMap;
    for i := 0 to |idxMap|
      invariant |reverse| == |idxMap|
      invariant Permutation(idxMap, |idxMap|) ==> forall k :: 0 <= k < i ==> reverse[idxMap[k]] == k
    {
      reverse := reverse[idxMap[i] := i];
    }
    if Permutation(idxMap, |idxMap|) {
      forall j | 0 <= j < |reverse|
        ensures reverse[j] < |idxMap| && idxMap[reverse[j]] == j
      {
        assert j in idxMap;
        var k :| 0 <= k < |idxMap| && idxMap[k] == j;
        assert reverse[idxMap[k]] == k;
      }
    }
  }

  lemma {:induction false} ScoredFlatten<Row, S>(score: Row -> S, batches: seq<seq<Row>>, outputs: seq<seq<S>>)
    requires |outputs| == |batches| && forall b :: 0 <= b < |batches| ==> outputs[b] == MapSeq(score, batches[b])
    ensures Flatten(outputs) == MapSeq(score, Flatten(batches))
  {
    if batches != [] {
      ScoredFlatten(score, batches[1..], outputs[1..]);
      assert Flatten(outputs) == outputs[0] + Flatten(outputs[1..]);
    }
  }

  lemma {:induction false} GatherFlatten<Row(!new)>(rows: seq<Row>, micro: seq<seq<Row>>, parts: seq<seq<nat>>)
    requires Gathered(rows, micro, parts)
    ensures forall i :: 0 <= i < |Flatten<nat>(parts)| ==> Flatten<nat>(parts)[i] < |rows|
    ensures Flatten(micro) == Gather(rows, Flatten(parts))
  {
    if parts != [] {
      assert Gathered(rows, micro[1..], parts[1..]);
      GatherFlatten(rows, micro[1..], parts[1..]);
      assert micro[0] == Gather(rows, parts[0]);
      forall i | 0 <= i < |Flatten<nat>(parts)|
        ensures Flatten<nat>(parts)[i] < |rows|
      {
        if i < |parts[0]| {
          assert Flatten<nat>(parts)[i] == parts[0][i];
        } else {
          assert Flatten<nat>(parts)[i] == Flatten<nat>(parts[1..])[i - |parts[0]|];
        }
      }
    }
  }

  // Rearranging, scoring row by row and indexing with the inverse is scoring in place.
  lemma ScoresRestored<Row(!new), S(!new)>(score: Row -> S, rows: seq<Row>, micro: seq<seq<Row>>, parts: seq<seq<nat>>,
                                           outputs: seq<seq<S>>, reverse: seq<nat>)
    requires Gathered(rows, micro, parts) && Permutation(Flatten(parts), |rows|)
    requires |outputs| == |micro| && forall b :: 0 <= b < |micro| ==> outputs[b] == MapSeq(score, micro[b])
    requires InverseOf(reverse, Flatten(parts))
    ensures |Flatten(outputs)| == |rows|
    ensures Gather(Flatten(outputs), reverse) == MapSeq(score, rows)
  {
    ScoredFlatten(score, micro, outputs);
    GatherFlatten(rows, micro, parts);
    var scores, idx := Flatten(outputs), Flatten(parts);
    forall j | 0 <= j < |rows|
      ensures Gather(scores, reverse)[j] == score(rows[j])
    {
      assert scores[reverse[j]] == score(rows[idx[reverse[j]]]);
    }
  }

  // Cuts a batch into consecutive pieces of the given size, the last one possibly shorter.
  method Split<Row>(rows: seq<Row>, size: nat) returns (pieces: seq<seq<Row>>)
    requires size >= 1
    ensures Flatten(pieces) == rows
    ensures forall i :: 0 <= i < |pieces| ==> 1 <= |pieces[i]| <= size && (i + 1 < |pieces| ==> |pieces[i]| == size)
  {
    pieces := [];
    var start := 0;
    while start < |rows|
      invariant 0 <= start <= |rows|
      invariant Flatten(pieces) == rows[..start]
      invariant forall i :: 0 <= i < |pieces| ==>
          1 <= |pieces[i]| <= size && (start < |rows| || i + 1 < |pieces| ==> |pieces[i]| == size)
      decreases |rows| - start
    {
      var end := if start + size < |rows| then start + size else |rows|;
      FlattenSnoc(pieces, rows[start..end]);
      pieces := pieces + [rows[start..end]];
      start := end;
    }
  }

  datatype Batching = Dynamic(limits: Limits) | Fixed(size: nat)

  lemma PermutationRange(s: seq<nat>, n: nat)
    requires Permutation(s, n)
    ensures |s| == n && forall i :: 0 <= i < |s| ==> s[i] < n
  {
  }

  // The reward model's scores come out in the order of the rows, however they were batched.
  method ComputeRmScore<Row(!new), S(!new)>(rows: seq<Row>, masks: seq<seq<bool>>, maxSeqLen: nat,
                            batching: Batching, score: Row -> S)
    returns (r: Result<seq<S>, MicroBatchError>)
    requires |masks| == |rows| && forall i :: 0 <= i < |masks| ==> |masks[i]| == maxSeqLen
    ensures r.Ok? ==> r.value == MapSeq(score, rows)
    ensures r.Ok? <==>
              match batching
              case Dynamic(limits) => WellSet(limits, maxSeqLen)
                  && 1 <= MicroBatchCount(Lengths(masks), limits) <= |rows|
              case Fixed(size) => size != 0
  {
    hide MicroBatchCount, Permutation, Load, Maximum;
    var micro: seq<seq<Row>>;
    var indices: seq<seq<nat>> := [];
    match batching {
      case Dynamic(limits) =>
        var rearranged := RearrangeMicroBatches(rows, masks, maxSeqLen, limits);
        if rearranged.Err? {
          return Err(rearranged.error);
        }
        micro, indices := rearranged.value.0, rearranged.value.1;
      case Fixed(size) =>
        if size == 0 {
          return Err(ZeroDivision);
        }
        micro := Split(rows, size);
    }
    var output: seq<seq<S>> := [];
    for b := 0 to |micro|
      invariant |output| == b && forall c :: 0 <= c < b ==> output[c] == MapSeq(score, micro[c])
    {
      output := output + [MapSeq(score, micro[b])];
    }
    ScoredFlatten(score, micro, output);
    var scores := Flatten(output);
    if batching.Dynamic? {
      var flat := Flatten(indices);
      PermutationRange(flat, |rows|);
      var reverse := GetReverseIdx(flat);
      ScoresRestored(score, rows, micro, indices, output, reverse);
      scores := Gather(scores, reverse);
    }
    return Ok(scores);
  }
}
