/**
 Splitting layers over pipeline ranks as evenly as the search allows.
 */
module PipelineShards {
  import opened Wrappers
  import opened Arith
  import opened SeqLib

  datatype ShardError = FewerLayersThanRanks | BadRankCount | NoCandidate

  datatype Strategy = Strategy(shards: seq<int>, diff: int)

  function FirstLast(layers: int, ranks: int, middle: int): int {
    layers - middle * (ranks - 2)
  }

  // The first and the last rank share what the middle ranks leave, neither of them getting
  // more than a middle rank.
  predicate Candidate(layers: int, ranks: int, middle: int) {
    var rest := FirstLast(layers, ranks, middle);
    && 0 < rest / 2 <= middle
    && 0 < rest - rest / 2 <= middle
  }

  function StrategyFor(layers: int, ranks: int, middle: int): Strategy
    requires ranks >= 2
  {
    var rest := FirstLast(layers, ranks, middle);
    Strategy([rest / 2] + Copies(middle, ranks - 2) + [rest - rest / 2],
             if rest / 2 >= middle then rest / 2 - middle else middle - rest / 2)
  }

  // Every rank has a layer, none has more than its rounded-up share, and all layers are placed.
  ghost predicate EvenSplit(shards: seq<int>, layers: int, ranks: int)
    requires ranks >= 1
  {
    && |shards| == ranks
    && Sum(shards) == layers
    && (forall i :: 0 <= i < ranks ==> 1 <= shards[i] <= CeilDiv(layers, ranks))
  }

  lemma {:induction false} SumCopies(x: int, n: nat)
    ensures Sum(Copies(x, n)) == x * n
  {
    if n > 0 {
      SumCopies(x, n - 1);
      assert Copies(x, n)[1..] == Copies(x, n - 1);
      Distribute(n - 1, 1, x);
    }
  }

  // A middle size works exactly when it is at least the rounded-up share and leaves two layers.
  lemma CandidateExactly(layers: int, ranks: nat, middle: int)
    requires ranks >= 3
    ensures Candidate(layers, ranks, middle) <==>
              CeilDiv(layers, ranks) <= middle && middle * (ranks - 2) + 2 <= layers
  {
    var rest := FirstLast(layers, ranks, middle);
    assert rest / 2 >= 1 <==> rest >= 2;
    assert rest - rest / 2 <= middle <==> rest <= 2 * middle;
    Distribute(ranks, 2, middle);
    assert rest <= 2 * middle <==> layers <= middle * ranks;
    var c := CeilDiv(layers, ranks);
    CeilDivLeast(layers, ranks);
    if c <= middle {
      MulMono(c, middle, ranks);
    } else {
      MulMono(middle, c - 1, ranks);
    }
  }

  // The larger the middle size, the further the first rank falls behind it.
  lemma DiffGrows(layers: int, ranks: nat, m: int, n: int)
    requires ranks >= 3 && m < n && Candidate(layers, ranks, m) && Candidate(layers, ranks, n)
    ensures StrategyFor(layers, ranks, m).diff < StrategyFor(layers, ranks, n).diff
  {
    Distribute(n, m, ranks - 2);
    MulSign(n - m, ranks - 2);
  }

  lemma StrategyEven(layers: int, ranks: nat, middle: int)
    requires ranks >= 3 && Candidate(layers, ranks, middle) && middle == CeilDiv(layers, ranks)
    ensures EvenSplit(StrategyFor(layers, ranks, middle).shards, layers, ranks)
  {
    var rest := FirstLast(layers, ranks, middle);
    var shards := StrategyFor(layers, ranks, middle).shards;
    SumCopies(middle, ranks - 2);
    SumAppend([rest / 2], Copies(middle, ranks - 2));
    SumAppend([rest / 2] + Copies(middle, ranks - 2), [rest - rest / 2]);
    assert Sum([rest / 2]) == rest / 2 + Sum([]);
    assert Sum([rest - rest / 2]) == rest - rest / 2 + Sum([]);
  }

  // The first strategy with the smallest difference, as a stable sort puts it first.
  method FirstLeast(strategies: seq<Strategy>) returns (least: Strategy)
    requires strategies != []
    ensures least in strategies && forall s :: s in strategies ==> least.diff <= s.diff
  {
    least := strategies[0];
    for i := 1 to |strategies|
      invariant least in strategies && forall j :: 0 <= j < i ==> least.diff <= strategies[j].diff
    {
      if strategies[i].diff < least.diff {
        least := strategies[i];
      }
    }
  }

  function TryMiddle(layers: int, ranks: nat, m: int): (r: Option<Strategy>)
    requires ranks >= 3
    ensures r == if Candidate(layers, ranks, m) then Some(StrategyFor(layers, ranks, m)) else None
  {
    var rest := layers - m * (ranks - 2);
    var first, last := rest / 2, rest - rest / 2;
    if 0 < first <= m && 0 < last <= m then
      Some(Strategy([first] + Copies(m, ranks - 2) + [last], if first >= m then first - m else m - first))
    else
      None
  }

  lemma CandidateRange(layers: int, ranks: nat, m: int)
    requires ranks >= 3 && Candidate(layers, ranks, m)
    ensures 0 <= m < layers
  {
    CandidateExactly(layers, ranks, m);
    MulSign(m, ranks - 2);
  }

  // Collects the candidates in order of their middle size.
  method Candidates(layers: int, ranks: nat) returns (strategies: seq<Strategy>)
    requires ranks >= 3 && layers >= ranks
    ensures forall s :: s in strategies ==>
        exists m :: Candidate(layers, ranks, m) && s == StrategyFor(layers, ranks, m)
    ensures forall m :: Candidate(layers, ranks, m) ==> StrategyFor(layers, ranks, m) in strategies
  {
    hide Candidate, StrategyFor, TryMiddle;
    strategies := [];
    for m := 0 to layers
      invariant forall s :: s in strategies ==>
          exists k :: Candidate(layers, ranks, k) && s == StrategyFor(layers, ranks, k)
      invariant forall k :: 0 <= k < m && Candidate(layers, ranks, k) ==> StrategyFor(layers, ranks, k) in strategies
    {
      var found := TryMiddle(layers, ranks, m);
      if found.Some? {
        strategies := strategies + [found.value];
      }
    }
    forall m | Candidate(layers, ranks, m)
      ensures StrategyFor(layers, ranks, m) in strategies
    {
      CandidateRange(layers, ranks, m);
    }
  }

  lemma LeastIsShare(layers: int, ranks: nat, m: int)
    requires ranks >= 3 && Candidate(layers, ranks, m)
    requires forall k :: Candidate(layers, ranks, k) ==>
        StrategyFor(layers, ranks, m).diff <= StrategyFor(layers, ranks, k).diff
    ensures m == CeilDiv(layers, ranks) && m * (ranks - 2) + 2 <= layers
  {
    var c := CeilDiv(layers, ranks);
    CandidateExactly(layers, ranks, m);
    CandidateExactly(layers, ranks, c);
    MulMono(c, m, ranks - 2);
    if c < m {
      DiffGrows(layers, ranks, c, m);
    }
  }

  // The search succeeds for one or two ranks, and otherwise exactly when the rounded-up share
  // given to every middle rank leaves two layers; the split it finds is the even one.
  method GetDynamicPipelineShards(layers: int, ranks: int) returns (r: Result<seq<int>, ShardError>)
    ensures layers < ranks ==> r == Err(FewerLayersThanRanks)
    ensures layers >= ranks && ranks < 1 ==> r == Err(BadRankCount)
    ensures layers >= ranks == 1 ==> r == Ok([layers])
    ensures layers >= ranks == 2 ==> r == Ok([layers / 2, layers - layers / 2])
    ensures layers >= ranks >= 3 ==>
              r == if CeilDiv(layers, ranks) * (ranks - 2) + 2 <= layers
                   then Ok(StrategyFor(layers, ranks, CeilDiv(layers, ranks)).shards) else Err(NoCandidate)
    ensures r.Ok? ==> ranks >= 1 && EvenSplit(r.value, layers, ranks)
  {
    if layers < ranks {
      return Err(FewerLayersThanRanks);
    }
    if ranks < 1 {
      return Err(BadRankCount);
    }
    if ranks == 1 {
      CeilDivLeast(layers, 1);
      assert Sum([layers]) == layers + Sum([]);
      return Ok([layers]);
    }
    if ranks == 2 {
      CeilDivLeast(layers, 2);
      assert Sum([layers / 2, layers - layers / 2]) == layers / 2 + Sum([layers - layers / 2]);
      assert Sum([layers - layers / 2]) == layers - layers / 2 + Sum([]);
      return Ok([layers / 2, layers - layers / 2]);
    }
    var strategies := Candidates(layers, ranks);
    ghost var c := CeilDiv(layers, ranks);
    if strategies == [] {
      CandidateExactly(layers, ranks, c);
      return Err(NoCandidate);
    }
    var least := FirstLeast(strategies);
    ghost var m :| Candidate(layers, ranks, m) && least == StrategyFor(layers, ranks, m);
    LeastIsShare(layers, ranks, m);
    StrategyEven(layers, ranks, c);
    return Ok(least.shards);
  }

  // No split of the layers over the ranks has a smaller largest share.
  lemma ShareIsLeast(shards: seq<int>, layers: int, ranks: nat)
    requires ranks >= 1 && |shards| == ranks && Sum(shards) == layers
    ensures exists i :: 0 <= i < ranks && shards[i] >= CeilDiv(layers, ranks)
  {
    var c := CeilDiv(layers, ranks);
    CeilDivLeast(layers, ranks);
    if forall i :: 0 <= i < ranks ==> shards[i] <= c - 1 {
      SumAtMost(shards, c - 1);
    }
  }

  // Five layers on four ranks have an even split, but the search does not find it.
  lemma FiveOnFour()
    ensures CeilDiv(5, 4) * (4 - 2) + 2 > 5
    ensures EvenSplit([2, 1, 1, 1], 5, 4)
  {
    assert Sum([2, 1, 1, 1]) == 2 + Sum([1, 1, 1]) && Sum([1, 1, 1]) == 1 + Sum([1, 1]) && Sum([1, 1]) == 1 + Sum([1]);
    assert Sum([1]) == 1 + Sum([]);
    assert [2, 1, 1, 1][1..] == [1, 1, 1] && [1, 1, 1][1..] == [1, 1] && [1, 1][1..] == [1] && [1][1..] == [];
  }
}
