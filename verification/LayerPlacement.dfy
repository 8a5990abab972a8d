/**
 Which layers a pipeline stage holds: the closed-form offset, the running count of the
 checkpoint merger, and the file numbers of the saved model.
 */
module LayerPlacement {
  import opened Wrappers
  import opened Arith
  import opened SeqLib
  import opened PipelineShards

  // `vp` is the number of virtual chunks per rank; `first` and `last` are the layers of the
  // first and last rank when they are not to share evenly.
  datatype Config = Config(layers: nat, pp: nat, vp: Option<nat>, first: Option<nat>, last: Option<nat>) {
    function MiddleStages(): int {
      pp - (if first.Some? then 1 else 0) - (if last.Some? then 1 else 0)
    }

    function First(): nat {
      if first.Some? then first.value else 0
    }

    function Last(): nat {
      if last.Some? then last.value else 0
    }

    function MiddleLayers(): int {
      layers - First() - Last()
    }

    predicate Uneven() {
      first.Some? || last.Some?
    }

    // Virtual chunks per rank, one when there is no virtual pipeline.
    function Rounds(): nat {
      if vp.Some? then vp.value else 1
    }
  }

  datatype OffsetError = DivisionByZero

  function LayerOffset(c: Config, p: nat, v: nat): Result<int, OffsetError> {
    if c.pp > 1 then
      if c.Uneven() then
        if c.vp.Some? then
          if c.vp.value == 0 then Err(DivisionByZero)
          else
            var firstChunk := c.First() / c.vp.value;
            var lastChunk := c.Last() / c.vp.value;
            var middleChunks := c.MiddleLayers() / c.vp.value;
            var total := firstChunk + middleChunks + lastChunk;
            if p == 0 then Ok(v * total)
            else if c.MiddleStages() == 0 then Err(DivisionByZero)
            else Ok(v * total + firstChunk + (p - 1) * (middleChunks / c.MiddleStages()))
        else
          var perRank := if c.MiddleStages() > 0 then c.MiddleLayers() / c.MiddleStages() else 0;
          var middleRank := if c.first.None? then p as int else p - 1;
          if p == 0 then Ok(0) else Ok(middleRank * perRank + c.First())
      else
        var perRank := c.layers / c.pp;
        if c.vp.Some? then
          if c.vp.value == 0 then Err(DivisionByZero)
          else Ok(v * (c.layers / c.vp.value) + p * (perRank / c.vp.value))
        else Ok(p * perRank)
    else Ok(0)
  }

  // ----- what the configuration asks for -----

  // Layers per chunk of the first, a middle and the last stage.
  datatype Plan = Plan(head: nat, body: nat, tail: nat)

  // Every stage divides into its chunks without remainder.
  ghost predicate Fits(c: Config, plan: Plan) {
    var rounds := if c.vp.Some? then c.vp.value else 1;
    var first, last := if c.first.Some? then c.first.value else 0, if c.last.Some? then c.last.value else 0;
    var middle := c.pp - (if c.first.Some? then 1 else 0) - (if c.last.Some? then 1 else 0);
    && c.pp >= 1 && rounds >= 1
    && (c.pp == 1 ==> c.vp.None? && c.first.None? && c.last.None?)
    && (c.first.Some? ==> first == plan.head * rounds)
    && (c.last.Some? ==> last == plan.tail * rounds)
    && c.layers - first - last == plan.body * middle * rounds
  }

  function ChunkSize(c: Config, plan: Plan, p: nat): nat {
    if p == 0 && c.first.Some? then plan.head
    else if p + 1 == c.pp && c.last.Some? then plan.tail
    else plan.body
  }

  // The layers of one round of chunks, over all ranks.
  function Round(c: Config, plan: Plan): int {
    (if c.first.Some? then plan.head else 0) + plan.body * c.MiddleStages() + (if c.last.Some? then plan.tail else 0)
  }

  // The layers of a round before rank p.
  function Before(c: Config, plan: Plan, p: nat): int {
    if p == 0 then 0
    else if c.first.Some? then plan.head + (p - 1) * plan.body
    else p * plan.body
  }

  function Start(c: Config, plan: Plan, p: nat, v: nat): int {
    v * Round(c, plan) + Before(c, plan, p)
  }

  lemma RoundsMakeLayers(c: Config, plan: Plan)
    requires Fits(c, plan)
    ensures c.Rounds() * Round(c, plan) == c.layers
  {
    var r := c.Rounds();
    var h, b, t := if c.first.Some? then plan.head else 0, plan.body * c.MiddleStages(),
        if c.last.Some? then plan.tail else 0;
    Distribute(h + b, t, r);
    Distribute(h, b, r);
    assert c.First() == h * r && c.Last() == t * r && c.MiddleLayers() == b * r;
  }

  // Within a round, the stages follow one another and fill the round.
  lemma StagesFollow(c: Config, plan: Plan, p: nat)
    requires Fits(c, plan) && p < c.pp
    ensures p + 1 < c.pp ==> Before(c, plan, p + 1) == Before(c, plan, p) + ChunkSize(c, plan, p)
    ensures p + 1 == c.pp ==> Round(c, plan) == Before(c, plan, p) + ChunkSize(c, plan, p)
  {
    if c.first.Some? && p > 0 {
      Distribute(p - 1, 1, plan.body);
    } else {
      Distribute(p, 1, plan.body);
    }
    assert c.pp == 1 ==> !c.Uneven();
    var m := c.MiddleStages();
    assert plan.body * m == m * plan.body;
    Distribute(m, 1, plan.body);
  }

  // In vpp-outer, pp-inner order each chunk starts where the one before ends, the first at
  // layer 0 and the last ending with the last layer.
  lemma Tiles(c: Config, plan: Plan, p: nat, v: nat)
    requires Fits(c, plan) && p < c.pp && v < c.Rounds()
    ensures Start(c, plan, 0, 0) == 0
    ensures p + 1 < c.pp ==> Start(c, plan, p + 1, v) == Start(c, plan, p, v) + ChunkSize(c, plan, p)
    ensures p + 1 == c.pp ==> Start(c, plan, 0, v + 1) == Start(c, plan, p, v) + ChunkSize(c, plan, p)
    ensures Start(c, plan, 0, c.Rounds()) == c.layers
  {
    StagesFollow(c, plan, p);
    Distribute(v, 1, Round(c, plan));
    RoundsMakeLayers(c, plan);
  }

  // The chunks in vpp-outer, pp-inner order.
  predicate Earlier(q: nat, w: nat, p: nat, v: nat) {
    w < v || (w == v && q < p)
  }

  // The layer lies in the interval of chunk (p, v).
  ghost predicate HeldBy(c: Config, plan: Plan, p: nat, v: nat, layer: nat) {
    && p < c.pp && v < c.Rounds()
    && Start(c, plan, p, v) <= layer < Start(c, plan, p, v) + ChunkSize(c, plan, p)
  }

  // An earlier chunk ends before a later one starts.
  lemma {:induction false} EarlierEnds(c: Config, plan: Plan, q: nat, w: nat, p: nat, v: nat)
    requires Fits(c, plan) && q < c.pp && p < c.pp && w < c.Rounds() && v < c.Rounds() && Earlier(q, w, p, v)
    ensures Start(c, plan, q, w) + ChunkSize(c, plan, q) <= Start(c, plan, p, v)
    decreases v - w, c.pp - q
  {
    hide Fits, Start, ChunkSize;
    Tiles(c, plan, q, w);
    if q + 1 < c.pp {
      if !(q + 1 == p && w == v) {
        EarlierEnds(c, plan, q + 1, w, p, v);
      }
    } else if !(0 == p && w + 1 == v) {
      EarlierEnds(c, plan, 0, w + 1, p, v);
    }
  }

  // Walking on from a chunk that starts at or before the layer finds the one that holds it.
  lemma {:induction false} FindChunk(c: Config, plan: Plan, p: nat, v: nat, layer: nat) returns (q: nat, w: nat)
    requires Fits(c, plan) && p < c.pp && v < c.Rounds() && Start(c, plan, p, v) <= layer < c.layers
    ensures HeldBy(c, plan, q, w, layer)
    decreases c.Rounds() - v, c.pp - p
  {
    hide Fits, Start, ChunkSize;
    Tiles(c, plan, p, v);
    if layer < Start(c, plan, p, v) + ChunkSize(c, plan, p) {
      q, w := p, v;
    } else if p + 1 < c.pp {
      q, w := FindChunk(c, plan, p + 1, v, layer);
    } else {
      q, w := FindChunk(c, plan, 0, v + 1, layer);
    }
  }

  // Every layer is in the interval of one chunk, and of no other.
  lemma LayersPartitioned(c: Config, plan: Plan, layer: nat)
    requires Fits(c, plan) && layer < c.layers
    ensures exists p: nat, v: nat :: HeldBy(c, plan, p, v, layer)
    ensures forall p: nat, v: nat, q: nat, w: nat :: HeldBy(c, plan, p, v, layer) && HeldBy(c, plan, q, w, layer) ==>
        p == q && v == w
  {
    hide Start, ChunkSize;
    Tiles(c, plan, 0, 0);
    var p0, v0 := FindChunk(c, plan, 0, 0, layer);
    forall p: nat, v: nat, q: nat, w: nat | HeldBy(c, plan, p, v, layer) && HeldBy(c, plan, q, w, layer)
      ensures p == q && v == w
    {
      if Earlier(p, v, q, w) {
        EarlierEnds(c, plan, p, v, q, w);
      } else if Earlier(q, w, p, v) {
        EarlierEnds(c, plan, q, w, p, v);
      }
    }
  }

  // The code that divides never has to round.
  lemma Quotients(c: Config, plan: Plan)
    requires Fits(c, plan)
    ensures c.First() / c.Rounds() == if c.first.Some? then plan.head else 0
    ensures c.Last() / c.Rounds() == if c.last.Some? then plan.tail else 0
    ensures c.MiddleLayers() / c.Rounds() == plan.body * c.MiddleStages()
    ensures c.MiddleStages() > 0 ==> (plan.body * c.MiddleStages()) / c.MiddleStages() == plan.body
    ensures c.layers / c.Rounds() == Round(c, plan)
  {
    var r := c.Rounds();
    ModMultiple(plan.head, r);
    ModMultiple(plan.tail, r);
    ModMultiple(0, r);
    ModMultiple(plan.body * c.MiddleStages(), r);
    if c.MiddleStages() > 0 {
      ModMultiple(plan.body, c.MiddleStages());
    }
    RoundsMakeLayers(c, plan);
    ModMultiple(Round(c, plan), r);
    assert Round(c, plan) * r == r * Round(c, plan);
  }

  // With an uneven virtual pipeline the formula needs the first stage's size and a middle stage.
  predicate Supported(c: Config) {
    c.vp.Some? && c.Uneven() ==> c.first.Some? && c.MiddleStages() > 0
  }

  lemma EvenQuotients(c: Config, plan: Plan)
    requires Fits(c, plan) && !c.Uneven()
    ensures c.layers / c.pp == plan.body * c.Rounds()
    ensures (c.layers / c.pp) / c.Rounds() == plan.body
  {
    var r := c.Rounds();
    assert c.layers == plan.body * c.pp * r;
    assert plan.body * c.pp * r == (plan.body * r) * c.pp by {
      MulAssoc(plan.body, c.pp, r);
      MulAssoc(plan.body, r, c.pp);
    }
    ModMultiple(plan.body * r, c.pp);
    ModMultiple(plan.body, r);
  }

  lemma EvenOffset(c: Config, plan: Plan, p: nat, v: nat)
    requires Fits(c, plan) && c.pp > 1 && !c.Uneven() && p < c.pp && v < c.Rounds()
    ensures LayerOffset(c, p, v) == Ok(Start(c, plan, p, v))
  {
    hide Fits;
    EvenQuotients(c, plan);
    Quotients(c, plan);
  }

  // Without virtual chunks there is one round, and a rank's offset counts whole ranks.
  lemma UnevenOffset(c: Config, plan: Plan, p: nat)
    requires Fits(c, plan) && c.pp > 1 && c.Uneven() && c.vp.None? && p < c.pp
    ensures LayerOffset(c, p, 0) == Ok(Start(c, plan, p, 0))
  {
    Quotients(c, plan);
    if c.MiddleStages() == 0 {
      assert c.first.Some? && p <= 1;
    }
  }

  lemma VirtualOffset(c: Config, plan: Plan, p: nat, v: nat)
    requires Fits(c, plan) && Supported(c) && c.pp > 1 && c.Uneven() && c.vp.Some? && p < c.pp && v < c.Rounds()
    ensures LayerOffset(c, p, v) == Ok(Start(c, plan, p, v))
  {
    hide Fits;
    Quotients(c, plan);
    assert c.vp.value == c.Rounds() >= 1;
  }

  // The closed form is the start of the chunk.
  lemma OffsetIsStart(c: Config, plan: Plan, p: nat, v: nat)
    requires Fits(c, plan) && Supported(c) && p < c.pp && v < c.Rounds()
    ensures LayerOffset(c, p, v) == Ok(Start(c, plan, p, v))
  {
    if c.pp == 1 {
      assert v == 0 && p == 0;
    } else if !c.Uneven() {
      EvenOffset(c, plan, p, v);
    } else if c.vp.None? {
      UnevenOffset(c, plan, p);
    } else {
      VirtualOffset(c, plan, p, v);
    }
  }

  // Without the first stage's size the formula gives the second rank the first rank's place;
  // with no middle stage it divides by zero.
  lemma OffsetIsStartExactly(c: Config, plan: Plan)
    requires Fits(c, plan) && plan.body > 0
    ensures (forall p: nat, v: nat :: p < c.pp && v < c.Rounds() ==> LayerOffset(c, p, v) == Ok(Start(c, plan, p, v)))
            <==> Supported(c)
  {
    if Supported(c) {
      forall p: nat, v: nat | p < c.pp && v < c.Rounds()
        ensures LayerOffset(c, p, v) == Ok(Start(c, plan, p, v))
      {
        OffsetIsStart(c, plan, p, v);
      }
    } else {
      Quotients(c, plan);
      assert LayerOffset(c, 1, 0) != Ok(Start(c, plan, 1, 0));
    }
  }

  // ----- the dynamic shards as a configuration -----

  function ShardConfig(shards: seq<nat>, layers: nat): Config {
    Config(layers, |shards|, None,
           if |shards| > 1 then Some(shards[0]) else None,
           if |shards| > 2 then Some(shards[|shards| - 1]) else None)
  }

  // The layers on the ranks before r: the cumulative sum the merger uses.
  function LayersBefore(shards: seq<nat>, r: nat): nat
    requires r <= |shards|
  {
    if r == 0 then 0 else LayersBefore(shards, r - 1) + shards[r - 1]
  }

  lemma {:induction false} BeforeMiddle(shards: seq<nat>, r: nat, middle: nat)
    requires 1 <= r < |shards| && forall i :: 1 <= i < |shards| - 1 ==> shards[i] == middle
    ensures LayersBefore(shards, r) == shards[0] + (r - 1) * middle
  {
    if r > 1 {
      BeforeMiddle(shards, r - 1, middle);
      Distribute(r - 2, 1, middle);
    } else {
      assert LayersBefore(shards, 1) == LayersBefore(shards, 0) + shards[0];
    }
  }

  lemma {:induction false} BeforeIsSum(shards: seq<nat>, r: nat)
    requires r <= |shards|
    ensures LayersBefore(shards, r) == Sum(shards[..r])
  {
    if r > 0 {
      BeforeIsSum(shards, r - 1);
      SumAppend(shards[..r - 1], [shards[r - 1]]);
      assert shards[..r] == shards[..r - 1] + [shards[r - 1]];
      assert Sum([shards[r - 1]]) == shards[r - 1] + Sum([]);
    }
  }

  // What is left for the middle ranks divides evenly among them.
  lemma MiddleShare(shards: seq<nat>, layers: nat, middle: nat)
    requires |shards| > 2 && LayersBefore(shards, |shards|) == layers
    requires forall i :: 1 <= i < |shards| - 1 ==> shards[i] == middle
    ensures var c := ShardConfig(shards, layers); c.MiddleStages() > 0 && c.MiddleLayers() / c.MiddleStages() == middle
  {
    var n, c := |shards|, ShardConfig(shards, layers);
    BeforeMiddle(shards, n - 1, middle);
    assert LayersBefore(shards, n) == LayersBefore(shards, n - 1) + shards[n - 1];
    assert c.MiddleLayers() == (n - 2) * middle && c.MiddleStages() == n - 2;
    assert (n - 2) * middle == middle * (n - 2);
    ModMultiple(middle, n - 2);
  }

  // The shards found by the search, put into the model's configuration, give each rank the
  // offset that the merger computes as a cumulative sum.
  lemma ShardOffsets(shards: seq<nat>, layers: nat, middle: nat, r: nat)
    requires r < |shards| && Sum(shards) == layers
    requires forall i :: 1 <= i < |shards| - 1 ==> shards[i] == middle
    ensures LayerOffset(ShardConfig(shards, layers), r, 0) == Ok(LayersBefore(shards, r))
  {
    var n := |shards|;
    var c := ShardConfig(shards, layers);
    BeforeIsSum(shards, n);
    assert shards[..n] == shards;
    if n == 2 {
      assert LayersBefore(shards, 2) == LayersBefore(shards, 1) + shards[1];
      assert LayersBefore(shards, 1) == LayersBefore(shards, 0) + shards[0];
    } else if n > 2 {
      MiddleShare(shards, layers, middle);
      if r > 0 {
        BeforeMiddle(shards, r, middle);
      }
    }
  }

  // In particular for every split the search returns.
  lemma FoundShardsPlaced(layers: nat, ranks: nat, shards: seq<nat>, r: nat)
    requires r < ranks <= layers
    requires shards == (if ranks == 1 then [layers]
                        else if ranks == 2 then [layers / 2, layers - layers / 2]
                        else StrategyFor(layers, ranks, CeilDiv(layers, ranks)).shards)
    requires EvenSplit(shards, layers, ranks)
    ensures LayerOffset(ShardConfig(shards, layers), r, 0) == Ok(LayersBefore(shards, r))
  {
    ShardOffsets(shards, layers, if ranks >= 3 then shards[1] else 0, r);
  }

  // ----- file numbers -----

  function SavesPerLayer(layers: nat): nat {
    if layers < 30 then 1 else 2
  }

  function FirstFile(shards: seq<nat>, r: nat, perLayer: nat): nat
    requires r <= |shards|
  {
    LayersBefore(shards, r) * perLayer
  }

  // The file numbers one rank writes.
  function SaveIndices(shards: seq<nat>, r: nat, perLayer: nat): (s: seq<nat>)
    requires r < |shards|
    ensures |s| == shards[r] * perLayer
    ensures forall i :: 0 <= i < |s| ==> s[i] == FirstFile(shards, r, perLayer) + i
  {
    Range(FirstFile(shards, r, perLayer), FirstFile(shards, r, perLayer) + shards[r] * perLayer)
  }

  function AllSaveIndices(shards: seq<nat>, ranks: nat, perLayer: nat): seq<nat>
    requires ranks <= |shards|
  {
    if ranks == 0 then [] else AllSaveIndices(shards, ranks - 1, perLayer) + SaveIndices(shards, ranks - 1, perLayer)
  }

  // Rank after rank, the file numbers are 0, 1, 2, ... : none is written twice or left out.
  lemma {:induction false} SaveIndicesCount(shards: seq<nat>, ranks: nat, perLayer: nat)
    requires ranks <= |shards|
    ensures |AllSaveIndices(shards, ranks, perLayer)| == LayersBefore(shards, ranks) * perLayer
    ensures forall i :: 0 <= i < |AllSaveIndices(shards, ranks, perLayer)| ==>
        AllSaveIndices(shards, ranks, perLayer)[i] == i
  {
    if ranks > 0 {
      SaveIndicesCount(shards, ranks - 1, perLayer);
      Distribute(LayersBefore(shards, ranks - 1), shards[ranks - 1], perLayer);
    }
  }

  // A file per layer for fewer than 30 layers, two from there on.
  lemma FilesCovered(shards: seq<nat>, layers: nat)
    requires Sum(shards) == layers
    ensures var s := AllSaveIndices(shards, |shards|, SavesPerLayer(layers));
            && |s| == (if layers < 30 then layers else 2 * layers)
            && forall i :: 0 <= i < |s| ==> s[i] == i
  {
    SaveIndicesCount(shards, |shards|, SavesPerLayer(layers));
    BeforeIsSum(shards, |shards|);
    assert shards[..|shards|] == shards;
  }
}
