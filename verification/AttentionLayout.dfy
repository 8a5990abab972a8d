/**
 The fused query-key-value weight: interleaved per key-value group when a checkpoint is
 converted, sharded over tensor-parallel ranks, and taken apart again in several places.
 Rows are opaque.
 */
module AttentionLayout {
  import opened Wrappers
  import opened Arith
  import opened SeqLib
  import opened Blocks

  datatype LayoutError =
    | HeadsNotDivisible
    | RowsNotDivisible
    | SplitMismatch
    | DivisionByZero
    | NoShards

  // ----- putting together -----

  function JoinGroups<T>(q: seq<seq<T>>, k: seq<seq<T>>, v: seq<seq<T>>): (blocks: seq<seq<T>>)
    requires |q| == |k| == |v|
    ensures |blocks| == |q| && forall g :: 0 <= g < |q| ==> blocks[g] == q[g] + k[g] + v[g]
  {
    seq(|q|, g requires 0 <= g < |q| => q[g] + k[g] + v[g])
  }

  // Query, key and value rows of each key-value group side by side.
  function Interleave<T>(q: seq<T>, k: seq<T>, v: seq<T>, heads: nat, groups: nat, headDim: nat): seq<T>
    requires groups >= 1 && |q| == groups * (headDim * heads / groups)
    requires |k| == groups * headDim && |v| == groups * headDim
  {
    Flatten(JoinGroups(View(q, groups, headDim * heads / groups), View(k, groups, headDim), View(v, groups, headDim)))
  }

  // ----- taking apart -----

  datatype Split3<T> = Split3(q: seq<T>, k: seq<T>, v: seq<T>)

  function QueryParts<T>(blocks: seq<seq<T>>, a: nat, d: nat): (r: seq<seq<T>>)
    requires BlocksOf(blocks, a + d + d)
    ensures |r| == |blocks| && forall i :: 0 <= i < |blocks| ==> r[i] == blocks[i][..a]
  {
    seq(|blocks|, i requires 0 <= i < |blocks| => blocks[i][..a])
  }

  function KeyParts<T>(blocks: seq<seq<T>>, a: nat, d: nat): (r: seq<seq<T>>)
    requires BlocksOf(blocks, a + d + d)
    ensures |r| == |blocks| && forall i :: 0 <= i < |blocks| ==> r[i] == blocks[i][a..a + d]
  {
    seq(|blocks|, i requires 0 <= i < |blocks| => blocks[i][a..a + d])
  }

  function ValueParts<T>(blocks: seq<seq<T>>, a: nat, d: nat): (r: seq<seq<T>>)
    requires BlocksOf(blocks, a + d + d)
    ensures |r| == |blocks| && forall i :: 0 <= i < |blocks| ==> r[i] == blocks[i][a + d..]
  {
    seq(|blocks|, i requires 0 <= i < |blocks| => blocks[i][a + d..])
  }

  function Deinterleave<T>(blocks: seq<seq<T>>, a: nat, d: nat): Split3<T>
    requires BlocksOf(blocks, a + d + d)
  {
    Split3(Flatten(QueryParts(blocks, a, d)), Flatten(KeyParts(blocks, a, d)), Flatten(ValueParts(blocks, a, d)))
  }

  // Taking apart what was put together gives the parts back.
  lemma DeinterleaveJoin<T>(q: seq<seq<T>>, k: seq<seq<T>>, v: seq<seq<T>>, a: nat, d: nat)
    requires |q| == |k| == |v| && BlocksOf(q, a) && BlocksOf(k, d) && BlocksOf(v, d)
    ensures BlocksOf(JoinGroups(q, k, v), a + d + d)
    ensures Deinterleave(JoinGroups(q, k, v), a, d) == Split3(Flatten(q), Flatten(k), Flatten(v))
  {
    hide Flatten;
    var blocks := JoinGroups(q, k, v);
    forall i | 0 <= i < |blocks|
      ensures blocks[i][..a] == q[i] && blocks[i][a..a + d] == k[i] && blocks[i][a + d..] == v[i]
    {
    }
    assert QueryParts(blocks, a, d) == q;
    assert KeyParts(blocks, a, d) == k;
    assert ValueParts(blocks, a, d) == v;
  }

  // Appends the parts of further blocks to the three lists; `split` refuses blocks of another length.
  method SplitBlocks<T>(blocks: seq<seq<T>>, a: nat, d: nat, qs: seq<seq<T>>, ks: seq<seq<T>>, vs: seq<seq<T>>)
    returns (ok: bool, qs': seq<seq<T>>, ks': seq<seq<T>>, vs': seq<seq<T>>)
    ensures ok <==> BlocksOf(blocks, a + d + d)
    ensures ok ==> qs' == qs + QueryParts(blocks, a, d) && ks' == ks + KeyParts(blocks, a, d)
    ensures ok ==> vs' == vs + ValueParts(blocks, a, d)
  {
    ok, qs', ks', vs' := true, qs, ks, vs;
    for i := 0 to |blocks|
      invariant ok && BlocksOf(blocks[..i], a + d + d)
      invariant qs' == qs + QueryParts(blocks[..i], a, d)
      invariant ks' == ks + KeyParts(blocks[..i], a, d)
      invariant vs' == vs + ValueParts(blocks[..i], a, d)
    {
      var block := blocks[i];
      if |block| != a + d + d {
        ok := false;
        return;
      }
      assert blocks[..i + 1] == blocks[..i] + [block];
      qs', ks', vs' := qs' + [block[..a]], ks' + [block[a..a + d]], vs' + [block[a + d..]];
    }
    assert blocks[..|blocks|] == blocks;
  }

  function Ratio(heads: nat, kvHeads: nat): nat
    requires kvHeads >= 1
  {
    heads / kvHeads
  }

  predicate Divides(k: nat, n: nat)
    requires k >= 1
  {
    n % k == 0
  }

  // The rows divide into equal shares of `ratio` query, one key and one value part.
  predicate SharesEvenly(rows: nat, ratio: nat) {
    rows % (ratio + 2) == 0
  }

  // Sizes of one group's parts, computed from the rows of one shard.
  function QuerySize(rows: nat, ratio: nat, groups: nat): nat
    requires groups >= 1
  {
    (rows / (ratio + 2)) * ratio / groups
  }

  function KvSize(rows: nat, ratio: nat, groups: nat): nat
    requires groups >= 1
  {
    rows / (ratio + 2) / groups
  }

  // A whole tensor: one chunk per key-value head group.
  method SplitTensors<T>(tensor: seq<T>, heads: nat, kvHeads: nat) returns (r: Result<Split3<T>, LayoutError>)
    ensures kvHeads == 0 ==> r == Err(DivisionByZero)
    ensures kvHeads >= 1 ==>
              var ratio := Ratio(heads, kvHeads);
              var a, d := QuerySize(|tensor|, ratio, kvHeads), KvSize(|tensor|, ratio, kvHeads);
              if !Divides(kvHeads, heads) then r == Err(HeadsNotDivisible)
              else if !SharesEvenly(|tensor|, ratio) then r == Err(RowsNotDivisible)
              else if !BlocksOf(Chunk(tensor, kvHeads), a + d + d) then r == Err(SplitMismatch)
              else r == Ok(Deinterleave(Chunk(tensor, kvHeads), a, d))
  {
    hide Ratio, Divides, SharesEvenly, QuerySize, KvSize, Chunk, Flatten, BlocksOf;
    if kvHeads == 0 {
      return Err(DivisionByZero);
    }
    if !Divides(kvHeads, heads) {
      return Err(HeadsNotDivisible);
    }
    var ratio := Ratio(heads, kvHeads);
    if !SharesEvenly(|tensor|, ratio) {
      return Err(RowsNotDivisible);
    }
    var a, d := QuerySize(|tensor|, ratio, kvHeads), KvSize(|tensor|, ratio, kvHeads);
    var ok, qs, ks, vs := SplitBlocks(Chunk(tensor, kvHeads), a, d, [], [], []);
    if !ok {
      return Err(SplitMismatch);
    }
    assert qs == QueryParts(Chunk(tensor, kvHeads), a, d) && ks == KeyParts(Chunk(tensor, kvHeads), a, d);
    assert vs == ValueParts(Chunk(tensor, kvHeads), a, d);
    return Ok(Split3(Flatten(qs), Flatten(ks), Flatten(vs)));
  }

  // The chunks of the first n shards, one after the other.
  function ShardChunks<T>(shards: seq<seq<T>>, n: nat, groups: nat): seq<seq<T>>
    requires n <= |shards| && groups >= 1
  {
    if n == 0 then [] else ShardChunks(shards, n - 1, groups) + Chunk(shards[n - 1], groups)
  }

  lemma {:induction false} ChunksPrefix<T>(shards: seq<seq<T>>, n: nat, groups: nat, size: nat, m: nat)
    requires m < n <= |shards| && groups >= 1 && BlocksOf(ShardChunks(shards, n, groups), size)
    ensures BlocksOf(Chunk(shards[m], groups), size)
  {
    hide Chunk, BlocksOf;
    BlocksOfParts(ShardChunks(shards, n - 1, groups), Chunk(shards[n - 1], groups), size);
    if m < n - 1 {
      ChunksPrefix(shards, n - 1, groups, size, m);
    }
  }

  // What the code checks before it cuts: all divisions are defined.
  predicate MergeDefined(shards: nat, kvHeads: nat, tp: nat) {
    kvHeads >= 1 && shards >= 1 && tp >= 1 && kvHeads / tp >= 1
  }

  lemma JoinedBlocks<T>(x: seq<seq<T>>, y: seq<seq<T>>, a: nat, d: nat)
    requires BlocksOf(x, a + d + d) && BlocksOf(y, a + d + d)
    ensures BlocksOf(x + y, a + d + d)
    ensures QueryParts(x + y, a, d) == QueryParts(x, a, d) + QueryParts(y, a, d)
    ensures KeyParts(x + y, a, d) == KeyParts(x, a, d) + KeyParts(y, a, d)
    ensures ValueParts(x + y, a, d) == ValueParts(x, a, d) + ValueParts(y, a, d)
  {
  }

  method SplitShards<T>(shards: seq<seq<T>>, groups: nat, a: nat, d: nat) returns (r: Result<Split3<T>, LayoutError>)
    requires groups >= 1
    ensures r == if BlocksOf(ShardChunks(shards, |shards|, groups), a + d + d)
                 then Ok(Deinterleave(ShardChunks(shards, |shards|, groups), a, d)) else Err(SplitMismatch)
  {
    hide Chunk, Flatten;
    var qs: seq<seq<T>>, ks: seq<seq<T>>, vs: seq<seq<T>> := [], [], [];
    for t := 0 to |shards|
      invariant BlocksOf(ShardChunks(shards, t, groups), a + d + d)
      invariant qs == QueryParts(ShardChunks(shards, t, groups), a, d)
      invariant ks == KeyParts(ShardChunks(shards, t, groups), a, d)
      invariant vs == ValueParts(ShardChunks(shards, t, groups), a, d)
    {
      var ok;
      var next := Chunk(shards[t], groups);
      ok, qs, ks, vs := SplitBlocks(next, a, d, qs, ks, vs);
      if !ok {
        if BlocksOf(ShardChunks(shards, |shards|, groups), a + d + d) {
          ChunksPrefix(shards, |shards|, groups, a + d + d, t);
        }
        return Err(SplitMismatch);
      }
      JoinedBlocks(ShardChunks(shards, t, groups), next, a, d);
    }
    return Ok(Split3(Flatten(qs), Flatten(ks), Flatten(vs)));
  }

  // The shards of all tensor-parallel ranks: sizes are taken from the first shard.
  method MergeAcrossTp<T>(shards: seq<seq<T>>, heads: nat, kvHeads: nat, tp: nat)
    returns (r: Result<Split3<T>, LayoutError>)
    ensures MergeDefined(|shards|, kvHeads, tp) ==>
              var ratio, groups := Ratio(heads, kvHeads), Ratio(kvHeads, tp);
              var a, d := QuerySize(|shards[0]|, ratio, groups), KvSize(|shards[0]|, ratio, groups);
              if !Divides(kvHeads, heads) then r == Err(HeadsNotDivisible)
              else if !SharesEvenly(|shards[0]|, ratio) then r == Err(RowsNotDivisible)
              else if !BlocksOf(ShardChunks(shards, |shards|, groups), a + d + d) then r == Err(SplitMismatch)
              else r == Ok(Deinterleave(ShardChunks(shards, |shards|, groups), a, d))
    ensures r.Ok? ==> MergeDefined(|shards|, kvHeads, tp)
  {
    hide Divides, SharesEvenly, QuerySize, KvSize, Chunk, Flatten, BlocksOf, ShardChunks;
    if kvHeads == 0 {
      return Err(DivisionByZero);
    }
    if !Divides(kvHeads, heads) {
      return Err(HeadsNotDivisible);
    }
    var ratio := Ratio(heads, kvHeads);
    if shards == [] {
      return Err(NoShards);
    }
    if !SharesEvenly(|shards[0]|, ratio) {
      return Err(RowsNotDivisible);
    }
    if tp == 0 || kvHeads / tp == 0 {
      return Err(DivisionByZero);
    }
    var groups := Ratio(kvHeads, tp);
    r := SplitShards(shards, groups, QuerySize(|shards[0]|, ratio, groups), KvSize(|shards[0]|, ratio, groups));
  }

  // What the tensor-parallel concatenation hands to the inference engine: the same three
  // tensors, kept apart or stacked.
  method DefaultTpConcat<T>(shards: seq<seq<T>>, heads: nat, kvHeads: nat, tp: nat, simpleSplit: bool)
    returns (r: Result<seq<seq<T>>, LayoutError>, ghost parts: Result<Split3<T>, LayoutError>)
    ensures r == match parts
                 case Ok(Split3(q, k, v)) => Ok(if simpleSplit then [q, k, v] else [q + k + v])
                 case Err(e) => Err(e)
    ensures MergeDefined(|shards|, kvHeads, tp) ==>
              var ratio, groups := Ratio(heads, kvHeads), Ratio(kvHeads, tp);
              var a, d := QuerySize(|shards[0]|, ratio, groups), KvSize(|shards[0]|, ratio, groups);
              if !Divides(kvHeads, heads) then parts == Err(HeadsNotDivisible)
              else if !SharesEvenly(|shards[0]|, ratio) then parts == Err(RowsNotDivisible)
              else if !BlocksOf(ShardChunks(shards, |shards|, groups), a + d + d) then parts == Err(SplitMismatch)
              else parts == Ok(Deinterleave(ShardChunks(shards, |shards|, groups), a, d))
  {
    hide *;
    var merged := MergeAcrossTp(shards, heads, kvHeads, tp);
    parts := merged;
    if merged.Err? {
      return Err(merged.error), parts;
    }
    var Split3(q, k, v) := merged.value;
    r := Ok(if simpleSplit then [q, k, v] else [q + k + v]);
  }

  // Python slices: bounds beyond the end are cut off.
  function Slice<T>(s: seq<T>, lo: nat, hi: nat): seq<T> {
    var h := if hi < |s| then hi else |s|;
    if lo <= h then s[lo..h] else []
  }

  function TrunkRows(headDim: nat, heads: nat, tp: nat): nat
    requires tp >= 1
  {
    headDim * heads / tp
  }

  // The rows from lo up to hi of every block, and those from lo on.
  function SliceEach<T>(blocks: seq<seq<T>>, lo: nat, hi: nat): (r: seq<seq<T>>)
    ensures |r| == |blocks| && forall i :: 0 <= i < |blocks| ==> r[i] == Slice(blocks[i], lo, hi)
  {
    seq(|blocks|, i requires 0 <= i < |blocks| => Slice(blocks[i], lo, hi))
  }

  function RestEach<T>(blocks: seq<seq<T>>, lo: nat): (r: seq<seq<T>>)
    ensures |r| == |blocks| && forall i :: 0 <= i < |blocks| ==> r[i] == Slice(blocks[i], lo, |blocks[i]|)
  {
    seq(|blocks|, i requires 0 <= i < |blocks| => Slice(blocks[i], lo, |blocks[i]|))
  }

  // Key and value rows of one trunk: with fewer heads than ranks, every rank holds a whole head.
  function KvTrunkRows(headDim: nat, kvHeads: nat, tp: nat): nat
    requires tp >= 1
  {
    if kvHeads >= tp then TrunkRows(headDim, kvHeads, tp) else headDim
  }

  // With fewer key-value heads than ranks, only one rank's copy of each is taken.
  predicate TakesKv(kvHeads: nat, tp: nat, rank: nat)
    requires tp >= 1
  {
    kvHeads >= tp || rank * kvHeads % tp == 0
  }

  // The chunks of those among the first n shards whose keys and values are taken.
  function TakenChunks<T>(shards: seq<seq<T>>, n: nat, groups: nat, kvHeads: nat, tp: nat): seq<seq<T>>
    requires n <= |shards| && groups >= 1 && tp >= 1
  {
    if n == 0 then []
    else if TakesKv(kvHeads, tp, n - 1)
    then TakenChunks(shards, n - 1, groups, kvHeads, tp) + Chunk(shards[n - 1], groups)
    else TakenChunks(shards, n - 1, groups, kvHeads, tp)
  }

  // The lists hold the slices of the first n trunks.
  ghost predicate CutFrom<T>(trunks: seq<seq<T>>, n: nat, groups: nat, kvHeads: nat, tp: nat, a: nat, d: nat,
                             qs: seq<seq<T>>, ks: seq<seq<T>>, vs: seq<seq<T>>)
    requires n <= |trunks| && groups >= 1 && tp >= 1
  {
    && qs == SliceEach(ShardChunks(trunks, n, groups), 0, a)
    && ks == SliceEach(TakenChunks(trunks, n, groups, kvHeads, tp), a, a + d)
    && vs == RestEach(TakenChunks(trunks, n, groups, kvHeads, tp), a + d)
  }

  lemma NothingCut<T>(trunks: seq<seq<T>>, groups: nat, kvHeads: nat, tp: nat, a: nat, d: nat)
    requires groups >= 1 && tp >= 1
    ensures CutFrom(trunks, 0, groups, kvHeads, tp, a, d, [], [], [])
  {
  }

  lemma SlicesAppend<T>(x: seq<seq<T>>, y: seq<seq<T>>, lo: nat, hi: nat)
    ensures SliceEach(x + y, lo, hi) == SliceEach(x, lo, hi) + SliceEach(y, lo, hi)
    ensures RestEach(x + y, hi) == RestEach(x, hi) + RestEach(y, hi)
  {
    hide Slice;
  }

  lemma CutMore<T>(trunks: seq<seq<T>>, n: nat, groups: nat, kvHeads: nat, tp: nat, a: nat, d: nat,
                   qs: seq<seq<T>>, ks: seq<seq<T>>, vs: seq<seq<T>>,
                   qs': seq<seq<T>>, ks': seq<seq<T>>, vs': seq<seq<T>>)
    requires n < |trunks| && groups >= 1 && tp >= 1
    requires CutFrom(trunks, n, groups, kvHeads, tp, a, d, qs, ks, vs)
    requires qs' == qs + SliceEach(Chunk(trunks[n], groups), 0, a)
    requires ks' == if TakesKv(kvHeads, tp, n) then ks + SliceEach(Chunk(trunks[n], groups), a, a + d) else ks
    requires vs' == if TakesKv(kvHeads, tp, n) then vs + RestEach(Chunk(trunks[n], groups), a + d) else vs
    ensures CutFrom(trunks, n + 1, groups, kvHeads, tp, a, d, qs', ks', vs')
  {
    hide Chunk, Slice, TakesKv, SliceEach, RestEach;
    SlicesAppend(ShardChunks(trunks, n, groups), Chunk(trunks[n], groups), 0, a);
    if TakesKv(kvHeads, tp, n) {
      SlicesAppend(TakenChunks(trunks, n, groups, kvHeads, tp), Chunk(trunks[n], groups), a, a + d);
    }
  }

  lemma AllCut<T>(trunks: seq<seq<T>>, n: nat, groups: nat, kvHeads: nat, tp: nat, a: nat, d: nat,
                  qs: seq<seq<T>>, ks: seq<seq<T>>, vs: seq<seq<T>>)
    requires n <= |trunks| && groups >= 1 && tp >= 1
    requires CutFrom(trunks, n, groups, kvHeads, tp, a, d, qs, ks, vs)
    ensures qs == SliceEach(ShardChunks(trunks, n, groups), 0, a)
    ensures ks == SliceEach(TakenChunks(trunks, n, groups, kvHeads, tp), a, a + d)
    ensures vs == RestEach(TakenChunks(trunks, n, groups, kvHeads, tp), a + d)
  {
  }

  method SliceBlocks<T>(chunks: seq<seq<T>>, a: nat, d: nat, takes: bool,
                        qs: seq<seq<T>>, ks: seq<seq<T>>, vs: seq<seq<T>>)
    returns (qs': seq<seq<T>>, ks': seq<seq<T>>, vs': seq<seq<T>>)
    ensures qs' == qs + SliceEach(chunks, 0, a)
    ensures ks' == if takes then ks + SliceEach(chunks, a, a + d) else ks
    ensures vs' == if takes then vs + RestEach(chunks, a + d) else vs
  {
    hide Slice;
    qs', ks', vs' := qs, ks, vs;
    for j := 0 to |chunks|
      invariant qs' == qs + SliceEach(chunks[..j], 0, a)
      invariant takes ==> ks' == ks + SliceEach(chunks[..j], a, a + d) && vs' == vs + RestEach(chunks[..j], a + d)
      invariant !takes ==> ks' == ks && vs' == vs
    {
      qs' := qs' + [Slice(chunks[j], 0, a)];
      if takes {
        ks' := ks' + [Slice(chunks[j], a, a + d)];
        vs' := vs' + [Slice(chunks[j], a + d, |chunks[j]|)];
      }
    }
    assert chunks[..|chunks|] == chunks;
  }

  function Trunks<T>(full: seq<T>, n: nat, total: nat): (r: seq<seq<T>>)
    ensures |r| == n
  {
    seq(n, i requires 0 <= i < n => Slice(full, i * total, (i + 1) * total))
  }

  lemma TrunkAt<T>(full: seq<T>, n: nat, total: nat, i: nat)
    requires i < n
    ensures 0 <= i * total && 0 <= (i + 1) * total
    ensures Trunks(full, n, total)[i] == Slice(full, i * total, (i + 1) * total)
  {
    MulSign(i, total);
    MulSign(i + 1, total);
  }

  // The gathered tensor cut into trunks of computed size, the chunks of each into parts.
  method ConvertQkvShard<T>(full: seq<T>, heads: nat, kvHeads: nat, headDim: nat, queryGroups: nat, tp: nat)
    returns (r: Result<Split3<T>, LayoutError>)
    ensures r.Ok? <==> tp >= 1 && Ratio(queryGroups, tp) >= 1
    ensures r.Err? ==> r == Err(DivisionByZero)
    ensures r.Ok? ==>
              var groups := Ratio(queryGroups, tp);
              var qTp, kvTp := TrunkRows(headDim, heads, tp), KvTrunkRows(headDim, kvHeads, tp);
              var a, d := Ratio(qTp, groups), Ratio(kvTp, groups);
              var trunks := Trunks(full, tp, qTp + 2 * kvTp);
              && r.value.q == Flatten(SliceEach(ShardChunks(trunks, tp, groups), 0, a))
              && r.value.k == Flatten(SliceEach(TakenChunks(trunks, tp, groups, kvHeads, tp), a, a + d))
              && r.value.v == Flatten(RestEach(TakenChunks(trunks, tp, groups, kvHeads, tp), a + d))
  {
    hide Ratio, TrunkRows, KvTrunkRows, Chunk, Flatten, Slice, Trunks, TakesKv, ShardChunks, TakenChunks, CutFrom;
    if tp == 0 {
      return Err(DivisionByZero);
    }
    var groups := Ratio(queryGroups, tp);
    if groups == 0 {
      return Err(DivisionByZero);
    }
    var qTp, kvTp := TrunkRows(headDim, heads, tp), KvTrunkRows(headDim, kvHeads, tp);
    var a, d := Ratio(qTp, groups), Ratio(kvTp, groups);
    ghost var trunks := Trunks(full, tp, qTp + 2 * kvTp);
    var qs: seq<seq<T>>, ks: seq<seq<T>>, vs: seq<seq<T>> := [], [], [];
    NothingCut(trunks, groups, kvHeads, tp, a, d);
    for i := 0 to tp
      invariant CutFrom(trunks, i, groups, kvHeads, tp, a, d, qs, ks, vs)
    {
      TrunkAt(full, tp, qTp + 2 * kvTp, i);
      var trunk := Slice(full, i * (qTp + 2 * kvTp), (i + 1) * (qTp + 2 * kvTp));
      ghost var qs0, ks0, vs0 := qs, ks, vs;
      qs, ks, vs := SliceBlocks(Chunk(trunk, groups), a, d, TakesKv(kvHeads, tp, i), qs, ks, vs);
      CutMore(trunks, i, groups, kvHeads, tp, a, d, qs0, ks0, vs0, qs, ks, vs);
    }
    AllCut(trunks, tp, groups, kvHeads, tp, a, d, qs, ks, vs);
    return Ok(Split3(Flatten(qs), Flatten(ks), Flatten(vs)));
  }

  // On blocks of the expected size the slices are the parts.
  lemma SlicesAreParts<T>(blocks: seq<seq<T>>, a: nat, d: nat)
    requires BlocksOf(blocks, a + d + d)
    ensures SliceEach(blocks, 0, a) == QueryParts(blocks, a, d)
    ensures SliceEach(blocks, a, a + d) == KeyParts(blocks, a, d)
    ensures RestEach(blocks, a + d) == ValueParts(blocks, a, d)
  {
    forall i | 0 <= i < |blocks|
      ensures Slice(blocks[i], 0, a) == blocks[i][..a] && Slice(blocks[i], a, a + d) == blocks[i][a..a + d]
      ensures Slice(blocks[i], a + d, |blocks[i]|) == blocks[i][a + d..]
    {
      assert |blocks[i]| == a + d + d;
    }
  }

  lemma {:induction false} AllTaken<T>(shards: seq<seq<T>>, n: nat, groups: nat, kvHeads: nat, tp: nat)
    requires n <= |shards| && groups >= 1 && 1 <= tp <= kvHeads
    ensures TakenChunks(shards, n, groups, kvHeads, tp) == ShardChunks(shards, n, groups)
  {
    hide Chunk;
    if n > 0 {
      assert TakesKv(kvHeads, tp, n - 1);
      AllTaken(shards, n - 1, groups, kvHeads, tp);
    }
  }

  // ----- round trips -----

  // Shapes of a grouped attention layer: `ratio` query heads per key-value head.
  ghost predicate Shaped<T>(q: seq<T>, k: seq<T>, v: seq<T>, ratio: nat, groups: nat, headDim: nat) {
    groups >= 1 && |q| == groups * (ratio * headDim) && |k| == groups * headDim && |v| == groups * headDim
  }

  lemma Regroup(x: nat, y: nat, t: nat, p: nat)
    ensures x * (y * (t * p)) == (y * x * p) * t
  {
    MulAssoc(x, y, t * p);
    MulAssoc(x * y, p, t);
  }

  lemma QueryRows(ratio: nat, groups: nat, headDim: nat)
    requires groups >= 1
    ensures headDim * (ratio * groups) / groups == ratio * headDim
  {
    assert headDim * (ratio * groups) == (ratio * headDim) * groups by { Regroup(headDim, ratio, groups, 1); }
    ModMultiple(ratio * headDim, groups);
  }

  // The interleaved rows as blocks of one group each.
  function GroupBlocks<T>(q: seq<T>, k: seq<T>, v: seq<T>, ratio: nat, groups: nat, headDim: nat): seq<seq<T>> {
    JoinGroups(View(q, groups, ratio * headDim), View(k, groups, headDim), View(v, groups, headDim))
  }

  function GroupSize(ratio: nat, headDim: nat): nat {
    ratio * headDim + headDim + headDim
  }

  lemma InterleavedBlocks<T>(q: seq<T>, k: seq<T>, v: seq<T>, ratio: nat, groups: nat, headDim: nat)
    requires Shaped(q, k, v, ratio, groups, headDim)
    ensures headDim * (ratio * groups) / groups == ratio * headDim
    ensures Interleave(q, k, v, ratio * groups, groups, headDim)
        == Flatten(GroupBlocks(q, k, v, ratio, groups, headDim))
    ensures |GroupBlocks(q, k, v, ratio, groups, headDim)| == groups
    ensures BlocksOf(GroupBlocks(q, k, v, ratio, groups, headDim), GroupSize(ratio, headDim))
    ensures Deinterleave(GroupBlocks(q, k, v, ratio, groups, headDim), ratio * headDim, headDim) == Split3(q, k, v)
  {
    hide Flatten, View;
    QueryRows(ratio, groups, headDim);
    ViewExact(q, groups, ratio * headDim);
    ViewExact(k, groups, headDim);
    ViewExact(v, groups, headDim);
    DeinterleaveJoin(View(q, groups, ratio * headDim), View(k, groups, headDim), View(v, groups, headDim),
                     ratio * headDim, headDim);
  }

  // The sizes the code computes from a shard's rows are the group's sizes.
  lemma ComputedSizes(ratio: nat, groups: nat, headDim: nat)
    requires groups >= 1
    ensures SharesEvenly(groups * GroupSize(ratio, headDim), ratio)
    ensures QuerySize(groups * GroupSize(ratio, headDim), ratio, groups) == ratio * headDim
    ensures KvSize(groups * GroupSize(ratio, headDim), ratio, groups) == headDim
  {
    Distribute(ratio, 2, headDim);
    assert groups * ((ratio + 2) * headDim) == (headDim * groups) * (ratio + 2) by {
      Regroup(groups, 1, ratio + 2, headDim);
      assert groups * headDim == headDim * groups;
    }
    ModMultiple(headDim * groups, ratio + 2);
    ModMultiple(headDim, groups);
    assert (headDim * groups) * ratio == (ratio * headDim) * groups by { Regroup(headDim, 1, groups, ratio); }
    ModMultiple(ratio * headDim, groups);
  }

  // Unsharded: splitting the interleaved tensor gives back q, k and v.
  method SplitRoundTrip<T>(q: seq<T>, k: seq<T>, v: seq<T>, ratio: nat, groups: nat, headDim: nat)
    returns (r: Result<Split3<T>, LayoutError>)
    requires Shaped(q, k, v, ratio, groups, headDim)
    ensures r == Ok(Split3(q, k, v))
  {
    hide Chunk, Flatten, QuerySize, KvSize, SharesEvenly, Deinterleave, GroupBlocks, Interleave;
    InterleavedBlocks(q, k, v, ratio, groups, headDim);
    ghost var blocks := GroupBlocks(q, k, v, ratio, groups, headDim);
    var rows := Interleave(q, k, v, ratio * groups, groups, headDim);
    ModMultiple(ratio, groups);
    FlattenLength(blocks, GroupSize(ratio, headDim));
    ComputedSizes(ratio, groups, headDim);
    ChunkOfFlatten(blocks, GroupSize(ratio, headDim));
    r := SplitTensors(rows, ratio * groups, groups);
  }

  lemma {:induction false} RankBlocks<T>(ranks: seq<seq<seq<T>>>, t: nat, size: nat)
    requires t < |ranks| && BlocksOf(Flatten(ranks), size)
    ensures BlocksOf(ranks[t], size)
  {
    if t == 0 {
      assert forall i :: 0 <= i < |ranks[0]| ==> ranks[0][i] == Flatten(ranks)[i];
    } else {
      assert forall i :: 0 <= i < |Flatten(ranks[1..])| ==> Flatten(ranks[1..])[i] == Flatten(ranks)[|ranks[0]| + i];
      RankBlocks(ranks[1..], t - 1, size);
    }
  }

  // Cutting the rows into equal shards deals the group blocks to the ranks.
  lemma ShardsOfBlocks<T>(blocks: seq<seq<T>>, tp: nat, perRank: nat, size: nat)
    requires tp >= 1 && |blocks| == tp * perRank && BlocksOf(blocks, size)
    ensures var ranks := View(blocks, tp, perRank);
            && Flatten(ranks) == blocks && BlocksOf(ranks, perRank)
            && (forall t :: 0 <= t < tp ==> BlocksOf(ranks[t], size))
            && View(Flatten(blocks), tp, perRank * size) == Flattened(ranks)
            && |Flatten(blocks)| == tp * (perRank * size)
  {
    var ranks := View(blocks, tp, perRank);
    ViewExact(blocks, tp, perRank);
    FlattenTwice(ranks);
    forall t | 0 <= t < tp
      ensures BlocksOf(ranks[t], size) && |Flatten(ranks[t])| == perRank * size
    {
      RankBlocks(ranks, t, size);
      FlattenLength(ranks[t], size);
    }
    ViewOfFlatten(Flattened(ranks), perRank * size);
    FlattenLength(blocks, size);
    MulAssoc(tp, perRank, size);
  }

  lemma {:induction false} ShardChunksAre<T>(ranks: seq<seq<seq<T>>>, n: nat, perRank: nat, size: nat)
    requires n <= |ranks| && perRank >= 1 && BlocksOf(ranks, perRank)
    requires forall t :: 0 <= t < |ranks| ==> BlocksOf(ranks[t], size)
    ensures ShardChunks(Flattened(ranks), n, perRank) == Flatten(ranks[..n])
  {
    if n > 0 {
      ShardChunksAre(ranks, n - 1, perRank, size);
      ChunkOfFlatten(ranks[n - 1], size);
      FlattenSnoc(ranks[..n - 1], ranks[n - 1]);
      assert ranks[..n] == ranks[..n - 1] + [ranks[n - 1]];
    }
  }

  lemma TrunksAreShards<T>(rows: seq<T>, tp: nat, total: nat)
    requires |rows| == tp * total
    ensures Trunks(rows, tp, total) == View(rows, tp, total)
  {
    forall i | 0 <= i < tp
      ensures Trunks(rows, tp, total)[i] == View(rows, tp, total)[i]
    {
      ViewAt(rows, tp, total, i);
      TrunkAt(rows, tp, total, i);
    }
  }

  lemma TrunkSizes(ratio: nat, tp: nat, perRank: nat, headDim: nat)
    requires tp >= 1 && perRank >= 1
    ensures var groups := tp * perRank;
            var qTp, kvTp := TrunkRows(headDim, ratio * groups, tp), TrunkRows(headDim, groups, tp);
            && Ratio(qTp, perRank) == ratio * headDim && Ratio(kvTp, perRank) == headDim
            && qTp + 2 * kvTp == perRank * GroupSize(ratio, headDim)
  {
    var groups := tp * perRank;
    var a, d := ratio * headDim, headDim;
    Regroup(headDim, ratio, tp, perRank);
    ModMultiple(a * perRank, tp);
    ModMultiple(a, perRank);
    Regroup(headDim, 1, tp, perRank);
    ModMultiple(d * perRank, tp);
    ModMultiple(d, perRank);
    Distribute(a + d, d, perRank);
    Distribute(a, d, perRank);
  }

  // Everything the sharded round trip needs to know about the shards.
  lemma ShardFacts<T>(q: seq<T>, k: seq<T>, v: seq<T>, ratio: nat, tp: nat, perRank: nat, headDim: nat)
    requires tp >= 1 && perRank >= 1 && Shaped(q, k, v, ratio, tp * perRank, headDim)
    ensures headDim * (ratio * (tp * perRank)) / (tp * perRank) == ratio * headDim
    ensures var rows := Interleave(q, k, v, ratio * (tp * perRank), tp * perRank, headDim);
            var shards := View(rows, tp, perRank * GroupSize(ratio, headDim));
            && |shards| == tp && |shards[0]| == perRank * GroupSize(ratio, headDim)
            && Trunks(rows, tp, perRank * GroupSize(ratio, headDim)) == shards
            && BlocksOf(ShardChunks(shards, tp, perRank), ratio * headDim + headDim + headDim)
            && Deinterleave(ShardChunks(shards, tp, perRank), ratio * headDim, headDim) == Split3(q, k, v)
  {
    hide Flatten, View, Chunk, Deinterleave, GroupBlocks, Interleave, Trunks;
    var groups, size := tp * perRank, GroupSize(ratio, headDim);
    InterleavedBlocks(q, k, v, ratio, groups, headDim);
    var blocks := GroupBlocks(q, k, v, ratio, groups, headDim);
    var rows := Interleave(q, k, v, ratio * groups, groups, headDim);
    ShardsOfBlocks(blocks, tp, perRank, size);
    var ranks := View(blocks, tp, perRank);
    ShardChunksAre(ranks, tp, perRank, size);
    assert ranks[..tp] == ranks;
    FlattenLength(ranks[0], size);
    TrunksAreShards(rows, tp, perRank * size);
  }

  lemma DeinterleavedIs<T>(blocks: seq<seq<T>>, a: nat, d: nat)
    requires BlocksOf(blocks, a + d + d)
    ensures Deinterleave(blocks, a, d)
         == Split3(Flatten(QueryParts(blocks, a, d)), Flatten(KeyParts(blocks, a, d)),
                   Flatten(ValueParts(blocks, a, d)))
  {
  }

  // Sharded over any number of ranks that divides the key-value heads: all three ways of
  // merging give back q, k and v.
  method ShardedRoundTrip<T>(q: seq<T>, k: seq<T>, v: seq<T>, ratio: nat, tp: nat, perRank: nat, headDim: nat)
    returns (merged: Result<Split3<T>, LayoutError>, trunks: Result<Split3<T>, LayoutError>,
             concat: Result<seq<seq<T>>, LayoutError>)
    requires tp >= 1 && perRank >= 1 && Shaped(q, k, v, ratio, tp * perRank, headDim)
    ensures merged == Ok(Split3(q, k, v))
    ensures trunks == Ok(Split3(q, k, v))
    ensures concat == Ok([q, k, v])
  {
    hide Flatten, View, Chunk, Deinterleave, Interleave, ShardChunks, TakenChunks, BlocksOf, QuerySize, KvSize,
      SharesEvenly, GroupSize, TrunkRows;
    var groups := tp * perRank;
    MulMono(1, tp, perRank);
    ShardFacts(q, k, v, ratio, tp, perRank, headDim);
    var rows := Interleave(q, k, v, ratio * groups, groups, headDim);
    var shards := View(rows, tp, perRank * GroupSize(ratio, headDim));
    ModMultiple(ratio, groups);
    assert perRank * tp == groups;
    ModMultiple(perRank, tp);
    ComputedSizes(ratio, perRank, headDim);
    TrunkSizes(ratio, tp, perRank, headDim);
    merged := MergeAcrossTp(shards, ratio * groups, groups, tp);
    ghost var parts;
    concat, parts := DefaultTpConcat(shards, ratio * groups, groups, tp, true);
    MulMono(1, perRank, tp);
    trunks := ConvertQkvShard(rows, ratio * groups, groups, headDim, groups, tp);
    assert KvTrunkRows(headDim, groups, tp) == TrunkRows(headDim, groups, tp);
    AllTaken(shards, tp, perRank, groups, tp);
    SlicesAreParts(ShardChunks(shards, tp, perRank), ratio * headDim, headDim);
    DeinterleavedIs(ShardChunks(shards, tp, perRank), ratio * headDim, headDim);
  }

  // ----- more ranks than key-value heads -----

  lemma HeadOfRank(heads: nat, copies: nat)
    requires copies >= 1
    ensures forall t: nat :: t < heads * copies ==> t / copies < heads
  {
    forall t: nat | t < heads * copies
      ensures t / copies < heads
    {
      DivMod(t, copies);
      if t / copies >= heads {
        MulMono(heads, t / copies, copies);
      }
    }
  }

  // Each head once for every rank that holds a copy of it.
  function Replicated<T>(heads: seq<seq<T>>, copies: nat): (r: seq<seq<T>>)
    requires copies >= 1
    ensures |r| == |heads| * copies && forall t: nat :: t < |r| ==> t / copies < |heads| && r[t] == heads[t / copies]
  {
    HeadOfRank(|heads|, copies);
    seq(|heads| * copies, t requires 0 <= t < |heads| * copies => heads[t / copies])
  }

  lemma TakesFirstCopy(kvHeads: nat, copies: nat, rank: nat)
    requires kvHeads >= 1 && copies >= 2
    ensures kvHeads < kvHeads * copies
    ensures TakesKv(kvHeads, kvHeads * copies, rank) <==> rank % copies == 0
  {
    var q, r := rank / copies, rank % copies;
    DivMod(rank, copies);
    assert kvHeads * copies == copies * kvHeads;
    MulMono(2, copies, kvHeads);
    Distribute(q * copies, r, kvHeads);
    MulAssoc(q, copies, kvHeads);
    MulSign(r, kvHeads);
    MulMono(r + 1, copies, kvHeads);
    Distribute(r, 1, kvHeads);
    DivModUnique(rank * kvHeads, kvHeads * copies, q, r * kvHeads);
  }

  // The heads whose first copy is among the first n ranks.
  lemma FirstCopies(n: nat, copies: nat)
    requires n >= 1 && copies >= 1
    ensures (n - 1 + copies - 1) / copies == (n - 1) / copies + if (n - 1) % copies == 0 then 0 else 1
    ensures (n + copies - 1) / copies == (n - 1) / copies + 1
  {
    var q, r := (n - 1) / copies, (n - 1) % copies;
    DivMod(n - 1, copies);
    Distribute(q, 1, copies);
    DivModUnique(n + copies - 1, copies, q + 1, r);
    if r == 0 {
      DivModUnique(n - 1 + copies - 1, copies, q, copies - 1);
    } else {
      DivModUnique(n - 1 + copies - 1, copies, q + 1, r - 1);
    }
  }

  ghost predicate HoldsCopy<T>(shard: seq<T>, ks: seq<seq<T>>, vs: seq<seq<T>>, g: nat, a: nat, d: nat) {
    g < |ks| == |vs| && Slice(shard, a, a + d) == ks[g] && Slice(shard, a + d, |shard|) == vs[g]
  }

  // Shard t holds, behind its a query rows, the key and the value head of its group.
  ghost predicate HoldsCopies<T>(shards: seq<seq<T>>, ks: seq<seq<T>>, vs: seq<seq<T>>, copies: nat, a: nat, d: nat) {
    && copies >= 1 && |ks| == |vs| && |shards| == |ks| * copies
    && forall t: nat :: t < |shards| ==> HoldsCopy(shards[t], ks, vs, t / copies, a, d)
  }

  lemma CopyHeld<T>(shards: seq<seq<T>>, ks: seq<seq<T>>, vs: seq<seq<T>>, copies: nat, a: nat, d: nat, t: nat)
    requires HoldsCopies(shards, ks, vs, copies, a, d) && t < |shards|
    ensures t / copies < |ks| == |vs|
    ensures SliceEach([shards[t]], a, a + d) == [ks[t / copies]] && RestEach([shards[t]], a + d) == [vs[t / copies]]
  {
  }

  // The slices of the first n shards that are taken are the first `count` heads.
  ghost predicate HeadsTaken<T>(taken: seq<seq<T>>, ks: seq<seq<T>>, vs: seq<seq<T>>, a: nat, d: nat, count: int) {
    0 <= count <= |ks| == |vs| && SliceEach(taken, a, a + d) == ks[..count] && RestEach(taken, a + d) == vs[..count]
  }

  lemma PrefixNext<T>(s: seq<T>, g: nat)
    requires g < |s|
    ensures s[..g + 1] == s[..g] + [s[g]]
  {
  }

  lemma TakenNext<T>(taken: seq<seq<T>>, shard: seq<T>, ks: seq<seq<T>>, vs: seq<seq<T>>, a: nat, d: nat, g: nat)
    requires HeadsTaken(taken, ks, vs, a, d, g) && g < |ks|
    requires SliceEach([shard], a, a + d) == [ks[g]] && RestEach([shard], a + d) == [vs[g]]
    ensures HeadsTaken(taken + [shard], ks, vs, a, d, g + 1)
  {
    hide SliceEach, RestEach, Slice;
    SlicesAppend(taken, [shard], a, a + d);
    PrefixNext(ks, g);
    PrefixNext(vs, g);
  }

  lemma NoHeads<T>(ks: seq<seq<T>>, vs: seq<seq<T>>, a: nat, d: nat)
    requires |ks| == |vs|
    ensures HeadsTaken([], ks, vs, a, d, 0)
  {
  }

  lemma ChunkWhole<T>(s: seq<T>)
    ensures Chunk(s, 1) == [s]
  {
    FlattenSnoc([], s);
    assert [] + [s] == [s];
    ChunkOfFlatten([s], |s|);
  }

  lemma {:induction false} TakenOnce<T>(shards: seq<seq<T>>, ks: seq<seq<T>>, vs: seq<seq<T>>, copies: nat, n: nat,
                                        a: nat, d: nat)
    requires copies >= 2 && |ks| == |vs| >= 1 && n <= |shards| && HoldsCopies(shards, ks, vs, copies, a, d)
    ensures HeadsTaken(TakenChunks(shards, n, 1, |ks|, |ks| * copies), ks, vs, a, d, (n + copies - 1) / copies)
  {
    hide Slice, Chunk, TakesKv, HoldsCopies, HeadsTaken, SliceEach, RestEach;
    TakesFirstCopy(|ks|, copies, n);
    if n == 0 {
      DivModUnique(copies - 1, copies, 0, copies - 1);
      NoHeads(ks, vs, a, d);
    } else {
      TakenOnce(shards, ks, vs, copies, n - 1, a, d);
      FirstCopies(n, copies);
      TakesFirstCopy(|ks|, copies, n - 1);
      if (n - 1) % copies == 0 {
        ChunkWhole(shards[n - 1]);
        CopyHeld(shards, ks, vs, copies, a, d, n - 1);
        TakenNext(TakenChunks(shards, n - 1, 1, |ks|, |ks| * copies), shards[n - 1], ks, vs, a, d, (n - 1) / copies);
      }
    }
  }

  lemma {:induction false} WholeShards<T>(shards: seq<seq<T>>, n: nat)
    requires n <= |shards|
    ensures ShardChunks(shards, n, 1) == shards[..n]
  {
    hide Chunk;
    if n > 0 {
      WholeShards(shards, n - 1);
      ChunkWhole(shards[n - 1]);
    }
  }

  lemma GroupsPerRank(queryGroups: nat, tp: nat)
    requires tp >= 1 && queryGroups < 2 * tp
    ensures Ratio(queryGroups, tp) == if queryGroups < tp then 0 else 1
  {
    DivModUnique(queryGroups, tp, if queryGroups < tp then 0 else 1,
                 if queryGroups < tp then queryGroups else queryGroups - tp);
  }

  lemma RatioOne(x: nat)
    ensures Ratio(x, 1) == x
  {
  }

  lemma AllCopies(heads: nat, copies: nat)
    requires copies >= 1
    ensures (heads * copies + copies - 1) / copies == heads
  {
    DivModUnique(heads * copies + copies - 1, copies, heads, copies - 1);
  }

  lemma JoinedSlices<T>(x: seq<T>, y: seq<T>, z: seq<T>)
    ensures Slice(x + y + z, 0, |x|) == x && Slice(x + y + z, |x|, |x| + |y|) == y
    ensures Slice(x + y + z, |x| + |y|, |x + y + z|) == z
  {
  }

  lemma ReplicatedShard<T>(q: seq<T>, ks: seq<seq<T>>, vs: seq<seq<T>>, g: nat, d: nat)
    requires g < |ks| == |vs| && BlocksOf(ks, d) && BlocksOf(vs, d)
    ensures var shard := q + ks[g] + vs[g];
      |shard| == |q| + 2 * d && Slice(shard, 0, |q|) == q && HoldsCopy(shard, ks, vs, g, |q|, d)
  {
    hide Slice;
    assert |ks[g]| == |vs[g]| == d;
    JoinedSlices(q, ks[g], vs[g]);
  }

  lemma ReplicatedShards<T>(qs: seq<seq<T>>, ks: seq<seq<T>>, vs: seq<seq<T>>, copies: nat, a: nat, d: nat)
    requires copies >= 2 && |ks| == |vs| >= 1 && |qs| == |ks| * copies
    requires BlocksOf(qs, a) && BlocksOf(ks, d) && BlocksOf(vs, d)
    ensures var blocks := JoinGroups(qs, Replicated(ks, copies), Replicated(vs, copies));
      && BlocksOf(blocks, a + 2 * d) && SliceEach(blocks, 0, a) == qs && HoldsCopies(blocks, ks, vs, copies, a, d)
  {
    hide Slice, HoldsCopy;
    var blocks := JoinGroups(qs, Replicated(ks, copies), Replicated(vs, copies));
    forall t: nat | t < |blocks|
      ensures |blocks[t]| == a + 2 * d && Slice(blocks[t], 0, a) == qs[t]
              && HoldsCopy(blocks[t], ks, vs, t / copies, a, d)
    {
      QuotientNonNegative(t, copies);
      assert |qs[t]| == a && t / copies < |ks|;
      ReplicatedShard(qs[t], ks, vs, t / copies, d);
    }
  }

  lemma TrunksOfBlocks<T>(blocks: seq<seq<T>>, size: nat)
    requires BlocksOf(blocks, size)
    ensures Trunks(Flatten(blocks), |blocks|, size) == blocks
  {
    FlattenLength(blocks, size);
    TrunksAreShards(Flatten(blocks), |blocks|, size);
    ViewOfFlatten(blocks, size);
  }

  // Ranks that share key-value heads: each holds its own query rows and a copy of its head, and
  // converting gives back the queries in full and every head once.  There must be a query group
  // for each rank: with as many query groups as key-value heads, the code divides by zero.
  method ReplicatedRoundTrip<T>(qs: seq<seq<T>>, ks: seq<seq<T>>, vs: seq<seq<T>>, copies: nat, heads: nat,
                                headDim: nat, queryGroups: nat)
    returns (r: Result<Split3<T>, LayoutError>)
    requires copies >= 2 && |ks| == |vs| >= 1 && |qs| == |ks| * copies && queryGroups < 2 * |qs|
    requires BlocksOf(qs, TrunkRows(headDim, heads, |qs|)) && BlocksOf(ks, headDim) && BlocksOf(vs, headDim)
    ensures queryGroups >= |qs| ==> r == Ok(Split3(Flatten(qs), Flatten(ks), Flatten(vs)))
    ensures queryGroups < |qs| ==> r == Err(DivisionByZero)
    ensures queryGroups == |ks| ==> r == Err(DivisionByZero)
  {
    hide Chunk, Flatten, Ratio, TrunkRows, Trunks, TakesKv, TakenChunks, ShardChunks, Slice, BlocksOf, Replicated,
      HoldsCopies;
    var tp := |qs|;
    ghost var a := TrunkRows(headDim, heads, tp);
    var blocks := JoinGroups(qs, Replicated(ks, copies), Replicated(vs, copies));
    ReplicatedShards(qs, ks, vs, copies, a, headDim);
    TrunksOfBlocks(blocks, a + 2 * headDim);
    TakesFirstCopy(|ks|, copies, 0);
    WholeShards(blocks, tp);
    assert blocks[..tp] == blocks;
    TakenOnce(blocks, ks, vs, copies, tp, a, headDim);
    AllCopies(|ks|, copies);
    assert ks[..|ks|] == ks && vs[..|vs|] == vs;
    RatioOne(a);
    RatioOne(headDim);
    GroupsPerRank(queryGroups, tp);
    r := ConvertQkvShard(Flatten(blocks), heads, |ks|, headDim, queryGroups, tp);
  }

  // ----- gate and up -----

  // Each rank holds its gate rows followed by its up rows.
  function GateUpShards<T>(gates: seq<seq<T>>, ups: seq<seq<T>>): (r: seq<seq<T>>)
    requires |gates| == |ups|
    ensures |r| == |gates| && forall t :: 0 <= t < |gates| ==> r[t] == gates[t] + ups[t]
  {
    seq(|gates|, t requires 0 <= t < |gates| => gates[t] + ups[t])
  }

  // Where `chunk(2)` cuts: the first half gets the odd row.
  function Middle(rows: nat): nat {
    (rows + 1) / 2
  }

  function FirstHalves<T>(shards: seq<seq<T>>): (r: seq<seq<T>>)
    ensures |r| == |shards| && forall t :: 0 <= t < |shards| ==> r[t] == shards[t][..Middle(|shards[t]|)]
  {
    seq(|shards|, t requires 0 <= t < |shards| => shards[t][..Middle(|shards[t]|)])
  }

  function SecondHalves<T>(shards: seq<seq<T>>): (r: seq<seq<T>>)
    ensures |r| == |shards| && forall t :: 0 <= t < |shards| ==> r[t] == shards[t][Middle(|shards[t]|)..]
  {
    seq(|shards|, t requires 0 <= t < |shards| => shards[t][Middle(|shards[t]|)..])
  }

  lemma HalfSize(rows: nat)
    ensures ChunkSize(rows, 2) == Middle(rows)
    ensures rows >= 2 ==> 1 <= Middle(rows) < rows <= 2 * Middle(rows)
    ensures rows == 1 ==> Middle(rows) == 1
  {
  }

  lemma FirstPieces<T>(s: seq<T>, size: nat)
    requires s != [] && size >= 1
    ensures |s| <= size ==> Pieces(s, size) == [s]
    ensures size < |s| <= 2 * size ==> Pieces(s, size) == [s[..size], s[size..]]
  {
    if size < |s| {
      assert Pieces(s, size) == [s[..size]] + Pieces(s[size..], size);
    }
  }

  // A shard falls into two chunks unless it has just one row.
  lemma TwoChunks<T>(s: seq<T>)
    ensures |Chunk(s, 2)| == 2 <==> |s| != 1
    ensures |s| != 1 ==> Chunk(s, 2) == [s[..Middle(|s|)], s[Middle(|s|)..]]
  {
    hide Pieces;
    HalfSize(|s|);
    if s != [] {
      FirstPieces(s, Middle(|s|));
    }
  }

  // Halves every shard and stacks the halves; a shard of one row does not fall in two.
  method MergeGateUp<T>(shards: seq<seq<T>>) returns (r: Result<(seq<T>, seq<T>), LayoutError>)
    ensures r.Ok? <==> shards != [] && forall t :: 0 <= t < |shards| ==> |shards[t]| != 1
    ensures r.Ok? ==> r.value == (Flatten(FirstHalves(shards)), Flatten(SecondHalves(shards)))
  {
    hide Chunk, Flatten, Middle;
    var gates: seq<seq<T>>, ups: seq<seq<T>> := [], [];
    for t := 0 to |shards|
      invariant gates == FirstHalves(shards[..t]) && ups == SecondHalves(shards[..t])
      invariant forall i :: 0 <= i < t ==> |shards[i]| != 1
    {
      TwoChunks(shards[t]);
      var halves := Chunk(shards[t], 2);
      if |halves| != 2 {
        return Err(SplitMismatch);
      }
      gates, ups := gates + [halves[0]], ups + [halves[1]];
    }
    assert shards[..|shards|] == shards;
    if shards == [] {
      return Err(NoShards);
    }
    return Ok((Flatten(gates), Flatten(ups)));
  }

  // The gathered tensor cut by computed size instead.
  method ConvertGateUpShard<T>(full: seq<T>, intermediate: nat, tp: nat)
    returns (r: Result<(seq<T>, seq<T>), LayoutError>)
    ensures r.Ok? <==> tp >= 1
    ensures r.Ok? ==>
              var h := Ratio(intermediate, tp);
              var trunks := Trunks(full, tp, h * 2);
              r.value == (Flatten(SliceEach(trunks, 0, h)), Flatten(RestEach(trunks, h)))
  {
    hide Flatten, Slice, Trunks, Ratio;
    if tp == 0 {
      return Err(DivisionByZero);
    }
    var h := Ratio(intermediate, tp);
    ghost var trunks := Trunks(full, tp, h * 2);
    var gateList: seq<seq<T>>, upList: seq<seq<T>> := [], [];
    for i := 0 to tp
      invariant gateList == SliceEach(trunks[..i], 0, h) && upList == RestEach(trunks[..i], h)
    {
      TrunkAt(full, tp, h * 2, i);
      var gateUp := Slice(full, i * (h * 2), (i + 1) * (h * 2));
      gateList, upList := gateList + [Slice(gateUp, 0, h)], upList + [Slice(gateUp, h, |gateUp|)];
    }
    assert trunks[..tp] == trunks;
    return Ok((Flatten(gateList), Flatten(upList)));
  }

  lemma EvenHalves<T>(gates: seq<seq<T>>, ups: seq<seq<T>>, h: nat)
    requires |gates| == |ups| && BlocksOf(gates, h) && BlocksOf(ups, h)
    ensures var shards := GateUpShards(gates, ups);
      && FirstHalves(shards) == gates && SecondHalves(shards) == ups
      && forall t :: 0 <= t < |shards| ==> |shards[t]| != 1
  {
    var shards := GateUpShards(gates, ups);
    forall t | 0 <= t < |shards|
      ensures |shards[t]| != 1 && FirstHalves(shards)[t] == gates[t] && SecondHalves(shards)[t] == ups[t]
    {
      assert |shards[t]| == 2 * h && Middle(2 * h) == h;
    }
  }

  lemma TrunkHalves<T>(gates: seq<seq<T>>, ups: seq<seq<T>>, h: nat)
    requires |gates| == |ups| && BlocksOf(gates, h) && BlocksOf(ups, h)
    ensures var trunks := Trunks(Flatten(GateUpShards(gates, ups)), |gates|, h * 2);
      SliceEach(trunks, 0, h) == gates && RestEach(trunks, h) == ups
  {
    hide Flatten, Trunks;
    var shards := GateUpShards(gates, ups);
    TrunksOfBlocks(shards, h * 2);
    forall t | 0 <= t < |gates|
      ensures Slice(shards[t], 0, h) == gates[t] && Slice(shards[t], h, |shards[t]|) == ups[t]
    {
    }
  }

  // Shards that hold a rank's gate rows followed by its up rows, as many of each: merging them,
  // or gathering and converting them, gives all the gate rows and all the up rows.
  method GateUpRoundTrip<T>(gates: seq<seq<T>>, ups: seq<seq<T>>, h: nat, intermediate: nat)
    returns (merged: Result<(seq<T>, seq<T>), LayoutError>, trunks: Result<(seq<T>, seq<T>), LayoutError>)
    requires |gates| == |ups| >= 1 && BlocksOf(gates, h) && BlocksOf(ups, h) && Ratio(intermediate, |gates|) == h
    ensures merged == trunks == Ok((Flatten(gates), Flatten(ups)))
  {
    hide Flatten, Slice, Trunks, Ratio, GateUpShards, BlocksOf;
    var shards := GateUpShards(gates, ups);
    EvenHalves(gates, ups, h);
    TrunkHalves(gates, ups, h);
    merged := MergeGateUp(shards);
    trunks := ConvertGateUpShard(Flatten(shards), intermediate, |gates|);
  }
}
