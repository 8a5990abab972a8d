/** Dispatching a batch over workers: pad to a divisor, chunk, compute, concatenate, unpad. */
module Protocol {
  import opened Wrappers
  import opened Arith
  import opened SeqLib
  import opened Blocks
  import opened Selections
  import opened Alignment

  // ----- Chunking -----

  datatype ChunkError = UnequalChunks

  // `np.array_split` at the running sums of the sizes, the last left out: the last piece takes
  // what remains.
  function SplitBySizes<T>(s: seq<T>, sizes: seq<nat>): (pieces: seq<seq<T>>)
    ensures |pieces| == |sizes|
  {
    if sizes == [] then []
    else if |sizes| == 1 then [s]
    else
      var cut := if sizes[0] <= |s| then sizes[0] else |s|;
      [s[..cut]] + SplitBySizes(s[cut..], sizes[1..])
  }

  function LengthsOf<T>(pieces: seq<seq<T>>): (sizes: seq<nat>)
    ensures |sizes| == |pieces| && forall i :: 0 <= i < |pieces| ==> sizes[i] == |pieces[i]|
  {
    seq(|pieces|, i requires 0 <= i < |pieces| => |pieces[i]|)
  }

  // An object column, cut where the tensor batch was cut, or evenly when there is none.
  function ObjectPieces<T>(s: seq<T>, chunks: nat, sizes: Option<seq<nat>>): (pieces: seq<seq<T>>)
    ensures sizes.None? ==> |pieces| == chunks
    ensures sizes.Some? ==> |pieces| == |sizes.value|
  {
    if sizes.Some? then SplitBySizes(s, sizes.value) else ArraySplit(s, chunks)
  }

  lemma ChunkEven<T>(s: seq<T>, chunks: nat, size: nat)
    requires chunks >= 1 && |s| == chunks * size
    ensures Blocks.Chunk(s, chunks) == View(s, chunks, size)
  {
    ViewExact(s, chunks, size);
    ChunkOfFlatten(View(s, chunks, size), size);
  }

  lemma {:induction false} SplitEven<T>(s: seq<T>, sizes: seq<nat>, size: nat)
    requires |s| == |sizes| * size && forall i :: 0 <= i < |sizes| ==> sizes[i] == size
    ensures SplitBySizes(s, sizes) == View(s, |sizes|, size)
  {
    if |sizes| == 1 {
      assert s[..size] == s && View(s[size..], 0, size) == [];
    } else if |sizes| > 1 {
      Distribute(|sizes| - 1, 1, size);
      MulSign(|sizes| - 1, size);
      SplitEven(s[size..], sizes[1..], size);
    }
  }

  predicate Chunkable(n: nat, chunks: nat) {
    chunks >= 1 && n % chunks == 0
  }

  // The rows of each chunk.
  function ChunkRows(n: nat, chunks: nat): (size: nat)
    requires Chunkable(n, chunks)
    ensures n == chunks * size
  {
    DivMod(n, chunks);
    n / chunks
  }

  function TensorSizes(n: nat, chunks: nat): (sizes: seq<nat>)
    requires Chunkable(n, chunks)
    ensures |sizes| == chunks && forall i :: 0 <= i < chunks ==> sizes[i] == ChunkRows(n, chunks)
  {
    ChunkEven(Range(0, n), chunks, ChunkRows(n, chunks));
    ViewExact(Range(0, n), chunks, ChunkRows(n, chunks));
    LengthsOf(Blocks.Chunk(Range(0, n), chunks))
  }

  function TensorPiece<T>(s: seq<T>, n: nat, chunks: nat, i: nat): seq<T>
    requires Chunkable(n, chunks) && |s| == n && i < chunks
  {
    ChunkEven(s, chunks, ChunkRows(n, chunks));
    Blocks.Chunk(s, chunks)[i]
  }

  function ChunkAt<T, N>(c: Contents<T, N>, n: nat, chunks: nat, i: nat): Contents<T, N>
    requires Aligned(c, n) && Chunkable(n, chunks) && i < chunks
  {
    var sizes := if c.batch.Some? then Some(TensorSizes(n, chunks)) else None;
    Contents(if c.batch.Some?
             then Some(Tensors(TensorSizes(n, chunks)[i],
                               map key | key in c.batch.value.cols ::
                                   TensorPiece(c.batch.value.cols[key], n, chunks, i)))
             else None,
             map key | key in c.nonTensor :: ObjectPieces(c.nonTensor[key], chunks, sizes)[i])
  }

  function ChunksOf<T, N>(c: Contents<T, N>, n: nat, chunks: nat): (r: seq<Contents<T, N>>)
    requires Aligned(c, n) && Chunkable(n, chunks)
    ensures |r| == chunks && forall i :: 0 <= i < chunks ==> r[i] == ChunkAt(c, n, chunks, i)
  {
    seq(chunks, i requires 0 <= i < chunks => ChunkAt(c, n, chunks, i))
  }

  // The chunks are consecutive blocks of the rows, and together they are all of them.
  ghost predicate BlocksOfRows<T, N>(parts: seq<Contents<T, N>>, c: Contents<T, N>, n: nat, size: nat)
    requires Aligned(c, n)
  {
    && n == |parts| * size
    && (forall i :: 0 <= i < |parts| ==> Aligned(parts[i], size) && Consistent(parts[i]))
    && (forall i :: 0 <= i < |parts| ==> Rows(parts[i], size) == View(Rows(c, n), |parts|, size)[i])
  }

  // The positions that chunk i covers.
  function Covered(n: nat, chunks: nat, i: nat): (rows: seq<nat>)
    requires Chunkable(n, chunks) && i < chunks
    ensures |rows| == ChunkRows(n, chunks) && Below(rows, n)
  {
    var size := ChunkRows(n, chunks);
    ViewExact(Range(0, n), chunks, size);
    ViewAt(Range(0, n), chunks, size, i);
    View<nat>(Range(0, n), chunks, size)[i]
  }

  lemma PieceIsCovered<T>(s: seq<T>, n: nat, chunks: nat, i: nat)
    requires Chunkable(n, chunks) && |s| == n && i < chunks
    ensures View(s, chunks, ChunkRows(n, chunks))[i] == Gather(s, Covered(n, chunks, i))
  {
    var size := ChunkRows(n, chunks);
    ViewAt(s, chunks, size, i);
    ViewAt(Range(0, n), chunks, size, i);
  }

  lemma TensorPieceCovered<T>(s: seq<T>, n: nat, chunks: nat, i: nat)
    requires Chunkable(n, chunks) && |s| == n && i < chunks
    ensures TensorPiece(s, n, chunks, i) == Gather(s, Covered(n, chunks, i))
  {
    ChunkEven(s, chunks, ChunkRows(n, chunks));
    PieceIsCovered(s, n, chunks, i);
  }

  lemma ObjectPieceCovered<T>(s: seq<T>, n: nat, chunks: nat, sizes: Option<seq<nat>>, i: nat)
    requires Chunkable(n, chunks) && |s| == n && i < chunks && (sizes.Some? ==> sizes.value == TensorSizes(n, chunks))
    ensures ObjectPieces(s, chunks, sizes)[i] == Gather(s, Covered(n, chunks, i))
  {
    if sizes.Some? {
      SplitEven(s, sizes.value, ChunkRows(n, chunks));
    } else {
      ArraySplitEven(s, chunks, ChunkRows(n, chunks));
    }
    PieceIsCovered(s, n, chunks, i);
  }

  // Chunk i holds block i of the rows, tensors and objects alike.
  lemma ChunkRowsAt<T, N>(c: Contents<T, N>, n: nat, chunks: nat, i: nat)
    requires Aligned(c, n) && Chunkable(n, chunks) && i < chunks
    ensures var size := ChunkRows(n, chunks);
      && Aligned(ChunkAt(c, n, chunks, i), size)
      && Rows(ChunkAt(c, n, chunks, i), size) == View(Rows(c, n), chunks, size)[i]
  {
    hide View, TensorPiece, ObjectPieces, ChunkRows, Covered, Rows;
    var d := ChunkAt(c, n, chunks, i);
    var sizes := if c.batch.Some? then Some(TensorSizes(n, chunks)) else None;
    forall key | key in c.nonTensor
      ensures d.nonTensor[key] == Gather(c.nonTensor[key], Covered(n, chunks, i))
    {
      ObjectPieceCovered(c.nonTensor[key], n, chunks, sizes, i);
    }
    if c.batch.Some? {
      forall key | key in c.batch.value.cols
        ensures d.batch.value.cols[key] == Gather(c.batch.value.cols[key], Covered(n, chunks, i))
      {
        TensorPieceCovered(c.batch.value.cols[key], n, chunks, i);
      }
    }
    PickedRows(d, c, Covered(n, chunks, i), n);
    PieceIsCovered(Rows(c, n), n, chunks, i);
  }

  lemma ChunksAreBlocks<T, N>(c: Contents<T, N>, n: nat, chunks: nat)
    requires Aligned(c, n) && Chunkable(n, chunks)
    ensures BlocksOfRows(ChunksOf(c, n, chunks), c, n, n / chunks)
  {
    hide ChunkAt, View, Rows;
    var size := ChunkRows(n, chunks);
    forall i | 0 <= i < chunks
      ensures Aligned(ChunkAt(c, n, chunks, i), size)
      ensures Rows(ChunkAt(c, n, chunks, i), size) == View(Rows(c, n), chunks, size)[i]
    {
      ChunkRowsAt(c, n, chunks, i);
    }
  }

  lemma ChunkKeys<T, N>(c: Contents<T, N>, n: nat, chunks: nat, i: nat)
    requires Aligned(c, n) && Chunkable(n, chunks) && i < chunks
    ensures SameKeys(c, ChunkAt(c, n, chunks, i))
  {
  }

  // Concatenating the chunks gives the rows back.
  lemma ChunksRejoin<T, N>(c: Contents<T, N>, n: nat, chunks: nat)
    requires Aligned(c, n) && Chunkable(n, chunks)
    ensures var parts := ChunksOf(c, n, chunks);
      Concatenable(parts) && Aligned(Concat(parts), n) && Rows(Concat(parts), n) == Rows(c, n)
  {
    hide ChunkAt, Concat, View, Rows, ColumnsOf;
    var parts, size := ChunksOf(c, n, chunks), ChunkRows(n, chunks);
    var ns: seq<nat> := seq(chunks, _ => size);
    forall i | 0 <= i < chunks
      ensures SameKeys(c, parts[i]) && Aligned(parts[i], size)
      ensures Rows(parts[i], size) == View(Rows(c, n), chunks, size)[i]
    {
      ChunkKeys(c, n, chunks, i);
      ChunkRowsAt(c, n, chunks, i);
    }
    ViewExact(Rows(c, n), chunks, size);
    assert AllAligned(parts, ns);
    assert EachRows(parts, ns) == View(Rows(c, n), chunks, size);
    ConcatRows(parts, ns);
  }

  // Equal chunks, or a failed assertion.  A tensor batch without rows is not modelled.
  method Chunk<T, N>(c: Contents<T, N>, ghost n: nat, chunks: nat) returns (r: Result<seq<Contents<T, N>>, ChunkError>)
    requires Aligned(c, n) && chunks >= 1 && (c.batch.Some? ==> n >= 1)
    ensures r.Ok? <==> n % chunks == 0
    ensures r.Ok? ==> r.value == ChunksOf(c, n, chunks)
    ensures r.Ok? ==> |r.value| == chunks && BlocksOfRows(r.value, c, n, n / chunks)
    ensures r.Ok? ==> Concatenable(r.value) && Aligned(Concat(r.value), n) && Rows(Concat(r.value), n) == Rows(c, n)
  {
    hide ChunksOf, BlocksOfRows, Concatenable, Concat, Rows, ColumnsOf;
    var size := Len(c);
    LengthIsRows(c, n, size);
    if size % chunks != 0 {
      return Err(UnequalChunks);
    }
    ChunksAreBlocks(c, n, chunks);
    ChunksRejoin(c, n, chunks);
    return Ok(ChunksOf(c, size, chunks));
  }

  // ----- Padding to a divisor -----

  // The first m rows of the batch repeated over and over.
  function Cycled<T>(rows: seq<T>, m: nat): (r: seq<T>)
    requires rows != []
    ensures |r| == m && forall j :: 0 <= j < m ==> r[j] == rows[j % |rows|]
  {
    seq(m, j requires 0 <= j < m => rows[j % |rows|])
  }

  predicate MultipleOf(m: nat, n: nat) {
    n >= 1 && m % n == 0
  }

  lemma CycledMore<T>(rows: seq<T>, m: nat, take: nat)
    requires rows != [] && m % |rows| == 0 && take <= |rows|
    ensures Cycled(rows, m + take) == Cycled(rows, m) + rows[..take]
  {
    DivMod(m, |rows|);
    forall j | 0 <= j < take
      ensures Cycled(rows, m + take)[m + j] == rows[j]
    {
      if j < |rows| {
        DivModUnique(m + j, |rows|, m / |rows|, j);
      }
    }
  }

  // The whole batch and then its first rows, over and over: what padding makes of the rows.
  ghost predicate PaddedBy<T, N>(padded: Contents<T, N>, c: Contents<T, N>, n: nat, pad: nat)
    requires Aligned(c, n)
  {
    && Aligned(padded, n + pad)
    && (n == 0 ==> pad == 0)
    && Rows(padded, n + pad) == if n == 0 then [] else Rows(c, n) + Cycled(Rows(c, n), pad)
  }

  // Data and the pieces of it appended so far.
  ghost predicate Parts<T, N>(parts: seq<Contents<T, N>>, c: Contents<T, N>, n: nat, m: nat)
    requires Aligned(c, n) && n >= 1
  {
    Concatenable(parts) && exists ns: seq<nat> ::
      AllAligned(parts, ns) && Flatten(EachRows(parts, ns)) == Rows(c, n) + Cycled(Rows(c, n), m)
  }

  lemma PartsStart<T, N>(c: Contents<T, N>, n: nat)
    requires Aligned(c, n) && n >= 1
    ensures Parts([c], c, n, 0)
  {
    var ns: seq<nat> := [n];
    assert AllAligned([c], ns);
    assert EachRows([c], ns) == [Rows(c, n)];
    FlattenOne(Rows(c, n));
    assert Rows(c, n) + Cycled(Rows(c, n), 0) == Rows(c, n);
  }

  lemma TakenRows<T, N>(c: Contents<T, N>, n: nat, take: nat)
    requires Aligned(c, n) && take <= n
    ensures Aligned(Slice(c, None, Some(take)), take) && SameKeys(c, Slice(c, None, Some(take)))
    ensures Rows(Slice(c, None, Some(take)), take) == Rows(c, n)[..take]
  {
    SliceRows(c, n, None, Some(take));
    assert PySlice(Rows(c, n), None, Some(take)) == Rows(c, n)[..take];
  }

  lemma PartsMore<T, N>(parts: seq<Contents<T, N>>, piece: Contents<T, N>, c: Contents<T, N>, n: nat, m: nat, take: nat)
    requires Aligned(c, n) && n >= 1 && Parts(parts, c, n, m) && MultipleOf(m, n) && take <= n
    requires SameKeys(parts[0], piece) && Aligned(piece, take) && Rows(piece, take) == Rows(c, n)[..take]
    ensures Parts(parts + [piece], c, n, m + take)
  {
    hide Cycled, Rows, SameKeys, Aligned;
    var ns: seq<nat> :| AllAligned(parts, ns) && Flatten(EachRows(parts, ns)) == Rows(c, n) + Cycled(Rows(c, n), m);
    var ns' := ns + [take];
    assert AllAligned(parts + [piece], ns');
    assert EachRows(parts + [piece], ns') == EachRows(parts, ns) + [Rows(piece, take)];
    FlattenSnoc(EachRows(parts, ns), Rows(piece, take));
    CycledMore(Rows(c, n), m, take);
    assert Rows(c, n) + Cycled(Rows(c, n), m) + Rows(c, n)[..take]
        == Rows(c, n) + (Cycled(Rows(c, n), m) + Rows(c, n)[..take]);
    assert Concatenable(parts + [piece]);
  }

  lemma PartsDone<T, N>(parts: seq<Contents<T, N>>, c: Contents<T, N>, n: nat, pad: nat)
    requires Aligned(c, n) && n >= 1 && Parts(parts, c, n, pad)
    ensures PaddedBy(Concat(parts), c, n, pad)
  {
    hide Cycled, Rows, Concat;
    var ns: seq<nat> :| AllAligned(parts, ns) && Flatten(EachRows(parts, ns)) == Rows(c, n) + Cycled(Rows(c, n), pad);
    ConcatRows(parts, ns);
  }

  lemma PadNothing<T, N>(c: Contents<T, N>, n: nat, divisor: nat)
    requires Aligned(c, n) && divisor >= 1 && n % divisor == 0
    ensures PaddedBy(c, c, n, 0) && (n + 0) % divisor == 0
  {
    assert n > 0 ==> Rows(c, n) + Cycled(Rows(c, n), 0) == Rows(c, n);
  }

  lemma ZeroIsMultiple(n: nat, divisor: nat)
    requires divisor >= 1 && n % divisor != 0
    ensures MultipleOf(0, n)
  {
    ModMultiple(0, divisor);
  }

  lemma PartsConcatenable<T, N>(parts: seq<Contents<T, N>>, c: Contents<T, N>, n: nat, pad: nat)
    requires Aligned(c, n) && n >= 1 && Parts(parts, c, n, pad)
    ensures Concatenable(parts)
  {
  }

  lemma NextMultiple(m: nat, n: nat)
    requires MultipleOf(m, n)
    ensures MultipleOf(m + n, n)
  {
    DivMod(m, n);
    Distribute(m / n, 1, n);
    DivModUnique(m + n, n, m / n + 1, 0);
  }

  // Appends the batch's own first rows, at most a whole batch of them at a time, until its size
  // is a multiple of the divisor.
  method PadToDivisor<T, N>(data: Contents<T, N>, ghost n: nat, divisor: nat)
    returns (padded: Contents<T, N>, padSize: nat)
    requires Aligned(data, n) && divisor >= 1
    ensures padSize < divisor && (n + padSize) % divisor == 0
    ensures PaddedBy(padded, data, n, padSize)
  {
    hide *;
    var size := Len(data);
    LengthIsRows(data, n, size);
    PadSizeLeast(n, divisor);
    if size % divisor == 0 {
      PadNothing(data, n, divisor);
      return data, 0;
    }
    padSize := divisor - size % divisor;
    ZeroIsMultiple(n, divisor);
    PartsStart(data, n);
    var parts := [data];
    var remaining := padSize;
    while remaining > 0
      invariant 0 <= remaining <= padSize
      invariant parts != [] && parts[0] == data
      invariant Parts(parts, data, n, padSize - remaining)
      invariant remaining == 0 || MultipleOf(padSize - remaining, n)
    {
      var take := if remaining < size then remaining else size;
      TakenRows(data, n, take);
      PartsMore(parts, Slice(data, None, Some(take)), data, n, padSize - remaining, take);
      NextMultiple(padSize - remaining, n);
      parts := parts + [Slice(data, None, Some(take))];
      remaining := remaining - take;
    }
    PartsConcatenable(parts, data, n, padSize);
    PartsDone(parts, data, n, padSize);
    padded := Concat(parts);
  }

  function FromEnd(k: nat): int {
    var i: int := k;
    -i
  }

  function Unpad<T, N>(c: Contents<T, N>, padSize: nat): Contents<T, N> {
    if padSize != 0 then Slice(c, None, Some(FromEnd(padSize))) else c
  }

  lemma UnpadRows<T, N>(c: Contents<T, N>, n: nat, padSize: nat)
    requires Aligned(c, n + padSize)
    ensures Aligned(Unpad(c, padSize), n) && Rows(Unpad(c, padSize), n) == Rows(c, n + padSize)[..n]
  {
    if padSize != 0 {
      SliceRows(c, n + padSize, None, Some(FromEnd(padSize)));
      assert PySlice(Rows(c, n + padSize), None, Some(FromEnd(padSize))) == Rows(c, n + padSize)[..n];
    }
  }

  // Padding and unpadding gives the rows back.
  lemma PadUnpad<T, N>(padded: Contents<T, N>, c: Contents<T, N>, n: nat, pad: nat)
    requires Aligned(c, n) && PaddedBy(padded, c, n, pad)
    ensures Aligned(Unpad(padded, pad), n) && Rows(Unpad(padded, pad), n) == Rows(c, n)
  {
    UnpadRows(padded, n, pad);
  }

  // ----- Dispatch -----

  // Every worker returns, for its chunk, the row-wise result.
  ghost predicate WorkedOut<T, N, S, M>(f: Row<T, N> -> Row<S, M>, chunks: seq<Contents<T, N>>,
                                        outs: seq<Contents<S, M>>, size: nat)
  {
    |outs| == |chunks| && Concatenable(outs) && forall i :: 0 <= i < |chunks| ==>
      Aligned(chunks[i], size) && Aligned(outs[i], size) && Rows(outs[i], size) == MapSeq(f, Rows(chunks[i], size))
  }

  lemma WorkedRows<T, N, S, M>(f: Row<T, N> -> Row<S, M>, c: Contents<T, N>, n: nat, chunks: nat,
                               outs: seq<Contents<S, M>>)
    requires Aligned(c, n) && Chunkable(n, chunks)
    requires WorkedOut(f, ChunksOf(c, n, chunks), outs, ChunkRows(n, chunks))
    ensures Aligned(Concat(outs), n) && Rows(Concat(outs), n) == MapSeq(f, Rows(c, n))
  {
    hide ChunkAt, Concat, View, Rows, Concatenable;
    var size := ChunkRows(n, chunks);
    var blocks := View(Rows(c, n), chunks, size);
    var ns: seq<nat> := seq(chunks, _ => size);
    assert AllAligned(outs, ns);
    forall i | 0 <= i < chunks
      ensures EachRows(outs, ns)[i] == MapSlices(f, blocks)[i]
    {
      ChunkRowsAt(c, n, chunks, i);
    }
    assert EachRows(outs, ns) == MapSlices(f, blocks);
    ConcatRows(outs, ns);
    MapFlatten(f, blocks);
    ViewExact(Rows(c, n), chunks, size);
  }

  // Pad, chunk, compute row by row on every chunk, concatenate and unpad: the row-wise result of
  // the original batch.
  lemma DispatchIsRowWise<T, N, S, M>(f: Row<T, N> -> Row<S, M>, c: Contents<T, N>, n: nat, divisor: nat,
                                      padded: Contents<T, N>, pad: nat, outs: seq<Contents<S, M>>)
    requires Aligned(c, n) && n >= 1 && Chunkable(n + pad, divisor) && PaddedBy(padded, c, n, pad)
    requires WorkedOut(f, ChunksOf(padded, n + pad, divisor), outs, ChunkRows(n + pad, divisor))
    ensures Aligned(Unpad(Concat(outs), pad), n)
    ensures Rows(Unpad(Concat(outs), pad), n) == MapSeq(f, Rows(c, n))
  {
    hide ChunksOf, Unpad, Rows, Cycled;
    WorkedRows(f, padded, n + pad, divisor, outs);
    UnpadRows(Concat(outs), n, pad);
    assert MapSeq(f, Rows(c, n) + Cycled(Rows(c, n), pad))[..n] == MapSeq(f, Rows(c, n));
  }

  // ----- In place -----

  datatype InconsistentColumns = InconsistentColumns

  lemma RepeatOne<T>(x: T, size: nat)
    ensures Repeated([x], size, true) == Copies(x, size)
  {
    assert RepeatEach([x], size) == Copies(x, size) + RepeatEach([x][1..], size);
    assert [x][1..] == [];
  }

  lemma CopiesOfRow<T, N>(c: Contents<T, N>, n: nat, at: nat, size: nat)
    requires Aligned(c, n) && at < n
    ensures var part := Repeat(SelectIdxs(c, [at], n), size, true);
      Aligned(part, size) && Rows(part, size) == Copies(Rows(c, n)[at], size)
  {
    hide Rows, Repeat, SelectRows;
    var rows := Wrapped([at], n);
    SelectedRows(c, rows, n);
    var candidate := SelectIdxs(c, [at], n);
    assert Rows(candidate, 1) == [Rows(c, n)[at]];
    RepeatRows(candidate, 1, size, true);
    RepeatOne(Rows(c, n)[at], size);
  }

  lemma CopiesKeepKeys<T, N>(c: Contents<T, N>, n: nat, at: nat, size: nat)
    requires Aligned(c, n) && at < n
    ensures SameKeys(c, c) && SameKeys(c, Repeat(SelectIdxs(c, [at], n), size, true))
  {
  }

  lemma PaddingRows<T, N>(c: Contents<T, N>, n: nat, at: nat, size: nat)
    requires Aligned(c, n) && at < n
    ensures var part := Repeat(SelectIdxs(c, [at], n), size, true);
      && Concatenable([c, part]) && Aligned(Concat([c, part]), n + size)
      && Rows(Concat([c, part]), n + size) == Rows(c, n) + Copies(Rows(c, n)[at], size)
  {
    hide Concat, Rows, Repeat, SelectIdxs, SameKeys, Aligned;
    var part := Repeat(SelectIdxs(c, [at], n), size, true);
    CopiesOfRow(c, n, at, size);
    CopiesKeepKeys(c, n, at, size);
    var ns: seq<nat> := [n, size];
    assert AllAligned([c, part], ns);
    ConcatRows([c, part], ns);
    assert EachRows([c, part], ns) == [Rows(c, n)] + [Rows(part, size)];
    FlattenSnoc([Rows(c, n)], Rows(part, size));
    FlattenOne(Rows(c, n));
  }

  class DataProto<T, N> {
    var batch: Option<Tensors<T>>
    var nonTensor: map<string, seq<N>>

    function Value(): Contents<T, N>
      reads this
    {
      Contents(batch, nonTensor)
    }

    constructor (c: Contents<T, N>)
      requires Consistent(c)
      ensures Value() == c
    {
      batch, nonTensor := c.batch, c.nonTensor;
    }

    // Construction with its check.
    static method Create(c: Contents<T, N>) returns (r: Result<DataProto<T, N>, InconsistentColumns>)
      ensures r.Ok? <==> c.batch.Some? ==> forall key :: key in c.nonTensor ==> |c.nonTensor[key]| == c.batch.value.size
      ensures r.Ok? ==> fresh(r.value) && r.value.Value() == c
    {
      if !Consistent(c) {
        return Err(InconsistentColumns);
      }
      var proto := new DataProto(c);
      return Ok(proto);
    }

    // Indexes every column by the same positions; only a batch with tensors has a size to index.
    method Reorder(indices: seq<int>, ghost n: nat)
      requires batch.Some? && Aligned(Value(), n) && forall j :: 0 <= j < |indices| ==> 0 <= indices[j] + n < n + n
      modifies this
      ensures Aligned(Value(), |indices|)
      ensures Rows(Value(), |indices|) == Gather(old(Rows(Value(), n)), Wrapped(indices, n))
    {
      ghost var before := Value();
      var size := batch.value.size;
      var rows := Wrapped(indices, size);
      batch := Some(Tensors(|rows|, EachPick(batch.value.cols, rows, size)));
      nonTensor := EachPick(nonTensor, rows, size);
      SelectedRows(before, rows, n);
      assert Value() == SelectRows(before, rows, n);
    }

    // Appends copies of the first or the last row.
    method Padding(paddingSize: nat, first: bool, ghost n: nat)
      requires Aligned(Value(), n) && n >= 1
      modifies this
      ensures Aligned(Value(), n + paddingSize)
      ensures Rows(Value(), n + paddingSize)
           == old(Rows(Value(), n)) + Copies(old(Rows(Value(), n))[if first then 0 else n - 1], paddingSize)
    {
      hide Rows, Concat, Repeat, SelectIdxs, SameKeys, ColumnsOf, HasLength;
      ghost var rows := Rows(Value(), n);
      if paddingSize == 0 {
        assert rows + Copies(rows[if first then 0 else n - 1], 0) == rows;
        return;
      }
      var size := Len(Value());
      LengthIsRows(Value(), n, size);
      var at := if first then 0 else size - 1;
      var candidate := SelectIdxs(Value(), [at], size);
      var part := Repeat(candidate, paddingSize, true);
      PaddingRows(Value(), n, at, paddingSize);
      var padded := Concat([Value(), part]);
      batch, nonTensor := padded.batch, padded.nonTensor;
      assert Value() == padded;
    }
  }
}
