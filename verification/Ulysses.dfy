/**
 Sequence parallelism: the all-to-all exchange between a sequence-sharded and a head-sharded
 activation, and padding a packed sequence so that it can be sliced over the ranks.

 An activation is a matrix of sequence positions by heads; what one head holds is opaque.
 The tensors of all ranks are listed in rank order.
 */
module Ulysses {
  import opened Arith
  import opened SeqLib
  import opened Blocks

  type Matrix<T> = seq<seq<T>>

  datatype Dim = SequenceDim | HeadDim

  predicate Rectangular<T>(x: Matrix<T>, cols: nat) {
    BlocksOf(x, cols)
  }

  // The r-th of n groups of heads.
  function Columns<T>(x: Matrix<T>, n: nat, r: nat): (y: Matrix<T>)
    requires r < n
    ensures |y| == |x| && forall i :: 0 <= i < |x| ==> y[i] == ArraySplit(x[i], n)[r]
  {
    seq(|x|, i requires 0 <= i < |x| => ArraySplit(x[i], n)[r])
  }

  // `tensor_split` along a dimension.
  function Split<T>(x: Matrix<T>, n: nat, dim: Dim): (parts: seq<Matrix<T>>)
    ensures |parts| == n
  {
    match dim
    case SequenceDim => ArraySplit(x, n)
    case HeadDim => seq(n, r requires 0 <= r < n => Columns(x, n, r))
  }

  predicate EqualRows<T>(parts: seq<Matrix<T>>) {
    parts != [] && forall s :: 0 <= s < |parts| ==> |parts[s]| == |parts[0]|
  }

  function RowAcross<T>(parts: seq<Matrix<T>>, i: nat): (r: seq<seq<T>>)
    requires forall s :: 0 <= s < |parts| ==> i < |parts[s]|
    ensures |r| == |parts| && forall s :: 0 <= s < |parts| ==> r[s] == parts[s][i]
  {
    seq(|parts|, s requires 0 <= s < |parts| => parts[s][i])
  }

  // `cat` along a dimension; along the heads all parts have as many rows as the first.
  function Cat<T>(parts: seq<Matrix<T>>, dim: Dim): Matrix<T>
    requires dim == HeadDim ==> EqualRows(parts)
  {
    match dim
    case SequenceDim => Flatten(parts)
    case HeadDim => seq(|parts[0]|, i requires 0 <= i < |parts[0]| => Flatten(RowAcross(parts, i)))
  }

  // What rank r receives: the r-th piece of every rank's tensor, in rank order.
  function Received<T>(xs: seq<Matrix<T>>, r: nat, scatter: Dim): (parts: seq<Matrix<T>>)
    requires r < |xs|
    ensures |parts| == |xs| && forall s :: 0 <= s < |xs| ==> parts[s] == Split(xs[s], |xs|, scatter)[r]
  {
    seq(|xs|, s requires 0 <= s < |xs| => Split(xs[s], |xs|, scatter)[r])
  }

  predicate SameShape<T>(x: Matrix<T>, y: Matrix<T>) {
    |x| == |y| && forall i :: 0 <= i < |x| ==> |x[i]| == |y[i]|
  }

  // Every receive buffer of rank r has the shape of the first piece that r sends, so every piece
  // sent to r must have that shape.
  predicate Exchangeable<T>(xs: seq<Matrix<T>>, scatter: Dim) {
    forall r, s :: 0 <= r < |xs| && 0 <= s < |xs| ==>
      SameShape(Split(xs[s], |xs|, scatter)[r], Split(xs[r], |xs|, scatter)[0])
  }

  lemma ReceivedEqualRows<T>(xs: seq<Matrix<T>>, r: nat, scatter: Dim)
    requires Exchangeable(xs, scatter) && r < |xs|
    ensures EqualRows(Received(xs, r, scatter))
  {
    forall s | 0 <= s < |xs|
      ensures |Received(xs, r, scatter)[s]| == |Split(xs[r], |xs|, scatter)[0]|
    {
      assert SameShape(Split(xs[s], |xs|, scatter)[r], Split(xs[r], |xs|, scatter)[0]);
    }
  }

  function Exchanged<T>(xs: seq<Matrix<T>>, scatter: Dim, gather: Dim, r: nat): Matrix<T>
    requires Exchangeable(xs, scatter) && r < |xs|
  {
    ReceivedEqualRows(xs, r, scatter);
    Cat(Received(xs, r, scatter), gather)
  }

  function AllToAll<T>(xs: seq<Matrix<T>>, scatter: Dim, gather: Dim): (ys: seq<Matrix<T>>)
    requires Exchangeable(xs, scatter)
    ensures |ys| == |xs| && forall r :: 0 <= r < |xs| ==> ys[r] == Exchanged(xs, scatter, gather, r)
  {
    seq(|xs|, r requires 0 <= r < |xs| => Exchanged(xs, scatter, gather, r))
  }

  // ----- when an exchange is possible -----

  ghost predicate AllPieces<T>(xs: seq<Matrix<T>>, scatter: Dim, shape: Matrix<T>) {
    forall r, s :: 0 <= r < |xs| && 0 <= s < |xs| ==> SameShape(Split(xs[s], |xs|, scatter)[r], shape)
  }

  lemma OneShape<T>(xs: seq<Matrix<T>>, scatter: Dim)
    requires xs != []
    ensures Exchangeable(xs, scatter) <==> AllPieces(xs, scatter, Split(xs[0], |xs|, scatter)[0])
  {
    hide Split;
    var shape := Split(xs[0], |xs|, scatter)[0];
    if Exchangeable(xs, scatter) {
      forall r, s | 0 <= r < |xs| && 0 <= s < |xs|
        ensures SameShape(Split(xs[s], |xs|, scatter)[r], shape)
      {
        assert SameShape(Split(xs[s], |xs|, scatter)[r], Split(xs[r], |xs|, scatter)[0]);
        assert SameShape(Split(xs[r], |xs|, scatter)[0], Split(xs[0], |xs|, scatter)[0]);
      }
    }
  }

  // Pieces of one size make up a multiple of their number, and a multiple is cut so.
  lemma EvenPieces<T>(x: seq<T>, n: nat, size: nat)
    requires n >= 1
    ensures BlocksOf(ArraySplit(x, n), size) <==> |x| == n * size
  {
    if BlocksOf(ArraySplit(x, n), size) {
      ArraySplitFlatten(x, n);
      FlattenLength(ArraySplit(x, n), size);
    }
    if |x| == n * size {
      ArraySplitEven(x, n, size);
      ViewExact(x, n, size);
    }
  }

  ghost predicate RectangularEach<T>(xs: seq<Matrix<T>>, cols: nat) {
    forall s :: 0 <= s < |xs| ==> Rectangular(xs[s], cols)
  }

  lemma EvenColumns<T>(x: Matrix<T>, n: nat, cols: nat, r: nat)
    requires r < n && Rectangular(x, n * cols)
    ensures Rectangular(Columns(x, n, r), cols)
  {
    forall i | 0 <= i < |x|
      ensures |ArraySplit(x[i], n)[r]| == cols
    {
      EvenPieces(x[i], n, cols);
    }
  }

  lemma EvenHeadsExchange<T>(xs: seq<Matrix<T>>, cols: nat)
    requires EqualRows(xs) && RectangularEach(xs, |xs| * cols)
    ensures Exchangeable(xs, HeadDim)
  {
    hide ArraySplit;
    forall r, s | 0 <= r < |xs| && 0 <= s < |xs|
      ensures SameShape(Split(xs[s], |xs|, HeadDim)[r], Split(xs[r], |xs|, HeadDim)[0])
    {
      EvenColumns(xs[s], |xs|, cols, r);
      EvenColumns(xs[r], |xs|, cols, 0);
    }
  }

  lemma HeadPieces<T>(xs: seq<Matrix<T>>, width: nat)
    requires xs != [] && RectangularEach(xs, width) && Exchangeable(xs, HeadDim)
    ensures EqualRows(xs) && (xs[0] == [] || width % |xs| == 0)
  {
    hide ArraySplit;
    OneShape(xs, HeadDim);
    var n, shape := |xs|, Columns(xs[0], |xs|, 0);
    forall s | 0 <= s < n
      ensures |xs[s]| == |xs[0]|
    {
      assert SameShape(Split(xs[s], n, HeadDim)[0], shape);
    }
    if xs[0] != [] {
      var size := |shape[0]|;
      forall r | 0 <= r < n
        ensures |ArraySplit(xs[0][0], n)[r]| == size
      {
        assert SameShape(Split(xs[0], n, HeadDim)[r], shape);
        assert |Columns(xs[0], n, r)[0]| == |shape[0]|;
      }
      EvenPieces(xs[0][0], n, size);
      assert |xs[0][0]| == width && n * size == size * n;
      ModMultiple(size, n);
    }
  }

  // Scattering heads of one width is possible exactly when all ranks hold as many positions and,
  // if there are any, the ranks divide the heads.
  lemma HeadsExchangeExactly<T>(xs: seq<Matrix<T>>, width: nat)
    requires xs != [] && RectangularEach(xs, width)
    ensures Exchangeable(xs, HeadDim) <==> EqualRows(xs) && (xs[0] == [] || width % |xs| == 0)
  {
    if Exchangeable(xs, HeadDim) {
      HeadPieces(xs, width);
    }
    if EqualRows(xs) && xs[0] == [] {
      assert RectangularEach(xs, |xs| * 0);
      EvenHeadsExchange(xs, 0);
    }
    if EqualRows(xs) && width % |xs| == 0 {
      DivMod(width, |xs|);
      assert width == |xs| * (width / |xs|);
      EvenHeadsExchange(xs, width / |xs|);
    }
  }

  lemma RowPieces<T>(ys: seq<Matrix<T>>, size: nat, r: nat, s: nat)
    requires r < |ys| && s < |ys| && |ys[s]| == |ys| * size
    ensures |ArraySplit(ys[s], |ys|)[r]| == size
    ensures forall cols :: Rectangular(ys[s], cols) ==> Rectangular(ArraySplit(ys[s], |ys|)[r], cols)
  {
    EvenPieces(ys[s], |ys|, size);
    ArraySplitEven(ys[s], |ys|, size);
    ViewAt(ys[s], |ys|, size, r);
  }

  // Scattering the sequence is possible exactly when all ranks hold as many positions and the
  // ranks divide them.
  lemma RowsExchangeExactly<T>(ys: seq<Matrix<T>>, width: nat)
    requires ys != [] && RectangularEach(ys, width)
    ensures Exchangeable(ys, SequenceDim) <==> EqualRows(ys) && |ys[0]| % |ys| == 0
  {
    hide ArraySplit;
    var n := |ys|;
    if Exchangeable(ys, SequenceDim) {
      OneShape(ys, SequenceDim);
      var size := |ArraySplit(ys[0], n)[0]|;
      forall s | 0 <= s < n
        ensures |ys[s]| == n * size
      {
        forall r | 0 <= r < n
          ensures |ArraySplit(ys[s], n)[r]| == size
        {
          assert SameShape(Split(ys[s], n, SequenceDim)[r], Split(ys[0], n, SequenceDim)[0]);
        }
        EvenPieces(ys[s], n, size);
      }
      assert n * size == size * n;
      ModMultiple(size, n);
    }
    if EqualRows(ys) && |ys[0]| % n == 0 {
      DivMod(|ys[0]|, n);
      var size := |ys[0]| / n;
      assert |ys[0]| == n * size;
      forall r, s | 0 <= r < n && 0 <= s < n
        ensures SameShape(Split(ys[s], n, SequenceDim)[r], Split(ys[r], n, SequenceDim)[0])
      {
        RowPieces(ys, size, r, s);
        RowPieces(ys, size, 0, r);
      }
    }
  }

  function ColumnsEach<T>(xs: seq<Matrix<T>>, n: nat, r: nat): (ys: seq<Matrix<T>>)
    requires r < n
    ensures |ys| == |xs| && forall s :: 0 <= s < |xs| ==> ys[s] == Columns(xs[s], n, r)
  {
    seq(|xs|, s requires 0 <= s < |xs| => Columns(xs[s], n, r))
  }

  lemma {:induction false} ColumnsFlatten<T>(xs: seq<Matrix<T>>, n: nat, r: nat)
    requires r < n
    ensures Columns(Flatten(xs), n, r) == Flatten(ColumnsEach(xs, n, r))
  {
    if xs != [] {
      ColumnsFlatten(xs[1..], n, r);
      assert ColumnsEach(xs, n, r)[1..] == ColumnsEach(xs[1..], n, r);
      assert Flatten(xs) == xs[0] + Flatten(xs[1..]);
      assert Columns(xs[0] + Flatten(xs[1..]), n, r) == Columns(xs[0], n, r) + Columns(Flatten(xs[1..]), n, r);
    }
  }

  function AllColumns<T>(x: Matrix<T>, n: nat): (ys: seq<Matrix<T>>)
    ensures |ys| == n && forall r :: 0 <= r < n ==> ys[r] == Columns(x, n, r)
  {
    seq(n, r requires 0 <= r < n => Columns(x, n, r))
  }

  // Putting all groups of heads side by side gives the matrix back.
  lemma CatColumns<T>(x: Matrix<T>, n: nat)
    requires n >= 1
    ensures Cat(AllColumns(x, n), HeadDim) == x
  {
    var parts := AllColumns(x, n);
    forall i | 0 <= i < |x|
      ensures Flatten(RowAcross(parts, i)) == x[i]
    {
      assert RowAcross(parts, i) == ArraySplit(x[i], n);
      ArraySplitFlatten(x[i], n);
    }
  }

  // ----- the two exchanges -----

  // xs are the row blocks of the whole activation, with `cols` heads for each rank.
  ghost predicate RowSharded<T>(xs: seq<Matrix<T>>, rows: nat, cols: nat) {
    xs != [] && BlocksOf(xs, rows) && RectangularEach(xs, |xs| * cols)
  }

  lemma RowsEqual<T>(xs: seq<Matrix<T>>, rows: nat)
    requires xs != [] && BlocksOf(xs, rows)
    ensures EqualRows(xs)
  {
  }

  lemma {:induction false} RectangularFlatten<T>(xs: seq<Matrix<T>>, cols: nat)
    requires RectangularEach(xs, cols)
    ensures Rectangular(Flatten(xs), cols)
  {
    if xs != [] {
      assert RectangularEach(xs[1..], cols);
      RectangularFlatten(xs[1..], cols);
    }
  }

  // Gathering the sequence and scattering the heads: rank r holds all positions of its heads.
  lemma GatherSequence<T>(xs: seq<Matrix<T>>, rows: nat, cols: nat, r: nat)
    requires RowSharded(xs, rows, cols) && r < |xs|
    ensures Exchangeable(xs, HeadDim)
    ensures AllToAll(xs, HeadDim, SequenceDim)[r] == Columns(Flatten(xs), |xs|, r)
    ensures Rectangular(Columns(Flatten(xs), |xs|, r), cols)
  {
    hide ArraySplit, Flatten, Columns, Exchangeable, SameShape, Rectangular;
    RowsEqual(xs, rows);
    EvenHeadsExchange(xs, cols);
    ReceivedEqualRows(xs, r, HeadDim);
    assert Received(xs, r, HeadDim) == ColumnsEach(xs, |xs|, r);
    ColumnsFlatten(xs, |xs|, r);
    MulSign(|xs|, cols);
    RectangularFlatten(xs, |xs| * cols);
    EvenColumns(Flatten(xs), |xs|, cols, r);
  }

  // Splitting rows and splitting columns commute.
  lemma {:induction false} ColumnsOfBlocks<T>(xs: seq<Matrix<T>>, rows: nat, n: nat, r: nat)
    requires BlocksOf(xs, rows) && r < n
    ensures ArraySplit(Columns(Flatten(xs), n, r), |xs|) == ColumnsEach(xs, n, r)
  {
    ColumnsFlatten(xs, n, r);
    var ys := ColumnsEach(xs, n, r);
    FlattenLength(ys, rows);
    ArraySplitEven(Flatten(ys), |ys|, rows);
    ViewOfFlatten(ys, rows);
  }

  // Gathering the heads and scattering the sequence undoes it on every rank.
  lemma BlocksBack<T>(xs: seq<Matrix<T>>, rows: nat, cols: nat, ys: seq<Matrix<T>>, s: nat)
    requires RowSharded(xs, rows, cols) && ys == AllColumns(Flatten(xs), |xs|) && s < |xs|
    ensures Received(ys, s, SequenceDim) == AllColumns(xs[s], |xs|)
  {
    hide ArraySplit, Flatten;
    forall r | 0 <= r < |xs|
      ensures Received(ys, s, SequenceDim)[r] == Columns(xs[s], |xs|, r)
    {
      ColumnsOfBlocks(xs, rows, |xs|, r);
    }
  }

  lemma ColumnsExchange<T>(xs: seq<Matrix<T>>, rows: nat, cols: nat, ys: seq<Matrix<T>>)
    requires RowSharded(xs, rows, cols) && ys == AllColumns(Flatten(xs), |xs|)
    ensures Exchangeable(ys, SequenceDim)
  {
    hide ArraySplit, Flatten, Exchangeable, SameShape;
    var n, x := |xs|, Flatten(xs);
    FlattenLength(xs, rows);
    MulSign(n, cols);
    RectangularFlatten(xs, n * cols);
    forall r | 0 <= r < n
      ensures Rectangular(ys[r], cols) && |ys[r]| == |x|
    {
      EvenColumns(x, n, cols, r);
    }
    assert n * rows == rows * n;
    ModMultiple(rows, n);
    RowsExchangeExactly(ys, cols);
  }

  lemma SomeRank<T>(xs: seq<Matrix<T>>, rows: nat, cols: nat)
    requires RowSharded(xs, rows, cols)
    ensures |xs| >= 1
  {
  }

  lemma ScatterBack<T>(xs: seq<Matrix<T>>, rows: nat, cols: nat, ys: seq<Matrix<T>>)
    requires RowSharded(xs, rows, cols) && ys == AllColumns(Flatten(xs), |xs|)
    ensures Exchangeable(ys, SequenceDim)
    ensures AllToAll(ys, SequenceDim, HeadDim) == xs
  {
    hide ArraySplit, Flatten, Cat, Split, Received, AllColumns, Columns, RowSharded, Exchangeable;
    ColumnsExchange(xs, rows, cols, ys);
    SomeRank(xs, rows, cols);
    forall s | 0 <= s < |xs|
      ensures Exchanged(ys, SequenceDim, HeadDim, s) == xs[s]
    {
      BlocksBack(xs, rows, cols, ys, s);
      ReceivedEqualRows(ys, s, SequenceDim);
      CatColumns(xs[s], |xs|);
    }
  }

  lemma GatherAll<T>(xs: seq<Matrix<T>>, rows: nat, cols: nat)
    requires RowSharded(xs, rows, cols)
    ensures Exchangeable(xs, HeadDim)
    ensures AllToAll(xs, HeadDim, SequenceDim) == AllColumns(Flatten(xs), |xs|)
  {
    GatherSequence(xs, rows, cols, 0);
    forall r | 0 <= r < |xs|
      ensures AllToAll(xs, HeadDim, SequenceDim)[r] == Columns(Flatten(xs), |xs|, r)
    {
      GatherSequence(xs, rows, cols, r);
    }
  }

  // The synchronous backward pass exchanges with the dimensions swapped: it returns every
  // gradient to where the forward pass took it from.
  lemma BackwardInverse<T>(xs: seq<Matrix<T>>, rows: nat, cols: nat)
    requires RowSharded(xs, rows, cols)
    ensures Exchangeable(xs, HeadDim)
    ensures Exchangeable(AllToAll(xs, HeadDim, SequenceDim), SequenceDim)
    ensures AllToAll(AllToAll(xs, HeadDim, SequenceDim), SequenceDim, HeadDim) == xs
  {
    GatherAll(xs, rows, cols);
    ScatterBack(xs, rows, cols, AllColumns(Flatten(xs), |xs|));
  }

  // A head-sharded activation: every rank has all positions of `cols` heads.
  ghost predicate HeadSharded<T>(ys: seq<Matrix<T>>, rows: nat, cols: nat) {
    && ys != [] && RectangularEach(ys, cols)
    && forall r :: 0 <= r < |ys| ==> |ys[r]| == |ys| * rows
  }

  lemma HeadsAreColumns<T>(ys: seq<Matrix<T>>, rows: nat, cols: nat)
    requires HeadSharded(ys, rows, cols)
    ensures var x := Cat(ys, HeadDim);
            |x| == |ys| * rows && AllColumns(x, |ys|) == ys && Rectangular(x, |ys| * cols)
  {
    var n, x := |ys|, Cat(ys, HeadDim);
    forall r, i | 0 <= r < n && 0 <= i < |x|
      ensures ArraySplit(x[i], n)[r] == ys[r][i] && |x[i]| == n * cols
    {
      var row := RowAcross(ys, i);
      assert BlocksOf(row, cols);
      FlattenLength(row, cols);
      ArraySplitEven(x[i], n, cols);
      ViewOfFlatten(row, cols);
    }
    forall r | 0 <= r < n
      ensures AllColumns(x, n)[r] == ys[r]
    {
    }
  }

  // The row blocks of a matrix that divides into them.
  lemma ShardRows<T>(x: Matrix<T>, n: nat, rows: nat, cols: nat)
    requires n >= 1 && |x| == n * rows && Rectangular(x, n * cols)
    ensures RowSharded(View(x, n, rows), rows, cols) && Flatten(View(x, n, rows)) == x
  {
    hide View;
    var xs := View(x, n, rows);
    ViewExact(x, n, rows);
    forall s | 0 <= s < n
      ensures Rectangular(xs[s], n * cols)
    {
      ViewAt(x, n, rows, s);
    }
  }

  // And the other way round.
  lemma BackwardInverseOfScatter<T>(ys: seq<Matrix<T>>, rows: nat, cols: nat)
    requires HeadSharded(ys, rows, cols)
    ensures Exchangeable(ys, SequenceDim)
    ensures Exchangeable(AllToAll(ys, SequenceDim, HeadDim), HeadDim)
    ensures AllToAll(AllToAll(ys, SequenceDim, HeadDim), HeadDim, SequenceDim) == ys
  {
    hide Cat, View, AllColumns;
    var n, x := |ys|, Cat(ys, HeadDim);
    HeadsAreColumns(ys, rows, cols);
    var xs := View(x, n, rows);
    ShardRows(x, n, rows, cols);
    ScatterBack(xs, rows, cols, ys);
    GatherAll(xs, rows, cols);
  }

  // ----- with padding -----

  // Python's x[0:-p].
  function DropLast<T>(x: seq<T>, p: int): seq<T> {
    if p > 0 then (if p <= |x| then x[..|x| - p] else [])
    else if -p <= |x| then x[..-p] else x
  }

  function DropLastEach<T>(xs: seq<seq<T>>, unpadded: nat): (r: seq<seq<T>>)
    ensures |r| == |xs| && forall i :: 0 <= i < |xs| ==> r[i] == DropLast(xs[i], |xs[i]| - unpadded)
  {
    seq(|xs|, i requires 0 <= i < |xs| => DropLast(xs[i], |xs[i]| - unpadded))
  }

  function GatherSeqScatterHeads<T>(xs: seq<Matrix<T>>, unpadded: nat): seq<Matrix<T>>
    requires xs != [] && Exchangeable(xs, HeadDim)
    ensures |GatherSeqScatterHeads(xs, unpadded)| == |xs|
  {
    var ys := AllToAll(xs, HeadDim, SequenceDim);
    if unpadded != 0 && unpadded % |xs| != 0 then DropLastEach(ys, unpadded) else ys
  }

  // How many of `total` positions are kept: the unpadded ones if the ranks do not divide them. A
  // request for more than there are has the code count from the front.
  function KeptPositions(total: nat, unpadded: nat, n: nat): (kept: nat)
    requires n >= 1
    ensures kept <= total
  {
    if unpadded % n == 0 then total
    else if unpadded < total then unpadded
    else if unpadded - total <= total then unpadded - total
    else total
  }

  lemma ColumnsOfPrefix<T>(x: Matrix<T>, n: nat, r: nat, u: nat)
    requires r < n && u <= |x|
    ensures Columns(x, n, r)[..u] == Columns(x[..u], n, r)
  {
  }

  lemma DroppedIsPrefix<T>(x: seq<T>, unpadded: nat, n: nat)
    requires n >= 1
    ensures (if unpadded != 0 && unpadded % n != 0 then DropLast(x, |x| - unpadded) else x)
         == x[..KeptPositions(|x|, unpadded, n)]
  {
    assert x[..|x|] == x;
  }

  // Whatever is asked for, all ranks keep the same first positions of the whole sequence.
  lemma GatheredPositions<T>(xs: seq<Matrix<T>>, rows: nat, cols: nat, unpadded: nat, r: nat)
    requires RowSharded(xs, rows, cols) && r < |xs|
    ensures Exchangeable(xs, HeadDim)
    ensures GatherSeqScatterHeads(xs, unpadded)[r]
         == Columns(Flatten(xs)[..KeptPositions(|Flatten(xs)|, unpadded, |xs|)], |xs|, r)
  {
    hide ArraySplit, Flatten, Cat, Split, AllToAll, Exchangeable, SameShape, RowSharded, DropLast, KeptPositions,
      Columns;
    GatherAll(xs, rows, cols);
    var x := Flatten(xs);
    DroppedIsPrefix(Columns(x, |xs|, r), unpadded, |xs|);
    ColumnsOfPrefix(x, |xs|, r, KeptPositions(|x|, unpadded, |xs|));
  }

  function ZeroRows<T>(n: nat, cols: nat, zero: T): (r: Matrix<T>)
    ensures |r| == n && forall i :: 0 <= i < n ==> r[i] == seq(cols, _ => zero)
  {
    seq(n, _ => seq(cols, _ => zero))
  }

  // Rows of zeros up to the next multiple of n; none if there are enough.
  function PadRows<T>(x: Matrix<T>, n: nat, cols: nat, zero: T): Matrix<T>
    requires n >= 1
  {
    if |x| % n != 0 then x + ZeroRows(n - |x| % n, cols, zero) else x
  }

  function PadEach<T>(ys: seq<Matrix<T>>, cols: nat, zero: T): (r: seq<Matrix<T>>)
    requires ys != []
    ensures |r| == |ys| && forall i :: 0 <= i < |ys| ==> r[i] == PadRows(ys[i], |ys|, cols, zero)
  {
    seq(|ys|, i requires 0 <= i < |ys| => PadRows(ys[i], |ys|, cols, zero))
  }

  // `cols` is the number of heads each rank holds.
  function GatherHeadsScatterSeq<T>(ys: seq<Matrix<T>>, cols: nat, zero: T): seq<Matrix<T>>
    requires ys != [] && Exchangeable(PadEach(ys, cols, zero), SequenceDim)
  {
    AllToAll(PadEach(ys, cols, zero), SequenceDim, HeadDim)
  }

  lemma PadLength<T>(x: Matrix<T>, n: nat, cols: nat, zero: T)
    requires n >= 1
    ensures |PadRows(x, n, cols, zero)| % n == 0
  {
    DivMod(|x|, n);
    if |x| % n != 0 {
      Distribute(|x| / n, 1, n);
      ModMultiple(|x| / n + 1, n);
    }
  }

  lemma ColumnsOfZeros<T>(k: nat, n: nat, cols: nat, zero: T, r: nat)
    requires r < n
    ensures Columns(ZeroRows(k, n * cols, zero), n, r) == ZeroRows(k, cols, zero)
  {
    var row := seq(n * cols, _ => zero);
    ArraySplitEven(row, n, cols);
    ViewAt(row, n, cols, r);
    assert View(row, n, cols)[r] == seq(cols, _ => zero);
  }

  lemma ColumnsOfPadded<T>(x: Matrix<T>, n: nat, cols: nat, zero: T, r: nat)
    requires r < n
    ensures Columns(PadRows(x, n, n * cols, zero), n, r) == PadRows(Columns(x, n, r), n, cols, zero)
  {
    if |x| % n != 0 {
      ColumnsOfZeros(n - |x| % n, n, cols, zero, r);
      var z := ZeroRows(n - |x| % n, n * cols, zero);
      assert Columns(x + z, n, r) == Columns(x, n, r) + Columns(z, n, r);
    }
  }

  function PaddedPrefix<T>(xs: seq<Matrix<T>>, cols: nat, zero: T, unpadded: nat): Matrix<T>
    requires xs != [] && unpadded <= |Flatten(xs)|
  {
    PadRows(Flatten(xs)[..unpadded], |xs|, |xs| * cols, zero)
  }

  // Every rank's columns, unpadded and padded again, are the columns of the padded prefix.
  lemma RepaddedColumns<T>(xs: seq<Matrix<T>>, rows: nat, cols: nat, zero: T, unpadded: nat)
    requires RowSharded(xs, rows, cols) && 0 < unpadded < |Flatten(xs)| && unpadded % |xs| != 0
    ensures Exchangeable(xs, HeadDim)
    ensures PadEach(GatherSeqScatterHeads(xs, unpadded), cols, zero)
        == AllColumns(PaddedPrefix(xs, cols, zero, unpadded), |xs|)
  {
    hide ArraySplit, Flatten, PadRows, Cat, Split, AllToAll, Columns;
    var n, x := |xs|, Flatten(xs);
    GatherAll(xs, rows, cols);
    var ys := GatherSeqScatterHeads(xs, unpadded);
    assert ys == DropLastEach(AllColumns(x, n), unpadded);
    forall r | 0 <= r < n
      ensures PadEach(ys, cols, zero)[r] == Columns(PaddedPrefix(xs, cols, zero, unpadded), n, r)
    {
      assert ys[r] == Columns(x, n, r)[..unpadded];
      ColumnsOfPrefix(x, n, r, unpadded);
      ColumnsOfPadded(x[..unpadded], n, cols, zero, r);
    }
  }

  lemma PrefixRectangular<T>(xs: seq<Matrix<T>>, cols: nat, zero: T, unpadded: nat)
    requires xs != [] && RectangularEach(xs, |xs| * cols) && unpadded <= |Flatten(xs)|
    ensures Rectangular(PaddedPrefix(xs, cols, zero, unpadded), |xs| * cols)
  {
    RectangularFlatten(xs, |xs| * cols);
  }

  // Unpadding after the first exchange and padding before the second: what comes back are the
  // row blocks of the first `unpadded` positions, padded with zeros just far enough.
  lemma PaddedRoundTrip<T>(xs: seq<Matrix<T>>, rows: nat, cols: nat, zero: T, unpadded: nat) returns (size: nat)
    requires RowSharded(xs, rows, cols) && 0 < unpadded < |Flatten(xs)| && unpadded % |xs| != 0
    ensures |PaddedPrefix(xs, cols, zero, unpadded)| == |xs| * size
    ensures Exchangeable(xs, HeadDim)
    ensures Exchangeable(PadEach(GatherSeqScatterHeads(xs, unpadded), cols, zero), SequenceDim)
    ensures GatherHeadsScatterSeq(GatherSeqScatterHeads(xs, unpadded), cols, zero)
            == View(PaddedPrefix(xs, cols, zero, unpadded), |xs|, size)
  {
    hide Flatten, PadRows, View, GatherSeqScatterHeads;
    var n, padded := |xs|, PaddedPrefix(xs, cols, zero, unpadded);
    PadLength(Flatten(xs)[..unpadded], n, n * cols, zero);
    DivMod(|padded|, n);
    size := |padded| / n;
    assert |padded| == size * n == n * size;
    RepaddedColumns(xs, rows, cols, zero, unpadded);
    PrefixRectangular(xs, cols, zero, unpadded);
    ShardRows(padded, n, size, cols);
    ScatterBack(View(padded, n, size), size, cols, PadEach(GatherSeqScatterHeads(xs, unpadded), cols, zero));
  }

  // The padding was made of zero rows and no longer than needed.
  ghost predicate MinimalZeroPadding<T>(x: Matrix<T>, n: nat, cols: nat, zero: T, unpadded: nat) {
    |x| < unpadded + n && forall i :: unpadded <= i < |x| ==> x[i] == seq(n * cols, _ => zero)
  }

  // The first multiple of n above u is the only one below u + n.
  lemma SameMultiple(u: nat, n: nat, rows: nat)
    requires n >= 1 && u % n != 0 && u < n * rows < u + n
    ensures n * rows == u + n - u % n
  {
    DivMod(u, n);
    var q := u / n;
    assert n * rows == rows * n;
    Distribute(rows, q, n);
    MulSign(rows - q, n);
    Distribute(rows, q + 1, n);
    Distribute(q, 1, n);
    MulSign(rows - q - 1, n);
    Distribute(rows - q - 1, 1, n);
    MulSign(rows - q - 2, n);
  }

  lemma MinimalIsPadded<T>(x: Matrix<T>, n: nat, rows: nat, cols: nat, zero: T, unpadded: nat)
    requires n >= 1 && |x| == n * rows && 0 < unpadded < |x| && unpadded % n != 0
    ensures PadRows(x[..unpadded], n, n * cols, zero) == x <==> MinimalZeroPadding(x, n, cols, zero, unpadded)
  {
    var z := ZeroRows(n - unpadded % n, n * cols, zero);
    assert PadRows(x[..unpadded], n, n * cols, zero) == x[..unpadded] + z;
    assert x == x[..unpadded] + x[unpadded..];
    if MinimalZeroPadding(x, n, cols, zero, unpadded) {
      SameMultiple(unpadded, n, rows);
      assert x[unpadded..] == z;
    }
    if x[..unpadded] + z == x {
      assert x[unpadded..] == z;
      forall i | unpadded <= i < |x|
        ensures x[i] == seq(n * cols, _ => zero)
      {
        assert x[i] == z[i - unpadded];
      }
    }
  }

  // So the round trip is the identity exactly when the padding was minimal and zero.
  lemma PaddedIdentity<T>(xs: seq<Matrix<T>>, rows: nat, cols: nat, zero: T, unpadded: nat)
    requires RowSharded(xs, rows, cols) && 0 < unpadded < |Flatten(xs)| && unpadded % |xs| != 0
    ensures Exchangeable(xs, HeadDim)
    ensures Exchangeable(PadEach(GatherSeqScatterHeads(xs, unpadded), cols, zero), SequenceDim)
    ensures GatherHeadsScatterSeq(GatherSeqScatterHeads(xs, unpadded), cols, zero) == xs <==>
              MinimalZeroPadding(Flatten(xs), |xs|, cols, zero, unpadded)
  {
    hide Flatten, PadRows, View, GatherSeqScatterHeads, AllToAll, MinimalZeroPadding, GatherHeadsScatterSeq;
    var n, x, padded := |xs|, Flatten(xs), PaddedPrefix(xs, cols, zero, unpadded);
    var size := PaddedRoundTrip(xs, rows, cols, zero, unpadded);
    ViewExact(padded, n, size);
    ViewOfFlatten(xs, rows);
    FlattenLength(xs, rows);
    MinimalIsPadded(x, n, rows, cols, zero, unpadded);
    if padded == x {
      MulCancel(size, rows, n);
      MulCancel(rows, size, n);
    }
  }

  // ----- slicing a packed sequence -----

  // Token ids are padded with zeros, positions count on from zero.
  function UlyssesPad(ids: seq<int>, positions: seq<int>, sp: nat): (seq<int>, seq<int>, nat) {
    if sp <= 1 then (ids, positions, 0)
    else
      var pad := PadSize(|ids|, sp);
      (ids + seq(pad, _ => 0), positions + seq(pad, i => i), pad)
  }

  function SliceOf<T>(x: seq<T>, lo: int, hi: int): seq<T> {
    if 0 <= lo <= hi <= |x| then x[lo..hi] else []
  }

  // The slice of rank r.
  function SliceInput<T>(x: seq<T>, sp: nat, r: nat): seq<T>
    requires r < sp
  {
    var parts := |x| / sp;
    SliceOf(x, r * parts, (r + 1) * parts)
  }

  function Pairs<S, T>(x: seq<S>, y: seq<T>): (r: seq<(S, T)>)
    requires |x| == |y|
    ensures |r| == |x| && forall i :: 0 <= i < |r| ==> r[i] == (x[i], y[i])
  {
    seq(|x|, i requires 0 <= i < |x| => (x[i], y[i]))
  }

  function Slices<T>(x: seq<T>, sp: nat): (r: seq<seq<T>>)
    ensures |r| == sp && forall i :: 0 <= i < sp ==> r[i] == SliceInput(x, sp, i)
  {
    seq(sp, i requires 0 <= i < sp => SliceInput(x, sp, i))
  }

  // Gathers the ranks' outputs and removes the padding.
  function GatherOutputsAndUnpad<T>(outputs: seq<seq<T>>, padding: nat): seq<T> {
    if padding == 0 then Flatten(outputs) else DropLast(Flatten(outputs), padding)
  }

  lemma SlicesCover<T>(x: seq<T>, sp: nat)
    requires sp >= 1 && |x| % sp == 0
    ensures Slices(x, sp) == View(x, sp, |x| / sp) && Flatten(Slices(x, sp)) == x
  {
    var parts := |x| / sp;
    DivMod(|x|, sp);
    assert |x| == sp * parts;
    forall i | 0 <= i < sp
      ensures Slices(x, sp)[i] == View(x, sp, parts)[i]
    {
      ViewAt(x, sp, parts, i);
    }
    ViewExact(x, sp, parts);
  }

  // What every rank computes, token by token, from its slice of the ids and of the positions.
  function RankOutputs<T>(ids: seq<int>, positions: seq<int>, sp: nat, f: ((int, int)) -> T): (r: seq<seq<T>>)
    requires |positions| == |ids|
    ensures |r| == sp
    ensures forall i :: 0 <= i < sp ==> r[i] == MapSeq(f, Pairs(SliceInput(ids, sp, i), SliceInput(positions, sp, i)))
  {
    seq(sp, i requires 0 <= i < sp => MapSeq(f, Pairs(SliceInput(ids, sp, i), SliceInput(positions, sp, i))))
  }

  // Slicing pairs pairs the slices.
  lemma SlicedPairs<T>(ids: seq<int>, positions: seq<int>, sp: nat, f: ((int, int)) -> T)
    requires |positions| == |ids|
    ensures RankOutputs(ids, positions, sp, f) == MapSlices(f, Slices(Pairs(ids, positions), sp))
  {
    forall i | 0 <= i < sp
      ensures Pairs(SliceInput(ids, sp, i), SliceInput(positions, sp, i)) == Slices(Pairs(ids, positions), sp)[i]
    {
    }
  }

  // Padding, slicing, computing token by token on every rank, gathering and unpadding is
  // computing on the whole sequence; the slices are equal and the padding is minimal.
  lemma SlicedComputation<T>(ids: seq<int>, positions: seq<int>, sp: nat, f: ((int, int)) -> T)
    requires |positions| == |ids| && sp >= 1
    ensures var (paddedIds, paddedPositions, pad) := UlyssesPad(ids, positions, sp);
            && pad < sp && |paddedIds| % sp == 0
            && paddedIds == ids + seq(pad, _ => 0) && paddedPositions == positions + seq(pad, i => i)
            && GatherOutputsAndUnpad(RankOutputs(paddedIds, paddedPositions, sp, f), pad)
               == MapSeq(f, Pairs(ids, positions))
  {
    PadSizeLeast(|ids|, sp);
    var (paddedIds, paddedPositions, pad) := UlyssesPad(ids, positions, sp);
    var padded := Pairs(paddedIds, paddedPositions);
    SlicedPairs(paddedIds, paddedPositions, sp, f);
    SlicesCover(padded, sp);
    MapFlatten(f, Slices(padded, sp));
    assert MapSeq(f, padded)[..|ids|] == MapSeq(f, Pairs(ids, positions));
  }
}
