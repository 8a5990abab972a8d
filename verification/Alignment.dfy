/**
 The batch that travels between workers: tensor columns and object columns that must stay aligned
 row by row through every operation.
 */
module Alignment {
  import opened Wrappers
  import opened Arith
  import opened SeqLib
  import opened Selections

  // Tensor columns carry their batch size with them; object columns do not.
  datatype Tensors<T> = Tensors(size: nat, cols: map<string, seq<T>>)

  datatype Contents<T, N> = Contents(batch: Option<Tensors<T>>, nonTensor: map<string, seq<N>>)

  // One row of everything.
  datatype Row<T, N> = Row(tensors: Option<map<string, T>>, objects: map<string, N>)

  predicate ColumnsOf<T>(cols: map<string, seq<T>>, n: nat) {
    forall key :: key in cols ==> |cols[key]| == n
  }

  // Every column has n rows; a batch without any column has none.
  predicate Aligned<T, N>(c: Contents<T, N>, n: nat) {
    && (c.batch.Some? ==> c.batch.value.size == n && ColumnsOf(c.batch.value.cols, n))
    && ColumnsOf(c.nonTensor, n)
    && (c.batch.None? && |c.nonTensor| == 0 ==> n == 0)
  }

  // The batch size, or the length of whichever object column comes first, or 0.
  ghost predicate HasLength<T, N>(c: Contents<T, N>, n: nat) {
    if c.batch.Some? then n == c.batch.value.size
    else if |c.nonTensor| == 0 then n == 0
    else exists key :: key in c.nonTensor && n == |c.nonTensor[key]|
  }

  lemma SomeKey<V>(m: map<string, V>)
    requires |m| > 0
    ensures exists key :: key in m
  {
    assert m.Keys != {};
  }

  method Len<T, N>(c: Contents<T, N>) returns (n: nat)
    ensures HasLength(c, n)
  {
    if c.batch.Some? {
      n := c.batch.value.size;
    } else if |c.nonTensor| > 0 {
      SomeKey(c.nonTensor);
      var key :| key in c.nonTensor;
      n := |c.nonTensor[key]|;
    } else {
      n := 0;
    }
  }

  // Whichever column is asked, an aligned batch answers with its number of rows.
  lemma LengthIsRows<T, N>(c: Contents<T, N>, n: nat, m: nat)
    requires Aligned(c, n) && HasLength(c, m)
    ensures m == n
  {
  }

  // What construction checks: as many rows in every object column as in the tensors, if any.
  predicate Consistent<T, N>(c: Contents<T, N>) {
    c.batch.Some? ==> ColumnsOf(c.nonTensor, c.batch.value.size)
  }

  // A batch that construction accepts is aligned at its length, unless it has only object columns
  // and those differ, which nothing checks.
  lemma AcceptedIsAligned<T, N>(c: Contents<T, N>) returns (n: nat)
    requires Consistent(c)
    requires c.batch.Some? ==> forall key :: key in c.batch.value.cols ==>
        |c.batch.value.cols[key]| == c.batch.value.size
    requires c.batch.None? ==>
               forall key, key' :: key in c.nonTensor && key' in c.nonTensor ==>
                   |c.nonTensor[key]| == |c.nonTensor[key']|
    ensures HasLength(c, n) && Aligned(c, n)
  {
    if c.batch.Some? {
      n := c.batch.value.size;
    } else if |c.nonTensor| > 0 {
      SomeKey(c.nonTensor);
      var key :| key in c.nonTensor;
      n := |c.nonTensor[key]|;
    } else {
      n := 0;
    }
  }

  function RowOf<T>(cols: map<string, seq<T>>, i: nat): map<string, T>
    requires forall key :: key in cols ==> i < |cols[key]|
  {
    map key | key in cols :: cols[key][i]
  }

  function RowAt<T, N>(c: Contents<T, N>, n: nat, i: nat): Row<T, N>
    requires Aligned(c, n) && i < n
  {
    Row(if c.batch.Some? then Some(RowOf(c.batch.value.cols, i)) else None, RowOf(c.nonTensor, i))
  }

  function Rows<T, N>(c: Contents<T, N>, n: nat): (r: seq<Row<T, N>>)
    requires Aligned(c, n)
    ensures |r| == n && forall i :: 0 <= i < n ==> r[i] == RowAt(c, n, i)
  {
    seq(n, i requires 0 <= i < n => RowAt(c, n, i))
  }

  // ----- Picking rows -----

  ghost predicate PickedColumns<T>(d: map<string, seq<T>>, c: map<string, seq<T>>, rows: seq<nat>, n: nat)
    requires ColumnsOf(c, n) && forall j :: 0 <= j < |rows| ==> rows[j] < n
  {
    d.Keys == c.Keys && forall key :: key in c ==> d[key] == Gather(c[key], rows)
  }

  // The same rows picked out of every column.
  ghost predicate Picked<T, N>(d: Contents<T, N>, c: Contents<T, N>, rows: seq<nat>, n: nat)
    requires Aligned(c, n) && forall j :: 0 <= j < |rows| ==> rows[j] < n
  {
    && (d.batch.Some? <==> c.batch.Some?)
    && (c.batch.Some? ==>
         d.batch.value.size == |rows| && PickedColumns(d.batch.value.cols, c.batch.value.cols, rows, n))
    && PickedColumns(d.nonTensor, c.nonTensor, rows, n)
  }

  lemma PickedRowOf<T>(d: map<string, seq<T>>, c: map<string, seq<T>>, rows: seq<nat>, n: nat, j: nat)
    requires ColumnsOf(c, n) && (forall i :: 0 <= i < |rows| ==> rows[i] < n)
    requires PickedColumns(d, c, rows, n) && j < |rows|
    ensures ColumnsOf(d, |rows|) && RowOf(d, j) == RowOf(c, rows[j])
  {
  }

  lemma NoRows(rows: seq<nat>, n: nat)
    requires forall j :: 0 <= j < |rows| ==> rows[j] < n
    ensures rows != [] ==> n > 0
  {
    if rows != [] {
      assert rows[0] < n;
    }
  }

  lemma KeysCount<S, T>(d: map<string, S>, c: map<string, T>)
    requires d.Keys == c.Keys
    ensures |d| == |c|
  {
  }

  // Picking rows column by column picks whole rows.
  lemma PickedRows<T, N>(d: Contents<T, N>, c: Contents<T, N>, rows: seq<nat>, n: nat)
    requires Aligned(c, n) && (forall j :: 0 <= j < |rows| ==> rows[j] < n) && Picked(d, c, rows, n)
    ensures Aligned(d, |rows|) && Rows(d, |rows|) == Gather(Rows(c, n), rows)
  {
    KeysCount(d.nonTensor, c.nonTensor);
    NoRows(rows, n);
    forall j | 0 <= j < |rows|
      ensures RowAt(d, |rows|, j) == RowAt(c, n, rows[j])
    {
      PickedRowOf(d.nonTensor, c.nonTensor, rows, n, j);
      if c.batch.Some? {
        PickedRowOf(d.batch.value.cols, c.batch.value.cols, rows, n, j);
      }
    }
  }

  // ----- The operations -----

  function Clip(i: int, n: nat): (r: nat)
    ensures r <= n
  {
    if i < 0 then (if i + n < 0 then 0 else i + n) else if i <= n then i else n
  }

  // s[start:stop] as Python reads it.
  function PySlice<T>(s: seq<T>, start: Option<int>, stop: Option<int>): seq<T> {
    var lo := if start.Some? then Clip(start.value, |s|) else 0;
    var hi := if stop.Some? then Clip(stop.value, |s|) else |s|;
    if lo <= hi then s[lo..hi] else []
  }

  function EachSlice<T>(cols: map<string, seq<T>>, start: Option<int>, stop: Option<int>): map<string, seq<T>> {
    map key | key in cols :: PySlice(cols[key], start, stop)
  }

  function SlicedPositions(n: nat, start: Option<int>, stop: Option<int>): (rows: seq<nat>)
    ensures forall j :: 0 <= j < |rows| ==> rows[j] < n
  {
    PySlice<nat>(Range(0, n), start, stop)
  }

  function Slice<T, N>(c: Contents<T, N>, start: Option<int>, stop: Option<int>): Contents<T, N> {
    Contents(if c.batch.Some?
             then Some(Tensors(|SlicedPositions(c.batch.value.size, start, stop)|,
                               EachSlice(c.batch.value.cols, start, stop)))
             else None,
             EachSlice(c.nonTensor, start, stop))
  }

  lemma SlicePicks<T>(s: seq<T>, start: Option<int>, stop: Option<int>)
    ensures PySlice(s, start, stop) == Gather(s, SlicedPositions(|s|, start, stop))
  {
  }

  lemma EachSlicePicks<T>(cols: map<string, seq<T>>, n: nat, start: Option<int>, stop: Option<int>)
    requires ColumnsOf(cols, n)
    ensures PickedColumns(EachSlice(cols, start, stop), cols, SlicedPositions(n, start, stop), n)
  {
    forall key | key in cols
      ensures PySlice(cols[key], start, stop) == Gather(cols[key], SlicedPositions(n, start, stop))
    {
      SlicePicks(cols[key], start, stop);
    }
  }

  // A slice of the batch is the slice of its rows.
  lemma SliceRows<T, N>(c: Contents<T, N>, n: nat, start: Option<int>, stop: Option<int>)
    requires Aligned(c, n)
    ensures var rows := PySlice(Rows(c, n), start, stop);
      Aligned(Slice(c, start, stop), |rows|) && Rows(Slice(c, start, stop), |rows|) == rows
  {
    hide PySlice, SlicedPositions, PickedColumns, EachSlice, Clip, ColumnsOf;
    SlicePicks(Rows(c, n), start, stop);
    EachSlicePicks(c.nonTensor, n, start, stop);
    if c.batch.Some? {
      EachSlicePicks(c.batch.value.cols, n, start, stop);
    }
    PickedRows(Slice(c, start, stop), c, SlicedPositions(n, start, stop), n);
  }

  // Indexing counts negative positions from the end.
  function Wrapped(idxs: seq<int>, n: nat): (rows: seq<nat>)
    requires forall j :: 0 <= j < |idxs| ==> 0 <= idxs[j] + n < n + n
    ensures |rows| == |idxs| && forall j :: 0 <= j < |rows| ==> rows[j] < n
  {
    seq(|idxs|, j requires 0 <= j < |idxs| => if idxs[j] < 0 then idxs[j] + n else idxs[j])
  }

  function EachPick<T>(cols: map<string, seq<T>>, rows: seq<nat>, n: nat): map<string, seq<T>>
    requires (forall j :: 0 <= j < |rows| ==> rows[j] < n) && forall key :: key in cols ==> |cols[key]| == n
  {
    map key | key in cols :: Gather(cols[key], rows)
  }

  function SelectRows<T, N>(c: Contents<T, N>, rows: seq<nat>, n: nat): Contents<T, N>
    requires Aligned(c, n) && forall j :: 0 <= j < |rows| ==> rows[j] < n
  {
    Contents(if c.batch.Some? then Some(Tensors(|rows|, EachPick(c.batch.value.cols, rows, n))) else None,
             EachPick(c.nonTensor, rows, n))
  }

  // `select_idxs` on positions; a boolean mask selects where it is true.
  function SelectIdxs<T, N>(c: Contents<T, N>, idxs: seq<int>, n: nat): Contents<T, N>
    requires Aligned(c, n) && forall j :: 0 <= j < |idxs| ==> 0 <= idxs[j] + n < n + n
  {
    SelectRows(c, Wrapped(idxs, n), n)
  }

  function SelectMask<T, N>(c: Contents<T, N>, mask: seq<bool>): Contents<T, N>
    requires Aligned(c, |mask|)
  {
    SelectRows(c, Nonzero(mask), |mask|)
  }

  lemma SelectedRows<T, N>(c: Contents<T, N>, rows: seq<nat>, n: nat)
    requires Aligned(c, n) && forall j :: 0 <= j < |rows| ==> rows[j] < n
    ensures Aligned(SelectRows(c, rows, n), |rows|)
    ensures Rows(SelectRows(c, rows, n), |rows|) == Gather(Rows(c, n), rows)
  {
    PickedRows(SelectRows(c, rows, n), c, rows, n);
  }

  // A non-negative position picks its row, a negative one counts from the end.
  lemma SelectIdxsRows<T, N>(c: Contents<T, N>, idxs: seq<int>, n: nat, j: nat)
    requires Aligned(c, n) && j < |idxs| && forall i :: 0 <= i < |idxs| ==> 0 <= idxs[i] + n < n + n
    ensures Aligned(SelectIdxs(c, idxs, n), |idxs|)
    ensures idxs[j] >= 0 ==> Rows(SelectIdxs(c, idxs, n), |idxs|)[j] == Rows(c, n)[idxs[j]]
    ensures idxs[j] < 0 ==> Rows(SelectIdxs(c, idxs, n), |idxs|)[j] == Rows(c, n)[n + idxs[j]]
  {
    SelectedRows(c, Wrapped(idxs, n), n);
  }

  // A mask keeps exactly the rows where it is true, in order: row f becomes the row after those
  // kept before it.
  lemma SelectMaskRows<T, N>(c: Contents<T, N>, mask: seq<bool>, f: nat)
    requires Aligned(c, |mask|) && f < |mask| && mask[f]
    ensures Aligned(SelectMask(c, mask), CountTrue(mask)) && CountTrue(mask[..f]) < CountTrue(mask)
    ensures Rows(SelectMask(c, mask), CountTrue(mask))[CountTrue(mask[..f])] == Rows(c, |mask|)[f]
  {
    hide Nonzero, CountTrue;
    SelectedRows(c, Nonzero(mask), |mask|);
    RankPosition(mask, f);
  }

  // ----- Repeating -----

  // Each row several times in a row, or the whole several times over.
  function RepeatEach<T>(s: seq<T>, times: nat): seq<T> {
    if s == [] then [] else Copies(s[0], times) + RepeatEach(s[1..], times)
  }

  function Tile<T>(s: seq<T>, times: nat): seq<T> {
    if times == 0 then [] else s + Tile(s, times - 1)
  }

  function Repeated<T>(s: seq<T>, times: nat, interleave: bool): seq<T> {
    if interleave then RepeatEach(s, times) else Tile(s, times)
  }

  function EachRepeated<T>(cols: map<string, seq<T>>, times: nat, interleave: bool): map<string, seq<T>> {
    map key | key in cols :: Repeated(cols[key], times, interleave)
  }

  function Repeat<T, N>(c: Contents<T, N>, times: nat, interleave: bool): Contents<T, N> {
    Contents(if c.batch.Some?
             then Some(Tensors(|Repeated(Range(0, c.batch.value.size), times, interleave)|,
                               EachRepeated(c.batch.value.cols, times, interleave)))
             else None,
             EachRepeated(c.nonTensor, times, interleave))
  }

  predicate Below(rows: seq<nat>, n: nat) {
    forall j :: 0 <= j < |rows| ==> rows[j] < n
  }

  lemma {:induction false} RepeatEachPicks<T>(s: seq<T>, rows: seq<nat>, times: nat)
    requires Below(rows, |s|)
    ensures Below(RepeatEach(rows, times), |s|)
    ensures RepeatEach(Gather(s, rows), times) == Gather(s, RepeatEach(rows, times))
  {
    if rows != [] {
      RepeatEachPicks(s, rows[1..], times);
      assert Gather(s, rows)[1..] == Gather(s, rows[1..]);
    }
  }

  lemma {:induction false} TilePicks<T>(s: seq<T>, rows: seq<nat>, times: nat)
    requires Below(rows, |s|)
    ensures Below(Tile(rows, times), |s|)
    ensures Tile(Gather(s, rows), times) == Gather(s, Tile(rows, times))
  {
    if times > 0 {
      TilePicks(s, rows, times - 1);
    }
  }

  function RepeatedPositions(n: nat, times: nat, interleave: bool): seq<nat> {
    Repeated<nat>(Range(0, n), times, interleave)
  }

  lemma RepeatedPicks<T>(s: seq<T>, times: nat, interleave: bool)
    ensures Below(RepeatedPositions(|s|, times, interleave), |s|)
    ensures Repeated(s, times, interleave) == Gather(s, RepeatedPositions(|s|, times, interleave))
  {
    assert Gather(s, Range(0, |s|)) == s;
    RepeatEachPicks(s, Range(0, |s|), times);
    TilePicks(s, Range(0, |s|), times);
  }

  lemma EachRepeatedPicks<T>(cols: map<string, seq<T>>, n: nat, times: nat, interleave: bool)
    requires ColumnsOf(cols, n) && Below(RepeatedPositions(n, times, interleave), n)
    ensures PickedColumns(EachRepeated(cols, times, interleave), cols, RepeatedPositions(n, times, interleave), n)
  {
    hide Repeated, RepeatedPositions;
    forall key | key in cols
      ensures Repeated(cols[key], times, interleave) == Gather(cols[key], RepeatedPositions(n, times, interleave))
    {
      RepeatedPicks(cols[key], times, interleave);
    }
  }

  // Repeating the batch repeats its rows.
  lemma RepeatRows<T, N>(c: Contents<T, N>, n: nat, times: nat, interleave: bool)
    requires Aligned(c, n)
    ensures var rows := Repeated(Rows(c, n), times, interleave);
      Aligned(Repeat(c, times, interleave), |rows|) && Rows(Repeat(c, times, interleave), |rows|) == rows
  {
    hide Repeated, PickedColumns, EachRepeated, ColumnsOf;
    RepeatedPicks(Rows(c, n), times, interleave);
    EachRepeatedPicks(c.nonTensor, n, times, interleave);
    if c.batch.Some? {
      EachRepeatedPicks(c.batch.value.cols, n, times, interleave);
    }
    PickedRows(Repeat(c, times, interleave), c, RepeatedPositions(n, times, interleave), n);
  }

  lemma {:induction false} RepeatEachLength<T>(s: seq<T>, times: nat)
    ensures |RepeatEach(s, times)| == |s| * times
  {
    if s != [] {
      RepeatEachLength(s[1..], times);
      Distribute(|s| - 1, 1, times);
    }
  }

  // Interleaved, row j is a copy of row j / times; otherwise of row j modulo the size.
  lemma {:induction false} RepeatEachAt<T>(s: seq<T>, times: nat, j: nat)
    requires times >= 1 && j < |s| * times
    ensures |RepeatEach(s, times)| == |s| * times
    ensures 0 <= j / times < |s| && RepeatEach(s, times)[j] == s[j / times]
  {
    Distribute(|s| - 1, 1, times);
    MulSign(|s| - 1, times);
    if j < times {
      DivModUnique(j, times, 0, j);
      RepeatEachLength(s[1..], times);
    } else {
      RepeatEachAt(s[1..], times, j - times);
      DivMod(j - times, times);
      Distribute((j - times) / times, 1, times);
      DivModUnique(j, times, (j - times) / times + 1, (j - times) % times);
    }
  }

  lemma {:induction false} TileLength<T>(s: seq<T>, times: nat)
    ensures |Tile(s, times)| == times * |s|
  {
    if times > 0 {
      TileLength(s, times - 1);
      Distribute(times - 1, 1, |s|);
    }
  }

  lemma {:induction false} TileAt<T>(s: seq<T>, times: nat, j: nat)
    requires j < times * |s|
    ensures |Tile(s, times)| == times * |s|
    ensures s != [] && Tile(s, times)[j] == s[j % |s|]
  {
    var n := |s|;
    if times > 0 {
      Distribute(times - 1, 1, n);
      if j < n {
        DivModUnique(j, n, 0, j);
        TileLength(s, times - 1);
      } else {
        TileAt(s, times - 1, j - n);
        DivMod(j - n, n);
        Distribute((j - n) / n, 1, n);
        DivModUnique(j, n, (j - n) / n + 1, (j - n) % n);
      }
    }
  }

  // ----- Concatenating -----

  predicate SameKeys<T, N>(x: Contents<T, N>, y: Contents<T, N>) {
    && (x.batch.Some? <==> y.batch.Some?)
    && (x.batch.Some? ==> x.batch.value.cols.Keys == y.batch.value.cols.Keys)
    && x.nonTensor.Keys == y.nonTensor.Keys
  }

  // The parts of one concatenation: all with the columns of the first.
  predicate Concatenable<T, N>(cs: seq<Contents<T, N>>) {
    cs != [] && forall i :: 0 <= i < |cs| ==> SameKeys(cs[0], cs[i])
  }

  function BatchColumn<T, N>(cs: seq<Contents<T, N>>, key: string): (r: seq<seq<T>>)
    requires Concatenable(cs) && cs[0].batch.Some? && key in cs[0].batch.value.cols
    ensures |r| == |cs| && forall i :: 0 <= i < |cs| ==> r[i] == cs[i].batch.value.cols[key]
  {
    seq(|cs|, i requires 0 <= i < |cs| && SameKeys(cs[0], cs[i]) => cs[i].batch.value.cols[key])
  }

  function ObjectColumn<T, N>(cs: seq<Contents<T, N>>, key: string): (r: seq<seq<N>>)
    requires Concatenable(cs) && key in cs[0].nonTensor
    ensures |r| == |cs| && forall i :: 0 <= i < |cs| ==> r[i] == cs[i].nonTensor[key]
  {
    seq(|cs|, i requires 0 <= i < |cs| && SameKeys(cs[0], cs[i]) => cs[i].nonTensor[key])
  }

  function Sizes<T, N>(cs: seq<Contents<T, N>>): (r: seq<int>)
    ensures |r| == |cs|
  {
    seq(|cs|, i requires 0 <= i < |cs| => if cs[i].batch.Some? then cs[i].batch.value.size else 0)
  }

  lemma {:induction false} SizesNonNegative<T, N>(cs: seq<Contents<T, N>>)
    ensures Sum(Sizes(cs)) >= 0
  {
    if cs != [] {
      SizesNonNegative(cs[1..]);
      assert Sizes(cs)[1..] == Sizes(cs[1..]);
    }
  }

  function Concat<T, N>(cs: seq<Contents<T, N>>): Contents<T, N>
    requires Concatenable(cs)
  {
    SizesNonNegative(cs);
    Contents(if cs[0].batch.Some?
             then Some(Tensors(Sum(Sizes(cs)),
                               map key | key in cs[0].batch.value.cols :: Flatten(BatchColumn(cs, key))))
             else None,
             map key | key in cs[0].nonTensor :: Flatten(ObjectColumn(cs, key)))
  }

  ghost predicate AppendedColumns<T>(d: map<string, seq<T>>, x: map<string, seq<T>>, y: map<string, seq<T>>) {
    d.Keys == x.Keys == y.Keys && forall key :: key in d ==> d[key] == x[key] + y[key]
  }

  // Column by column, d is x followed by y.
  ghost predicate Appended<T, N>(d: Contents<T, N>, x: Contents<T, N>, y: Contents<T, N>) {
    && (d.batch.Some? <==> x.batch.Some?) && (d.batch.Some? <==> y.batch.Some?)
    && (d.batch.Some? ==> d.batch.value.size == x.batch.value.size + y.batch.value.size)
    && (d.batch.Some? ==> AppendedColumns(d.batch.value.cols, x.batch.value.cols, y.batch.value.cols))
    && AppendedColumns(d.nonTensor, x.nonTensor, y.nonTensor)
  }

  lemma AppendedRowOf<T>(d: map<string, seq<T>>, x: map<string, seq<T>>, y: map<string, seq<T>>, n: nat, m: nat, i: nat)
    requires AppendedColumns(d, x, y) && ColumnsOf(x, n) && ColumnsOf(y, m) && i < n + m
    ensures ColumnsOf(d, n + m)
    ensures RowOf(d, i) == if i < n then RowOf(x, i) else RowOf(y, i - n)
  {
  }

  lemma AppendedAligned<T, N>(d: Contents<T, N>, x: Contents<T, N>, y: Contents<T, N>, n: nat, m: nat)
    requires Aligned(x, n) && Aligned(y, m) && Appended(d, x, y)
    ensures Aligned(d, n + m)
  {
    KeysCount(d.nonTensor, x.nonTensor);
    KeysCount(d.nonTensor, y.nonTensor);
  }

  lemma AppendedRowAt<T, N>(d: Contents<T, N>, x: Contents<T, N>, y: Contents<T, N>, n: nat, m: nat, i: nat)
    requires Aligned(x, n) && Aligned(y, m) && Appended(d, x, y) && Aligned(d, n + m) && i < n + m
    ensures RowAt(d, n + m, i) == if i < n then RowAt(x, n, i) else RowAt(y, m, i - n)
  {
    AppendedRowOf(d.nonTensor, x.nonTensor, y.nonTensor, n, m, i);
    if d.batch.Some? {
      AppendedRowOf(d.batch.value.cols, x.batch.value.cols, y.batch.value.cols, n, m, i);
    }
  }

  lemma AppendedRows<T, N>(d: Contents<T, N>, x: Contents<T, N>, y: Contents<T, N>, n: nat, m: nat)
    requires Aligned(x, n) && Aligned(y, m) && Appended(d, x, y)
    ensures Aligned(d, n + m) && Rows(d, n + m) == Rows(x, n) + Rows(y, m)
  {
    hide RowAt, Aligned, Appended, Rows;
    AppendedAligned(d, x, y, n, m);
    forall i | 0 <= i < n + m
      ensures Rows(d, n + m)[i] == (Rows(x, n) + Rows(y, m))[i]
    {
      AppendedRowAt(d, x, y, n, m, i);
    }
  }

  // ----- One part, and one part more -----

  lemma FlattenOne<T>(s: seq<T>)
    ensures Flatten([s]) == s
  {
    FlattenSnoc<T>([], s);
    assert [] + [s] == [s];
  }

  lemma ConcatOne<T, N>(c: Contents<T, N>)
    ensures Concatenable([c]) && Concat([c]) == c
  {
    assert Sizes([c])[1..] == [] && Sum(Sizes([c])) == Sizes([c])[0];
    forall key | key in c.nonTensor
      ensures Flatten(ObjectColumn([c], key)) == c.nonTensor[key]
    {
      FlattenOne(c.nonTensor[key]);
      assert ObjectColumn([c], key) == [c.nonTensor[key]];
    }
    if c.batch.Some? {
      forall key | key in c.batch.value.cols
        ensures Flatten(BatchColumn([c], key)) == c.batch.value.cols[key]
      {
        FlattenOne(c.batch.value.cols[key]);
        assert BatchColumn([c], key) == [c.batch.value.cols[key]];
      }
      assert Concat([c]).batch.value.cols == c.batch.value.cols;
      assert Concat([c]).batch.value.size == c.batch.value.size;
      assert Concat([c]).batch == c.batch;
    }
    assert Concat([c]).nonTensor == c.nonTensor;
  }

  lemma ConcatMore<T, N>(cs: seq<Contents<T, N>>)
    requires Concatenable(cs) && |cs| >= 2
    ensures Concatenable(cs[1..]) && Appended(Concat(cs), cs[0], Concat(cs[1..]))
  {
    assert SameKeys(cs[0], cs[1]);
    forall i | 0 <= i < |cs[1..]|
      ensures SameKeys(cs[1..][0], cs[1..][i])
    {
      assert SameKeys(cs[0], cs[i + 1]);
    }
    assert Sizes(cs)[1..] == Sizes(cs[1..]);
    forall key | key in cs[0].nonTensor
      ensures Flatten(ObjectColumn(cs, key)) == cs[0].nonTensor[key] + Flatten(ObjectColumn(cs[1..], key))
    {
      assert ObjectColumn(cs, key)[1..] == ObjectColumn(cs[1..], key);
    }
    if cs[0].batch.Some? {
      forall key | key in cs[0].batch.value.cols
        ensures Flatten(BatchColumn(cs, key)) == cs[0].batch.value.cols[key] + Flatten(BatchColumn(cs[1..], key))
      {
        assert BatchColumn(cs, key)[1..] == BatchColumn(cs[1..], key);
      }
    }
  }

  predicate AllAligned<T, N>(cs: seq<Contents<T, N>>, ns: seq<nat>) {
    |cs| == |ns| && forall i :: 0 <= i < |cs| ==> Aligned(cs[i], ns[i])
  }

  function EachRows<T, N>(cs: seq<Contents<T, N>>, ns: seq<nat>): (r: seq<seq<Row<T, N>>>)
    requires AllAligned(cs, ns)
    ensures |r| == |cs| && forall i :: 0 <= i < |cs| ==> r[i] == Rows(cs[i], ns[i])
  {
    seq(|cs|, i requires 0 <= i < |cs| && Aligned(cs[i], ns[i]) => Rows(cs[i], ns[i]))
  }

  lemma ConcatableNonEmpty<T, N>(cs: seq<Contents<T, N>>)
    requires Concatenable(cs)
    ensures |cs| >= 1
  {
  }

  // The rows of a concatenation are the rows of its parts, one part after the other.
  lemma {:induction false} ConcatRows<T, N>(cs: seq<Contents<T, N>>, ns: seq<nat>)
    requires Concatenable(cs) && AllAligned(cs, ns)
    ensures var rows := Flatten(EachRows(cs, ns));
      Aligned(Concat(cs), |rows|) && Rows(Concat(cs), |rows|) == rows
    decreases |cs|
  {
    hide Concat, Concatenable, Appended, Flatten;
    if |cs| == 1 {
      assert cs == [cs[0]];
      ConcatOne(cs[0]);
      FlattenOne(Rows(cs[0], ns[0]));
      assert EachRows(cs, ns) == [Rows(cs[0], ns[0])];
    } else {
      ConcatableNonEmpty(cs);
      ConcatMore(cs);
      ConcatRows(cs[1..], ns[1..]);
      var rest := Flatten(EachRows(cs[1..], ns[1..]));
      AppendedRows(Concat(cs), cs[0], Concat(cs[1..]), ns[0], |rest|);
      assert EachRows(cs, ns) == [Rows(cs[0], ns[0])] + EachRows(cs[1..], ns[1..]);
      FlattenAppend([Rows(cs[0], ns[0])], EachRows(cs[1..], ns[1..]));
      FlattenOne(Rows(cs[0], ns[0]));
    }
  }
}
