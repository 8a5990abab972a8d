/** Where every parameter lies in the flat buffer of its type. */
module BufferLayout {
  import opened Arith

  datatype Dtype = Float8 | Half | BFloat16 | Float | Double

  function Bits(dtype: Dtype): (bits: nat)
    ensures bits == 8 || bits == 16 || bits == 32 || bits == 64
  {
    match dtype
    case Float8 => 8
    case Half => 16
    case BFloat16 => 16
    case Float => 32
    case Double => 64
  }

  // Elements in 128 bits.
  function AlignNumel(dtype: Dtype): (align: nat)
    ensures align >= 1 && align * Bits(dtype) == 128
  {
    128 / Bits(dtype)
  }

  lemma ElementsIn128Bits()
    ensures AlignNumel(Float8) == 16 && AlignNumel(Half) == AlignNumel(BFloat16) == 8
    ensures AlignNumel(Float) == 4 && AlignNumel(Double) == 2
  {
  }

  datatype Meta = Meta(numel: nat, dtype: Dtype)

  function PaddedNumel(meta: Meta): (padded: nat)
    ensures padded >= meta.numel
  {
    RoundUpLeast(meta.numel, AlignNumel(meta.dtype), 0);
    RoundUp(meta.numel, AlignNumel(meta.dtype))
  }

  // The padded elements of one type among the first n parameters.
  function Total(metas: seq<Meta>, dtype: Dtype, n: nat): nat
    requires n <= |metas|
  {
    if n == 0 then 0
    else Total(metas, dtype, n - 1) + if metas[n - 1].dtype == dtype then PaddedNumel(metas[n - 1]) else 0
  }

  // Where parameter k starts in the buffer of its type.
  function Start(metas: seq<Meta>, k: nat): nat
    requires k < |metas|
  {
    Total(metas, metas[k].dtype, k)
  }

  lemma {:induction false} TotalGrows(metas: seq<Meta>, dtype: Dtype, m: nat, n: nat)
    requires m <= n <= |metas|
    ensures Total(metas, dtype, m) <= Total(metas, dtype, n)
  {
    if m < n {
      TotalGrows(metas, dtype, m, n - 1);
    }
  }

  lemma SumOfMultiples(x: nat, y: nat, k: nat)
    requires k >= 1 && x % k == 0 && y % k == 0
    ensures (x + y) % k == 0
  {
    DivMod(x, k);
    DivMod(y, k);
    Distribute(x / k, y / k, k);
    ModMultiple(x / k + y / k, k);
  }

  lemma {:induction false} TotalAligned(metas: seq<Meta>, dtype: Dtype, n: nat)
    requires n <= |metas|
    ensures Total(metas, dtype, n) % AlignNumel(dtype) == 0
  {
    var align := AlignNumel(dtype);
    if n > 0 {
      TotalAligned(metas, dtype, n - 1);
      if metas[n - 1].dtype == dtype {
        RoundUpLeast(metas[n - 1].numel, align, 0);
        SumOfMultiples(Total(metas, dtype, n - 1), PaddedNumel(metas[n - 1]), align);
      }
    } else {
      ModMultiple(0, align);
    }
  }

  lemma BitAligned(start: nat, align: nat, bits: nat)
    requires align >= 1 && align * bits == 128 && start % align == 0
    ensures start * bits % 128 == 0
  {
    DivMod(start, align);
    var q := start / align;
    MulAssoc(q, align, bits);
    ModMultiple(q, 128);
  }

  // Every range starts on a 128-bit boundary and ends inside the buffer.
  lemma InBoundsAligned(metas: seq<Meta>, k: nat)
    requires k < |metas|
    ensures Start(metas, k) * Bits(metas[k].dtype) % 128 == 0
    ensures Start(metas, k) + metas[k].numel <= Total(metas, metas[k].dtype, |metas|)
  {
    hide PaddedNumel;
    var dtype := metas[k].dtype;
    TotalAligned(metas, dtype, k);
    TotalGrows(metas, dtype, k + 1, |metas|);
    BitAligned(Start(metas, k), AlignNumel(dtype), Bits(dtype));
  }

  // Ranges of one type do not overlap: the earlier ends, padding included, before the later starts.
  lemma Disjoint(metas: seq<Meta>, j: nat, k: nat)
    requires j < k < |metas| && metas[j].dtype == metas[k].dtype
    ensures Start(metas, j) + metas[j].numel <= Start(metas, j) + PaddedNumel(metas[j]) <= Start(metas, k)
  {
    TotalGrows(metas, metas[j].dtype, j + 1, k);
  }
}
