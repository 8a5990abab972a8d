/**
 Sequence packing: dropping the padding tokens of a batch, scoring what is left as one long row,
 and putting the scores back where the tokens were.
 */
module Packing {
  import opened Wrappers
  import opened Arith
  import opened SeqLib
  import opened Blocks
  import opened Selections

  // Where row b of a matrix starts in its flat form.
  function RowStart(b: nat, cols: nat): nat {
    MulSign(b, cols);
    b * cols
  }

  // ----- Row boundaries -----

  function RunningSums(lens: seq<nat>, sum: nat): (sums: seq<nat>)
    ensures |sums| == |lens| + 1
  {
    if lens == [] then [sum] else [sum] + RunningSums(lens[1..], sum + lens[0])
  }

  datatype UnpadData = UnpadData(indices: seq<nat>, cuSeqlens: seq<nat>, maxSeqlen: nat)

  // No rows have no longest row: the maximum fails.
  function GetUnpadData(mask: seq<seq<bool>>): Option<UnpadData> {
    if mask == [] then None
    else Some(UnpadData(Nonzero(Flatten(mask)), RunningSums(Lengths(mask), 0), Maximum(Lengths(mask))))
  }

  lemma {:induction false} BoundaryCounts(mask: seq<seq<bool>>, sum: nat, b: nat)
    requires b <= |mask|
    ensures RunningSums(Lengths(mask), sum)[b] == sum + CountTrue(Flatten(mask[..b]))
  {
    if b > 0 {
      assert Lengths(mask)[1..] == Lengths(mask[1..]);
      BoundaryCounts(mask[1..], sum + CountTrue(mask[0]), b - 1);
      assert mask[..b] == [mask[0]] + mask[1..][..b - 1];
      CountAppend(mask[0], Flatten(mask[1..][..b - 1]));
    }
  }

  // The boundaries start at 0 and end at the number of kept tokens; between its two boundaries
  // row b holds the given positions and no others, and the maximum is at least its share.
  ghost predicate Delimited(d: UnpadData, rows: nat, b: nat, kept: seq<nat>) {
    && |d.cuSeqlens| == rows + 1 && b < rows
    && d.cuSeqlens[0] == 0 && d.cuSeqlens[rows] == |d.indices|
    && d.cuSeqlens[b] <= d.cuSeqlens[b + 1] <= |d.indices|
    && d.indices[d.cuSeqlens[b]..d.cuSeqlens[b + 1]] == kept
    && |kept| <= d.maxSeqlen
  }

  lemma EndBoundaries(mask: seq<seq<bool>>)
    ensures RunningSums(Lengths(mask), 0)[0] == 0
    ensures RunningSums(Lengths(mask), 0)[|mask|] == |Nonzero(Flatten(mask))|
  {
    assert mask[..|mask|] == mask;
    BoundaryCounts(mask, 0, |mask|);
  }

  lemma RowSlice(mask: seq<seq<bool>>, cols: nat, b: nat)
    requires BlocksOf(mask, cols) && b < |mask|
    ensures var all, lo, hi := Nonzero(Flatten(mask)), CountTrue(Flatten(mask[..b])), CountTrue(Flatten(mask[..b + 1]));
      lo + CountTrue(mask[b]) == hi <= |all| && all[lo..hi] == Shifted(Nonzero(mask[b]), RowStart(b, cols))
  {
    hide Nonzero, CountTrue, Flatten, Increasing;
    assert mask[..b + 1] == mask[..b] + [mask[b]];
    assert mask == mask[..b + 1] + mask[b + 1..];
    var before, after := Flatten(mask[..b]), Flatten(mask[b + 1..]);
    FlattenSnoc(mask[..b], mask[b]);
    FlattenAppend(mask[..b + 1], mask[b + 1..]);
    FlattenLength(mask[..b], cols);
    CountAppend(before, mask[b]);
    NonzeroAppend(before, mask[b]);
    NonzeroAppend(before + mask[b], after);
  }

  lemma RowOccupies(mask: seq<seq<bool>>, cols: nat, b: nat)
    requires BlocksOf(mask, cols) && b < |mask|
    ensures GetUnpadData(mask).Some?
    ensures Delimited(GetUnpadData(mask).value, |mask|, b, Shifted(Nonzero(mask[b]), RowStart(b, cols)))
    ensures Increasing(GetUnpadData(mask).value.indices)
    ensures exists longest :: 0 <= longest < |mask| && CountTrue(mask[longest]) == GetUnpadData(mask).value.maxSeqlen
  {
    hide Nonzero, CountTrue, Maximum, RunningSums, Flatten, Increasing, RowStart, BlocksOf;
    RowSlice(mask, cols, b);
    EndBoundaries(mask);
    BoundaryCounts(mask, 0, b);
    BoundaryCounts(mask, 0, b + 1);
    MaximumBounds(Lengths(mask), b);
    var longest := MaximumAttained(Lengths(mask));
    assert |Nonzero(mask[b])| == Lengths(mask)[b] <= Maximum(Lengths(mask));
  }

  // ----- Log-probabilities -----

  // s[-n:], where n == 0 takes everything.
  function LastOf<T>(s: seq<T>, n: nat): seq<T> {
    if n == 0 || |s| <= n then s else s[|s| - n..]
  }

  // s[-n - 1:-1].
  function LastButOne<T>(s: seq<T>, n: nat): seq<T> {
    if s == [] then [] else LastOf(s, n + 1)[..if n + 1 <= |s| then n else |s| - 1]
  }

  // One score per (logits, label) pair.
  function Scores<L, V, P>(lp: (L, V) -> P, logits: seq<L>, labels: seq<V>): (r: seq<P>)
    requires |logits| == |labels|
    ensures |r| == |logits| && forall j :: 0 <= j < |logits| ==> r[j] == lp(logits[j], labels[j])
  {
    seq(|logits|, j requires 0 <= j < |logits| => lp(logits[j], labels[j]))
  }

  predicate SameShape<L, V>(logits: seq<seq<L>>, labels: seq<seq<V>>) {
    |logits| == |labels| && forall b :: 0 <= b < |logits| ==> |logits[b]| == |labels[b]|
  }

  function EachLastOf<T>(rows: seq<seq<T>>, n: nat): (r: seq<seq<T>>)
    ensures |r| == |rows| && forall b :: 0 <= b < |rows| ==> r[b] == LastOf(rows[b], n)
  {
    seq(|rows|, b requires 0 <= b < |rows| => LastOf(rows[b], n))
  }

  function EachLastButOne<T>(rows: seq<seq<T>>, n: nat): (r: seq<seq<T>>)
    ensures |r| == |rows| && forall b :: 0 <= b < |rows| ==> r[b] == LastButOne(rows[b], n)
  {
    seq(|rows|, b requires 0 <= b < |rows| => LastButOne(rows[b], n))
  }

  // The padded form; None where the two slices differ in shape.
  function LogProbsResponse<L, V, P>(lp: (L, V) -> P, ids: seq<seq<V>>, logits: seq<seq<L>>, n: nat)
    : (r: Option<seq<seq<P>>>)
  {
    var x, y := EachLastButOne(logits, n), EachLastOf(ids, n);
    if SameShape(x, y) then Some(seq(|x|, b requires 0 <= b < |x| => Scores(lp, x[b], y[b]))) else None
  }

  // `torch.roll` by -1.
  function RollBack<T>(s: seq<T>): (r: seq<T>)
    ensures |r| == |s| && forall j :: 0 <= j < |s| ==> r[j] == if j + 1 < |s| then s[j + 1] else s[0]
  {
    if s == [] then [] else s[1..] + [s[0]]
  }

  // n zeros, with the values written at their positions one after the other.
  function Scatter<P>(values: seq<P>, indices: seq<nat>, n: nat, zero: P): (r: seq<P>)
    requires |values| == |indices|
    requires forall j :: 0 <= j < |indices| ==> indices[j] < n
    ensures |r| == n
  {
    if values == [] then seq(n, _ => zero)
    else
      var last := |values| - 1;
      Scatter(values[..last], indices[..last], n, zero)[indices[last] := values[last]]
  }

  lemma {:induction false} ScatterAt<P>(values: seq<P>, indices: seq<nat>, n: nat, zero: P, j: nat)
    requires |values| == |indices| && Increasing(indices) && j < |indices|
    requires forall i :: 0 <= i < |indices| ==> indices[i] < n
    ensures Scatter(values, indices, n, zero)[indices[j]] == values[j]
  {
    var last := |values| - 1;
    if j < last {
      ScatterAt(values[..last], indices[..last], n, zero, j);
    }
  }

  lemma {:induction false} ScatterElsewhere<P>(values: seq<P>, indices: seq<nat>, n: nat, zero: P, f: nat)
    requires |values| == |indices| && f < n && f !in indices
    requires forall i :: 0 <= i < |indices| ==> indices[i] < n
    ensures Scatter(values, indices, n, zero)[f] == zero
  {
    if values != [] {
      ScatterElsewhere(values[..|values| - 1], indices[..|values| - 1], n, zero, f);
    }
  }

  // The packed form over a batch of the given width: unpad the ids, roll, score, pad, slice.
  function FullLogProbs<L, V, P>(lp: (L, V) -> P, flatIds: seq<V>, flatMask: seq<bool>, packed: seq<L>, zero: P)
    : (r: seq<P>)
    requires |flatIds| == |flatMask| && |packed| == CountTrue(flatMask)
    ensures |r| == |flatMask|
  {
    var indices := Nonzero(flatMask);
    Scatter(Scores(lp, packed, RollBack(Gather(flatIds, indices))), indices, |flatMask|, zero)
  }

  predicate PackedShapes<L, V>(ids: seq<seq<V>>, mask: seq<seq<bool>>, packed: seq<L>, cols: nat) {
    && |ids| == |mask| && BlocksOf(ids, cols) && BlocksOf(mask, cols)
    && |packed| == CountTrue(Flatten(mask))
  }

  function LogProbsResponseRmpad<L, V, P>(lp: (L, V) -> P, ids: seq<seq<V>>, mask: seq<seq<bool>>,
                                          packed: seq<L>, n: nat, cols: nat, zero: P): (r: seq<seq<P>>)
    requires PackedShapes(ids, mask, packed, cols)
    ensures |r| == |ids|
  {
    FlattenLength(ids, cols);
    FlattenLength(mask, cols);
    EachLastButOne(View(FullLogProbs(lp, Flatten(ids), Flatten(mask), packed, zero), |ids|, cols), n)
  }

  // ----- What the packed form computes -----

  predicate NoneTrue(flat: seq<bool>, start: nat, end: nat)
    requires end <= |flat|
  {
    forall g :: start <= g < end ==> !flat[g]
  }

  // The first true entry from a position on.
  function FirstTrue(flat: seq<bool>, start: nat): (r: Option<nat>)
    requires start <= |flat|
    ensures r.Some? ==> start <= r.value && r.value < |flat| && flat[r.value] && NoneTrue(flat, start, r.value)
    ensures r.None? ==> NoneTrue(flat, start, |flat|)
    decreases |flat| - start
  {
    if start == |flat| then None
    else if flat[start] then Some(start)
    else FirstTrue(flat, start + 1)
  }

  // The next kept token, cyclically.
  function NextKept(flat: seq<bool>, f: nat): (g: nat)
    requires f < |flat| && flat[f]
    ensures g < |flat| && flat[g]
  {
    var after := FirstTrue(flat, f + 1);
    if after.Some? then after.value else FirstTrue(flat, 0).value
  }

  lemma {:induction false} FirstTrueRank(flat: seq<bool>, start: nat)
    requires start <= |flat|
    ensures var c := CountTrue(flat[..start]);
      FirstTrue(flat, start) == if c < |Nonzero(flat)| then Some(Nonzero(flat)[c]) else None
    decreases |flat| - start
  {
    if start == |flat| {
      assert flat[..start] == flat;
    } else if flat[start] {
      RankPosition(flat, start);
    } else {
      CountStep(flat, start);
      FirstTrueRank(flat, start + 1);
    }
  }

  lemma CountNone(flat: seq<bool>)
    ensures CountTrue(flat[..0]) == 0
  {
  }

  lemma RolledLabel<V>(flat: seq<bool>, ids: seq<V>, f: nat)
    requires |ids| == |flat| && f < |flat| && flat[f]
    ensures var c := CountTrue(flat[..f]);
      c < |Nonzero(flat)| && Nonzero(flat)[c] == f
      && RollBack(Gather(ids, Nonzero(flat)))[c] == ids[NextKept(flat, f)]
  {
    hide Nonzero, CountTrue, Increasing, FirstTrue;
    RankPosition(flat, f);
    CountStep(flat, f);
    FirstTrueRank(flat, f + 1);
    FirstTrueRank(flat, 0);
    CountNone(flat);
  }

  // Every position of the full output: a dropped token gets zero, a kept one the score of its
  // own logits against the next kept token of the batch, whichever row that is in.
  lemma FullOutput<L, V, P>(lp: (L, V) -> P, flatIds: seq<V>, flatMask: seq<bool>, packed: seq<L>, zero: P, f: nat)
    requires |flatIds| == |flatMask| && |packed| == CountTrue(flatMask) && f < |flatMask|
    ensures !flatMask[f] ==> FullLogProbs(lp, flatIds, flatMask, packed, zero)[f] == zero
    ensures flatMask[f] ==> CountTrue(flatMask[..f]) < |packed|
    ensures flatMask[f] ==>
      FullLogProbs(lp, flatIds, flatMask, packed, zero)[f]
      == lp(packed[CountTrue(flatMask[..f])], flatIds[NextKept(flatMask, f)])
  {
    hide Nonzero, CountTrue, Increasing, NextKept, Scatter;
    var indices := Nonzero(flatMask);
    var scores := Scores(lp, packed, RollBack(Gather(flatIds, indices)));
    if flatMask[f] {
      RolledLabel(flatMask, flatIds, f);
      ScatterAt(scores, indices, |flatMask|, zero, CountTrue(flatMask[..f]));
    } else {
      ScatterElsewhere(scores, indices, |flatMask|, zero, f);
    }
  }

  lemma {:induction false} FlattenAt<T>(rows: seq<seq<T>>, cols: nat, b: nat, p: nat)
    requires BlocksOf(rows, cols) && b < |rows| && p < cols
    ensures |Flatten(rows)| == RowStart(|rows|, cols)
    ensures RowStart(b, cols) + p < |Flatten(rows)| && Flatten(rows)[RowStart(b, cols) + p] == rows[b][p]
  {
    FlattenLength(rows, cols);
    ViewOfFlatten(rows, cols);
    ViewAt(Flatten(rows), |rows|, cols, b);
  }

  // Column t of the slice [-n - 1:-1].
  function Column(cols: nat, n: nat, t: nat): (p: int)
  {
    if n + 1 <= cols then cols - n - 1 + t else t
  }

  lemma WindowAt<T>(row: seq<T>, n: nat, t: nat)
    requires t < |LastButOne(row, n)|
    ensures |LastButOne(row, n)| == (if n + 1 <= |row| then n else |row| - 1)
    ensures 0 <= Column(|row|, n, t) < |row| - 1 && LastButOne(row, n)[t] == row[Column(|row|, n, t)]
  {
  }

  // The response slice of the full output, position by position.
  lemma RmpadAt<L, V, P>(lp: (L, V) -> P, ids: seq<seq<V>>, mask: seq<seq<bool>>, packed: seq<L>,
                         n: nat, cols: nat, zero: P, b: nat, t: nat)
    requires PackedShapes(ids, mask, packed, cols) && b < |ids|
    requires t < |LogProbsResponseRmpad(lp, ids, mask, packed, n, cols, zero)[b]|
    ensures |Flatten(ids)| == |Flatten(mask)|
    ensures var p := Column(cols, n, t);
      0 <= p && p + 1 < cols && RowStart(b, cols) + p < |Flatten(mask)|
      && LogProbsResponseRmpad(lp, ids, mask, packed, n, cols, zero)[b][t]
         == FullLogProbs(lp, Flatten(ids), Flatten(mask), packed, zero)[RowStart(b, cols) + p]
  {
    hide CountTrue, Flatten, FullLogProbs, LastButOne, RowStart;
    FlattenLength(ids, cols);
    FlattenLength(mask, cols);
    var full := FullLogProbs(lp, Flatten(ids), Flatten(mask), packed, zero);
    ViewExact(full, |ids|, cols);
    WindowAt(View(full, |ids|, cols)[b], n, t);
    FlattenAt(mask, cols, b, Column(cols, n, t));
    FlattenAt(View(full, |ids|, cols), cols, b, Column(cols, n, t));
  }

  lemma RmpadWidth<L, V, P>(lp: (L, V) -> P, ids: seq<seq<V>>, mask: seq<seq<bool>>, packed: seq<L>,
                            n: nat, cols: nat, zero: P, b: nat)
    requires PackedShapes(ids, mask, packed, cols) && b < |ids| && cols >= 1
    ensures |LogProbsResponseRmpad(lp, ids, mask, packed, n, cols, zero)[b]| == if n + 1 <= cols then n else cols - 1
  {
    hide CountTrue, Flatten, FullLogProbs;
    FlattenLength(ids, cols);
    FlattenLength(mask, cols);
    ViewExact(FullLogProbs(lp, Flatten(ids), Flatten(mask), packed, zero), |ids|, cols);
  }

  // The value at kept position f: its own logits, by rank among the kept, and the next kept id.
  ghost predicate Labelled<L, V, P>(lp: (L, V) -> P, ids: seq<V>, mask: seq<bool>, packed: seq<L>, f: nat, value: P) {
    && |ids| == |mask| && f < |mask| && mask[f]
    && CountTrue(mask[..f]) < |packed|
    && value == lp(packed[CountTrue(mask[..f])], ids[NextKept(mask, f)])
  }

  // What the packed form returns, everywhere: zero for a dropped token; for a kept one the score
  // of its own packed logits against the next kept token.
  lemma PackedOutput<L, V, P>(lp: (L, V) -> P, ids: seq<seq<V>>, mask: seq<seq<bool>>, packed: seq<L>,
                              n: nat, cols: nat, zero: P, b: nat, t: nat)
    requires PackedShapes(ids, mask, packed, cols) && b < |ids|
    requires t < |LogProbsResponseRmpad(lp, ids, mask, packed, n, cols, zero)[b]|
    ensures var p, out := Column(cols, n, t), LogProbsResponseRmpad(lp, ids, mask, packed, n, cols, zero);
      && 0 <= p && p + 1 < cols
      && (!mask[b][p] ==> out[b][t] == zero)
      && (mask[b][p] ==> Labelled(lp, Flatten(ids), Flatten(mask), packed, RowStart(b, cols) + p, out[b][t]))
  {
    hide CountTrue, Flatten, FullLogProbs, LastButOne, RowStart, LogProbsResponseRmpad, NextKept;
    RmpadAt(lp, ids, mask, packed, n, cols, zero, b, t);
    var p := Column(cols, n, t);
    FlattenAt(mask, cols, b, p);
    FullOutput(lp, Flatten(ids), Flatten(mask), packed, zero, RowStart(b, cols) + p);
  }

  // The padded form succeeds exactly for a response of at least one token that leaves a token
  // before it, or when there is nothing to score.
  lemma PaddedDefined<L, V, P>(lp: (L, V) -> P, ids: seq<seq<V>>, logits: seq<seq<L>>, n: nat, cols: nat)
    requires |ids| == |logits| && BlocksOf(ids, cols) && BlocksOf(logits, cols)
    ensures LogProbsResponse(lp, ids, logits, n).Some? <==> ids == [] || cols == 0 || 1 <= n < cols
  {
    var x, y := EachLastButOne(logits, n), EachLastOf(ids, n);
    if ids != [] && cols > 0 && !(1 <= n < cols) {
      assert |x[0]| != |y[0]|;
    }
  }

  lemma PaddedAt<L, V, P>(lp: (L, V) -> P, ids: seq<seq<V>>, logits: seq<seq<L>>, n: nat, cols: nat, b: nat, t: nat)
    requires |ids| == |logits| && BlocksOf(ids, cols) && BlocksOf(logits, cols)
    requires 1 <= n < cols && b < |ids| && t < n
    ensures LogProbsResponse(lp, ids, logits, n).Some?
    ensures var out := LogProbsResponse(lp, ids, logits, n).value;
      && |out| == |ids| && |out[b]| == n
      && out[b][t] == lp(logits[b][cols - n - 1 + t], ids[b][cols - n + t])
  {
    PaddedDefined(lp, ids, logits, n, cols);
  }

  lemma NextIsNeighbour(flat: seq<bool>, f: nat)
    requires f + 1 < |flat| && flat[f] && flat[f + 1]
    ensures NextKept(flat, f) == f + 1
  {
  }

  // The rows of a padded batch at the kept positions: the packed logits.
  function Unpadded<T>(rows: seq<seq<T>>, mask: seq<seq<bool>>): Option<seq<T>> {
    if |Flatten(rows)| == |Flatten(mask)| then Some(Gather(Flatten(rows), Nonzero(Flatten(mask)))) else None
  }

  lemma PackedAt<L, V, P>(lp: (L, V) -> P, ids: seq<seq<V>>, mask: seq<seq<bool>>, logits: seq<seq<L>>,
                          packed: seq<L>, n: nat, cols: nat, zero: P, b: nat, t: nat)
    requires |ids| == |mask| == |logits| && BlocksOf(ids, cols) && BlocksOf(mask, cols) && BlocksOf(logits, cols)
    requires 1 <= n < cols && b < |ids| && t < n && Unpadded(logits, mask) == Some(packed)
    requires mask[b][cols - n - 1 + t] && mask[b][cols - n + t]
    ensures PackedShapes(ids, mask, packed, cols)
    ensures var out := LogProbsResponseRmpad(lp, ids, mask, packed, n, cols, zero);
      |out[b]| == n && out[b][t] == lp(logits[b][cols - n - 1 + t], ids[b][cols - n + t])
  {
    hide CountTrue, Flatten, FullLogProbs, RowStart, NextKept, Nonzero, Increasing, LastButOne;
    var p := cols - n - 1 + t;
    var f := RowStart(b, cols) + p;
    RmpadWidth(lp, ids, mask, packed, n, cols, zero, b);
    RmpadAt(lp, ids, mask, packed, n, cols, zero, b, t);
    hide LogProbsResponseRmpad;
    FlattenAt(logits, cols, b, p);
    FlattenAt(mask, cols, b, p);
    FlattenAt(mask, cols, b, p + 1);
    FlattenAt(ids, cols, b, p + 1);
    FullOutput(lp, Flatten(ids), Flatten(mask), packed, zero, f);
    RankPosition(Flatten(mask), f);
    NextIsNeighbour(Flatten(mask), f);
  }

  ghost predicate SameAt<P>(x: seq<seq<P>>, y: seq<seq<P>>, b: nat, t: nat) {
    && b < |x| && b < |y| && |x[b]| == |y[b]| && t < |x[b]|
    && x[b][t] == y[b][t]
  }

  // Refinement: wherever a response token and its predecessor are both kept, the packed form
  // returns what the padded form returns.
  lemma PackedRefinesPadded<L, V, P>(lp: (L, V) -> P, ids: seq<seq<V>>, mask: seq<seq<bool>>, logits: seq<seq<L>>,
                                     n: nat, cols: nat, zero: P, b: nat, t: nat)
    requires |ids| == |mask| == |logits| && BlocksOf(ids, cols) && BlocksOf(mask, cols) && BlocksOf(logits, cols)
    requires 1 <= n < cols && b < |ids| && t < n
    requires mask[b][cols - n - 1 + t] && mask[b][cols - n + t]
    ensures Unpadded(logits, mask).Some?
    ensures var packed := Unpadded(logits, mask).value;
      && PackedShapes(ids, mask, packed, cols)
      && LogProbsResponse(lp, ids, logits, n).Some?
      && SameAt(LogProbsResponse(lp, ids, logits, n).value,
                LogProbsResponseRmpad(lp, ids, mask, packed, n, cols, zero), b, t)
  {
    hide CountTrue, LogProbsResponse, LogProbsResponseRmpad;
    FlattenLength(logits, cols);
    FlattenLength(mask, cols);
    PaddedAt(lp, ids, logits, n, cols, b, t);
    PackedAt(lp, ids, mask, logits, Unpadded(logits, mask).value, n, cols, zero, b, t);
  }
}
