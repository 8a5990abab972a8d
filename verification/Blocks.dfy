/** Cutting rows into equal blocks, in the several ways the checkpoint code does it. */
module Blocks {
  import opened Arith
  import opened SeqLib

  // Rows seen as n blocks of the given size, as `view([n, size, ...])` sees them.
  function View<T>(s: seq<T>, n: nat, size: nat): (blocks: seq<seq<T>>)
    ensures |blocks| == n
    decreases n
  {
    if n == 0 then []
    else if size <= |s| then [s[..size]] + View(s[size..], n - 1, size)
    else [s] + View([], n - 1, size)
  }

  predicate BlocksOf<T>(blocks: seq<seq<T>>, size: nat) {
    forall i :: 0 <= i < |blocks| ==> |blocks[i]| == size
  }

  lemma BlocksOfParts<T>(x: seq<seq<T>>, y: seq<seq<T>>, size: nat)
    ensures BlocksOf(x + y, size) <==> BlocksOf(x, size) && BlocksOf(y, size)
  {
    if BlocksOf(x + y, size) {
      assert forall i :: 0 <= i < |x| ==> (x + y)[i] == x[i];
      assert forall i :: 0 <= i < |y| ==> (x + y)[|x| + i] == y[i];
    }
  }

  lemma {:induction false} FlattenLength<T>(blocks: seq<seq<T>>, size: nat)
    requires BlocksOf(blocks, size)
    ensures |Flatten(blocks)| == |blocks| * size
  {
    if blocks != [] {
      FlattenLength(blocks[1..], size);
      Distribute(|blocks| - 1, 1, size);
    }
  }

  // Viewing a concatenation of equal blocks finds them again.
  lemma {:induction false} ViewOfFlatten<T>(blocks: seq<seq<T>>, size: nat)
    requires BlocksOf(blocks, size)
    ensures View(Flatten(blocks), |blocks|, size) == blocks
  {
    if blocks != [] {
      ViewOfFlatten(blocks[1..], size);
      assert Flatten(blocks)[..size] == blocks[0];
      assert Flatten(blocks)[size..] == Flatten(blocks[1..]);
    }
  }

  // When n blocks use the rows up, they are equal and make up the rows.
  lemma {:induction false} ViewExact<T>(s: seq<T>, n: nat, size: nat)
    requires |s| == n * size
    ensures BlocksOf(View(s, n, size), size) && Flatten(View(s, n, size)) == s
  {
    if n > 0 {
      Distribute(n - 1, 1, size);
      MulSign(n - 1, size);
      ViewExact(s[size..], n - 1, size);
      assert s == s[..size] + s[size..];
    }
  }

  // Block i is the slice from i * size on.
  lemma {:induction false} ViewAt<T>(s: seq<T>, n: nat, size: nat, i: nat)
    requires |s| == n * size && i < n
    ensures 0 <= i * size && (i + 1) * size == i * size + size <= |s|
    ensures View(s, n, size)[i] == s[i * size..(i + 1) * size]
  {
    Distribute(n - 1, 1, size);
    Distribute(i, 1, size);
    Distribute(i - 1, 1, size);
    MulSign(n - 1, size);
    MulSign(i, size);
    MulMono(i + 1, n, size);
    if i > 0 {
      ViewAt(s[size..], n - 1, size, i - 1);
      assert s[size..][(i - 1) * size..i * size] == s[i * size..(i + 1) * size];
    }
  }

  function ChunkSize(len: nat, n: nat): nat
    requires n >= 1
  {
    DivMod(len + n - 1, n);
    (len + n - 1) / n
  }

  function Pieces<T>(s: seq<T>, size: nat): seq<seq<T>> {
    if s == [] || size == 0 then []
    else if |s| <= size then [s] else [s[..size]] + Pieces(s[size..], size)
  }

  // `torch.chunk`: pieces of the rounded-up quotient, as many as there are rows for; no rows
  // give n empty pieces.
  function Chunk<T>(s: seq<T>, n: nat): seq<seq<T>>
    requires n >= 1
  {
    if s == [] then seq(n, _ => []) else Pieces(s, ChunkSize(|s|, n))
  }

  lemma {:induction false} PiecesOfFlatten<T>(blocks: seq<seq<T>>, size: nat)
    requires size >= 1 && BlocksOf(blocks, size)
    ensures Pieces(Flatten(blocks), size) == blocks
  {
    if blocks != [] {
      PiecesOfFlatten(blocks[1..], size);
      assert Flatten(blocks)[..size] == blocks[0];
      assert Flatten(blocks)[size..] == Flatten(blocks[1..]);
      if |blocks| > 1 {
        assert |Flatten(blocks[1..])| >= |blocks[1..][0]| == size;
      } else {
        assert blocks == [blocks[0]] && Flatten(blocks[1..]) == [] && Flatten(blocks) == blocks[0];
      }
    }
  }

  lemma ChunkSizeExact(n: nat, size: nat)
    requires n >= 1
    ensures ChunkSize(n * size, n) == size
  {
    assert n * size == size * n;
    DivModUnique(n * size + n - 1, n, size, n - 1);
  }

  // Chunking a concatenation of n equal blocks into n finds them again.
  lemma ChunkOfFlatten<T>(blocks: seq<seq<T>>, size: nat)
    requires blocks != [] && BlocksOf(blocks, size)
    ensures Chunk(Flatten(blocks), |blocks|) == blocks
  {
    FlattenLength(blocks, size);
    if size == 0 {
      assert Flatten(blocks) == [];
      assert blocks == seq(|blocks|, _ => []);
    } else {
      MulMono(1, |blocks|, size);
      ChunkSizeExact(|blocks|, size);
      PiecesOfFlatten(blocks, size);
    }
  }

  function Flattened<T>(ranks: seq<seq<seq<T>>>): (r: seq<seq<T>>)
    ensures |r| == |ranks| && forall t :: 0 <= t < |ranks| ==> r[t] == Flatten(ranks[t])
  {
    seq(|ranks|, t requires 0 <= t < |ranks| => Flatten(ranks[t]))
  }

  lemma {:induction false} FlattenTwice<T>(ranks: seq<seq<seq<T>>>)
    ensures Flatten(Flatten(ranks)) == Flatten(Flattened(ranks))
  {
    if ranks != [] {
      FlattenTwice(ranks[1..]);
      FlattenAppend(ranks[0], Flatten(ranks[1..]));
      assert Flattened(ranks)[1..] == Flattened(ranks[1..]);
    }
  }

  // `array_split` into pieces that come out even.
  lemma {:induction false} ArraySplitEven<T>(s: seq<T>, n: nat, size: nat)
    requires |s| == n * size
    ensures ArraySplit(s, n) == View(s, n, size)
  {
    if n > 0 {
      Distribute(n - 1, 1, size);
      MulSign(n - 1, size);
      assert n * size == size * n;
      ModMultiple(size, n);
      assert PieceSize(|s|, n) == size;
      ArraySplitEven(s[size..], n - 1, size);
    }
  }
}
