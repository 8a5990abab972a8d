/** Small facts about sequences that several of the models share. */
module SeqLib {
  import opened Arith

  function Flatten<T>(ss: seq<seq<T>>): seq<T> {
    if ss == [] then [] else ss[0] + Flatten(ss[1..])
  }

  lemma {:induction false} FlattenAppend<T>(ss: seq<seq<T>>, ts: seq<seq<T>>)
    ensures Flatten(ss + ts) == Flatten(ss) + Flatten(ts)
  {
    if ss == [] {
      assert ss + ts == ts;
    } else {
      assert (ss + ts)[0] == ss[0] && (ss + ts)[1..] == ss[1..] + ts;
      FlattenAppend(ss[1..], ts);
    }
  }

  lemma FlattenSnoc<T>(ss: seq<seq<T>>, s: seq<T>)
    ensures Flatten(ss + [s]) == Flatten(ss) + s
  {
    FlattenAppend(ss, [s]);
    assert Flatten([s]) == s + Flatten([]) == s;
  }

  function Copies<T>(x: T, n: nat): (s: seq<T>)
    ensures |s| == n && forall i :: 0 <= i < n ==> s[i] == x
  {
    seq(n, _ => x)
  }

  // The greatest of some numbers, 0 for none.
  function Maximum(s: seq<nat>): nat {
    if s == [] then 0
    else if s[0] > Maximum(s[1..]) then s[0] else Maximum(s[1..])
  }

  lemma {:induction false} MaximumAttained(s: seq<nat>) returns (i: nat)
    requires s != []
    ensures i < |s| && s[i] == Maximum(s)
  {
    assert |s| == 1 ==> s[1..] == [];
    if s[0] == Maximum(s) {
      i := 0;
    } else {
      i := MaximumAttained(s[1..]);
      i := i + 1;
    }
  }

  // lo, lo + 1, ... up to but not including hi.
  function Range(lo: nat, hi: nat): (r: seq<nat>)
    requires lo <= hi
    ensures |r| == hi - lo && forall i :: 0 <= i < |r| ==> r[i] == lo + i
  {
    seq(hi - lo, i requires 0 <= i < hi - lo => lo + i)
  }

  lemma {:induction false} MaximumBounds(s: seq<nat>, i: nat)
    requires i < |s|
    ensures s[i] <= Maximum(s)
  {
    if i > 0 {
      MaximumBounds(s[1..], i - 1);
    }
  }

  function Sum(s: seq<int>): int {
    if s == [] then 0 else s[0] + Sum(s[1..])
  }

  lemma {:induction false} SumAppend(s: seq<int>, t: seq<int>)
    ensures Sum(s + t) == Sum(s) + Sum(t)
  {
    if s == [] {
      assert s + t == t;
    } else {
      assert (s + t)[0] == s[0] && (s + t)[1..] == s[1..] + t;
      SumAppend(s[1..], t);
    }
  }

  lemma {:induction false} SumUpdate(s: seq<int>, i: nat, v: int)
    requires i < |s|
    ensures Sum(s[i := v]) == Sum(s) - s[i] + v
  {
    assert s == s[..i] + [s[i]] + s[i + 1..];
    assert s[i := v] == s[..i] + [v] + s[i + 1..];
    SumAppend(s[..i] + [s[i]], s[i + 1..]);
    SumAppend(s[..i] + [v], s[i + 1..]);
    SumAppend(s[..i], [s[i]]);
    SumAppend(s[..i], [v]);
  }

  // Values at most (at least) c apiece add up to at most (at least) c times their number.
  lemma {:induction false} SumAtMost(s: seq<int>, c: int)
    requires forall i :: 0 <= i < |s| ==> s[i] <= c
    ensures Sum(s) <= |s| * c
  {
    if s != [] {
      SumAtMost(s[1..], c);
    }
  }

  lemma {:induction false} SumAtLeast(s: seq<int>, c: int)
    requires forall i :: 0 <= i < |s| ==> s[i] >= c
    ensures Sum(s) >= |s| * c
  {
    if s != [] {
      SumAtLeast(s[1..], c);
    }
  }

  // Every number below n occurs in s, and in one place only.
  ghost predicate Permutation(s: seq<nat>, n: nat) {
    && |s| == n
    && (forall i :: 0 <= i < |s| ==> s[i] < n)
    && (forall i, j :: 0 <= i < j < |s| ==> s[i] != s[j])
    && (forall v: nat :: v < n ==> v in s)
  }

  lemma {:induction false} Occurrences<T>(s: seq<T>, i: nat, j: nat)
    requires i < j < |s| && s[i] == s[j]
    ensures multiset(s)[s[i]] >= 2
  {
    assert s == s[..j] + s[j..];
    assert s[i] in s[..j] && s[j] in s[j..];
    assert multiset(s) == multiset(s[..j]) + multiset(s[j..]);
  }

  lemma {:induction false} DistinctOnce<T>(s: seq<T>, x: T)
    requires forall i, j :: 0 <= i < j < |s| ==> s[i] != s[j]
    ensures multiset(s)[x] <= 1
  {
    if s != [] {
      DistinctOnce(s[1..], x);
      assert s == [s[0]] + s[1..];
      assert multiset(s) == multiset{s[0]} + multiset(s[1..]);
      if x == s[0] {
        assert x !in s[1..];
      }
    }
  }

  lemma PieceFits(len: nat, n: nat)
    requires n >= 1
    ensures len / n + (if len % n > 0 then 1 else 0) <= len
    ensures n == 1 ==> len / n == len && len % n == 0
  {
    DivMod(len, n);
    Distribute(n - 1, 1, len / n);
    MulSign(n - 1, len / n);
  }

  // The first of n pieces of len elements: the quotient, rounded up.
  function PieceSize(len: nat, n: nat): (size: nat)
    requires n >= 1
    ensures size <= len && (n == 1 ==> size == len)
  {
    var size := len / n + if len % n > 0 then 1 else 0;
    PieceFits(len, n);
    size
  }

  // n consecutive pieces whose sizes differ by at most one, the longer ones first, as numpy's
  // array_split cuts them.
  function ArraySplit<T>(s: seq<T>, n: nat): (pieces: seq<seq<T>>)
    ensures |pieces| == n
  {
    if n == 0 then [] else [s[..PieceSize(|s|, n)]] + ArraySplit(s[PieceSize(|s|, n)..], n - 1)
  }

  lemma PieceLeft(len: nat, n: nat)
    requires n >= 2
    ensures var left := len - PieceSize(len, n);
      left / (n - 1) == len / n && left % (n - 1) == if len % n > 0 then len % n - 1 else 0
  {
    DivMod(len, n);
    Distribute(n - 1, 1, len / n);
    assert (len / n) * n == n * (len / n) && (len / n) * (n - 1) == (n - 1) * (len / n);
    DivModUnique(len - PieceSize(len, n), n - 1, len / n, if len % n > 0 then len % n - 1 else 0);
  }

  // The first len % n pieces hold one more than the others.
  lemma {:induction false} ArraySplitSizes<T>(s: seq<T>, n: nat, r: nat)
    requires r < n
    ensures |ArraySplit(s, n)[r]| == |s| / n + if r < |s| % n then 1 else 0
  {
    if r > 0 {
      PieceLeft(|s|, n);
      ArraySplitSizes(s[PieceSize(|s|, n)..], n - 1, r - 1);
    }
  }

  lemma {:induction false} ArraySplitFlatten<T>(s: seq<T>, n: nat)
    requires n >= 1
    ensures Flatten(ArraySplit(s, n)) == s
  {
    hide PieceSize;
    var cut := PieceSize(|s|, n);
    assert s == s[..cut] + s[cut..];
    if n > 1 {
      ArraySplitFlatten(s[cut..], n - 1);
    } else {
      assert s[..cut] == s && ArraySplit(s[cut..], 0) == [];
      assert ArraySplit(s, n) == [s] + [];
      FlattenSnoc([], s);
      assert [] + [s] == [s] + [];
    }
  }

  function MapSeq<S, T>(f: S -> T, x: seq<S>): (y: seq<T>)
    ensures |y| == |x| && forall i :: 0 <= i < |x| ==> y[i] == f(x[i])
  {
    seq(|x|, i requires 0 <= i < |x| => f(x[i]))
  }

  function MapSlices<S, T>(f: S -> T, xs: seq<seq<S>>): (ys: seq<seq<T>>)
    ensures |ys| == |xs| && forall i :: 0 <= i < |xs| ==> ys[i] == MapSeq(f, xs[i])
  {
    seq(|xs|, i requires 0 <= i < |xs| => MapSeq(f, xs[i]))
  }

  lemma {:induction false} MapFlatten<S, T>(f: S -> T, xs: seq<seq<S>>)
    ensures Flatten(MapSlices(f, xs)) == MapSeq(f, Flatten(xs))
  {
    if xs != [] {
      MapFlatten(f, xs[1..]);
      assert MapSlices(f, xs)[1..] == MapSlices(f, xs[1..]);
      assert MapSeq(f, xs[0] + Flatten(xs[1..])) == MapSeq(f, xs[0]) + MapSeq(f, Flatten(xs[1..]));
    }
  }
}
