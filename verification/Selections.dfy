/** Picking rows by a mask or by an id: where the rows are, in what order, and what they hold. */
module Selections {
  function CountTrue(mask: seq<bool>): (c: nat)
    ensures c <= |mask|
  {
    if mask == [] then 0 else (if mask[0] then 1 else 0) + CountTrue(mask[1..])
  }

  function Lengths(masks: seq<seq<bool>>): (lens: seq<nat>)
    ensures |lens| == |masks| && forall b :: 0 <= b < |masks| ==> lens[b] == CountTrue(masks[b])
  {
    seq(|masks|, b requires 0 <= b < |masks| => CountTrue(masks[b]))
  }

  lemma {:induction false} CountAppend(a: seq<bool>, b: seq<bool>)
    ensures CountTrue(a + b) == CountTrue(a) + CountTrue(b)
  {
    if a == [] {
      assert a + b == b;
    } else {
      assert (a + b)[0] == a[0] && (a + b)[1..] == a[1..] + b;
      CountAppend(a[1..], b);
    }
  }

  predicate Increasing(s: seq<nat>) {
    forall i, j :: 0 <= i < j < |s| ==> s[i] < s[j]
  }

  // `torch.nonzero` on a flat mask: the positions of the true entries, in order.
  function Nonzero(flat: seq<bool>): (indices: seq<nat>)
    ensures |indices| == CountTrue(flat)
    ensures forall j :: 0 <= j < |indices| ==> indices[j] < |flat| && flat[indices[j]]
    ensures Increasing(indices)
  {
    if flat == [] then []
    else
      var last := |flat| - 1;
      assert flat == flat[..last] + [flat[last]];
      CountAppend(flat[..last], [flat[last]]);
      if flat[last] then Nonzero(flat[..last]) + [last] else Nonzero(flat[..last])
  }

  // Entry number c of the kept positions is f, where c true entries come before f.
  lemma {:induction false} RankPosition(flat: seq<bool>, f: nat)
    requires f < |flat| && flat[f]
    ensures CountTrue(flat[..f]) < |Nonzero(flat)|
    ensures Nonzero(flat)[CountTrue(flat[..f])] == f
  {
    var last := |flat| - 1;
    if f == last {
      assert flat == flat[..last] + [flat[last]];
      CountAppend(flat[..last], [flat[last]]);
    } else {
      assert flat[..last][..f] == flat[..f];
      RankPosition(flat[..last], f);
    }
  }

  lemma CountStep(flat: seq<bool>, f: nat)
    requires f < |flat|
    ensures CountTrue(flat[..f + 1]) == CountTrue(flat[..f]) + if flat[f] then 1 else 0
  {
    assert flat[..f + 1] == flat[..f] + [flat[f]];
    CountAppend(flat[..f], [flat[f]]);
  }

  function Shifted(s: seq<nat>, offset: nat): (r: seq<nat>)
    ensures |r| == |s| && forall j :: 0 <= j < |s| ==> r[j] == s[j] + offset
  {
    seq(|s|, j requires 0 <= j < |s| => s[j] + offset)
  }

  // The definition of Nonzero by its last entry, without the counting that its contract needs.
  lemma NonzeroSnoc(a: seq<bool>, x: bool)
    ensures x ==> Nonzero(a + [x]) == Nonzero(a) + [|a|]
    ensures !x ==> Nonzero(a + [x]) == Nonzero(a)
  {
    hide CountTrue, Increasing;
    assert (a + [x])[..|a|] == a;
  }

  lemma ShiftedSnoc(s: seq<nat>, v: nat, offset: nat)
    ensures Shifted(s + [v], offset) == Shifted(s, offset) + [v + offset]
  {
  }

  lemma JoinLast<T>(whole: seq<T>, longer: seq<T>, x: seq<T>, y: seq<T>, z: seq<T>, last: seq<T>)
    requires whole == x + y && longer == whole + last && z == y + last
    ensures longer == x + z
  {
  }

  lemma SnocAssoc<T>(a: seq<T>, b: seq<T>, x: T, c: seq<T>)
    requires c == b + [x]
    ensures a + c == (a + b) + [x] && |a + b| == |a| + |b|
  {
  }

  lemma NonzeroNone(a: seq<bool>)
    ensures Nonzero(a + []) == Nonzero(a) + Shifted(Nonzero([]), |a|)
  {
    assert a + [] == a;
  }

  // One more entry at the end of b.
  lemma NonzeroAppendStep(a: seq<bool>, b: seq<bool>, x: bool, c: seq<bool>)
    requires Nonzero(a + b) == Nonzero(a) + Shifted(Nonzero(b), |a|) && c == b + [x]
    ensures Nonzero(a + c) == Nonzero(a) + Shifted(Nonzero(c), |a|)
  {
    hide *;
    SnocAssoc(a, b, x, c);
    NonzeroSnoc(a + b, x);
    NonzeroSnoc(b, x);
    if x {
      ShiftedSnoc(Nonzero(b), |b|, |a|);
      JoinLast(Nonzero(a + b), Nonzero(a + c), Nonzero(a), Shifted(Nonzero(b), |a|), Shifted(Nonzero(c), |a|),
               [|b| + |a|]);
    }
  }

  lemma {:induction false} NonzeroAppend(a: seq<bool>, b: seq<bool>)
    ensures Nonzero(a + b) == Nonzero(a) + Shifted(Nonzero(b), |a|)
  {
    hide *;
    if b == [] {
      NonzeroNone(a);
    } else {
      var last := |b| - 1;
      NonzeroAppend(a, b[..last]);
      NonzeroAppendStep(a, b[..last], b[last], b);
    }
  }

  function Gather<T>(flat: seq<T>, indices: seq<nat>): (r: seq<T>)
    requires forall j :: 0 <= j < |indices| ==> indices[j] < |flat|
    ensures |r| == |indices| && forall j :: 0 <= j < |indices| ==> r[j] == flat[indices[j]]
  {
    seq(|indices|, j requires 0 <= j < |indices| => flat[indices[j]])
  }

  function Matches<K(==)>(ids: seq<K>, id: K): (mask: seq<bool>)
    ensures |mask| == |ids| && forall k :: 0 <= k < |ids| ==> (mask[k] <==> ids[k] == id)
  {
    seq(|ids|, k requires 0 <= k < |ids| => ids[k] == id)
  }

  // `np.where(ids == id)[0]`: the rows carrying an id, in order.
  function Where<K(==)>(ids: seq<K>, id: K): (rows: seq<nat>)
    ensures Increasing(rows)
    ensures forall t :: 0 <= t < |rows| ==> rows[t] < |ids| && ids[rows[t]] == id
  {
    Nonzero(Matches(ids, id))
  }

  // The values of the rows carrying an id, in order.
  function Own<K(==), T>(ids: seq<K>, vals: seq<T>, id: K): (own: seq<T>)
    requires |vals| == |ids|
    ensures |own| == |Where(ids, id)| && forall t :: 0 <= t < |own| ==> own[t] == vals[Where(ids, id)[t]]
  {
    Gather(vals, Where(ids, id))
  }

  // Row k is one of its own id's rows: the one after the earlier rows of that id.
  lemma WhereRank<K>(ids: seq<K>, k: nat)
    requires k < |ids|
    ensures var rank := CountTrue(Matches(ids, ids[k])[..k]);
      rank < |Where(ids, ids[k])| && Where(ids, ids[k])[rank] == k
  {
    RankPosition(Matches(ids, ids[k]), k);
  }

  lemma OwnAppend<K, T>(ids: seq<K>, ids': seq<K>, vals: seq<T>, vals': seq<T>, id: K)
    requires |vals| == |ids| && |vals'| == |ids'|
    ensures Own(ids + ids', vals + vals', id) == Own(ids, vals, id) + Own(ids', vals', id)
  {
    hide Nonzero, Increasing;
    assert Matches(ids + ids', id) == Matches(ids, id) + Matches(ids', id);
    NonzeroAppend(Matches(ids, id), Matches(ids', id));
  }

  lemma {:induction false} OwnAll<K, T>(ids: seq<K>, vals: seq<T>, id: K)
    requires |vals| == |ids| && forall k :: 0 <= k < |ids| ==> ids[k] == id
    ensures Own(ids, vals, id) == vals
  {
    if ids != [] {
      var last := |ids| - 1;
      OwnAll(ids[..last], vals[..last], id);
      OwnAppend(ids[..last], ids[last..], vals[..last], vals[last..], id);
      assert ids == ids[..last] + ids[last..] && vals == vals[..last] + vals[last..];
      WhereRank(ids[last..], 0);
      assert Own(ids[last..], vals[last..], id) == vals[last..];
    }
  }

  lemma OwnPresent<K, T>(ids: seq<K>, vals: seq<T>, id: K)
    requires |vals| == |ids| && Own(ids, vals, id) != []
    ensures id in ids
  {
    assert ids[Where(ids, id)[0]] == id;
  }

  lemma OwnNone<K, T>(ids: seq<K>, vals: seq<T>, id: K)
    requires |vals| == |ids| && id !in ids
    ensures Own(ids, vals, id) == []
  {
    if Own(ids, vals, id) != [] {
      OwnPresent(ids, vals, id);
    }
  }

  // The ids of the rows, each once, as `np.unique` lists them; in which order is left open.
  ghost predicate Lists<K>(order: seq<K>, ids: seq<K>) {
    && (forall u :: u in ids ==> u in order) && (forall u :: u in order ==> u in ids)
    && forall i, j :: 0 <= i < j < |order| ==> order[i] != order[j]
  }

  // Writes one value per row; the rows are distinct.
  method WriteRows<T>(all: array<T>, rows: seq<nat>, values: seq<T>)
    requires |rows| == |values| && Increasing(rows) && forall t :: 0 <= t < |rows| ==> rows[t] < all.Length
    modifies all
    ensures forall t :: 0 <= t < |rows| ==> all[rows[t]] == values[t]
    ensures forall k :: 0 <= k < all.Length && k !in rows ==> all[k] == old(all[k])
  {
    for t := 0 to |rows|
      invariant forall s :: 0 <= s < t ==> all[rows[s]] == values[s]
      invariant forall k :: 0 <= k < all.Length && k !in rows[..t] ==> all[k] == old(all[k])
    {
      all[rows[t]] := values[t];
      assert rows[..t + 1] == rows[..t] + [rows[t]];
    }
  }

  lemma OwnWritten<K, T>(uids: seq<K>, all: seq<T>, values: seq<T>, u: K)
    requires |all| == |uids| && |values| == |Where(uids, u)|
    requires forall t :: 0 <= t < |values| ==> all[Where(uids, u)[t]] == values[t]
    ensures Own(uids, all, u) == values
  {
  }

  lemma OwnUntouched<K, T>(uids: seq<K>, before: seq<T>, all: seq<T>, u: K, v: K)
    requires |all| == |before| == |uids| && u != v
    requires forall k :: 0 <= k < |all| && k !in Where(uids, u) ==> all[k] == before[k]
    ensures Own(uids, all, v) == Own(uids, before, v)
  {
    forall t | 0 <= t < |Where(uids, v)|
      ensures all[Where(uids, v)[t]] == before[Where(uids, v)[t]]
    {
      assert uids[Where(uids, v)[t]] == v;
    }
  }
}
