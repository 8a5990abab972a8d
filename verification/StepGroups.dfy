/** Assigning a step-level group to every step of a batch. */
module StepGroups {
  import opened Wrappers
  import opened Selections
  import opened Grouping

  datatype GroupError = UnhashableAnchor | MissingGroup

  // Steps share an id exactly when they share the episode group and the canonical anchor.
  ghost predicate StepPartition<G>(ids: seq<nat>, anchors: seq<Obs>, index: seq<G>) {
    && |ids| == |anchors| == |index|
    && forall j, k :: 0 <= j < |ids| && 0 <= k < |ids| ==>
         (ids[j] == ids[k] <==> index[j] == index[k] && ToHashable(anchors[j]) == ToHashable(anchors[k]))
  }

  function Hashes(anchors: seq<Obs>): (hashes: seq<Option<Hashable>>)
    ensures |hashes| == |anchors| && forall k :: 0 <= k < |anchors| ==> hashes[k] == ToHashable(anchors[k])
  {
    seq(|anchors|, k requires 0 <= k < |anchors| => ToHashable(anchors[k]))
  }

  // The clusters of some rows: the keys in the order they first came up, each with its rows.
  datatype Clusters<H> = Clusters(keys: seq<H>, rows: map<H, seq<nat>>)

  ghost predicate OfHash<H>(cluster: seq<nat>, rows: seq<nat>, hashes: seq<Option<H>>, h: H) {
    forall row: nat :: row in cluster <==> row in rows && row < |hashes| && hashes[row] == Some(h)
  }

  ghost predicate Clustered<H>(c: Clusters<H>, rows: seq<nat>, hashes: seq<Option<H>>) {
    && (forall i, j :: 0 <= i < j < |c.keys| ==> c.keys[i] != c.keys[j])
    && (forall h :: h in c.keys ==> h in c.rows)
    && (forall h :: h in c.rows ==> h in c.keys && OfHash(c.rows[h], rows, hashes, h))
    && (forall row :: row in rows ==> row < |hashes| && hashes[row].Some? && hashes[row].value in c.rows)
  }

  function AddRow<H>(c: Clusters<H>, h: H, row: nat): Clusters<H> {
    if h in c.rows then c.(rows := c.rows[h := c.rows[h] + [row]])
    else Clusters(c.keys + [h], c.rows[h := [row]])
  }

  lemma OfHashStep<H>(cluster: seq<nat>, rows: seq<nat>, hashes: seq<Option<H>>, h: H, row: nat)
    requires OfHash(cluster, rows, hashes, h) && row < |hashes|
    ensures OfHash(if hashes[row] == Some(h) then cluster + [row] else cluster, rows + [row], hashes, h)
  {
  }

  lemma OfHashNone<H>(rows: seq<nat>, hashes: seq<Option<H>>, c: Clusters<H>, h: H)
    requires Clustered(c, rows, hashes) && h !in c.rows
    ensures OfHash([], rows, hashes, h)
  {
  }

  lemma ClusteredStep<H>(c: Clusters<H>, rows: seq<nat>, hashes: seq<Option<H>>, h: H, row: nat)
    requires Clustered(c, rows, hashes) && row < |hashes| && hashes[row] == Some(h)
    ensures Clustered(AddRow(c, h, row), rows + [row], hashes)
  {
    hide OfHash;
    var d := AddRow(c, h, row);
    if h !in c.rows {
      OfHashNone(rows, hashes, c, h);
    }
    forall g | g in d.rows
      ensures g in d.keys && OfHash(d.rows[g], rows + [row], hashes, g)
    {
      OfHashStep(if g in c.rows then c.rows[g] else [], rows, hashes, g, row);
      assert [] + [row] == [row];
    }
  }

  lemma NoClusters<H>(hashes: seq<Option<H>>)
    ensures Clustered(Clusters([], map[]), [], hashes)
  {
  }

  method ClusterRows(rows: seq<nat>, anchors: seq<Obs>) returns (c: Option<Clusters<Hashable>>)
    requires forall t :: 0 <= t < |rows| ==> rows[t] < |anchors|
    ensures c.Some? <==> forall t :: 0 <= t < |rows| ==> Hashes(anchors)[rows[t]].Some?
    ensures c.Some? ==> Clustered(c.value, rows, Hashes(anchors))
  {
    hide ToHashable, Clustered;
    var clusters := Clusters([], map[]);
    NoClusters(Hashes(anchors));
    for t := 0 to |rows|
      invariant forall s :: 0 <= s < t ==> Hashes(anchors)[rows[s]].Some?
      invariant Clustered(clusters, rows[..t], Hashes(anchors))
    {
      var h := ToHashable(anchors[rows[t]]);
      if h.None? {
        assert Hashes(anchors)[rows[t]].None?;
        return None;
      }
      ClusteredStep(clusters, rows[..t], Hashes(anchors), h.value, rows[t]);
      assert rows[..t + 1] == rows[..t] + [rows[t]];
      clusters := AddRow(clusters, h.value, rows[t]);
    }
    assert rows[..|rows|] == rows;
    return Some(clusters);
  }

  // Gives every row of one cluster the same id.
  method SetRows(ids: array<Option<nat>>, rows: seq<nat>, id: nat)
    requires forall row :: row in rows ==> row < ids.Length
    modifies ids
    ensures forall k :: 0 <= k < ids.Length ==> ids[k] == if k in rows then Some(id) else old(ids[k])
  {
    for t := 0 to |rows|
      invariant forall k :: 0 <= k < ids.Length ==> ids[k] == if k in rows[..t] then Some(id) else old(ids[k])
    {
      assert rows[t] in rows;
      ids[rows[t]] := Some(id);
      assert rows[..t + 1] == rows[..t] + [rows[t]];
    }
    assert rows[..|rows|] == rows;
  }

  // The given rows carry start plus the place of their key, as far as n keys go; all else is as
  // before.
  ghost predicate Numbered<H>(ids: seq<Option<nat>>, before: seq<Option<nat>>, keys: seq<H>, rows: seq<nat>,
                              hashes: seq<Option<H>>, start: nat, n: nat)
    requires |ids| == |before| == |hashes| && n <= |keys|
  {
    && (forall j: nat, row: nat :: j < n && row < |ids| && row in rows && hashes[row] == Some(keys[j]) ==>
          ids[row] == Some(start + j))
    && (forall row: nat :: row < |ids| && !(row in rows && exists j :: 0 <= j < n && hashes[row] == Some(keys[j])) ==>
          ids[row] == before[row])
  }

  lemma NumberedStep<H>(ids: seq<Option<nat>>, now: seq<Option<nat>>, before: seq<Option<nat>>, c: Clusters<H>,
                        rows: seq<nat>, hashes: seq<Option<H>>, start: nat, n: nat)
    requires |ids| == |now| == |before| == |hashes| && n < |c.keys| && Clustered(c, rows, hashes)
    requires Numbered(now, before, c.keys, rows, hashes, start, n) && c.keys[n] in c.rows
    requires forall k :: 0 <= k < |ids| ==> ids[k] == if k in c.rows[c.keys[n]] then Some(start + n) else now[k]
    ensures Numbered(ids, before, c.keys, rows, hashes, start, n + 1)
  {
    assert OfHash(c.rows[c.keys[n]], rows, hashes, c.keys[n]);
  }

  lemma NumberedNone<H>(ids: seq<Option<nat>>, keys: seq<H>, rows: seq<nat>, hashes: seq<Option<H>>, start: nat)
    requires |ids| == |hashes|
    ensures Numbered(ids, ids, keys, rows, hashes, start, 0)
  {
  }

  method NumberClusters<H(==)>(ids: array<Option<nat>>, c: Clusters<H>, ghost rows: seq<nat>,
                               ghost hashes: seq<Option<H>>, start: nat)
    returns (next: nat)
    requires Clustered(c, rows, hashes) && ids.Length == |hashes|
    modifies ids
    ensures next == start + |c.keys|
    ensures Numbered(ids[..], old(ids[..]), c.keys, rows, hashes, start, |c.keys|)
  {
    hide Numbered;
    next := start;
    NumberedNone(ids[..], c.keys, rows, hashes, start);
    for j := 0 to |c.keys|
      invariant next == start + j
      invariant Numbered(ids[..], old(ids[..]), c.keys, rows, hashes, start, j)
    {
      ghost var now := ids[..];
      assert c.keys[j] in c.rows && OfHash(c.rows[c.keys[j]], rows, hashes, c.keys[j]);
      assert forall row :: row in c.rows[c.keys[j]] ==> row < |hashes|;
      SetRows(ids, c.rows[c.keys[j]], next);
      NumberedStep(ids[..], now, old(ids[..]), c, rows, hashes, start, j);
      next := next + 1;
    }
  }

  // The rows of the finished tasks carry ids below next, equal exactly within a cluster.
  ghost predicate Grouped<G, H>(ids: seq<Option<nat>>, index: seq<G>, hashes: seq<Option<H>>, done: seq<G>, next: nat)
    requires |ids| == |index| == |hashes|
  {
    && (forall k :: 0 <= k < |ids| && index[k] in done ==> ids[k].Some? && ids[k].value < next && hashes[k].Some?)
    && (forall j, k :: 0 <= j < |ids| && 0 <= k < |ids| && index[j] in done && index[k] in done ==>
          (ids[j] == ids[k] <==> index[j] == index[k] && hashes[j] == hashes[k]))
  }

  // A row of the new task, and its place among the keys.
  lemma NewRow<G, H>(ids: seq<Option<nat>>, before: seq<Option<nat>>, c: Clusters<H>, index: seq<G>,
                     hashes: seq<Option<H>>, g: G, next: nat, k: nat) returns (j: nat)
    requires |ids| == |before| == |index| == |hashes| && k < |ids| && index[k] == g
    requires Clustered(c, Where(index, g), hashes)
    requires Numbered(ids, before, c.keys, Where(index, g), hashes, next, |c.keys|)
    ensures j < |c.keys| && hashes[k] == Some(c.keys[j]) && ids[k] == Some(next + j)
  {
    WhereRank(index, k);
    assert k in Where(index, g);
    j :| 0 <= j < |c.keys| && c.keys[j] == hashes[k].value;
  }

  lemma OldRow<G, H>(ids: seq<Option<nat>>, before: seq<Option<nat>>, c: Clusters<H>, index: seq<G>,
                     hashes: seq<Option<H>>, g: G, next: nat, k: nat)
    requires |ids| == |before| == |index| == |hashes| && k < |ids| && index[k] != g
    requires Numbered(ids, before, c.keys, Where(index, g), hashes, next, |c.keys|)
    ensures ids[k] == before[k]
  {
    assert k !in Where(index, g);
  }

  lemma GroupedStep<G, H>(ids: seq<Option<nat>>, before: seq<Option<nat>>, c: Clusters<H>, index: seq<G>,
                          hashes: seq<Option<H>>, done: seq<G>, g: G, next: nat)
    requires |ids| == |before| == |index| == |hashes| && g !in done
    requires Grouped(before, index, hashes, done, next) && Clustered(c, Where(index, g), hashes)
    requires Numbered(ids, before, c.keys, Where(index, g), hashes, next, |c.keys|)
    ensures Grouped(ids, index, hashes, done + [g], next + |c.keys|)
  {
    hide Numbered;
    forall k | 0 <= k < |ids| && index[k] in done + [g]
      ensures ids[k].Some? && ids[k].value < next + |c.keys| && hashes[k].Some?
      ensures index[k] == g <==> ids[k].value >= next
    {
      if index[k] == g {
        var j := NewRow(ids, before, c, index, hashes, g, next, k);
      } else {
        OldRow(ids, before, c, index, hashes, g, next, k);
      }
    }
    forall j, k | 0 <= j < |ids| && 0 <= k < |ids| && index[j] in done + [g] && index[k] in done + [g]
      ensures ids[j] == ids[k] <==> index[j] == index[k] && hashes[j] == hashes[k]
    {
      if index[j] == g && index[k] == g {
        var p := NewRow(ids, before, c, index, hashes, g, next, j);
        var q := NewRow(ids, before, c, index, hashes, g, next, k);
        assert c.keys[p] == c.keys[q] <==> p == q;
      } else if index[j] != g && index[k] != g {
        OldRow(ids, before, c, index, hashes, g, next, j);
        OldRow(ids, before, c, index, hashes, g, next, k);
      }
    }
  }

  lemma RowsHashed<G, H>(index: seq<G>, hashes: seq<Option<H>>, g: G)
    requires |index| == |hashes|
    ensures (forall t :: 0 <= t < |Where(index, g)| ==> hashes[Where(index, g)[t]].Some?)
       <==> (forall k :: 0 <= k < |index| && index[k] == g ==> hashes[k].Some?)
  {
    forall k | 0 <= k < |index| && index[k] == g
      ensures k in Where(index, g)
    {
      WhereRank(index, k);
    }
  }

  lemma GroupedNone<G, H>(ids: seq<Option<nat>>, index: seq<G>, hashes: seq<Option<H>>, next: nat)
    requires |ids| == |index| == |hashes|
    ensures Grouped(ids, index, hashes, [], next)
  {
  }

  lemma GroupedAll<G>(ids: seq<Option<nat>>, anchors: seq<Obs>, index: seq<G>, order: seq<G>, next: nat)
    requires |ids| == |index| == |anchors| && Lists(order, index)
    requires Grouped(ids, index, Hashes(anchors), order[..|order|], next)
    ensures forall k :: 0 <= k < |ids| ==> ids[k].Some? && Hashes(anchors)[k].Some?
    ensures StepPartition(seq(|ids|, k requires 0 <= k < |ids| && ids[k].Some? => ids[k].value), anchors, index)
  {
    hide ToHashable;
    assert order[..|order|] == order;
    assert forall k :: 0 <= k < |index| ==> index[k] in order;
  }

  // Clusters the rows of every task by their canonical anchor and numbers the clusters from the
  // first unused id on. Fails exactly when some anchor has no canonical form; no row is missed.
  method BuildStepGroup<G(==)>(anchors: seq<Obs>, index: seq<G>, order: seq<G>, unused: nat)
    returns (r: Result<seq<nat>, GroupError>)
    requires |anchors| == |index| && Lists(order, index)
    ensures r.Err? <==> exists k :: 0 <= k < |anchors| && Hashes(anchors)[k].None?
    ensures r.Err? ==> r.error == UnhashableAnchor
    ensures r.Ok? ==> StepPartition(r.value, anchors, index)
  {
    hide Clustered, Numbered, Grouped, ToHashable;
    var n := |anchors|;
    var ids := new Option<nat>[n](_ => None);
    var next := unused;
    GroupedNone(ids[..], index, Hashes(anchors), next);
    for i := 0 to |order|
      invariant Grouped(ids[..], index, Hashes(anchors), order[..i], next)
    {
      RowsHashed(index, Hashes(anchors), order[i]);
      var c := ClusterRows(Where(index, order[i]), anchors);
      if c.None? {
        return Err(UnhashableAnchor);
      }
      ghost var before := ids[..];
      ghost var from := next;
      next := NumberClusters(ids, c.value, Where(index, order[i]), Hashes(anchors), next);
      GroupedStep(ids[..], before, c.value, index, Hashes(anchors), order[..i], order[i], from);
      assert order[..i + 1] == order[..i] + [order[i]];
    }
    GroupedAll(ids[..], anchors, index, order, next);
    if exists k :: 0 <= k < n && ids[k].None? {
      return Err(MissingGroup);
    }
    return Ok(seq(n, k requires 0 <= k < n && ids[k].Some? reads ids => ids[k].value));
  }

  // Step groups refine episode groups: one step group never spans two tasks.
  lemma RefinesEpisodes<G>(ids: seq<nat>, anchors: seq<Obs>, index: seq<G>, j: nat, k: nat)
    requires StepPartition(ids, anchors, index) && j < |ids| && k < |ids|
    requires ids[j] == ids[k]
    ensures index[j] == index[k]
  {
  }

  // Dictionary key order in an anchor never splits a group.
  lemma KeyOrderKeepsGroup<G>(ids: seq<nat>, anchors: seq<Obs>, index: seq<G>, j: nat, k: nat)
    requires StepPartition(ids, anchors, index) && j < |ids| && k < |ids|
    requires index[j] == index[k] && WellFormed(anchors[j]) && WellFormed(anchors[k]) && SameObs(anchors[j], anchors[k])
    ensures ids[j] == ids[k]
  {
    KeyOrderIrrelevant(anchors[j], anchors[k]);
  }

  // A step group never merges two different observations of one form.
  lemma FormSeparatesGroups<G>(ids: seq<nat>, anchors: seq<Obs>, index: seq<G>, j: nat, k: nat)
    requires StepPartition(ids, anchors, index) && j < |ids| && k < |ids|
    requires WellFormed(anchors[j]) && WellFormed(anchors[k]) && ToHashable(anchors[j]).Some?
    requires SameForm(anchors[j], anchors[k])
    ensures ids[j] == ids[k] <==> index[j] == index[k] && SameObs(anchors[j], anchors[k])
  {
    HashExactly(anchors[j], anchors[k]);
  }
}
