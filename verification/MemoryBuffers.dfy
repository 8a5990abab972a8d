/** Flat memory buffers, one per type, that a module's parameters are moved into. */
module MemoryBuffers {
  import opened Wrappers
  import opened BufferLayout

  datatype BufferError = OutOfRange | NoBuffer

  // A buffer never changes size; only what its elements hold changes.
  class MemoryBuffer<W> {
    const numel: nat
    const data: array<W>

    constructor (numel: nat, zero: W)
      ensures this.numel == numel && data.Length == numel && fresh(data)
      ensures forall i :: 0 <= i < numel ==> data[i] == zero
    {
      this.numel := numel;
      data := new W[numel](_ => zero);
    }

    // A view of the given length, or a failed assertion.
    method Get(numel: nat, start: nat) returns (r: Result<View<W>, BufferError>)
      ensures r == if start + numel <= this.numel then Ok(View(data, start, numel)) else Err(OutOfRange)
    {
      if start + numel > this.numel {
        return Err(OutOfRange);
      }
      return Ok(View(data, start, numel));
    }
  }

  // A stretch of some storage.
  datatype View<!W> = View(storage: array<W>, start: nat, numel: nat)

  predicate InStorage<W>(v: View<W>) {
    v.start + v.numel <= v.storage.Length
  }

  function Contents<W>(v: View<W>): seq<W>
    requires InStorage(v)
    reads v.storage
  {
    v.storage[v.start..v.start + v.numel]
  }

  // ----- Sizing -----

  function DtypesOf(metas: seq<Meta>, n: nat): (s: set<Dtype>)
    requires n <= |metas|
    ensures forall k :: 0 <= k < n ==> metas[k].dtype in s
  {
    if n == 0 then {} else DtypesOf(metas, n - 1) + {metas[n - 1].dtype}
  }

  method TotalNumel(metas: seq<Meta>) returns (totals: map<Dtype, nat>)
    ensures totals.Keys == DtypesOf(metas, |metas|)
    ensures forall d :: d in totals ==> totals[d] == Total(metas, d, |metas|)
  {
    hide PaddedNumel;
    totals := map[];
    for k := 0 to |metas|
      invariant totals.Keys == DtypesOf(metas, k)
      invariant forall d :: d in totals ==> totals[d] == Total(metas, d, k)
      invariant forall d :: d !in totals ==> Total(metas, d, k) == 0
    {
      var dtype := metas[k].dtype;
      if dtype !in totals {
        totals := totals[dtype := 0];
      }
      totals := totals[dtype := totals[dtype] + PaddedNumel(metas[k])];
    }
  }

  // One buffer per type, each as large as the sizing pass found, no two sharing storage.
  ghost predicate Separate<W>(buffers: map<Dtype, MemoryBuffer<W>>) {
    forall d, e :: d in buffers && e in buffers && d != e ==> buffers[d].data != buffers[e].data
  }

  ghost predicate RightSizes<W>(buffers: map<Dtype, MemoryBuffer<W>>, metas: seq<Meta>) {
    forall d :: d in buffers ==> buffers[d].numel == buffers[d].data.Length == Total(metas, d, |metas|)
  }

  ghost predicate Sized<W>(buffers: map<Dtype, MemoryBuffer<W>>, metas: seq<Meta>) {
    buffers.Keys == DtypesOf(metas, |metas|) && RightSizes(buffers, metas)
  }

  lemma OneMoreBuffer<W>(buffers: map<Dtype, MemoryBuffer<W>>, metas: seq<Meta>, d: Dtype, buffer: MemoryBuffer<W>)
    requires RightSizes(buffers, metas) && Separate(buffers) && d !in buffers
    requires buffer.numel == buffer.data.Length == Total(metas, d, |metas|)
    requires forall e :: e in buffers ==> buffers[e].data != buffer.data
    ensures RightSizes(buffers[d := buffer], metas) && Separate(buffers[d := buffer])
  {
  }

  lemma NoBuffers<W>(metas: seq<Meta>)
    ensures RightSizes<W>(map[], metas) && Separate<W>(map[])
  {
  }

  method BuildMemoryBuffer<W>(metas: seq<Meta>, zero: W) returns (buffers: map<Dtype, MemoryBuffer<W>>)
    ensures Sized(buffers, metas) && Separate(buffers)
    ensures forall d :: d in buffers ==> fresh(buffers[d].data)
  {
    hide Total, DtypesOf, RightSizes, Separate;
    var totals := TotalNumel(metas);
    buffers := map[];
    NoBuffers<W>(metas);
    var remaining := totals.Keys;
    while remaining != {}
      invariant buffers.Keys == totals.Keys - remaining && remaining <= totals.Keys
      invariant RightSizes(buffers, metas) && Separate(buffers)
      invariant forall d :: d in buffers ==> fresh(buffers[d].data)
      decreases |remaining|
    {
      var d :| d in remaining;
      var buffer := new MemoryBuffer(totals[d], zero);
      OneMoreBuffer(buffers, metas, d, buffer);
      buffers := buffers[d := buffer];
      remaining := remaining - {d};
    }
  }

  // ----- References -----

  // The views of the first n parameters.
  ghost predicate Referenced<W>(views: seq<View<W>>, buffers: map<Dtype, MemoryBuffer<W>>, metas: seq<Meta>, n: nat)
    requires n <= |metas|
  {
    |views| == n && forall k :: 0 <= k < n ==>
      metas[k].dtype in buffers && views[k] == View(buffers[metas[k].dtype].data, Start(metas, k), metas[k].numel)
  }

  ghost predicate Fits<W>(buffers: map<Dtype, MemoryBuffer<W>>, metas: seq<Meta>, k: nat)
    requires k < |metas|
  {
    metas[k].dtype in buffers && Start(metas, k) + metas[k].numel <= buffers[metas[k].dtype].numel
  }

  // Every cursor stands where the sizing pass stood after k parameters.
  ghost predicate CursorsAt<W>(cursors: map<Dtype, nat>, buffers: map<Dtype, MemoryBuffer<W>>, metas: seq<Meta>, k: nat)
    requires k <= |metas|
  {
    cursors.Keys == buffers.Keys && forall d :: d in cursors ==> cursors[d] == Total(metas, d, k)
  }

  lemma CursorsStart<W>(cursors: map<Dtype, nat>, buffers: map<Dtype, MemoryBuffer<W>>, metas: seq<Meta>)
    requires cursors.Keys == buffers.Keys && forall d :: d in cursors ==> cursors[d] == 0
    ensures CursorsAt(cursors, buffers, metas, 0)
  {
  }

  lemma CursorHere<W>(cursors: map<Dtype, nat>, buffers: map<Dtype, MemoryBuffer<W>>, metas: seq<Meta>, k: nat)
    requires k < |metas| && CursorsAt(cursors, buffers, metas, k) && metas[k].dtype in buffers
    ensures metas[k].dtype in cursors && cursors[metas[k].dtype] == Start(metas, k)
    ensures CursorsAt(cursors[metas[k].dtype := Start(metas, k) + PaddedNumel(metas[k])], buffers, metas, k + 1)
  {
    hide PaddedNumel;
  }

  lemma NothingReferenced<W>(buffers: map<Dtype, MemoryBuffer<W>>, metas: seq<Meta>)
    ensures Referenced<W>([], buffers, metas, 0)
  {
  }

  lemma OneMoreView<W>(views: seq<View<W>>, buffers: map<Dtype, MemoryBuffer<W>>, metas: seq<Meta>, k: nat)
    requires k < |metas| && Referenced(views, buffers, metas, k) && metas[k].dtype in buffers
    ensures Referenced(views + [View(buffers[metas[k].dtype].data, Start(metas, k), metas[k].numel)], buffers, metas,
                       k + 1)
  {
    hide Start;
  }

  // Takes the view at the cursor and moves the cursor past the padded elements.
  method Place<W>(metas: seq<Meta>, k: nat, buffers: map<Dtype, MemoryBuffer<W>>, cursors: map<Dtype, nat>)
    returns (r: Result<View<W>, BufferError>, next: map<Dtype, nat>)
    requires k < |metas| && CursorsAt(cursors, buffers, metas, k)
    ensures r.Ok? <==> Fits(buffers, metas, k)
    ensures r.Ok? ==> r.value == View(buffers[metas[k].dtype].data, Start(metas, k), metas[k].numel)
    ensures r.Ok? ==> CursorsAt(next, buffers, metas, k + 1)
  {
    hide PaddedNumel, CursorsAt, Total;
    var meta := metas[k];
    next := cursors;
    if meta.dtype !in buffers {
      return Err(NoBuffer), next;
    }
    CursorHere(cursors, buffers, metas, k);
    r := buffers[meta.dtype].Get(meta.numel, cursors[meta.dtype]);
    next := cursors[meta.dtype := cursors[meta.dtype] + PaddedNumel(meta)];
  }

  lemma FittingDtype<W>(buffers: map<Dtype, MemoryBuffer<W>>, metas: seq<Meta>, k: nat)
    requires k < |metas| && Fits(buffers, metas, k)
    ensures metas[k].dtype in buffers
  {
  }

  // In buffers of the right sizes the cursors end where the buffers end.
  lemma CursorsFill<W>(cursors: map<Dtype, nat>, buffers: map<Dtype, MemoryBuffer<W>>, metas: seq<Meta>)
    requires CursorsAt(cursors, buffers, metas, |metas|) && Sized(buffers, metas)
    ensures forall d :: d in buffers ==> d in cursors && cursors[d] == buffers[d].numel
  {
  }

  // A cursor per buffer; parameters are placed one after the other, each padded.
  method BuildMemoryReference<W>(metas: seq<Meta>, buffers: map<Dtype, MemoryBuffer<W>>)
    returns (r: Result<seq<View<W>>, BufferError>, cursors: map<Dtype, nat>)
    ensures r.Ok? <==> forall k :: 0 <= k < |metas| ==> Fits(buffers, metas, k)
    ensures r.Ok? ==> Referenced(r.value, buffers, metas, |metas|)
    ensures r.Ok? ==> CursorsAt(cursors, buffers, metas, |metas|)
    ensures r.Ok? && Sized(buffers, metas) ==> forall d :: d in buffers ==>
        d in cursors && cursors[d] == buffers[d].numel
  {
    hide CursorsAt, Referenced, Fits, Sized;
    cursors := map d | d in buffers :: 0;
    var views: seq<View<W>> := [];
    CursorsStart(cursors, buffers, metas);
    NothingReferenced(buffers, metas);
    for k := 0 to |metas|
      invariant CursorsAt(cursors, buffers, metas, k)
      invariant forall j :: 0 <= j < k ==> Fits(buffers, metas, j)
      invariant Referenced(views, buffers, metas, k)
    {
      var view, next := Place(metas, k, buffers, cursors);
      if view.Err? {
        return Err(view.error), cursors;
      }
      FittingDtype(buffers, metas, k);
      OneMoreView(views, buffers, metas, k);
      views := views + [view.value];
      cursors := next;
    }
    if Sized(buffers, metas) {
      CursorsFill(cursors, buffers, metas);
    }
    return Ok(views), cursors;
  }

  // In buffers sized for the same parameters every request is in range.
  lemma SizedFits<W>(buffers: map<Dtype, MemoryBuffer<W>>, metas: seq<Meta>, k: nat)
    requires Sized(buffers, metas) && k < |metas|
    ensures Fits(buffers, metas, k)
  {
    InBoundsAligned(metas, k);
  }

  // Two parameters' views never share an element.
  lemma ViewsDisjoint<W>(views: seq<View<W>>, buffers: map<Dtype, MemoryBuffer<W>>, metas: seq<Meta>, j: nat, k: nat)
    requires Separate(buffers) && Referenced(views, buffers, metas, |metas|) && j < k < |metas|
    ensures views[j].storage == views[k].storage ==> views[j].start + views[j].numel <= views[k].start
  {
    if metas[j].dtype == metas[k].dtype {
      Disjoint(metas, j, k);
    }
  }
}
