/** Moving a module's parameters into flat buffers without losing their weights. */
module ModuleBuffers {
  import opened BufferLayout
  import opened MemoryBuffers

  class Parameter<W> {
    const meta: Meta
    var data: View<W>

    constructor (meta: Meta, data: View<W>)
      ensures this.meta == meta && this.data == data
    {
      this.meta, this.data := meta, data;
    }
  }

  function Metas<W>(params: seq<Parameter<W>>): (metas: seq<Meta>)
    ensures |metas| == |params| && forall k :: 0 <= k < |params| ==> metas[k] == params[k].meta
  {
    seq(|params|, k requires 0 <= k < |params| => params[k].meta)
  }

  // The view that parameter k gets.
  ghost function Home<W>(params: seq<Parameter<W>>, buffers: map<Dtype, MemoryBuffer<W>>, k: nat): View<W>
    requires k < |params| && params[k].meta.dtype in buffers
  {
    View(buffers[params[k].meta.dtype].data, Start(Metas(params), k), params[k].meta.numel)
  }

  ghost predicate AllFit<W>(params: seq<Parameter<W>>, buffers: map<Dtype, MemoryBuffer<W>>, n: nat)
    requires n <= |params|
  {
    forall k :: 0 <= k < n ==> Fits(buffers, Metas(params), k)
  }

  ghost predicate Whole<W>(buffers: map<Dtype, MemoryBuffer<W>>) {
    forall d :: d in buffers ==> buffers[d].numel == buffers[d].data.Length
  }

  // The parameters are distinct objects holding whole weights, each outside the buffers or
  // already in its place there.
  ghost predicate OwnWeights<W>(params: seq<Parameter<W>>, buffers: map<Dtype, MemoryBuffer<W>>)
    reads params
  {
    && (forall j, k :: 0 <= j < k < |params| ==> params[j] != params[k])
    && (forall k :: 0 <= k < |params| ==> InStorage(params[k].data) && params[k].data.numel == params[k].meta.numel)
    && (forall k, d :: 0 <= k < |params| && d in buffers && params[k].data.storage == buffers[d].data ==>
          params[k].meta.dtype in buffers && params[k].data == Home(params, buffers, k))
  }

  // `buffer.copy_(param.data)`.
  method CopyInto<W>(view: View<W>, source: View<W>)
    requires InStorage(view) && InStorage(source) && view.numel == source.numel
    requires view.storage == source.storage ==> view == source
    modifies view.storage
    ensures Contents(view) == old(Contents(source))
    ensures forall i :: 0 <= i < view.storage.Length && !(view.start <= i < view.start + view.numel) ==>
      view.storage[i] == old(view.storage[i])
  {
    for i := 0 to view.numel
      invariant view.storage[view.start..view.start + i] == old(source.storage[source.start..source.start + i])
      invariant forall j :: 0 <= j < view.storage.Length && !(view.start <= j < view.start + i) ==>
        view.storage[j] == old(view.storage[j])
    {
      assert old(source.storage[source.start..source.start + i + 1])
          == old(source.storage[source.start..source.start + i]) + [source.storage[source.start + i]];
      view.storage[view.start + i] := source.storage[source.start + i];
    }
  }

  lemma HomesDisjoint<W>(params: seq<Parameter<W>>, buffers: map<Dtype, MemoryBuffer<W>>, j: nat, k: nat)
    requires Separate(buffers) && j < k < |params|
    requires params[j].meta.dtype in buffers && params[k].meta.dtype in buffers
    ensures Home(params, buffers, j).storage == Home(params, buffers, k).storage ==>
      Home(params, buffers, j).start + Home(params, buffers, j).numel <= Home(params, buffers, k).start
  {
    if params[j].meta.dtype == params[k].meta.dtype {
      Disjoint(Metas(params), j, k);
    }
  }

  lemma HomeInStorage<W>(params: seq<Parameter<W>>, buffers: map<Dtype, MemoryBuffer<W>>, k: nat)
    requires k < |params| && Fits(buffers, Metas(params), k) && Whole(buffers)
    ensures InStorage(Home(params, buffers, k))
    ensures Home(params, buffers, k)
         == View(buffers[Metas(params)[k].dtype].data, Start(Metas(params), k), Metas(params)[k].numel)
  {
  }

  // Copies a parameter's weights into its place in the buffer, if asked to, and points the
  // parameter at that place.
  method Move<W>(param: Parameter<W>, home: View<W>, maintainWeight: bool)
    requires InStorage(home) && InStorage(param.data) && home.numel == param.data.numel
    requires home.storage == param.data.storage ==> home == param.data
    modifies param, home.storage
    ensures param.data == home
    ensures maintainWeight ==> Contents(home) == old(Contents(param.data))
    ensures !maintainWeight ==> home.storage[..] == old(home.storage[..])
    ensures forall i :: 0 <= i < home.storage.Length && !(home.start <= i < home.start + home.numel) ==>
      home.storage[i] == old(home.storage[i])
  {
    if maintainWeight {
      CopyInto(home, param.data);
    }
    param.data := home;
  }

  lemma RangeKept<W>(before: seq<W>, after: seq<W>, lo: nat, hi: nat, start: nat, end: nat)
    requires |before| == |after| && lo <= hi <= |before| && start <= end && (hi <= start || end <= lo)
    requires forall i :: 0 <= i < |before| && !(start <= i < end) ==> after[i] == before[i]
    ensures after[lo..hi] == before[lo..hi]
  {
  }

  // The parameter reads from its place in the buffers, and reads its weights there.
  ghost predicate Holds<W>(p: Parameter<W>, home: View<W>, weights: seq<W>, maintainWeight: bool)
    reads p, home.storage
  {
    p.data == home && InStorage(home) && (maintainWeight ==> Contents(home) == weights)
  }

  // The parameter still reads its weights from where they were.
  ghost predicate Waits<W>(p: Parameter<W>, view: View<W>, weights: seq<W>)
    reads p, view.storage
  {
    p.data == view && InStorage(view) && Contents(view) == weights
  }

  // Distinct parameters; places that follow one another in each storage; originals elsewhere or
  // already in place.
  ghost predicate Apart<W>(params: seq<Parameter<W>>, homes: seq<View<W>>, views: seq<View<W>>) {
    && |homes| == |views| == |params|
    && (forall j, k :: 0 <= j < k < |params| ==> params[j] != params[k])
    && (forall j, k :: 0 <= j < k < |homes| && homes[j].storage == homes[k].storage ==>
          homes[j].start + homes[j].numel <= homes[k].start)
    && (forall j, k :: 0 <= j < |homes| && 0 <= k < |views| && homes[j].storage == views[k].storage ==>
         views[k] == homes[k])
    && (forall k :: 0 <= k < |params| ==> homes[k].numel == views[k].numel)
  }

  ghost predicate Progress<W>(params: seq<Parameter<W>>, homes: seq<View<W>>, views: seq<View<W>>,
                              weights: seq<seq<W>>, maintainWeight: bool, k: nat)
    requires |homes| == |views| == |weights| == |params|
    reads params, set j | 0 <= j < |homes| :: homes[j].storage, set j | 0 <= j < |views| :: views[j].storage
  {
    && (forall j :: 0 <= j < k && j < |params| ==> Holds(params[j], homes[j], weights[j], maintainWeight))
    && (forall j :: k <= j < |params| ==> Waits(params[j], views[j], weights[j]))
  }

  ghost predicate Reads<W>(before: seq<W>, view: View<W>, weights: seq<W>) {
    view.start + view.numel <= |before| && before[view.start..view.start + view.numel] == weights
  }

  // Where the weights of the others can be read in the storage that parameter k moves into:
  // those placed before it below its place, those still to be placed above it.
  ghost predicate ReadBelow<W>(homes: seq<View<W>>, weights: seq<seq<W>>, before: seq<W>, home: View<W>, k: nat)
    requires |homes| == |weights|
  {
    forall j :: 0 <= j < k && j < |homes| && homes[j].storage == home.storage ==>
      Reads(before, homes[j], weights[j]) && homes[j].start + homes[j].numel <= home.start
  }

  ghost predicate ReadAbove<W>(views: seq<View<W>>, weights: seq<seq<W>>, before: seq<W>, home: View<W>, k: nat)
    requires |views| == |weights|
  {
    forall j :: k < j < |views| && views[j].storage == home.storage ==>
      Reads(before, views[j], weights[j]) && home.start + home.numel <= views[j].start
  }

  lemma ReadsAround<W>(params: seq<Parameter<W>>, homes: seq<View<W>>, views: seq<View<W>>, weights: seq<seq<W>>,
                       maintainWeight: bool, k: nat)
    requires Apart(params, homes, views) && |weights| == |params| && k < |params| && InStorage(homes[k])
    requires Progress(params, homes, views, weights, maintainWeight, k)
    ensures Waits(params[k], views[k], weights[k])
    ensures maintainWeight ==> ReadBelow(homes, weights, homes[k].storage[..], homes[k], k)
    ensures ReadAbove(views, weights, homes[k].storage[..], homes[k], k)
  {
    forall j | 0 <= j < k && maintainWeight && homes[j].storage == homes[k].storage
      ensures Reads(homes[k].storage[..], homes[j], weights[j])
    {
      assert Holds(params[j], homes[j], weights[j], true);
    }
    forall j | k < j < |params| && views[j].storage == homes[k].storage
      ensures Reads(homes[k].storage[..], views[j], weights[j])
    {
      assert Waits(params[j], views[j], weights[j]);
    }
  }

  lemma HoldsStill<W>(p: Parameter<W>, earlier: View<W>, weights: seq<W>, before: seq<W>, home: View<W>)
    requires p.data == earlier && earlier.storage == home.storage && |before| == home.storage.Length
    requires Reads(before, earlier, weights) && earlier.start + earlier.numel <= home.start
    requires forall i :: 0 <= i < |before| && !(home.start <= i < home.start + home.numel) ==>
        home.storage[i] == before[i]
    ensures Holds(p, earlier, weights, true)
  {
    RangeKept(before, home.storage[..], earlier.start, earlier.start + earlier.numel, home.start,
              home.start + home.numel);
  }

  lemma WaitsStill<W>(p: Parameter<W>, later: View<W>, weights: seq<W>, before: seq<W>, home: View<W>)
    requires p.data == later && later.storage == home.storage && |before| == home.storage.Length
    requires Reads(before, later, weights) && home.start + home.numel <= later.start
    requires forall i :: 0 <= i < |before| && !(home.start <= i < home.start + home.numel) ==>
        home.storage[i] == before[i]
    ensures Waits(p, later, weights)
  {
    RangeKept(before, home.storage[..], later.start, later.start + later.numel, home.start, home.start + home.numel);
  }

  method MoveNext<W>(params: seq<Parameter<W>>, home: View<W>, k: nat, maintainWeight: bool, ghost homes: seq<View<W>>,
                     ghost views: seq<View<W>>, ghost weights: seq<seq<W>>)
    requires Apart(params, homes, views) && |weights| == |params| && k < |params| && home == homes[k] && InStorage(home)
    requires Progress(params, homes, views, weights, maintainWeight, k)
    modifies params[k], home.storage
    ensures Progress(params, homes, views, weights, maintainWeight, k + 1)
    ensures !maintainWeight ==> home.storage[..] == old(home.storage[..])
  {
    hide Reads;
    ghost var before := home.storage[..];
    ReadsAround(params, homes, views, weights, maintainWeight, k);
    Move(params[k], home, maintainWeight);
    forall j | 0 <= j < k
      ensures Holds(params[j], homes[j], weights[j], maintainWeight)
    {
      assert old(Holds(params[j], homes[j], weights[j], maintainWeight));
      if homes[j].storage == home.storage && maintainWeight {
        HoldsStill(params[j], homes[j], weights[j], before, home);
      }
    }
    forall j | k < j < |params|
      ensures Waits(params[j], views[j], weights[j])
    {
      assert old(Waits(params[j], views[j], weights[j]));
      if views[j].storage == home.storage {
        WaitsStill(params[j], views[j], weights[j], before, home);
      }
    }
  }

  // The places of all parameters, whether or not the buffers have room for them.
  ghost function Homes<W>(params: seq<Parameter<W>>, buffers: map<Dtype, MemoryBuffer<W>>): (homes: seq<View<W>>)
    requires forall k :: 0 <= k < |params| ==> params[k].meta.dtype in buffers
    ensures |homes| == |params| && forall k :: 0 <= k < |params| ==> homes[k] == Home(params, buffers, k)
  {
    seq(|params|, k requires 0 <= k < |params| && params[k].meta.dtype in buffers => Home(params, buffers, k))
  }

  ghost function Views<W>(params: seq<Parameter<W>>): (views: seq<View<W>>)
    reads params
    ensures |views| == |params| && forall k :: 0 <= k < |params| ==> views[k] == params[k].data
  {
    seq(|params|, k requires 0 <= k < |params| reads params => params[k].data)
  }

  ghost function Weights<W>(params: seq<Parameter<W>>): (weights: seq<seq<W>>)
    requires forall k :: 0 <= k < |params| ==> InStorage(params[k].data)
    reads params, set k | 0 <= k < |params| :: params[k].data.storage
    ensures |weights| == |params| && forall k :: 0 <= k < |params| ==> weights[k] == Contents(params[k].data)
  {
    seq(|params|, k requires 0 <= k < |params| && InStorage(params[k].data)
      reads params, set j | 0 <= j < |params| :: params[j].data.storage =>
      Contents(params[k].data))
  }

  lemma HomesApart<W>(params: seq<Parameter<W>>, buffers: map<Dtype, MemoryBuffer<W>>)
    requires OwnWeights(params, buffers) && Separate(buffers)
    requires forall k :: 0 <= k < |params| ==> params[k].meta.dtype in buffers
    ensures Apart(params, Homes(params, buffers), Views(params))
    ensures Progress(params, Homes(params, buffers), Views(params), Weights(params), true, 0)
    ensures Progress(params, Homes(params, buffers), Views(params), Weights(params), false, 0)
  {
    hide Start;
    forall j, k | 0 <= j < k < |params| && Home(params, buffers, j).storage == Home(params, buffers, k).storage
      ensures Home(params, buffers, j).start + Home(params, buffers, j).numel <= Home(params, buffers, k).start
    {
      HomesDisjoint(params, buffers, j, k);
    }
  }

  // The buffers hold what they held.
  ghost predicate Untouched<W>(buffers: map<Dtype, MemoryBuffer<W>>, held: map<Dtype, seq<W>>)
    reads set d | d in buffers :: buffers[d].data
  {
    held.Keys == buffers.Keys && forall d :: d in buffers ==> buffers[d].data[..] == held[d]
  }

  ghost function Held<W>(buffers: map<Dtype, MemoryBuffer<W>>): (held: map<Dtype, seq<W>>)
    reads set d | d in buffers :: buffers[d].data
    ensures Untouched(buffers, held)
  {
    map d | d in buffers :: buffers[d].data[..]
  }

  // One parameter: its view, the cursor past it, and the move.
  method PlaceAndMove<W>(params: seq<Parameter<W>>, metas: seq<Meta>, buffers: map<Dtype, MemoryBuffer<W>>,
                         cursors: map<Dtype, nat>, k: nat, maintainWeight: bool, ghost homes: seq<View<W>>,
                         ghost views: seq<View<W>>, ghost weights: seq<seq<W>>, ghost held: map<Dtype, seq<W>>)
    returns (next: map<Dtype, nat>)
    requires metas == Metas(params) && k < |params| && Fits(buffers, metas, k) && Whole(buffers)
    requires CursorsAt(cursors, buffers, metas, k)
    requires Apart(params, homes, views) && |weights| == |params| && homes[k] == Home(params, buffers, k)
    requires Progress(params, homes, views, weights, maintainWeight, k)
    requires !maintainWeight ==> Untouched(buffers, held)
    modifies params[k], buffers[metas[k].dtype].data
    ensures CursorsAt(next, buffers, metas, k + 1)
    ensures Progress(params, homes, views, weights, maintainWeight, k + 1)
    ensures !maintainWeight ==> Untouched(buffers, held)
  {
    hide CursorsAt, Apart, Start;
    var view;
    view, next := Place(metas, k, buffers, cursors);
    HomeInStorage(params, buffers, k);
    MoveNext(params, view.value, k, maintainWeight, homes, views, weights);
  }

  ghost predicate AreHomes<W>(homes: seq<View<W>>, params: seq<Parameter<W>>, buffers: map<Dtype, MemoryBuffer<W>>) {
    |homes| == |params| && forall k :: 0 <= k < |params| ==>
      params[k].meta.dtype in buffers && homes[k] == Home(params, buffers, k)
  }

  lemma HomeFits<W>(homes: seq<View<W>>, params: seq<Parameter<W>>, buffers: map<Dtype, MemoryBuffer<W>>, k: nat)
    requires AreHomes(homes, params, buffers) && AllFit(params, buffers, |params|) && k < |params|
    ensures Fits(buffers, Metas(params), k) && params[k].meta.dtype in buffers
    ensures |homes| == |params| && homes[k] == Home(params, buffers, k)
  {
  }

  // The loop over the parameters.
  method PlaceAll<W>(params: seq<Parameter<W>>, buffers: map<Dtype, MemoryBuffer<W>>, maintainWeight: bool,
                     ghost homes: seq<View<W>>, ghost views: seq<View<W>>, ghost weights: seq<seq<W>>,
                     ghost held: map<Dtype, seq<W>>)
    requires AllFit(params, buffers, |params|) && Whole(buffers) && AreHomes(homes, params, buffers)
    requires Apart(params, homes, views) && |weights| == |views| == |homes| == |params|
    requires Progress(params, homes, views, weights, maintainWeight, 0) && Untouched(buffers, held)
    modifies params, set d | d in buffers :: buffers[d].data
    ensures Progress(params, homes, views, weights, maintainWeight, |params|)
    ensures !maintainWeight ==> Untouched(buffers, held)
  {
    hide *;
    var metas := Metas(params);
    var cursors: map<Dtype, nat> := map d | d in buffers :: 0;
    CursorsStart(cursors, buffers, metas);
    for k := 0 to |params|
      invariant CursorsAt(cursors, buffers, metas, k)
      invariant Progress(params, homes, views, weights, maintainWeight, k)
      invariant !maintainWeight ==> Untouched(buffers, held)
    {
      HomeFits(homes, params, buffers, k);
      cursors := PlaceAndMove(params, metas, buffers, cursors, k, maintainWeight, homes, views, weights, held);
    }
  }

  lemma AllFitDtypes<W>(params: seq<Parameter<W>>, buffers: map<Dtype, MemoryBuffer<W>>)
    requires AllFit(params, buffers, |params|)
    ensures forall k :: 0 <= k < |params| ==> params[k].meta.dtype in buffers
  {
    forall k | 0 <= k < |params|
      ensures params[k].meta.dtype in buffers
    {
      assert Fits(buffers, Metas(params), k);
    }
  }

  // Places the parameters one after the other, and with `maintain_weight` carries their weights
  // along; without it the parameters read whatever the buffers hold.
  method BuildMemoryReferenceFromModule<W>(params: seq<Parameter<W>>, buffers: map<Dtype, MemoryBuffer<W>>,
                                           maintainWeight: bool)
    requires OwnWeights(params, buffers) && Separate(buffers) && Whole(buffers)
    requires AllFit(params, buffers, |params|)
    modifies params, set d | d in buffers :: buffers[d].data
    ensures forall k :: 0 <= k < |params| ==> params[k].meta.dtype in buffers
    ensures Progress(params, Homes(params, buffers), old(Views(params)), old(Weights(params)), maintainWeight, |params|)
    ensures !maintainWeight ==> Untouched(buffers, old(Held(buffers)))
  {
    hide Apart, Progress, Home, Fits;
    AllFitDtypes(params, buffers);
    HomesApart(params, buffers);
    PlaceAll(params, buffers, maintainWeight, Homes(params, buffers), Views(params), Weights(params),
             Held(buffers));
  }

  // Distinct parameters, each holding whole weights.
  ghost predicate WholeWeights<W>(params: seq<Parameter<W>>)
    reads params
  {
    && (forall j, k :: 0 <= j < k < |params| ==> params[j] != params[k])
    && (forall k :: 0 <= k < |params| ==> InStorage(params[k].data) && params[k].data.numel == params[k].meta.numel)
  }

  lemma SizedForModule<W>(params: seq<Parameter<W>>, buffers: map<Dtype, MemoryBuffer<W>>)
    requires Sized(buffers, Metas(params))
    ensures AllFit(params, buffers, |params|) && Whole(buffers)
  {
    forall k | 0 <= k < |params|
      ensures Fits(buffers, Metas(params), k)
    {
      SizedFits(buffers, Metas(params), k);
    }
  }

  lemma EveryoneHolds<W>(params: seq<Parameter<W>>, homes: seq<View<W>>, views: seq<View<W>>, weights: seq<seq<W>>,
                         k: nat)
    requires |homes| == |views| == |weights| == |params| && k < |params|
    requires Progress(params, homes, views, weights, true, |params|)
    ensures Holds(params[k], homes[k], weights[k], true)
  {
  }

  // Builds buffers for a module and moves its parameters in: no request is out of range, and
  // every parameter still reads its original weights, from its place in the buffers.
  method WrapModule<W>(params: seq<Parameter<W>>, zero: W) returns (buffers: map<Dtype, MemoryBuffer<W>>)
    requires WholeWeights(params)
    modifies params
    ensures Sized(buffers, Metas(params)) && Separate(buffers)
    ensures forall k :: 0 <= k < |params| ==> params[k].meta.dtype in buffers
    ensures forall k :: 0 <= k < |params| ==> params[k].data == Home(params, buffers, k) && InStorage(params[k].data)
    ensures forall k :: 0 <= k < |params| ==> Contents(params[k].data) == old(Contents(params[k].data))
  {
    hide Sized, Separate, Progress, Home, AllFit, Whole, Fits;
    buffers := BuildMemoryBuffer(Metas(params), zero);
    SizedForModule(params, buffers);
    AllFitDtypes(params, buffers);
    ghost var views, weights := Views(params), Weights(params);
    BuildMemoryReferenceFromModule(params, buffers, true);
    forall k | 0 <= k < |params|
      ensures Holds(params[k], Homes(params, buffers)[k], weights[k], true)
    {
      EveryoneHolds(params, Homes(params, buffers), views, weights, k);
    }
  }
}
