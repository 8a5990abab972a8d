/**
 Renumbering the layers of a sharded checkpoint: chunk by chunk, virtual ranks outside and
 pipeline ranks inside, each chunk's local numbers are moved up by the layers merged so far.
 */
module CheckpointMerge {
  import opened Wrappers
  import opened Arith
  import opened SeqLib
  import opened LayerPlacement

  type Name = string

  // A key names a parameter of a numbered layer, the output layer, anything else, or extra state.
  datatype Key = Layer(number: nat, name: Name) | OutputLayer(name: Name) | Other(name: Name) | ExtraState(name: Name)

  ghost predicate HasLayer<V>(chunk: map<Key, V>, l: nat) {
    exists name :: Layer(l, name) in chunk
  }

  // The chunk numbers its layers 0 to n - 1, and the last of them, if any, has parameters.
  ghost predicate HoldsLayers<V>(chunk: map<Key, V>, n: nat) {
    && (forall key: Key :: key in chunk && key.Layer? ==> key.number < n)
    && (n >= 1 ==> HasLayer(chunk, n - 1))
  }

  // Extra state is dropped, and so is a tied output layer.
  predicate Kept(key: Key, tie: bool) {
    !key.ExtraState? && !(tie && key.OutputLayer?)
  }

  function Shifted(key: Key, shift: nat): Key {
    if key.Layer? then Layer(key.number + shift, key.name) else key
  }

  // The chunk's key that a key of the merged dictionary stems from.
  function Origin<V>(chunk: map<Key, V>, shift: nat, tie: bool, key: Key): Option<Key> {
    match key
    case Layer(number, name) =>
      if number >= shift && Layer(number - shift, name) in chunk then Some(Layer(number - shift, name)) else None
    case OutputLayer(_) => if key in chunk && !tie then Some(key) else None
    case Other(_) => if key in chunk then Some(key) else None
    case ExtraState(_) => None
  }

  // A fused weight is filed in parts, each under a name of its own; any other weight as a whole.
  datatype Part = Whole | Queries | Keys | Values | Gate | Up

  datatype Entry = Entry(key: Key, part: Part)

  ghost predicate Untouched<W>(before: map<Entry, W>, after: map<Entry, W>, entry: Entry) {
    (entry in after <==> entry in before) && (entry in after ==> after[entry] == before[entry])
  }

  // What one chunk contributes to the merged dictionary at an entry, and what it leaves alone.
  ghost predicate MergedAt<V, W>(chunk: map<Key, V>, shift: nat, tie: bool, merge: (Key, V) -> map<Part, W>,
                                 before: map<Entry, W>, after: map<Entry, W>, entry: Entry) {
    match Origin(chunk, shift, tie, entry.key)
    case Some(local) =>
      if local in chunk && entry.part in merge(entry.key, chunk[local])
      then entry in after && after[entry] == merge(entry.key, chunk[local])[entry.part]
      else Untouched(before, after, entry)
    case None => Untouched(before, after, entry)
  }

  ghost predicate ChunkMerged<V, W>(chunk: map<Key, V>, shift: nat, tie: bool, merge: (Key, V) -> map<Part, W>,
                                    before: map<Entry, W>, after: map<Entry, W>) {
    forall entry :: MergedAt(chunk, shift, tie, merge, before, after, entry)
  }

  // The part of a chunk whose keys were visited.
  ghost function Visited<V>(chunk: map<Key, V>, todo: set<Key>): map<Key, V> {
    map key | key in chunk && key !in todo :: chunk[key]
  }

  lemma NoneVisited<V, W>(chunk: map<Key, V>, shift: nat, tie: bool, merge: (Key, V) -> map<Part, W>,
                          before: map<Entry, W>)
    ensures ChunkMerged(Visited(chunk, chunk.Keys), shift, tie, merge, before, before)
  {
  }

  // The parts are filed under the key, and nothing else changes.
  ghost predicate FilesUnder<W>(was: map<Entry, W>, key: Key, parts: map<Part, W>, after: map<Entry, W>) {
    forall entry: Entry ::
      if entry.key == key && entry.part in parts then entry in after && after[entry] == parts[entry.part]
      else Untouched(was, after, entry)
  }

  lemma VisitOne<V, W>(chunk: map<Key, V>, todo: set<Key>, key: Key, shift: nat, tie: bool,
                       merge: (Key, V) -> map<Part, W>, before: map<Entry, W>, was: map<Entry, W>, after: map<Entry, W>)
    requires key in chunk && key in todo
    requires ChunkMerged(Visited(chunk, todo), shift, tie, merge, before, was)
    requires Kept(key, tie) ==> FilesUnder(was, Shifted(key, shift), merge(Shifted(key, shift), chunk[key]), after)
    requires !Kept(key, tie) ==> after == was
    ensures ChunkMerged(Visited(chunk, todo - {key}), shift, tie, merge, before, after)
  {
    forall entry
      ensures MergedAt(Visited(chunk, todo - {key}), shift, tie, merge, before, after, entry)
    {
      assert MergedAt(Visited(chunk, todo), shift, tie, merge, before, was, entry);
    }
  }

  method MergeChunk<V, W>(chunk: map<Key, V>, shift: nat, tie: bool, merge: (Key, V) -> map<Part, W>,
                          before: map<Entry, W>)
    returns (after: map<Entry, W>, handled: nat)
    ensures ChunkMerged(chunk, shift, tie, merge, before, after)
    ensures forall key: Key :: key in chunk && key.Layer? ==> key.number <= handled
    ensures handled == 0 || HasLayer(chunk, handled)
  {
    hide ChunkMerged;
    after, handled := before, 0;
    var todo := chunk.Keys;
    NoneVisited(chunk, shift, tie, merge, before);
    while todo != {}
      invariant todo <= chunk.Keys
      invariant ChunkMerged(Visited(chunk, todo), shift, tie, merge, before, after)
      invariant forall key: Key :: key in chunk && key.Layer? && key !in todo ==> key.number <= handled
      invariant handled == 0 || HasLayer(chunk, handled)
      decreases |todo|
    {
      var key :| key in todo;
      ghost var was := after;
      if Kept(key, tie) {
        if key.Layer? && key.number > handled {
          handled := key.number;
          assert Layer(handled, key.name) in chunk;
        }
        var newKey := Shifted(key, shift);
        var merged := merge(newKey, chunk[key]);
        after := after + map part | part in merged :: Entry(newKey, part) := merged[part];
      }
      VisitOne(chunk, todo, key, shift, tie, merge, before, was, after);
      todo := todo - {key};
    }
    assert Visited(chunk, {}) == chunk;
  }

  // ----- the running count -----

  // What the merger counts for a chunk of stage p: its layers, but one for a chunk without any.
  function Counted(c: Config, plan: Plan, p: nat): (n: nat)
    ensures n >= 1
  {
    if ChunkSize(c, plan, p) == 0 then 1 else ChunkSize(c, plan, p)
  }

  function CountBefore(c: Config, plan: Plan, p: nat): nat {
    if p == 0 then 0 else CountBefore(c, plan, p - 1) + Counted(c, plan, p - 1)
  }

  // The count when the merger comes to chunk (p, v).
  function Count(c: Config, plan: Plan, p: nat, v: nat): nat {
    MulSign(v, CountBefore(c, plan, c.pp));
    v * CountBefore(c, plan, c.pp) + CountBefore(c, plan, p)
  }

  lemma CountNext(c: Config, plan: Plan, p: nat, v: nat)
    requires p < c.pp
    ensures Count(c, plan, 0, 0) == 0
    ensures p + 1 < c.pp ==> Count(c, plan, p + 1, v) == Count(c, plan, p, v) + Counted(c, plan, p)
    ensures p + 1 == c.pp ==> Count(c, plan, 0, v + 1) == Count(c, plan, p, v) + Counted(c, plan, p)
  {
    assert CountBefore(c, plan, p + 1) == CountBefore(c, plan, p) + Counted(c, plan, p);
    Distribute(v, 1, CountBefore(c, plan, c.pp));
  }

  // The stages before p whose chunks hold no layer.
  function EmptyBefore(c: Config, plan: Plan, p: nat): nat {
    if p == 0 then 0 else EmptyBefore(c, plan, p - 1) + if ChunkSize(c, plan, p - 1) == 0 then 1 else 0
  }

  lemma {:induction false} EmptyStage(c: Config, plan: Plan, p: nat)
    ensures EmptyBefore(c, plan, p) > 0 <==> exists q: nat :: q < p && ChunkSize(c, plan, q) == 0
  {
    hide ChunkSize;
    if p > 0 {
      EmptyStage(c, plan, p - 1);
    }
  }

  lemma {:induction false} CountBeforeIs(c: Config, plan: Plan, p: nat)
    requires Fits(c, plan) && p <= c.pp
    ensures p < c.pp ==> CountBefore(c, plan, p) == Before(c, plan, p) + EmptyBefore(c, plan, p)
    ensures p == c.pp ==> CountBefore(c, plan, p) == Round(c, plan) + EmptyBefore(c, plan, p)
  {
    hide ChunkSize, Round;
    if p > 0 {
      CountBeforeIs(c, plan, p - 1);
      StagesFollow(c, plan, p - 1);
    }
  }

  // Every empty chunk that was merged puts the count one further ahead.
  lemma CountIs(c: Config, plan: Plan, p: nat, v: nat)
    requires Fits(c, plan) && p < c.pp
    ensures Count(c, plan, p, v)
         == Start(c, plan, p, v) + v * EmptyBefore(c, plan, c.pp) + EmptyBefore(c, plan, p)
  {
    hide Fits, Before, Round;
    CountBeforeIs(c, plan, p);
    CountBeforeIs(c, plan, c.pp);
    Distribute(Round(c, plan), EmptyBefore(c, plan, c.pp), v);
  }

  // No chunk with layers comes after one without.
  ghost predicate Gapless(c: Config, plan: Plan) {
    forall q: nat, w: nat, p: nat, v: nat ::
      q < c.pp && p < c.pp && w < c.Rounds() && v < c.Rounds() && Earlier(q, w, p, v) && ChunkSize(c, plan, q) == 0
      ==> ChunkSize(c, plan, p) == 0
  }

  lemma GapAhead(c: Config, plan: Plan, q: nat, w: nat, p: nat, v: nat)
    requires Fits(c, plan) && q < c.pp && p < c.pp && Earlier(q, w, p, v) && ChunkSize(c, plan, q) == 0
    ensures Count(c, plan, p, v) > Start(c, plan, p, v)
  {
    hide Fits, Start, ChunkSize, Count, EmptyBefore;
    CountIs(c, plan, p, v);
    EmptyStage(c, plan, p);
    EmptyStage(c, plan, c.pp);
    MulSign(v, EmptyBefore(c, plan, c.pp));
  }

  lemma NoGapAhead(c: Config, plan: Plan, p: nat, v: nat)
    requires Fits(c, plan) && Gapless(c, plan) && p < c.pp && v < c.Rounds() && ChunkSize(c, plan, p) > 0
    ensures Count(c, plan, p, v) == Start(c, plan, p, v)
  {
    hide Fits, Start, ChunkSize, Count, EmptyBefore;
    CountIs(c, plan, p, v);
    EmptyStage(c, plan, p);
    EmptyStage(c, plan, c.pp);
    forall q: nat | q < p
      ensures ChunkSize(c, plan, q) != 0
    {
      assert Earlier(q, v, p, v);
    }
    forall q: nat | q < c.pp && v > 0
      ensures ChunkSize(c, plan, q) != 0
    {
      assert Earlier(q, 0, p, v);
    }
    assert v * EmptyBefore(c, plan, c.pp) == 0;
  }

  // The count is the start of every chunk with layers exactly when no such chunk comes after one
  // without.
  lemma CountIsStartExactly(c: Config, plan: Plan)
    requires Fits(c, plan)
    ensures (forall p: nat, v: nat :: p < c.pp && v < c.Rounds() && ChunkSize(c, plan, p) > 0 ==>
               Count(c, plan, p, v) == Start(c, plan, p, v)) <==> Gapless(c, plan)
  {
    hide Fits, Start, ChunkSize, Count;
    if Gapless(c, plan) {
      forall p: nat, v: nat | p < c.pp && v < c.Rounds() && ChunkSize(c, plan, p) > 0
        ensures Count(c, plan, p, v) == Start(c, plan, p, v)
      {
        NoGapAhead(c, plan, p, v);
      }
    } else {
      var q: nat, w: nat, p: nat, v: nat :|
        q < c.pp && p < c.pp && w < c.Rounds() && v < c.Rounds() && Earlier(q, w, p, v)
        && ChunkSize(c, plan, q) == 0 && ChunkSize(c, plan, p) > 0;
      GapAhead(c, plan, q, w, p, v);
    }
  }

  lemma ChunkEnds(c: Config, plan: Plan, p: nat, v: nat)
    requires Fits(c, plan) && p < c.pp && v < c.Rounds()
    ensures Start(c, plan, p, v) + ChunkSize(c, plan, p) <= c.layers
    ensures p + 1 == c.pp && v + 1 == c.Rounds() ==> Start(c, plan, p, v) + ChunkSize(c, plan, p) == c.layers
  {
    hide Fits, Start, ChunkSize;
    Tiles(c, plan, p, v);
    if !(p + 1 == c.pp && v + 1 == c.Rounds()) {
      EarlierEnds(c, plan, p, v, c.pp - 1, c.Rounds() - 1);
      Tiles(c, plan, c.pp - 1, c.Rounds() - 1);
    }
  }

  // The last stage with layers ends with the last layer.
  lemma {:induction false} LastHolder(c: Config, plan: Plan, top: nat, p: nat) returns (last: nat)
    requires Fits(c, plan) && p <= top < c.pp && ChunkSize(c, plan, p) > 0
    requires Start(c, plan, top, c.Rounds() - 1) + ChunkSize(c, plan, top) == c.layers
    ensures p <= last < c.pp && ChunkSize(c, plan, last) > 0
    ensures Start(c, plan, last, c.Rounds() - 1) + ChunkSize(c, plan, last) == c.layers
  {
    hide Start, ChunkSize;
    if ChunkSize(c, plan, top) > 0 {
      last := top;
    } else {
      Tiles(c, plan, top - 1, c.Rounds() - 1);
      last := LastHolder(c, plan, top - 1, p);
    }
  }

  // ----- the whole checkpoint -----

  ghost predicate AllHold<V>(chunks: seq<seq<map<Key, V>>>, c: Config, plan: Plan) {
    && |chunks| == c.pp
    && (forall p: nat, v: nat :: p < c.pp && v < c.Rounds() ==>
          v < |chunks[p]| && HoldsLayers(chunks[p][v], ChunkSize(c, plan, p)))
    && (forall p: nat :: p < c.pp ==> |chunks[p]| == c.Rounds())
  }

  ghost predicate PlacedAt<V, W>(chunk: map<Key, V>, start: nat, merge: (Key, V) -> map<Part, W>, state: map<Entry, W>,
                                 key: Key)
    requires key in chunk
  {
    var parts := merge(Shifted(key, start), chunk[key]);
    forall part :: part in parts ==>
      Entry(Shifted(key, start), part) in state && state[Entry(Shifted(key, start), part)] == parts[part]
  }

  // Every part of every numbered parameter of a chunk is in the merged dictionary, moved up by
  // the start.
  ghost predicate PlacedFrom<V, W>(chunk: map<Key, V>, start: int, merge: (Key, V) -> map<Part, W>,
                                   state: map<Entry, W>) {
    start >= 0 && forall key: Key :: key in chunk && key.Layer? ==> PlacedAt(chunk, start, merge, state, key)
  }

  ghost predicate InChunk<V, W>(chunk: map<Key, V>, start: int, merge: (Key, V) -> map<Part, W>, entry: Entry)
    requires entry.key.Layer?
  {
    && 0 <= start <= entry.key.number
    && var local := Layer(entry.key.number - start, entry.key.name);
       local in chunk && entry.part in merge(entry.key, chunk[local])
  }

  // Some chunk's interval contains the number, and the chunk has the parameter with that part.
  ghost predicate FromChunk<V, W>(chunks: seq<seq<map<Key, V>>>, c: Config, plan: Plan,
                                  merge: (Key, V) -> map<Part, W>, entry: Entry)
    requires AllHold(chunks, c, plan) && entry.key.Layer?
  {
    exists q: nat, w: nat :: q < c.pp && w < c.Rounds() && InChunk(chunks[q][w], Count(c, plan, q, w), merge, entry)
  }

  // Every chunk merged so far is in place, and no other numbered entry is there.
  ghost predicate Placed<V, W>(chunks: seq<seq<map<Key, V>>>, c: Config, plan: Plan, merge: (Key, V) -> map<Part, W>,
                               state: map<Entry, W>, p: nat, v: nat)
    requires AllHold(chunks, c, plan)
  {
    && (forall q: nat, w: nat :: q < c.pp && w < c.Rounds() && Earlier(q, w, p, v) ==>
          PlacedFrom(chunks[q][w], Count(c, plan, q, w), merge, state))
    && (forall entry: Entry :: entry in state && entry.key.Layer? ==>
          entry.key.number < Count(c, plan, p, v) && FromChunk(chunks, c, plan, merge, entry))
  }

  lemma KeepPlaced<V, W>(chunk: map<Key, V>, start: int, merge: (Key, V) -> map<Part, W>, chunk': map<Key, V>,
                         start': nat, tie: bool, before: map<Entry, W>, after: map<Entry, W>)
    requires PlacedFrom(chunk, start, merge, before)
    requires forall entry: Entry :: entry in before && entry.key.Layer? ==> entry.key.number < start'
    requires ChunkMerged(chunk', start', tie, merge, before, after)
    ensures PlacedFrom(chunk, start, merge, after)
  {
    forall key: Key | key in chunk && key.Layer?
      ensures PlacedAt(chunk, start, merge, after, key)
    {
      var global := Shifted(key, start);
      assert PlacedAt(chunk, start, merge, before, key);
      forall part | part in merge(global, chunk[key])
        ensures Untouched(before, after, Entry(global, part))
      {
        assert MergedAt(chunk', start', tie, merge, before, after, Entry(global, part));
      }
    }
  }

  lemma NewPlaced<V, W>(chunk: map<Key, V>, start: nat, merge: (Key, V) -> map<Part, W>, tie: bool,
                        before: map<Entry, W>, after: map<Entry, W>)
    requires ChunkMerged(chunk, start, tie, merge, before, after)
    ensures PlacedFrom(chunk, start, merge, after)
  {
    forall key: Key | key in chunk && key.Layer?
      ensures PlacedAt(chunk, start, merge, after, key)
    {
      var global := Shifted(key, start);
      forall part | part in merge(global, chunk[key])
        ensures Entry(global, part) in after && after[Entry(global, part)] == merge(global, chunk[key])[part]
      {
        assert MergedAt(chunk, start, tie, merge, before, after, Entry(global, part));
      }
    }
  }

  lemma StemsFrom<V, W>(chunks: seq<seq<map<Key, V>>>, c: Config, plan: Plan, tie: bool,
                        merge: (Key, V) -> map<Part, W>, before: map<Entry, W>, after: map<Entry, W>, p: nat, v: nat,
                        entry: Entry)
    requires AllHold(chunks, c, plan) && p < c.pp && v < c.Rounds()
    requires Placed(chunks, c, plan, merge, before, p, v)
    requires ChunkMerged(chunks[p][v], Count(c, plan, p, v), tie, merge, before, after)
    requires entry in after && entry.key.Layer?
    ensures entry.key.number < Count(c, plan, p, v) + Counted(c, plan, p)
    ensures FromChunk(chunks, c, plan, merge, entry)
  {
    hide Count, ChunkSize;
    assert MergedAt(chunks[p][v], Count(c, plan, p, v), tie, merge, before, after, entry);
    assert HoldsLayers(chunks[p][v], ChunkSize(c, plan, p));
    if entry !in before || !Untouched(before, after, entry) {
      assert InChunk(chunks[p][v], Count(c, plan, p, v), merge, entry);
    }
  }

  lemma PlaceOne<V, W>(chunks: seq<seq<map<Key, V>>>, c: Config, plan: Plan, tie: bool, merge: (Key, V) -> map<Part, W>,
                       before: map<Entry, W>, after: map<Entry, W>, p: nat, v: nat)
    requires Fits(c, plan) && AllHold(chunks, c, plan) && p < c.pp && v < c.Rounds()
    requires Placed(chunks, c, plan, merge, before, p, v)
    requires ChunkMerged(chunks[p][v], Count(c, plan, p, v), tie, merge, before, after)
    ensures p + 1 < c.pp ==> Placed(chunks, c, plan, merge, after, p + 1, v)
    ensures p + 1 == c.pp ==> Placed(chunks, c, plan, merge, after, 0, v + 1)
  {
    hide Count, Counted, ChunkMerged, PlacedFrom, ChunkSize, HoldsLayers, FromChunk, Fits;
    var start := Count(c, plan, p, v);
    CountNext(c, plan, p, v);
    var p', v' := if p + 1 < c.pp then p + 1 else 0, if p + 1 < c.pp then v else v + 1;
    forall q: nat, w: nat | q < c.pp && w < c.Rounds() && Earlier(q, w, p', v')
      ensures PlacedFrom(chunks[q][w], Count(c, plan, q, w), merge, after)
    {
      if q == p && w == v {
        NewPlaced(chunks[p][v], start, merge, tie, before, after);
      } else {
        KeepPlaced(chunks[q][w], Count(c, plan, q, w), merge, chunks[p][v], start, tie, before, after);
      }
    }
    forall entry: Entry | entry in after && entry.key.Layer?
      ensures entry.key.number < start + Counted(c, plan, p) && FromChunk(chunks, c, plan, merge, entry)
    {
      StemsFrom(chunks, c, plan, tie, merge, before, after, p, v, entry);
    }
  }

  // The chunk has this part of an unnumbered parameter.
  ghost predicate Gives<V, W>(chunk: map<Key, V>, merge: (Key, V) -> map<Part, W>, entry: Entry) {
    entry.key in chunk && entry.part in merge(entry.key, chunk[entry.key])
  }

  // Chunk (q, w) is the last before (p, v) that has the part, and the merged dictionary has it from there.
  ghost predicate LastGiven<V, W>(chunks: seq<seq<map<Key, V>>>, c: Config, plan: Plan,
                                  merge: (Key, V) -> map<Part, W>, state: map<Entry, W>, entry: Entry,
                                  q: nat, w: nat, p: nat, v: nat)
    requires AllHold(chunks, c, plan)
  {
    && q < c.pp && w < c.Rounds() && Earlier(q, w, p, v) && Gives(chunks[q][w], merge, entry)
    && entry in state && state[entry] == merge(entry.key, chunks[q][w][entry.key])[entry.part]
    && forall q': nat, w': nat :: q' < c.pp && w' < c.Rounds() && Earlier(q, w, q', w') && Earlier(q', w', p, v) ==>
         !Gives(chunks[q'][w'], merge, entry)
  }

  // The unnumbered entries after the chunks before (p, v).
  ghost predicate OthersMerged<V, W>(chunks: seq<seq<map<Key, V>>>, c: Config, plan: Plan, tie: bool,
                                     merge: (Key, V) -> map<Part, W>, state: map<Entry, W>, p: nat, v: nat)
    requires AllHold(chunks, c, plan)
  {
    && (forall entry: Entry :: entry in state && !entry.key.Layer? ==>
          && (entry.key.Other? || (entry.key.OutputLayer? && !tie))
          && exists q: nat, w: nat :: LastGiven(chunks, c, plan, merge, state, entry, q, w, p, v))
    && (forall q: nat, w: nat, entry: Entry ::
          q < c.pp && w < c.Rounds() && Earlier(q, w, p, v) && Gives(chunks[q][w], merge, entry) ==>
            (entry.key.Other? || (entry.key.OutputLayer? && !tie) ==> entry in state))
  }

  lemma OtherEntry<V, W>(chunk: map<Key, V>, shift: nat, tie: bool, merge: (Key, V) -> map<Part, W>,
                         before: map<Entry, W>, after: map<Entry, W>, entry: Entry)
    requires ChunkMerged(chunk, shift, tie, merge, before, after) && !entry.key.Layer?
    ensures if (entry.key.Other? || (entry.key.OutputLayer? && !tie)) && Gives(chunk, merge, entry)
            then entry in after && after[entry] == merge(entry.key, chunk[entry.key])[entry.part]
            else Untouched(before, after, entry)
  {
    assert MergedAt(chunk, shift, tie, merge, before, after, entry);
  }

  // The order has no chunk between (p, v) and the next.
  lemma NextChunk(pp: nat, p: nat, v: nat, q: nat, w: nat)
    requires p < pp && q < pp
    ensures p + 1 < pp ==> (Earlier(q, w, p + 1, v) <==> Earlier(q, w, p, v) || (q == p && w == v))
    ensures p + 1 == pp ==> (Earlier(q, w, 0, v + 1) <==> Earlier(q, w, p, v) || (q == p && w == v))
  {
  }

  lemma OtherKept<V, W>(chunks: seq<seq<map<Key, V>>>, c: Config, plan: Plan, tie: bool,
                        merge: (Key, V) -> map<Part, W>, before: map<Entry, W>, after: map<Entry, W>, p: nat, v: nat,
                        p': nat, v': nat, entry: Entry) returns (q: nat, w: nat)
    requires AllHold(chunks, c, plan) && p < c.pp && v < c.Rounds()
    requires if p + 1 < c.pp then p' == p + 1 && v' == v else p' == 0 && v' == v + 1
    requires OthersMerged(chunks, c, plan, tie, merge, before, p, v)
    requires ChunkMerged(chunks[p][v], Count(c, plan, p, v), tie, merge, before, after)
    requires entry in after && !entry.key.Layer?
    ensures entry.key.Other? || (entry.key.OutputLayer? && !tie)
    ensures LastGiven(chunks, c, plan, merge, after, entry, q, w, p', v')
  {
    hide HoldsLayers, ChunkMerged, Count, Gives;
    OtherEntry(chunks[p][v], Count(c, plan, p, v), tie, merge, before, after, entry);
    forall q': nat, w': nat | q' < c.pp
      ensures Earlier(q', w', p', v') <==> Earlier(q', w', p, v) || (q' == p && w' == v)
    {
      NextChunk(c.pp, p, v, q', w');
    }
    if (entry.key.Other? || (entry.key.OutputLayer? && !tie)) && Gives(chunks[p][v], merge, entry) {
      q, w := p, v;
    } else {
      q, w :| LastGiven(chunks, c, plan, merge, before, entry, q, w, p, v);
    }
  }

  lemma OthersStep<V, W>(chunks: seq<seq<map<Key, V>>>, c: Config, plan: Plan, tie: bool,
                         merge: (Key, V) -> map<Part, W>, before: map<Entry, W>, after: map<Entry, W>, p: nat, v: nat)
    requires AllHold(chunks, c, plan) && p < c.pp && v < c.Rounds()
    requires OthersMerged(chunks, c, plan, tie, merge, before, p, v)
    requires ChunkMerged(chunks[p][v], Count(c, plan, p, v), tie, merge, before, after)
    ensures p + 1 < c.pp ==> OthersMerged(chunks, c, plan, tie, merge, after, p + 1, v)
    ensures p + 1 == c.pp ==> OthersMerged(chunks, c, plan, tie, merge, after, 0, v + 1)
  {
    hide HoldsLayers, ChunkMerged, Count, LastGiven, Gives;
    var p', v' := if p + 1 < c.pp then p + 1 else 0, if p + 1 < c.pp then v else v + 1;
    forall entry: Entry | entry in after && !entry.key.Layer?
      ensures entry.key.Other? || (entry.key.OutputLayer? && !tie)
      ensures exists q: nat, w: nat :: LastGiven(chunks, c, plan, merge, after, entry, q, w, p', v')
    {
      var q, w := OtherKept(chunks, c, plan, tie, merge, before, after, p, v, p', v', entry);
    }
    forall q: nat, w: nat, entry: Entry |
      q < c.pp && w < c.Rounds() && Earlier(q, w, p', v') && Gives(chunks[q][w], merge, entry)
      && (entry.key.Other? || (entry.key.OutputLayer? && !tie))
      ensures entry in after
    {
      NextChunk(c.pp, p, v, q, w);
      OtherEntry(chunks[p][v], Count(c, plan, p, v), tie, merge, before, after, entry);
    }
  }

  // The merged dictionary has the part from the last chunk, in the order of merging, that has it.
  ghost predicate FromLast<V, W>(chunks: seq<seq<map<Key, V>>>, c: Config, plan: Plan, merge: (Key, V) -> map<Part, W>,
                                 state: map<Entry, W>, entry: Entry)
    requires AllHold(chunks, c, plan)
  {
    exists q: nat, w: nat :: LastGiven(chunks, c, plan, merge, state, entry, q, w, 0, c.Rounds())
  }

  // Every part of every parameter of every chunk sits where the count put the chunk, and every
  // numbered entry comes from such a place.
  ghost predicate Merged<V, W>(chunks: seq<seq<map<Key, V>>>, c: Config, plan: Plan, merge: (Key, V) -> map<Part, W>,
                               state: map<Entry, W>)
    requires AllHold(chunks, c, plan)
  {
    && (forall p: nat, v: nat :: p < c.pp && v < c.Rounds() ==>
          PlacedFrom(chunks[p][v], Count(c, plan, p, v), merge, state))
    && (forall entry: Entry :: entry in state && entry.key.Layer? ==> FromChunk(chunks, c, plan, merge, entry))
  }

  // The entry is part of a layer l of some chunk, moved to the closed-form offset plus l.
  ghost predicate FromOffset<V, W>(chunks: seq<seq<map<Key, V>>>, c: Config, plan: Plan,
                                   merge: (Key, V) -> map<Part, W>, entry: Entry)
    requires AllHold(chunks, c, plan) && entry.key.Layer?
  {
    exists q: nat, w: nat :: q < c.pp && w < c.Rounds() && LayerOffset(c, q, w).Ok?
      && InChunk(chunks[q][w], LayerOffset(c, q, w).value, merge, entry)
  }

  lemma FirstPlaced<V, W>(chunks: seq<seq<map<Key, V>>>, c: Config, plan: Plan, merge: (Key, V) -> map<Part, W>)
    requires Fits(c, plan) && AllHold(chunks, c, plan)
    ensures c.pp >= 1 && |chunks[0]| == c.Rounds() >= 1
    ensures Count(c, plan, 0, 0) == 0
    ensures Placed(chunks, c, plan, merge, map[], 0, 0)
  {
  }

  lemma LastLayer<V>(chunks: seq<seq<map<Key, V>>>, c: Config, plan: Plan, p: nat, v: nat, handled: nat)
    requires AllHold(chunks, c, plan) && p < c.pp && v < c.Rounds()
    requires forall key: Key :: key in chunks[p][v] && key.Layer? ==> key.number <= handled
    requires handled == 0 || HasLayer(chunks[p][v], handled)
    ensures handled + 1 == Counted(c, plan, p)
  {
    var n := ChunkSize(c, plan, p);
    assert HoldsLayers(chunks[p][v], n);
    assert n == 0 ==> !HasLayer(chunks[p][v], handled);
    if n > 0 {
      var name :| Layer(n - 1, name) in chunks[p][v];
    }
  }

  lemma AllPlaced<V, W>(chunks: seq<seq<map<Key, V>>>, c: Config, plan: Plan, merge: (Key, V) -> map<Part, W>,
                        state: map<Entry, W>)
    requires AllHold(chunks, c, plan) && Placed(chunks, c, plan, merge, state, 0, c.Rounds())
    ensures Merged(chunks, c, plan, merge, state)
  {
    hide Count, PlacedFrom, FromChunk, HoldsLayers;
    forall p: nat, v: nat | p < c.pp && v < c.Rounds()
      ensures PlacedFrom(chunks[p][v], Count(c, plan, p, v), merge, state)
    {
      assert Earlier(p, v, 0, c.Rounds());
    }
  }

  lemma NoOthers<V, W>(chunks: seq<seq<map<Key, V>>>, c: Config, plan: Plan, tie: bool,
                       merge: (Key, V) -> map<Part, W>)
    requires AllHold(chunks, c, plan)
    ensures OthersMerged(chunks, c, plan, tie, merge, map[], 0, 0)
  {
  }

  lemma AllOthers<V, W>(chunks: seq<seq<map<Key, V>>>, c: Config, plan: Plan, tie: bool,
                        merge: (Key, V) -> map<Part, W>, state: map<Entry, W>)
    requires AllHold(chunks, c, plan) && OthersMerged(chunks, c, plan, tie, merge, state, 0, c.Rounds())
    ensures forall p: nat, v: nat, entry: Entry :: p < c.pp && v < c.Rounds() && Gives(chunks[p][v], merge, entry) ==>
              (entry.key.Other? || (entry.key.OutputLayer? && !tie) ==> entry in state)
    ensures forall entry: Entry :: entry in state && !entry.key.Layer? ==>
              (entry.key.Other? || (entry.key.OutputLayer? && !tie)) && FromLast(chunks, c, plan, merge, state, entry)
  {
    hide HoldsLayers, Gives, LastGiven;
    forall p: nat, v: nat, entry: Entry |
      p < c.pp && v < c.Rounds() && Gives(chunks[p][v], merge, entry)
      && (entry.key.Other? || (entry.key.OutputLayer? && !tie))
      ensures entry in state
    {
      assert Earlier(p, v, 0, c.Rounds());
    }
  }

  // A chunk that holds a numbered entry has layers, so its count is its start.
  lemma EntryHome<V, W>(chunks: seq<seq<map<Key, V>>>, c: Config, plan: Plan, merge: (Key, V) -> map<Part, W>,
                        entry: Entry) returns (q: nat, w: nat)
    requires Fits(c, plan) && AllHold(chunks, c, plan) && Gapless(c, plan) && entry.key.Layer?
    requires FromChunk(chunks, c, plan, merge, entry)
    ensures q < c.pp && w < c.Rounds() && InChunk(chunks[q][w], Start(c, plan, q, w), merge, entry)
    ensures entry.key.number < c.layers
  {
    hide Fits, Count, Start, ChunkSize, Gapless;
    q, w :| q < c.pp && w < c.Rounds() && InChunk(chunks[q][w], Count(c, plan, q, w), merge, entry);
    assert HoldsLayers(chunks[q][w], ChunkSize(c, plan, q));
    NoGapAhead(c, plan, q, w);
    ChunkEnds(c, plan, q, w);
  }

  lemma StartNonNegative(c: Config, plan: Plan, p: nat, v: nat)
    requires Fits(c, plan) && p < c.pp && v < c.Rounds()
    ensures Start(c, plan, p, v) >= 0
  {
    hide Fits, Start, ChunkSize;
    Tiles(c, plan, 0, 0);
    if p > 0 || v > 0 {
      EarlierEnds(c, plan, 0, 0, p, v);
    }
  }

  lemma PlacedAtOffset<V, W>(chunks: seq<seq<map<Key, V>>>, c: Config, plan: Plan, merge: (Key, V) -> map<Part, W>,
                             state: map<Entry, W>, p: nat, v: nat)
    requires Fits(c, plan) && Supported(c) && AllHold(chunks, c, plan) && Gapless(c, plan)
    requires p < c.pp && v < c.Rounds() && PlacedFrom(chunks[p][v], Count(c, plan, p, v), merge, state)
    ensures LayerOffset(c, p, v).Ok? && PlacedFrom(chunks[p][v], LayerOffset(c, p, v).value, merge, state)
  {
    hide Fits, Supported, Count, ChunkSize, Gapless, LayerOffset;
    OffsetIsStart(c, plan, p, v);
    assert HoldsLayers(chunks[p][v], ChunkSize(c, plan, p));
    if ChunkSize(c, plan, p) > 0 {
      NoGapAhead(c, plan, p, v);
    } else {
      StartNonNegative(c, plan, p, v);
    }
  }

  lemma PlacedRight<V, W>(chunks: seq<seq<map<Key, V>>>, c: Config, plan: Plan, merge: (Key, V) -> map<Part, W>,
                          state: map<Entry, W>)
    requires Fits(c, plan) && Supported(c) && AllHold(chunks, c, plan) && Gapless(c, plan)
    requires Merged(chunks, c, plan, merge, state)
    ensures forall p: nat, v: nat :: p < c.pp && v < c.Rounds() ==>
              LayerOffset(c, p, v).Ok? && PlacedFrom(chunks[p][v], LayerOffset(c, p, v).value, merge, state)
    ensures forall entry: Entry :: entry in state && entry.key.Layer? ==>
              entry.key.number < c.layers && FromOffset(chunks, c, plan, merge, entry)
  {
    hide LayerOffset, Start, Count, PlacedFrom, FromChunk, HoldsLayers, Fits, Supported, Gapless, InChunk;
    forall p: nat, v: nat | p < c.pp && v < c.Rounds()
      ensures LayerOffset(c, p, v).Ok? && PlacedFrom(chunks[p][v], LayerOffset(c, p, v).value, merge, state)
    {
      PlacedAtOffset(chunks, c, plan, merge, state, p, v);
    }
    forall entry: Entry | entry in state && entry.key.Layer?
      ensures entry.key.number < c.layers && FromOffset(chunks, c, plan, merge, entry)
    {
      var q, w := EntryHome(chunks, c, plan, merge, entry);
      OffsetIsStart(c, plan, q, w);
    }
  }

  // The merged checkpoint: if no chunk with layers comes after one without, every part of every
  // parameter of every chunk's layer l sits at the layer given by the closed-form offset plus l,
  // and every numbered entry comes from such a place.  Of the other parameters all are kept but
  // extra state and a tied output layer, each as the last chunk that has it gives it.
  method MergeStateDicts<V, W>(chunks: seq<seq<map<Key, V>>>, ghost c: Config, ghost plan: Plan, tie: bool,
                               merge: (Key, V) -> map<Part, W>)
    returns (state: map<Entry, W>)
    requires Fits(c, plan) && AllHold(chunks, c, plan)
    ensures Merged(chunks, c, plan, merge, state)
    ensures Supported(c) && Gapless(c, plan) ==> forall p: nat, v: nat :: p < c.pp && v < c.Rounds() ==>
              LayerOffset(c, p, v).Ok? && PlacedFrom(chunks[p][v], LayerOffset(c, p, v).value, merge, state)
    ensures Supported(c) && Gapless(c, plan) ==> forall entry: Entry :: entry in state && entry.key.Layer? ==>
              entry.key.number < c.layers && FromOffset(chunks, c, plan, merge, entry)
    ensures forall p: nat, v: nat, entry: Entry :: p < c.pp && v < c.Rounds() && Gives(chunks[p][v], merge, entry) ==>
              (entry.key.Other? || (entry.key.OutputLayer? && !tie) ==> entry in state)
    ensures forall entry: Entry :: entry in state && !entry.key.Layer? ==>
              (entry.key.Other? || (entry.key.OutputLayer? && !tie)) && FromLast(chunks, c, plan, merge, state, entry)
  {
    hide Count, Counted, Fits, Supported, LayerOffset, ChunkMerged, Placed, ChunkSize, Merged, Gapless, Gives,
      OthersMerged, FromLast;
    FirstPlaced(chunks, c, plan, merge);
    NoOthers(chunks, c, plan, tie, merge);
    var rounds := |chunks[0]|;
    var ranks := |chunks|;
    state := map[];
    var layersCum := 0;
    for v := 0 to rounds
      invariant layersCum == Count(c, plan, 0, v)
      invariant Placed(chunks, c, plan, merge, state, 0, v)
      invariant OthersMerged(chunks, c, plan, tie, merge, state, 0, v)
    {
      for p := 0 to ranks
        invariant p < ranks ==> layersCum == Count(c, plan, p, v)
        invariant p < ranks ==> Placed(chunks, c, plan, merge, state, p, v)
        invariant p == ranks ==> layersCum == Count(c, plan, 0, v + 1)
        invariant p == ranks ==> Placed(chunks, c, plan, merge, state, 0, v + 1)
        invariant p < ranks ==> OthersMerged(chunks, c, plan, tie, merge, state, p, v)
        invariant p == ranks ==> OthersMerged(chunks, c, plan, tie, merge, state, 0, v + 1)
      {
        ghost var before := state;
        var handled;
        state, handled := MergeChunk(chunks[p][v], layersCum, tie, merge, state);
        LastLayer(chunks, c, plan, p, v, handled);
        PlaceOne(chunks, c, plan, tie, merge, before, state, p, v);
        OthersStep(chunks, c, plan, tie, merge, before, state, p, v);
        CountNext(c, plan, p, v);
        layersCum := layersCum + handled + 1;
      }
    }
    AllPlaced(chunks, c, plan, merge, state);
    AllOthers(chunks, c, plan, tie, merge, state);
    if Supported(c) && Gapless(c, plan) {
      PlacedRight(chunks, c, plan, merge, state);
    }
  }

  ghost predicate FilesEverything<V, W>(chunks: seq<seq<map<Key, V>>>, c: Config, plan: Plan,
                                        merge: (Key, V) -> map<Part, W>)
    requires AllHold(chunks, c, plan)
  {
    forall p: nat, v: nat, key: Key :: p < c.pp && v < c.Rounds() && key in chunks[p][v] ==>
      exists part :: part in merge(Shifted(key, Count(c, plan, p, v)), chunks[p][v][key])
  }

  lemma BeyondLast<V, W>(chunks: seq<seq<map<Key, V>>>, c: Config, plan: Plan, merge: (Key, V) -> map<Part, W>,
                         state: map<Entry, W>, q: nat, w: nat, p: nat, v: nat) returns (entry: Entry)
    requires Fits(c, plan) && AllHold(chunks, c, plan) && Merged(chunks, c, plan, merge, state)
    requires FilesEverything(chunks, c, plan, merge)
    requires q < c.pp && p < c.pp && w < c.Rounds() && v < c.Rounds() && Earlier(q, w, p, v)
    requires ChunkSize(c, plan, q) == 0 && ChunkSize(c, plan, p) > 0
    ensures entry in state && entry.key.Layer? && entry.key.number >= c.layers
  {
    hide Fits, Start, Count, ChunkSize, FromChunk;
    ChunkEnds(c, plan, c.pp - 1, c.Rounds() - 1);
    var last := LastHolder(c, plan, c.pp - 1, p);
    var size, count := ChunkSize(c, plan, last), Count(c, plan, last, c.Rounds() - 1);
    assert Earlier(q, w, last, c.Rounds() - 1);
    GapAhead(c, plan, q, w, last, c.Rounds() - 1);
    var chunk := chunks[last][c.Rounds() - 1];
    assert HoldsLayers(chunk, size);
    var name :| Layer(size - 1, name) in chunk;
    var key := Layer(size - 1, name);
    var part :| part in merge(Shifted(key, count), chunk[key]);
    assert PlacedFrom(chunk, count, merge, state);
    assert PlacedAt(chunk, count, merge, state, key);
    entry := Entry(Shifted(key, count), part);
  }

  // When every weight is filed, the merged layers stay below the model's number of layers exactly
  // when no chunk with layers comes after one without.
  lemma LayersInRangeExactly<V, W>(chunks: seq<seq<map<Key, V>>>, c: Config, plan: Plan,
                                   merge: (Key, V) -> map<Part, W>, state: map<Entry, W>)
    requires Fits(c, plan) && AllHold(chunks, c, plan) && Merged(chunks, c, plan, merge, state)
    requires FilesEverything(chunks, c, plan, merge)
    ensures (forall entry: Entry :: entry in state && entry.key.Layer? ==> entry.key.number < c.layers)
            <==> Gapless(c, plan)
  {
    hide Fits, Start, Count, ChunkSize, FromChunk;
    if Gapless(c, plan) {
      forall entry: Entry | entry in state && entry.key.Layer?
        ensures entry.key.number < c.layers
      {
        var q, w := EntryHome(chunks, c, plan, merge, entry);
      }
    } else {
      var q: nat, w: nat, p: nat, v: nat :|
        q < c.pp && p < c.pp && w < c.Rounds() && v < c.Rounds() && Earlier(q, w, p, v)
        && ChunkSize(c, plan, q) == 0 && ChunkSize(c, plan, p) > 0;
      var entry := BeyondLast(chunks, c, plan, merge, state, q, w, p, v);
    }
  }

  // ----- saving -----

  // The file of a key: the one of the piece of the key list that holds it.
  ghost predicate Filed(key: Key, file: nat, pieces: seq<seq<Key>>, files: seq<nat>) {
    |files| == |pieces| && exists i :: 0 <= i < |pieces| && key in pieces[i] && file == files[i]
  }

  // Each key of one rank goes to the file of its own piece, and the pieces in order make up the
  // keys.
  method SaveIndexMap(keys: seq<Key>, shards: seq<nat>, rank: nat, perLayer: nat) returns (index: map<Key, nat>)
    requires rank < |shards| && shards[rank] * perLayer >= 1
    ensures index.Keys == set key | key in keys
    ensures Flatten(ArraySplit(keys, shards[rank] * perLayer)) == keys
    ensures forall key :: key in index ==>
      Filed(key, index[key], ArraySplit(keys, shards[rank] * perLayer), SaveIndices(shards, rank, perLayer))
  {
    hide PieceSize;
    var files := SaveIndices(shards, rank, perLayer);
    var chunks := ArraySplit(keys, |files|);
    ArraySplitFlatten(keys, |files|);
    index := map[];
    for i := 0 to |chunks|
      invariant index.Keys == set key | key in Flatten(chunks[..i])
      invariant forall key :: key in index ==> Filed(key, index[key], chunks, files)
    {
      for j := 0 to |chunks[i]|
        invariant index.Keys == set key | key in Flatten(chunks[..i]) + chunks[i][..j]
        invariant forall key :: key in index ==> Filed(key, index[key], chunks, files)
      {
        index := index[chunks[i][j] := files[i]];
      }
      assert chunks[..i + 1] == chunks[..i] + [chunks[i]] && chunks[i][..|chunks[i]|] == chunks[i];
      FlattenSnoc(chunks[..i], chunks[i]);
    }
    assert chunks[..|chunks|] == chunks;
  }
}
