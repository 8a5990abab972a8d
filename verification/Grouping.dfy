/** Step-level groups: steps of one task that observed the same environment state. */
module Grouping {
  import opened Wrappers

  // ----- Observations and their canonical form -----

  // A scalar or dictionary key stands for its place in the order of its kind.
  datatype Obs =
    | Scalar(value: int)
    | Array(shape: seq<nat>, flat: seq<int>)
    | Listed(items: Items)
    | Dict(entries: Entries)
    | Unsupported
  datatype Items = NoItem | Item(head: Obs, tail: Items)
  datatype Entries = NoEntry | Entry(key: int, value: Obs, rest: Entries)

  datatype Hashable = Plain(value: int) | Tuple(parts: seq<Hashable>)

  type Pair = (int, Hashable)

  function AsTuples(pairs: seq<Pair>): (r: seq<Hashable>)
    ensures |r| == |pairs|
  {
    seq(|pairs|, i requires 0 <= i < |pairs| => Tuple([Plain(pairs[i].0), pairs[i].1]))
  }

  // None for a type without a canonical form.
  function ToHashable(obs: Obs): Option<Hashable> {
    match obs
    case Scalar(v) => Some(Plain(v))
    case Array(_, flat) => Some(Tuple(seq(|flat|, i requires 0 <= i < |flat| => Plain(flat[i]))))
    case Listed(items) =>
      var parts := HashItems(items);
      if parts.None? then None else Some(Tuple(parts.value))
    case Dict(entries) =>
      var pairs := SortedPairs(entries);
      if pairs.None? then None else Some(Tuple(AsTuples(pairs.value)))
    case Unsupported => None
  }

  function HashItems(items: Items): Option<seq<Hashable>> {
    match items
    case NoItem => Some([])
    case Item(head, tail) =>
      var h, t := ToHashable(head), HashItems(tail);
      if h.None? || t.None? then None else Some([h.value] + t.value)
  }

  function InsertPair(p: Pair, s: seq<Pair>): seq<Pair> {
    if s == [] || p.0 <= s[0].0 then [p] + s else [s[0]] + InsertPair(p, s[1..])
  }

  // The entries with their values canonicalised, sorted by key.
  function SortedPairs(entries: Entries): Option<seq<Pair>> {
    match entries
    case NoEntry => Some([])
    case Entry(key, value, rest) =>
      var h, r := ToHashable(value), SortedPairs(rest);
      if h.None? || r.None? then None else Some(InsertPair((key, h.value), r.value))
  }

  // ----- What has a canonical form -----

  // A value of a type without a canonical form occurs somewhere in the observation.
  predicate HasUnsupported(obs: Obs) {
    match obs
    case Scalar(_) => false
    case Array(_, _) => false
    case Listed(items) => ItemsHaveUnsupported(items)
    case Dict(entries) => EntriesHaveUnsupported(entries)
    case Unsupported => true
  }

  predicate ItemsHaveUnsupported(items: Items) {
    items.Item? && (HasUnsupported(items.head) || ItemsHaveUnsupported(items.tail))
  }

  predicate EntriesHaveUnsupported(entries: Entries) {
    entries.Entry? && (HasUnsupported(entries.value) || EntriesHaveUnsupported(entries.rest))
  }

  lemma {:induction false} HashItemsExactly(items: Items)
    ensures HashItems(items).None? <==> ItemsHaveUnsupported(items)
  {
    if items.Item? {
      HashableExactly(items.head);
      HashItemsExactly(items.tail);
    }
  }

  lemma {:induction false} SortedPairsExactly(entries: Entries)
    ensures SortedPairs(entries).None? <==> EntriesHaveUnsupported(entries)
  {
    if entries.Entry? {
      HashableExactly(entries.value);
      SortedPairsExactly(entries.rest);
    }
  }

  // Exactly the observations without such a value have a canonical form.
  lemma {:induction false} HashableExactly(obs: Obs)
    ensures ToHashable(obs).None? <==> HasUnsupported(obs)
  {
    match obs
    case Listed(items) => HashItemsExactly(items);
    case Dict(entries) => SortedPairsExactly(entries);
    case _ =>
  }

  // ----- Key order does not matter -----

  function Keys(entries: Entries): set<int> {
    match entries
    case NoEntry => {}
    case Entry(key, _, rest) => {key} + Keys(rest)
  }

  function Lookup(entries: Entries, key: int): (value: Option<Obs>)
    ensures value.Some? <==> key in Keys(entries)
  {
    match entries
    case NoEntry => None
    case Entry(k, v, rest) => if k == key then Some(v) else Lookup(rest, key)
  }

  // A dictionary has each key once, at every level.
  predicate WellFormed(obs: Obs) {
    match obs
    case Listed(items) => WellFormedItems(items)
    case Dict(entries) => WellFormedEntries(entries)
    case _ => true
  }

  predicate WellFormedItems(items: Items) {
    match items
    case NoItem => true
    case Item(head, tail) => WellFormed(head) && WellFormedItems(tail)
  }

  predicate WellFormedEntries(entries: Entries) {
    match entries
    case NoEntry => true
    case Entry(key, value, rest) => key !in Keys(rest) && WellFormed(value) && WellFormedEntries(rest)
  }

  // Equal but for the order of dictionary entries, at every level.
  predicate SameObs(a: Obs, b: Obs)
    decreases a
  {
    match a
    case Listed(items) => b.Listed? && SameItems(items, b.items)
    case Dict(entries) => b.Dict? && Keys(entries) == Keys(b.entries) && SameEntries(entries, b.entries)
    case _ => a == b
  }

  predicate SameItems(a: Items, b: Items)
    decreases a
  {
    match a
    case NoItem => b.NoItem?
    case Item(head, tail) => b.Item? && SameObs(head, b.head) && SameItems(tail, b.tail)
  }

  predicate SameEntries(a: Entries, b: Entries)
    decreases a
  {
    match a
    case NoEntry => true
    case Entry(key, value, rest) =>
      && Lookup(b, key).Some? && SameObs(value, Lookup(b, key).value)
      && SameEntries(rest, b)
  }

  predicate KeysIncrease(s: seq<Pair>) {
    forall i, j :: 0 <= i < j < |s| ==> s[i].0 < s[j].0
  }

  lemma {:induction false} InsertElements(p: Pair, s: seq<Pair>, q: Pair)
    ensures q in InsertPair(p, s) <==> q == p || q in s
  {
    if s != [] && p.0 > s[0].0 {
      InsertElements(p, s[1..], q);
      assert s == [s[0]] + s[1..];
    }
  }

  lemma {:induction false} InsertIncreases(p: Pair, s: seq<Pair>)
    requires KeysIncrease(s) && forall q :: q in s ==> q.0 != p.0
    ensures KeysIncrease(InsertPair(p, s))
  {
    if s != [] && p.0 > s[0].0 {
      InsertIncreases(p, s[1..]);
      var r := InsertPair(p, s[1..]);
      forall j | 0 <= j < |r|
        ensures s[0].0 < r[j].0
      {
        InsertElements(p, s[1..], r[j]);
      }
    } else if s != [] {
      assert s[0] in s;
    }
  }

  // The pairs of a dictionary: one for each key, with the canonical form of its value.
  lemma {:induction false} PairsAreEntries(entries: Entries, p: Pair)
    requires WellFormedEntries(entries) && SortedPairs(entries).Some?
    ensures p in SortedPairs(entries).value <==>
      Lookup(entries, p.0).Some? && ToHashable(Lookup(entries, p.0).value) == Some(p.1)
  {
    if entries.Entry? {
      PairsAreEntries(entries.rest, p);
      var head := (entries.key, ToHashable(entries.value).value);
      InsertElements(head, SortedPairs(entries.rest).value, p);
    }
  }

  lemma {:induction false} PairsIncrease(entries: Entries)
    requires WellFormedEntries(entries) && SortedPairs(entries).Some?
    ensures KeysIncrease(SortedPairs(entries).value)
  {
    if entries.Entry? {
      PairsIncrease(entries.rest);
      var head := (entries.key, ToHashable(entries.value).value);
      var rest := SortedPairs(entries.rest).value;
      forall q | q in rest
        ensures q.0 != head.0
      {
        PairsAreEntries(entries.rest, q);
      }
      InsertIncreases(head, rest);
    }
  }

  lemma TailPairs(s: seq<Pair>, p: Pair)
    requires KeysIncrease(s) && s != []
    ensures p in s[1..] <==> p in s && p != s[0]
    ensures p in s ==> s[0].0 <= p.0 && (p.0 == s[0].0 ==> p == s[0])
  {
    assert s == [s[0]] + s[1..];
    assert forall i :: 0 <= i < |s[1..]| ==> s[1..][i].0 > s[0].0;
  }

  // Two increasing lists of the same pairs are the same list.
  lemma {:induction false} IncreasingUnique(s: seq<Pair>, t: seq<Pair>)
    requires KeysIncrease(s) && KeysIncrease(t)
    requires forall p :: p in s <==> p in t
    ensures s == t
  {
    assert t != [] ==> t[0] in t;
    if s != [] {
      assert s[0] in s && s[0] in t;
      assert t[0] in t && t[0] in s;
      TailPairs(s, t[0]);
      TailPairs(t, s[0]);
      assert KeysIncrease(s[1..]) && KeysIncrease(t[1..]);
      hide KeysIncrease;
      forall p: Pair
        ensures p in s[1..] <==> p in t[1..]
      {
        TailPairs(s, p);
        TailPairs(t, p);
      }
      IncreasingUnique(s[1..], t[1..]);
      assert s == [s[0]] + s[1..] && t == [t[0]] + t[1..];
    }
  }

  // Observations equal up to the order of dictionary entries have one canonical form.
  lemma {:induction false} KeyOrderIrrelevant(a: Obs, b: Obs)
    requires WellFormed(a) && WellFormed(b) && SameObs(a, b)
    ensures ToHashable(a) == ToHashable(b)
    decreases a, 0
  {
    match a
    case Listed(items) => SameItemsHash(items, b.items);
    case Dict(entries) => SameDictHash(entries, b.entries);
    case _ =>
  }

  lemma {:induction false} SameItemsHash(a: Items, b: Items)
    requires WellFormedItems(a) && WellFormedItems(b) && SameItems(a, b)
    ensures HashItems(a) == HashItems(b)
    decreases a, 0
  {
    if a.Item? {
      KeyOrderIrrelevant(a.head, b.head);
      SameItemsHash(a.tail, b.tail);
    }
  }

  lemma {:induction false} LookupWellFormed(entries: Entries, key: int)
    requires WellFormedEntries(entries) && key in Keys(entries)
    ensures WellFormed(Lookup(entries, key).value)
  {
    if entries.key != key {
      LookupWellFormed(entries.rest, key);
    }
  }

  lemma {:induction false} SameValuesHash(a: Entries, b: Entries, key: int)
    requires WellFormedEntries(a) && WellFormedEntries(b) && SameEntries(a, b) && key in Keys(a)
    ensures Lookup(b, key).Some? && ToHashable(Lookup(a, key).value) == ToHashable(Lookup(b, key).value)
    decreases a, 0
  {
    if a.key == key {
      LookupWellFormed(b, key);
      KeyOrderIrrelevant(a.value, Lookup(b, key).value);
    } else {
      SameValuesHash(a.rest, b, key);
    }
  }

  lemma LookupRest(entries: Entries, key: int)
    requires entries.Entry? && WellFormedEntries(entries) && key in Keys(entries.rest)
    ensures key in Keys(entries) && Lookup(entries, key) == Lookup(entries.rest, key)
  {
  }

  lemma {:induction false} PairsNeedValues(entries: Entries, key: int)
    requires WellFormedEntries(entries) && SortedPairs(entries).Some? && key in Keys(entries)
    ensures ToHashable(Lookup(entries, key).value).Some?
  {
    if key != entries.key {
      PairsNeedValues(entries.rest, key);
      LookupRest(entries, key);
    }
  }

  lemma {:induction false} ValuesMakePairs(entries: Entries)
    requires WellFormedEntries(entries)
    requires forall key :: key in Keys(entries) ==> ToHashable(Lookup(entries, key).value).Some?
    ensures SortedPairs(entries).Some?
  {
    if entries.Entry? {
      assert entries.key in Keys(entries) && Lookup(entries, entries.key) == Some(entries.value);
      forall key | key in Keys(entries.rest)
        ensures ToHashable(Lookup(entries.rest, key).value).Some?
      {
        LookupRest(entries, key);
      }
      ValuesMakePairs(entries.rest);
    }
  }

  ghost predicate ValuesDefined(entries: Entries) {
    forall key :: key in Keys(entries) ==> ToHashable(Lookup(entries, key).value).Some?
  }

  // A dictionary has no canonical form exactly when some value has none.
  lemma PairsDefined(entries: Entries)
    requires WellFormedEntries(entries)
    ensures SortedPairs(entries).Some? <==> ValuesDefined(entries)
  {
    if ValuesDefined(entries) {
      ValuesMakePairs(entries);
    }
    if SortedPairs(entries).Some? {
      forall key | key in Keys(entries)
        ensures ToHashable(Lookup(entries, key).value).Some?
      {
        PairsNeedValues(entries, key);
      }
    }
  }

  lemma {:induction false} SameDictHash(a: Entries, b: Entries)
    requires WellFormedEntries(a) && WellFormedEntries(b) && Keys(a) == Keys(b) && SameEntries(a, b)
    ensures SortedPairs(a) == SortedPairs(b)
    decreases a, 1
  {
    forall key | key in Keys(a)
      ensures Lookup(b, key).Some? && ToHashable(Lookup(a, key).value) == ToHashable(Lookup(b, key).value)
    {
      SameValuesHash(a, b, key);
    }
    PairsDefined(a);
    PairsDefined(b);
    if SortedPairs(a).Some? {
      forall p: Pair
        ensures p in SortedPairs(a).value <==> p in SortedPairs(b).value
      {
        PairsAreEntries(a, p);
        PairsAreEntries(b, p);
      }
      PairsIncrease(a);
      PairsIncrease(b);
      IncreasingUnique(SortedPairs(a).value, SortedPairs(b).value);
    }
  }

  // The converse fails: flattening an array forgets its shape.
  lemma ShapeForgotten()
    ensures ToHashable(Array([1, 2], [7, 8])) == ToHashable(Array([2, 1], [7, 8]))
    ensures !SameObs(Array([1, 2], [7, 8]), Array([2, 1], [7, 8]))
  {
    assert [1, 2][0] != [2, 1][0];
  }

  // ----- When equal canonical forms mean equal observations -----

  // The same kind of value at every shared place, and the same shape where both are arrays.
  predicate SameForm(a: Obs, b: Obs)
    decreases a
  {
    match a
    case Scalar(_) => b.Scalar?
    case Array(shape, _) => b.Array? && shape == b.shape
    case Listed(items) => b.Listed? && SameFormItems(items, b.items)
    case Dict(entries) => b.Dict? && SameFormEntries(entries, b.entries)
    case Unsupported => b.Unsupported?
  }

  predicate SameFormItems(a: Items, b: Items)
    decreases a
  {
    a.Item? && b.Item? ==> SameForm(a.head, b.head) && SameFormItems(a.tail, b.tail)
  }

  predicate SameFormEntries(a: Entries, b: Entries)
    decreases a
  {
    match a
    case NoEntry => true
    case Entry(key, value, rest) =>
      && (Lookup(b, key).Some? ==> SameForm(value, Lookup(b, key).value))
      && SameFormEntries(rest, b)
  }

  lemma {:induction false} SameHasForm(a: Obs, b: Obs)
    requires SameObs(a, b)
    ensures SameForm(a, b)
    decreases a
  {
    match a
    case Listed(items) => SameItemsHaveForm(items, b.items);
    case Dict(entries) => SameEntriesHaveForm(entries, b.entries);
    case _ =>
  }

  lemma {:induction false} SameItemsHaveForm(a: Items, b: Items)
    requires SameItems(a, b)
    ensures SameFormItems(a, b)
    decreases a
  {
    if a.Item? {
      SameHasForm(a.head, b.head);
      SameItemsHaveForm(a.tail, b.tail);
    }
  }

  lemma {:induction false} SameEntriesHaveForm(a: Entries, b: Entries)
    requires SameEntries(a, b)
    ensures SameFormEntries(a, b)
    decreases a
  {
    if a.Entry? {
      SameHasForm(a.value, Lookup(b, a.key).value);
      SameEntriesHaveForm(a.rest, b);
    }
  }

  lemma ArrayHash(a: Obs, b: Obs)
    requires a.Array? && b.Array? && a.shape == b.shape && ToHashable(a) == ToHashable(b)
    ensures a == b
  {
    var x, y := ToHashable(a).value.parts, ToHashable(b).value.parts;
    assert |x| == |a.flat| && |y| == |b.flat|;
    forall i | 0 <= i < |a.flat|
      ensures a.flat[i] == b.flat[i]
    {
      assert x[i] == Plain(a.flat[i]) && y[i] == Plain(b.flat[i]);
    }
  }

  lemma AsTuplesInjective(s: seq<Pair>, t: seq<Pair>)
    requires AsTuples(s) == AsTuples(t)
    ensures s == t
  {
    assert |s| == |AsTuples(s)| == |t|;
    forall i | 0 <= i < |s|
      ensures s[i] == t[i]
    {
      assert AsTuples(s)[i].parts == [Plain(s[i].0), s[i].1];
      assert AsTuples(t)[i].parts == [Plain(t[i].0), t[i].1];
      assert AsTuples(s)[i].parts[0] == AsTuples(t)[i].parts[0] && AsTuples(s)[i].parts[1] == AsTuples(t)[i].parts[1];
    }
  }

  // Dictionaries with the same pairs have the same keys, with equal canonical values.
  lemma SamePairs(a: Entries, b: Entries, key: int)
    requires WellFormedEntries(a) && WellFormedEntries(b)
    requires SortedPairs(a).Some? && SortedPairs(a) == SortedPairs(b) && key in Keys(a)
    ensures key in Keys(b) && ToHashable(Lookup(a, key).value).Some?
    ensures ToHashable(Lookup(a, key).value) == ToHashable(Lookup(b, key).value)
  {
    PairsDefined(a);
    var p := (key, ToHashable(Lookup(a, key).value).value);
    PairsAreEntries(a, p);
    PairsAreEntries(b, p);
  }

  lemma {:induction false} FormDecides(a: Obs, b: Obs)
    requires WellFormed(a) && WellFormed(b) && SameForm(a, b)
    requires ToHashable(a).Some? && ToHashable(a) == ToHashable(b)
    ensures SameObs(a, b)
    decreases a, 0
  {
    match a
    case Scalar(_) =>
    case Array(_, _) => ArrayHash(a, b);
    case Listed(items) => FormDecidesItems(items, b.items);
    case Dict(entries) =>
      AsTuplesInjective(SortedPairs(entries).value, SortedPairs(b.entries).value);
      forall key
        ensures key in Keys(entries) <==> key in Keys(b.entries)
      {
        if key in Keys(entries) {
          SamePairs(entries, b.entries, key);
        } else if key in Keys(b.entries) {
          SamePairs(b.entries, entries, key);
        }
      }
      FormDecidesEntries(entries, entries, b.entries);
    case Unsupported =>
  }

  lemma {:induction false} FormDecidesItems(a: Items, b: Items)
    requires WellFormedItems(a) && WellFormedItems(b) && SameFormItems(a, b)
    requires HashItems(a).Some? && HashItems(a) == HashItems(b)
    ensures SameItems(a, b)
    decreases a, 0
  {
    if a.Item? {
      var s, t := HashItems(a).value, HashItems(b).value;
      assert b.Item?;
      assert s[0] == ToHashable(a.head).value && s[1..] == HashItems(a.tail).value;
      assert t[0] == ToHashable(b.head).value && t[1..] == HashItems(b.tail).value;
      FormDecides(a.head, b.head);
      FormDecidesItems(a.tail, b.tail);
    } else {
      assert HashItems(b).value == [];
    }
  }

  // Entry by entry, over what is left of the first dictionary.
  lemma {:induction false} FormDecidesEntries(rest: Entries, a: Entries, b: Entries)
    requires WellFormedEntries(rest) && WellFormedEntries(a) && WellFormedEntries(b) && SameFormEntries(rest, b)
    requires SortedPairs(a).Some? && SortedPairs(a) == SortedPairs(b)
    requires forall key :: key in Keys(rest) ==> key in Keys(a) && Lookup(rest, key) == Lookup(a, key)
    ensures SameEntries(rest, b)
    decreases rest, 0
  {
    if rest.Entry? {
      var key := rest.key;
      assert key in Keys(rest) && Lookup(rest, key) == Some(rest.value);
      SamePairs(a, b, key);
      LookupWellFormed(b, key);
      FormDecides(rest.value, Lookup(b, key).value);
      forall k | k in Keys(rest.rest)
        ensures k in Keys(a) && Lookup(rest.rest, k) == Lookup(a, k)
      {
        assert k in Keys(rest) && Lookup(rest, k) == Lookup(rest.rest, k);
      }
      FormDecidesEntries(rest.rest, a, b);
    }
  }

  // Observations with one canonical form are equal, up to dictionary order, exactly when they
  // have the same form.
  lemma EqualExactly(a: Obs, b: Obs)
    requires WellFormed(a) && WellFormed(b) && ToHashable(a).Some? && ToHashable(a) == ToHashable(b)
    ensures SameObs(a, b) <==> SameForm(a, b)
  {
    if SameForm(a, b) {
      FormDecides(a, b);
    }
    if SameObs(a, b) {
      SameHasForm(a, b);
    }
  }

  // And the other way about: between observations of one form, the canonical form is exact.
  lemma HashExactly(a: Obs, b: Obs)
    requires WellFormed(a) && WellFormed(b) && ToHashable(a).Some? && SameForm(a, b)
    ensures ToHashable(a) == ToHashable(b) <==> SameObs(a, b)
  {
    if ToHashable(a) == ToHashable(b) {
      EqualExactly(a, b);
    }
    if SameObs(a, b) {
      KeyOrderIrrelevant(a, b);
    }
  }
}
