/** Python dictionaries as the capability tables use them: an association
    list in insertion order whose keys are pairwise distinct. `Put` is
    `d[k] = v` (an existing key keeps its place, a new key goes last), `Update`
    is `d.update(e)`, and `MergeLayers` is the loop that folds `update` over a
    class chain, base class first. */
module Dicts {
  import opened Values
  import opened Sequences

  type Dict<K, V> = seq<(K, V)>

  function Keys<K, V>(d: Dict<K, V>): seq<K>
  {
    seq(|d|, i requires 0 <= i < |d| => d[i].0)
  }

  predicate Distinct<K(==)>(s: seq<K>)
  {
    forall i, j :: 0 <= i < j < |s| ==> s[i] != s[j]
  }

  /** What every Python dict satisfies: no key occurs twice. */
  predicate WellFormed<K(==), V>(d: Dict<K, V>)
  {
    Distinct(Keys(d))
  }

  /** The keys of a non-empty dict: its first key, then the keys of the rest. */
  lemma KeysCons<K, V>(d: Dict<K, V>)
    requires d != []
    ensures Keys(d) == [d[0].0] + Keys(d[1..])
  {
    assert forall j :: 0 <= j < |d| - 1 ==> Keys(d[1..])[j] == Keys(d)[j + 1];
  }

  /** The position of `k` in `d`, if any. */
  function IndexOf<K(==), V>(d: Dict<K, V>, k: K): (r: Option<nat>)
    ensures r.Some? ==> r.value < |d| && d[r.value].0 == k
    ensures r.Some? ==> forall j :: 0 <= j < r.value ==> d[j].0 != k
    ensures r.None? <==> k !in Keys(d)
    decreases |d|
  {
    if d == [] then None
    else
      KeysCons(d);
      if d[0].0 == k then Some(0)
      else match IndexOf(d[1..], k)
      case None => None
      case Some(i) => Some(i + 1)
  }

  /** The Python `d.get(k)`. */
  function Get<K(==), V>(d: Dict<K, V>, k: K): (r: Option<V>)
    ensures r.Some? <==> k in Keys(d)
    ensures r.Some? ==> (k, r.value) in d
  {
    match IndexOf(d, k)
    case None => None
    case Some(i) => Some(d[i].1)
  }

  /** In a well-formed dict, every entry is what `get` returns for its key. */
  lemma GetEntry<K, V>(d: Dict<K, V>, i: nat)
    requires WellFormed(d) && i < |d|
    ensures Get(d, d[i].0) == Some(d[i].1)
  {
    assert Keys(d)[i] == d[i].0;
    var j := IndexOf(d, d[i].0);
    assert Keys(d)[j.value] == d[j.value].0;
  }

  /** In a well-formed dict, every key is found at its own position. */
  lemma IndexOfEntry<K, V>(d: Dict<K, V>, i: nat)
    requires WellFormed(d) && i < |d|
    ensures IndexOf(d, d[i].0) == Some(i)
  {
    forall l | 0 <= l < i ensures d[l].0 != d[i].0 {
      assert Keys(d)[l] == d[l].0 && Keys(d)[i] == d[i].0;
    }
    FirstOccurrence(d, d[i].0, i);
  }

  /** The Python `d[k] = v`. */
  function Put<K(==), V>(d: Dict<K, V>, k: K, v: V): (r: Dict<K, V>)
    ensures Keys(r) == if k in Keys(d) then Keys(d) else Keys(d) + [k]
    ensures WellFormed(d) ==> WellFormed(r)
  {
    match IndexOf(d, k)
    case Some(i) =>
      assert forall j :: 0 <= j < |d| ==> Keys(d[i := (k, v)])[j] == Keys(d)[j];
      d[i := (k, v)]
    case None =>
      assert forall j :: 0 <= j < |d| ==> Keys(d + [(k, v)])[j] == Keys(d)[j];
      d + [(k, v)]
  }

  /** `IndexOf` finds the first occurrence of a key. */
  lemma FirstOccurrence<K, V>(d: Dict<K, V>, k: K, i: nat)
    requires i < |d| && d[i].0 == k
    requires forall l :: 0 <= l < i ==> d[l].0 != k
    ensures IndexOf(d, k) == Some(i)
  {
    assert Keys(d)[i] == k;
  }

  /** After `d[k] = v`, `get` answers `v` for `k` and is unchanged elsewhere. */
  lemma PutGet<K, V>(d: Dict<K, V>, k: K, v: V, j: K)
    ensures Get(Put(d, k, v), j) == if j == k then Some(v) else Get(d, j)
  {
    var r := Put(d, k, v);
    match IndexOf(d, k)
    case Some(i) =>
      assert r == d[i := (k, v)];
      if j == k {
        FirstOccurrence(r, k, i);
      } else {
        match IndexOf(d, j)
        case Some(m) =>
          FirstOccurrence(r, j, m);
        case None =>
          assert j !in Keys(r);
      }
    case None =>
      assert r == d + [(k, v)];
      if j == k {
        forall l | 0 <= l < |d| ensures r[l].0 != k {
          assert Keys(d)[l] == d[l].0;
        }
        FirstOccurrence(r, k, |d|);
      } else {
        match IndexOf(d, j)
        case Some(m) =>
          FirstOccurrence(r, j, m);
        case None =>
          assert j !in Keys(r);
      }
  }

  /** The keys of `ks` that are not in `seen`, each once, in the order in
      which they first appear. */
  function FreshKeys<K(==)>(ks: seq<K>, seen: seq<K>): seq<K>
    decreases |ks|
  {
    if ks == [] then []
    else if ks[0] in seen then FreshKeys(ks[1..], seen)
    else [ks[0]] + FreshKeys(ks[1..], seen + [ks[0]])
  }

  /** The Python `d.update(e)`: the entries of `e`, in order, put into `d`.
      The keys of `d` keep their places and the new keys of `e` follow, in
      the order of `e`. */
  function Update<K(==,!new), V>(d: Dict<K, V>, e: Dict<K, V>): (r: Dict<K, V>)
    ensures WellFormed(d) ==> WellFormed(r)
    ensures Keys(r) == Keys(d) + FreshKeys(Keys(e), Keys(d))
    ensures |Keys(d)| <= |Keys(r)| && Keys(r)[..|Keys(d)|] == Keys(d)
    ensures forall k :: k in Keys(r) <==> k in Keys(d) || k in Keys(e)
    decreases |e|
  {
    if e == [] then d
    else
      KeysCons(e);
      var k := e[0].0;
      var r := Update(Put(d, k, e[0].1), e[1..]);
      if k in Keys(d) then r
      else
        AppendAssociative(Keys(d), [k], FreshKeys(Keys(e[1..]), Keys(d) + [k]));
        r
  }

  /** Fresh keys of a concatenation: those of the first part, then those of
      the second part that neither `seen` nor the first part holds. */
  lemma {:induction false} FreshKeysAppend<K>(xs: seq<K>, ys: seq<K>, seen: seq<K>)
    ensures FreshKeys(xs + ys, seen) == FreshKeys(xs, seen) + FreshKeys(ys, seen + FreshKeys(xs, seen))
    decreases |xs|
  {
    if xs == [] {
      assert xs + ys == ys;
      assert seen + [] == seen;
    } else {
      assert (xs + ys)[0] == xs[0] && (xs + ys)[1..] == xs[1..] + ys;
      if xs[0] in seen {
        FreshKeysAppend(xs[1..], ys, seen);
      } else {
        var seen' := seen + [xs[0]];
        FreshKeysAppend(xs[1..], ys, seen');
        var f := FreshKeys(xs[1..], seen');
        AppendAssociative(seen, [xs[0]], f);
        AppendAssociative([xs[0]], f, FreshKeys(ys, seen' + f));
      }
    }
  }

  /** Updating with a dict none of whose keys is present appends its
      entries in order (so `{}.update(e)` is `e`). */
  lemma {:induction false} UpdateFresh<K(!new), V>(d: Dict<K, V>, e: Dict<K, V>)
    requires WellFormed(e)
    requires forall k :: k in Keys(e) ==> k !in Keys(d)
    ensures Update(d, e) == d + e
    decreases |e|
  {
    if e == [] {
      assert d + e == d;
    } else {
      WellFormedTail(e);
      assert e[0].0 !in Keys(d);
      var d' := d + [e[0]];
      assert Put(d, e[0].0, e[0].1) == d';
      assert Keys(d') == Keys(d) + [e[0].0];
      forall k | k in Keys(e[1..]) ensures k !in Keys(d') {
        assert k in Keys(e);
      }
      UpdateFresh(d', e[1..]);
      assert e == [e[0]] + e[1..];
      AppendAssociative(d, [e[0]], e[1..]);
    }
  }

  /** `get` on a non-empty dict: the first entry, or `get` on the rest. */
  lemma GetCons<K, V>(e: Dict<K, V>, k: K)
    requires e != []
    ensures Get(e, k) == if k == e[0].0 then Some(e[0].1) else Get(e[1..], k)
  {
    KeysCons(e);
  }

  /** The rest of a dict is a dict, and does not contain the first key. */
  lemma WellFormedTail<K, V>(e: Dict<K, V>)
    requires e != [] && WellFormed(e)
    ensures WellFormed(e[1..]) && e[0].0 !in Keys(e[1..])
    ensures Keys(e) == [e[0].0] + Keys(e[1..])
  {
    var t := e[1..];
    assert forall i :: 0 <= i < |t| ==> Keys(t)[i] == Keys(e)[i + 1];
    assert Keys(e) == [e[0].0] + Keys(t);
    forall i, j | 0 <= i < j < |Keys(t)| ensures Keys(t)[i] != Keys(t)[j] {
      assert Keys(e)[i + 1] != Keys(e)[j + 1];
    }
    forall i | 0 <= i < |t| ensures Keys(t)[i] != e[0].0 {
      assert Keys(e)[0] != Keys(e)[i + 1];
    }
  }

  /** After `d.update(e)` with `e` a dict, `get` answers from `e` for the keys
      of `e` and from `d` for every other key. */
  lemma {:induction false} UpdateGet<K(!new), V>(d: Dict<K, V>, e: Dict<K, V>, k: K)
    requires WellFormed(e)
    ensures Get(Update(d, e), k) == if k in Keys(e) then Get(e, k) else Get(d, k)
    decreases |e|
  {
    if e != [] {
      WellFormedTail(e);
      GetCons(e, k);
      UpdateGet(Put(d, e[0].0, e[0].1), e[1..], k);
      PutGet(d, e[0].0, e[0].1, k);
    }
  }

  /** The dict that `_collect_available_preset_modes` and
      `_collect_available_speeds` build: start from `{}` and `update` with
      each layer of the class chain, base class first. */
  function MergeLayers<K(==,!new), V>(layers: seq<Dict<K, V>>): (r: Dict<K, V>)
    ensures Keys(r) == FreshKeys(ChainKeys(layers), [])
  {
    if layers == [] then []
    else
      var front, last := layers[..|layers| - 1], layers[|layers| - 1];
      var r := Update(MergeLayers(front), last);
      assert ChainKeys(layers) == ChainKeys(front) + Keys(last);
      FreshKeysAppend(ChainKeys(front), Keys(last), []);
      assert [] + FreshKeys(ChainKeys(front), []) == FreshKeys(ChainKeys(front), []);
      r
  }

  /** The keys of every layer, base class first, duplicates kept. */
  function ChainKeys<K, V>(layers: seq<Dict<K, V>>): seq<K>
  {
    if layers == [] then []
    else ChainKeys(layers[..|layers| - 1]) + Keys(layers[|layers| - 1])
  }

  /** The reference answer for key `k`: its value in the most derived layer
      that defines it. */
  function LastDefinition<K(==), V>(layers: seq<Dict<K, V>>, k: K): Option<V>
  {
    if layers == [] then None
    else if k in Keys(layers[|layers| - 1]) then Get(layers[|layers| - 1], k)
    else LastDefinition(layers[..|layers| - 1], k)
  }

  predicate AllWellFormed<K(==), V>(layers: seq<Dict<K, V>>)
  {
    forall i :: 0 <= i < |layers| ==> WellFormed(layers[i])
  }

  /** Some layer of the chain defines `k`. */
  ghost predicate DefinedIn<K, V>(layers: seq<Dict<K, V>>, k: K)
  {
    exists i :: 0 <= i < |layers| && k in Keys(layers[i])
  }

  /** Merging the class chain gives a dict (no key twice, so the list of mode
      names has no duplicate) whose keys are exactly the keys of all layers,
      and whose value for each key comes from the most derived layer that
      defines it. */
  lemma MergeLayersSpec<K(!new), V>(layers: seq<Dict<K, V>>)
    requires AllWellFormed(layers)
    ensures WellFormed(MergeLayers(layers))
    ensures forall k :: k in Keys(MergeLayers(layers)) <==> DefinedIn(layers, k)
    ensures forall k :: Get(MergeLayers(layers), k) == LastDefinition(layers, k)
  {
    MergeWellFormed(layers);
    forall k ensures k in Keys(MergeLayers(layers)) <==> DefinedIn(layers, k) {
      MergeKeys(layers, k);
    }
    forall k ensures Get(MergeLayers(layers), k) == LastDefinition(layers, k) {
      MergeGet(layers, k);
    }
  }

  lemma {:induction false} MergeWellFormed<K(!new), V>(layers: seq<Dict<K, V>>)
    ensures WellFormed(MergeLayers(layers))
  {
    if layers != [] {
      MergeWellFormed(layers[..|layers| - 1]);
    }
  }

  lemma {:induction false} MergeKeys<K(!new), V>(layers: seq<Dict<K, V>>, k: K)
    ensures k in Keys(MergeLayers(layers)) <==> DefinedIn(layers, k)
  {
    if layers != [] {
      var front, last := layers[..|layers| - 1], layers[|layers| - 1];
      MergeKeys(front, k);
      assert MergeLayers(layers) == Update(MergeLayers(front), last);
      DefinedInSnoc(layers, k);
    }
  }

  /** A key is defined in a non-empty chain when it is defined in the chain
      without its last layer or in that layer. */
  lemma DefinedInSnoc<K, V>(layers: seq<Dict<K, V>>, k: K)
    requires layers != []
    ensures DefinedIn(layers, k) <==> DefinedIn(layers[..|layers| - 1], k) || k in Keys(layers[|layers| - 1])
  {
    var front := layers[..|layers| - 1];
    if DefinedIn(front, k) {
      var i :| 0 <= i < |front| && k in Keys(front[i]);
      assert layers[i] == front[i];
    }
    if DefinedIn(layers, k) && k !in Keys(layers[|layers| - 1]) {
      var i :| 0 <= i < |layers| && k in Keys(layers[i]);
      assert i < |front| && front[i] == layers[i];
    }
  }

  lemma {:induction false} MergeGet<K(!new), V>(layers: seq<Dict<K, V>>, k: K)
    requires AllWellFormed(layers)
    ensures Get(MergeLayers(layers), k) == LastDefinition(layers, k)
  {
    if layers != [] {
      var front, last := layers[..|layers| - 1], layers[|layers| - 1];
      assert AllWellFormed(front) by {
        forall i | 0 <= i < |front| ensures WellFormed(front[i]) {
          assert front[i] == layers[i];
        }
      }
      MergeGet(front, k);
      assert WellFormed(last);
      UpdateGet(MergeLayers(front), last, k);
    }
  }

  /** Merging keeps the order in which keys first appear: the merge of a
      prefix of the chain is a prefix of the merge of the whole chain. */
  lemma {:induction false} MergeLayersPrefix<K(!new), V>(layers: seq<Dict<K, V>>, n: nat)
    requires n <= |layers|
    ensures |Keys(MergeLayers(layers[..n]))| <= |Keys(MergeLayers(layers))|
    ensures Keys(MergeLayers(layers)) [..|Keys(MergeLayers(layers[..n]))|] == Keys(MergeLayers(layers[..n]))
    decreases |layers|
  {
    if n < |layers| {
      var front := layers[..|layers| - 1];
      assert front[..n] == layers[..n];
      MergeLayersPrefix(front, n);
    } else {
      assert layers[..n] == layers;
    }
  }
}
