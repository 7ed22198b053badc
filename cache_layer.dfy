/**
 * The registry of floor cache layers: the array `CacheLayer.all`, in which
 * every layer's `id` is its index. Inserting a layer shifts the layers after
 * it one place up and renumbers them, so the numbering stays exact.
 */
module CacheLayers {

  /** A cache layer; only its place in the registry is modelled. */
  class CacheLayer {
    const name: string
    var id: int

    constructor(name: string)
      ensures this.name == name && id == 0
    {
      this.name := name;
      id := 0;
    }
  }

  /** The layers that the registry's tests refer to by name. */
  const BuiltIn: seq<string> := ["water", "mud", "tar", "slag", "arkycite", "cryofluid", "space", "normal"]

  /** `xs` with `x` placed at index pos, the elements from pos on moved one place up. */
  function Insert<T>(xs: seq<T>, pos: nat, x: T): (r: seq<T>)
    requires pos <= |xs|
    ensures |r| == |xs| + 1 && r[pos] == x
    ensures forall i :: 0 <= i < pos ==> r[i] == xs[i]
    ensures forall i :: pos < i < |r| ==> r[i] == xs[i - 1]
  {
    xs[..pos] + [x] + xs[pos..]
  }

  /** Every layer's id is its index. */
  ghost predicate Numbered(all: seq<CacheLayer>)
    reads all
  {
    forall i :: 0 <= i < |all| ==> all[i].id == i
  }

  /** Numbered layers are distinct objects: no layer can hold two ids at once. */
  lemma NumberedDistinct(all: seq<CacheLayer>, i: int, j: int)
    requires Numbered(all) && 0 <= i < j < |all|
    ensures all[i] != all[j]
  {
    assert all[i].id == i && all[j].id == j;
  }

  /** No layer appears twice. */
  predicate Distinct(all: seq<CacheLayer>) {
    forall i, j :: 0 <= i < j < |all| ==> all[i] != all[j]
  }

  /** A new layer inserted into numbered layers gives distinct layers. */
  lemma InsertDistinct(all: seq<CacheLayer>, pos: nat, layer: CacheLayer)
    requires Numbered(all) && pos <= |all| && layer !in all
    ensures Distinct(Insert(all, pos, layer))
  {
    var r := Insert(all, pos, layer);
    forall i, j | 0 <= i < j < |r| ensures r[i] != r[j] {
      var i' := if i < pos then i else i - 1;
      var j' := if j < pos then j else j - 1;
      if i == pos {
        assert r[j] == all[j'];
      } else if j == pos {
        assert r[i] == all[i'];
      } else {
        NumberedDistinct(all, i', j');
      }
    }
  }

  /** Insertion keeps the layers in order and only moves the ones it passes. */
  lemma InsertKeepsOthers<T>(xs: seq<T>, pos: nat, x: T)
    requires pos <= |xs|
    ensures Insert(xs, pos, x)[..pos] == xs[..pos]
    ensures Insert(xs, pos, x)[pos + 1..] == xs[pos..]
    ensures multiset(Insert(xs, pos, x)) == multiset(xs) + multiset{x}
  {
    var r := Insert(xs, pos, x);
    assert r == xs[..pos] + [x] + xs[pos..];
    assert xs == xs[..pos] + xs[pos..];
  }

  /** CacheLayer.all and the static operations on it. */
  class Registry {
    var all: seq<CacheLayer>

    ghost predicate Valid()
      reads this, all
    {
      Numbered(all)
    }

    constructor()
      ensures Valid() && all == []
    {
      all := [];
    }

    /** Give every layer its index as id. */
    method Renumber()
      requires Distinct(all)
      modifies all
      ensures Valid() && all == old(all)
      ensures forall i :: 0 <= i < |all| ==> all[i].name == old(all[i].name)
    {
      var k := 0;
      while k < |all|
        invariant 0 <= k <= |all|
        invariant forall i :: 0 <= i < k ==> all[i].id == i
      {
        all[k].id := k;
        k := k + 1;
      }
    }

    /** add(pos, layer): insert at pos and renumber. */
    method AddAt(pos: nat, layer: CacheLayer)
      requires Valid() && pos <= |all| && layer !in all
      modifies this`all, all, layer
      ensures Valid() && all == Insert(old(all), pos, layer) && layer.id == pos
    {
      InsertDistinct(all, pos, layer);
      all := Insert(all, pos, layer);
      Renumber();
    }

    /** add(layer): insert at a position the registry chooses and renumber. */
    method Add(layer: CacheLayer)
      requires Valid() && layer !in all
      modifies this`all, all, layer
      ensures Valid() && |all| == |old(all)| + 1
      ensures exists pos :: 0 <= pos <= |old(all)| && all == Insert(old(all), pos, layer)
    {
      var pos :| 0 <= pos <= |all|;
      AddAt(pos, layer);
    }

    /** addLast(layer): append and number the new layer. */
    method AddLast(layer: CacheLayer)
      requires Valid() && layer !in all
      modifies this`all, layer
      ensures Valid() && all == old(all) + [layer] && layer.id == |all| - 1
    {
      layer.id := |all|;
      all := all + [layer];
    }

    /** init: register the built-in layers after any already present. */
    method Init()
      requires Valid()
      modifies this`all
      ensures Valid() && |all| == |old(all)| + |BuiltIn| && all[..|old(all)|] == old(all)
      ensures forall i :: 0 <= i < |BuiltIn| ==> all[|old(all)| + i].name == BuiltIn[i]
      ensures exists i :: 0 <= i < |all| && all[i].name == "normal"
      ensures exists i :: 0 <= i < |all| && all[i].name == "water"
    {
      var n := |all|;
      var k := 0;
      while k < |BuiltIn|
        invariant 0 <= k <= |BuiltIn|
        invariant Valid() && |all| == n + k && all[..n] == old(all)
        invariant forall i :: 0 <= i < k ==> all[n + i].name == BuiltIn[i]
      {
        var layer := new CacheLayer(BuiltIn[k]);
        AddLast(layer);
        k := k + 1;
      }
      assert BuiltIn[7] == "normal" && BuiltIn[0] == "water";
      assert all[n + 7].name == "normal" && all[n].name == "water";
    }
  }
}
