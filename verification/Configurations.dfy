/**
The configuration client: nested maps that are filled in place, one dotted key after
the other, in any order of the keys.
 */
module Configurations {
  import opened Wrappers
  import opened ConfigTree

  datatype Cell = Scalar(value: Value) | Inner(node: MapNode)

  /** A map that may hold other maps. */
  class MapNode {
    var cells: map<string, Cell>

    /** This map and all maps below it, and the part of them below each key. */
    ghost var repr: set<MapNode>
    ghost var parts: map<string, set<MapNode>>

    /** The tree that they stand for. */
    ghost var entries: map<string, Tree>

    constructor ()
      ensures Valid() && fresh(this) && repr == {this} && entries == map[]
    {
      cells := map[];
      repr := {this};
      parts := map[];
      entries := map[];
    }

    /** A nested map belongs to one place only. */
    ghost predicate Valid()
      reads this, repr
      decreases repr, 0
    {
      && this in repr
      && entries.Keys == cells.Keys == parts.Keys
      && Apart(parts)
      && (forall k :: k in cells ==> parts[k] <= repr && this !in parts[k] && Fits(cells[k], entries[k], parts[k]))
    }
  }

  ghost predicate Apart(parts: map<string, set<MapNode>>) {
    forall k, k' :: k in parts && k' in parts && k != k' ==> parts[k] !! parts[k']
  }

  /** The cell stands for the tree and is made of the part. */
  ghost predicate Fits(c: Cell, t: Tree, part: set<MapNode>)
    reads part
    decreases part, 1
  {
    match c
    case Scalar(v) => t == Leaf(v)
    case Inner(n) => n in part && n.repr == part && n.Valid() && t == Node(n.entries)
  }

  /** All cells but one are in order, and made of other maps than the part. */
  ghost predicate ValidBut(data: MapNode, key: string, part: set<MapNode>)
    reads data, data.repr
  {
    && data in data.repr && data !in part
    && data.entries.Keys == data.cells.Keys == data.parts.Keys
    && Apart(data.parts)
    && (forall k :: k in data.cells ==> data.parts[k] <= data.repr && data !in data.parts[k])
    && (forall k :: k in data.cells && k != key ==>
                      data.parts[k] !! part && Fits(data.cells[k], data.entries[k], data.parts[k]))
  }

  lemma StillApart(parts: map<string, set<MapNode>>, key: string, part: set<MapNode>)
    requires Apart(parts) && forall k :: k in parts && k != key ==> parts[k] !! part
    ensures Apart(parts[key := part])
  {
  }

  /** Sets one cell of a map whose other cells are in order. */
  method Put(data: MapNode, key: string, c: Cell, ghost t: Tree, ghost part: set<MapNode>)
    requires ValidBut(data, key, part) && Fits(c, t, part)
    modifies data
    ensures data.Valid() && data.repr == old(data.repr) + part
    ensures data.entries == old(data.entries)[key := t]
  {
    ghost var cells, entries, parts := data.cells, data.entries, data.parts;
    StillApart(parts, key, part);
    data.cells, data.entries, data.parts, data.repr :=
      data.cells[key := c], data.entries[key := t], data.parts[key := part], data.repr + part;
    forall k | k in data.cells
      ensures data.parts[k] <= data.repr && data !in data.parts[k]
              && Fits(data.cells[k], data.entries[k], data.parts[k])
    {
      if k == key {
        assert Fits(c, t, part);
      } else {
        assert Fits(cells[k], entries[k], parts[k]);
      }
    }
  }

  /** The map under a key, or a new one. */
  method InnerMap(data: MapNode, key: string) returns (inner: MapNode)
    requires data.Valid() && (key in data.cells ==> data.cells[key].Inner?)
    ensures inner.Valid() && inner.entries == Below(data.entries, key)
    ensures ValidBut(data, key, inner.repr)
    ensures fresh(inner.repr) || inner.repr <= data.repr
  {
    if key in data.cells {
      inner := data.cells[key].node;
      assert Fits(data.cells[key], data.entries[key], data.parts[key]);
    } else {
      inner := new MapNode();
    }
  }

  /** Stores the value under the segments from `index` on. A failing type assertion ends the program. */
  method Parse(data: MapNode, keySegments: Path, index: nat, val: string) returns (panics: bool)
    requires data.Valid() && index <= |keySegments|
    modifies data.repr
    ensures panics <==> Insert(old(data.entries), keySegments[index..], val).None?
    ensures !panics ==>
              && data.Valid() && fresh(data.repr - old(data.repr))
              && Insert(old(data.entries), keySegments[index..], val) == Some(data.entries)
    decreases |keySegments| - index, 1
  {
    if index >= |keySegments| {
      return false;
    }
    var key := keySegments[index];
    assert keySegments[index..][1..] == keySegments[index + 1..];
    if key in data.cells && data.cells[key].Scalar? {
      assert Fits(data.cells[key], data.entries[key], data.parts[key]);
      return true;
    }
    var inner := InnerMap(data, key);
    panics := ParseBelow(data, key, inner, keySegments, index, val);
    if panics {
      return;
    }
    Store(data, key, inner, val);
  }

  /** An inner map that is still empty becomes the value. */
  method Store(data: MapNode, key: string, inner: MapNode, val: string)
    requires ValidBut(data, key, inner.repr) && inner.Valid()
    modifies data
    ensures data.Valid() && data.repr <= old(data.repr) + inner.repr
    ensures data.entries ==
            old(data.entries)[key := if inner.entries == map[] then Leaf(Coerce(val)) else Node(inner.entries)]
  {
    if |inner.cells| == 0 {
      Put(data, key, Scalar(Coerce(val)), Leaf(Coerce(val)), {});
    } else {
      Put(data, key, Inner(inner), Node(inner.entries), inner.repr);
    }
  }

  /** Goes on in the map under the key, which is not yet, or no longer, part of the data. */
  method ParseBelow(data: MapNode, key: string, inner: MapNode, keySegments: Path, index: nat, val: string)
    returns (panics: bool)
    requires ValidBut(data, key, inner.repr) && inner.Valid() && index < |keySegments|
    modifies inner.repr
    ensures panics <==> Insert(old(inner.entries), keySegments[index + 1..], val).None?
    ensures !panics ==>
              && ValidBut(data, key, inner.repr) && inner.Valid() && fresh(inner.repr - old(inner.repr))
              && Insert(old(inner.entries), keySegments[index + 1..], val) == Some(inner.entries)
    decreases |keySegments| - index, 0
  {
    panics := Parse(inner, keySegments, index + 1, val);
    assert forall k :: k in data.cells && k != key ==> Fits(data.cells[k], data.entries[k], data.parts[k]);
  }

  // ------------------------------------------------------------------ all configurations

  predicate Given(configs: map<string, string>, key: string) {
    key in configs && configs[key] != ""
  }

  /** No key that has a value is a beginning, segment by segment, of another one. */
  ghost predicate PrefixFreeKeys(configs: map<string, string>) {
    forall k, k' :: Given(configs, k) && Given(configs, k') && k != k' ==> !IsPrefix(Split(k), Split(k'))
  }

  /** The flat form of the configuration: what a path stands for. */
  function Flat(configs: map<string, string>, q: Path): Option<Value> {
    if q != [] && Given(configs, Join(q)) && Split(Join(q)) == q then Some(Coerce(configs[Join(q)])) else None
  }

  /** A path stands for something exactly if it belongs to a key with a value that is not empty, and then for that. */
  lemma FlatExactly(configs: map<string, string>, q: Path)
    ensures Flat(configs, q).Some? <==> exists k :: k in configs && configs[k] != "" && Split(k) == q
    ensures forall k :: k in configs && configs[k] != "" && Split(k) == q ==>
              Flat(configs, q) == Some(Coerce(configs[k]))
  {
    forall k | k in configs && configs[k] != "" && Split(k) == q
      ensures Flat(configs, q) == Some(Coerce(configs[k]))
    {
      JoinSplit(k);
    }
  }

  /** Different keys that have values, in some order. */
  ghost predicate Visited(configs: map<string, string>, keys: seq<string>) {
    && (forall i :: 0 <= i < |keys| ==> Given(configs, keys[i]))
    && (forall i, j :: 0 <= i < j < |keys| ==> keys[i] != keys[j])
  }

  ghost function EntriesOf(configs: map<string, string>, keys: seq<string>): seq<Entry>
    requires Visited(configs, keys)
  {
    seq(|keys|, i requires 0 <= i < |keys| => Entry(Split(keys[i]), configs[keys[i]]))
  }

  lemma SplitInjective(k: string, k': string)
    ensures Split(k) == Split(k') ==> k == k'
  {
    JoinSplit(k);
    JoinSplit(k');
  }

  lemma EntriesDistinct(configs: map<string, string>, keys: seq<string>)
    requires Visited(configs, keys)
    ensures Distinct(EntriesOf(configs, keys))
  {
    forall i, j | 0 <= i < j < |keys|
      ensures Split(keys[i]) != Split(keys[j])
    {
      SplitInjective(keys[i], keys[j]);
    }
  }

  lemma EntriesPrefixFree(configs: map<string, string>, keys: seq<string>)
    requires Visited(configs, keys)
    ensures PrefixFreeKeys(configs) ==> PrefixFree(EntriesOf(configs, keys))
    ensures (forall k :: Given(configs, k) ==> k in keys) && PrefixFree(EntriesOf(configs, keys)) ==>
            PrefixFreeKeys(configs)
  {
    var order := EntriesOf(configs, keys);
    if (forall k :: Given(configs, k) ==> k in keys) && PrefixFree(order) {
      forall k, k' | Given(configs, k) && Given(configs, k') && k != k'
        ensures !IsPrefix(Split(k), Split(k'))
      {
        var i :| 0 <= i < |keys| && keys[i] == k;
        var j :| 0 <= j < |keys| && keys[j] == k';
        assert order[i].path == Split(k) && order[j].path == Split(k');
      }
    }
  }

  lemma EntriesAreFlat(configs: map<string, string>, keys: seq<string>, q: Path)
    requires Visited(configs, keys) && forall k :: Given(configs, k) ==> k in keys
    ensures ValueIn(EntriesOf(configs, keys), q) == Flat(configs, q)
  {
    var order := EntriesOf(configs, keys);
    EntriesDistinct(configs, keys);
    ValueInIsListed(order, q);
    if ValueIn(order, q).Some? {
      var i :| 0 <= i < |order| && order[i].path == q;
      JoinSplit(keys[i]);
      ListedIsValueIn(order, i);
    } else if Flat(configs, q).Some? {
      var i :| 0 <= i < |keys| && keys[i] == Join(q);
      ListedIsValueIn(order, i);
    }
  }

  /** One more key: its value is inserted into the tree so far, and if that fails then the keys are not prefix-free. */
  lemma NextKey(configs: map<string, string>, keys: seq<string>, key: string)
    requires Visited(configs, keys) && Given(configs, key) && key !in keys
    requires InsertAll(EntriesOf(configs, keys)).Some?
    ensures Visited(configs, keys + [key]) && Split(key)[0..] == Split(key)
    ensures InsertAll(EntriesOf(configs, keys + [key])) ==
            Insert(InsertAll(EntriesOf(configs, keys)).value, Split(key), configs[key])
    ensures InsertAll(EntriesOf(configs, keys + [key])).None? ==> !PrefixFreeKeys(configs)
  {
    var order, order' := EntriesOf(configs, keys), EntriesOf(configs, keys + [key]);
    assert order' == order + [Entry(Split(key), configs[key])] && order'[..|order|] == order;
    EntriesPrefixFree(configs, keys + [key]);
    if PrefixFree(order') {
      AllInserted(order');
    }
  }

  /**
   * Fills one tree with all values, visiting the keys in any order. For prefix-free keys
   * it never fails and flattening the tree gives back the configuration; for other keys,
   * it fails or loses a value, whatever the order.
   */
  method GenerateAllValidConfigurations(configs: map<string, string>) returns (data: MapNode, panics: bool)
    ensures PrefixFreeKeys(configs) <==>
            && !panics
            && forall k :: k in configs && configs[k] != "" ==>
                 Lookup(data.entries, Split(k)) == Some(Coerce(configs[k]))
    ensures PrefixFreeKeys(configs) ==>
              && data.Valid() && CanonicalEntries(data.entries)
              && forall q :: Lookup(data.entries, q) == Flat(configs, q)
  {
    data := new MapNode();
    ghost var keys: seq<string> := [];
    var todo := configs.Keys;
    while todo != {}
      invariant todo <= configs.Keys && Visited(configs, keys)
      invariant forall k :: k in keys <==> Given(configs, k) && k !in todo
      invariant data.Valid() && fresh(data.repr)
      invariant InsertAll(EntriesOf(configs, keys)) == Some(data.entries)
    {
      var key :| key in todo;
      if configs[key] != "" {
        NextKey(configs, keys, key);
        panics := Parse(data, Split(key), 0, configs[key]);
        if panics {
          return;
        }
        keys := keys + [key];
      }
      todo := todo - {key};
    }
    panics := false;
    Faithful(configs, keys, data.entries);
  }

  lemma Faithful(configs: map<string, string>, keys: seq<string>, entries: map<string, Tree>)
    requires Visited(configs, keys) && forall k :: Given(configs, k) <==> k in keys
    requires InsertAll(EntriesOf(configs, keys)) == Some(entries)
    ensures PrefixFreeKeys(configs) <==>
            forall k :: Given(configs, k) ==> Lookup(entries, Split(k)) == Some(Coerce(configs[k]))
    ensures PrefixFreeKeys(configs) ==>
              CanonicalEntries(entries) && forall q :: Lookup(entries, q) == Flat(configs, q)
  {
    var order := EntriesOf(configs, keys);
    EntriesDistinct(configs, keys);
    EntriesPrefixFree(configs, keys);
    FaithfulExactlyIfPrefixFree(order);
    if PrefixFreeKeys(configs) {
      AllInserted(order);
      forall q
        ensures Lookup(entries, q) == Flat(configs, q)
      {
        EntriesAreFlat(configs, keys, q);
      }
      forall k | Given(configs, k)
        ensures Lookup(entries, Split(k)) == Some(Coerce(configs[k]))
      {
        JoinSplit(k);
      }
    } else if forall k :: Given(configs, k) ==> Lookup(entries, Split(k)) == Some(Coerce(configs[k])) {
      forall i | 0 <= i < |order|
        ensures Lookup(entries, order[i].path) == Some(Coerce(order[i].val))
      {
        assert Given(configs, keys[i]);
      }
    }
  }
}
