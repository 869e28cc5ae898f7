/**
Dotted configuration keys and the tree they stand for: `a.b: x` becomes the entry b
of the entry a. Values that read as booleans become booleans. An insertion fails when
it meets a value where it needs a subtree.
 */
module ConfigTree {
  import opened Wrappers

  datatype Value = Flag(flag: bool) | Text(text: string)

  datatype Tree = Leaf(value: Value) | Node(entries: map<string, Tree>)

  type Path = seq<string>

  /** What counts as a boolean. */
  function ParseBool(s: string): Option<bool> {
    if s in ["1", "t", "T", "TRUE", "true", "True"] then Some(true)
    else if s in ["0", "f", "F", "FALSE", "false", "False"] then Some(false)
    else None
  }

  function Coerce(s: string): Value {
    if ParseBool(s).Some? then Flag(ParseBool(s).value) else Text(s)
  }

  /** Which texts become which boolean; every other text stays a text. */
  lemma CoerceExactly(s: string)
    ensures Coerce(s) == Flag(true) <==>
            s == "1" || s == "t" || s == "T" || s == "TRUE" || s == "true" || s == "True"
    ensures Coerce(s) == Flag(false) <==>
            s == "0" || s == "f" || s == "F" || s == "FALSE" || s == "false" || s == "False"
    ensures Coerce(s).Text? ==> Coerce(s).text == s
  {
  }

  // ------------------------------------------------------------------ keys and paths

  function Split(key: string): (p: Path)
    ensures p != []
  {
    if key == "" then [""]
    else
      var rest := Split(key[1..]);
      if key[0] == '.' then [""] + rest else [[key[0]] + rest[0]] + rest[1..]
  }

  function Join(p: Path): string
    requires p != []
  {
    if |p| == 1 then p[0] else p[0] + "." + Join(p[1..])
  }

  /** Different keys have different paths. */
  lemma {:induction false} JoinSplit(key: string)
    ensures Join(Split(key)) == key
  {
    if key != "" {
      JoinSplit(key[1..]);
      var rest := Split(key[1..]);
      if key[0] == '.' {
        assert ([""] + rest)[1..] == rest;
      } else {
        var p := [[key[0]] + rest[0]] + rest[1..];
        if |rest| > 1 {
          assert p[1..] == rest[1..];
          assert [key[0]] + rest[0] + "." + Join(rest[1..]) == [key[0]] + (rest[0] + "." + Join(rest[1..]));
        }
      }
    }
  }

  predicate WithoutDots(p: Path) {
    forall i :: 0 <= i < |p| ==> '.' !in p[i]
  }

  /** Splitting cuts at every dot. */
  lemma {:induction false} SplitsAtDots(key: string)
    ensures WithoutDots(Split(key))
  {
    if key != "" {
      SplitsAtDots(key[1..]);
    }
  }

  lemma {:induction false} SplitFirst(s: string, rest: string)
    requires '.' !in s
    ensures Split(s) == [s] && Split(s + "." + rest) == [s] + Split(rest)
  {
    if s == "" {
      assert s + "." + rest == "." + rest && ("." + rest)[1..] == rest;
    } else {
      var key := s + "." + rest;
      SplitFirst(s[1..], rest);
      assert key[1..] == s[1..] + "." + rest && [s[0]] + s[1..] == s;
    }
  }

  /** Paths of segments without dots are exactly what keys stand for. */
  lemma {:induction false} SplitJoin(p: Path)
    requires p != []
    ensures Split(Join(p)) == p <==> WithoutDots(p)
  {
    if WithoutDots(p) {
      SplitJoinWithoutDots(p);
    } else {
      SplitsAtDots(Join(p));
    }
  }

  lemma {:induction false} SplitJoinWithoutDots(p: Path)
    requires p != [] && WithoutDots(p)
    ensures Split(Join(p)) == p
  {
    hide Split;
    if |p| == 1 {
      SplitFirst(p[0], "");
      assert p == [p[0]];
    } else {
      SplitFirst(p[0], Join(p[1..]));
      SplitJoinWithoutDots(p[1..]);
      assert p == [p[0]] + p[1..];
    }
  }

  predicate IsPrefix(p: Path, q: Path) {
    |p| <= |q| && q[..|p|] == p
  }

  // ------------------------------------------------------------------ trees

  /** Inserts a value, or nothing if that fails. */
  function Insert(entries: map<string, Tree>, path: Path, val: string): Option<map<string, Tree>>
    decreases |path|
  {
    if path == [] then Some(entries)
    else if path[0] in entries && entries[path[0]].Leaf? then None
    else
      var inner := Insert(Below(entries, path[0]), path[1..], val);
      if inner.None? then None
      else Some(entries[path[0] := if inner.value == map[] then Leaf(Coerce(val)) else Node(inner.value)])
  }

  /** The entries under a key; none if the key is new or has a value. */
  function Below(entries: map<string, Tree>, key: string): map<string, Tree> {
    if key in entries && entries[key].Node? then entries[key].entries else map[]
  }

  function Lookup(entries: map<string, Tree>, path: Path): Option<Value>
    decreases |path|
  {
    if path == [] || path[0] !in entries then None
    else if |path| == 1 then
      if entries[path[0]].Leaf? then Some(entries[path[0]].value) else None
    else Lookup(Below(entries, path[0]), path[1..])
  }

  /** No subtree is empty. */
  predicate Canonical(t: Tree) {
    t.Node? ==> t.entries != map[] && forall k :: k in t.entries ==> Canonical(t.entries[k])
  }

  predicate CanonicalEntries(entries: map<string, Tree>) {
    forall k :: k in entries ==> Canonical(entries[k])
  }

  lemma {:induction false} SomewhereAValue(t: Tree) returns (path: Path)
    requires t.Node? && Canonical(t)
    ensures path != [] && Lookup(t.entries, path).Some?
    decreases t
  {
    var k :| k in t.entries;
    if t.entries[k].Leaf? {
      path := [k];
    } else {
      var p := SomewhereAValue(t.entries[k]);
      path := [k] + p;
      assert path[1..] == p;
    }
  }

  /** A tree without empty subtrees is determined by its values. */
  lemma {:induction false} LookupDetermines(t: Tree, t': Tree)
    requires t.Node? && t'.Node? && CanonicalEntries(t.entries) && CanonicalEntries(t'.entries)
    requires forall path :: Lookup(t.entries, path) == Lookup(t'.entries, path)
    ensures t == t'
    decreases t
  {
    forall k | k in t.entries
      ensures k in t'.entries && t'.entries[k] == t.entries[k]
    {
      SameEntry(t, t', k);
    }
    forall k | k in t'.entries
      ensures k in t.entries
    {
      KeyFound(t', t, k);
    }
    assert t.entries == t'.entries;
  }

  lemma KeyFound(t: Tree, t': Tree, k: string)
    requires t.Node? && t'.Node? && CanonicalEntries(t.entries) && k in t.entries
    requires forall path :: Lookup(t.entries, path) == Lookup(t'.entries, path)
    ensures k in t'.entries
  {
    if t.entries[k].Leaf? {
      assert Lookup(t.entries, [k]).Some?;
      assert Lookup(t'.entries, [k]).Some?;
    } else {
      var p := SomewhereAValue(t.entries[k]);
      assert ([k] + p)[1..] == p;
      assert Lookup(t.entries, [k] + p).Some?;
      assert Lookup(t'.entries, [k] + p).Some?;
    }
  }

  lemma SameEntry(t: Tree, t': Tree, k: string)
    requires t.Node? && t'.Node? && CanonicalEntries(t.entries) && CanonicalEntries(t'.entries) && k in t.entries
    requires forall path :: Lookup(t.entries, path) == Lookup(t'.entries, path)
    ensures k in t'.entries && t'.entries[k] == t.entries[k]
    decreases t, 0
  {
    KeyFound(t, t', k);
    assert Lookup(t.entries, [k]) == Lookup(t'.entries, [k]);
    if t.entries[k].Node? {
      forall p
        ensures Lookup(t.entries[k].entries, p) == Lookup(t'.entries[k].entries, p)
      {
        if p != [] {
          assert ([k] + p)[1..] == p;
          assert Lookup(t.entries, [k] + p) == Lookup(t'.entries, [k] + p);
        }
      }
      LookupDetermines(t.entries[k], t'.entries[k]);
    }
  }

  // ------------------------------------------------------------------ one insertion

  /** Some beginning of the path, or all of it, leads to a value. */
  ghost predicate ValueOn(entries: map<string, Tree>, path: Path) {
    exists n :: 0 < n <= |path| && Lookup(entries, path[..n]).Some?
  }

  lemma ValueOnBelow(entries: map<string, Tree>, path: Path)
    requires path != []
    ensures ValueOn(entries, path) <==>
            path[0] in entries && (entries[path[0]].Leaf? || ValueOn(Below(entries, path[0]), path[1..]))
  {
    var below := Below(entries, path[0]);
    forall n | 1 < n <= |path|
      ensures Lookup(entries, path[..n]) == if path[0] in entries then Lookup(below, path[1..][..n - 1]) else None
    {
      assert path[..n][1..] == path[1..][..n - 1];
    }
    assert Lookup(entries, path[..1]).Some? <==> path[0] in entries && entries[path[0]].Leaf?;
    if path[0] in entries && ValueOn(below, path[1..]) {
      var n :| 0 < n <= |path| - 1 && Lookup(below, path[1..][..n]).Some?;
      assert Lookup(entries, path[..n + 1]) == Lookup(below, path[1..][..n + 1 - 1]);
    }
  }

  /** An insertion fails exactly if it meets a value on its path. */
  lemma {:induction false} InsertFails(entries: map<string, Tree>, path: Path, val: string)
    ensures Insert(entries, path, val).None? <==> ValueOn(entries, path)
    decreases |path|
  {
    if path != [] {
      ValueOnBelow(entries, path);
      InsertFails(Below(entries, path[0]), path[1..], val);
      if path[0] !in entries {
        NothingOnEmpty(path[1..]);
      }
    }
  }

  lemma NothingOnEmpty(path: Path)
    ensures !ValueOn(map[], path)
  {
  }

  lemma PrefixCons(k: string, p: Path, q: Path)
    ensures IsPrefix([k] + p, [k] + q) <==> IsPrefix(p, q)
  {
    if |p| <= |q| {
      assert ([k] + q)[..|p| + 1] == [k] + q[..|p|];
      assert ([k] + p)[1..] == p && ([k] + q[..|p|])[1..] == q[..|p|];
    }
  }

  /** No value of the tree lies on the path or beyond it. */
  ghost predicate Unrelated(entries: map<string, Tree>, path: Path) {
    forall q :: Lookup(entries, q).Some? ==> !IsPrefix(q, path) && !IsPrefix(path, q)
  }

  lemma UnrelatedBelow(entries: map<string, Tree>, path: Path)
    requires CanonicalEntries(entries) && |path| > 1 && Unrelated(entries, path)
    ensures Unrelated(Below(entries, path[0]), path[1..])
  {
    forall q | Lookup(Below(entries, path[0]), q).Some?
      ensures !IsPrefix(q, path[1..]) && !IsPrefix(path[1..], q)
    {
      var long := [path[0]] + q;
      assert long[1..] == q && path == [path[0]] + path[1..];
      assert Lookup(entries, long).Some?;
      PrefixCons(path[0], q, path[1..]);
      PrefixCons(path[0], path[1..], q);
    }
  }

  /** A path that ends at a known key, or goes through a value, is related to a value. */
  lemma RelatedValue(entries: map<string, Tree>, path: Path) returns (q: Path)
    requires CanonicalEntries(entries) && path != [] && path[0] in entries
    requires entries[path[0]].Leaf? || |path| == 1
    ensures Lookup(entries, q).Some? && (IsPrefix(q, path) || IsPrefix(path, q))
  {
    var k := path[0];
    if entries[k].Leaf? {
      q := [k];
    } else {
      var p := SomewhereAValue(entries[k]);
      q := [k] + p;
      assert q[1..] == p && q[..1] == path;
    }
  }

  /** The first key of an unrelated path is new, or leads to a subtree that the path goes into. */
  lemma UnrelatedHead(entries: map<string, Tree>, path: Path)
    requires CanonicalEntries(entries) && path != [] && Unrelated(entries, path)
    ensures path[0] in entries ==> entries[path[0]].Node? && |path| > 1
  {
    if path[0] in entries && (entries[path[0]].Leaf? || |path| == 1) {
      var _ := RelatedValue(entries, path);
    }
  }

  /** Inserting at an unrelated path adds one value and keeps all others. */
  lemma {:induction false} InsertAdds(entries: map<string, Tree>, path: Path, val: string)
    requires CanonicalEntries(entries) && path != [] && Unrelated(entries, path)
    ensures var r := Insert(entries, path, val);
            && r.Some? && CanonicalEntries(r.value) && path[0] in r.value
            && forall q :: Lookup(r.value, q) == if q == path then Some(Coerce(val)) else Lookup(entries, q)
    decreases |path|
  {
    var k := path[0];
    var below := Below(entries, k);
    UnrelatedHead(entries, path);
    if |path| > 1 {
      UnrelatedBelow(entries, path);
      InsertAdds(below, path[1..], val);
      assert path[1] in Insert(below, path[1..], val).value;
    } else {
      assert path[1..] == [] && below == map[];
    }
    var inner := Insert(below, path[1..], val);
    assert inner.Some? && (inner.value == map[] <==> |path| == 1);
    var new' := if inner.value == map[] then Leaf(Coerce(val)) else Node(inner.value);
    var r := entries[k := new'];
    assert Insert(entries, path, val) == Some(r) && k in r;
    forall q
      ensures Lookup(r, q) == if q == path then Some(Coerce(val)) else Lookup(entries, q)
    {
      if q != [] && q[0] == k {
        assert q == [k] + q[1..] && path == [k] + path[1..];
        assert |q| > 1 ==> Lookup(r, q) == Lookup(Below(r, k), q[1..]);
      }
    }
  }

  /** At most one of two paths, one beginning with the other, leads to a value. */
  lemma {:induction false} OneOfTwo(entries: map<string, Tree>, p: Path, q: Path)
    requires IsPrefix(p, q) && Lookup(entries, p).Some? && Lookup(entries, q).Some?
    ensures p == q
    decreases |p|
  {
    assert p[0] == q[0];
    if |q| > 1 && |p| > 1 {
      assert p == [p[0]] + p[1..] && q == [p[0]] + q[1..];
      PrefixCons(p[0], p[1..], q[1..]);
      OneOfTwo(Below(entries, p[0]), p[1..], q[1..]);
    }
  }

  // ------------------------------------------------------------------ many insertions

  datatype Entry = Entry(path: Path, val: string)

  function InsertAll(order: seq<Entry>): Option<map<string, Tree>> {
    if order == [] then Some(map[])
    else
      var before := InsertAll(order[..|order| - 1]);
      if before.None? then None
      else Insert(before.value, order[|order| - 1].path, order[|order| - 1].val)
  }

  predicate Distinct(order: seq<Entry>) {
    && (forall i :: 0 <= i < |order| ==> order[i].path != [])
    && (forall i, j :: 0 <= i < j < |order| ==> order[i].path != order[j].path)
  }

  /** No path begins with another one. */
  predicate PrefixFree(order: seq<Entry>) {
    && (forall i :: 0 <= i < |order| ==> order[i].path != [])
    && (forall i, j :: 0 <= i < |order| && 0 <= j < |order| && i != j ==> !IsPrefix(order[i].path, order[j].path))
  }

  /** The value that the entries give a path. */
  function ValueIn(order: seq<Entry>, path: Path): Option<Value> {
    if order == [] then None
    else if order[|order| - 1].path == path then Some(Coerce(order[|order| - 1].val))
    else ValueIn(order[..|order| - 1], path)
  }

  lemma {:induction false} ValueInIsListed(order: seq<Entry>, path: Path)
    ensures ValueIn(order, path).Some? ==> exists i :: 0 <= i < |order| && order[i].path == path
  {
    if order != [] && order[|order| - 1].path != path {
      var front := order[..|order| - 1];
      ValueInIsListed(front, path);
      if ValueIn(front, path).Some? {
        var i :| 0 <= i < |front| && front[i].path == path;
        assert order[i].path == path;
      }
    }
  }

  lemma {:induction false} ListedIsValueIn(order: seq<Entry>, i: nat)
    requires Distinct(order) && i < |order|
    ensures ValueIn(order, order[i].path) == Some(Coerce(order[i].val))
  {
    if i < |order| - 1 {
      ListedIsValueIn(order[..|order| - 1], i);
    }
  }

  /** Entries whose paths are prefix-free are all found in the tree, and nothing else is. */
  lemma {:induction false} AllInserted(order: seq<Entry>)
    requires PrefixFree(order)
    ensures var r := InsertAll(order);
            && r.Some? && CanonicalEntries(r.value)
            && forall q :: Lookup(r.value, q) == ValueIn(order, q)
  {
    if order != [] {
      var front, e := order[..|order| - 1], order[|order| - 1];
      AllInserted(front);
      var t := InsertAll(front).value;
      forall q | Lookup(t, q).Some?
        ensures !IsPrefix(q, e.path) && !IsPrefix(e.path, q)
      {
        ValueInIsListed(front, q);
        var i :| 0 <= i < |front| && front[i].path == q;
        assert order[i].path == q;
      }
      InsertAdds(t, e.path, e.val);
    }
  }

  /** Every order of insertion gives the same tree. */
  lemma OrderDoesNotMatter(order: seq<Entry>, order': seq<Entry>)
    requires PrefixFree(order) && PrefixFree(order') && forall e :: e in order <==> e in order'
    ensures InsertAll(order).Some? && InsertAll(order') == InsertAll(order)
  {
    AllInserted(order);
    AllInserted(order');
    var t, t' := InsertAll(order).value, InsertAll(order').value;
    forall q
      ensures Lookup(t, q) == Lookup(t', q)
    {
      SameValues(order, order', q);
      SameValues(order', order, q);
    }
    LookupDetermines(Node(t), Node(t'));
  }

  lemma SameValues(order: seq<Entry>, order': seq<Entry>, q: Path)
    requires PrefixFree(order) && PrefixFree(order') && forall e :: e in order ==> e in order'
    ensures ValueIn(order, q).Some? ==> ValueIn(order', q) == ValueIn(order, q)
  {
    if ValueIn(order, q).Some? {
      ValueInIsListed(order, q);
      var i :| 0 <= i < |order| && order[i].path == q;
      assert order[i] in order';
      var j :| 0 <= j < |order'| && order'[j] == order[i];
      DistinctIfPrefixFree(order);
      DistinctIfPrefixFree(order');
      ListedIsValueIn(order, i);
      ListedIsValueIn(order', j);
    }
  }

  lemma DistinctIfPrefixFree(order: seq<Entry>)
    requires PrefixFree(order)
    ensures Distinct(order)
  {
    forall i, j | 0 <= i < j < |order|
      ensures order[i].path != order[j].path
    {
      assert !IsPrefix(order[i].path, order[j].path);
    }
  }

  /** In any order: nothing fails and no value is lost exactly if the paths are prefix-free. */
  lemma FaithfulExactlyIfPrefixFree(order: seq<Entry>)
    requires Distinct(order)
    ensures PrefixFree(order) <==>
            && InsertAll(order).Some?
            && forall i :: 0 <= i < |order| ==>
              Lookup(InsertAll(order).value, order[i].path) == Some(Coerce(order[i].val))
  {
    if PrefixFree(order) {
      AllInserted(order);
      forall i | 0 <= i < |order|
        ensures Lookup(InsertAll(order).value, order[i].path) == Some(Coerce(order[i].val))
      {
        ListedIsValueIn(order, i);
      }
    } else {
      var i, j := RelatedPair(order);
      if InsertAll(order).Some? && Lookup(InsertAll(order).value, order[i].path).Some?
         && Lookup(InsertAll(order).value, order[j].path).Some? {
        OneOfTwo(InsertAll(order).value, order[i].path, order[j].path);
      }
    }
  }

  // ------------------------------------------------------------------ paths that are not prefix-free

  /** The shorter of two related paths first: the second insertion fails. */
  lemma ShorterFirstFails(short: Entry, long: Entry)
    requires short.path != [] && short.path != long.path && IsPrefix(short.path, long.path)
    ensures InsertAll([short, long]).None?
  {
    assert PrefixFree([short]);
    AllInserted([short]);
    var t := InsertAll([short]).value;
    assert ValueIn([short], short.path).Some?;
    assert Lookup(t, long.path[..|short.path|]).Some?;
    InsertFails(t, long.path, long.val);
    assert [short, long][..1] == [short];
  }

  /** The longer one first: the second value is dropped. */
  lemma LongerFirstDrops(short: Entry, long: Entry)
    requires short.path != [] && short.path != long.path && IsPrefix(short.path, long.path)
    ensures InsertAll([long, short]).Some? && InsertAll([long, short]) == InsertAll([long])
  {
    assert PrefixFree([long]);
    AllInserted([long]);
    var t := InsertAll([long]).value;
    assert ValueIn([long], long.path).Some?;
    InsertNothing(t, short.path, short.val, long.path);
    assert [long, short][..1] == [long];
  }

  /** Inserting where a subtree is changes nothing. */
  lemma {:induction false} InsertNothing(entries: map<string, Tree>, path: Path, val: string, q: Path)
    requires CanonicalEntries(entries) && Lookup(entries, q).Some? && IsPrefix(path, q) && path != q
    ensures Insert(entries, path, val) == Some(entries)
    decreases |path|
  {
    if path != [] {
      var k := path[0];
      assert q[0] == k && path == [k] + path[1..] && q == [k] + q[1..];
      PrefixCons(k, path[1..], q[1..]);
      assert |q| > 1;
      assert Lookup(Below(entries, k), q[1..]).Some?;
      assert entries[k].Node?;
      InsertNothing(Below(entries, k), path[1..], val, q[1..]);
      assert entries[k := entries[k]] == entries;
    }
  }

  lemma {:induction false} FailureStays(order: seq<Entry>, more: seq<Entry>)
    requires InsertAll(order).None?
    ensures InsertAll(order + more).None?
    decreases |more|
  {
    if more == [] {
      assert order + more == order;
    } else {
      var front := more[..|more| - 1];
      FailureStays(order, front);
      assert (order + more)[..|order + more| - 1] == order + front;
    }
  }

  /** If the paths are not prefix-free, then some order of insertion fails. */
  lemma SomeOrderFails(order: seq<Entry>) returns (order': seq<Entry>)
    requires Distinct(order) && !PrefixFree(order)
    ensures multiset(order') == multiset(order) && InsertAll(order').None?
  {
    var i, j := RelatedPair(order);
    order' := TwoToFront(order, i, j);
    ShorterFirstFails(order[i], order[j]);
    FailureStays([order[i], order[j]], order'[2..]);
  }

  lemma RelatedPair(order: seq<Entry>) returns (i: nat, j: nat)
    requires Distinct(order) && !PrefixFree(order)
    ensures i < |order| && j < |order| && i != j
    ensures order[i].path != [] && order[i].path != order[j].path && IsPrefix(order[i].path, order[j].path)
  {
    i, j :| 0 <= i < |order| && 0 <= j < |order| && i != j && IsPrefix(order[i].path, order[j].path);
    if i < j {
      assert order[i].path != order[j].path;
    } else {
      assert order[j].path != order[i].path;
    }
  }

  lemma TwoToFront(order: seq<Entry>, i: nat, j: nat) returns (order': seq<Entry>)
    requires i < |order| && j < |order| && i != j
    ensures |order'| >= 2 && order' == [order[i], order[j]] + order'[2..]
    ensures multiset(order') == multiset(order)
  {
    var once := ToFront(order, j);
    SameElements(order, j);
    var i' := if i < j then i + 1 else i;
    assert once[i'] == order[i];
    order' := ToFront(once, i');
    SameElements(once, i');
  }

  function ToFront(order: seq<Entry>, i: nat): seq<Entry>
    requires i < |order|
  {
    [order[i]] + order[..i] + order[i + 1..]
  }

  lemma SameElements(order: seq<Entry>, i: nat)
    requires i < |order|
    ensures multiset(ToFront(order, i)) == multiset(order)
  {
    assert order == order[..i] + [order[i]] + order[i + 1..];
  }
}
