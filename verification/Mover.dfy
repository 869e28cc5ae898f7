/**
Moving a Cluster object and its children from one management cluster to another, with
retries. API calls may fail, also after taking effect, and the objects of the source
may be edited by others between the calls. Nobody else unpauses or removes the paused
Cluster on the source, or writes these objects on the target.
 */
module Mover {
  import opened Wrappers

  datatype Text = Text(text: string)

  datatype Id = Id(kind: Text, name: Text)

  /** Only objects that come from an API server have a version. */
  datatype Version = Unset | Version(n: nat)

  datatype Annotation = PausedAnnotation | TinkerbellIPAnnotation | OtherAnnotation(name: Text)

  datatype Object = Object(annotations: map<Annotation, Text>, data: Text, version: Version, uid: Text,
                           owners: seq<Text>)

  datatype World = World(source: map<Id, Object>, target: map<Id, Object>)

  predicate Paused(o: Object) {
    PausedAnnotation in o.annotations && o.annotations[PausedAnnotation] == Text("true")
  }

  predicate PausedIn(objects: map<Id, Object>, id: Id) {
    id in objects && Paused(objects[id])
  }

  // ------------------------------------------------------------------ what is promised

  /** A Cluster on the target is paused there and on the source. */
  predicate Safe(w: World, id: Id) {
    id in w.target ==> PausedIn(w.target, id) && PausedIn(w.source, id)
  }

  /** A copy of a child: the same content, without owners. */
  predicate CopyOfChild(o: Object, copy: Object) {
    copy.annotations == o.annotations && copy.data == o.data && copy.owners == []
  }

  /** A copy of the Cluster: the same content, paused already on the source, and without the bootstrap address. */
  predicate CopyOfCluster(o: Object, copy: Object) {
    && copy.annotations == o.annotations && copy.data == o.data && copy.owners == o.owners
    && Paused(o) && TinkerbellIPAnnotation !in o.annotations
  }

  predicate CopyOf(o: Object, copy: Object, isCluster: bool) {
    if isCluster then CopyOfCluster(o, copy) else CopyOfChild(o, copy)
  }

  /** Some moment of the history had the object on the source that the copy was made from. */
  ghost predicate Copied(history: seq<World>, k: Id, copy: Object, isCluster: bool) {
    exists i :: 0 <= i < |history| && k in history[i].source && CopyOf(history[i].source[k], copy, isCluster)
  }

  /**
   * The world changed on the source only, where a paused Cluster stayed paused, or by one
   * new object on the target. The Cluster is added only while it is paused on the source.
   */
  ghost predicate Moves(history: seq<World>, w': World, id: Id)
    requires history != []
  {
    var w := history[|history| - 1];
    || (w'.target == w.target && (PausedIn(w.source, id) ==> PausedIn(w'.source, id)))
    || (w'.source == w.source &&
        exists k :: k in w'.target && k !in w.target && w'.target == w.target[k := w'.target[k]]
                    && Copied(history, k, w'.target[k], k == id)
                    && (k == id ==> PausedIn(w.source, id)))
  }

  /** A history of a move that starts with nothing on the target. */
  ghost predicate IsMove(history: seq<World>, id: Id) {
    && history != []
    && var n := |history| - 1;
    if n == 0 then history[0].target == map[]
    else IsMove(history[..n], id) && Moves(history[..n], history[n], id)
  }

  lemma CopiedLater(before: seq<World>, after: seq<World>, k: Id, copy: Object, isCluster: bool)
    requires Copied(before, k, copy, isCluster) && |before| <= |after| && after[..|before|] == before
    ensures Copied(after, k, copy, isCluster)
  {
    var i :| 0 <= i < |before| && k in before[i].source && CopyOf(before[i].source[k], copy, isCluster);
    assert after[i] == before[i];
  }

  /** A copy of a Cluster is paused, because the Cluster was when it was copied. */
  lemma CopiesArePaused(history: seq<World>, id: Id, copy: Object)
    requires Copied(history, id, copy, true)
    ensures Paused(copy)
  {
  }

  /** At every moment of a move, a Cluster on the target is paused on both sides. */
  lemma {:induction false} AlwaysPaused(history: seq<World>, id: Id, i: nat)
    requires IsMove(history, id) && i < |history|
    ensures Safe(history[i], id)
  {
    var n := |history| - 1;
    if i < n {
      AlwaysPaused(history[..n], id, i);
    } else if n > 0 {
      AlwaysPaused(history[..n], id, n - 1);
      var w, w' := history[n - 1], history[n];
      if w'.target != w.target && id in w'.target && id !in w.target {
        CopiesArePaused(history[..n], id, w'.target[id]);
      }
    }
  }

  /** What has been moved is never altered. */
  lemma {:induction false} MovedForGood(history: seq<World>, id: Id, i: nat, j: nat, k: Id)
    requires IsMove(history, id) && i <= j < |history| && k in history[i].target
    ensures k in history[j].target && history[j].target[k] == history[i].target[k]
  {
    var n := |history| - 1;
    if j < n {
      MovedForGood(history[..n], id, i, j, k);
    } else if i < j {
      MovedForGood(history[..n], id, i, j - 1, k);
    }
  }

  /** Everything on the target is a copy of what was on the source at some moment of the move. */
  lemma {:induction false} EverythingIsACopy(history: seq<World>, id: Id, k: Id)
    requires IsMove(history, id)
    requires k in history[|history| - 1].target
    ensures Copied(history, k, history[|history| - 1].target[k], k == id)
  {
    var n := |history| - 1;
    var w, w' := history[n - 1], history[n];
    if w'.target == w.target || (k in w.target && w.target[k] == w'.target[k]) {
      EverythingIsACopy(history[..n], id, k);
      CopiedLater(history[..n], history, k, w.target[k], k == id);
    } else {
      CopiedLater(history[..n], history, k, w'.target[k], k == id);
    }
  }

  // ------------------------------------------------------------------ the two API servers

  class Clusters {
    var source: map<Id, Object>
    var target: map<Id, Object>
    const id: Id
    const quiet: bool

    /** The world after every single change, the current one last. */
    ghost var history: seq<World>

    ghost predicate Valid()
      reads this
    {
      IsMove(history, id) && history[|history| - 1] == World(source, target)
    }

    /** Nothing has been moved yet. */
    constructor (source: map<Id, Object>, id: Id, quiet: bool)
      ensures Valid() && this.source == source && target == map[] && this.id == id && this.quiet == quiet
      ensures history == [World(source, map[])]
    {
      this.source := source;
      this.target := map[];
      this.id := id;
      this.quiet := quiet;
      this.history := [World(source, map[])];
    }

    ghost predicate Extends(before: seq<World>)
      reads this
    {
      |before| <= |history| && history[..|before|] == before
    }

    /** The source changes; a paused Cluster stays paused. */
    method SetSource(source': map<Id, Object>)
      requires Valid() && (PausedIn(source, id) ==> PausedIn(source', id))
      modifies this
      ensures Valid() && source == source' && target == old(target) && Extends(old(history))
    {
      ghost var w := World(source', target);
      assert (history + [w])[..|history|] == history;
      source, history := source', history + [w];
    }

    method AddToTarget(k: Id, copy: Object)
      requires Valid() && k !in target && Copied(history, k, copy, k == id)
      requires k == id ==> Paused(copy) && PausedIn(source, id)
      modifies this
      ensures Valid() && target == old(target)[k := copy] && source == old(source) && Extends(old(history))
    {
      ghost var w := World(source, target[k := copy]);
      assert (history + [w])[..|history|] == history;
      target, history := target[k := copy], history + [w];
    }

    method Interfere()
      requires Valid()
      modifies this
      ensures Valid() && target == old(target) && Extends(old(history))
      ensures PausedIn(old(source), id) ==> PausedIn(source, id)
      ensures quiet ==> source == old(source)
    {
      var edited: map<Id, Object> := *;
      if !quiet && (PausedIn(source, id) ==> PausedIn(edited, id)) {
        SetSource(edited);
      }
    }

    /** Reads from the source. */
    method Get(k: Id) returns (r: Option<Object>)
      requires Valid()
      modifies this
      ensures Valid() && target == old(target) && Extends(old(history))
      ensures PausedIn(old(source), id) ==> PausedIn(source, id)
      ensures r.Some? ==> k in source && r.value == source[k]
      ensures quiet ==> source == old(source) && (r.Some? <==> k in source)
    {
      Interfere();
      var ok := Reachable(quiet);
      r := if ok && k in source then Some(source[k]) else None;
    }

    /** Updates the source, unless the object has changed since it was read. */
    method Update(k: Id, o: Object) returns (ok: bool)
      requires Valid() && (k == id ==> Paused(o))
      modifies this
      ensures Valid() && target == old(target) && Extends(old(history))
      ensures PausedIn(old(source), id) ==> PausedIn(source, id)
      ensures ok ==> k in source && source[k].(version := o.version) == o
      ensures quiet ==> (ok <==> k in old(source) && old(source)[k].version == o.version && o.version.Version?)
      ensures quiet && ok ==> source == old(source)[k := o.(version := Version(o.version.n + 1))]
      ensures quiet && !ok ==> source == old(source)
    {
      Interfere();
      if k !in source || o.version.Unset? || source[k].version != o.version {
        return false;
      }
      ok := Reachable(quiet);
      var lost: bool := *;
      if ok || !lost {
        SetSource(source[k := o.(version := Version(o.version.n + 1))]);
      }
    }

    /** Creates on the target. An object that is there already is left alone, and that is no error. */
    method CreateIfMissing(k: Id, o: Object) returns (ok: bool)
      requires Valid() && Copied(history, k, o, k == id)
      requires k == id ==> Paused(o) && PausedIn(source, id)
      modifies this
      ensures Valid() && Extends(old(history))
      ensures PausedIn(old(source), id) ==> PausedIn(source, id)
      ensures ok ==> k in target
      ensures old(target).Keys <= target.Keys <= old(target).Keys + {k}
      ensures quiet ==> source == old(source) && (ok <==> k in old(target) || o.version.Unset?)
      ensures quiet ==>
                || target == old(target)
                || (&& k !in old(target) && k in target
                    && target == old(target)[k := o.(version := target[k].version, uid := target[k].uid)])
    {
      ghost var before := history;
      Interfere();
      if k in target {
        ok := Reachable(quiet);
        return;
      }
      if !o.version.Unset? {
        return false;
      }
      ok := Reachable(quiet);
      var lost: bool := *;
      if ok || !lost {
        var uid: Text := *;
        CopiedLater(before, history, k, o, k == id);
        StillCopied(history, k, o, o.(version := Version(1), uid := uid), k == id);
        AddToTarget(k, o.(version := Version(1), uid := uid));
      }
    }
  }

  /** The identity that a server gives an object is not part of its content. */
  lemma StillCopied(history: seq<World>, k: Id, copy: Object, copy': Object, isCluster: bool)
    requires Copied(history, k, copy, isCluster) && copy' == copy.(version := copy'.version, uid := copy'.uid)
    ensures Copied(history, k, copy', isCluster)
  {
    var i :| 0 <= i < |history| && k in history[i].source && CopyOf(history[i].source[k], copy, isCluster);
    assert CopyOf(history[i].source[k], copy', isCluster);
  }

  // ------------------------------------------------------------------ moving

  function PauseReconcile(o: Object): Object {
    o.(annotations := o.annotations[PausedAnnotation := Text("true")])
  }

  function ClearTinkerbellIP(o: Object): Object {
    o.(annotations := o.annotations - {TinkerbellIPAnnotation})
  }

  /** The Cluster is paused, its bootstrap address cleared, and nothing else of it is different. */
  ghost predicate OnlyPaused(o: Object, o': Object) {
    && o'.data == o.data && o'.owners == o.owners
    && PausedAnnotation in o'.annotations && o'.annotations[PausedAnnotation] == Text("true")
    && TinkerbellIPAnnotation !in o'.annotations
    && (forall name :: OtherAnnotation(name) in o'.annotations <==> OtherAnnotation(name) in o.annotations)
    && (forall name :: OtherAnnotation(name) in o.annotations && OtherAnnotation(name) in o'.annotations ==>
          o'.annotations[OtherAnnotation(name)] == o.annotations[OtherAnnotation(name)])
  }

  /** On the source nothing but the Cluster may be different, and that only by being paused. */
  ghost predicate SourceKept(source: map<Id, Object>, source': map<Id, Object>, id: Id) {
    && source'.Keys == source.Keys
    && (forall k :: k in source && k != id ==> source'[k] == source[k])
    && (id in source && source'[id] != source[id] ==>
          OnlyPaused(source[id], source'[id]) && source'[id].uid == source[id].uid)
  }

  /** What is new on the target is a copy of what was on the source at first, and the rest is as it was. */
  ghost predicate Delivered(source: map<Id, Object>, target: map<Id, Object>, target': map<Id, Object>, id: Id) {
    && (forall k :: k in target ==> k in target' && target'[k] == target[k])
    && (forall k :: k in target' && k !in target ==>
          && k in source
          && (if k == id then OnlyPaused(source[k], target'[k]) else CopyOfChild(source[k], target'[k])))
  }

  lemma DeliveredOn(source: map<Id, Object>, target: map<Id, Object>, source': map<Id, Object>,
                    target': map<Id, Object>, target'': map<Id, Object>, id: Id)
    requires SourceKept(source, source', id)
    requires Delivered(source, target, target', id) && Delivered(source', target', target'', id)
    ensures Delivered(source, target, target'', id)
  {
  }

  lemma SourceKeptOn(source: map<Id, Object>, source': map<Id, Object>, source'': map<Id, Object>, id: Id)
    requires SourceKept(source, source', id) && SourceKept(source', source'', id)
    ensures SourceKept(source, source'', id)
  {
  }

  /** All objects on a server have a version. */
  predicate Stored(objects: map<Id, Object>) {
    forall k :: k in objects ==> objects[k].version.Version?
  }

  function AsSet(ids: seq<Id>): set<Id> {
    set k <- ids
  }

  method MoveClusterResource(c: Clusters, cluster: Object) returns (ok: bool)
    requires c.Valid() && PausedIn(c.source, c.id) && Paused(cluster)
    requires Copied(c.history, c.id, cluster, true)
    modifies c
    ensures c.Valid() && c.Extends(old(c.history))
    ensures ok ==> c.id in c.target
    ensures old(c.target).Keys <= c.target.Keys <= old(c.target).Keys + {c.id}
    ensures c.quiet ==> ok && c.source == old(c.source)
    ensures c.quiet ==> ClusterDelivered(old(c.target), c.target, c.id, cluster)
  {
    var copy := cluster.(version := Unset, uid := Text(""));
    StillCopied(c.history, c.id, cluster, copy, true);
    ok := c.CreateIfMissing(c.id, copy);
  }

  /** The Cluster is on the target, and if it is new there then as it is given. */
  predicate ClusterDelivered(target: map<Id, Object>, target': map<Id, Object>, id: Id, cluster: Object) {
    && id in target'
    && (id in target ==> target' == target)
    && (id !in target ==>
          target' == target[id := cluster.(version := target'[id].version, uid := target'[id].uid)])
  }

  lemma DeliveredFirst(source: map<Id, Object>, target: map<Id, Object>, target': map<Id, Object>, id: Id,
                       cluster: Object)
    requires id in source && OnlyPaused(source[id], cluster) && ClusterDelivered(target, target', id, cluster)
    ensures Delivered(source, target, target', id)
  {
  }

  method MoveChildObjects(c: Clusters, children: seq<Id>) returns (ok: bool)
    requires c.Valid() && c.id !in children
    modifies c
    ensures c.Valid() && c.Extends(old(c.history))
    ensures ok ==> AsSet(children) <= c.target.Keys
    ensures old(c.target).Keys <= c.target.Keys <= old(c.target).Keys + AsSet(children)
    ensures c.quiet ==> c.source == old(c.source) && (ok <==> AsSet(children) <= c.source.Keys)
    ensures c.quiet ==> Delivered(c.source, old(c.target), c.target, c.id)
  {
    for n := 0 to |children|
      invariant c.Valid() && c.Extends(old(c.history))
      invariant AsSet(children[..n]) <= c.target.Keys
      invariant old(c.target).Keys <= c.target.Keys <= old(c.target).Keys + AsSet(children[..n])
      invariant c.quiet ==> c.source == old(c.source) && AsSet(children[..n]) <= c.source.Keys
      invariant c.quiet ==> Delivered(c.source, old(c.target), c.target, c.id)
    {
      assert AsSet(children[..n + 1]) == AsSet(children[..n]) + {children[n]} <= AsSet(children);
      ok := MoveChild(c, children[n]);
      if !ok {
        return;
      }
    }
    assert children[..|children|] == children;
    ok := true;
  }

  method MoveChild(c: Clusters, child: Id) returns (ok: bool)
    requires c.Valid() && child != c.id
    modifies c
    ensures c.Valid() && c.Extends(old(c.history))
    ensures ok ==> child in c.target
    ensures old(c.target).Keys <= c.target.Keys <= old(c.target).Keys + {child}
    ensures c.quiet ==> c.source == old(c.source) && (ok <==> child in c.source)
    ensures c.quiet ==> Delivered(c.source, old(c.target), c.target, c.id)
  {
    var r := c.Get(child);
    if r.None? {
      return false;
    }
    var o := r.value.(version := Unset, uid := Text(""), owners := []);
    assert Copied(c.history, child, o, false) by {
      assert CopyOf(c.history[|c.history| - 1].source[child], o, false);
    }
    ok := c.CreateIfMissing(child, o);
  }

  /** Reads the Cluster, pauses it and clears the bootstrap address, and updates it on the source. */
  method PauseOnSource(c: Clusters) returns (r: Option<Object>)
    requires c.Valid()
    modifies c
    ensures c.Valid() && c.Extends(old(c.history)) && c.target == old(c.target)
    ensures r.Some? ==> PausedIn(c.source, c.id) && Paused(r.value) && Copied(c.history, c.id, r.value, true)
    ensures c.quiet ==> c.source.Keys == old(c.source).Keys && (Stored(old(c.source)) ==> Stored(c.source))
    ensures c.quiet && Stored(old(c.source)) ==> (r.Some? <==> c.id in c.source)
    ensures c.quiet ==> SourceKept(old(c.source), c.source, c.id)
    ensures c.quiet && r.Some? ==>
              && c.id in old(c.source) && c.id in c.source && c.source[c.id].(version := r.value.version) == r.value
              && OnlyPaused(old(c.source)[c.id], r.value)
  {
    r := c.Get(c.id);
    if r.None? {
      return;
    }
    var cluster := ClearTinkerbellIP(PauseReconcile(r.value));
    var ok := c.Update(c.id, cluster);
    if !ok {
      return None;
    }
    assert Copied(c.history, c.id, cluster, true) by {
      assert CopyOf(c.history[|c.history| - 1].source[c.id], cluster, true);
    }
    r := Some(cluster);
  }

  /** One attempt to move everything. */
  method MoveOnce(c: Clusters, children: seq<Id>) returns (ok: bool)
    requires c.Valid() && c.id !in children
    modifies c
    ensures c.Valid() && c.Extends(old(c.history))
    ensures ok ==> {c.id} + AsSet(children) <= c.target.Keys
    ensures old(c.target).Keys <= c.target.Keys <= old(c.target).Keys + {c.id} + AsSet(children)
    ensures c.quiet ==> c.source.Keys == old(c.source).Keys && (Stored(old(c.source)) ==> Stored(c.source))
    ensures c.quiet && Stored(old(c.source)) ==> (ok <==> {c.id} + AsSet(children) <= c.source.Keys)
    ensures c.quiet ==> SourceKept(old(c.source), c.source, c.id)
    ensures c.quiet ==> Delivered(old(c.source), old(c.target), c.target, c.id)
  {
    var cluster := PauseOnSource(c);
    assert Delivered(old(c.source), old(c.target), c.target, c.id);
    hide OnlyPaused, SourceKept, Delivered, Stored, ClusterDelivered, Copied, IsMove;
    if cluster.None? {
      return false;
    }
    ok := MoveClusterResource(c, cluster.value);
    if !ok {
      return;
    }
    ghost var target := c.target;
    if c.quiet {
      DeliveredFirst(old(c.source), old(c.target), target, c.id, cluster.value);
    }
    ok := MoveChildObjects(c, children);
    if c.quiet {
      DeliveredOn(old(c.source), old(c.target), c.source, target, c.target, c.id);
    }
  }

  /**
   * Attempts until one succeeds or the time is up, which is after some number of
   * retries. The whole history is that of a move, so all that is proved about moves
   * holds at every moment, whatever fails.
   */
  method Move(c: Clusters, children: seq<Id>, retries: nat) returns (ok: bool)
    requires c.Valid() && c.id !in children
    modifies c
    ensures c.Valid() && c.Extends(old(c.history))
    ensures ok ==> {c.id} + AsSet(children) <= c.target.Keys
    ensures ok ==> forall k <- children :: k in c.target && c.target[k].owners == []
    ensures old(c.target).Keys <= c.target.Keys <= old(c.target).Keys + {c.id} + AsSet(children)
    ensures c.quiet && Stored(old(c.source)) ==> (ok <==> {c.id} + AsSet(children) <= c.source.Keys)
    ensures c.quiet ==> SourceKept(old(c.source), c.source, c.id)
    ensures c.quiet ==> Delivered(old(c.source), old(c.target), c.target, c.id)
  {
    ok := MoveOnce(c, children);
    var left := retries;
    while !ok && left > 0
      invariant c.Valid() && c.Extends(old(c.history))
      invariant ok ==> {c.id} + AsSet(children) <= c.target.Keys
      invariant old(c.target).Keys <= c.target.Keys <= old(c.target).Keys + {c.id} + AsSet(children)
      invariant c.quiet ==> c.source.Keys == old(c.source).Keys && (Stored(old(c.source)) ==> Stored(c.source))
      invariant c.quiet && Stored(old(c.source)) ==> (ok <==> {c.id} + AsSet(children) <= c.source.Keys)
      invariant c.quiet ==> SourceKept(old(c.source), c.source, c.id)
      invariant c.quiet ==> Delivered(old(c.source), old(c.target), c.target, c.id)
    {
      ghost var source, target := c.source, c.target;
      ok := MoveOnce(c, children);
      if c.quiet {
        SourceKeptOn(old(c.source), source, c.source, c.id);
        DeliveredOn(old(c.source), old(c.target), source, target, c.target, c.id);
      }
      left := left - 1;
    }
    if ok {
      NoOwners(c.history, c.id, children);
    }
  }

  lemma NoOwners(history: seq<World>, id: Id, children: seq<Id>)
    requires IsMove(history, id) && id !in children && AsSet(children) <= history[|history| - 1].target.Keys
    ensures forall k <- children :: k in history[|history| - 1].target && history[|history| - 1].target[k].owners == []
  {
    forall k | k in children
      ensures k in history[|history| - 1].target && history[|history| - 1].target[k].owners == []
    {
      assert k in AsSet(children);
      EverythingIsACopy(history, id, k);
    }
  }
}
