/**
The life of a Cluster object: the user edits and deletes it, its children change, and
the cluster reconciler works in rounds. A round reads the object, perhaps reads the
children, perhaps creates or deletes the CAPI cluster, and ends with one patch of the
object that may fail. The patch of a round that completed all phases carries the sum
of the children's generations.

The children are the objects that the Cluster refers to and those that these refer to
in turn. They are edited, deleted, recreated under their names, or exchanged for others
by a change of a reference, which is an edit of the object that has it.

`round` holds what the round in flight has read. `held`, `snapshot` and `used` are
history: whether the finalizer of this object was ever persisted, what the last
persisted round that completed all phases had read, and which uids have existed.
 */
module ClusterLifecycle {
  import opened Wrappers
  import opened Generations

  /** `refs` and `versioned` (it names a bundle or a version) belong to the spec. */
  datatype Cluster = Cluster(generation: int,
                             refs: set<Key>,
                             versioned: bool,
                             reconciled: int,
                             childrenReconciled: int,
                             deleting: bool,
                             finalizer: bool,
                             otherFinalizers: bool,
                             paused: bool,
                             deletableWhenPaused: bool,
                             selfManaged: bool,
                             managedByCLI: bool)

  datatype Capi = Absent | Present | Deleting

  type Children = map<Key, Object>

  datatype Round = Idle | Reading(cluster: Cluster, children: Option<Children>)

  datatype Snapshot = Snapshot(generation: int, refs: set<Key>, children: Children)

  datatype World = World(cluster: Option<Cluster>,
                         store: map<Key, Object>,   // all objects of the kinds of children
                         capi: Capi,
                         round: Round,
                         held: bool,
                         snapshot: Option<Snapshot>,
                         used: set<nat>)

  datatype EnvironmentStep =
    | CreateCluster(created: Cluster)
    | EditCluster(edited: Cluster)
    | RequestDeletion
    | ReleaseOthers
    | EditStore(store: map<Key, Object>)
    | CapiVanishes

  /** The patch says what the round completed, and whether it raises the generation by writing a default. */
  datatype ReconcilerStep =
    | Begin
    | ReadConfig
    | Provide
    | DeleteCapi
    | Patch(completed: Option<int>, raised: bool)
    | DropFinalizer
    | End

  datatype Step = EnvironmentDoes(e: EnvironmentStep) | ReconcilerDoes(r: ReconcilerStep)

  // ------------------------------------------------------------------ the children

  /** A TinkerbellMachineConfig refers to a template, a SnowMachineConfig to IP pools. */
  predicate MayRefer(k: Key, r: Key) {
    k.Member? && r.Member? && ((k.group == 2 && r.group == 3) || (k.group == 5 && r.group == 6)) && IsKey(r)
  }

  /** Different objects have different uids. */
  predicate WellFormed(store: map<Key, Object>) {
    && (forall k, k' :: k in store && k' in store && k != k' ==> store[k].uid != store[k'].uid)
    && (forall k :: k in store ==> IsKey(k))
    && (forall k :: k in store ==> forall r :: r in store[k].refs ==> MayRefer(k, r))
  }

  function Nested(store: map<Key, Object>, refs: set<Key>): set<Key> {
    set k, r | k in refs && k in store && r in store[k].refs :: r
  }

  function Reached(store: map<Key, Object>, refs: set<Key>): set<Key> {
    refs + Nested(store, refs)
  }

  /** All objects that are referred to exist, so that the configuration can be built. */
  predicate Buildable(store: map<Key, Object>, refs: set<Key>) {
    Reached(store, refs) <= store.Keys
  }

  function ChildrenIn(store: map<Key, Object>, refs: set<Key>): Children {
    Restrict(store, Reached(store, refs))
  }

  predicate RefsFit(refs: set<Key>) {
    (forall r :: r in refs ==> IsKey(r)) && |refs| < TWO_TO_THE_64
  }

  function Uids(store: map<Key, Object>): set<nat> {
    set k | k in store :: store[k].uid
  }

  /** Each object is an edited one with a larger generation, the same one, or one with a new uid. */
  predicate Evolves(store: map<Key, Object>, store': map<Key, Object>, used: set<nat>) {
    forall k :: k in store' ==>
      || (k in store && store'[k] == store[k])
      || (k in store && store'[k].uid == store[k].uid && store'[k].generation > store[k].generation)
      || (store'[k].uid !in used && store'[k].generation >= 1)
  }

  // ------------------------------------------------------------------ decisions of the reconciler

  ghost function Aggregated(c: Children): int {
    Int64(SumOf(c))
  }

  /** The status says that these generations have been reconciled. */
  ghost predicate Skips(cluster: Cluster, children: Children) {
    Aggregated(children) == cluster.childrenReconciled && cluster.reconciled == cluster.generation
  }

  /** Deletion is processed. */
  predicate Permitted(c: Cluster) {
    (c.selfManaged ==> c.managedByCLI) && (c.paused ==> c.deletableWhenPaused)
  }

  predicate InLiveRound(w: World) {
    w.round.Reading? && !w.round.cluster.deleting && !w.round.cluster.paused
  }

  predicate InDeletingRound(w: World) {
    w.round.Reading? && w.round.cluster.deleting && Permitted(w.round.cluster)
  }

  /** The children differ from the reconciled ones, so the phases run. */
  ghost predicate RunsPhases(w: World) {
    InLiveRound(w) && w.round.children.Some? && !Skips(w.round.cluster, w.round.children.value)
  }

  /** The round writes a bundle or a version into the spec. */
  predicate NeedsDefault(c: Cluster) {
    !c.selfManaged && !c.versioned
  }

  /** The API server adds no finalizers to an object that is being deleted. */
  predicate AcceptsFinalizer(c: Cluster) {
    c.deleting ==> c.finalizer
  }

  /** An object that is being deleted vanishes with its last finalizer. */
  function Settled(c: Cluster): Option<Cluster> {
    if c.deleting && !c.finalizer && !c.otherFinalizers then None else Some(c)
  }

  // ------------------------------------------------------------------ steps

  /** The spec is the same as long as the generation is. */
  predicate SameSpec(c: Cluster, c': Cluster) {
    c.generation <= c'.generation
      && (c.generation == c'.generation ==> c.refs == c'.refs && c.versioned == c'.versioned)
  }

  ghost predicate EnvironmentGuard(w: World, s: EnvironmentStep) {
    match s
    case CreateCluster(c) =>
      && w.cluster.None? && w.round.Idle? && c.generation >= 1 && c.reconciled == 0 && c.childrenReconciled == 0
      && !c.deleting && !c.finalizer && RefsFit(c.refs)
    case EditCluster(c) =>
      && w.cluster.Some? && SameSpec(w.cluster.value, c) && RefsFit(c.refs)
      && c.reconciled == w.cluster.value.reconciled && c.childrenReconciled == w.cluster.value.childrenReconciled
      && c.deleting == w.cluster.value.deleting && c.finalizer == w.cluster.value.finalizer
      && (c.deleting ==> c.otherFinalizers == w.cluster.value.otherFinalizers)
    case RequestDeletion => w.cluster.Some?
    case ReleaseOthers => w.cluster.Some?
    case EditStore(store) => Evolves(w.store, store, w.used) && WellFormed(store) && SumFits(store)
    case CapiVanishes => true
  }

  function EnvironmentApply(w: World, s: EnvironmentStep): World {
    match s
    case CreateCluster(c) => w.(cluster := Some(c), held := false, snapshot := None)
    case EditCluster(c) => w.(cluster := Some(c))
    case RequestDeletion => if w.cluster.None? then w else w.(cluster := Settled(w.cluster.value.(deleting := true)))
    case ReleaseOthers => if w.cluster.None? then w
      else w.(cluster := Settled(w.cluster.value.(otherFinalizers := false)))
    case EditStore(store) => w.(store := store, used := w.used + Uids(store))
    case CapiVanishes => w.(capi := Absent)
  }

  function Raised(c: Cluster, raised: bool): Cluster {
    if raised then c.(generation := c.generation + 1, versioned := true) else c
  }

  ghost predicate ReconcilerGuard(w: World, s: ReconcilerStep) {
    match s
    case Begin => w.round.Idle? && w.cluster.Some?
    case ReadConfig => InLiveRound(w) && w.round.children.None? && Buildable(w.store, w.round.cluster.refs)
    case Provide => RunsPhases(w)
    case DeleteCapi => InDeletingRound(w) && !w.capi.Absent?
    case Patch(completed, raised) =>
      && InLiveRound(w) && w.cluster.Some? && AcceptsFinalizer(w.cluster.value)
      && (completed.Some? ==> RunsPhases(w) && completed.value == Aggregated(w.round.children.value))
      && (raised ==> NeedsDefault(w.round.cluster))
    case DropFinalizer => InDeletingRound(w) && w.capi.Absent? && w.cluster.Some?
    case End => w.round.Reading?
  }

  function ReconcilerApply(w: World, s: ReconcilerStep): World
    requires ReconcilerGuard(w, s)
  {
    match s
    case Begin => w.(round := Reading(w.cluster.value, None))
    case ReadConfig => w.(round := w.round.(children := Some(ChildrenIn(w.store, w.round.cluster.refs))))
    case Provide => w.(capi := if w.capi.Absent? then Present else w.capi)
    case DeleteCapi => w.(capi := Deleting)
    case Patch(completed, raised) =>
      var c := Raised(w.cluster.value.(finalizer := true), raised);
      if completed.Some?
      then w.(cluster := Some(c.(reconciled := w.round.cluster.generation, childrenReconciled := completed.value)),
              snapshot := Some(Snapshot(w.round.cluster.generation, w.round.cluster.refs, w.round.children.value)),
              held := true, round := Idle)
      else w.(cluster := Some(c), held := true, round := Idle)
    case DropFinalizer => w.(cluster := Settled(w.cluster.value.(finalizer := false)), round := Idle)
    case End => w.(round := Idle)
  }

  ghost predicate Guard(w: World, s: Step) {
    match s
    case EnvironmentDoes(e) => EnvironmentGuard(w, e)
    case ReconcilerDoes(r) => ReconcilerGuard(w, r)
  }

  function Apply(w: World, s: Step): World
    requires Guard(w, s)
  {
    match s
    case EnvironmentDoes(e) => EnvironmentApply(w, e)
    case ReconcilerDoes(r) => ReconcilerApply(w, r)
  }

  ghost predicate IsRun(w: World, steps: seq<Step>)
    decreases |steps|, 0
  {
    steps == [] || (IsRun(w, steps[..|steps| - 1]) && Guard(After(w, steps[..|steps| - 1]), steps[|steps| - 1]))
  }

  ghost function After(w: World, steps: seq<Step>): World
    requires IsRun(w, steps)
    decreases |steps|, 1
  {
    if steps == [] then w else Apply(After(w, steps[..|steps| - 1]), steps[|steps| - 1])
  }

  // ------------------------------------------------------------------ what every step keeps

  /** The status is that of the last persisted complete round. */
  ghost predicate StatusMatches(c: Cluster, snapshot: Option<Snapshot>) {
    if snapshot.None? then c.reconciled == 0 && c.childrenReconciled == 0
    else c.reconciled == snapshot.value.generation && c.childrenReconciled == Aggregated(snapshot.value.children)
  }

  /** The snapshot is of this spec or of an earlier one. */
  predicate SnapshotPrecedes(s: Snapshot, c: Cluster) {
    s.generation <= c.generation && (s.generation == c.generation ==> s.refs == c.refs)
  }

  /** The children were there at some time, and those that still are have not gone back. */
  predicate Past(m: Children, w: World) {
    Older(m, w.store) && Uids(m) <= w.used && Positive(m) && WellFormed(m)
  }

  /** The children are those that these references lead to. */
  predicate ReadFrom(m: Children, refs: set<Key>) {
    m.Keys == Reached(m, refs)
  }

  ghost predicate StoreInv(w: World) {
    WellFormed(w.store) && SumFits(w.store) && Positive(w.store) && Uids(w.store) <= w.used
  }

  ghost predicate SnapshotInv(w: World) {
    && (w.cluster.Some? ==>
          w.cluster.value.generation >= 1 && RefsFit(w.cluster.value.refs)
            && StatusMatches(w.cluster.value, w.snapshot))
    && (w.snapshot.Some? ==>
          && w.snapshot.value.generation >= 1
          && w.held
          && Past(w.snapshot.value.children, w) && SumFits(w.snapshot.value.children)
          && ReadFrom(w.snapshot.value.children, w.snapshot.value.refs)
          && (w.cluster.Some? ==> SnapshotPrecedes(w.snapshot.value, w.cluster.value)))
  }

  ghost predicate RoundInv(w: World) {
    w.round.Reading? ==>
      && w.round.cluster.generation >= 1 && RefsFit(w.round.cluster.refs)
      && StatusMatches(w.round.cluster, w.snapshot)
      && (w.cluster.Some? ==> SameSpec(w.round.cluster, w.cluster.value))
      && (w.snapshot.Some? ==> SnapshotPrecedes(w.snapshot.value, w.round.cluster))
      && (w.round.children.Some? ==>
            && Past(w.round.children.value, w) && SumFits(w.round.children.value)
            && ReadFrom(w.round.children.value, w.round.cluster.refs))
      && (w.round.children.Some? && w.snapshot.Some? ==> Older(w.snapshot.value.children, w.round.children.value))
  }

  /** A persisted finalizer goes only after the CAPI cluster, and the CAPI cluster does not come back. */
  ghost predicate DeletionInv(w: World) {
    && (w.cluster.Some? ==> Settled(w.cluster.value) == w.cluster)
    && (w.cluster.Some? && w.round.Reading? && w.round.cluster.deleting ==> w.cluster.value.deleting)
    && (w.cluster.Some? && w.cluster.value.finalizer ==> w.held)
    && (w.held && (w.cluster.None? || !w.cluster.value.finalizer) ==>
          && w.capi.Absent?
          && (w.cluster.Some? ==> w.cluster.value.deleting)
          && (w.round.Reading? ==> w.round.cluster.deleting))
  }

  ghost predicate Inv(w: World) {
    StoreInv(w) && SnapshotInv(w) && RoundInv(w) && DeletionInv(w)
  }

  /** No Cluster object yet; a CAPI cluster may be there. */
  ghost predicate Initial(w: World) {
    w.cluster.None? && w.round.Idle? && !w.held && w.snapshot.None? && StoreInv(w)
  }

  /** What was there at some time stays past when the store evolves. */
  lemma PastStays(m: Children, w: World, store: map<Key, Object>)
    requires Past(m, w) && Uids(w.store) <= w.used && Evolves(w.store, store, w.used)
    ensures Past(m, w.(store := store, used := w.used + Uids(store)))
  {
    forall k | k in m && k in store && m[k].uid == store[k].uid
      ensures m[k].generation <= store[k].generation && (m[k].generation == store[k].generation ==> m[k] == store[k])
    {
      assert m[k].uid in Uids(m);
    }
  }

  lemma EditStoreKeepsInv(w: World, store: map<Key, Object>)
    requires Inv(w) && EnvironmentGuard(w, EditStore(store))
    ensures Inv(EnvironmentApply(w, EditStore(store)))
  {
    if w.snapshot.Some? {
      PastStays(w.snapshot.value.children, w, store);
    }
    if w.round.Reading? && w.round.children.Some? {
      PastStays(w.round.children.value, w, store);
    }
    var w' := EnvironmentApply(w, EditStore(store));
    assert Positive(store) by {
      forall k | k in store
        ensures store[k].generation >= 1
      {
      }
    }
    hide Past, Evolves, WellFormed, Positive, SumFits, Older, ReadFrom;
  }

  lemma EnvironmentKeepsInv(w: World, s: EnvironmentStep)
    requires Inv(w) && EnvironmentGuard(w, s)
    ensures Inv(EnvironmentApply(w, s))
  {
    match s
    case EditStore(store) => EditStoreKeepsInv(w, store);
    case _ =>
      hide Past, Evolves, WellFormed, Positive, SumFits, Older, ReadFrom;
  }

  /** A part of the store is as good as the store. */
  lemma PartOfStore(store: map<Key, Object>, s: set<Key>)
    requires WellFormed(store) && Positive(store) && SumFits(store)
    ensures var m := Restrict(store, s);
            WellFormed(m) && Positive(m) && SumFits(m) && Older(m, store) && Uids(m) <= Uids(store)
  {
    var m, others := Restrict(store, s), Restrict(store, store.Keys - s);
    SumSplit(store, s);
    SumPositive(m);
    SumPositive(others);
  }

  lemma OlderPart(old': Children, store: map<Key, Object>, s: set<Key>)
    requires Older(old', store)
    ensures Older(old', Restrict(store, s))
  {
  }

  lemma ReadsReached(store: map<Key, Object>, refs: set<Key>)
    requires Buildable(store, refs)
    ensures ReadFrom(ChildrenIn(store, refs), refs)
  {
    var m := ChildrenIn(store, refs);
    assert forall k :: k in refs ==> k in m && m[k] == store[k];
  }

  /** What a round reads is there, and follows from the references. */
  lemma ReadKeepsInv(w: World)
    requires Inv(w) && ReconcilerGuard(w, ReadConfig)
    ensures var m := ChildrenIn(w.store, w.round.cluster.refs);
            && Past(m, w) && SumFits(m) && ReadFrom(m, w.round.cluster.refs)
            && (w.snapshot.Some? ==> Older(w.snapshot.value.children, m))
  {
    var refs := w.round.cluster.refs;
    hide WellFormed, Positive, SumFits, Older, ReadFrom, Buildable, Restrict, Reached;
    PartOfStore(w.store, Reached(w.store, refs));
    ReadsReached(w.store, refs);
    if w.snapshot.Some? {
      OlderPart(w.snapshot.value.children, w.store, Reached(w.store, refs));
    }
  }

  lemma PatchKeepsInv(w: World, s: ReconcilerStep)
    requires Inv(w) && ReconcilerGuard(w, s) && s.Patch?
    ensures Inv(ReconcilerApply(w, s))
  {
    hide Past, Evolves, WellFormed, Positive, SumFits, Older, ReadFrom, Buildable, ChildrenIn, SumOf, Uids;
    var w' := ReconcilerApply(w, s);
    assert w' == w.(cluster := w'.cluster, snapshot := w'.snapshot, held := true, round := Idle);
    assert SnapshotInv(w') by {
      if w'.snapshot.Some? {
        assert Past(w'.snapshot.value.children, w) ==> Past(w'.snapshot.value.children, w') by {
          PastIsAboutTheStore(w'.snapshot.value.children, w, w');
        }
      }
    }
  }

  lemma PastIsAboutTheStore(m: Children, w: World, w': World)
    requires w'.store == w.store && w'.used == w.used
    ensures Past(m, w) <==> Past(m, w')
  {
  }

  lemma ReadConfigKeepsInv(w: World)
    requires Inv(w) && ReconcilerGuard(w, ReadConfig)
    ensures Inv(ReconcilerApply(w, ReadConfig))
  {
    ReadKeepsInv(w);
    SamePast(w, ReconcilerApply(w, ReadConfig));
    hide Past, Evolves, WellFormed, Positive, SumFits, Older, ReadFrom, Buildable, ChildrenIn, SumOf, Uids;
  }

  lemma SamePast(w: World, w': World)
    requires w'.store == w.store && w'.used == w.used
    ensures forall m: Children :: Past(m, w) <==> Past(m, w')
  {
    forall m: Children
      ensures Past(m, w) <==> Past(m, w')
    {
      PastIsAboutTheStore(m, w, w');
    }
  }

  /** The CAPI cluster is created or deleted. */
  lemma CapiKeepsInv(w: World, s: ReconcilerStep)
    requires Inv(w) && ReconcilerGuard(w, s) && (s.Provide? || s.DeleteCapi?)
    ensures Inv(ReconcilerApply(w, s))
  {
    SamePast(w, ReconcilerApply(w, s));
    hide Past, Evolves, WellFormed, Positive, SumFits, Older, ReadFrom, Buildable, ChildrenIn, SumOf, Uids;
  }

  /** A round begins or ends, perhaps with the finalizer. */
  lemma RoundKeepsInv(w: World, s: ReconcilerStep)
    requires Inv(w) && ReconcilerGuard(w, s) && (s.Begin? || s.DropFinalizer? || s.End?)
    ensures Inv(ReconcilerApply(w, s))
  {
    SamePast(w, ReconcilerApply(w, s));
    hide Past, Evolves, WellFormed, Positive, SumFits, Older, ReadFrom, Buildable, ChildrenIn, SumOf, Uids;
  }

  lemma ReconcilerKeepsInv(w: World, s: ReconcilerStep)
    requires Inv(w) && ReconcilerGuard(w, s)
    ensures Inv(ReconcilerApply(w, s))
  {
    hide Inv, ReconcilerApply, ReconcilerGuard;
    match s
    case ReadConfig => ReadConfigKeepsInv(w);
    case Provide => CapiKeepsInv(w, s);
    case DeleteCapi => CapiKeepsInv(w, s);
    case Patch(_, _) => PatchKeepsInv(w, s);
    case Begin => RoundKeepsInv(w, s);
    case DropFinalizer => RoundKeepsInv(w, s);
    case End => RoundKeepsInv(w, s);
  }

  lemma StepKeepsInv(w: World, s: Step)
    requires Inv(w) && Guard(w, s)
    ensures Inv(Apply(w, s))
  {
    match s
    case EnvironmentDoes(e) => EnvironmentKeepsInv(w, e);
    case ReconcilerDoes(r) => ReconcilerKeepsInv(w, r);
  }

  lemma {:induction false} RunKeepsInv(w: World, steps: seq<Step>)
    requires Inv(w) && IsRun(w, steps)
    ensures Inv(After(w, steps))
  {
    if steps != [] {
      RunKeepsInv(w, steps[..|steps| - 1]);
      StepKeepsInv(After(w, steps[..|steps| - 1]), steps[|steps| - 1]);
    }
  }

  // ------------------------------------------------------------------ the change test

  /** Nothing differs from what the snapshot saw. */
  predicate Unchanged(last: Option<Snapshot>, c: Cluster, children: Children) {
    last.Some? && last.value.generation == c.generation && last.value.children == children
  }

  /** The children that came in make up for the growth of those that stayed. */
  ghost predicate Offset(last: Option<Snapshot>, c: Cluster, children: Children) {
    && last.Some? && last.value.generation == c.generation
    && Replaced(last.value.children, children)
    && Growth(last.value.children, children) == Loss(last.value.children, children)
  }

  lemma SkipsExactly(w: World)
    requires Inv(w) && w.round.Reading? && w.round.children.Some?
    ensures var c, children := w.round.cluster, w.round.children.value;
            && (Unchanged(w.snapshot, c, children) ==> Skips(c, children))
            && (Skips(c, children) && !Unchanged(w.snapshot, c, children) <==> Offset(w.snapshot, c, children))
            && (Skips(c, children) ==> w.snapshot.Some?)
  {
    if w.snapshot.Some? {
      TestIsExact(w.snapshot.value.children, w.round.children.value);
    }
    hide Past, Evolves, WellFormed, Positive, SumFits, Older, ReadFrom, Replaced;
  }

  /** What the last persisted complete round of this Cluster object read, from the steps alone. */
  ghost function LastCompleted(w: World, steps: seq<Step>): Option<Snapshot>
    requires IsRun(w, steps)
  {
    if steps == [] then None
    else
      var before := After(w, steps[..|steps| - 1]);
      match steps[|steps| - 1]
      case ReconcilerDoes(Patch(completed, _)) =>
        if completed.Some? then Some(Snapshot(before.round.cluster.generation, before.round.cluster.refs,
                                              before.round.children.value))
        else LastCompleted(w, steps[..|steps| - 1])
      case EnvironmentDoes(CreateCluster(_)) => None
      case _ => LastCompleted(w, steps[..|steps| - 1])
  }

  lemma {:induction false} SnapshotIsLastCompleted(w: World, steps: seq<Step>)
    requires Initial(w) && IsRun(w, steps)
    ensures After(w, steps).snapshot == LastCompleted(w, steps)
  {
    if steps != [] {
      SnapshotIsLastCompleted(w, steps[..|steps| - 1]);
      hide Initial, StoreInv;
      match steps[|steps| - 1]
      case ReconcilerDoes(r) => match r { case _ => }
      case EnvironmentDoes(e) => match e { case _ => }
    }
  }

  lemma InitialInv(w: World)
    requires Initial(w)
    ensures Inv(w)
  {
  }

  /**
   * In every run, a round whose reads are done skips the phases if neither the cluster
   * nor a child differs from what the last persisted complete round read, and never
   * before a first such round. It skips them although something differs if and only if,
   * with the same cluster, a child was replaced and the sums are offset.
   */
  lemma ReconciliationIsSkippedExactly(w: World, steps: seq<Step>)
    requires Initial(w) && IsRun(w, steps)
    ensures var round, last := After(w, steps).round, LastCompleted(w, steps);
            round.Reading? && round.children.Some? ==>
              && (Unchanged(last, round.cluster, round.children.value) ==> Skips(round.cluster, round.children.value))
              && (Skips(round.cluster, round.children.value) && !Unchanged(last, round.cluster, round.children.value)
                  <==> Offset(last, round.cluster, round.children.value))
              && (Skips(round.cluster, round.children.value) ==> last.Some?)
  {
    InitialInv(w);
    RunKeepsInv(w, steps);
    SnapshotIsLastCompleted(w, steps);
    hide Inv, Unchanged, Skips, Offset;
    if After(w, steps).round.Reading? && After(w, steps).round.children.Some? {
      SkipsExactly(After(w, steps));
    }
  }

  /** For children that are not replaced, the test is exact. */
  lemma SkipsExactlyForFixedChildren(w: World)
    requires Inv(w) && w.round.Reading? && w.round.children.Some?
    requires w.snapshot.Some? ==> !Replaced(w.snapshot.value.children, w.round.children.value)
    ensures Skips(w.round.cluster, w.round.children.value) <==>
            Unchanged(w.snapshot, w.round.cluster, w.round.children.value)
  {
    hide Inv, Unchanged, Skips, Replaced;
    SkipsExactly(w);
  }

  /**
   * A child is exchanged for one under another name only by an edit of an object that
   * refers to it. So if a change is missed, then some child was recreated under its name,
   * or the children that came in have less generations than those that went.
   */
  lemma MissedNeedsRecreationOrLoss(w: World)
    requires Inv(w) && w.round.Reading? && w.round.children.Some?
             && Offset(w.snapshot, w.round.cluster, w.round.children.value)
    ensures var m, m' := w.snapshot.value.children, w.round.children.value;
            || (exists k :: k in m && k in m' && m[k].uid != m'[k].uid)
            || Loss(m, m') > 0
  {
    var m, m' := w.snapshot.value.children, w.round.children.value;
    GrowthIsExact(m, m');
    if Growth(m, m') == 0 && forall k :: k in m && k in m' ==> m[k].uid == m'[k].uid {
      SameReferrersSameChildren(m, m', w.round.cluster.refs);
    }
  }

  /** Children that are reached from the same references differ only if one of them was edited or recreated. */
  lemma SameReferrersSameChildren(m: Children, m': Children, refs: set<Key>)
    requires ReadFrom(m, refs) && ReadFrom(m', refs) && Older(m, m')
    requires Growth(m, m') == 0 && forall k :: k in m && k in m' ==> m[k].uid == m'[k].uid
    ensures !Replaced(m, m')
  {
    var kept := Kept(m, m');
    SumGrows(Restrict(m, kept), Restrict(m', kept));
    forall k | k in refs
      ensures k in m && k in m' && m[k] == m'[k]
    {
      assert k in kept && Restrict(m, kept)[k] == m[k] && Restrict(m', kept)[k] == m'[k];
    }
    assert Nested(m, refs) == Nested(m', refs);
    assert m.Keys == m'.Keys == kept;
  }

  // ------------------------------------------------------------------ deletion

  ghost predicate NoCreation(steps: seq<Step>) {
    forall s <- steps :: !(s.EnvironmentDoes? && s.e.CreateCluster?)
  }

  lemma {:induction false} PrefixIsRun(w: World, steps: seq<Step>, n: nat)
    requires IsRun(w, steps) && n <= |steps|
    ensures IsRun(w, steps[..n])
  {
    if n == |steps| {
      assert steps[..n] == steps;
    } else {
      PrefixIsRun(w, steps[..|steps| - 1], n);
      assert steps[..|steps| - 1][..n] == steps[..n];
    }
  }

  lemma {:induction false} StaysHeld(w: World, steps: seq<Step>, i: nat)
    requires IsRun(w, steps) && i <= |steps| && NoCreation(steps[i..])
    requires IsRun(w, steps[..i]) && After(w, steps[..i]).held
    ensures After(w, steps).held
  {
    if i == |steps| {
      assert steps[..i] == steps;
    } else {
      var n := |steps| - 1;
      assert steps[..n][..i] == steps[..i] && steps[..n][i..] == steps[i..n];
      assert NoCreation(steps[i..n]) by {
        forall s | s in steps[i..n]
          ensures s in steps[i..]
        {
        }
      }
      StaysHeld(w, steps[..n], i);
      assert steps[n] in steps[i..];
    }
  }

  /**
   * Once the finalizer is persisted, the Cluster object does not vanish while its
   * CAPI cluster exists, and the CAPI cluster stays away until a new Cluster object
   * is created.
   */
  lemma NeverVanishesBeforeCapi(w: World, steps: seq<Step>, i: nat)
    requires Initial(w) && IsRun(w, steps) && i <= |steps| && NoCreation(steps[i..])
    requires IsRun(w, steps[..i])
    requires var c := After(w, steps[..i]).cluster; c.Some? && c.value.finalizer
    ensures After(w, steps).cluster.None? ==> After(w, steps).capi.Absent?
  {
    InitialInv(w);
    RunKeepsInv(w, steps[..i]);
    StaysHeld(w, steps, i);
    RunKeepsInv(w, steps);
  }

  /** A deleting cluster, and no round in flight that began before its deletion. */
  ghost predicate OnlyDeletes(w: World) {
    && (w.cluster.Some? ==> w.cluster.value.deleting)
    && (w.round.Reading? ==> w.round.cluster.deleting)
  }

  lemma {:induction false} DeletionIsFinal(w: World, steps: seq<Step>, i: nat)
    requires Initial(w) && IsRun(w, steps) && i <= |steps| && NoCreation(steps[i..])
    requires IsRun(w, steps[..i]) && OnlyDeletes(After(w, steps[..i]))
    ensures OnlyDeletes(After(w, steps))
  {
    if i == |steps| {
      assert steps[..i] == steps;
    } else {
      var n := |steps| - 1;
      assert steps[..n][..i] == steps[..i] && steps[..n][i..] == steps[i..n];
      assert NoCreation(steps[i..n]) by {
        forall s | s in steps[i..n]
          ensures s in steps[i..]
        {
        }
      }
      DeletionIsFinal(w, steps[..n], i);
      assert steps[n] in steps[i..];
      OnlyDeletesStep(After(w, steps[..n]), steps[n]);
    }
  }

  lemma OnlyDeletesStep(w: World, s: Step)
    requires OnlyDeletes(w) && Guard(w, s) && !(s.EnvironmentDoes? && s.e.CreateCluster?)
    ensures OnlyDeletes(Apply(w, s))
  {
    match s
    case EnvironmentDoes(e) => match e { case _ => }
    case ReconcilerDoes(r) => match r { case _ => }
  }

  /** Once the reconciler has begun a round on a deleting cluster, the provider is not reached again. */
  lemma DeletingNeverReachesProvider(w: World, steps: seq<Step>, i: nat)
    requires Initial(w) && IsRun(w, steps) && i < |steps| && NoCreation(steps[i..])
    requires steps[i] == ReconcilerDoes(Begin) && IsRun(w, steps[..i])
    requires var c := After(w, steps[..i]).cluster; c.Some? && c.value.deleting
    ensures !RunsPhases(After(w, steps))
  {
    PrefixIsRun(w, steps, i + 1);
    assert steps[..i + 1][..i] == steps[..i];
    assert steps[i..] == [steps[i]] + steps[i + 1..];
    DeletionIsFinal(w, steps, i + 1);
  }

  lemma EnvironmentKeepsFinalizer(w: World, s: EnvironmentStep)
    requires EnvironmentGuard(w, s) && w.cluster.Some? && w.cluster.value.finalizer
    ensures var c := EnvironmentApply(w, s).cluster; c.Some? && c.value.finalizer
  {
    hide Evolves, WellFormed, SumFits, SameSpec, RefsFit;
  }

  lemma ReconcilerKeepsFinalizer(w: World, s: ReconcilerStep)
    requires ReconcilerGuard(w, s) && w.cluster.Some? && w.cluster.value.finalizer
    ensures s.DropFinalizer? || (ReconcilerApply(w, s).cluster.Some? && ReconcilerApply(w, s).cluster.value.finalizer)
    ensures s.DropFinalizer? ==> w.capi.Absent? && InDeletingRound(w)
  {
    match s
    case Begin =>
    case ReadConfig =>
    case Provide =>
    case DeleteCapi =>
    case Patch(_, _) =>
    case DropFinalizer =>
    case End =>
  }

  /**
   * A persisted finalizer is only dropped when the CAPI cluster is absent, in a round
   * that read a deleting cluster whose deletion is permitted.
   */
  lemma FinalizerDroppedOnlyAfterCapi(w: World, s: Step)
    requires Guard(w, s)
    requires w.cluster.Some? && w.cluster.value.finalizer
    requires var c := Apply(w, s).cluster; c.None? || !c.value.finalizer
    ensures s == ReconcilerDoes(DropFinalizer) && w.capi.Absent?
    ensures w.round.Reading? && w.round.cluster.deleting
    ensures w.round.cluster.selfManaged ==> w.round.cluster.managedByCLI
    ensures w.round.cluster.paused ==> w.round.cluster.deletableWhenPaused
  {
    hide EnvironmentGuard, EnvironmentApply, ReconcilerGuard, ReconcilerApply;
    match s
    case EnvironmentDoes(e) => EnvironmentKeepsFinalizer(w, e);
    case ReconcilerDoes(r) => ReconcilerKeepsFinalizer(w, r);
  }

  /** What a round acts on is what the Cluster object was when the round began. */
  lemma {:induction false} RoundWasRead(w: World, steps: seq<Step>) returns (i: nat)
    requires Initial(w) && IsRun(w, steps) && After(w, steps).round.Reading?
    ensures i < |steps| && steps[i] == ReconcilerDoes(Begin) && IsRun(w, steps[..i])
    ensures After(w, steps[..i]).cluster == Some(After(w, steps).round.cluster)
    ensures forall j :: i < j < |steps| ==> steps[j] != ReconcilerDoes(Begin)
  {
    hide Evolves, WellFormed, SumFits, SameSpec, RefsFit, RunsPhases, Buildable, ChildrenIn, StoreInv;
    var n := |steps| - 1;
    if steps[n] == ReconcilerDoes(Begin) {
      i := n;
    } else {
      i := RoundWasRead(w, steps[..n]);
      assert steps[..n][..i] == steps[..i];
    }
  }

  // ------------------------------------------------------------------ before the finalizer is persisted

  lemma Extend(w: World, steps: seq<Step>, s: Step)
    requires IsRun(w, steps) && Guard(After(w, steps), s)
    ensures IsRun(w, steps + [s]) && After(w, steps + [s]) == Apply(After(w, steps), s)
  {
    assert (steps + [s])[..|steps|] == steps;
  }

  /** Some run without a new Cluster object leads from one world to the other. */
  ghost predicate Leads(w: World, w': World) {
    Inv(w') && exists steps: seq<Step> :: IsRun(w, steps) && NoCreation(steps) && After(w, steps) == w'
  }

  lemma LeadsNowhere(w: World)
    requires Inv(w)
    ensures Leads(w, w)
  {
    assert IsRun(w, []) && NoCreation([]) && After(w, []) == w;
  }

  lemma LeadsStep(w: World, w': World, s: Step)
    requires Leads(w, w') && Guard(w', s) && !(s.EnvironmentDoes? && s.e.CreateCluster?)
    ensures Leads(w, Apply(w', s))
  {
    StepKeepsInv(w', s);
    hide Inv, Guard, Apply;
    var steps :| IsRun(w, steps) && NoCreation(steps) && After(w, steps) == w';
    Extend(w, steps, s);
    assert NoCreation(steps + [s]);
  }

  /** The object is gone, and the CAPI cluster is not. */
  predicate VanishedFirst(w: World) {
    w.cluster.None? && !w.capi.Absent?
  }

  ghost predicate CanVanishFirst(w: World) {
    exists w' :: Leads(w, w') && VanishedFirst(w')
  }

  /**
   * The finalizer was never persisted, and there is a CAPI cluster already, or there can
   * still be one: the object is not being deleted, or a round from before is in flight.
   */
  predicate Unprotected(w: World) {
    w.cluster.Some? && !w.held && (!w.capi.Absent? || !w.cluster.value.deleting || InLiveRound(w))
  }

  lemma VanishesNow(w0: World, w: World)
    requires Leads(w0, w) && w.cluster.Some? && !w.held && !w.capi.Absent?
    ensures exists w' :: Leads(w0, w') && VanishedFirst(w')
  {
    assert !w.cluster.value.finalizer;
    hide Leads, Inv;
    var w1 := w;
    if !w.cluster.value.deleting {
      LeadsStep(w0, w, EnvironmentDoes(RequestDeletion));
      w1 := EnvironmentApply(w, RequestDeletion);
    }
    if w1.cluster.Some? {
      LeadsStep(w0, w1, EnvironmentDoes(ReleaseOthers));
      w1 := EnvironmentApply(w1, ReleaseOthers);
    }
    assert VanishedFirst(w1);
  }

  /** An object for each of these references, with uids from the given one on. */
  lemma {:induction false} FreshStore(refs: set<Key>, uid: nat) returns (store: map<Key, Object>)
    ensures store.Keys == refs && SumOf(store) == |refs|
    ensures forall k :: k in store ==> store[k].uid >= uid && store[k].generation == 1 && store[k].refs == {}
    ensures forall k, k' :: k in store && k' in store && k != k' ==> store[k].uid != store[k'].uid
    decreases refs
  {
    store := map[];
    if refs != {} {
      var k :| k in refs;
      var rest := FreshStore(refs - {k}, uid + 1);
      store := rest[k := Object(uid, 1, {})];
      SumWithout(store, k);
      assert store - {k} == rest;
    }
  }

  lemma {:induction false} FreshUid(used: set<nat>) returns (uid: nat)
    ensures forall u :: u in used ==> u < uid
    decreases used
  {
    uid := 0;
    if used != {} {
      var u :| u in used;
      uid := FreshUid(used - {u});
      uid := if uid <= u then u + 1 else uid;
      assert forall v :: v in used ==> v == u || v in used - {u};
    }
  }

  lemma GetsStore(w0: World, w: World) returns (w': World)
    requires Leads(w0, w) && InLiveRound(w)
    ensures Leads(w0, w') && w' == w.(store := w'.store, used := w'.used)
    ensures Buildable(w'.store, w.round.cluster.refs)
  {
    var refs := w.round.cluster.refs;
    assert RefsFit(refs);
    var uid := FreshUid(w.used);
    var store := FreshStore(refs, uid);
    hide Leads, Inv;
    LeadsStep(w0, w, EnvironmentDoes(EditStore(store)));
    w' := EnvironmentApply(w, EditStore(store));
    assert Nested(w'.store, refs) == {};
  }

  /** A live round that has not read the children gets something to read. */
  lemma ReadsChildren(w0: World, w: World) returns (w': World)
    requires Leads(w0, w) && InLiveRound(w)
    ensures Leads(w0, w') && w' == w.(store := w'.store, used := w'.used, round := w'.round)
    ensures InLiveRound(w') && w'.round.cluster == w.round.cluster && w'.round.children.Some?
  {
    hide Leads, Inv, ChildrenIn, Buildable;
    w' := w;
    if w.round.children.None? {
      if !Buildable(w.store, w.round.cluster.refs) {
        w' := GetsStore(w0, w);
      }
      LeadsStep(w0, w', ReconcilerDoes(ReadConfig));
      w' := ReconcilerApply(w', ReadConfig);
    }
  }

  lemma ProvidesThenVanishes(w0: World, w: World)
    requires Leads(w0, w) && w.cluster.Some? && !w.held && w.capi.Absent? && InLiveRound(w)
    ensures exists w' :: Leads(w0, w') && VanishedFirst(w')
  {
    var w1 := ReadsChildren(w0, w);
    assert w1.snapshot.None? && !Skips(w1.round.cluster, w1.round.children.value);
    hide Leads, Inv, Skips;
    LeadsStep(w0, w1, ReconcilerDoes(Provide));
    VanishesNow(w0, ReconcilerApply(w1, Provide));
  }

  lemma EndsRound(w0: World, w: World)
    requires Leads(w0, w)
    ensures Leads(w0, w.(round := Idle))
  {
    hide Leads, Inv;
    if w.round.Reading? {
      LeadsStep(w0, w, ReconcilerDoes(End));
    }
  }

  lemma Unpauses(w0: World, w: World)
    requires Leads(w0, w) && w.cluster.Some?
    ensures Leads(w0, w.(cluster := Some(w.cluster.value.(paused := false))))
  {
    assert RefsFit(w.cluster.value.refs);
    hide Leads, Inv, RefsFit;
    LeadsStep(w0, w, EnvironmentDoes(EditCluster(w.cluster.value.(paused := false))));
  }

  /** An object that is not being deleted gets a live round. */
  lemma GetsLiveRound(w0: World, w: World) returns (w': World)
    requires Leads(w0, w) && w.cluster.Some? && !w.held && w.capi.Absent? && !w.cluster.value.deleting
    ensures Leads(w0, w') && w'.cluster.Some? && !w'.held && w'.capi.Absent? && InLiveRound(w')
  {
    hide Leads, Inv;
    EndsRound(w0, w);
    Unpauses(w0, w.(round := Idle));
    var w1 := w.(round := Idle, cluster := Some(w.cluster.value.(paused := false)));
    LeadsStep(w0, w1, ReconcilerDoes(Begin));
    w' := ReconcilerApply(w1, Begin);
  }

  /** The finalizer has been persisted, or no CAPI cluster can come any more. */
  predicate Protected(w: World) {
    w.held || (w.capi.Absent? && (w.cluster.Some? ==> w.cluster.value.deleting) && !InLiveRound(w))
  }

  lemma ProtectedStep(w: World, s: Step)
    requires Protected(w) && Guard(w, s) && !(s.EnvironmentDoes? && s.e.CreateCluster?)
    ensures Protected(Apply(w, s))
  {
    hide Evolves, WellFormed, SumFits, SameSpec, RefsFit, Skips, Buildable, ChildrenIn;
    match s
    case EnvironmentDoes(e) => match e { case _ => }
    case ReconcilerDoes(r) => match r { case _ => }
  }

  lemma {:induction false} StaysProtected(w: World, steps: seq<Step>)
    requires Protected(w) && IsRun(w, steps) && NoCreation(steps)
    ensures Protected(After(w, steps))
  {
    if steps != [] {
      var front := steps[..|steps| - 1];
      assert forall s <- front :: s in steps;
      StaysProtected(w, front);
      hide Guard, Apply, Protected;
      assert steps[|steps| - 1] in steps;
      ProtectedStep(After(w, front), steps[|steps| - 1]);
    }
  }

  /**
   * In every reachable world with a Cluster object: some continuation lets the object
   * vanish before its CAPI cluster if and only if the object is unprotected.
   */
  lemma VanishesFirstExactlyIfUnprotected(w: World)
    requires Inv(w) && w.cluster.Some?
    ensures CanVanishFirst(w) <==> Unprotected(w)
  {
    if Unprotected(w) {
      LeadsNowhere(w);
      hide Leads, Inv;
      if !w.capi.Absent? {
        VanishesNow(w, w);
      } else if InLiveRound(w) {
        ProvidesThenVanishes(w, w);
      } else {
        var w1 := GetsLiveRound(w, w);
        ProvidesThenVanishes(w, w1);
      }
    } else {
      forall w' | Leads(w, w')
        ensures !VanishedFirst(w')
      {
        var steps :| IsRun(w, steps) && NoCreation(steps) && After(w, steps) == w';
        StaysProtected(w, steps);
        ProtectedVanishesLast(w');
      }
    }
  }

  lemma ProtectedVanishesLast(w: World)
    requires Inv(w) && Protected(w)
    ensures !VanishedFirst(w)
  {
  }

  // ------------------------------------------------------------------ changes that are missed

  /** No round is in flight, and the last one completed and was persisted with everything as it is. */
  predicate JustReconciled(w: World) {
    && w.round.Idle? && w.cluster.Some? && !w.cluster.value.deleting && !w.cluster.value.paused
    && Buildable(w.store, w.cluster.value.refs)
    && w.snapshot == Some(Snapshot(w.cluster.value.generation, w.cluster.value.refs,
                                   ChildrenIn(w.store, w.cluster.value.refs)))
  }

  /** A round on other children with the same sum skips the phases. */
  lemma NextRoundSkips(w: World, store: map<Key, Object>) returns (w': World)
    requires Inv(w) && JustReconciled(w) && EnvironmentGuard(w, EditStore(store))
    requires Buildable(store, w.cluster.value.refs)
    requires SumOf(ChildrenIn(store, w.cluster.value.refs)) == SumOf(ChildrenIn(w.store, w.cluster.value.refs))
    ensures Leads(w, w') && InLiveRound(w') && w'.round.cluster == w.cluster.value
    ensures w'.round.children == Some(ChildrenIn(store, w.cluster.value.refs))
    ensures Skips(w'.round.cluster, w'.round.children.value)
  {
    LeadsNowhere(w);
    assert StatusMatches(w.cluster.value, w.snapshot);
    hide Leads, Inv, Evolves, WellFormed, SumFits, Buildable, ChildrenIn;
    LeadsStep(w, w, EnvironmentDoes(EditStore(store)));
    var w1 := EnvironmentApply(w, EditStore(store));
    LeadsStep(w, w1, ReconcilerDoes(Begin));
    var w2 := ReconcilerApply(w1, Begin);
    LeadsStep(w, w2, ReconcilerDoes(ReadConfig));
    w' := ReconcilerApply(w2, ReadConfig);
  }

  lemma SumReplaced(m: Children, m': Children, k: Key, k': Key)
    requires k in m && k' in m' && m - {k} == m' - {k'}
    ensures SumOf(m') - SumOf(m) == m'[k'].generation - m[k].generation
  {
    SumWithout(m, k);
    SumWithout(m', k');
  }

  lemma Recreated(store: map<Key, Object>, refs: set<Key>, k: Key, uid: nat)
    requires k in store
    ensures var store' := store[k := store[k].(uid := uid)];
            && Reached(store', refs) == Reached(store, refs)
            && SumOf(store') == SumOf(store)
            && SumOf(ChildrenIn(store', refs)) == SumOf(ChildrenIn(store, refs))
  {
    var store' := store[k := store[k].(uid := uid)];
    forall r
      ensures r in Nested(store', refs) <==> r in Nested(store, refs)
    {
      assert forall j :: j in store ==> j in store' && store'[j].refs == store[j].refs;
    }
    assert store - {k} == store' - {k};
    SumReplaced(store, store', k, k);
    var m, m' := ChildrenIn(store, refs), ChildrenIn(store', refs);
    if k in m {
      assert m - {k} == m' - {k};
      SumReplaced(m, m', k, k);
    } else {
      assert m == m';
    }
  }

  lemma RecreationIsAllowed(w: World, k: Key, uid: nat)
    requires Inv(w) && k in w.store && uid !in w.used
    ensures EnvironmentGuard(w, EditStore(w.store[k := w.store[k].(uid := uid)]))
  {
    hide SnapshotInv, RoundInv, DeletionInv;
    Recreated(w.store, {}, k, uid);
  }

  /** Any child that is recreated under its name, and has got the same generation, is taken for the old one. */
  lemma RecreatedChildIsMissed(w: World, k: Key) returns (w': World)
    requires Inv(w) && JustReconciled(w) && k in ChildrenIn(w.store, w.cluster.value.refs)
    ensures Leads(w, w') && InLiveRound(w') && w'.round.children.Some?
    ensures Skips(w'.round.cluster, w'.round.children.value)
            && !Unchanged(w.snapshot, w'.round.cluster, w'.round.children.value)
    ensures k in w'.round.children.value && w'.round.children.value[k].uid !in w.used
  {
    assert w.store[k].uid in Uids(w.store) && w.store[k].uid in w.used;
    hide Inv, Leads, EnvironmentGuard, Reached, Skips;
    var refs := w.cluster.value.refs;
    var uid := FreshUid(w.used);
    assert uid !in w.used;
    var store := w.store[k := w.store[k].(uid := uid)];
    RecreationIsAllowed(w, k, uid);
    Recreated(w.store, refs, k, uid);
    w' := NextRoundSkips(w, store);
    assert w'.round.children.value[k].uid == uid && w.snapshot.value.children[k].uid == w.store[k].uid;
  }

  /** A machine config whose only reference, which nobody else has, goes to another object that does not exist yet. */
  predicate Reroutable(w: World, machine: Key, old': Key, new': Key) {
    && w.cluster.Some? && machine in w.cluster.value.refs && machine in w.store && w.store[machine].refs == {old'}
    && old' in w.store && MayRefer(machine, old') && MayRefer(machine, new') && new' !in w.store
    && old' !in w.cluster.value.refs && new' !in w.cluster.value.refs
    && (forall k :: k in w.cluster.value.refs && k != machine && k in w.store ==>
      old' !in w.store[k].refs && new' !in w.store[k].refs)
  }

  function Rerouted(store: map<Key, Object>, machine: Key, old': Key, new': Key, uid: nat): map<Key, Object>
    requires machine in store && old' in store
  {
    (store - {old'})[machine := store[machine].(generation := store[machine].generation + 1, refs := {new'})]
      [new' := Object(uid, store[old'].generation - 1, {})]
  }

  lemma ReroutedSum(m: Children, machine: Key, old': Key, new': Key, uid: nat)
    requires machine in m && old' in m && new' !in m && machine != old'
    ensures SumOf(Rerouted(m, machine, old', new', uid)) == SumOf(m)
  {
    var m' := Rerouted(m, machine, old', new', uid);
    SumWithout(m, machine);
    SumWithout(m - {machine}, old');
    SumWithout(m', machine);
    SumWithout(m' - {machine}, new');
    assert m - {machine} - {old'} == m' - {machine} - {new'};
  }

  lemma ReroutedChildren(w: World, machine: Key, old': Key, new': Key, uid: nat)
    requires Reroutable(w, machine, old', new') && machine != old' && Buildable(w.store, w.cluster.value.refs)
    ensures var refs, store := w.cluster.value.refs, Rerouted(w.store, machine, old', new', uid);
            && Buildable(store, refs)
            && new' !in ChildrenIn(w.store, refs) && old' in ChildrenIn(w.store, refs)
            && machine in ChildrenIn(w.store, refs)
            && ChildrenIn(store, refs) == Rerouted(ChildrenIn(w.store, refs), machine, old', new', uid)
  {
    var refs, store := w.cluster.value.refs, Rerouted(w.store, machine, old', new', uid);
    forall r
      ensures r in Nested(store, refs) <==> r == new' || (r != old' && r in Nested(w.store, refs))
    {
      if r in Nested(store, refs) {
        var k :| k in refs && k in store && r in store[k].refs;
        assert k == machine || k == new' || (k in w.store && store[k] == w.store[k]);
      }
      if r == new' {
        assert machine in refs && machine in store && r in store[machine].refs;
      } else if r in Nested(w.store, refs) && r != old' {
        var k :| k in refs && k in w.store && r in w.store[k].refs;
        assert k != machine && k in store && store[k] == w.store[k];
      }
    }
    assert old' in Nested(w.store, refs);
    assert Reached(store, refs) == Reached(w.store, refs) - {old'} + {new'};
  }

  /**
   * A machine config that is edited to refer to a template whose generation is smaller by
   * one than that of the old template: the sums are equal, and the change is missed.
   */
  lemma ReroutedChildIsMissed(w: World, machine: Key, old': Key, new': Key) returns (w': World)
    requires Inv(w) && JustReconciled(w) && Reroutable(w, machine, old', new') && w.store[old'].generation >= 2
    ensures Leads(w, w') && InLiveRound(w') && w'.round.children.Some?
    ensures Skips(w'.round.cluster, w'.round.children.value)
            && !Unchanged(w.snapshot, w'.round.cluster, w'.round.children.value)
    ensures new' in w'.round.children.value && old' !in w'.round.children.value
  {
    assert machine != old' && w.store[machine].refs == {old'};
    hide Inv, Leads, EnvironmentGuard, Reroutable, ChildrenIn, Buildable, Skips, SumOf;
    var refs := w.cluster.value.refs;
    var uid := FreshUid(w.used);
    assert uid !in w.used;
    ReroutedChildren(w, machine, old', new', uid);
    var m := ChildrenIn(w.store, refs);
    ReroutedSum(m, machine, old', new', uid);
    ReroutedKeys(m, machine, old', new', uid);
    RerouteIsAllowed(w, machine, old', new', uid);
    hide Rerouted;
    w' := NextRoundSkips(w, Rerouted(w.store, machine, old', new', uid));
  }

  lemma ReroutedKeys(m: Children, machine: Key, old': Key, new': Key, uid: nat)
    requires machine in m && old' in m && new' !in m && machine != old'
    ensures var m' := Rerouted(m, machine, old', new', uid); new' in m' && old' !in m' && m' != m
  {
    assert new' in Rerouted(m, machine, old', new', uid);
  }

  lemma ReroutedEvolves(store: map<Key, Object>, machine: Key, old': Key, new': Key, uid: nat, used: set<nat>)
    requires machine in store && old' in store && machine != new' && store[old'].generation >= 2 && uid !in used
    ensures Evolves(store, Rerouted(store, machine, old', new', uid), used)
  {
  }

  lemma ReroutedIsWellFormed(store: map<Key, Object>, machine: Key, old': Key, new': Key, uid: nat)
    requires machine in store && old' in store && machine != new' && WellFormed(store) && MayRefer(machine, new')
    requires forall k :: k in store ==> store[k].uid != uid
    ensures WellFormed(Rerouted(store, machine, old', new', uid))
  {
    var store' := Rerouted(store, machine, old', new', uid);
    assert forall k :: k in store' && k != new' ==> k in store && store'[k].uid == store[k].uid;
    assert store'[new'].uid == uid;
  }

  lemma RerouteIsAllowed(w: World, machine: Key, old': Key, new': Key, uid: nat)
    requires Inv(w) && Reroutable(w, machine, old', new') && machine != old' && w.store[old'].generation >= 2
             && uid !in w.used
    ensures EnvironmentGuard(w, EditStore(Rerouted(w.store, machine, old', new', uid)))
  {
    hide SnapshotInv, RoundInv, DeletionInv, Rerouted, Evolves, WellFormed;
    assert forall k :: k in w.store ==> w.store[k].uid in Uids(w.store);
    ReroutedEvolves(w.store, machine, old', new', uid, w.used);
    ReroutedIsWellFormed(w.store, machine, old', new', uid);
    ReroutedSum(w.store, machine, old', new', uid);
  }
}
