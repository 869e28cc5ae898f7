/**
The cluster reconciler: one round at the granularity of its API calls, under
interference by users and other controllers and under failing calls.

The phases of the reconciler that the model does not open (validation, the provider,
IAM authentication, health checks) return an outcome; the provider may create the
CAPI cluster whatever it returns.
 */
module ClusterController {
  import opened Wrappers
  import opened Generations
  import opened ClusterLifecycle

  /** Whether a phase is done, wants to be called again, or fails. */
  datatype Outcome = Done | Requeue | Failed

  /** What the parts outside the model answer in one round. */
  datatype Phases = Phases(defaulted: bool, configBuilt: bool, ownersSet: bool,
                           pre: Outcome, provider: Outcome, creates: bool, post: Outcome,
                           failureDomainsApplied: bool)

  predicate AllDone(p: Phases) {
    p.pre.Done? && p.provider.Done? && p.post.Done?
  }

  /** The round writes a default into the spec. */
  predicate Raises(c: Cluster, p: Phases) {
    NeedsDefault(c) && p.defaulted
  }

  /** The children are read. */
  predicate Reads(c: Cluster, store: map<Key, Object>, p: Phases) {
    (NeedsDefault(c) ==> p.defaulted) && p.configBuilt && Buildable(store, c.refs)
  }

  /** The provider is called. */
  ghost predicate Provides(c: Cluster, store: map<Key, Object>, p: Phases) {
    Reads(c, store, p) && p.ownersSet && !Skips(c, ChildrenIn(store, c.refs)) && p.pre.Done?
  }

  function Created(capi: Capi): Capi {
    if capi.Absent? then Present else capi
  }

  /** A round of a live cluster in which no API call fails and nobody interferes. */
  ghost function LiveRound(w: World, c: Cluster, p: Phases): World {
    var c' := Raised(c.(finalizer := true), Raises(c, p));
    if !Provides(c, w.store, p) then w.(cluster := Some(c'), held := true)
    else
      var capi := if p.creates then Created(w.capi) else w.capi;
      var children := ChildrenIn(w.store, c.refs);
      if !AllDone(p) then w.(cluster := Some(c'), held := true, capi := capi)
      else w.(cluster := Some(c'.(reconciled := c.generation, childrenReconciled := Aggregated(children))),
              held := true, capi := capi, snapshot := Some(Snapshot(c.generation, c.refs, children)))
  }

  /** The same for a cluster that is being deleted. */
  function DeletingRound(w: World, c: Cluster, p: Phases, vSphere: bool): World {
    if !Permitted(c) || (vSphere && c.selfManaged && !p.failureDomainsApplied) then w
    else if w.capi.Absent? then w.(cluster := Settled(c.(finalizer := false)))
    else w.(capi := Deleting)
  }

  ghost function ClusterRound(w: World, p: Phases, vSphere: bool): World {
    if w.cluster.None? then w
    else
      var c := w.cluster.value;
      if c.deleting then DeletingRound(w, c, p, vSphere)
      else if c.paused then w
      else LiveRound(w, c, p)
  }

  // ------------------------------------------------------------------ the API server

  ghost predicate Reaches(start: World, w: World) {
    exists steps: seq<Step> :: IsRun(start, steps) && After(start, steps) == w
  }

  lemma StepReaches(start: World, w: World, s: Step)
    requires Reaches(start, w) && Guard(w, s)
    ensures Reaches(start, Apply(w, s))
  {
    var steps :| IsRun(start, steps) && After(start, steps) == w;
    Extend(start, steps, s);
  }

  /** No round has been recorded as complete. */
  predicate NothingCompleted(w: World, w': World) {
    w'.snapshot == w.snapshot || w'.snapshot.None?
  }

  /** The environment does not touch the round, and does not create what the reconciler found absent. */
  ghost predicate Rely(w: World, w': World) {
    && w'.round == w.round
    && NothingCompleted(w, w')
    && (w.capi.Absent? ==> w'.capi.Absent?)
    && (w.round.Reading? && w.cluster.None? ==> w'.cluster.None?)
  }

  lemma RelyStep(w: World, e: EnvironmentStep)
    requires EnvironmentGuard(w, e)
    ensures Rely(w, EnvironmentApply(w, e))
  {
    match e { case _ => }
  }

  /** Decides whether the environment may take a step. */
  method MayStep(w: World, e: EnvironmentStep) returns (ok: bool)
    ensures ok <==> EnvironmentGuard(w, e)
  {
    match e
    case CreateCluster(c) =>
      ok := w.cluster.None? && w.round.Idle? && c.generation >= 1 && c.reconciled == 0 && c.childrenReconciled == 0
        && !c.deleting && !c.finalizer && RefsFit(c.refs);
    case EditCluster(c) =>
      ok := w.cluster.Some? && SameSpec(w.cluster.value, c) && RefsFit(c.refs)
        && c.reconciled == w.cluster.value.reconciled && c.childrenReconciled == w.cluster.value.childrenReconciled
        && c.deleting == w.cluster.value.deleting && c.finalizer == w.cluster.value.finalizer
        && (c.deleting ==> c.otherFinalizers == w.cluster.value.otherFinalizers);
    case RequestDeletion => ok := w.cluster.Some?;
    case ReleaseOthers => ok := w.cluster.Some?;
    case EditStore(store) =>
      ok := Evolves(w.store, store, w.used) && WellFormed(store);
      if ok {
        var objs, keys := ChildObjects(ConfigOf(store));
        ListingTotal(objs, keys, ConfigOf(store));
        ConfigRoundTrip(store);
        ok := 0 <= Total(objs) < TWO_TO_THE_64;
      }
    case CapiVanishes => ok := true;
  }

  class ApiServer {
    var w: World
    const quiet: bool
    ghost const start: World

    ghost predicate Valid()
      reads this
    {
      Inv(start) && Reaches(start, w) && Inv(w)
    }

    constructor (start: World, quiet: bool)
      requires Inv(start)
      ensures Valid() && w == start && this.start == start && this.quiet == quiet
    {
      this.w := start;
      this.quiet := quiet;
      this.start := start;
      assert Reaches(start, start) by {
        assert IsRun(start, []) && After(start, []) == start;
      }
    }

    method Take(s: Step)
      requires Valid() && Guard(w, s)
      modifies this
      ensures Valid() && w == Apply(old(w), s)
    {
      StepKeepsInv(w, s);
      StepReaches(start, w, s);
      w := Apply(w, s);
    }

    method Do(r: ReconcilerStep)
      requires Valid() && ReconcilerGuard(w, r)
      modifies this
      ensures Valid() && w == ReconcilerApply(old(w), r)
    {
      Take(ReconcilerDoes(r));
    }

    /** Any number of steps of the environment. */
    method Interfere()
      requires Valid()
      modifies this
      ensures Valid() && Rely(old(w), w)
      ensures quiet ==> w == old(w)
    {
      var rounds: nat := *;
      while !quiet && rounds > 0
        invariant Valid() && Rely(old(w), w)
        invariant quiet ==> w == old(w)
      {
        var e: EnvironmentStep := *;
        var may := MayStep(w, e);
        if may {
          RelyStep(w, e);
          Take(EnvironmentDoes(e));
        }
        rounds := rounds - 1;
      }
    }

    /** A write that the server accepts. An error does not tell whether it took effect. */
    method Attempt(r: ReconcilerStep) returns (ok: bool)
      requires Valid() && ReconcilerGuard(w, r)
      modifies this
      ensures Valid()
      ensures w == old(w) || w == ReconcilerApply(old(w), r)
      ensures ok ==> w == ReconcilerApply(old(w), r)
      ensures quiet ==> ok
    {
      ok := Reachable(quiet);
      var lost: bool := *;
      if ok || !lost {
        Do(r);
      }
    }
  }

  lemma ChildrenAreKeyed(w: World)
    requires Inv(w) && w.round.Reading? && w.round.children.Some?
    ensures forall k :: k in w.round.children.value ==> IsKey(k)
  {
  }

  /** The children are put into a configuration, and their generations added up. */
  method Aggregate(children: Children) returns (sum: int)
    requires forall k :: k in children ==> IsKey(k)
    ensures sum == Aggregated(children)
  {
    hide ConfigOf, ChildrenOf, SumOf, Int64;
    ConfigRoundTrip(children);
    sum := AggregatedGeneration(ConfigOf(children));
  }

  /** The deferred patch took effect if the server accepts it, with the default unless there is one already. */
  ghost predicate Persists(w: World, w': World, completed: Option<int>, defaulted: bool) {
    ReconcilerGuard(w, Patch(completed, defaulted)) && (defaulted ==> !w.cluster.value.versioned) ==>
      w' == ReconcilerApply(w, Patch(completed, defaulted))
  }

  // ------------------------------------------------------------------ the reconciler

  class ClusterReconciler {
    const vSphere: bool

    constructor (vSphere: bool)
      ensures this.vSphere == vSphere
    {
      this.vSphere := vSphere;
    }

    method Reconcile(api: ApiServer, phases: Phases)
      requires api.Valid() && api.w.round.Idle?
      modifies api
      ensures api.Valid() && api.w.round.Idle?
      ensures NothingCompleted(old(api.w), api.w) || (phases.pre.Done? && phases.provider.Done? && phases.post.Done?)
      ensures api.quiet ==> api.w == ClusterRound(old(api.w), phases, vSphere)
    {
      api.Interfere();
      var ok := Reachable(api.quiet);
      if !ok || api.w.cluster.None? {
        return;
      }
      api.Do(Begin);
      var cluster := api.w.round.cluster;
      if cluster.deleting {
        ReconcileDelete(api, phases);
      } else if !cluster.paused {
        ReconcileLive(api, phases);
      }
      if api.w.round.Reading? {
        api.Do(End);
      }
    }

    /** Adds the finalizer, with the deferred patch, whatever the rest of the round does. */
    method ReconcileLive(api: ApiServer, phases: Phases)
      requires api.Valid() && InLiveRound(api.w) && api.w.round.children.None?
      modifies api
      ensures api.Valid()
      ensures NothingCompleted(old(api.w), api.w) || (phases.pre.Done? && phases.provider.Done? && phases.post.Done?)
      ensures api.quiet && old(api.w.cluster) == Some(old(api.w.round.cluster)) ==>
                api.w == LiveRound(old(api.w).(round := Idle), old(api.w.round.cluster), phases)
    {
      hide Inv, Reaches, Skips, ChildrenIn, Buildable;
      var cluster := api.w.round.cluster;
      var completed := ReadAndReconcile(api, phases);
      PatchCluster(api, completed, Raises(cluster, phases));
    }

    /** Sets the default if there is none, reads the children, and runs the phases if anything changed. */
    method ReadAndReconcile(api: ApiServer, phases: Phases) returns (completed: Option<int>)
      requires api.Valid() && InLiveRound(api.w) && api.w.round.children.None?
      modifies api
      ensures api.Valid() && InLiveRound(api.w) && api.w.round.cluster == old(api.w.round.cluster)
      ensures NothingCompleted(old(api.w), api.w)
      ensures completed.Some? ==> RunsPhases(api.w) && completed.value == Aggregated(api.w.round.children.value)
      ensures completed.Some? ==> phases.pre.Done? && phases.provider.Done? && phases.post.Done?
      ensures api.quiet ==>
                var w, c := old(api.w), old(api.w.round.cluster);
                && (completed.Some? <==> Provides(c, w.store, phases) && AllDone(phases))
                && (completed.Some? ==> api.w.round.children == Some(ChildrenIn(w.store, c.refs)))
                && api.w.(round := Idle) ==
                   w.(round := Idle, capi := if Provides(c, w.store, phases) && phases.creates then Created(w.capi)
                     else w.capi)
    {
      hide Inv, Reaches, Skips, ChildrenIn, Buildable;
      completed := None;
      if NeedsDefault(api.w.round.cluster) && !phases.defaulted {
        return;
      }
      api.Interfere();
      if !phases.configBuilt || !Buildable(api.w.store, api.w.round.cluster.refs) {
        return;
      }
      api.Do(ReadConfig);
      if !phases.ownersSet {
        return;
      }
      completed := ReconcilePhases(api, phases);
    }

    /** The phases, unless they are skipped. Returns the sum for the status if all of them are done. */
    method ReconcilePhases(api: ApiServer, phases: Phases) returns (completed: Option<int>)
      requires api.Valid() && InLiveRound(api.w) && api.w.round.children.Some?
      modifies api
      ensures api.Valid() && api.w.round == old(api.w.round) && NothingCompleted(old(api.w), api.w)
      ensures completed.Some? ==> completed.value == Aggregated(api.w.round.children.value)
      ensures completed.Some? <==>
                RunsPhases(api.w) && phases.pre.Done? && phases.provider.Done? && phases.post.Done?
      ensures api.quiet ==>
                api.w == old(api.w).(capi := if RunsPhases(old(api.w)) && phases.pre.Done? && phases.creates
                                             then Created(old(api.w.capi)) else old(api.w.capi))
    {
      ChildrenAreKeyed(api.w);
      hide Inv, Reaches, Aggregated;
      completed := None;
      var cluster := api.w.round.cluster;
      var aggregated := Aggregate(api.w.round.children.value);
      assert Skips(cluster, api.w.round.children.value) <==>
             aggregated == cluster.childrenReconciled && cluster.reconciled == cluster.generation;
      hide Skips;
      if aggregated == cluster.childrenReconciled && cluster.reconciled == cluster.generation {
        return;
      }
      if !phases.pre.Done? {
        return;
      }
      api.Interfere();
      if phases.creates {
        api.Do(Provide);
      }
      if phases.provider.Done? && phases.post.Done? {
        completed := Some(aggregated);
      }
    }

    /** The deferred patch of a round that added the finalizer, and perhaps a default. */
    method PatchCluster(api: ApiServer, completed: Option<int>, defaulted: bool)
      requires api.Valid() && InLiveRound(api.w) && (defaulted ==> NeedsDefault(api.w.round.cluster))
      requires completed.Some? ==> RunsPhases(api.w) && completed.value == Aggregated(api.w.round.children.value)
      modifies api
      ensures api.Valid()
      ensures completed.None? ==> NothingCompleted(old(api.w), api.w)
      ensures api.quiet && api.w.round.Reading? ==> api.w == old(api.w)
      ensures api.quiet ==> Persists(old(api.w), api.w, completed, defaulted)
    {
      hide Inv, Reaches, Skips;
      api.Interfere();
      if api.w.cluster.Some? && AcceptsFinalizer(api.w.cluster.value) {
        // a default that somebody else has set meanwhile, to the same value, changes nothing
        var same: bool := *;
        var raised := defaulted && !(same && api.w.cluster.value.versioned);
        var _ := api.Attempt(Patch(completed, raised));
      }
    }

    /** Deletes the CAPI cluster if there is one; otherwise drops the finalizer with the deferred patch. */
    method ReconcileDelete(api: ApiServer, phases: Phases)
      requires api.Valid() && api.w.round.Reading? && api.w.round.cluster.deleting
      modifies api
      ensures api.Valid() && NothingCompleted(old(api.w), api.w)
      ensures api.quiet && old(api.w.cluster) == Some(old(api.w.round.cluster)) ==>
                api.w.(round := Idle) ==
                DeletingRound(old(api.w).(round := Idle), old(api.w.round.cluster), phases, vSphere)
    {
      hide Inv, Reaches;
      var cluster := api.w.round.cluster;
      if cluster.selfManaged && !cluster.managedByCLI {
        return;
      }
      if cluster.paused && !cluster.deletableWhenPaused {
        return;
      }
      if vSphere && cluster.selfManaged && !phases.failureDomainsApplied {
        return;
      }
      api.Interfere();
      var ok := Reachable(api.quiet);
      if !ok {
        return;
      }
      if !api.w.capi.Absent? {
        api.Interfere();
        if !api.w.capi.Absent? {
          var _ := api.Attempt(DeleteCapi);
        }
        return;
      }
      // errors of the clean-up that follows do not stop the deferred patch
      api.Interfere();
      if api.w.cluster.Some? {
        var _ := api.Attempt(DropFinalizer);
      }
    }
  }

  // ------------------------------------------------------------------ what a round does

  /**
   * The status moves to what the round has read exactly if the round was not skipped and all
   * its phases are done; else it stays, and the CAPI cluster is created only after validation.
   */
  lemma StatusAdvancesExactly(w: World, p: Phases, vSphere: bool)
    requires w.cluster.Some? && !w.cluster.value.deleting && !w.cluster.value.paused
    ensures var c, w' := w.cluster.value, ClusterRound(w, p, vSphere);
            var children := ChildrenIn(w.store, c.refs);
            var defaults := !c.selfManaged && !c.versioned;
            var runs := && (defaults ==> p.defaulted) && p.configBuilt && p.ownersSet && Buildable(w.store, c.refs)
                        && (Aggregated(children) != c.childrenReconciled || c.reconciled != c.generation);
            && w'.cluster.Some? && w'.cluster.value.finalizer && w'.held
            && w'.cluster.value.generation == (if defaults && p.defaulted then c.generation + 1 else c.generation)
            && w'.cluster.value.versioned == (c.versioned || (defaults && p.defaulted))
            && (if runs && p.pre.Done? && p.provider.Done? && p.post.Done?
                then && w'.cluster.value.reconciled == c.generation
                     && w'.cluster.value.childrenReconciled == Aggregated(children)
                     && w'.snapshot == Some(Snapshot(c.generation, c.refs, children))
                else && w'.cluster.value.reconciled == c.reconciled
                     && w'.cluster.value.childrenReconciled == c.childrenReconciled
                     && w'.snapshot == w.snapshot)
            && w'.capi == (if runs && p.pre.Done? && p.creates && w.capi.Absent? then Present else w.capi)
            && w'.store == w.store && w'.cluster.value.refs == c.refs && !w'.cluster.value.deleting
            && w'.cluster.value.paused == c.paused && w'.cluster.value.selfManaged == c.selfManaged
  {
    hide Aggregated, ChildrenIn, Buildable;
  }

  /** A round is recorded as complete only if validation, provider and the rest are done, and never by a deletion. */
  lemma OnlyDoneRoundsComplete(w: World, p: Phases, vSphere: bool)
    ensures var w' := ClusterRound(w, p, vSphere);
            w'.snapshot != w.snapshot
            || (w.cluster.Some? && w'.cluster.Some? &&
                (w'.cluster.value.reconciled != w.cluster.value.reconciled
                 || w'.cluster.value.childrenReconciled != w.cluster.value.childrenReconciled)) ==>
              && p.pre.Done? && p.provider.Done? && p.post.Done?
              && w.cluster.Some? && !w.cluster.value.deleting && !w.cluster.value.paused
  {
    hide Aggregated, ChildrenIn, Buildable;
  }

  /**
   * As long as a phase is not done, a round that was not skipped is followed by one that is
   * not skipped: the next round is skipped only if this one was and wrote no default.
   */
  lemma UnfinishedRoundIsRetried(w: World, p: Phases, vSphere: bool)
    requires Inv(w) && w.cluster.Some? && !w.cluster.value.deleting && !w.cluster.value.paused
    requires !p.pre.Done? || !p.provider.Done? || !p.post.Done?
    ensures var c, w' := w.cluster.value, ClusterRound(w, p, vSphere);
            && w'.cluster.Some? && w'.store == w.store
            && var c' := w'.cluster.value;
            Skips(c', ChildrenIn(w'.store, c'.refs)) <==>
            && Skips(c, ChildrenIn(w.store, c.refs))
            && (c.selfManaged || c.versioned || !p.defaulted)
  {
    StatusAdvancesExactly(w, p, vSphere);
    assert w.cluster.value.reconciled <= w.cluster.value.generation;
    hide Inv, Aggregated, ChildrenIn, Buildable, ClusterRound;
  }

  // ------------------------------------------------------------------ deletion gets done

  /** A paused cluster, and one whose deletion is not for this controller, is left alone. */
  lemma LeftAlone(w: World, p: Phases, vSphere: bool)
    requires w.cluster.Some?
    requires var c := w.cluster.value;
             if c.deleting
             then || (c.selfManaged && !c.managedByCLI)
                  || (c.paused && !c.deletableWhenPaused)
                  || (vSphere && c.selfManaged && !p.failureDomainsApplied)
             else c.paused
    ensures ClusterRound(w, p, vSphere) == w
  {
  }

  /**
   * A permitted deletion takes two rounds: the first deletes the CAPI cluster, and the
   * one after it is gone lets the object go.
   */
  lemma DeletionTakesTwoRounds(w: World, p: Phases, vSphere: bool)
    requires w.cluster.Some? && w.cluster.value.deleting
    requires vSphere && w.cluster.value.selfManaged ==> p.failureDomainsApplied
    requires w.cluster.value.selfManaged ==> w.cluster.value.managedByCLI
    requires w.cluster.value.paused ==> w.cluster.value.deletableWhenPaused
    ensures var w1 := ClusterRound(w, p, vSphere);
            if w.capi.Absent? then w1.cluster.None? || (w1.cluster.value.otherFinalizers && !w1.cluster.value.finalizer)
            else w1.cluster == w.cluster && w1.capi.Deleting? &&
                 var w2 := ClusterRound(EnvironmentApply(w1, CapiVanishes), p, vSphere);
                 w2.cluster.None? || (w2.cluster.value.otherFinalizers && !w2.cluster.value.finalizer)
  {
  }

  /** A round that is skipped changes nothing, once the finalizer is there and no default is missing. */
  lemma SkippedRoundKeeps(w: World, p: Phases, vSphere: bool)
    requires w.cluster.Some? && !w.cluster.value.deleting && !w.cluster.value.paused
    requires w.cluster.value.finalizer && w.held && (w.cluster.value.selfManaged || w.cluster.value.versioned)
    requires Skips(w.cluster.value, ChildrenIn(w.store, w.cluster.value.refs))
    ensures ClusterRound(w, p, vSphere) == w
  {
    hide Skips, ChildrenIn, Buildable;
  }

  /**
   * The round after a complete one is skipped and changes nothing, if and only if the
   * complete one did not write a default into the spec. Then the one after it does not
   * write it again.
   */
  lemma CompleteRoundSettles(w: World, p: Phases, vSphere: bool)
    requires Inv(w) && w.cluster.Some? && !w.cluster.value.deleting && !w.cluster.value.paused
    requires w.cluster.value.selfManaged || w.cluster.value.versioned || p.defaulted
    requires p.configBuilt && p.ownersSet && Buildable(w.store, w.cluster.value.refs)
    requires p.pre.Done? && p.provider.Done? && p.post.Done?
    ensures var c, w1 := w.cluster.value, ClusterRound(w, p, vSphere);
            && w1.cluster.Some? && (w1.cluster.value.selfManaged || w1.cluster.value.versioned)
            && (Skips(w1.cluster.value, ChildrenIn(w1.store, w1.cluster.value.refs)) <==> c.selfManaged || c.versioned)
            && (c.selfManaged || c.versioned ==> ClusterRound(w1, p, vSphere) == w1)
  {
    StatusAdvancesExactly(w, p, vSphere);
    hide Inv, Aggregated, ChildrenIn, Buildable, ClusterRound;
    if w.cluster.value.selfManaged || w.cluster.value.versioned {
      SkippedRoundKeeps(ClusterRound(w, p, vSphere), p, vSphere);
    }
  }
}
