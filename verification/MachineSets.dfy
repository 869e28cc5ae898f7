/**
A MachineDeploymentUpgrade is called ready before its MachineSet is updated, and the
status is persisted even if that update fails. When is the MachineSet of a ready upgrade
patched?

The answer is about whole reconciles: each reconcile that finds all nodes done says
ready, and patches the MachineSet exactly if updating it does not fail.
 */
module MachineSets {
  import opened Wrappers
  import opened UpgradeModel
  import opened UpgradeInvariant
  import opened OwnerControllers
  import opened UpgradeControllers
  import opened NodeUpgradeController
  import opened UpgradeTheorems
  import opened UpgradeProgress
  import opened UpgradeEvents
  import opened UpgradeLeftovers

  /** A live upgrade of workers. */
  predicate LiveWorkers(w: World, spec: UpgradeSpec) {
    w.role.Workers? && Live(w) && w.upgrade.value.spec == spec
  }

  // ------------------------------------------------------------------ one event

  lemma {:induction false} WorkerCount(w: World, spec: UpgradeSpec, i: nat, n: nat)
    requires w.role.Workers? && n <= i <= |spec.machines|
    ensures var (w', count) := CountDone(w, spec, i, n);
            && w' == w && count.Some? && count.value <= |spec.machines|
            && (count == Some(|spec.machines|) <==>
                n == i && forall j :: i <= j < |spec.machines| ==> NodeDone(w, spec.machines[j]))
    decreases |spec.machines| - i
  {
    if i < |spec.machines| {
      WorkerCount(w, spec, i + 1, if NodeDone(w, spec.machines[i]) then n + 1 else n);
    }
  }

  lemma CreateNextKeepsDone(w: World, spec: UpgradeSpec)
    requires Inv(w) && LiveWorkers(w, spec)
    ensures var w' := CreateNext(w);
            && w' == w.(nodes := w'.nodes)
            && (AllNodesDone(w, spec.machines) <==>
              forall j :: 0 <= j < |spec.machines| ==> NodeDone(w', spec.machines[j]))
  {
    var w' := CreateNext(w);
    assert w.clean ==> forall m :: m in spec.machines ==> MachineInv(w, m, spec);
    hide Inv, FirstNotDone;
    SameNodesDone(w, w', spec.machines);
  }

  /**
   * One reconcile: ready exactly if all nodes are done, and the MachineSet is patched
   * exactly if also its update works.
   */
  lemma WorkerRoundEffect(w: World, spec: UpgradeSpec, setFails: bool)
    requires Inv(w) && LiveWorkers(w, spec)
    ensures var w' := WorkerRound(w, setFails);
            && LiveWorkers(w', spec)
            && (w'.upgrade.value.ready <==> AllNodesDone(w, spec.machines))
            && w'.machineSet == if AllNodesDone(w, spec.machines) && !setFails then spec.data else w.machineSet
  {
    CreateNextKeepsDone(w, spec);
    WorkerCount(CreateNext(w), spec, 0, 0);
    hide Inv, CreateNext, CountDone, AllNodesDone;
  }

  /** The event is a reconcile that finds all nodes done. */
  predicate FindsAllDone(w: World, e: Event, spec: UpgradeSpec) {
    e.UpgradeReconciles? && AllNodesDone(w, spec.machines)
  }

  predicate SetAndReady(w: World, w': World, e: Event, spec: UpgradeSpec) {
    && LiveWorkers(w, spec) && LiveWorkers(w', spec)
    && (w'.upgrade.value.ready ==> w.upgrade.value.ready || (FindsAllDone(w, e, spec) && !e.lost))
    && w'.machineSet == if FindsAllDone(w, e, spec) && !e.setFails then spec.data else w.machineSet
  }

  lemma UpgraderTakes(w: World, s: UpgraderStep, spec: UpgradeSpec)
    requires LiveWorkers(w, spec) && UpgraderGuard(w, s) && Incidental(w, UpgraderDoes(s))
    ensures SetAndReady(w, UpgraderApply(w, s), Takes(UpgraderDoes(s)), spec)
  {
    match s
    case CreateNode(_) =>
    case DeleteNode(_) =>
    case PatchMachine(_, _) =>
    case PatchKubeadmConfig(_) =>
    case PatchInfraMachine(_) =>
    case PatchUpgrade(_, _, _, _) =>
  }

  lemma NodeTakes(w: World, m: Name, s: NodeStep, spec: UpgradeSpec)
    requires LiveWorkers(w, spec) && NodeGuard(w, m, s)
    ensures SetAndReady(w, NodeApply(w, m, s), Takes(NodeDoes(m, s)), spec)
  {
    match s
    case Begin =>
    case End =>
    case CreatePod(_, _) =>
    case DeletePod =>
    case PatchNode(_, _, _, _) =>
  }

  lemma EnvironmentTakes(w: World, s: EnvironmentStep, spec: UpgradeSpec)
    requires LiveWorkers(w, spec) && EnvironmentGuard(w, s)
    ensures SetAndReady(w, EnvironmentApply(w, s), Takes(EnvironmentDoes(s)), spec)
  {
    match s
    case Progress(_, _, _) =>
    case LosePod(_) =>
    case SetAnnotation =>
    case Observe(_) =>
  }

  lemma StepTakes(w: World, s: Step, spec: UpgradeSpec)
    requires LiveWorkers(w, spec) && Guard(w, s) && Incidental(w, s)
    ensures SetAndReady(w, Apply(w, s), Takes(s), spec)
  {
    hide SetAndReady, LiveWorkers;
    match s
    case UpgraderDoes(u) => UpgraderTakes(w, u, spec);
    case NodeDoes(m, n) => NodeTakes(w, m, n, spec);
    case EnvironmentDoes(e) => EnvironmentTakes(w, e, spec);
  }

  lemma EventEffect(w: World, e: Event, spec: UpgradeSpec)
    requires Inv(w) && LiveWorkers(w, spec) && Possible(w, e)
    ensures SetAndReady(w, Happens(w, e), e, spec)
  {
    hide Inv, AllNodesDone;
    match e
    case UpgradeReconciles(setFails, _) =>
      hide WorkerRound;
      WorkerRoundEffect(w, spec, setFails);
    case NodeReconciles(_) =>
      hide PodsAfter, NodesAfter;
    case PodDeletionFails(_) =>
    case Takes(s) =>
      hide Guard, Apply, SetAndReady;
      StepTakes(w, s, spec);
  }

  // ------------------------------------------------------------------ any number of events

  /** Event k is a reconcile that finds all nodes done. */
  predicate Counts(w0: World, events: seq<Event>, k: nat, spec: UpgradeSpec) {
    && k < |events| && AreEvents(w0, events[..k])
    && FindsAllDone(Outcome(w0, events[..k]), events[k], spec)
  }

  /** Some reconcile found all nodes done and persisted its status. */
  ghost predicate OnceReady(w0: World, events: seq<Event>, spec: UpgradeSpec) {
    exists k: nat :: Counts(w0, events, k, spec) && !events[k].lost
  }

  /** Some reconcile found all nodes done and updating the MachineSet worked. */
  ghost predicate OnceSet(w0: World, events: seq<Event>, spec: UpgradeSpec) {
    exists k: nat :: Counts(w0, events, k, spec) && !events[k].setFails
  }

  lemma CountsOneMore(w0: World, events: seq<Event>, k: nat, spec: UpgradeSpec)
    requires events != [] && AreEvents(w0, events[..|events| - 1])
    ensures var front := events[..|events| - 1];
            Counts(w0, events, k, spec) <==>
            if k == |front| then FindsAllDone(Outcome(w0, front), events[k], spec) else Counts(w0, front, k, spec)
    ensures Counts(w0, events, k, spec) ==> k < |events| && events[k].UpgradeReconciles?
  {
    hide AreEvents, Outcome, AllNodesDone;
    if k < |events| - 1 {
      assert events[..|events| - 1][..k] == events[..k];
    }
  }

  lemma OnceReadyOneMore(w0: World, events: seq<Event>, spec: UpgradeSpec)
    requires events != [] && AreEvents(w0, events[..|events| - 1])
    ensures var front, e := events[..|events| - 1], events[|events| - 1];
            OnceReady(w0, front, spec) || (FindsAllDone(Outcome(w0, front), e, spec) && !e.lost) ==>
            OnceReady(w0, events, spec)
  {
    var front, last := events[..|events| - 1], |events| - 1;
    hide AreEvents, Outcome, FindsAllDone;
    CountsOneMore(w0, events, last, spec);
    if k: nat :| Counts(w0, front, k, spec) && !front[k].lost {
      CountsOneMore(w0, events, k, spec);
    }
  }

  lemma OnceSetOneMore(w0: World, events: seq<Event>, spec: UpgradeSpec)
    requires events != [] && AreEvents(w0, events[..|events| - 1])
    ensures var front, e := events[..|events| - 1], events[|events| - 1];
            OnceSet(w0, events, spec) <==>
            OnceSet(w0, front, spec) || (FindsAllDone(Outcome(w0, front), e, spec) && !e.setFails)
  {
    var front, last := events[..|events| - 1], |events| - 1;
    hide AreEvents, Outcome, FindsAllDone;
    CountsOneMore(w0, events, last, spec);
    if k: nat :| Counts(w0, front, k, spec) && !front[k].setFails {
      CountsOneMore(w0, events, k, spec);
    }
    if k: nat :| Counts(w0, events, k, spec) && !events[k].setFails {
      CountsOneMore(w0, events, k, spec);
    }
  }

  /**
   * Over any reconciles of the upgrade object, with a failing update of the MachineSet or
   * a lost patch in any of them, and anything that others do in between: the upgrade is
   * ready only after a reconcile found all nodes done, and its MachineSet has the new
   * spec if and only if it had it before or the update worked in such a reconcile.
   */
  lemma {:induction false} MachineSetPatchedExactly(w0: World, events: seq<Event>, spec: UpgradeSpec)
    requires Inv(w0) && LiveWorkers(w0, spec) && !w0.upgrade.value.ready && AreEvents(w0, events)
    ensures Leads(w0, Outcome(w0, events)) && LiveWorkers(Outcome(w0, events), spec)
    ensures Outcome(w0, events).upgrade.value.ready ==> OnceReady(w0, events, spec)
    ensures Outcome(w0, events).machineSet == spec.data <==> w0.machineSet == spec.data || OnceSet(w0, events, spec)
    decreases |events|
  {
    if events == [] {
      LeadsNowhere(w0);
      assert forall k: nat :: !Counts(w0, events, k, spec);
    } else {
      var front, e := events[..|events| - 1], events[|events| - 1];
      MachineSetPatchedExactly(w0, front, spec);
      var w := Outcome(w0, front);
      LeadsToInv(w0, w);
      hide Inv, Leads, Possible, Happens, OnceReady, OnceSet, FindsAllDone;
      EventLeads(w0, w, e);
      EventEffect(w, e, spec);
      OnceReadyOneMore(w0, events, spec);
      OnceSetOneMore(w0, events, spec);
    }
  }

  // ------------------------------------------------------------------ ready without the patch

  /**
   * For any machines and whatever is left over of them, reconciles of a new upgrade make
   * it ready, with all its nodes done, while its MachineSet is as it was: in the one
   * reconcile that found all nodes done, updating the MachineSet failed.
   */
  lemma ReadyWithoutMachineSet(w: World, spec: UpgradeSpec) returns (events: seq<Event>)
    requires Inv(w) && w.role.Workers? && w.annotation && w.upgrade.None? && Distinct(spec.machines)
    requires forall m :: m in spec.machines ==> m in w.machines
    ensures AreEvents(Started(w, spec), events)
    ensures var w' := Outcome(Started(w, spec), events);
            && Leads(Started(w, spec), w') && LiveWorkers(w', spec) && w'.upgrade.value.ready
            && AllNodesDone(w', spec.machines)
            && w'.machineSet == w.machineSet
  {
    var w0, ms := Started(w, spec), spec.machines;
    StartedIsDriven(w, spec);
    hide Inv, AllHarmless, CleanStart;
    var ev, w1 := AllGetDone(w0, [], w0, spec, |ms|, 0);
    LeadsToInv(w0, w1);
    RoundEffect(w1, spec, |ms|);
    hide Leads, UpgradeRound;
    var e := UpgradeReconciles(true, false);
    OneMore(w0, ev, e);
    EventLeads(w0, w1, e);
    events := ev + [e];
    assert Outcome(w0, events).nodes == w1.nodes;
  }
}
