/**
Whole reconciles as events. A sequence of events goes from world to world in larger
strides than a run of the protocol: one event is a reconcile of the upgrade object or of
a NodeUpgrade, as the reconcilers' contracts describe it, or a single call of somebody
else. `EventLeads` says that each event is made of guarded steps.
 */
module UpgradeEvents {
  import opened Wrappers
  import opened UpgradeModel
  import opened UpgradeInvariant
  import opened UpgradeInterference
  import opened UpgradeControllers
  import opened NodeUpgradeController
  import opened UpgradeTheorems

  // ------------------------------------------------------------------ events

  datatype Event =
    | UpgradeReconciles(setFails: bool, lost: bool)  // updating the MachineSet fails; the deferred patch is lost
    | NodeReconciles(m: Name)                        // without faults
    | PodDeletionFails(m: Name)                      // a reconcile of a deleting NodeUpgrade that cannot delete the pod
    | Takes(s: Step)                                 // a single step

  /**
   * A step that is taken by itself while the upgrade object is live: one of another
   * actor, or what a reconcile of the upgrade object did before it failed. The only step
   * of the owner would be to delete the object.
   */
  predicate Incidental(w: World, s: Step) {
    match s
    case OwnerDoes(_) => false
    case UpgraderDoes(u) =>
      !u.PatchMachineSet? && (u.PatchUpgrade? && w.upgrade.Some? ==> u.ready == w.upgrade.value.ready)
    case NodeDoes(_, _) => true
    case EnvironmentDoes(_) => true
  }

  predicate Possible(w: World, e: Event) {
    match e
    case UpgradeReconciles(_, _) => Inv(w) && Live(w)
    case NodeReconciles(m) => m !in w.busy && m in w.nodes
    case PodDeletionFails(m) => m !in w.busy && m in w.nodes && w.nodes[m].deleting && m in w.pods
    case Takes(s) => Guard(w, s) && Incidental(w, s)
  }

  function Happens(w: World, e: Event): World
    requires Possible(w, e)
  {
    match e
    case UpgradeReconciles(setFails, lost) =>
      var w' := WorkerRound(w, setFails);
      if lost then w'.(upgrade := w.upgrade) else w'
    case NodeReconciles(m) => NodeRound(w, m)
    case PodDeletionFails(m) => w.(nodes := w.nodes[m := StatusFor(w.nodes[m].(finalizer := true), w.pods, m)])
    case Takes(s) => Apply(w, s)
  }

  predicate AreEvents(w: World, events: seq<Event>)
    decreases |events|, 0
  {
    events == [] ||
    (AreEvents(w, events[..|events| - 1]) && Possible(Outcome(w, events[..|events| - 1]), events[|events| - 1]))
  }

  function Outcome(w: World, events: seq<Event>): World
    requires AreEvents(w, events)
    decreases |events|, 1
  {
    if events == [] then w else Happens(Outcome(w, events[..|events| - 1]), events[|events| - 1])
  }

  lemma OneMore(w: World, events: seq<Event>, e: Event)
    requires AreEvents(w, events) && Possible(Outcome(w, events), e)
    ensures AreEvents(w, events + [e]) && Outcome(w, events + [e]) == Happens(Outcome(w, events), e)
  {
    assert (events + [e])[..|events|] == events;
  }

  // ------------------------------------------------------------------ runs without a new upgrade object

  /** A run without a new upgrade object leads from one world to the other. */
  ghost predicate Leads(w: World, w': World) {
    Inv(w') && exists steps: seq<Step> :: IsRun(w, steps) && NoCreate(steps) && After(w, steps) == w'
  }

  lemma LeadsNowhere(w: World)
    requires Inv(w)
    ensures Leads(w, w)
  {
    assert IsRun(w, []) && NoCreate([]) && After(w, []) == w;
  }

  lemma LeadsToInv(w: World, w': World)
    requires Leads(w, w')
    ensures Inv(w')
  {
  }

  lemma LeadsStep(w: World, w': World, s: Step)
    requires Leads(w, w') && Guard(w', s) && !Creates(s)
    ensures Leads(w, Apply(w', s))
  {
    StepKeepsInv(w', s);
    hide Inv, Guard, Apply;
    var steps :| IsRun(w, steps) && NoCreate(steps) && After(w, steps) == w';
    var longer := steps + [s];
    assert longer[..|longer| - 1] == steps;
    assert IsRun(w, longer) && NoCreate(longer) && After(w, longer) == Apply(w', s);
  }

  lemma UpgraderLeads(w0: World, w: World, s: UpgraderStep)
    requires Leads(w0, w) && UpgraderGuard(w, s)
    ensures Leads(w0, UpgraderApply(w, s))
  {
    hide Leads, UpgraderGuard, UpgraderApply;
    LeadsStep(w0, w, UpgraderDoes(s));
  }

  lemma NodeLeads(w0: World, w: World, m: Name, s: NodeStep)
    requires Leads(w0, w) && NodeGuard(w, m, s)
    ensures Leads(w0, NodeApply(w, m, s))
  {
    hide Leads, NodeGuard, NodeApply;
    LeadsStep(w0, w, NodeDoes(m, s));
  }

  // ------------------------------------------------------------------ reconciles of the upgrade object

  lemma PatchAllLeads(w0: World, w: World, u: Upgrade, m: Name)
    requires Leads(w0, w) && w.upgrade == Some(u) && m in w.nodes && m in w.machines
    requires MayPatch(w, u, m, w.nodes[m].version)
    ensures Leads(w0, PatchAll(w, m, u.spec.data))
  {
    hide Leads;
    var w1 := UpgraderApply(w, PatchMachine(m, w.nodes[m].version));
    UpgraderLeads(w0, w, PatchMachine(m, w.nodes[m].version));
    var w2 := UpgraderApply(w1, PatchKubeadmConfig(m));
    UpgraderLeads(w0, w1, PatchKubeadmConfig(m));
    var w3 := UpgraderApply(w2, PatchInfraMachine(m));
    UpgraderLeads(w0, w2, PatchInfraMachine(m));
    assert w3.machines == PatchAll(w, m, u.spec.data).machines;
  }

  /** What the count knows before it looks at machine i. */
  predicate Counting(w: World, u: Upgrade, i: nat, n: nat) {
    && w.upgrade == Some(u) && n <= i <= |u.spec.machines|
    && (w.safe && n == i ==> DoneUpTo(w, u.spec, i))
    && (w.clean && Live(w) && u.ready ==> n == i)
  }

  /** A machine that is not done. */
  lemma CountSkips(w: World, u: Upgrade, i: nat, n: nat)
    requires Inv(w) && Counting(w, u, i, n) && i < |u.spec.machines| && !NodeDone(w, u.spec.machines[i])
    ensures Counting(w, u, i + 1, n)
  {
    ReadyStays(w, u);
  }

  /** A machine that is done, whose resources have been patched if it belongs to a control plane. */
  lemma CountGoesOn(w: World, w': World, u: Upgrade, i: nat, n: nat)
    requires Inv(w) && Counting(w, u, i, n) && i < |u.spec.machines| && NodeDone(w, u.spec.machines[i])
    requires w' == if w.role.Workers? then w else PatchAll(w, u.spec.machines[i], u.spec.data)
    requires w.role.ControlPlane? ==> u.spec.machines[i] in w.machines
    ensures Counting(w', u, i + 1, n + 1)
  {
    var m := u.spec.machines[i];
    assert UpgradeControllers.InSync(w, u) && UpgradeControllers.InSync(w', u);
    assert ResourceDone(w, w', m, u);
    CompletedPatched(w, w', u, i);
    hide Inv, ResourceDone, NodeRemains, DoneUpTo;
  }

  /** One machine of the count: the world and the count after it, or nothing if the machine is missing. */
  function CountNext(w: World, u: Upgrade, i: nat, n: nat): Option<(World, nat)>
    requires i < |u.spec.machines|
  {
    var m := u.spec.machines[i];
    if !NodeDone(w, m) then Some((w, n))
    else if w.role.Workers? then Some((w, n + 1))
    else if m !in w.machines then None
    else Some((PatchAll(w, m, u.spec.data), n + 1))
  }

  lemma CountNextLeads(w0: World, w: World, u: Upgrade, i: nat, n: nat)
    requires Leads(w0, w) && Counting(w, u, i, n) && i < |u.spec.machines|
    ensures var next := CountNext(w, u, i, n);
            next.Some? ==> Leads(w0, next.value.0) && Counting(next.value.0, u, i + 1, next.value.1)
  {
    LeadsToInv(w0, w);
    CountingBounds(w, u, i, n);
    hide Leads, Inv, Counting;
    var m := u.spec.machines[i];
    if !NodeDone(w, m) {
      CountSkips(w, u, i, n);
    } else if w.role.Workers? {
      CountGoesOn(w, w, u, i, n);
    } else if m in w.machines {
      CompletedMayPatch(w, u, i);
      PatchAllLeads(w0, w, u, m);
      CountGoesOn(w, PatchAll(w, m, u.spec.data), u, i, n);
    }
  }

  lemma CountDoneNext(w: World, u: Upgrade, i: nat, n: nat)
    requires i < |u.spec.machines|
    ensures var next := CountNext(w, u, i, n);
            CountDone(w, u.spec, i, n) ==
            if next.Some? then CountDone(next.value.0, u.spec, i + 1, next.value.1) else (w, None)
  {
  }

  lemma {:induction false} CountLeads(w0: World, w: World, u: Upgrade, i: nat, n: nat)
    requires Leads(w0, w) && Counting(w, u, i, n)
    ensures var (w', count) := CountDone(w, u.spec, i, n);
            Leads(w0, w') && (count.Some? ==> Counting(w', u, |u.spec.machines|, count.value))
    decreases |u.spec.machines| - i
  {
    CountingBounds(w, u, i, n);
    hide Leads, Counting, CountNext;
    if i < |u.spec.machines| {
      CountNextLeads(w0, w, u, i, n);
      CountDoneNext(w, u, i, n);
      hide CountDone;
      var next := CountNext(w, u, i, n);
      if next.Some? {
        CountLeads(w0, next.value.0, u, i + 1, next.value.1);
      }
    }
  }

  lemma CountingBounds(w: World, u: Upgrade, i: nat, n: nat)
    requires Counting(w, u, i, n)
    ensures w.upgrade == Some(u) && n <= i <= |u.spec.machines|
  {
  }

  lemma CreateNextLeads(w0: World, w: World)
    requires Leads(w0, w) && Live(w)
    ensures Leads(w0, CreateNext(w)) && CreateNext(w) == w.(nodes := CreateNext(w).nodes)
  {
    if CreateNext(w) != w {
      var k := FirstNotDone(w, w.upgrade.value.spec.machines, 0);
      assert w.clean ==> MachineInv(w, w.upgrade.value.spec.machines[k], w.upgrade.value.spec);
      assert UpgraderGuard(w, CreateNode(k));
      hide Leads;
      UpgraderLeads(w0, w, CreateNode(k));
    }
  }

  /** What the count and the update of the MachineSet lead to, and the status to be patched. */
  function Counted(w: World, read: Upgrade, setFails: bool): (World, Upgrade) {
    var (w1, u) := UpdatedStatus(w, read.(finalizer := true));
    (if setFails then w1.(machineSet := w.machineSet) else w1, u)
  }

  lemma CountAndSetLead(w0: World, w: World, read: Upgrade, setFails: bool)
    requires Leads(w0, w) && Live(w) && w.upgrade == Some(read)
    ensures var (w2, u) := Counted(w, read, setFails);
            && Leads(w0, w2) && w2.upgrade == Some(read)
            && UpgradeControllers.StatusEarned(w2, read, u) && u.finalizer
            && u == read.(finalizer := true, ready := u.ready, upgraded := u.upgraded, required := u.required)
  {
    var u0 := read.(finalizer := true);
    CountKeepsUpgrade(w, read.spec, 0, 0);
    StartsCounting(w, read);
    CountLeads(w0, w, read, 0, 0);
    var (w1, count) := CountDone(w, read.spec, 0, 0);
    var u := if count.Some? then WithCount(u0, count.value) else u0;
    LeadsToInv(w0, w1);
    CountingEarns(w1, read, u0, count);
    var patched := count.Some? && u.ready && !setFails && w.role.Workers?;
    SetLeads(w0, w1, read, patched);
    hide Leads, CountDone, Counting, UpgradeControllers.StatusEarned, MayPatchSet;
    if patched {
      SetEarns(w1, w1.(machineSet := read.spec.data), read, u);
    }
    assert Counted(w, read, setFails) == (if patched then w1.(machineSet := read.spec.data) else w1, u);
  }

  lemma StartsCounting(w: World, u: Upgrade)
    requires w.upgrade == Some(u)
    ensures Counting(w, u, 0, 0)
  {
  }

  /** The count, the update of the MachineSet, and the deferred patch unless it is lost. */
  lemma StatusLeads(w0: World, w: World, read: Upgrade, setFails: bool)
    requires Leads(w0, w) && Live(w) && w.upgrade == Some(read)
    ensures var (w2, u) := Counted(w, read, setFails);
            Leads(w0, w2) && w2.upgrade == Some(read) && Leads(w0, w2.(upgrade := Some(u)))
  {
    CountAndSetLead(w0, w, read, setFails);
    hide Leads, Counted, UpgradeControllers.StatusEarned;
    var (w2, u) := Counted(w, read, setFails);
    PatchLeads(w0, w2, read, u);
    assert w2.(upgrade := Some(u)) == UpgraderApply(w2, PatchUpgrade(true, u.ready, u.upgraded, u.required));
  }

  lemma CountingEarns(w: World, read: Upgrade, u: Upgrade, count: Option<nat>)
    requires Inv(w) && w.upgrade == Some(read) && u == read.(finalizer := true) && !read.deleting
    requires count.Some? ==> Counting(w, read, |read.spec.machines|, count.value)
    ensures var u' := if count.Some? then WithCount(u, count.value) else u;
            && UpgradeControllers.StatusEarned(w, read, u')
            && (count.Some? && u'.ready ==> MayPatchSet(w, read))
  {
    CountEarns(w, read, u, count);
  }

  lemma SetLeads(w0: World, w: World, read: Upgrade, patched: bool)
    requires Leads(w0, w) && w.upgrade == Some(read) && (patched ==> MayPatchSet(w, read))
    ensures var w' := if patched then w.(machineSet := read.spec.data) else w;
            Leads(w0, w') && w'.upgrade == Some(read) && (patched ==> MayPatchSet(w', read))
  {
    if patched {
      PatchSetStep(w, read);
      hide Leads, Guard, Apply, MayPatchSet;
      LeadsStep(w0, w, UpgraderDoes(PatchMachineSet));
    }
  }

  lemma PatchLeads(w0: World, w: World, read: Upgrade, u: Upgrade)
    requires Leads(w0, w) && w.upgrade == Some(read) && UpgradeControllers.StatusEarned(w, read, u) && u.finalizer
    ensures UpgraderGuard(w, PatchUpgrade(u.finalizer, u.ready, u.upgraded, u.required))
    ensures Leads(w0, UpgraderApply(w, PatchUpgrade(u.finalizer, u.ready, u.upgraded, u.required)))
  {
    LeadsToInv(w0, w);
    RelyReflexive(Upgrader, w);
    UpgradeControllers.PatchStillEarned(w, w, read, u);
    hide Leads, Inv;
    UpgraderLeads(w0, w, PatchUpgrade(u.finalizer, u.ready, u.upgraded, u.required));
  }

  lemma UpgradeReconcilesLeads(w0: World, w: World, setFails: bool, lost: bool)
    requires Leads(w0, w) && Possible(w, UpgradeReconciles(setFails, lost))
    ensures Leads(w0, Happens(w, UpgradeReconciles(setFails, lost)))
  {
    CreateNextLeads(w0, w);
    hide Leads, Inv, CreateNext, UpdatedStatus;
    StatusLeads(w0, CreateNext(w), w.upgrade.value, setFails);
    StatusKeepsUpgrade(CreateNext(w), w.upgrade.value.(finalizer := true));
  }

  lemma StatusKeepsUpgrade(w: World, u: Upgrade)
    ensures UpdatedStatus(w, u).0.upgrade == w.upgrade
  {
    CountKeepsUpgrade(w, u.spec, 0, 0);
  }

  // ------------------------------------------------------------------ reconciles of a NodeUpgrade

  /** What a reconcile does to the pods. */
  lemma PodsLead(w0: World, w: World, m: Name)
    requires Leads(w0, w) && m in w.busy && m in w.nodes
    ensures Leads(w0, w.(pods := PodsAfter(w.role, w.nodes, w.pods, m)))
  {
    LeadsToInv(w0, w);
    var n := w.nodes[m];
    SyncNow(w, m);
    hide Leads, Inv, NodeUpgradeController.InSync, Guard, Apply;
    if n.deleting {
      PodDeletion(w, m, n);
      if m in w.pods {
        LeadsStep(w0, w, NodeDoes(m, DeletePod));
      }
    } else if m !in w.pods && !n.completed && UpgraderPodCreated !in n.conditions {
      PodCreation(w, m, n);
      NodeLeads(w0, w, m, CreatePod(n.version, PodKindFor(w.role, n.first)));
    }
  }

  /** A status that is earned can be patched. */
  lemma StatusPatchLeads(w0: World, w: World, m: Name, n: NodeUpgrade)
    requires Leads(w0, w) && m in w.busy && m in w.nodes
    requires NodeUpgradeController.StatusEarned(w, m, w.nodes[m], n)
    requires (n.finalizer || n.deleting) && (!n.finalizer ==> PodReleased(w, m))
    requires n == w.nodes[m].(finalizer := n.finalizer, completed := n.completed, conditions := n.conditions,
             ready := n.ready)
    ensures Leads(w0, w.(nodes := if n.finalizer then w.nodes[m := n] else w.nodes - {m}))
  {
    LeadsToInv(w0, w);
    SyncNow(w, m);
    RelyReflexive(Node(m), w);
    NodeUpgradeController.PatchStillEarned(w, w, m, w.nodes[m], n);
    hide Leads, Inv, NodeUpgradeController.InSync, NodeUpgradeController.StatusEarned, NodeRely;
    NodeLeads(w0, w, m, PatchNode(n.finalizer, n.completed, n.conditions, n.ready));
  }

  lemma StatusKeepsIdentity(n: NodeUpgrade, pods: map<Name, Pod>, m: Name)
    ensures var n' := StatusFor(n, pods, m);
            n' == n.(completed := n'.completed, conditions := n'.conditions, ready := n'.ready)
  {
  }

  lemma StatusForEarned(w: World, m: Name, finalizer: bool)
    requires Inv(w) && m in w.busy && m in w.nodes
    ensures NodeUpgradeController.StatusEarned(w, m, w.nodes[m], w.nodes[m].(finalizer := finalizer))
    ensures NodeUpgradeController.StatusEarned(w, m, w.nodes[m],
            StatusFor(w.nodes[m].(finalizer := finalizer), w.pods, m))
  {
    SyncNow(w, m);
    StatusNow(w, m, w.nodes[m], w.nodes[m].(finalizer := finalizer));
  }

  /** What the deferred patch does to the NodeUpgrade. */
  lemma NodesLead(w0: World, w: World, m: Name)
    requires Leads(w0, w) && m in w.busy && m in w.nodes && (w.nodes[m].deleting ==> PodReleased(w, m))
    ensures Leads(w0, w.(nodes := NodesAfter(w.nodes, w.pods, m)))
  {
    LeadsToInv(w0, w);
    var n := w.nodes[m];
    StatusForEarned(w, m, !n.deleting);
    StatusKeepsIdentity(n.(finalizer := true), w.pods, m);
    hide Leads, Inv, StatusFor, NodeUpgradeController.StatusEarned;
    if n.deleting {
      StatusPatchLeads(w0, w, m, n.(finalizer := false));
    } else {
      StatusPatchLeads(w0, w, m, StatusFor(n.(finalizer := true), w.pods, m));
    }
  }

  lemma NodeRoundLeads(w0: World, w: World, m: Name)
    requires Leads(w0, w) && m !in w.busy && m in w.nodes
    ensures Leads(w0, NodeRound(w, m))
  {
    hide Leads, Inv, NodesAfter;
    NodeLeads(w0, w, m, Begin);
    var w1 := NodeApply(w, m, Begin);
    PodsLead(w0, w1, m);
    var w2 := w1.(pods := PodsAfter(w1.role, w1.nodes, w1.pods, m));
    assert w2.nodes[m].deleting ==> PodReleased(w2, m);
    NodesLead(w0, w2, m);
    var w3 := w2.(nodes := NodesAfter(w2.nodes, w2.pods, m));
    NodeLeads(w0, w3, m, End);
    assert w.busy + {m} - {m} == w.busy;
  }

  lemma PodDeletionFailsLeads(w0: World, w: World, m: Name)
    requires Leads(w0, w) && Possible(w, PodDeletionFails(m))
    ensures Leads(w0, Happens(w, PodDeletionFails(m)))
  {
    hide Leads, Inv, StatusFor, NodeUpgradeController.StatusEarned;
    NodeLeads(w0, w, m, Begin);
    var w1 := NodeApply(w, m, Begin);
    LeadsToInv(w0, w1);
    StatusForEarned(w1, m, true);
    StatusKeepsIdentity(w.nodes[m].(finalizer := true), w.pods, m);
    var n := StatusFor(w.nodes[m].(finalizer := true), w.pods, m);
    StatusPatchLeads(w0, w1, m, n);
    NodeLeads(w0, w1.(nodes := w.nodes[m := n]), m, End);
    assert w.busy + {m} - {m} == w.busy;
  }

  /** Each event is made of guarded steps, in every world that satisfies the invariant. */
  lemma EventLeads(w0: World, w: World, e: Event)
    requires Leads(w0, w) && Possible(w, e)
    ensures Leads(w0, Happens(w, e))
  {
    hide Leads, Inv, WorkerRound, NodeRound, StatusFor;
    match e
    case UpgradeReconciles(setFails, lost) => UpgradeReconcilesLeads(w0, w, setFails, lost);
    case NodeReconciles(m) => NodeRoundLeads(w0, w, m);
    case PodDeletionFails(m) => PodDeletionFailsLeads(w0, w, m);
    case Takes(s) => LeadsStep(w0, w, s);
  }
}
