/**
What one reconciler may rely on while the others run between two of its API calls.

Each relation is about two worlds, with any number of steps of the other actors in
between. A reconciler of one object never runs twice at the same time.
 */
module UpgradeInterference {
  import opened Wrappers
  import opened UpgradeModel
  import opened UpgradeInvariant

  /** Only the owner's reconciler creates and deletes the upgrade object, pauses, resumes and clears. */
  predicate OwnerRely(w: World, w': World) {
    && (w.annotation ==> w'.annotation)
    && w'.paused == w.paused
    && w'.ended == w.ended
    && w'.safe == w.safe
    && w'.clean == w.clean
    && w'.life == w.life
    && w'.role == w.role
    && (w.matched ==> w'.matched)
    && (Live(w) <==> Live(w'))
    && (w'.upgrade.Some? ==> w.upgrade.Some? && w'.upgrade.value.spec == w.upgrade.value.spec)
    && (w.upgrade.Some? && w.safe && AllUpgraded(w, w.upgrade.value.spec) ==> AllUpgraded(w', w.upgrade.value.spec))
    && (w.upgrade.Some? && w'.upgrade.Some? && w.upgrade.value.finalizer ==> w'.upgrade.value.finalizer)
    && (w.clean && Live(w) && w.upgrade.value.ready ==> w'.upgrade.value.ready)
  }

  /** Only this reconciler writes the upgrade object's status and creates or deletes NodeUpgrades. */
  predicate UpgradeRemains(w: World, w': World) {
    && w'.role == w.role
    && (w.upgrade.Some? ==>
          && w'.upgrade.Some?
          && w'.upgrade.value == w.upgrade.value.(deleting := w'.upgrade.value.deleting)
          && (w.upgrade.value.deleting ==> w'.upgrade.value.deleting)
          && (w.clean && w'.upgrade.value.deleting ==> w.upgrade.value.deleting || w.upgrade.value.ready)
          && w'.life == w.life
          && w'.safe == w.safe
          && w'.clean == w.clean
          && w.succeeded <= w'.succeeded
          && w'.nodes.Keys <= w.nodes.Keys
          && (forall m :: m in w.nodes ==> NodeRemains(w.nodes[m], m, w')))
  }

  /** And only this reconciler patches the machines. */
  predicate UpgraderRely(w: World, w': World) {
    UpgradeRemains(w, w') && (w.upgrade.Some? ==> w'.machines == w.machines)
  }

  predicate NodeRemains(n: NodeUpgrade, m: Name, w': World) {
    && (m !in w'.nodes ==> n.deleting)
    && (m in w'.nodes ==>
          && w'.nodes[m].version == n.version
          && w'.nodes[m].deleting == n.deleting
          && (n.completed ==> w'.nodes[m].completed))
  }

  /** A NodeUpgrade of the machine has the target version. */
  predicate Matches(w: World, m: Name)
    requires w.life.Some?
  {
    m in w.nodes ==> w.nodes[m].version == w.life.value.version
  }

  /** Only this reconciler writes the NodeUpgrade's status and creates or deletes its pod. */
  predicate NodeRely(m: Name, w: World, w': World) {
    && m in w'.busy
    && (m in w.nodes && w.nodes[m].finalizer ==>
          m in w'.nodes && w'.nodes[m] == w.nodes[m].(deleting := w'.nodes[m].deleting))
    && (m in w.nodes && w.nodes[m].deleting ==> m in w'.nodes && w'.nodes[m].deleting)
    && (m in w'.nodes && w'.nodes[m].completed ==> m in w.nodes && w.nodes[m].completed)
    && (m in w'.pods ==>
          && m in w.pods
          && w'.pods[m].deleting == w.pods[m].deleting
          && KeepsExitZero(w.pods[m], w'.pods[m]))
    && (Sheltered(w', m) ==>
          && Sheltered(w, m)
          && w'.life == w.life
          && w'.role == w.role
          && w.succeeded <= w'.succeeded
          && (Matches(w, m) ==> Matches(w', m)))
    && (Governed(w', m) ==>
          && Governed(w, m)
          && (m in w.nodes ==>
                m in w'.nodes && w'.nodes[m] == w.nodes[m].(deleting := w'.nodes[m].deleting)))
  }

  predicate Rely(me: Actor, w: World, w': World) {
    match me
    case Owner => OwnerRely(w, w')
    case Upgrader => UpgraderRely(w, w')
    case Node(m) => NodeRely(m, w, w')
    case Environment => true
  }

  /** A reconcile of a NodeUpgrade is registered while it runs. */
  predicate Registered(me: Actor, w: World) {
    me.Node? ==> me.machine in w.busy
  }

  /** Nothing that the owner looks at has changed. */
  lemma OwnerRelyElsewhere(w: World, w': World)
    requires w' == w.(nodes := w'.nodes, pods := w'.pods, machines := w'.machines, machineSet := w'.machineSet,
                      busy := w'.busy)
    requires w.safe && w.upgrade.Some? && AllUpgraded(w, w.upgrade.value.spec) ==> AllUpgraded(w', w.upgrade.value.spec)
    ensures OwnerRely(w, w')
  {
  }

  lemma OwnerRelyResource(w: World, s: UpgraderStep)
    requires Inv(w) && UpgraderGuard(w, s) && (s.PatchMachine? || s.PatchKubeadmConfig? || s.PatchInfraMachine?)
    ensures OwnerRely(w, UpgraderApply(w, s))
  {
    var w' := UpgraderApply(w, s);
    assert w' == w.(machines := w'.machines);
    if w.safe && AllUpgraded(w, w.upgrade.value.spec) {
      forall m | m in w.upgrade.value.spec.machines
        ensures Upgraded(w', m, w.upgrade.value.spec)
      {
        assert Upgraded(w, m, w.upgrade.value.spec);
      }
    }
    OwnerRelyElsewhere(w, w');
  }

  lemma OwnerRelyUpgrader(w: World, s: UpgraderStep)
    requires Inv(w) && UpgraderGuard(w, s)
    ensures OwnerRely(w, UpgraderApply(w, s))
  {
    var w' := UpgraderApply(w, s);
    match s
    case CreateNode(_) =>
      assert AllUpgraded(w, w.upgrade.value.spec) ==> AllUpgraded(w', w.upgrade.value.spec) by { SameUpgraded(w, w'); }
      OwnerRelyElsewhere(w, w');
    case DeleteNode(_) =>
      assert AllUpgraded(w, w.upgrade.value.spec) ==> AllUpgraded(w', w.upgrade.value.spec) by { SameUpgraded(w, w'); }
      OwnerRelyElsewhere(w, w');
    case PatchMachine(_, _) => OwnerRelyResource(w, s);
    case PatchKubeadmConfig(_) => OwnerRelyResource(w, s);
    case PatchInfraMachine(_) => OwnerRelyResource(w, s);
    case PatchMachineSet =>
      assert AllUpgraded(w, w.upgrade.value.spec) ==> AllUpgraded(w', w.upgrade.value.spec) by { SameUpgraded(w, w'); }
      OwnerRelyElsewhere(w, w');
    case PatchUpgrade(_, _, _, _) => OwnerRelyPatch(w, s);
  }

  lemma OwnerRelyPatch(w: World, s: UpgraderStep)
    requires Inv(w) && UpgraderGuard(w, s) && s.PatchUpgrade?
    ensures OwnerRely(w, UpgraderApply(w, s))
  {
    var w' := UpgraderApply(w, s);
    assert w' == w.(upgrade := w'.upgrade);
    SameUpgraded(w, w');
  }

  lemma SameUpgraded(w: World, w': World)
    requires w'.role == w.role && w'.machines == w.machines && w.succeeded <= w'.succeeded && w.upgrade.Some?
    ensures AllUpgraded(w, w.upgrade.value.spec) ==> AllUpgraded(w', w.upgrade.value.spec)
  {
    if AllUpgraded(w, w.upgrade.value.spec) {
      forall m | m in w.upgrade.value.spec.machines
        ensures Upgraded(w', m, w.upgrade.value.spec)
      {
        assert Upgraded(w, m, w.upgrade.value.spec);
      }
    }
  }

  lemma OwnerRelyNode(w: World, m: Name, s: NodeStep)
    requires NodeGuard(w, m, s)
    ensures OwnerRely(w, NodeApply(w, m, s))
  {
    hide AllDone, OwnerRely, AllUpgraded, Sheltered, Governed, KindFits;
    var w' := NodeApply(w, m, s);
    assert w' == w.(nodes := w'.nodes, pods := w'.pods, busy := w'.busy);
    hide NodeApply, NodeGuard;
    if w.upgrade.Some? {
      SameUpgraded(w, w');
    }
    OwnerRelyElsewhere(w, w');
  }

  lemma OwnerRelyEnvironment(w: World, s: EnvironmentStep)
    requires EnvironmentGuard(w, s)
    ensures OwnerRely(w, EnvironmentApply(w, s))
  {
    match s
    case Progress(_, _, _) =>
    case LosePod(_) =>
    case SetAnnotation =>
    case Observe(_) =>
  }

  lemma UpgraderRelyOwner(w: World, s: OwnerStep)
    requires Inv(w) && OwnerGuard(w, s)
    ensures UpgraderRely(w, OwnerApply(w, s))
  {
    match s
    case PauseCheck =>
    case CreateUpgrade(_) =>
    case DeleteUpgrade =>
    case ResumeCheck =>
    case ClearAnnotation =>
  }

  lemma UpgraderRelyNode(w: World, m: Name, s: NodeStep)
    requires Inv(w) && NodeGuard(w, m, s)
    ensures UpgraderRely(w, NodeApply(w, m, s))
  {
    match s
    case Begin =>
    case End =>
    case CreatePod(_, _) =>
    case DeletePod =>
    case PatchNode(_, _, _, _) =>
  }

  lemma UpgraderRelyEnvironment(w: World, s: EnvironmentStep)
    requires EnvironmentGuard(w, s)
    ensures UpgraderRely(w, EnvironmentApply(w, s))
  {
    match s
    case Progress(_, _, _) =>
    case LosePod(_) =>
    case SetAnnotation =>
    case Observe(_) =>
  }

  lemma NodeRelyOwner(m: Name, w: World, s: OwnerStep)
    requires Inv(w) && OwnerGuard(w, s) && m in w.busy
    ensures NodeRely(m, w, OwnerApply(w, s))
  {
    match s
    case PauseCheck =>
    case CreateUpgrade(_) =>
    case DeleteUpgrade =>
    case ResumeCheck =>
    case ClearAnnotation =>
  }

  lemma NodeRelyCreateNode(m: Name, w: World, i: nat)
    requires Bookkeeping(w) && UpgraderGuard(w, CreateNode(i)) && m in w.busy
    ensures NodeRely(m, w, UpgraderApply(w, CreateNode(i)))
  {
  }

  lemma NodeRelyDeleteNode(m: Name, w: World, m': Name)
    requires Bookkeeping(w) && UpgraderGuard(w, DeleteNode(m')) && m in w.busy
    requires Governed(w, m) ==> MachineInv(w, m, w.life.value)
    ensures NodeRely(m, w, UpgraderApply(w, DeleteNode(m')))
  {
  }

  /** Machines, the MachineSet and the upgrade object do not concern a NodeUpgrade. */
  lemma NodeRelyElsewhere(m: Name, w: World, w': World)
    requires m in w.busy && w' == w.(machines := w'.machines, machineSet := w'.machineSet, upgrade := w'.upgrade)
    ensures NodeRely(m, w, w')
  {
  }

  lemma NodeRelyUpgrader(m: Name, w: World, s: UpgraderStep)
    requires Bookkeeping(w) && UpgraderGuard(w, s) && m in w.busy
    requires Governed(w, m) ==> MachineInv(w, m, w.life.value)
    ensures NodeRely(m, w, UpgraderApply(w, s))
  {
    hide NodeRely, Bookkeeping, MachineInv, AllUpgraded, AllNodesDone, NodesReleased, EarlierDone, Counters;
    match s
    case CreateNode(i) => NodeRelyCreateNode(m, w, i);
    case DeleteNode(m') => NodeRelyDeleteNode(m, w, m');
    case PatchMachine(_, _) => NodeRelyElsewhere(m, w, UpgraderApply(w, s));
    case PatchKubeadmConfig(_) => NodeRelyElsewhere(m, w, UpgraderApply(w, s));
    case PatchInfraMachine(_) => NodeRelyElsewhere(m, w, UpgraderApply(w, s));
    case PatchMachineSet => NodeRelyElsewhere(m, w, UpgraderApply(w, s));
    case PatchUpgrade(_, _, _, _) => NodeRelyElsewhere(m, w, UpgraderApply(w, s));
  }

  /** What does not touch this NodeUpgrade and its pod. */
  lemma NodeRelySame(m: Name, w: World, w': World)
    requires m in w'.busy && w' == w.(nodes := w'.nodes, pods := w'.pods, busy := w'.busy)
    requires (m in w'.nodes <==> m in w.nodes) && (m in w.nodes ==> w'.nodes[m] == w.nodes[m])
    requires (m in w'.pods <==> m in w.pods) && (m in w.pods ==> w'.pods[m] == w.pods[m])
    ensures NodeRely(m, w, w')
  {
  }

  lemma NodeRelyNode(m: Name, w: World, m': Name, s: NodeStep)
    requires NodeGuard(w, m', s) && m in w.busy && m != m'
    ensures NodeRely(m, w, NodeApply(w, m', s))
  {
    hide NodeRely, AllDone;
    match s
    case Begin => NodeRelySame(m, w, w.(busy := w.busy + {m'}));
    case End => NodeRelySame(m, w, w.(busy := w.busy - {m'}));
    case CreatePod(version, kind) =>
      NodeRelySame(m, w, w.(pods := w.pods[m' := Pod(version, kind, [], [], false)]));
    case DeletePod => NodeRelySame(m, w, w.(pods := w.pods[m' := w.pods[m'].(deleting := true)]));
    case PatchNode(_, _, _, _) => NodeRelyPatch(m, w, m', s);
  }

  lemma NodeRelyPatch(m: Name, w: World, m': Name, s: NodeStep)
    requires NodeGuard(w, m', s) && s.PatchNode? && m in w.busy && m != m'
    ensures NodeRely(m, w, NodeApply(w, m', s))
  {
    hide NodeRely, AllDone;
    var w' := NodeApply(w, m', s);
    assert w' == w.(nodes := w'.nodes);
    NodeRelySame(m, w, w');
  }

  lemma NodeRelyEnvironment(m: Name, w: World, s: EnvironmentStep)
    requires EnvironmentGuard(w, s) && m in w.busy
    ensures NodeRely(m, w, EnvironmentApply(w, s))
  {
    match s
    case Progress(_, _, _) =>
    case LosePod(_) =>
    case SetAnnotation =>
    case Observe(_) =>
  }

  lemma RelyStep(me: Actor, w: World, s: Step)
    requires Inv(w) && Guard(w, s) && ActorOf(s) != me && Registered(me, w)
    ensures Rely(me, w, Apply(w, s))
  {
    match (me, s)
    case (Owner, UpgraderDoes(u)) => OwnerRelyUpgrader(w, u);
    case (Owner, NodeDoes(m, n)) => OwnerRelyNode(w, m, n);
    case (Owner, EnvironmentDoes(e)) => OwnerRelyEnvironment(w, e);
    case (Upgrader, OwnerDoes(o)) => UpgraderRelyOwner(w, o);
    case (Upgrader, NodeDoes(m, n)) => UpgraderRelyNode(w, m, n);
    case (Upgrader, EnvironmentDoes(e)) => UpgraderRelyEnvironment(w, e);
    case (Node(m), OwnerDoes(o)) => NodeRelyOwner(m, w, o);
    case (Node(m), UpgraderDoes(u)) => NodeRelyUpgrader(m, w, u);
    case (Node(m), NodeDoes(m', n)) => NodeRelyNode(m, w, m', n);
    case (Node(m), EnvironmentDoes(e)) => NodeRelyEnvironment(m, w, e);
    case _ =>
  }

  lemma RelyReflexive(me: Actor, w: World)
    requires Inv(w) && Registered(me, w)
    ensures Rely(me, w, w)
  {
  }

  lemma RelyTransitive(me: Actor, w: World, w': World, w'': World)
    requires Inv(w) && Inv(w') && Inv(w'') && Rely(me, w, w') && Rely(me, w', w'')
    ensures Rely(me, w, w'')
  {
  }
}
