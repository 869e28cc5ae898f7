/**
What every world of every run satisfies.

`Pairing` and `Bookkeeping` hold in all runs. `SafeMachine` holds for the listed
machines during every life that found only harmless leftovers, `MachineInv` during
every life that found nothing, whatever happened in earlier lives.
 */
module UpgradeInvariant {
  import opened Wrappers
  import opened UpgradeModel

  /** The health check is paused while an upgrade object is live, and never left paused. */
  predicate Pairing(w: World) {
    && (Live(w) ==> w.paused && w.annotation)
    && (!w.annotation ==> !w.paused)
  }

  predicate Bookkeeping(w: World) {
    && (w.upgrade.Some? ==>
          && w.life == Some(w.upgrade.value.spec)
          && (w.upgrade.value.ready || w.upgrade.value.deleting ==> w.upgrade.value.finalizer)
          && (w.upgrade.value.deleting <==> w.ended))
    && (w.life.Some? && w.upgrade.None? ==> w.ended && NodesReleased(w, w.life.value))
    && (w.clean ==> w.safe)
    && (w.safe || w.ended ==> w.life.Some?)
    && (w.life.Some? ==> Distinct(w.life.value.machines))
    && (forall m :: m in w.nodes ==> Orderly(w, m))
  }

  /** The counters of the status, and what has been observed. */
  predicate Accounts(w: World) {
    && (w.upgrade.Some? ==>
          var u := w.upgrade.value; Counters(|u.spec.machines|, u.ready, u.upgraded, u.required))
    && (w.role.ControlPlane? ==> |w.observed| == 1)
    && (w.life.Some? && AllAre(w.observed, w.life.value.version) ==> w.matched)
    && (w.ended ==> w.matched)
  }

  /** Nothing can be taken for the upgrade of a listed machine but a pod that ran for it. */
  predicate SafeMachine(w: World, m: Name, spec: UpgradeSpec)
    requires m in spec.machines
  {
    && (m in w.pods ==>
          && w.pods[m].version == spec.version
          && (AllDone(w.pods[m]) ==> (m, spec.version) in w.succeeded))
    && (m in w.nodes ==>
          && (w.nodes[m].completed ==> (m, spec.version) in w.succeeded)
          && (w.nodes[m].version == spec.version ||
              (w.nodes[m].deleting && (w.role.Workers? || (!w.nodes[m].completed && m !in w.pods)))))
    && (w.ended || (w.upgrade.Some? && w.upgrade.value.ready) ==> Upgraded(w, m, spec))
  }

  /** A NodeUpgrade of a listed machine in a life with a clean start. */
  predicate NodeInv(w: World, m: Name, spec: UpgradeSpec)
    requires m in spec.machines && m in w.nodes
  {
    var n := w.nodes[m];
    && n.version == spec.version
    && (n.first <==> w.role.ControlPlane? && m == spec.machines[0])
    && (n.deleting ==> n.completed && !Live(w))
    && (w.ended ==> n.completed)
  }

  predicate MachineInv(w: World, m: Name, spec: UpgradeSpec)
    requires m in spec.machines
  {
    && (m in w.nodes ==> NodeInv(w, m, spec))
    // only a deleted pod outlives its NodeUpgrade
    && (m in w.pods && m !in w.nodes ==> w.pods[m].deleting && !Live(w))
    && (m in w.pods ==> KindFits(w.role, spec, m, w.pods[m].kind))
    && (Live(w) && w.upgrade.value.ready ==> NodeDone(w, m))
  }

  /** A machine's NodeUpgrade exists only after those of all earlier machines are completed. */
  predicate OneAtATime(w: World, ms: seq<Name>) {
    forall i, j :: 0 <= i < j < |ms| && ms[j] in w.nodes ==> NodeDone(w, ms[i])
  }

  predicate CleanLife(w: World, spec: UpgradeSpec)
    requires Distinct(spec.machines)
  {
    && (forall m :: m in spec.machines ==> MachineInv(w, m, spec))
    && (Live(w) ==> OneAtATime(w, spec.machines))
  }

  predicate SafeLife(w: World, spec: UpgradeSpec) {
    forall m :: m in spec.machines ==> SafeMachine(w, m, spec)
  }

  predicate Inv(w: World) {
    && Pairing(w)
    && Bookkeeping(w)
    && Accounts(w)
    && (w.safe ==> SafeLife(w, w.life.value))
    && (w.clean ==> CleanLife(w, w.life.value))
  }

  lemma FreshPodIsNotDone(version: Version, kind: PodKind)
    ensures !AllDone(Pod(version, kind, [], [], false))
  {
    assert !Succeeded(Pod(version, kind, [], [], false), Copier);
  }

  lemma DeletingKeepsDone(pod: Pod)
    ensures AllDone(pod.(deleting := true)) <==> AllDone(pod)
  {
    assert forall c: Component :: Succeeded(pod.(deleting := true), c) <==> Succeeded(pod, c);
  }

  lemma ProgressKeepsDone(before: Pod, after: Pod)
    requires KeepsExitZero(before, after) && AllDone(before)
    ensures AllDone(after)
  {
  }

  // ------------------------------------------------------------------ counters and observations

  lemma OwnerStepKeepsAccounts(w: World, s: OwnerStep)
    requires Accounts(w) && OwnerGuard(w, s)
    ensures Accounts(OwnerApply(w, s))
  {
    match s
    case PauseCheck =>
    case CreateUpgrade(_) =>
    case DeleteUpgrade =>
    case ResumeCheck =>
    case ClearAnnotation =>
  }

  lemma UpgraderStepKeepsAccounts(w: World, s: UpgraderStep)
    requires Accounts(w) && UpgraderGuard(w, s)
    ensures Accounts(UpgraderApply(w, s))
  {
    hide AllUpgraded, AllNodesDone, NodesReleased, EarlierDone, Counters, AllAre;
    match s
    case CreateNode(_) =>
    case DeleteNode(_) =>
    case PatchMachine(_, _) =>
    case PatchKubeadmConfig(_) =>
    case PatchInfraMachine(_) =>
    case PatchMachineSet =>
    case PatchUpgrade(_, _, _, _) =>
  }

  lemma NodeStepKeepsAccounts(w: World, m: Name, s: NodeStep)
    requires Accounts(w) && NodeGuard(w, m, s)
    ensures Accounts(NodeApply(w, m, s))
  {
    match s
    case Begin =>
    case End =>
    case CreatePod(_, _) =>
    case DeletePod =>
    case PatchNode(_, _, _, _) =>
  }

  lemma EnvironmentStepKeepsAccounts(w: World, s: EnvironmentStep)
    requires Accounts(w) && EnvironmentGuard(w, s)
    ensures Accounts(EnvironmentApply(w, s))
  {
    match s
    case Progress(_, _, _) =>
    case LosePod(_) =>
    case SetAnnotation =>
    case Observe(_) =>
  }

  // ------------------------------------------------------------------ the owner

  lemma OwnerStepKeepsInv(w: World, s: OwnerStep)
    requires Inv(w) && OwnerGuard(w, s)
    ensures Inv(OwnerApply(w, s))
  {
    OwnerStepKeepsAccounts(w, s);
    hide Accounts, AllAre, AllDone;
    match s
    case PauseCheck =>
    case CreateUpgrade(_) =>
    case DeleteUpgrade =>
    case ResumeCheck =>
    case ClearAnnotation =>
  }

  // ------------------------------------------------------------------ harmless leftovers

  lemma CreateOrDeleteKeepsSafe(w: World, s: UpgraderStep, m: Name)
    requires Bookkeeping(w) && UpgraderGuard(w, s) && Sheltered(w, m) && SafeMachine(w, m, w.life.value)
    requires s.CreateNode? || s.DeleteNode?
    ensures SafeMachine(UpgraderApply(w, s), m, w.life.value)
  {
    hide AllDone;
    var w' := UpgraderApply(w, s);
    assert w' == w.(nodes := w'.nodes);
  }

  lemma ResourceKeepsSafe(w: World, s: UpgraderStep, m: Name)
    requires Bookkeeping(w) && UpgraderGuard(w, s) && Sheltered(w, m) && SafeMachine(w, m, w.life.value)
    requires s.PatchMachine? || s.PatchKubeadmConfig? || s.PatchInfraMachine?
    ensures SafeMachine(UpgraderApply(w, s), m, w.life.value)
  {
    hide AllDone;
    var w' := UpgraderApply(w, s);
    assert w' == w.(machines := w'.machines);
    assert Patched(w, m, w.life.value) ==> Patched(w', m, w.life.value);
  }

  lemma UpgraderStepKeepsSafe(w: World, s: UpgraderStep, m: Name)
    requires Bookkeeping(w) && UpgraderGuard(w, s) && Sheltered(w, m) && SafeMachine(w, m, w.life.value)
    ensures SafeMachine(UpgraderApply(w, s), m, w.life.value)
  {
    hide AllDone;
    match s
    case CreateNode(_) => CreateOrDeleteKeepsSafe(w, s, m);
    case DeleteNode(_) => CreateOrDeleteKeepsSafe(w, s, m);
    case PatchMachine(_, _) => ResourceKeepsSafe(w, s, m);
    case PatchKubeadmConfig(_) => ResourceKeepsSafe(w, s, m);
    case PatchInfraMachine(_) => ResourceKeepsSafe(w, s, m);
    case PatchMachineSet =>
    case PatchUpgrade(_, _, _, _) =>
  }

  lemma NodeStepKeepsSafe(w: World, m: Name, s: NodeStep, m': Name)
    requires NodeGuard(w, m, s) && Sheltered(w, m') && SafeMachine(w, m', w.life.value)
    ensures SafeMachine(NodeApply(w, m, s), m', w.life.value)
  {
    match s
    case CreatePod(version, kind) => FreshPodIsNotDone(version, kind);
    case DeletePod => DeletingKeepsDone(w.pods[m]);
    case Begin =>
    case End =>
    case PatchNode(_, _, _, _) =>
  }

  lemma EnvironmentStepKeepsSafe(w: World, s: EnvironmentStep, m: Name)
    requires EnvironmentGuard(w, s) && Sheltered(w, m) && SafeMachine(w, m, w.life.value)
    ensures SafeMachine(EnvironmentApply(w, s), m, w.life.value)
  {
    match s
    case Progress(_, _, _) =>
    case LosePod(_) =>
    case SetAnnotation =>
    case Observe(_) =>
  }

  // ------------------------------------------------------------------ clean starts

  lemma CreateNodeKeepsMachines(w: World, i: nat, m: Name)
    requires Bookkeeping(w) && UpgraderGuard(w, CreateNode(i)) && Governed(w, m) && MachineInv(w, m, w.life.value)
    ensures MachineInv(UpgraderApply(w, CreateNode(i)), m, w.life.value)
  {
  }

  lemma PatchUpgradeKeepsMachines(w: World, s: UpgraderStep, m: Name)
    requires Bookkeeping(w) && UpgraderGuard(w, s) && Governed(w, m) && MachineInv(w, m, w.life.value)
    requires s.PatchUpgrade?
    ensures MachineInv(UpgraderApply(w, s), m, w.life.value)
  {
  }

  lemma DeleteNodeKeepsMachines(w: World, m': Name, m: Name)
    requires Bookkeeping(w) && UpgraderGuard(w, DeleteNode(m')) && Governed(w, m) && MachineInv(w, m, w.life.value)
    ensures MachineInv(UpgraderApply(w, DeleteNode(m')), m, w.life.value)
  {
  }

  lemma UpgraderStepKeepsMachines(w: World, s: UpgraderStep, m: Name)
    requires Bookkeeping(w) && UpgraderGuard(w, s) && Governed(w, m) && MachineInv(w, m, w.life.value)
    ensures MachineInv(UpgraderApply(w, s), m, w.life.value)
  {
    match s
    case CreateNode(i) => CreateNodeKeepsMachines(w, i, m);
    case DeleteNode(m') => DeleteNodeKeepsMachines(w, m', m);
    case PatchMachine(_, _) =>
    case PatchKubeadmConfig(_) =>
    case PatchInfraMachine(_) =>
    case PatchMachineSet =>
    case PatchUpgrade(_, _, _, _) => PatchUpgradeKeepsMachines(w, s, m);
  }

  lemma UpgraderStepKeepsOrder(w: World, s: UpgraderStep)
    requires Inv(w) && UpgraderGuard(w, s) && w.clean && Live(UpgraderApply(w, s))
    ensures OneAtATime(UpgraderApply(w, s), w.life.value.machines)
  {
    match s
    case CreateNode(_) =>
    case DeleteNode(_) =>
    case PatchMachine(_, _) =>
    case PatchKubeadmConfig(_) =>
    case PatchInfraMachine(_) =>
    case PatchMachineSet =>
    case PatchUpgrade(_, _, _, _) =>
  }

  lemma UpgraderStepKeepsBookkeeping(w: World, s: UpgraderStep)
    requires Bookkeeping(w) && Pairing(w) && UpgraderGuard(w, s)
    ensures Bookkeeping(UpgraderApply(w, s)) && Pairing(UpgraderApply(w, s))
  {
    hide AllDone, Counters;
    match s
    case CreateNode(_) =>
    case DeleteNode(_) =>
    case PatchMachine(_, _) =>
    case PatchKubeadmConfig(_) =>
    case PatchInfraMachine(_) =>
    case PatchMachineSet =>
    case PatchUpgrade(_, _, _, _) =>
  }

  lemma UpgraderStepKeepsLife(w: World, s: UpgraderStep)
    requires UpgraderGuard(w, s)
    ensures var w' := UpgraderApply(w, s); w'.life == w.life && w'.safe == w.safe && w'.clean == w.clean
    ensures Live(UpgraderApply(w, s)) ==> Live(w)
  {
    match s
    case CreateNode(_) =>
    case DeleteNode(_) =>
    case PatchMachine(_, _) =>
    case PatchKubeadmConfig(_) =>
    case PatchInfraMachine(_) =>
    case PatchMachineSet =>
    case PatchUpgrade(_, _, _, _) =>
  }

  lemma UpgraderStepKeepsInv(w: World, s: UpgraderStep)
    requires Inv(w) && UpgraderGuard(w, s)
    ensures Inv(UpgraderApply(w, s))
  {
    UpgraderStepKeepsAccounts(w, s);
    UpgraderStepKeepsBookkeeping(w, s);
    UpgraderStepKeepsLife(w, s);
    hide Accounts, UpgraderGuard, UpgraderApply, SafeMachine, MachineInv, OneAtATime, Pairing;
    forall m | Sheltered(w, m)
      ensures SafeMachine(UpgraderApply(w, s), m, w.life.value)
    {
      UpgraderStepKeepsSafe(w, s, m);
    }
    if w.clean {
      forall m | m in w.life.value.machines
        ensures MachineInv(UpgraderApply(w, s), m, w.life.value)
      {
        UpgraderStepKeepsMachines(w, s, m);
      }
      if Live(UpgraderApply(w, s)) {
        UpgraderStepKeepsOrder(w, s);
      }
    }
  }

  lemma NodeStepKeepsMachines(w: World, m: Name, s: NodeStep, m': Name)
    requires NodeGuard(w, m, s) && Governed(w, m') && MachineInv(w, m', w.life.value)
    ensures MachineInv(NodeApply(w, m, s), m', w.life.value)
  {
    match s
    case CreatePod(version, kind) => FreshPodIsNotDone(version, kind);
    case DeletePod => DeletingKeepsDone(w.pods[m]);
    case Begin =>
    case End =>
    case PatchNode(_, _, _, _) =>
  }

  lemma NodeStepKeepsOrder(w: World, m: Name, s: NodeStep)
    requires Inv(w) && NodeGuard(w, m, s) && w.clean && Live(w)
    ensures OneAtATime(NodeApply(w, m, s), w.life.value.machines)
  {
    var w', ms := NodeApply(w, m, s), w.life.value.machines;
    forall i, j | 0 <= i < j < |ms| && ms[j] in w'.nodes
      ensures NodeDone(w', ms[i])
    {
      assert NodeDone(w, ms[i]) && MachineInv(w, ms[i], w.life.value);
    }
  }

  lemma NodeStepKeepsBookkeeping(w: World, m: Name, s: NodeStep)
    requires Bookkeeping(w) && NodeGuard(w, m, s)
    ensures Bookkeeping(NodeApply(w, m, s))
  {
    hide AllDone;
    match s
    case CreatePod(_, _) =>
    case DeletePod => DeletingKeepsDone(w.pods[m]);
    case Begin =>
    case End =>
    case PatchNode(_, _, _, _) =>
  }

  lemma NodeStepKeepsInv(w: World, m: Name, s: NodeStep)
    requires Inv(w) && NodeGuard(w, m, s)
    ensures Inv(NodeApply(w, m, s))
  {
    NodeStepKeepsAccounts(w, m, s);
    NodeStepKeepsBookkeeping(w, m, s);
    hide Accounts;
    forall m' | Sheltered(w, m')
      ensures SafeMachine(NodeApply(w, m, s), m', w.life.value)
    {
      NodeStepKeepsSafe(w, m, s, m');
    }
    if w.clean {
      forall m' | m' in w.life.value.machines
        ensures MachineInv(NodeApply(w, m, s), m', w.life.value)
      {
        NodeStepKeepsMachines(w, m, s, m');
      }
      if Live(w) {
        NodeStepKeepsOrder(w, m, s);
      }
    }
  }

  lemma EnvironmentStepKeepsMachines(w: World, s: EnvironmentStep, m: Name)
    requires EnvironmentGuard(w, s) && Governed(w, m) && MachineInv(w, m, w.life.value)
    ensures MachineInv(EnvironmentApply(w, s), m, w.life.value)
  {
    match s
    case Progress(_, _, _) =>
    case LosePod(_) =>
    case SetAnnotation =>
    case Observe(_) =>
  }

  /** Pods matter to the books only as far as completed NodeUpgrades have no unfinished ones. */
  lemma PodsKeepBookkeeping(w: World, w': World)
    requires Bookkeeping(w) && w' == w.(pods := w'.pods, succeeded := w'.succeeded)
    requires forall m :: m in w.nodes && w.nodes[m].completed && m in w'.pods ==> AllDone(w'.pods[m])
    ensures Bookkeeping(w')
  {
    hide AllDone;
    assert w.life.Some? && w.upgrade.None? ==> NodesReleased(w', w.life.value);
  }

  lemma ProgressKeepsBookkeeping(w: World, m: Name, initStatuses: seq<ContainerStatus>, statuses: seq<ContainerStatus>)
    requires Bookkeeping(w) && EnvironmentGuard(w, Progress(m, initStatuses, statuses))
    ensures Bookkeeping(EnvironmentApply(w, Progress(m, initStatuses, statuses)))
  {
    var pod := w.pods[m].(initStatuses := initStatuses, statuses := statuses);
    if AllDone(w.pods[m]) {
      ProgressKeepsDone(w.pods[m], pod);
    }
    hide AllDone, KeepsExitZero;
    assert forall m' :: m' in w.nodes ==> Orderly(w, m');
    PodsKeepBookkeeping(w, EnvironmentApply(w, Progress(m, initStatuses, statuses)));
  }

  lemma EnvironmentStepKeepsBookkeeping(w: World, s: EnvironmentStep)
    requires Bookkeeping(w) && EnvironmentGuard(w, s)
    ensures Bookkeeping(EnvironmentApply(w, s))
  {
    hide AllDone;
    match s
    case Progress(m, initStatuses, statuses) => ProgressKeepsBookkeeping(w, m, initStatuses, statuses);
    case LosePod(_) =>
      assert forall m' :: m' in w.nodes ==> Orderly(w, m');
      PodsKeepBookkeeping(w, EnvironmentApply(w, s));
    case SetAnnotation =>
    case Observe(_) =>
  }

  lemma EnvironmentStepKeepsInv(w: World, s: EnvironmentStep)
    requires Inv(w) && EnvironmentGuard(w, s)
    ensures Inv(EnvironmentApply(w, s))
  {
    EnvironmentStepKeepsAccounts(w, s);
    EnvironmentStepKeepsBookkeeping(w, s);
    hide Accounts;
    forall m | Sheltered(w, m)
      ensures SafeMachine(EnvironmentApply(w, s), m, w.life.value)
    {
      EnvironmentStepKeepsSafe(w, s, m);
    }
    if w.clean {
      forall m | m in w.life.value.machines
        ensures MachineInv(EnvironmentApply(w, s), m, w.life.value)
      {
        EnvironmentStepKeepsMachines(w, s, m);
      }
    }
  }

  lemma StepKeepsInv(w: World, s: Step)
    requires Inv(w) && Guard(w, s)
    ensures Inv(Apply(w, s))
  {
    match s
    case OwnerDoes(o) => OwnerStepKeepsInv(w, o);
    case UpgraderDoes(u) => UpgraderStepKeepsInv(w, u);
    case NodeDoes(m, n) => NodeStepKeepsInv(w, m, n);
    case EnvironmentDoes(e) => EnvironmentStepKeepsInv(w, e);
  }

  lemma {:induction false} RunKeepsInv(start: World, steps: seq<Step>)
    requires Inv(start) && IsRun(start, steps)
    ensures Inv(After(start, steps))
  {
    if steps != [] {
      var before := steps[..|steps| - 1];
      RunKeepsInv(start, before);
      StepKeepsInv(After(start, before), steps[|steps| - 1]);
    }
  }
}
