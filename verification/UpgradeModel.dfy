/**
The API objects that the in-place upgrade controllers cooperate through, and the
atomic API calls that change them.

A `World` is the API server's content together with the bookkeeping that the
theorems are about. A `Step` is one API call that took effect, or one move of the
environment. `Guard` says in which worlds the protocol makes a step, `Apply` what
the step does. The reconcilers themselves, with their local copies, their failing
calls and everybody else running between two calls, are in the controller modules.
There each call is proved to meet its guard at the moment it takes effect.
 */
module UpgradeModel {
  import opened Wrappers

  datatype Name = Name(text: string)
  datatype Version = Version(text: string)
  datatype Data = Data(text: string)

  datatype Role = ControlPlane | Workers

  // ------------------------------------------------------------------ upgrader pods

  datatype Component = Copier | Containerd | CniPlugins | Kubeadm | Kubelet | PostUpgrade

  const COMPONENTS: seq<Component> := [Copier, Containerd, CniPlugins, Kubeadm, Kubelet, PostUpgrade]

  /** The six container names that the controller looks for, and any other. */
  datatype ContainerName = Of(component: Component) | Other(text: string)

  datatype ContainerState = Waiting | Running | Terminated(exitCode: int) | Unknown

  datatype ContainerStatus = ContainerStatus(name: ContainerName, state: ContainerState)

  datatype PodKind = FirstControlPlanePod | SecondaryControlPlanePod | WorkerPod

  datatype Pod = Pod(version: Version, kind: PodKind, initStatuses: seq<ContainerStatus>,
                     statuses: seq<ContainerStatus>, deleting: bool)

  /** The state of the first status with the given name. */
  function Find(statuses: seq<ContainerStatus>, name: ContainerName): Option<ContainerState> {
    if statuses == [] then None
    else if statuses[0].name == name then Some(statuses[0].state)
    else Find(statuses[1..], name)
  }

  /** The state of a component's container: init containers first, then the others. */
  function StateOf(pod: Pod, c: Component): Option<ContainerState> {
    var init := Find(pod.initStatuses, Of(c));
    if init.Some? then init else Find(pod.statuses, Of(c))
  }

  predicate Succeeded(pod: Pod, c: Component) {
    StateOf(pod, c) == Some(Terminated(0))
  }

  /** All six containers have run to exit code 0. */
  predicate AllDone(pod: Pod) {
    forall c: Component :: Succeeded(pod, c)
  }

  // ------------------------------------------------------------------ API objects

  datatype Condition = UpgraderPodCreated | Done(component: Component)

  /** `conditions` are the conditions whose status is true, `ready` is the summary condition. */
  datatype NodeUpgrade = NodeUpgrade(version: Version, first: bool, finalizer: bool, deleting: bool,
                                     completed: bool, conditions: set<Condition>, ready: bool)

  datatype UpgradeSpec = UpgradeSpec(version: Version, machines: seq<Name>, data: Data)

  /** A ControlPlaneUpgrade or a MachineDeploymentUpgrade. */
  datatype Upgrade = Upgrade(spec: UpgradeSpec, finalizer: bool, deleting: bool,
                             ready: bool, upgraded: nat, required: nat)

  /** A Machine with its KubeadmConfig and its infrastructure machine. */
  datatype Machine = Machine(version: Version, clusterConfig: Data, kubeadmConfig: Data, infraTemplate: Data)

  datatype World = World(
    role: Role,
    annotation: bool,                 // "in-place-upgrade-needed" on the owner
    observed: seq<Option<Version>>,   // the status version of a control plane, or the versions of the listed workers
    paused: bool,                     // the machine health check is paused
    upgrade: Option<Upgrade>,
    nodes: map<Name, NodeUpgrade>,    // by machine name: the object's name is "<machine>-node-upgrader"
    pods: map<Name, Pod>,             // by the machine whose node the pod runs on
    machines: map<Name, Machine>,
    machineSet: Data,
    // bookkeeping
    busy: set<Name>,                  // NodeUpgrades being reconciled right now
    life: Option<UpgradeSpec>,        // the most recently created upgrade object
    safe: bool,                       // that object found only harmless leftovers when it was created
    clean: bool,                      // that object found nothing left over at all
    matched: bool,                    // all observed versions were the target at some moment of this life
    ended: bool,                      // the owner has deleted that object
    succeeded: set<(Name, Version)>)  // upgrader pods that ran to the end in this life

  // ------------------------------------------------------------------ derived facts

  predicate Distinct(ms: seq<Name>) {
    forall i, j :: 0 <= i < j < |ms| ==> ms[i] != ms[j]
  }

  predicate AllAre(versions: seq<Option<Version>>, target: Version) {
    forall i :: 0 <= i < |versions| ==> versions[i] == Some(target)
  }

  predicate Live(w: World) {
    w.upgrade.Some? && !w.upgrade.value.deleting
  }

  /** The machine belongs to the current life, and that life found only harmless leftovers. */
  predicate Sheltered(w: World, m: Name) {
    w.safe && w.life.Some? && m in w.life.value.machines
  }

  /** The machine belongs to the current life and that life had a clean start. */
  predicate Governed(w: World, m: Name) {
    w.clean && w.life.Some? && m in w.life.value.machines
  }

  /** A NodeUpgrade that is deleting or completed has its finalizer, and a completed one has no unfinished pod. */
  predicate Orderly(w: World, m: Name)
    requires m in w.nodes
  {
    && (w.nodes[m].deleting || w.nodes[m].completed ==> w.nodes[m].finalizer)
    && (w.nodes[m].completed && m in w.pods ==> AllDone(w.pods[m]))
  }

  predicate NodeDone(w: World, m: Name) {
    m in w.nodes && w.nodes[m].completed
  }

  /** The machine, its KubeadmConfig and its infrastructure machine carry the target. */
  predicate Patched(w: World, m: Name, spec: UpgradeSpec) {
    w.role.ControlPlane? ==>
      m in w.machines && w.machines[m] == Machine(spec.version, spec.data, spec.data, spec.data)
  }

  /** The machine's upgrader pod ran to the end and the machine was patched. */
  predicate Upgraded(w: World, m: Name, spec: UpgradeSpec) {
    (m, spec.version) in w.succeeded && Patched(w, m, spec)
  }

  predicate AllUpgraded(w: World, spec: UpgradeSpec) {
    forall m :: m in spec.machines ==> Upgraded(w, m, spec)
  }

  /** A pod that is left over from an earlier upgrade has the target version and is not done. */
  predicate HarmlessPod(w: World, m: Name, version: Version) {
    m in w.pods ==> w.pods[m].version == version && !AllDone(w.pods[m])
  }

  /**
   * A NodeUpgrade that is left over is not completed, and has the target version unless
   * it is about to vanish: it is deleting, and if it can still complete then its version
   * is not used.
   */
  predicate HarmlessNode(w: World, m: Name, version: Version) {
    m in w.nodes ==>
      && !w.nodes[m].completed
      && (w.nodes[m].version == version || (w.nodes[m].deleting && (w.role.Workers? || m !in w.pods)))
  }

  /** What is left of earlier upgrades of the machine cannot be taken for the upgrade to this version. */
  predicate Harmless(w: World, m: Name, version: Version) {
    m !in w.busy && HarmlessPod(w, m, version) && HarmlessNode(w, m, version)
  }

  predicate AllHarmless(w: World, spec: UpgradeSpec) {
    forall m :: m in spec.machines ==> Harmless(w, m, spec.version)
  }

  /** Nothing is left of an earlier upgrade of these machines. */
  predicate CleanStart(w: World, ms: seq<Name>) {
    forall m :: m in ms ==> m !in w.nodes && m !in w.pods && m !in w.busy
  }

  /** Workers get worker pods; the first machine of a control plane gets another pod than the others. */
  predicate KindFits(role: Role, spec: UpgradeSpec, m: Name, kind: PodKind)
    requires m in spec.machines
  {
    match role
    case Workers => kind == WorkerPod
    case ControlPlane => kind == if m == spec.machines[0] then FirstControlPlanePod else SecondaryControlPlanePod
  }

  predicate First(role: Role, i: nat) {
    role.ControlPlane? && i == 0
  }

  // ------------------------------------------------------------------ steps

  /** API calls of the KubeadmControlPlane or MachineDeployment reconciler. */
  datatype OwnerStep = PauseCheck | CreateUpgrade(spec: UpgradeSpec) | DeleteUpgrade | ResumeCheck | ClearAnnotation

  /** API calls of the ControlPlaneUpgrade or MachineDeploymentUpgrade reconciler. */
  datatype UpgraderStep =
    | CreateNode(index: nat)
    | DeleteNode(m: Name)
    | PatchMachine(m: Name, version: Version)
    | PatchKubeadmConfig(m: Name)
    | PatchInfraMachine(m: Name)
    | PatchMachineSet
    | PatchUpgrade(finalizer: bool, ready: bool, upgraded: nat, required: nat)

  /** API calls of the NodeUpgrade reconciler, between the begin and the end of one reconcile. */
  datatype NodeStep =
    | Begin
    | End
    | CreatePod(version: Version, kind: PodKind)
    | DeletePod
    | PatchNode(finalizer: bool, completed: bool, conditions: set<Condition>, ready: bool)

  /** What everybody else does: kubelet, eviction, the Cluster API controllers. */
  datatype EnvironmentStep =
    | Progress(m: Name, initStatuses: seq<ContainerStatus>, statuses: seq<ContainerStatus>)
    | LosePod(m: Name)
    | SetAnnotation
    | Observe(seen: seq<Option<Version>>)

  datatype Step =
    | OwnerDoes(o: OwnerStep)
    | UpgraderDoes(u: UpgraderStep)
    | NodeDoes(machine: Name, n: NodeStep)
    | EnvironmentDoes(e: EnvironmentStep)

  datatype Actor = Owner | Upgrader | Node(machine: Name) | Environment

  function ActorOf(s: Step): Actor {
    match s
    case OwnerDoes(_) => Owner
    case UpgraderDoes(_) => Upgrader
    case NodeDoes(m, _) => Node(m)
    case EnvironmentDoes(_) => Environment
  }

  predicate OwnerGuard(w: World, s: OwnerStep) {
    match s
    case PauseCheck => w.annotation && w.upgrade.None?
    case CreateUpgrade(spec) => w.annotation && w.paused && w.upgrade.None? && Distinct(spec.machines)
    case DeleteUpgrade =>
      && w.annotation
      && w.upgrade.Some?
      && w.upgrade.value.finalizer
      && w.matched
      && (w.safe ==> AllUpgraded(w, w.upgrade.value.spec))
      && (w.clean ==> w.upgrade.value.deleting || w.upgrade.value.ready)
    case ResumeCheck => w.ended && !Live(w)
    case ClearAnnotation => w.ended && !Live(w) && !w.paused
  }

  function OwnerApply(w: World, s: OwnerStep): World
    requires OwnerGuard(w, s)
  {
    match s
    case PauseCheck => w.(paused := true)
    case CreateUpgrade(spec) =>
      w.(upgrade := Some(Upgrade(spec, false, false, false, 0, 0)), life := Some(spec),
         safe := AllHarmless(w, spec), clean := CleanStart(w, spec.machines),
         matched := AllAre(w.observed, spec.version), ended := false, succeeded := {})
    case DeleteUpgrade => w.(upgrade := Some(w.upgrade.value.(deleting := true)), ended := true)
    case ResumeCheck => w.(paused := false)
    case ClearAnnotation => w.(annotation := false)
  }

  /** The counters of a status add up to the number of machines; before the first one both are 0. */
  predicate Counters(machines: nat, ready: bool, upgraded: nat, required: nat) {
    || (upgraded + required == machines && (ready <==> required == 0))
    || (upgraded == 0 && required == 0 && !ready)
  }

  predicate AllNodesDone(w: World, ms: seq<Name>) {
    forall m :: m in ms ==> NodeDone(w, m)
  }

  /** All NodeUpgrades of the upgrade are gone or going. */
  predicate NodesReleased(w: World, spec: UpgradeSpec) {
    forall m :: m in spec.machines ==> m !in w.nodes || w.nodes[m].deleting
  }

  predicate EarlierDone(w: World, ms: seq<Name>, i: nat)
    requires i <= |ms|
  {
    forall j :: 0 <= j < i ==> NodeDone(w, ms[j])
  }

  predicate UpgraderGuard(w: World, s: UpgraderStep) {
    && w.upgrade.Some?
    && var u := w.upgrade.value;
    match s
    case CreateNode(i) =>
      && i < |u.spec.machines|
      && u.spec.machines[i] !in w.nodes
      && (w.clean ==> !u.deleting && !u.ready && EarlierDone(w, u.spec.machines, i))
    case DeleteNode(m) => u.deleting && m in u.spec.machines && m in w.nodes
    case PatchMachine(m, version) =>
      m in w.machines && (w.safe ==> version == u.spec.version && (m, version) in w.succeeded)
    case PatchKubeadmConfig(m) => m in w.machines && (w.safe ==> (m, u.spec.version) in w.succeeded)
    case PatchInfraMachine(m) => m in w.machines && (w.safe ==> (m, u.spec.version) in w.succeeded)
    case PatchMachineSet =>
      w.safe ==> forall m :: m in u.spec.machines ==> (m, u.spec.version) in w.succeeded
    case PatchUpgrade(finalizer, ready, upgraded, required) =>
      && (finalizer || u.deleting)
      && Counters(|u.spec.machines|, ready, upgraded, required)
      && (w.safe && ready ==> AllUpgraded(w, u.spec))
      && (w.clean && !u.deleting ==> (u.ready ==> ready) && (ready ==> AllNodesDone(w, u.spec.machines)))
      && (!finalizer ==> NodesReleased(w, u.spec))
  }

  function UpgraderApply(w: World, s: UpgraderStep): World
    requires UpgraderGuard(w, s)
  {
    var u := w.upgrade.value;
    match s
    case CreateNode(i) =>
      w.(nodes := w.nodes[u.spec.machines[i] :=
           NodeUpgrade(u.spec.version, First(w.role, i), false, false, false, {}, false)])
    case DeleteNode(m) =>
      var n := w.nodes[m];
      w.(nodes := if n.finalizer then w.nodes[m := n.(deleting := true)] else w.nodes - {m})
    case PatchMachine(m, version) =>
      w.(machines := w.machines[m := w.machines[m].(version := version, clusterConfig := u.spec.data)])
    case PatchKubeadmConfig(m) => w.(machines := w.machines[m := w.machines[m].(kubeadmConfig := u.spec.data)])
    case PatchInfraMachine(m) => w.(machines := w.machines[m := w.machines[m].(infraTemplate := u.spec.data)])
    case PatchMachineSet => w.(machineSet := u.spec.data)
    case PatchUpgrade(finalizer, ready, upgraded, required) =>
      w.(upgrade := if u.deleting && !finalizer then None
                    else Some(u.(finalizer := finalizer, ready := ready, upgraded := upgraded, required := required)))
  }

  predicate NodeGuard(w: World, m: Name, s: NodeStep) {
    match s
    case Begin => m !in w.busy
    case End => m in w.busy
    case CreatePod(version, kind) =>
      && m in w.busy
      && m !in w.pods
      && (Sheltered(w, m) ==> version == w.life.value.version && (m in w.nodes ==> w.nodes[m].version == version))
      && (m in w.nodes ==> !w.nodes[m].completed)
      && (Governed(w, m) ==> m in w.nodes && !w.nodes[m].deleting && KindFits(w.role, w.life.value, m, kind))
    case DeletePod =>
      && m in w.busy
      && m in w.pods
      && (Governed(w, m) ==> m in w.nodes && w.nodes[m].deleting)
    case PatchNode(finalizer, completed, _, _) =>
      && m in w.busy
      && m in w.nodes
      && (finalizer || w.nodes[m].deleting)
      && (w.nodes[m].completed ==> completed)
      && (completed && m in w.pods ==> AllDone(w.pods[m]))
      && (Sheltered(w, m) && completed ==>
            && (m, w.life.value.version) in w.succeeded
            && (w.nodes[m].version == w.life.value.version || w.role.Workers?))
      && (Governed(w, m) && !finalizer ==> m !in w.pods || w.pods[m].deleting)
  }

  function NodeApply(w: World, m: Name, s: NodeStep): World
    requires NodeGuard(w, m, s)
  {
    match s
    case Begin => w.(busy := w.busy + {m})
    case End => w.(busy := w.busy - {m})
    case CreatePod(version, kind) => w.(pods := w.pods[m := Pod(version, kind, [], [], false)])
    case DeletePod => w.(pods := w.pods[m := w.pods[m].(deleting := true)])
    case PatchNode(finalizer, completed, conditions, ready) =>
      var n := w.nodes[m];
      w.(nodes := if n.deleting && !finalizer then w.nodes - {m}
                  else w.nodes[m := n.(finalizer := finalizer, completed := completed,
                                       conditions := conditions, ready := ready)])
  }

  /** A container that exited with 0 stays that way as long as its pod exists. */
  predicate KeepsExitZero(before: Pod, after: Pod) {
    forall c: Component :: Succeeded(before, c) ==> Succeeded(after, c)
  }

  predicate EnvironmentGuard(w: World, s: EnvironmentStep) {
    match s
    case Progress(m, initStatuses, statuses) =>
      && m in w.pods
      && KeepsExitZero(w.pods[m], w.pods[m].(initStatuses := initStatuses, statuses := statuses))
    case LosePod(m) => m in w.pods
    case SetAnnotation => true
    case Observe(seen) => w.role.ControlPlane? ==> |seen| == 1
  }

  function EnvironmentApply(w: World, s: EnvironmentStep): World
    requires EnvironmentGuard(w, s)
  {
    match s
    case Progress(m, initStatuses, statuses) =>
      var pod := w.pods[m].(initStatuses := initStatuses, statuses := statuses);
      w.(pods := w.pods[m := pod],
         succeeded := if AllDone(pod) && !AllDone(w.pods[m]) then w.succeeded + {(m, pod.version)} else w.succeeded)
    case LosePod(m) => w.(pods := w.pods - {m})
    case SetAnnotation => w.(annotation := true)
    case Observe(seen) =>
      w.(observed := seen, matched := w.matched || (w.life.Some? && AllAre(seen, w.life.value.version)))
  }

  predicate Guard(w: World, s: Step) {
    match s
    case OwnerDoes(o) => OwnerGuard(w, o)
    case UpgraderDoes(u) => UpgraderGuard(w, u)
    case NodeDoes(m, n) => NodeGuard(w, m, n)
    case EnvironmentDoes(e) => EnvironmentGuard(w, e)
  }

  function Apply(w: World, s: Step): World
    requires Guard(w, s)
  {
    match s
    case OwnerDoes(o) => OwnerApply(w, o)
    case UpgraderDoes(u) => UpgraderApply(w, u)
    case NodeDoes(m, n) => NodeApply(w, m, n)
    case EnvironmentDoes(e) => EnvironmentApply(w, e)
  }

  // ------------------------------------------------------------------ runs

  /** No upgrade object yet. NodeUpgrades and pods of earlier upgrades may be left over. */
  predicate Initial(w: World) {
    && w.upgrade.None?
    && w.life.None?
    && (w.role.ControlPlane? ==> |w.observed| == 1)
    && !w.safe
    && !w.clean
    && !w.ended
    && (!w.annotation ==> !w.paused)
    && (forall m :: m in w.nodes ==> Orderly(w, m))
  }

  /** Each step of the run meets its guard in the world the earlier steps lead to. */
  predicate IsRun(start: World, steps: seq<Step>)
    decreases |steps|, 0
  {
    steps == [] ||
    (var before := steps[..|steps| - 1];
     IsRun(start, before) && Guard(After(start, before), steps[|steps| - 1]))
  }

  function After(start: World, steps: seq<Step>): World
    requires IsRun(start, steps)
    decreases |steps|, 1
  {
    if steps == [] then start
    else Apply(After(start, steps[..|steps| - 1]), steps[|steps| - 1])
  }
}
