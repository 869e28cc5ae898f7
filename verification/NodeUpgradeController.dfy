/**
The NodeUpgrade reconciler: one upgrader pod per node, and a status derived from
the pod's containers.
 */
module NodeUpgradeController {
  import opened Wrappers
  import opened UpgradeModel
  import opened UpgradeInvariant
  import opened UpgradeInterference
  import opened ApiServers

  // ------------------------------------------------------------------ conditions

  /** The conditions that the Ready summary is made of. */
  predicate AllConditionsTrue(n: NodeUpgrade) {
    UpgraderPodCreated in n.conditions && forall c: Component :: Done(c) in n.conditions
  }

  function PodKindFor(role: Role, first: bool): PodKind {
    if role.Workers? then WorkerPod else if first then FirstControlPlanePod else SecondaryControlPlanePod
  }

  /** The conditions that are marked false when the pod cannot be read. */
  const MARKED: set<Condition> :=
    {UpgraderPodCreated, Done(Copier), Done(Containerd), Done(CniPlugins), Done(Kubeadm), Done(Kubelet)}

  /** No pod: the marked conditions become false; completed and the summary stay. */
  function WithoutPod(n: NodeUpgrade): NodeUpgrade {
    n.(conditions := n.conditions - MARKED)
  }

  method MarkAllConditionsFalse(n: NodeUpgrade) returns (n': NodeUpgrade)
    ensures n' == WithoutPod(n)
  {
    n' := n.(conditions := n.conditions - {UpgraderPodCreated});
    n' := n'.(conditions := n'.conditions - {Done(Copier)});
    n' := n'.(conditions := n'.conditions - {Done(Containerd)});
    n' := n'.(conditions := n'.conditions - {Done(CniPlugins)});
    n' := n'.(conditions := n'.conditions - {Done(Kubeadm)});
    n' := n'.(conditions := n'.conditions - {Done(Kubelet)});
  }

  /** Without a pod all conditions end up false exactly if the clean-up after the upgrade had not been marked done. */
  lemma AllFalseExactlyIfNotCleanedUp(n: NodeUpgrade)
    ensures WithoutPod(n).conditions == {} <==> Done(PostUpgrade) !in n.conditions
    ensures Done(PostUpgrade) in n.conditions ==> WithoutPod(n).conditions == {Done(PostUpgrade)}
  {
    forall k: Condition | k !in MARKED
      ensures k == Done(PostUpgrade)
    {
      match k
      case UpgraderPodCreated =>
      case Done(c) =>
        match c
        case Copier =>
        case Containerd =>
        case CniPlugins =>
        case Kubeadm =>
        case Kubelet =>
        case PostUpgrade =>
    }
    assert WithoutPod(n).conditions <= {Done(PostUpgrade)};
    assert Done(PostUpgrade) in n.conditions <==> Done(PostUpgrade) in WithoutPod(n).conditions;
  }

  /** The conditions of a NodeUpgrade whose pod exists. */
  function PodConditions(pod: Pod): set<Condition> {
    {UpgraderPodCreated} + set c: Component | Succeeded(pod, c) :: Done(c)
  }

  /** A pod: the conditions follow its containers, and so do completed and the summary. */
  function WithPod(n: NodeUpgrade, pod: Pod): NodeUpgrade {
    var n' := n.(conditions := PodConditions(pod), completed := AllDone(pod));
    n'.(ready := AllConditionsTrue(n'))
  }

  function StatusFor(n: NodeUpgrade, pods: map<Name, Pod>, m: Name): NodeUpgrade {
    if m in pods then WithPod(n, pods[m]) else WithoutPod(n)
  }

  /** After a status update that found the pod, completed means that all summarised conditions are true. */
  lemma CompletedIsTheSummary(n: NodeUpgrade, pod: Pod)
    ensures WithPod(n, pod).completed <==> AllConditionsTrue(WithPod(n, pod))
    ensures WithPod(n, pod).ready <==> WithPod(n, pod).completed
  {
    if AllConditionsTrue(WithPod(n, pod)) {
      forall c: Component
        ensures Succeeded(pod, c)
      {
        assert Done(c) in PodConditions(pod);
      }
    }
  }

  function IndexOf(c: Component): (i: nat)
    ensures i < |COMPONENTS| && COMPONENTS[i] == c
  {
    match c
    case Copier => 0
    case Containerd => 1
    case CniPlugins => 2
    case Kubeadm => 3
    case Kubelet => 4
    case PostUpgrade => 5
  }

  /** The first status with the given name. */
  method FindStatus(statuses: seq<ContainerStatus>, name: ContainerName) returns (r: Option<ContainerState>)
    ensures r == Find(statuses, name)
  {
    for i := 0 to |statuses|
      invariant Find(statuses, name) == Find(statuses[i..], name)
    {
      if statuses[i].name == name {
        return Some(statuses[i].state);
      }
    }
    r := None;
  }

  method GetContainerStatus(pod: Pod, c: Component) returns (r: Option<ContainerState>)
    ensures r == StateOf(pod, c)
  {
    r := FindStatus(pod.initStatuses, Of(c));
    if r.None? {
      r := FindStatus(pod.statuses, Of(c));
    }
  }

  lemma SameConditions(conditions: set<Condition>, pod: Pod)
    requires UpgraderPodCreated in conditions
    requires forall c: Component :: Done(c) in conditions <==> Succeeded(pod, c)
    ensures conditions == PodConditions(pod)
  {
    forall k: Condition
      ensures k in conditions <==> k in PodConditions(pod)
    {
      match k
      case UpgraderPodCreated =>
      case Done(c) =>
    }
  }

  /** The state of a container is that of its first status, and one of an init container counts first. */
  lemma {:induction false} FindIsFirst(statuses: seq<ContainerStatus>, name: ContainerName, i: nat)
    requires i < |statuses| && statuses[i].name == name && forall j :: 0 <= j < i ==> statuses[j].name != name
    ensures Find(statuses, name) == Some(statuses[i].state)
    decreases i
  {
    if i > 0 {
      FindIsFirst(statuses[1..], name, i - 1);
    }
  }

  lemma {:induction false} FindNothing(statuses: seq<ContainerStatus>, name: ContainerName)
    requires forall j :: 0 <= j < |statuses| ==> statuses[j].name != name
    ensures Find(statuses, name) == None
  {
    if statuses != [] {
      FindNothing(statuses[1..], name);
    }
  }

  lemma StateOfInitContainer(pod: Pod, c: Component, i: nat)
    requires i < |pod.initStatuses| && pod.initStatuses[i].name == Of(c)
    requires forall j :: 0 <= j < i ==> pod.initStatuses[j].name != Of(c)
    ensures StateOf(pod, c) == Some(pod.initStatuses[i].state)
  {
    FindIsFirst(pod.initStatuses, Of(c), i);
  }

  lemma StateOfOtherContainer(pod: Pod, c: Component, i: nat)
    requires forall j :: 0 <= j < |pod.initStatuses| ==> pod.initStatuses[j].name != Of(c)
    requires i < |pod.statuses| && pod.statuses[i].name == Of(c)
    requires forall j :: 0 <= j < i ==> pod.statuses[j].name != Of(c)
    ensures StateOf(pod, c) == Some(pod.statuses[i].state)
  {
    FindNothing(pod.initStatuses, Of(c));
    FindIsFirst(pod.statuses, Of(c), i);
  }

  /** A pod is done exactly if each of its six containers has terminated with exit code 0. */
  lemma DoneMeansSixTimesZero(pod: Pod)
    ensures AllDone(pod) <==>
            && StateOf(pod, Copier) == Some(Terminated(0)) && StateOf(pod, Containerd) == Some(Terminated(0))
            && StateOf(pod, CniPlugins) == Some(Terminated(0)) && StateOf(pod, Kubeadm) == Some(Terminated(0))
            && StateOf(pod, Kubelet) == Some(Terminated(0)) && StateOf(pod, PostUpgrade) == Some(Terminated(0))
  {
    hide StateOf;
    if AllDone(pod) {
      assert Succeeded(pod, Copier) && Succeeded(pod, Containerd) && Succeeded(pod, CniPlugins);
      assert Succeeded(pod, Kubeadm) && Succeeded(pod, Kubelet) && Succeeded(pod, PostUpgrade);
    }
    if StateOf(pod, Copier) == Some(Terminated(0)) && StateOf(pod, Containerd) == Some(Terminated(0))
       && StateOf(pod, CniPlugins) == Some(Terminated(0)) && StateOf(pod, Kubeadm) == Some(Terminated(0))
       && StateOf(pod, Kubelet) == Some(Terminated(0)) && StateOf(pod, PostUpgrade) == Some(Terminated(0)) {
      forall c: Component
        ensures Succeeded(pod, c)
      {
        match c
        case Copier =>
        case Containerd =>
        case CniPlugins =>
        case Kubeadm =>
        case Kubelet =>
        case PostUpgrade =>
      }
    }
  }

  /** The loop over the components; the pod's own condition has been set before. */
  method UpdateComponentsConditions(pod: Pod, n: NodeUpgrade) returns (n': NodeUpgrade)
    requires UpgraderPodCreated in n.conditions
    ensures n' == n.(conditions := PodConditions(pod), completed := AllDone(pod))
    ensures forall c: Component :: Done(c) in n'.conditions <==> StateOf(pod, c) == Some(Terminated(0))
    ensures n'.completed <==> forall c: Component :: StateOf(pod, c) == Some(Terminated(0))
  {
    n' := n;
    var completed := true;
    for i := 0 to |COMPONENTS|
      invariant n' == n.(conditions := n'.conditions) && UpgraderPodCreated in n'.conditions
      invariant forall c: Component :: IndexOf(c) < i ==> (Done(c) in n'.conditions <==> Succeeded(pod, c))
      invariant completed <==> forall c: Component :: IndexOf(c) < i ==> Succeeded(pod, c)
    {
      var c := COMPONENTS[i];
      var state := GetContainerStatus(pod, c);
      if state == Some(Terminated(0)) {
        n' := n'.(conditions := n'.conditions + {Done(c)});
      } else {
        // no status yet, waiting, running, unknown, or a non-zero exit code
        n' := n'.(conditions := n'.conditions - {Done(c)});
        completed := false;
      }
      assert forall c': Component :: IndexOf(c') < i + 1 <==> IndexOf(c') < i || c' == c;
    }
    n' := n'.(completed := completed);
    SameConditions(n'.conditions, pod);
  }

  // ------------------------------------------------------------------ without failures

  /**
   * The pods after one reconcile. A pod is created unless the upgrade is completed or
   * a pod exists or is believed to exist. Deletion deletes it.
   */
  function PodsAfter(role: Role, nodes: map<Name, NodeUpgrade>, pods: map<Name, Pod>, m: Name): map<Name, Pod>
    requires m in nodes
  {
    var n := nodes[m];
    if n.deleting then if m in pods then pods[m := pods[m].(deleting := true)] else pods
    else if n.completed || UpgraderPodCreated in n.conditions || m in pods then pods
    else pods[m := Pod(n.version, PodKindFor(role, n.first), [], [], false)]
  }

  /** The NodeUpgrades after one reconcile that left these pods. */
  function NodesAfter(nodes: map<Name, NodeUpgrade>, pods: map<Name, Pod>, m: Name): map<Name, NodeUpgrade>
    requires m in nodes
  {
    if nodes[m].deleting then nodes - {m}
    else
      var n := nodes[m].(finalizer := true);
      nodes[m := StatusFor(n, pods, m)]
  }

  /** One reconcile in which nothing fails and nobody interferes. */
  function NodeRound(w: World, m: Name): World {
    if m !in w.nodes then w
    else
      var pods := PodsAfter(w.role, w.nodes, w.pods, m);
      w.(pods := pods, nodes := NodesAfter(w.nodes, pods, m))
  }

  /** When the pod of an upgraded node is lost, one condition of it stays true. */
  lemma LostPodLeavesCleanup(w: World, m: Name)
    requires m in w.nodes && !w.nodes[m].deleting && m in w.pods && AllDone(w.pods[m])
    ensures var w1 := NodeRound(w, m);
            var w2 := NodeRound(w1.(pods := w1.pods - {m}), m);
            m in w2.nodes && w2.nodes[m].completed && w2.nodes[m].conditions == {Done(PostUpgrade)}
  {
    var n := WithPod(w.nodes[m].(finalizer := true), w.pods[m]);
    assert Done(PostUpgrade) in n.conditions;
    AllFalseExactlyIfNotCleanedUp(n.(finalizer := true));
    hide PodConditions, AllDone, AllConditionsTrue;
    var w1 := NodeRound(w, m);
    assert w1.nodes[m] == n;
  }

  lemma NodeRoundKeepsBusy(w: World, m: Name, busy: set<Name>)
    ensures NodeRound(w.(busy := busy), m) == NodeRound(w, m).(busy := busy)
    ensures NodeRound(w, m).busy == w.busy
    ensures m !in w.nodes ==> NodeRound(w, m) == w
  {
    hide PodsAfter, NodesAfter;
    if m in w.nodes {
      var pods := PodsAfter(w.role, w.nodes, w.pods, m);
      var nodes := NodesAfter(w.nodes, pods, m);
      assert NodeRound(w, m) == w.(pods := pods, nodes := nodes);
      assert NodeRound(w.(busy := busy), m) == w.(busy := busy, pods := pods, nodes := nodes);
    }
  }

  /** A NodeUpgrade that is being deleted is gone after one reconcile, and its pod is deleted; nothing else changes. */
  lemma DeletingNodeGoes(w: World, m: Name)
    requires m in w.nodes && w.nodes[m].deleting
    ensures var w' := NodeRound(w, m);
            && m !in w'.nodes && w'.nodes == w.nodes - {m}
            && (m in w'.pods <==> m in w.pods)
            && (m in w.pods ==> w'.pods[m].deleting && w'.pods == w.pods[m := w'.pods[m]])
            && w'.machines == w.machines && w'.upgrade == w.upgrade
  {
  }

  /**
   * A reconcile of a NodeUpgrade that is not deleting creates a pod exactly if it is not
   * completed and no pod exists or is believed to exist. Nothing else changes but its own
   * status, and the finalizer is there afterwards.
   */
  lemma LiveNodeCreatesPod(w: World, m: Name)
    requires m in w.nodes && !w.nodes[m].deleting
    ensures var n, w' := w.nodes[m], NodeRound(w, m);
            && (n.completed || UpgraderPodCreated in n.conditions || m in w.pods ==> w'.pods == w.pods)
            && (!n.completed && UpgraderPodCreated !in n.conditions && m !in w.pods ==>
                  && m in w'.pods && w'.pods == w.pods[m := w'.pods[m]]
                  && w'.pods[m].version == n.version && !w'.pods[m].deleting
                  && w'.pods[m].initStatuses == [] && w'.pods[m].statuses == [])
            && m in w'.nodes
            && var n' := w'.nodes[m];
            && n' == n.(finalizer := true, conditions := n'.conditions, completed := n'.completed, ready := n'.ready)
            && w' == w.(pods := w'.pods, nodes := w.nodes[m := n'])
  {
  }

  /** The status that a reconcile of such a NodeUpgrade leaves follows the pod, or the lack of one. */
  lemma LiveNodeStatus(w: World, m: Name)
    requires m in w.nodes && !w.nodes[m].deleting
    ensures var n, w' := w.nodes[m], NodeRound(w, m);
            && m in w'.nodes
            && var n' := w'.nodes[m];
            && (m in w'.pods ==>
                  && UpgraderPodCreated in n'.conditions
                  && (forall c: Component :: Done(c) in n'.conditions <==>
                        StateOf(w'.pods[m], c) == Some(Terminated(0)))
                  && (n'.completed <==> forall c: Component :: StateOf(w'.pods[m], c) == Some(Terminated(0)))
                  && (n'.ready <==> n'.completed))
            && (m !in w'.pods ==>
                  && n'.completed == n.completed && n'.ready == n.ready
                  && (forall k :: k in n'.conditions <==> k in n.conditions && k == Done(PostUpgrade)))
  {
    LiveNodeCreatesPod(w, m);
    var n, w' := w.nodes[m].(finalizer := true), NodeRound(w, m);
    hide StateOf;
    if m in w'.pods {
      assert w'.nodes[m] == WithPod(n, w'.pods[m]);
      CompletedIsTheSummary(n, w'.pods[m]);
    } else {
      assert w'.nodes[m] == WithoutPod(n);
      AllFalseExactlyIfNotCleanedUp(n);
    }
  }

  // ------------------------------------------------------------------ local copies

  /** The object on the server still is what was read, except that it may be deleting by now. */
  predicate InSync(w: World, m: Name, read: NodeUpgrade) {
    && m in w.busy
    && (m in w.nodes && w.nodes[m].completed ==> read.completed)
    && (read.completed && m in w.pods ==> AllDone(w.pods[m]))
    && (read.deleting || Governed(w, m) ==>
          && m in w.nodes
          && w.nodes[m] == read.(deleting := w.nodes[m].deleting)
          && (read.deleting ==> w.nodes[m].deleting))
    && (Sheltered(w, m) ==>
          && (!read.deleting ==> read.version == w.life.value.version && Matches(w, m))
          && (read.completed ==> (m, w.life.value.version) in w.succeeded && (w.role.Workers? || Matches(w, m))))
  }

  /** What was just read is in sync. */
  lemma SyncNow(w: World, m: Name)
    requires Inv(w) && m in w.busy && m in w.nodes
    ensures InSync(w, m, w.nodes[m])
  {
    if Sheltered(w, m) {
      assert SafeMachine(w, m, w.life.value);
    }
  }

  lemma SyncStable(w: World, w': World, m: Name, read: NodeUpgrade)
    requires Inv(w) && NodeRely(m, w, w') && InSync(w, m, read)
    ensures InSync(w', m, read)
  {
  }

  /** What the status written by the deferred patch must be backed by. */
  predicate StatusEarned(w: World, m: Name, read: NodeUpgrade, n: NodeUpgrade) {
    && (Sheltered(w, m) && n.completed ==>
          (m, w.life.value.version) in w.succeeded && (w.role.Workers? || Matches(w, m)))
    && (read.completed ==> n.completed)
    && (n.completed && m in w.pods ==> AllDone(w.pods[m]))
  }

  /** The status that an update computes from the pod, from its absence, or not at all. */
  lemma StatusNow(w: World, m: Name, read: NodeUpgrade, n: NodeUpgrade)
    requires Inv(w) && InSync(w, m, read) && n == read.(finalizer := n.finalizer)
    ensures StatusEarned(w, m, read, n) && StatusEarned(w, m, read, WithoutPod(n))
    ensures m in w.pods ==> StatusEarned(w, m, read, WithPod(n, w.pods[m]))
  {
    if Sheltered(w, m) {
      assert SafeMachine(w, m, w.life.value);
    }
  }

  lemma StatusStable(w: World, w': World, m: Name, read: NodeUpgrade, n: NodeUpgrade)
    requires NodeRely(m, w, w') && StatusEarned(w, m, read, n)
    ensures StatusEarned(w', m, read, n)
  {
  }

  predicate PodReleased(w: World, m: Name) {
    Governed(w, m) ==> m !in w.pods || w.pods[m].deleting
  }

  function WithoutLivePod(w: World, m: Name): World {
    w.(pods := if m in w.pods then w.pods[m := w.pods[m].(deleting := true)] else w.pods)
  }

  /** Deleting the pod of a NodeUpgrade that is being deleted. */
  lemma PodDeletion(w: World, m: Name, read: NodeUpgrade)
    requires Inv(w) && InSync(w, m, read) && read.deleting
    ensures if m in w.pods then
              && Guard(w, NodeDoes(m, DeletePod))
              && var w' := Apply(w, NodeDoes(m, DeletePod));
              && InSync(w', m, read) && PodReleased(w', m) && w' == WithoutLivePod(w, m)
            else PodReleased(w, m) && w == WithoutLivePod(w, m)
  {
    if m in w.pods {
      DeletingKeepsDone(w.pods[m]);
    }
  }

  lemma PodCreation(w: World, m: Name, read: NodeUpgrade)
    requires Inv(w) && InSync(w, m, read) && !read.deleting && !read.completed && m !in w.pods
    ensures var s := CreatePod(read.version, PodKindFor(w.role, read.first));
            NodeGuard(w, m, s) && InSync(NodeApply(w, m, s), m, read)
  {
    hide AllDone;
    if Governed(w, m) {
      assert MachineInv(w, m, w.life.value);
    }
  }

  /** The patch still meets its guard when it arrives. */
  lemma PatchStillEarned(w: World, w': World, m: Name, read: NodeUpgrade, n: NodeUpgrade)
    requires Inv(w) && NodeRely(m, w, w') && InSync(w, m, read) && StatusEarned(w, m, read, n)
    requires (n.finalizer || read.deleting) && (!n.finalizer ==> PodReleased(w, m))
    requires n == read.(finalizer := n.finalizer, completed := n.completed, conditions := n.conditions,
             ready := n.ready)
    ensures m in w'.nodes ==> NodeGuard(w', m, PatchNode(n.finalizer, n.completed, n.conditions, n.ready))
  {
    SyncStable(w, w', m, read);
    StatusStable(w, w', m, read, n);
  }

  // ------------------------------------------------------------------ the reconciler

  class NodeUpgradeReconciler {
    constructor () {}

    method Reconcile(api: ApiServer, m: Name)
      requires api.Valid() && m !in api.w.busy
      modifies api
      ensures api.Valid() && m !in api.w.busy
      ensures api.quiet ==> api.w == NodeRound(old(api.w), m)
    {
      hide Inv, Reaches, NodeRely, InSync, NodeRound;
      api.Take(NodeDoes(m, Begin));
      NodeRoundKeepsBusy(old(api.w), m, api.w.busy);
      var got := api.GetNode(Node(m), m);
      if got.Found? {
        SyncNow(api.w, m);
        ReconcileNode(api, m, got.value);
      }
      assert api.quiet ==> api.w == NodeRound(old(api.w), m).(busy := old(api.w).busy + {m});
      assert old(api.w).busy + {m} - {m} == old(api.w).busy;
      api.Take(NodeDoes(m, End));
    }

    method ReconcileNode(api: ApiServer, m: Name, read: NodeUpgrade)
      requires api.Valid() && InSync(api.w, m, read) && m in api.w.nodes && api.w.nodes[m] == read
      modifies api
      ensures api.Valid() && m in api.w.busy
      ensures api.quiet ==> api.w == NodeRound(old(api.w), m)
    {
      var ok := Reachable(api.quiet);  // the machine, its nodeRef and the remote cluster's client
      if !ok {
        return;
      }
      if read.deleting {
        ReconcileDelete(api, m, read);
      } else {
        ReconcileLive(api, m, read);
      }
    }

    method ReconcileLive(api: ApiServer, m: Name, read: NodeUpgrade)
      requires api.Valid() && InSync(api.w, m, read) && m in api.w.nodes && api.w.nodes[m] == read && !read.deleting
      modifies api
      ensures api.Valid() && m in api.w.busy
      ensures api.quiet ==> api.w == NodeRound(old(api.w), m)
    {
      EnsurePod(api, m, read);
      Deferred(api, m, read, read.(finalizer := true));
    }

    method ReconcileDelete(api: ApiServer, m: Name, read: NodeUpgrade)
      requires api.Valid() && InSync(api.w, m, read) && m in api.w.nodes && api.w.nodes[m] == read && read.deleting
      modifies api
      ensures api.Valid() && m in api.w.busy
      ensures api.quiet ==> api.w == NodeRound(old(api.w), m)
    {
      var ok := DeletePodOf(api, m, read);
      Deferred(api, m, read, read.(finalizer := read.finalizer && !ok));
    }

    /** Status update and patch, which follow every reconcile. */
    method Deferred(api: ApiServer, m: Name, read: NodeUpgrade, n: NodeUpgrade)
      requires api.Valid() && InSync(api.w, m, read)
      requires n == read.(finalizer := n.finalizer) && (n.finalizer || n.deleting)
      requires !n.finalizer ==> PodReleased(api.w, m)
      modifies api
      ensures api.Valid() && m in api.w.busy
      ensures api.quiet && m in old(api.w).nodes && old(api.w).nodes[m] == read ==>
                api.w == old(api.w).(nodes := if n.finalizer
                  then old(api.w).nodes[m := StatusFor(n, old(api.w).pods, m)]
                                              else old(api.w).nodes - {m})
    {
      var n' := UpdateStatus(api, m, read, n);
      PatchObject(api, m, read, n');
    }

    method EnsurePod(api: ApiServer, m: Name, read: NodeUpgrade)
      requires api.Valid() && InSync(api.w, m, read) && !read.deleting
      modifies api
      ensures api.Valid() && InSync(api.w, m, read)
      ensures api.quiet && m in old(api.w).nodes && old(api.w).nodes[m] == read ==>
                api.w == old(api.w).(pods := PodsAfter(old(api.w).role, old(api.w).nodes, old(api.w).pods, m))
    {
      assert m in api.w.busy;
      hide Inv, Reaches, NodeRely, InSync;
      var ok := Reachable(api.quiet);  // the node
      if !ok || read.completed {
        return;
      }
      ok := Reachable(api.quiet);  // namespace
      if !ok || UpgraderPodCreated in read.conditions {
        return;
      }
      var got := api.GetPod(Node(m), m);
      SyncStable(old(api.w), api.w, m, read);
      if got.Found? {
        return;
      }
      ok := Reachable(api.quiet);  // image of the target version in the config map
      if !ok {
        return;
      }
      CreatePodOf(api, m, read);
    }

    /** An existing pod of that name makes the call fail. */
    method CreatePodOf(api: ApiServer, m: Name, read: NodeUpgrade)
      requires api.Valid() && InSync(api.w, m, read) && !read.deleting && !read.completed
      modifies api
      ensures api.Valid() && InSync(api.w, m, read)
      ensures api.quiet && m !in old(api.w).pods ==>
                var pod := Pod(read.version, PodKindFor(old(api.w).role, read.first), [], [], false);
                api.w == old(api.w).(pods := old(api.w).pods[m := pod])
      ensures api.quiet && m in old(api.w).pods ==> api.w == old(api.w)
    {
      assert m in api.w.busy;
      hide Inv, Reaches, NodeRely, InSync;
      api.Interfere(Node(m));
      SyncStable(old(api.w), api.w, m, read);
      if m in api.w.pods {
        return;
      }
      PodCreation(api.w, m, read);
      var _ := api.Attempt(NodeDoes(m, CreatePod(read.version, PodKindFor(api.w.role, read.first))));
    }

    method DeletePodOf(api: ApiServer, m: Name, read: NodeUpgrade) returns (ok: bool)
      requires api.Valid() && InSync(api.w, m, read) && read.deleting
      modifies api
      ensures api.Valid() && InSync(api.w, m, read)
      ensures ok ==> PodReleased(api.w, m)
      ensures api.quiet ==> ok && api.w == WithoutLivePod(old(api.w), m)
    {
      assert m in api.w.busy;
      hide Inv, Reaches, NodeRely, InSync, PodReleased, WithoutLivePod, Guard, Apply;
      var got := api.GetPod(Node(m), m);
      SyncStable(old(api.w), api.w, m, read);
      PodDeletion(api.w, m, read);
      ok := got.NotFound?;
      if got.Found? {
        ghost var before := api.w;
        api.Interfere(Node(m));
        SyncStable(before, api.w, m, read);
        PodDeletion(api.w, m, read);
        if m in api.w.pods {
          ok := api.Attempt(NodeDoes(m, DeletePod));
        }
      }
    }

    method UpdateStatus(api: ApiServer, m: Name, read: NodeUpgrade, n: NodeUpgrade) returns (n': NodeUpgrade)
      requires api.Valid() && InSync(api.w, m, read) && n == read.(finalizer := n.finalizer)
      modifies api
      ensures api.Valid() && InSync(api.w, m, read) && StatusEarned(api.w, m, read, n')
      ensures n' == n.(completed := n'.completed, conditions := n'.conditions, ready := n'.ready)
      ensures n.deleting && !n.finalizer ==> api.w == old(api.w) && n' == n
      ensures api.quiet && (n.finalizer || !n.deleting) ==>
                api.w == old(api.w) && n' == StatusFor(n, api.w.pods, m)
    {
      assert m in api.w.busy;
      hide Inv, Reaches, NodeRely, InSync, StatusEarned, PodConditions, AllDone, AllConditionsTrue;
      n' := n;
      if n.deleting && !n.finalizer {
        StatusNow(api.w, m, read, n);
        return;
      }
      var got := api.GetPod(Node(m), m);
      SyncStable(old(api.w), api.w, m, read);
      StatusNow(api.w, m, read, n);
      if got.Found? {
        n' := n'.(conditions := n'.conditions + {UpgraderPodCreated});
        n' := UpdateComponentsConditions(got.value, n');
        n' := n'.(ready := AllConditionsTrue(n'));
      } else {
        n' := MarkAllConditionsFalse(n);
      }
    }

    /** The deferred patch: finalizer and status together. */
    method PatchObject(api: ApiServer, m: Name, read: NodeUpgrade, n: NodeUpgrade)
      requires api.Valid() && InSync(api.w, m, read) && StatusEarned(api.w, m, read, n)
      requires n.finalizer || read.deleting
      requires n == read.(finalizer := n.finalizer, completed := n.completed, conditions := n.conditions,
               ready := n.ready)
      requires !n.finalizer ==> PodReleased(api.w, m)
      modifies api
      ensures api.Valid() && m in api.w.busy
      ensures api.quiet && m in old(api.w).nodes && old(api.w).nodes[m] == read ==>
                api.w == old(api.w).(nodes := if n.deleting && !n.finalizer then old(api.w).nodes - {m}
                                              else old(api.w).nodes[m := n])
    {
      assert m in api.w.busy;
      hide Inv, Reaches, NodeRely, InSync, StatusEarned, PodReleased;
      api.Interfere(Node(m));
      PatchStillEarned(old(api.w), api.w, m, read, n);
      if m in api.w.nodes {
        var _ := api.Attempt(NodeDoes(m, PatchNode(n.finalizer, n.completed, n.conditions, n.ready)));
      }
    }
  }
}
