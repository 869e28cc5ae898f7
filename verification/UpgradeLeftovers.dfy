/**
What is left over from earlier upgrades of the same machines, and what it does to a
new one. NodeUpgrades and upgrader pods are named after the machine only, so the new
upgrade meets the old objects.

The safe direction is `EndToEndSafety`. Here is the other one: whenever a leftover is
not harmless, some sequence of reconciles clears the annotation although that machine
was not upgraded.
 */
module UpgradeLeftovers {
  import opened Wrappers
  import opened UpgradeModel
  import opened UpgradeInvariant
  import opened OwnerControllers
  import opened UpgradeControllers
  import opened NodeUpgradeController
  import opened UpgradeTheorems
  import opened UpgradeProgress
  import opened UpgradeEvents

  /** A life that met harmful leftovers: the guards promise nothing about its machines. */
  predicate Exposed(w: World) {
    !w.safe && !w.clean
  }

  // ------------------------------------------------------------------ one machine at a time

  /** A live upgrade, not ready yet, whose machines exist. */
  predicate Driving(w: World, spec: UpgradeSpec) {
    && Live(w) && w.upgrade.value.spec == spec && !w.upgrade.value.ready
    && (forall m :: m in spec.machines ==> m in w.machines)
  }

  ghost predicate Driven(w0: World, events: seq<Event>, w: World, spec: UpgradeSpec) {
    AreEvents(w0, events) && Outcome(w0, events) == w && Leads(w0, w) && Driving(w, spec)
  }

  lemma Drive(w0: World, events: seq<Event>, w: World, spec: UpgradeSpec, e: Event)
    requires Driven(w0, events, w, spec) && Possible(w, e) && Driving(Happens(w, e), spec)
    ensures Driven(w0, events + [e], Happens(w, e), spec)
  {
    hide Leads, Possible, Happens;
    OneMore(w0, events, e);
    EventLeads(w0, w, e);
  }

  ghost predicate SameLocally(w: World, w': World, m: Name) {
    && (m in w'.nodes <==> m in w.nodes) && (m in w.nodes ==> w'.nodes[m] == w.nodes[m])
    && (m in w'.pods <==> m in w.pods) && (m in w.pods ==> w'.pods[m] == w.pods[m])
    && (m in w'.busy <==> m in w.busy)
    && (forall v: Version :: (m, v) in w'.succeeded <==> (m, v) in w.succeeded)
  }

  /** Nothing happened to the other machines, nor to the MachineSet. */
  ghost predicate OnlyAt(w: World, w': World, x: Name) {
    && w'.role == w.role && w'.machineSet == w.machineSet && SameRecord(w, w')
    && (forall m :: m != x ==> SameLocally(w, w', m))
  }

  lemma OnlyAtTransitive(w: World, w': World, w'': World, x: Name)
    requires OnlyAt(w, w', x) && OnlyAt(w', w'', x)
    ensures OnlyAt(w, w'', x)
  {
    forall m | m != x
      ensures SameLocally(w, w'', m)
    {
      assert SameLocally(w, w', m) && SameLocally(w', w'', m);
    }
  }

  // ------------------------------------------------------------------ what the reconciles do

  predicate MachinesExist(w: World, spec: UpgradeSpec) {
    forall m :: m in spec.machines ==> m in w.machines
  }

  /** The count leaves the machines before index i alone. */
  lemma {:induction false} CountLeaves(w: World, spec: UpgradeSpec, i: nat, n: nat)
    requires i <= |spec.machines| && Distinct(spec.machines) && MachinesExist(w, spec)
    ensures var machines := CountDone(w, spec, i, n).0.machines;
            && (forall m :: m in w.machines ==> m in machines)
            && (forall j :: 0 <= j < i ==> machines[spec.machines[j]] == w.machines[spec.machines[j]])
    decreases |spec.machines| - i
  {
    if i < |spec.machines| {
      var m := spec.machines[i];
      if !NodeDone(w, m) {
        CountLeaves(w, spec, i + 1, n);
      } else if w.role.Workers? {
        CountLeaves(w, spec, i + 1, n + 1);
      } else {
        CountLeaves(PatchAll(w, m, spec.data), spec, i + 1, n + 1);
      }
    }
  }

  /** The count of a control plane gives each done machine the version of its NodeUpgrade. */
  lemma {:induction false} CountPatches(w: World, spec: UpgradeSpec, i: nat, n: nat, j: nat)
    requires i <= j < |spec.machines| && Distinct(spec.machines) && MachinesExist(w, spec)
    requires w.role.ControlPlane? && NodeDone(w, spec.machines[j])
    ensures var machines := CountDone(w, spec, i, n).0.machines;
            spec.machines[j] in machines && machines[spec.machines[j]].version == w.nodes[spec.machines[j]].version
    decreases j - i
  {
    var m := spec.machines[i];
    if !NodeDone(w, m) {
      CountPatches(w, spec, i + 1, n, j);
    } else {
      var w1 := PatchAll(w, m, spec.data);
      if i == j {
        CountLeaves(w1, spec, i + 1, n + 1);
      } else {
        CountPatches(w1, spec, i + 1, n + 1, j);
      }
    }
  }

  /** The NodeUpgrades after machine i, the first that is not done, got one. */
  function WithNode(w: World, spec: UpgradeSpec, i: nat): map<Name, NodeUpgrade> {
    if i < |spec.machines| && spec.machines[i] !in w.nodes
    then w.nodes[spec.machines[i] := NodeUpgrade(spec.version, First(w.role, i), false, false, false, {}, false)]
    else w.nodes
  }

  lemma CreateEffect(w: World, spec: UpgradeSpec, i: nat)
    requires Inv(w) && Driving(w, spec) && i <= |spec.machines|
    requires forall j :: 0 <= j < i ==> NodeDone(w, spec.machines[j])
    requires i < |spec.machines| ==> !NodeDone(w, spec.machines[i])
    ensures CreateNext(w) == w.(nodes := WithNode(w, spec, i)) && Distinct(spec.machines)
    ensures forall j :: 0 <= j < i ==>
              && NodeDone(CreateNext(w), spec.machines[j])
              && CreateNext(w).nodes[spec.machines[j]] == w.nodes[spec.machines[j]]
    ensures i < |spec.machines| ==> !NodeDone(CreateNext(w), spec.machines[i])
  {
    NextIs(w, spec.machines, 0, i);
    hide FirstNotDone;
  }

  /** A reconcile of the upgrade object while machine i is the first that is not done. */
  lemma RoundEffect(w: World, spec: UpgradeSpec, i: nat)
    requires Inv(w) && Driving(w, spec) && i <= |spec.machines|
    requires forall j :: 0 <= j < i ==> NodeDone(w, spec.machines[j])
    requires i < |spec.machines| ==> !NodeDone(w, spec.machines[i])
    ensures var w' := UpgradeRound(w);
            && w' == w.(nodes := WithNode(w, spec, i), machines := w'.machines, machineSet := w'.machineSet,
                        upgrade := w'.upgrade)
            && w'.machineSet == (if w.role.Workers? && i == |spec.machines| then spec.data else w.machineSet)
            && Live(w') && w'.upgrade.value.spec == spec && w'.upgrade.value.finalizer
            && (w'.upgrade.value.ready <==> i == |spec.machines|)
            && (forall m :: m in spec.machines ==> m in w'.machines)
            && (w.role.ControlPlane? ==> forall j :: 0 <= j < i ==>
                  w'.machines[spec.machines[j]].version == w.nodes[spec.machines[j]].version)
  {
    CreateEffect(w, spec, i);
    CountEffect(CreateNext(w), spec, i);
    hide Inv, CreateNext, CountDone, WithNode, NodeDone;
  }

  /** The count while machine i is the first that is not done. */
  lemma CountEffect(w: World, spec: UpgradeSpec, i: nat)
    requires Distinct(spec.machines) && i <= |spec.machines| && forall m :: m in spec.machines ==> m in w.machines
    requires forall j :: 0 <= j < i ==> NodeDone(w, spec.machines[j])
    requires i < |spec.machines| ==> !NodeDone(w, spec.machines[i])
    ensures var (w', count) := CountDone(w, spec, 0, 0);
            && w' == w.(machines := w'.machines)
            && count.Some? && count.value <= |spec.machines|
            && (count.value == |spec.machines| <==> i == |spec.machines|)
            && (forall m :: m in spec.machines ==> m in w'.machines)
            && (w.role.ControlPlane? ==> forall j :: 0 <= j < i && NodeDone(w, spec.machines[j]) ==>
                  w'.machines[spec.machines[j]].version == w.nodes[spec.machines[j]].version)
  {
    CountLeaves(w, spec, 0, 0);
    if w.role.ControlPlane? {
      forall j | 0 <= j < i
        ensures CountDone(w, spec, 0, 0).0.machines[spec.machines[j]].version == w.nodes[spec.machines[j]].version
      {
        CountPatches(w, spec, 0, 0, j);
      }
    }
    CountExact(w, spec, 0, 0);
    CountKeepsUpgrade(w, spec, 0, 0);
    hide CountDone;
  }

  lemma {:induction false} NextIs(w: World, ms: seq<Name>, k: nat, i: nat)
    requires k <= i <= |ms| && (forall j :: k <= j < i ==> NodeDone(w, ms[j])) && (i < |ms| ==> !NodeDone(w, ms[i]))
    ensures FirstNotDone(w, ms, k) == i
    decreases i - k
  {
    if k < i {
      NextIs(w, ms, k + 1, i);
    }
  }

  const DONE: seq<ContainerStatus> := [
    ContainerStatus(Of(Copier), Terminated(0)), ContainerStatus(Of(Containerd), Terminated(0)),
    ContainerStatus(Of(CniPlugins), Terminated(0)), ContainerStatus(Of(Kubeadm), Terminated(0)),
    ContainerStatus(Of(Kubelet), Terminated(0)), ContainerStatus(Of(PostUpgrade), Terminated(0))]

  lemma DoneIsDone(pod: Pod)
    ensures AllDone(pod.(initStatuses := DONE, statuses := []))
  {
    var p := pod.(initStatuses := DONE, statuses := []);
    forall c: Component
      ensures Find(DONE, Of(c)) == Some(Terminated(0))
    {
      FindDone(c, IndexOf(c));
    }
  }

  lemma FindDone(c: Component, i: nat)
    requires i == IndexOf(c)
    ensures Find(DONE, Of(c)) == Some(Terminated(0))
  {
    var k := 0;
    while k < i
      invariant k <= i && Find(DONE, Of(c)) == Find(DONE[k..], Of(c))
    {
      assert DONE[k..][1..] == DONE[k + 1..];
      k := k + 1;
    }
  }

  // ------------------------------------------------------------------ driving a machine

  /** Machine i is the first that is not done. */
  predicate Current(w: World, spec: UpgradeSpec, i: nat) {
    && i < |spec.machines|
    && (forall j :: 0 <= j < i ==> NodeDone(w, spec.machines[j]))
    && !NodeDone(w, spec.machines[i])
  }

  /** The pod is the same, or is the same but deleted by now. */
  predicate SamePod(w: World, w': World, x: Name) {
    && (x in w'.pods <==> x in w.pods)
    && (x in w.pods ==> w'.pods[x] == w.pods[x].(deleting := w'.pods[x].deleting))
  }

  lemma EndsInFlight(w0: World, ev: seq<Event>, w: World, spec: UpgradeSpec, x: Name)
    returns (ev': seq<Event>, w': World)
    requires Driven(w0, ev, w, spec)
    ensures Driven(w0, ev', w', spec) && OnlyAt(w, w', x)
    ensures w' == w.(busy := w.busy - {x})
  {
    ev', w' := ev, w;
    if x in w.busy {
      var e := Takes(NodeDoes(x, End));
      Drive(w0, ev, w, spec, e);
      ev', w' := ev + [e], Happens(w, e);
    }
    hide Driven, Inv;
    assert OnlyAt(w, w', x);
  }

  /** A deleting NodeUpgrade goes, and leaves a deleted pod. */
  lemma Vanishes(w0: World, ev: seq<Event>, w: World, spec: UpgradeSpec, x: Name) returns (ev': seq<Event>, w': World)
    requires Driven(w0, ev, w, spec) && x !in w.busy && x in w.nodes && w.nodes[x].deleting
    ensures Driven(w0, ev', w', spec) && OnlyAt(w, w', x)
    ensures w' == w.(nodes := w.nodes - {x}, pods := w'.pods) && SamePod(w, w', x)
  {
    hide Leads, Inv;
    var e := NodeReconciles(x);
    Drive(w0, ev, w, spec, e);
    ev', w' := ev + [e], Happens(w, e);
    hide Driven;
    assert OnlyAt(w, w', x);
  }

  /** A missing NodeUpgrade is created. */
  lemma Appears(w0: World, ev: seq<Event>, w: World, spec: UpgradeSpec, i: nat) returns (ev': seq<Event>, w': World)
    requires Driven(w0, ev, w, spec) && Current(w, spec, i) && spec.machines[i] !in w.nodes
    ensures Driven(w0, ev', w', spec) && OnlyAt(w, w', spec.machines[i])
    ensures w'.nodes == WithNode(w, spec, i)
    ensures w'.pods == w.pods && w'.succeeded == w.succeeded && w'.busy == w.busy
  {
    assert Inv(w);
    hide Leads, Inv, UpgradeRound;
    RoundEffect(w, spec, i);
    Drive(w0, ev, w, spec, UpgradeReconciles(false, false));
    ev', w' := ev + [UpgradeReconciles(false, false)], Happens(w, UpgradeReconciles(false, false));
    hide Driven;
    assert OnlyAt(w, w', spec.machines[i]);
  }

  /** Whatever its old NodeUpgrade was, if it is deleting then it goes. */
  lemma MakesRoom(w0: World, ev: seq<Event>, w: World, spec: UpgradeSpec, i: nat) returns (ev': seq<Event>, w': World)
    requires Driven(w0, ev, w, spec) && Current(w, spec, i)
    ensures Driven(w0, ev', w', spec) && OnlyAt(w, w', spec.machines[i])
    ensures var x := spec.machines[i];
            && x !in w'.busy && (x in w'.nodes ==> !w'.nodes[x].deleting)
            && SamePod(w, w', x) && w'.succeeded == w.succeeded
            && (x in w'.nodes ==> x in w.nodes && w'.nodes[x] == w.nodes[x])
  {
    hide Driven, Inv, OnlyAt;
    var x := spec.machines[i];
    ev', w' := EndsInFlight(w0, ev, w, spec, x);
    if x in w'.nodes && w'.nodes[x].deleting {
      var w1 := w';
      ev', w' := Vanishes(w0, ev', w1, spec, x);
      OnlyAtTransitive(w, w1, w', x);
    }
  }

  /** It is still the first that is not done. */
  lemma StaysCurrent(w: World, w': World, spec: UpgradeSpec, i: nat)
    requires Current(w, spec, i) && OnlyAt(w, w', spec.machines[i]) && Distinct(spec.machines)
    requires spec.machines[i] in w'.nodes ==>
             spec.machines[i] in w.nodes && w'.nodes[spec.machines[i]] == w.nodes[spec.machines[i]]
    ensures Current(w', spec, i)
  {
    forall j | 0 <= j < i
      ensures NodeDone(w', spec.machines[j])
    {
      assert SameLocally(w, w', spec.machines[j]);
    }
  }

  /** The first machine that is not done gets a live NodeUpgrade that nobody is reconciling. */
  lemma Settle(w0: World, ev: seq<Event>, w: World, spec: UpgradeSpec, i: nat) returns (ev': seq<Event>, w': World)
    requires Driven(w0, ev, w, spec) && Current(w, spec, i) && Distinct(spec.machines)
    ensures Driven(w0, ev', w', spec) && OnlyAt(w, w', spec.machines[i])
    ensures var x := spec.machines[i];
            && Pending(w', x)
            && SamePod(w, w', x)
            && w'.succeeded == w.succeeded
  {
    hide Driven, Inv, OnlyAt;
    var x := spec.machines[i];
    ev', w' := MakesRoom(w0, ev, w, spec, i);
    StaysCurrent(w, w', spec, i);
    if x !in w'.nodes {
      var w1 := w';
      ev', w' := Appears(w0, ev', w1, spec, i);
      OnlyAtTransitive(w, w1, w', x);
    }
  }

  lemma Reconciled(w0: World, ev: seq<Event>, w: World, spec: UpgradeSpec, x: Name) returns (ev': seq<Event>, w': World)
    requires Driven(w0, ev, w, spec) && x !in w.busy && x in w.nodes && !w.nodes[x].deleting
    ensures Driven(w0, ev', w', spec) && OnlyAt(w, w', x)
    ensures w' == NodeRound(w, x)
  {
    hide Leads, Inv, PodsAfter, StatusFor;
    var e := NodeReconciles(x);
    Drive(w0, ev, w, spec, e);
    ev', w' := ev + [e], Happens(w, e);
    RoundIsLocal(w, x);
  }

  lemma RoundIsLocal(w: World, x: Name)
    requires x in w.nodes && !w.nodes[x].deleting
    ensures OnlyAt(w, NodeRound(w, x), x)
  {
    hide StatusFor;
    var w' := NodeRound(w, x);
    forall m | m != x
      ensures SameLocally(w, w', m)
    {
    }
  }

  /** A live NodeUpgrade, not completed, that nobody is reconciling. */
  predicate Pending(w: World, x: Name) {
    x !in w.busy && x in w.nodes && !w.nodes[x].deleting && !w.nodes[x].completed
  }

  lemma RoundWithPod(w: World, x: Name)
    requires Pending(w, x) && x in w.pods
    ensures var w' := NodeRound(w, x);
            && x in w'.nodes && w'.nodes[x].version == w.nodes[x].version
            && (w'.nodes[x].completed <==> AllDone(w.pods[x]))
            && w'.succeeded == w.succeeded
  {
    hide AllDone;
  }

  lemma RoundWithoutPod(w: World, x: Name)
    requires Pending(w, x) && x !in w.pods
    ensures var w' := NodeRound(w, x);
            && Pending(w', x) && w'.nodes[x].version == w.nodes[x].version
            && w'.succeeded == w.succeeded
            && (x in w'.pods <==> UpgraderPodCreated !in w.nodes[x].conditions)
            && (x in w'.pods ==> w'.pods[x].version == w.nodes[x].version && !AllDone(w'.pods[x]))
            && (x !in w'.pods ==> UpgraderPodCreated !in w'.nodes[x].conditions)
  {
    FreshPodIsNotDone(w.nodes[x].version, PodKindFor(w.role, w.nodes[x].first));
    hide AllDone;
  }

  /** It gets a pod within two reconciles. */
  lemma GetsPod(w0: World, ev: seq<Event>, w: World, spec: UpgradeSpec, x: Name) returns (ev': seq<Event>, w': World)
    requires Driven(w0, ev, w, spec) && Pending(w, x) && x !in w.pods
    ensures Driven(w0, ev', w', spec) && OnlyAt(w, w', x)
    ensures Pending(w', x) && w'.nodes[x].version == w.nodes[x].version
    ensures x in w'.pods && w'.pods[x].version == w.nodes[x].version && !AllDone(w'.pods[x])
    ensures w'.succeeded == w.succeeded
  {
    hide Driven, Inv, OnlyAt, AllDone, NodeRound;
    RoundWithoutPod(w, x);
    ev', w' := Reconciled(w0, ev, w, spec, x);
    if x !in w'.pods {
      var w1 := w';
      RoundWithoutPod(w1, x);
      ev', w' := Reconciled(w0, ev', w', spec, x);
      OnlyAtTransitive(w, w1, w', x);
    }
  }

  lemma PodFinishes(w0: World, ev: seq<Event>, w: World, spec: UpgradeSpec, x: Name)
    returns (ev': seq<Event>, w': World)
    requires Driven(w0, ev, w, spec) && x in w.pods && !AllDone(w.pods[x])
    ensures Driven(w0, ev', w', spec) && OnlyAt(w, w', x)
    ensures w' == w.(pods := w'.pods, succeeded := w.succeeded + {(x, w.pods[x].version)})
    ensures x in w'.pods && AllDone(w'.pods[x])
  {
    hide Leads, Inv;
    var e := Takes(EnvironmentDoes(Progress(x, DONE, [])));
    DoneIsDone(w.pods[x]);
    Drive(w0, ev, w, spec, e);
    ev', w' := ev + [e], Happens(w, e);
    hide Driven, AllDone;
    assert OnlyAt(w, w', x);
  }

  /** A live NodeUpgrade completes: at once if its pod is done, else after the pod ran. */
  lemma Completes(w0: World, ev: seq<Event>, w: World, spec: UpgradeSpec, x: Name) returns (ev': seq<Event>, w': World)
    requires Driven(w0, ev, w, spec) && Pending(w, x)
    ensures Driven(w0, ev', w', spec) && OnlyAt(w, w', x)
    ensures NodeDone(w', x) && w'.nodes[x].version == w.nodes[x].version
    ensures w'.succeeded == if x in w.pods && AllDone(w.pods[x]) then w.succeeded
                            else w.succeeded + {(x, if x in w.pods then w.pods[x].version else w.nodes[x].version)}
  {
    hide Driven, Inv, OnlyAt, AllDone, NodeRound;
    ev', w' := ev, w;
    OnlyAtReflexive(w, x);
    if x !in w.pods {
      ev', w' := GetsPod(w0, ev, w, spec, x);
    }
    if !AllDone(w'.pods[x]) {
      var w1 := w';
      ev', w' := PodFinishes(w0, ev', w', spec, x);
      OnlyAtTransitive(w, w1, w', x);
    }
    var w1 := w';
    RoundWithPod(w1, x);
    ev', w' := Reconciled(w0, ev', w', spec, x);
    OnlyAtTransitive(w, w1, w', x);
  }

  lemma OnlyAtReflexive(w: World, x: Name)
    ensures OnlyAt(w, w, x)
  {
  }

  // ------------------------------------------------------------------ harmful leftovers

  /** Called done, but no pod ran for this version, or the machine is about to get another version. */
  predicate Deceptive(w: World, b: Name, spec: UpgradeSpec) {
    NodeDone(w, b) && ((b, spec.version) !in w.succeeded
      || (w.role.ControlPlane? && w.nodes[b].version != spec.version))
  }

  /** Leftovers of the machine that are not harmless, and no pod has run for it. */
  predicate Harmful(w: World, b: Name, spec: UpgradeSpec) {
    !Harmless(w, b, spec.version) && (b, spec.version) !in w.succeeded
  }

  lemma DeletedPodIsSame(w: World, w': World, x: Name)
    requires SamePod(w, w', x) && x in w.pods
    ensures w'.pods[x].version == w.pods[x].version && (AllDone(w'.pods[x]) <==> AllDone(w.pods[x]))
  {
    assert forall c: Component :: Succeeded(w'.pods[x], c) <==> Succeeded(w.pods[x], c);
  }

  /** A reconcile that began earlier persists a status that it had read then. */
  lemma StaleStatus(w0: World, ev: seq<Event>, w: World, spec: UpgradeSpec, i: nat) returns (ev': seq<Event>, w': World)
    requires Driven(w0, ev, w, spec) && Current(w, spec, i) && spec.machines[i] in w.busy && Exposed(w)
    ensures Driven(w0, ev', w', spec) && OnlyAt(w, w', spec.machines[i])
    ensures NodeDone(w', spec.machines[i]) && w'.succeeded == w.succeeded
  {
    hide Driven, OnlyAt;
    var x := spec.machines[i];
    ev', w' := ev, w;
    OnlyAtReflexive(w, x);
    if x !in w.nodes {
      ev', w' := Appears(w0, ev, w, spec, i);
      AppearsBusy(w, w', x, NodeUpgrade(spec.version, First(w.role, i), false, false, false, {}, false));
    }
    var w1 := w';
    OnlyAtKeeps(w, w1, x);
    ev', w' := CompletesStale(w0, ev', w1, spec, x);
    OnlyAtTransitive(w, w1, w', x);
  }

  lemma AppearsBusy(w: World, w': World, x: Name, n: NodeUpgrade)
    requires w'.nodes == w.nodes[x := n] && w'.busy == w.busy && x in w.busy
    ensures x in w'.nodes && x in w'.busy
  {
  }

  lemma LosesPod(w0: World, ev: seq<Event>, w: World, spec: UpgradeSpec, x: Name) returns (ev': seq<Event>, w': World)
    requires Driven(w0, ev, w, spec)
    ensures Driven(w0, ev', w', spec) && OnlyAt(w, w', x)
    ensures w' == w.(pods := w.pods - {x})
  {
    ev', w' := ev, w;
    OnlyAtReflexive(w, x);
    hide Leads, Inv;
    if x in w.pods {
      var e := Takes(EnvironmentDoes(LosePod(x)));
      Drive(w0, ev, w, spec, e);
      ev', w' := ev + [e], Happens(w, e);
      hide Driven;
      assert OnlyAt(w, w', x);
    }
  }

  /** Its pod is lost, and the reconcile persists that it had seen it finished. */
  lemma CompletesStale(w0: World, ev: seq<Event>, w: World, spec: UpgradeSpec, x: Name)
    returns (ev': seq<Event>, w': World)
    requires Driven(w0, ev, w, spec) && x in w.busy && x in w.nodes && Exposed(w)
    ensures Driven(w0, ev', w', spec) && OnlyAt(w, w', x)
    ensures NodeDone(w', x) && w'.succeeded == w.succeeded
  {
    hide Leads, Inv;
    ev', w' := LosesPod(w0, ev, w, spec, x);
    var w1 := w';
    var e := Takes(NodeDoes(x, PatchNode(true, true, MARKED + {Done(PostUpgrade)}, true)));
    Drive(w0, ev', w1, spec, e);
    ev', w' := ev' + [e], Happens(w1, e);
    hide Driven;
    assert OnlyAt(w1, w', x);
    OnlyAtTransitive(w, w1, w', x);
  }

  /** A pod of another version, or one that is done already, is taken for the one that should run. */
  lemma WrongPod(w0: World, ev: seq<Event>, w: World, spec: UpgradeSpec, i: nat) returns (ev': seq<Event>, w': World)
    requires Driven(w0, ev, w, spec) && Current(w, spec, i) && Distinct(spec.machines)
    requires !HarmlessPod(w, spec.machines[i], spec.version) && (spec.machines[i], spec.version) !in w.succeeded
    ensures Driven(w0, ev', w', spec) && OnlyAt(w, w', spec.machines[i])
    ensures NodeDone(w', spec.machines[i]) && (spec.machines[i], spec.version) !in w'.succeeded
  {
    hide Driven, OnlyAt, AllDone;
    var x := spec.machines[i];
    ev', w' := Settle(w0, ev, w, spec, i);
    DeletedPodIsSame(w, w', x);
    var w1 := w';
    ev', w' := Completes(w0, ev', w1, spec, x);
    OnlyAtTransitive(w, w1, w', x);
  }

  /** A NodeUpgrade of another version runs a pod of that version. */
  lemma WrongNode(w0: World, ev: seq<Event>, w: World, spec: UpgradeSpec, x: Name) returns (ev': seq<Event>, w': World)
    requires Driven(w0, ev, w, spec) && Pending(w, x) && w.nodes[x].version != spec.version
             && (x, spec.version) !in w.succeeded
    ensures Driven(w0, ev', w', spec) && OnlyAt(w, w', x)
    ensures NodeDone(w', x) && (x, spec.version) !in w'.succeeded
  {
    hide Inv, AllDone;
    ev', w' := LosesPod(w0, ev, w, spec, x);
    hide Driven, OnlyAt;
    var w1 := w';
    ev', w' := Completes(w0, ev', w1, spec, x);
    OnlyAtTransitive(w, w1, w', x);
  }

  /** A deleting NodeUpgrade of another version completes when its pod cannot be deleted. */
  lemma WrongMachine(w0: World, ev: seq<Event>, w: World, spec: UpgradeSpec, x: Name)
    returns (ev': seq<Event>, w': World)
    requires Driven(w0, ev, w, spec) && x !in w.busy && x in w.nodes && w.nodes[x].deleting
    requires x in w.pods && !AllDone(w.pods[x])
    ensures Driven(w0, ev', w', spec) && OnlyAt(w, w', x)
    ensures NodeDone(w', x) && w'.nodes[x].version == w.nodes[x].version
  {
    ev', w' := PodFinishes(w0, ev, w, spec, x);
    var w1, e := w', PodDeletionFails(x);
    DeletionFails(w1, spec, x);
    hide Leads, Inv, AllDone, Happens, Driving, OnlyAt;
    Drive(w0, ev', w1, spec, e);
    ev', w' := ev' + [e], Happens(w1, e);
    OnlyAtTransitive(w, w1, w', x);
  }

  /** A reconcile that cannot delete the finished pod still writes the status that it justifies. */
  lemma DeletionFails(w: World, spec: UpgradeSpec, x: Name)
    requires Driving(w, spec) && Possible(w, PodDeletionFails(x)) && AllDone(w.pods[x])
    ensures var w' := Happens(w, PodDeletionFails(x));
            Driving(w', spec) && OnlyAt(w, w', x) && NodeDone(w', x) && w'.nodes[x].version == w.nodes[x].version
  {
    hide AllDone, PodConditions, AllConditionsTrue;
  }

  /** Whatever makes a leftover harmful, the machine ends up called done without having been upgraded. */
  lemma TurnsDeceptive(w0: World, ev: seq<Event>, w: World, spec: UpgradeSpec, i: nat)
    returns (ev': seq<Event>, w': World)
    requires Driven(w0, ev, w, spec) && Distinct(spec.machines) && i < |spec.machines|
    requires forall j :: 0 <= j < i ==> NodeDone(w, spec.machines[j])
    requires Harmful(w, spec.machines[i], spec) && Exposed(w)
    ensures Driven(w0, ev', w', spec) && OnlyAt(w, w', spec.machines[i])
    ensures Deceptive(w', spec.machines[i], spec)
  {
    var b := spec.machines[i];
    OnlyAtReflexive(w, b);
    hide Driven, AllDone;
    if NodeDone(w, b) {
      ev', w' := ev, w;
    } else if b in w.busy {
      ev', w' := StaleStatus(w0, ev, w, spec, i);
    } else if !HarmlessPod(w, b, spec.version) {
      ev', w' := WrongPod(w0, ev, w, spec, i);
    } else if !w.nodes[b].deleting {
      ev', w' := WrongNode(w0, ev, w, spec, b);
    } else {
      ev', w' := WrongMachine(w0, ev, w, spec, b);
    }
  }

  /** Any other machine gets done too. */
  lemma GetsDone(w0: World, ev: seq<Event>, w: World, spec: UpgradeSpec, i: nat) returns (ev': seq<Event>, w': World)
    requires Driven(w0, ev, w, spec) && Distinct(spec.machines) && i < |spec.machines|
    requires forall j :: 0 <= j < i ==> NodeDone(w, spec.machines[j])
    ensures Driven(w0, ev', w', spec) && OnlyAt(w, w', spec.machines[i]) && NodeDone(w', spec.machines[i])
  {
    var x := spec.machines[i];
    ev', w' := ev, w;
    OnlyAtReflexive(w, x);
    hide Driven, OnlyAt, AllDone;
    if !NodeDone(w, x) {
      ev', w' := Settle(w0, ev, w, spec, i);
      var w1 := w';
      ev', w' := Completes(w0, ev', w1, spec, x);
      OnlyAtTransitive(w, w1, w', x);
    }
  }

  lemma HarmfulElsewhere(w: World, w': World, x: Name, b: Name, spec: UpgradeSpec)
    requires OnlyAt(w, w', x) && b != x
    ensures Harmful(w', b, spec) <==> Harmful(w, b, spec)
    ensures Deceptive(w', b, spec) <==> Deceptive(w, b, spec)
    ensures NodeDone(w', b) <==> NodeDone(w, b)
  {
    assert SameLocally(w, w', b);
    hide OnlyAt, AllDone;
  }

  lemma OnlyAtKeeps(w: World, w': World, x: Name)
    requires OnlyAt(w, w', x)
    ensures w'.role == w.role && w'.machineSet == w.machineSet && SameRecord(w, w')
  {
  }

  /** Machine b has a harmful leftover, and is deceptive once it is done; b may be no machine at all. */
  predicate Tracked(w: World, spec: UpgradeSpec, b: nat, done: bool) {
    b < |spec.machines| ==>
      && Exposed(w)
      && if done then Deceptive(w, spec.machines[b], spec) else Harmful(w, spec.machines[b], spec)
  }

  lemma OneGetsDone(w0: World, ev: seq<Event>, w: World, spec: UpgradeSpec, b: nat, i: nat)
    returns (ev': seq<Event>, w': World)
    requires Driven(w0, ev, w, spec) && Distinct(spec.machines) && i < |spec.machines|
    requires forall j :: 0 <= j < i ==> NodeDone(w, spec.machines[j])
    requires Tracked(w, spec, b, b < i)
    ensures Driven(w0, ev', w', spec) && w'.role == w.role && w'.machineSet == w.machineSet && SameRecord(w, w')
    ensures forall j :: 0 <= j <= i ==> NodeDone(w', spec.machines[j])
    ensures Tracked(w', spec, b, b <= i)
  {
    hide Driven, OnlyAt, Harmful, Deceptive, NodeDone;
    var x := spec.machines[i];
    if i == b {
      ev', w' := TurnsDeceptive(w0, ev, w, spec, i);
      DeceptiveIsDone(w', x, spec);
    } else {
      ev', w' := GetsDone(w0, ev, w, spec, i);
      if b < |spec.machines| {
        HarmfulElsewhere(w, w', x, spec.machines[b], spec);
      }
    }
    OnlyAtKeeps(w, w', x);
    forall j | 0 <= j < i
      ensures NodeDone(w', spec.machines[j])
    {
      HarmfulElsewhere(w, w', x, spec.machines[j], spec);
    }
  }

  /** All machines get done, the harmful leftover included. */
  lemma {:induction false} AllGetDone(w0: World, ev: seq<Event>, w: World, spec: UpgradeSpec, b: nat, i: nat)
    returns (ev': seq<Event>, w': World)
    requires Driven(w0, ev, w, spec) && Distinct(spec.machines) && i <= |spec.machines|
    requires forall j :: 0 <= j < i ==> NodeDone(w, spec.machines[j])
    requires Tracked(w, spec, b, b < i)
    ensures Driven(w0, ev', w', spec) && w'.role == w.role && w'.machineSet == w.machineSet && SameRecord(w, w')
    ensures forall j :: 0 <= j < |spec.machines| ==> NodeDone(w', spec.machines[j])
    ensures b < |spec.machines| ==> Exposed(w') && Deceptive(w', spec.machines[b], spec)
    decreases |spec.machines| - i
  {
    hide Driven, Deceptive, Harmful, NodeDone;
    ev', w' := ev, w;
    if i < |spec.machines| {
      ev', w' := OneGetsDone(w0, ev, w, spec, b, i);
      ev', w' := AllGetDone(w0, ev', w', spec, b, i + 1);
    }
  }

  lemma DeceptiveIsDone(w: World, b: Name, spec: UpgradeSpec)
    requires Deceptive(w, b, spec)
    ensures NodeDone(w, b)
  {
  }

  // ------------------------------------------------------------------ the exact condition

  lemma StartedIsDriven(w: World, spec: UpgradeSpec)
    requires Inv(w) && w.annotation && w.upgrade.None? && Distinct(spec.machines)
    requires forall m :: m in spec.machines ==> m in w.machines
    ensures Driven(Started(w, spec), [], Started(w, spec), spec)
    ensures AllHarmless(w, spec) || Exposed(Started(w, spec))
  {
    if CleanStart(w, spec.machines) {
      CleanIsHarmless(w, spec);
    }
    StartedKeepsInv(w, spec);
    LeadsNowhere(Started(w, spec));
    hide Inv, Leads, AllHarmless, CleanStart;
  }

  /** A deceptive machine has not been upgraded once all machines are counted. */
  lemma CountedIsNotUpgraded(w: World, spec: UpgradeSpec, b: nat)
    requires Inv(w) && Driving(w, spec) && Exposed(w) && b < |spec.machines| && Deceptive(w, spec.machines[b], spec)
    requires forall j :: 0 <= j < |spec.machines| ==> NodeDone(w, spec.machines[j])
    ensures var w' := UpgradeRound(w);
            && Live(w') && w'.upgrade.value.spec == spec && w'.upgrade.value.ready && w'.upgrade.value.finalizer
            && Exposed(w') && !Upgraded(w', spec.machines[b], spec)
  {
    RoundEffect(w, spec, |spec.machines|);
    hide Inv, UpgradeRound;
  }

  /**
   * If what is left over of some listed machine is not harmless, then reconciles of the
   * new upgrade make it ready and its owner clears the annotation, although that machine
   * was not upgraded.
   */
  lemma LeftoversBreakSafety(w: World, spec: UpgradeSpec, b: nat) returns (events: seq<Event>)
    requires Inv(w) && w.annotation && w.upgrade.None? && Distinct(spec.machines)
    requires forall m :: m in spec.machines ==> m in w.machines
    requires b < |spec.machines| && !Harmless(w, spec.machines[b], spec.version)
    ensures AreEvents(Started(w, spec), events)
    ensures var w' := Outcome(Started(w, spec), events);
            && Leads(Started(w, spec), w') && Exposed(w')
            && Live(w') && w'.upgrade.value.ready && w'.upgrade.value.finalizer && w'.upgrade.value.spec == spec
            && w'.observed == [Some(spec.version)] && w'.matched
            && !Upgraded(w', spec.machines[b], spec)
            && !OwnerRound(w', spec, true).annotation
  {
    var w0 := Started(w, spec);
    StartedIsDriven(w, spec);
    assert Harmful(w0, spec.machines[b], spec) by {
      hide Inv, AllDone;
    }
    hide AllHarmless, CleanStart, AllDone;
    var ev, w1 := AllGetDone(w0, [], w0, spec, b, 0);
    assert Inv(w1);
    CountedIsNotUpgraded(w1, spec, b);
    hide Inv, Deceptive, UpgradeRound;
    OneMore(w0, ev, UpgradeReconciles(false, false));
    EventLeads(w0, w1, UpgradeReconciles(false, false));
    var w2 := UpgradeRound(w1);
    var e := Takes(EnvironmentDoes(Observe([Some(spec.version)])));
    OneMore(w0, ev + [UpgradeReconciles(false, false)], e);
    EventLeads(w0, w2, e);
    events := ev + [UpgradeReconciles(false, false)] + [e];
    OneVersion(Some(spec.version), spec.version);
    LiveIsAnnotated(Outcome(w0, events));
  }

  lemma LiveIsAnnotated(w: World)
    requires Inv(w) && Live(w)
    ensures w.annotation && w.life == Some(w.upgrade.value.spec)
    ensures AllAre(w.observed, w.upgrade.value.spec.version) ==> w.matched
  {
  }

  /** A run that goes on after a run. */
  lemma {:induction false} RunOn(w: World, steps: seq<Step>, more: seq<Step>)
    requires IsRun(w, steps) && IsRun(After(w, steps), more)
    ensures IsRun(w, steps + more) && After(w, steps + more) == After(After(w, steps), more)
    decreases |more|
  {
    hide Guard, Apply;
    if more == [] {
      assert steps + more == steps;
    } else {
      var front := more[..|more| - 1];
      RunOn(w, steps, front);
      assert (steps + more)[..|steps + more| - 1] == steps + front;
    }
  }

  /** The annotation is cleared at the end of a life. */
  predicate Clears(start: World, before: seq<Step>, spec: UpgradeSpec, rest: seq<Step>) {
    && NoCreate(rest)
    && IsRun(start, before + [OwnerDoes(CreateUpgrade(spec))] + rest)
    && IsRun(start, before + [OwnerDoes(CreateUpgrade(spec))] + rest + [OwnerDoes(ClearAnnotation)])
  }

  /** Then the machine's pod has run in that life and the machine carries the target. */
  predicate Accomplished(start: World, before: seq<Step>, spec: UpgradeSpec, rest: seq<Step>, m: Name)
    requires IsRun(start, before + [OwnerDoes(CreateUpgrade(spec))] + rest)
  {
    var life := before + [OwnerDoes(CreateUpgrade(spec))] + rest;
    PodFinished(start, life, |before| + 1, m, spec.version) && Patched(After(start, life), m, spec)
  }

  ghost predicate SafeForEver(start: World, before: seq<Step>, spec: UpgradeSpec) {
    forall rest: seq<Step>, m: Name :: Clears(start, before, spec, rest) && m in spec.machines ==>
      Accomplished(start, before, spec, rest, m)
  }

  /** An upgrade object that is ready can be deleted and the annotation be cleared. */
  lemma ReadyClears(w0: World, w: World)
    requires Leads(w0, w) && Exposed(w) && Live(w) && w.upgrade.value.finalizer && w.annotation && w.matched
    ensures var w' := w.(upgrade := Some(w.upgrade.value.(deleting := true)), ended := true, paused := false);
            Leads(w0, w') && Guard(w', OwnerDoes(ClearAnnotation))
  {
    hide Leads;
    LeadsStep(w0, w, OwnerDoes(DeleteUpgrade));
    LeadsStep(w0, Apply(w, OwnerDoes(DeleteUpgrade)), OwnerDoes(ResumeCheck));
  }

  lemma UnsafeIfHarmful(start: World, before: seq<Step>, spec: UpgradeSpec, b: nat)
    requires Initial(start) && IsRun(start, before) && OwnerGuard(After(start, before), CreateUpgrade(spec))
    requires forall m :: m in spec.machines ==> m in After(start, before).machines
    requires b < |spec.machines| && !Harmless(After(start, before), spec.machines[b], spec.version)
    ensures !SafeForEver(start, before, spec)
  {
    var w, create := After(start, before), OwnerDoes(CreateUpgrade(spec));
    InitialInv(start);
    RunKeepsInv(start, before);
    var events := LeftoversBreakSafety(w, spec, b);
    hide Inv, AllHarmless, CleanStart, AllDone, AreEvents, Outcome;
    var w0 := Started(w, spec);
    var w1 := Outcome(w0, events);
    LiveIsAnnotated(w1);
    ReadyClears(w0, w1);
    var w2 := w1.(upgrade := Some(w1.upgrade.value.(deleting := true)), ended := true, paused := false);
    var rest: seq<Step> :| IsRun(w0, rest) && NoCreate(rest) && After(w0, rest) == w2;
    assert (before + [create])[..|before|] == before;
    assert IsRun(start, before + [create]) && After(start, before + [create]) == w0;
    RunOn(start, before + [create], rest);
    ClearsAtTheEnd(start, before, spec, rest);
    LifeRecord(start, before, spec, rest, spec.machines[b]);
    assert !Upgraded(w2, spec.machines[b], spec);
    assert Clears(start, before, spec, rest) && !Accomplished(start, before, spec, rest, spec.machines[b]);
  }

  lemma ClearsAtTheEnd(start: World, before: seq<Step>, spec: UpgradeSpec, rest: seq<Step>)
    requires NoCreate(rest) && IsRun(start, before + [OwnerDoes(CreateUpgrade(spec))] + rest)
    requires Guard(After(start, before + [OwnerDoes(CreateUpgrade(spec))] + rest), OwnerDoes(ClearAnnotation))
    ensures Clears(start, before, spec, rest)
  {
    var life := before + [OwnerDoes(CreateUpgrade(spec))] + rest;
    assert (life + [OwnerDoes(ClearAnnotation)])[..|life|] == life;
  }

  /**
   * Every continuation of a new upgrade, under every interleaving and all failures, is
   * safe if and only if what it meets of earlier upgrades is harmless for each machine.
   */
  lemma SafeExactlyIfHarmless(start: World, before: seq<Step>, spec: UpgradeSpec)
    requires Initial(start) && IsRun(start, before) && OwnerGuard(After(start, before), CreateUpgrade(spec))
    requires forall m :: m in spec.machines ==> m in After(start, before).machines
    ensures SafeForEver(start, before, spec) <==> AllHarmless(After(start, before), spec)
  {
    hide Guard, Harmless;
    if AllHarmless(After(start, before), spec) {
      forall rest: seq<Step>, m: Name | Clears(start, before, spec, rest) && m in spec.machines
        ensures Accomplished(start, before, spec, rest, m)
      {
        EndToEndSafety(start, before, spec, rest, m);
      }
    } else {
      var m :| m in spec.machines && !Harmless(After(start, before), m, spec.version);
      var b :| 0 <= b < |spec.machines| && spec.machines[b] == m;
      UnsafeIfHarmful(start, before, spec, b);
    }
  }
}
