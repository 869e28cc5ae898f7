/**
Progress of a clean life when nothing fails: rounds in which every reconciler runs
once and every running pod gets one container further lead to a ready upgrade, in a
number of rounds linear in the number of machines.
 */
module UpgradeProgress {
  import opened Wrappers
  import opened UpgradeModel
  import opened UpgradeInvariant
  import opened UpgradeControllers
  import opened NodeUpgradeController
  import opened OwnerControllers

  // ------------------------------------------------------------------ the upgrade object's part

  /** A clean life in progress, whose machines all exist. */
  predicate InProgress(w: World, spec: UpgradeSpec) {
    && Inv(w)
    && w.clean
    && Live(w)
    && w.upgrade.value.spec == spec
    && (forall m :: m in spec.machines ==> m in w.machines)
  }

  predicate EarnedUpTo(w: World, spec: UpgradeSpec, i: nat)
    requires i <= |spec.machines|
  {
    forall j :: 0 <= j < i ==> NodeDone(w, spec.machines[j]) && Patched(w, spec.machines[j], spec)
  }

  lemma PatchAllKeeps(w: World, spec: UpgradeSpec, i: nat)
    requires InProgress(w, spec) && w.role.ControlPlane?
    requires i < |spec.machines| && NodeDone(w, spec.machines[i])
    ensures InProgress(PatchAll(w, spec.machines[i], spec.data), spec)
    ensures EarnedUpTo(w, spec, i) ==> EarnedUpTo(PatchAll(w, spec.machines[i], spec.data), spec, i + 1)
  {
    var m := spec.machines[i];
    var w' := PatchAll(w, m, spec.data);
    assert MachineInv(w, m, spec);
    forall m' | m' in spec.machines
      ensures MachineInv(w', m', spec)
    {
      assert MachineInv(w, m', spec);
    }
  }

  lemma {:induction false} CountKeeps(w: World, spec: UpgradeSpec, i: nat, n: nat)
    requires InProgress(w, spec) && n <= i <= |spec.machines|
    requires n == i ==> EarnedUpTo(w, spec, i)
    ensures var (w', count) := CountDone(w, spec, i, n);
            && InProgress(w', spec)
            && w' == w.(machines := w'.machines)
            && count.Some?
            && count.value <= |spec.machines|
            && (count == Some(|spec.machines|) ==> EarnedUpTo(w', spec, |spec.machines|))
            && (count == Some(|spec.machines|) <==>
              n == i && forall j :: i <= j < |spec.machines| ==> NodeDone(w, spec.machines[j]))
    decreases |spec.machines| - i
  {
    if i < |spec.machines| {
      var m := spec.machines[i];
      if !NodeDone(w, m) {
        CountKeeps(w, spec, i + 1, n);
      } else if w.role.Workers? {
        CountKeeps(w, spec, i + 1, n + 1);
      } else {
        PatchAllKeeps(w, spec, i);
        CountKeeps(PatchAll(w, m, spec.data), spec, i + 1, n + 1);
      }
    }
  }

  lemma CreateNextKeeps(w: World, spec: UpgradeSpec)
    requires InProgress(w, spec)
    ensures InProgress(CreateNext(w), spec)
    ensures CreateNext(w) == w.(nodes := CreateNext(w).nodes)
  {
    var k := FirstNotDone(w, spec.machines, 0);
    if CreateNext(w) != w {
      assert MachineInv(w, spec.machines[k], spec);
      UpgraderStepKeepsInv(w, CreateNode(k));
    }
  }

  /** One reconcile of the upgrade object: it stays in progress, and it is ready exactly when all nodes are done. */
  lemma UpgradeRoundKeeps(w: World, spec: UpgradeSpec)
    requires InProgress(w, spec)
    ensures var w' := UpgradeRound(w);
            && InProgress(w', spec)
            && w'.nodes == CreateNext(w).nodes
            && w'.pods == w.pods
            && (w'.upgrade.value.ready <==> AllNodesDone(CreateNext(w), spec.machines))
  {
    assert Inv(w) && Live(w);
    hide InProgress, CountDone, Inv, EarnedUpTo, AllNodesDone;
    CreateNextKeeps(w, spec);
    var w1 := CreateNext(w);
    StatusKeeps(w1, spec);
    var (w2, count) := CountDone(w1, spec, 0, 0);
    var u := WithCount(w1.upgrade.value.(finalizer := true), count.value);
    StatusPatch(if w1.role.Workers? && u.ready then w2.(machineSet := spec.data) else w2, spec, u);
  }

  /** The status that is counted is earned. */
  lemma StatusKeeps(w1: World, spec: UpgradeSpec)
    requires InProgress(w1, spec)
    ensures w1.upgrade.Some? && w1.upgrade.value.spec == spec && CountDone(w1, spec, 0, 0).1.Some?
    ensures var (w2, count) := CountDone(w1, spec, 0, 0);
            var u := WithCount(w1.upgrade.value.(finalizer := true), count.value);
            var w3 := if w1.role.Workers? && u.ready then w2.(machineSet := spec.data) else w2;
            && InProgress(w3, spec)
            && w2 == w1.(machines := w2.machines)
            && (u.ready <==> AllNodesDone(w1, spec.machines))
            && (u.ready ==> EarnedUpTo(w3, spec, |spec.machines|))
            && (w1.upgrade.value.ready ==> u.ready)
            && Counters(|spec.machines|, u.ready, u.upgraded, u.required)
  {
    CountKeeps(w1, spec, 0, 0);
    var (w2, count) := CountDone(w1, spec, 0, 0);
    var u := WithCount(w1.upgrade.value.(finalizer := true), count.value);
    NewMachineSetKeeps(w2, spec);
    assert AllNodesDone(w1, spec.machines) <==> forall j :: 0 <= j < |spec.machines| ==> NodeDone(w1, spec.machines[j]);
    if w1.upgrade.value.ready {
      assert forall m :: m in spec.machines ==> MachineInv(w1, m, spec);
    }
  }

  lemma NewMachineSetKeeps(w: World, spec: UpgradeSpec)
    requires InProgress(w, spec)
    ensures InProgress(w.(machineSet := spec.data), spec)
  {
    var w' := w.(machineSet := spec.data);
    assert forall m :: m in spec.machines ==> SafeMachine(w, m, spec) ==> SafeMachine(w', m, spec);
    assert forall m :: m in spec.machines ==> MachineInv(w, m, spec) ==> MachineInv(w', m, spec);
  }

  /** The deferred patch of a fault-free round. */
  lemma StatusPatch(w: World, spec: UpgradeSpec, u: Upgrade)
    requires InProgress(w, spec)
    requires u == w.upgrade.value.(finalizer := true, ready := u.ready,
                                   upgraded := u.upgraded, required := u.required)
    requires (w.upgrade.value.ready ==> u.ready) && (u.ready ==> EarnedUpTo(w, spec, |spec.machines|))
    requires Counters(|spec.machines|, u.ready, u.upgraded, u.required)
    ensures InProgress(w.(upgrade := Some(u)), spec)
  {
    var s := PatchUpgrade(true, u.ready, u.upgraded, u.required);
    if u.ready {
      forall m | m in spec.machines
        ensures NodeDone(w, m) && Upgraded(w, m, spec)
      {
        assert SafeMachine(w, m, spec);
      }
    }
    UpgraderStepKeepsInv(w, s);
    assert UpgraderApply(w, s) == w.(upgrade := Some(u));
  }

  // ------------------------------------------------------------------ the counters

  /** The listed machines from index i on whose NodeUpgrade is completed. */
  function DoneFrom(w: World, ms: seq<Name>, i: nat): set<int> {
    set j | i <= j < |ms| && NodeDone(w, ms[j])
  }

  lemma DoneFromNext(w: World, ms: seq<Name>, i: nat)
    requires i < |ms|
    ensures |DoneFrom(w, ms, i)| == |DoneFrom(w, ms, i + 1)| + (if NodeDone(w, ms[i]) then 1 else 0)
  {
    var rest := DoneFrom(w, ms, i + 1);
    assert i !in rest;
    assert DoneFrom(w, ms, i) == if NodeDone(w, ms[i]) then {i} + rest else rest;
  }

  /** A done machine of a control plane is missing, so that the count fails. */
  predicate MissingFrom(w: World, ms: seq<Name>, i: nat) {
    w.role.ControlPlane? && exists j :: i <= j < |ms| && NodeDone(w, ms[j]) && ms[j] !in w.machines
  }

  lemma PatchAllKeepsDone(w: World, m: Name, data: Data, ms: seq<Name>, i: nat)
    requires m in w.nodes && m in w.machines
    ensures DoneFrom(PatchAll(w, m, data), ms, i) == DoneFrom(w, ms, i)
    ensures MissingFrom(PatchAll(w, m, data), ms, i) <==> MissingFrom(w, ms, i)
  {
    var w' := PatchAll(w, m, data);
    assert forall x :: (NodeDone(w', x) <==> NodeDone(w, x)) && (x in w'.machines <==> x in w.machines);
  }

  /** The count is the number of done machines, unless one of them is missing. */
  lemma {:induction false} CountIsNumber(w: World, spec: UpgradeSpec, i: nat, n: nat)
    requires i <= |spec.machines|
    ensures var count := CountDone(w, spec, i, n).1;
            && (count.None? <==> MissingFrom(w, spec.machines, i))
            && (count.Some? ==> count.value == n + |DoneFrom(w, spec.machines, i)|)
    ensures |DoneFrom(w, spec.machines, i)| <= |spec.machines| - i
    decreases |spec.machines| - i
  {
    if i == |spec.machines| {
      assert DoneFrom(w, spec.machines, i) == {};
    } else {
      var m := spec.machines[i];
      DoneFromNext(w, spec.machines, i);
      hide DoneFrom;
      if NodeDone(w, m) && w.role.ControlPlane? && m in w.machines {
        PatchAllKeepsDone(w, m, spec.data, spec.machines, i + 1);
        CountIsNumber(PatchAll(w, m, spec.data), spec, i + 1, n + 1);
      } else {
        CountIsNumber(w, spec, i + 1, if NodeDone(w, m) then n + 1 else n);
      }
    }
  }

  /**
   * The status after a reconcile counts the machines whose NodeUpgrade is completed and the
   * others, and is ready if there are no others. It stays as it was only if a completed
   * machine of a control plane does not exist.
   */
  lemma StatusCounts(w: World, setFails: bool)
    requires Inv(w) && Live(w)
    ensures var w' := WorkerRound(w, setFails);
            && w'.upgrade.Some?
            && var u, ms := w'.upgrade.value, w.upgrade.value.spec.machines;
            var done := set i | 0 <= i < |ms| && ms[i] in w'.nodes && w'.nodes[ms[i]].completed;
            if w.role.ControlPlane? && exists i :: i in done && ms[i] !in w.machines
            then u == w.upgrade.value.(finalizer := true)
            else
              && u.upgraded == |done|
              && u.upgraded + u.required == |ms|
              && (u.ready <==> u.required == 0)
              && u == w.upgrade.value.(finalizer := true, upgraded := u.upgraded, required := u.required,
                                       ready := u.ready)
  {
    var w1 := CreateNext(w);
    CreateNextChangesNodes(w);
    CountedStatus(w1, w.upgrade.value.(finalizer := true));
    var w', ms := WorkerRound(w, setFails), w.upgrade.value.spec.machines;
    var done := set i | 0 <= i < |ms| && ms[i] in w'.nodes && w'.nodes[ms[i]].completed;
    hide Inv, CreateNext, UpdatedStatus;
    assert w'.nodes == w1.nodes && w1.machines == w.machines;
    assert done == DoneFrom(w1, ms, 0);
    assert MissingFrom(w1, ms, 0) <==> w.role.ControlPlane? && exists i :: i in done && ms[i] !in w.machines;
    hide DoneFrom, MissingFrom;
  }

  lemma CountedStatus(w: World, u: Upgrade)
    ensures var (w', u') := UpdatedStatus(w, u);
            && w' == w.(machines := w'.machines, machineSet := w'.machineSet)
            && if MissingFrom(w, u.spec.machines, 0) then u' == u
               else
                 && u'.upgraded == |DoneFrom(w, u.spec.machines, 0)|
                 && u'.upgraded + u'.required == |u.spec.machines|
                 && (u'.ready <==> u'.required == 0)
                 && u' == u.(upgraded := u'.upgraded, required := u'.required, ready := u'.ready)
  {
    CountKeepsUpgrade(w, u.spec, 0, 0);
    CountIsNumber(w, u.spec, 0, 0);
    hide CountDone, DoneFrom, MissingFrom;
  }

  // ------------------------------------------------------------------ the NodeUpgrades' part

  /** Both worlds have the same NodeUpgrade and the same pod for a machine. */
  predicate SameAt(w: World, w': World, m: Name) {
    && (m in w.nodes <==> m in w'.nodes)
    && (m in w.nodes ==> w'.nodes[m] == w.nodes[m])
    && (m in w.pods <==> m in w'.pods)
    && (m in w.pods ==> w'.pods[m] == w.pods[m])
  }

  lemma NodeRoundIsLocal(w: World, w': World, m: Name)
    requires SameAt(w, w', m) && w.role == w'.role
    ensures SameAt(NodeRound(w, m), NodeRound(w', m), m)
    ensures forall m' :: m' != m ==> SameAt(w, NodeRound(w, m), m')
  {
  }

  lemma NodeRoundKeepsMachine(w: World, spec: UpgradeSpec, m: Name)
    requires InProgress(w, spec) && m in spec.machines && m in w.nodes
    ensures MachineInv(NodeRound(w, m), m, spec)
    ensures m in NodeRound(w, m).nodes && (w.nodes[m].completed ==> NodeRound(w, m).nodes[m].completed)
  {
    assert MachineInv(w, m, spec);
    var n := w.nodes[m];
    if m !in w.pods && !n.completed && UpgraderPodCreated !in n.conditions {
      FreshPodIsNotDone(n.version, PodKindFor(w.role, n.first));
    }
  }

  lemma NodeRoundKeeps(w: World, spec: UpgradeSpec, m: Name)
    requires InProgress(w, spec) && m in spec.machines
    ensures InProgress(NodeRound(w, m), spec)
    ensures NodeRound(w, m) == w.(nodes := NodeRound(w, m).nodes, pods := NodeRound(w, m).pods)
  {
    if m in w.nodes {
      var w' := NodeRound(w, m);
      NodeRoundKeepsMachine(w, spec, m);
      NodeRoundIsLocal(w, w, m);
      forall m' | m' in spec.machines && m' != m
        ensures MachineInv(w', m', spec)
      {
        assert MachineInv(w, m', spec) && SameAt(w, w', m');
      }
      assert MachineInv(w, m, spec);
      assert OneAtATime(w', spec.machines) by {
        forall i, j | 0 <= i < j < |spec.machines| && spec.machines[j] in w'.nodes
          ensures NodeDone(w', spec.machines[i])
        {
          assert spec.machines[j] in w.nodes;
          assert NodeDone(w, spec.machines[i]);
        }
      }
    }
  }

  /** The NodeUpgrades of the first i machines are reconciled once. */
  function NodeRounds(w: World, ms: seq<Name>, i: nat): World
    requires i <= |ms|
  {
    if i == 0 then w else NodeRound(NodeRounds(w, ms, i - 1), ms[i - 1])
  }

  lemma {:induction false} NodeRoundsKeep(w: World, spec: UpgradeSpec, i: nat)
    requires InProgress(w, spec) && i <= |spec.machines|
    ensures var w' := NodeRounds(w, spec.machines, i);
            InProgress(w', spec) && w' == w.(nodes := w'.nodes, pods := w'.pods)
  {
    if i > 0 {
      NodeRoundsKeep(w, spec, i - 1);
      NodeRoundKeeps(NodeRounds(w, spec.machines, i - 1), spec, spec.machines[i - 1]);
    }
  }

  lemma NodeRoundKeepsRole(w: World, m: Name)
    ensures NodeRound(w, m).role == w.role
  {
  }

  /** Each machine sees its own reconcile only. */
  lemma {:induction false} NodeRoundsAt(w: World, ms: seq<Name>, i: nat, j: nat)
    requires Distinct(ms) && i <= |ms| && j < |ms|
    ensures NodeRounds(w, ms, i).role == w.role
    ensures SameAt(NodeRounds(w, ms, i), if j < i then NodeRound(w, ms[j]) else w, ms[j])
  {
    if i > 0 {
      NodeRoundsAt(w, ms, i - 1, j);
      var before := NodeRounds(w, ms, i - 1);
      NodeRoundKeepsRole(before, ms[i - 1]);
      if j == i - 1 {
        NodeRoundIsLocal(before, w, ms[j]);
      } else {
        NodeRoundIsLocal(before, before, ms[i - 1]);
        assert SameAt(before, NodeRound(before, ms[i - 1]), ms[j]);
      }
    }
  }

  // ------------------------------------------------------------------ the containers' part

  function Unfinished(pod: Pod): nat {
    |set c: Component | !Succeeded(pod, c)|
  }

  lemma UnfinishedBounds(pod: Pod)
    ensures Unfinished(pod) <= 6
    ensures Unfinished(pod) == 0 <==> AllDone(pod)
  {
    var all := {Copier, Containerd, CniPlugins, Kubeadm, Kubelet, PostUpgrade};
    var open := set c: Component | !Succeeded(pod, c);
    forall c | c in open
      ensures c in all
    {
      match c case Copier => case Containerd => case CniPlugins => case Kubeadm => case Kubelet => case PostUpgrade =>
    }
    SubsetSize(open, all);
    if Unfinished(pod) == 0 {
      forall c: Component
        ensures Succeeded(pod, c)
      {
        assert c !in open;
      }
    }
    if AllDone(pod) {
      assert open == {};
    }
  }

  lemma SubsetSize(a: set<Component>, b: set<Component>)
    requires a <= b
    ensures |a| <= |b|
  {
    if a != {} {
      var c :| c in a;
      SubsetSize(a - {c}, b - {c});
    }
  }

  /** Every listed pod that is not done gets at least one container further; nothing is lost. */
  predicate Advance(w: World, w': World, ms: seq<Name>) {
    && w' == w.(pods := w'.pods, succeeded := w'.succeeded)
    && w'.pods.Keys == w.pods.Keys
    && w.succeeded <= w'.succeeded
    && (forall m :: m in w.pods ==> KeepsExitZero(w.pods[m], w'.pods[m]))
    && (forall m :: m in ms && m in w.pods ==>
          && w'.pods[m].version == w.pods[m].version
          && w'.pods[m].kind == w.pods[m].kind
          && w'.pods[m].deleting == w.pods[m].deleting
          && (!AllDone(w.pods[m]) ==> Unfinished(w'.pods[m]) < Unfinished(w.pods[m]))
          && (AllDone(w'.pods[m]) ==> (m, w.pods[m].version) in w'.succeeded))
  }

  lemma AdvanceKeeps(w: World, w': World, spec: UpgradeSpec)
    requires InProgress(w, spec) && Advance(w, w', spec.machines)
    ensures InProgress(w', spec)
  {
    forall m | m in spec.machines
      ensures MachineInv(w', m, spec)
    {
      assert MachineInv(w, m, spec);
    }
    forall i, j | 0 <= i < j < |spec.machines| && spec.machines[j] in w'.nodes
      ensures NodeDone(w', spec.machines[i])
    {
      assert NodeDone(w, spec.machines[i]);
    }
  }

  // ------------------------------------------------------------------ the measure

  /** How far a machine is from being done, in rounds. */
  function Distance(w: World, m: Name): nat {
    if m !in w.nodes then 10
    else if w.nodes[m].completed then 0
    else if m in w.pods then 1 + Unfinished(w.pods[m])
    else if UpgraderPodCreated in w.nodes[m].conditions then 9
    else 8
  }

  function Total(w: World, ms: seq<Name>): nat {
    if ms == [] then 0 else Distance(w, ms[0]) + Total(w, ms[1..])
  }

  /** One fault-free round. */
  predicate Round(w: World, w': World, spec: UpgradeSpec)
    requires InProgress(w, spec)
  {
    Advance(NodeRounds(UpgradeRound(w), spec.machines, |spec.machines|), w', spec.machines)
  }

  /** What a reconcile of the NodeUpgrade and one container's progress do to the distance. */
  lemma NodeRoundDistance(w: World, m: Name)
    requires m in w.nodes && !w.nodes[m].deleting
    requires w.nodes[m].completed && m in w.pods ==> AllDone(w.pods[m])
    ensures Distance(NodeRound(w, m), m) <= Distance(w, m)
    ensures !w.nodes[m].completed && (m !in w.pods || AllDone(w.pods[m])) ==>
              Distance(NodeRound(w, m), m) < Distance(w, m)
    ensures !w.nodes[m].completed && m in w.pods && !AllDone(w.pods[m]) ==>
              m in NodeRound(w, m).pods && !AllDone(NodeRound(w, m).pods[m]) && !NodeRound(w, m).nodes[m].completed
  {
    if m in w.pods {
      UnfinishedBounds(w.pods[m]);
    }
    if m in NodeRound(w, m).pods {
      UnfinishedBounds(NodeRound(w, m).pods[m]);
    }
  }

  lemma AdvanceDistance(w: World, w': World, ms: seq<Name>, m: Name)
    requires Advance(w, w', ms) && m in ms
    ensures Distance(w', m) <= Distance(w, m)
    ensures m in w.nodes && !w.nodes[m].completed && m in w.pods && !AllDone(w.pods[m]) ==>
              Distance(w', m) < Distance(w, m)
  {
    if m in w.pods {
      UnfinishedBounds(w.pods[m]);
      UnfinishedBounds(w'.pods[m]);
      assert AllDone(w.pods[m]) ==> AllDone(w'.pods[m]);
    }
  }

  lemma SameDistance(w: World, w': World, m: Name)
    requires SameAt(w, w', m)
    ensures Distance(w', m) == Distance(w, m)
  {
  }

  /** The distance of one machine never grows in a round, and that of the first machine not done shrinks. */
  lemma RoundDistance(w: World, w': World, spec: UpgradeSpec, j: nat)
    requires InProgress(w, spec) && Round(w, w', spec) && j < |spec.machines|
    ensures Distance(w', spec.machines[j]) <= Distance(w, spec.machines[j])
    ensures j == FirstNotDone(w, spec.machines, 0) ==> Distance(w', spec.machines[j]) < Distance(w, spec.machines[j])
  {
    var ms, m := spec.machines, spec.machines[j];
    var w1 := UpgradeRound(w);
    UpgradeRoundKeeps(w, spec);
    assert MachineInv(w, m, spec) && MachineInv(w1, m, spec);
    UpgradeRoundDistance(w, spec, j);
    var w2 := NodeRounds(w1, ms, |ms|);
    NodeRoundsAt(w1, ms, |ms|, j);
    SameDistance(w2, NodeRound(w1, m), m);
    AdvanceDistance(w2, w', ms, m);
    if m in w1.nodes {
      NodeRoundDistance(w1, m);
    }
  }

  /** The upgrade object's reconcile creates at most the NodeUpgrade of the first machine not done. */
  lemma UpgradeRoundDistance(w: World, spec: UpgradeSpec, j: nat)
    requires InProgress(w, spec) && j < |spec.machines|
    ensures var w', m := UpgradeRound(w), spec.machines[j];
            && Distance(w', m) <= Distance(w, m)
            && (j == FirstNotDone(w, spec.machines, 0) ==> m in w'.nodes && !w'.nodes[m].completed)
  {
    UpgradeRoundKeeps(w, spec);
    CreateNextKeeps(w, spec);
    var ms := spec.machines;
    var k := FirstNotDone(w, ms, 0);
    assert MachineInv(w, ms[j], spec);
    if k < |ms| {
      assert MachineInv(w, ms[k], spec);
    }
  }

  lemma {:induction false} TotalShrinks(w: World, w': World, ms: seq<Name>, k: nat)
    requires forall j :: 0 <= j < |ms| ==> Distance(w', ms[j]) <= Distance(w, ms[j])
    requires k < |ms| ==> Distance(w', ms[k]) < Distance(w, ms[k])
    ensures Total(w', ms) <= Total(w, ms)
    ensures k < |ms| ==> Total(w', ms) < Total(w, ms)
  {
    if ms != [] {
      TotalShrinks(w, w', ms[1..], if k == 0 then |ms| else k - 1);
    }
  }

  lemma {:induction false} TotalZero(w: World, ms: seq<Name>)
    ensures Total(w, ms) <= 10 * |ms|
    ensures Total(w, ms) == 0 <==> AllNodesDone(w, ms)
  {
    if ms != [] {
      TotalZero(w, ms[1..]);
      assert ms == [ms[0]] + ms[1..];
      assert AllNodesDone(w, ms) <==> NodeDone(w, ms[0]) && AllNodesDone(w, ms[1..]);
      if ms[0] in w.nodes && ms[0] in w.pods {
        UnfinishedBounds(w.pods[ms[0]]);
      }
    }
  }

  /** Each fault-free round of an unfinished upgrade strictly decreases the measure. */
  lemma RoundDecreases(w: World, w': World, spec: UpgradeSpec)
    requires InProgress(w, spec) && Round(w, w', spec)
    ensures InProgress(w', spec)
    ensures Total(w', spec.machines) <= Total(w, spec.machines)
    ensures !AllNodesDone(w, spec.machines) ==> Total(w', spec.machines) < Total(w, spec.machines)
    ensures AllNodesDone(w, spec.machines) ==> w'.upgrade.value.ready
  {
    var ms := spec.machines;
    UpgradeRoundKeeps(w, spec);
    NodeRoundsKeep(UpgradeRound(w), spec, |ms|);
    AdvanceKeeps(NodeRounds(UpgradeRound(w), ms, |ms|), w', spec);
    forall j | 0 <= j < |ms|
      ensures Distance(w', ms[j]) <= Distance(w, ms[j])
      ensures j == FirstNotDone(w, ms, 0) ==> Distance(w', ms[j]) < Distance(w, ms[j])
    {
      RoundDistance(w, w', spec, j);
    }
    TotalShrinks(w, w', ms, FirstNotDone(w, ms, 0));
  }

  predicate Rounds(ws: seq<World>, spec: UpgradeSpec) {
    && ws != []
    && InProgress(ws[0], spec)
    && (forall i :: 0 <= i < |ws| - 1 && InProgress(ws[i], spec) ==> Round(ws[i], ws[i + 1], spec))
  }

  lemma {:induction false} TotalAfter(ws: seq<World>, spec: UpgradeSpec, i: nat)
    requires Rounds(ws, spec) && i < |ws|
    ensures InProgress(ws[i], spec)
    ensures Total(ws[i], spec.machines) == 0 || Total(ws[i], spec.machines) + i <= 10 * |spec.machines|
  {
    TotalZero(ws[i], spec.machines);
    if i > 0 {
      TotalAfter(ws, spec, i - 1);
      TotalZero(ws[i - 1], spec.machines);
      RoundDecreases(ws[i - 1], ws[i], spec);
    }
  }

  /** From any point of a clean life, ten rounds per machine and one more make the upgrade ready. */
  lemma ReadyInLinearlyManyRounds(ws: seq<World>, spec: UpgradeSpec)
    requires Rounds(ws, spec) && |ws| > 10 * |spec.machines| + 1
    ensures Live(ws[|ws| - 1]) && ws[|ws| - 1].upgrade.value.ready
  {
    var i := |ws| - 2;
    TotalAfter(ws, spec, i);
    TotalZero(ws[i], spec.machines);
    RoundDecreases(ws[i], ws[i + 1], spec);
  }

  /** A pod that is lost before completion is there again after two reconciles of its NodeUpgrade. */
  lemma LostPodIsRecreated(w: World, m: Name)
    requires m in w.nodes && !w.nodes[m].deleting && !w.nodes[m].completed && m !in w.pods
    ensures m in NodeRound(NodeRound(w, m), m).pods
    ensures var pod := NodeRound(NodeRound(w, m), m).pods[m];
            && pod.version == w.nodes[m].version && !pod.deleting
            && (w.role.Workers? ==> pod.kind == WorkerPod)
            && (w.role.ControlPlane? && w.nodes[m].first ==> pod.kind == FirstControlPlanePod)
            && (w.role.ControlPlane? && !w.nodes[m].first ==> pod.kind == SecondaryControlPlanePod)
  {
  }

  // ------------------------------------------------------------------ without a clean start

  /** A new upgrade is called ready by its very first reconcile exactly when all its machines were left over as done. */
  lemma ReadyAtOnceOnlyWithLeftovers(w: World, desired: UpgradeSpec)
    requires Inv(w) && w.annotation && w.upgrade.None? && Distinct(desired.machines)
    requires forall m :: m in desired.machines ==> m in w.machines
    ensures var w1 := Started(w, desired);
            && Inv(w1) && Live(w1)
            && UpgradeRound(w1).upgrade.Some?
            && (UpgradeRound(w1).upgrade.value.ready <==> AllNodesDone(w, desired.machines))
  {
    StartedKeepsInv(w, desired);
    var w1 := Started(w, desired);
    hide Inv, AllHarmless, CleanStart;
    CountExact(CreateNext(w1), desired, 0, 0);
    SameNodesDone(w, CreateNext(w1), desired.machines);
  }

  /** Pausing the check and creating the upgrade object. */
  lemma StartedKeepsInv(w: World, desired: UpgradeSpec)
    requires Inv(w) && w.annotation && w.upgrade.None? && Distinct(desired.machines)
    ensures Inv(Started(w, desired)) && Live(Started(w, desired))
  {
    var wp := OwnerApply(w, PauseCheck);
    OwnerStepKeepsInv(w, PauseCheck);
    OwnerStepKeepsInv(wp, CreateUpgrade(desired));
    PauseKeepsLeftovers(w, desired);
    hide Inv, AllHarmless, CleanStart;
    assert Started(w, desired) == OwnerApply(wp, CreateUpgrade(desired));
  }

  /** Creating a NodeUpgrade does not make more machines done. */
  lemma SameNodesDone(w: World, w': World, ms: seq<Name>)
    requires forall m :: m in w'.nodes && (m !in w.nodes || w'.nodes[m] != w.nodes[m]) ==> !w'.nodes[m].completed
    requires forall m :: m in w.nodes ==> m in w'.nodes && w'.nodes[m] == w.nodes[m]
    ensures AllNodesDone(w', ms) <==> AllNodesDone(w, ms)
    ensures AllNodesDone(w, ms) <==> forall j :: 0 <= j < |ms| ==> NodeDone(w', ms[j])
  {
    forall m | m in ms
      ensures NodeDone(w', m) <==> NodeDone(w, m)
    {
    }
  }

  lemma {:induction false} CountExact(w: World, spec: UpgradeSpec, i: nat, n: nat)
    requires n <= i <= |spec.machines|
    requires forall m :: m in spec.machines ==> m in w.machines
    ensures var (w', count) := CountDone(w, spec, i, n);
            && count.Some?
            && count.value <= |spec.machines|
            && (count == Some(|spec.machines|) <==>
              n == i && forall j :: i <= j < |spec.machines| ==> NodeDone(w, spec.machines[j]))
    decreases |spec.machines| - i
  {
    if i < |spec.machines| {
      var m := spec.machines[i];
      if !NodeDone(w, m) {
        CountExact(w, spec, i + 1, n);
      } else if w.role.Workers? {
        CountExact(w, spec, i + 1, n + 1);
      } else {
        CountExact(PatchAll(w, m, spec.data), spec, i + 1, n + 1);
      }
    }
  }
}
