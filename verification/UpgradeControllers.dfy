/**
The reconcilers of the upgrade objects: ControlPlaneUpgrade and
MachineDeploymentUpgrade. They create the NodeUpgrades one at a time, count the
completed ones in the status and, on deletion, delete them again.
 */
module UpgradeControllers {
  import opened Wrappers
  import opened UpgradeModel
  import opened UpgradeInvariant
  import opened UpgradeInterference
  import opened ApiServers

  // ------------------------------------------------------------------ without failures

  /** The first machine from index i on whose NodeUpgrade is missing or not completed. */
  function FirstNotDone(w: World, ms: seq<Name>, i: nat): (k: nat)
    requires i <= |ms|
    ensures i <= k <= |ms|
    ensures forall j :: i <= j < k ==> NodeDone(w, ms[j])
    ensures k < |ms| ==> !NodeDone(w, ms[k])
    decreases |ms| - i
  {
    if i < |ms| && NodeDone(w, ms[i]) then FirstNotDone(w, ms, i + 1) else i
  }

  /**
   * The NodeUpgrade of the first machine that is not done gets created if it is
   * missing. The control plane does not look once its upgrade is ready.
   */
  function CreateNext(w: World): World
    requires Inv(w) && Live(w)
  {
    var u := w.upgrade.value;
    var k := FirstNotDone(w, u.spec.machines, 0);
    if u.ready && w.role.ControlPlane? then w
    else if k < |u.spec.machines| && u.spec.machines[k] !in w.nodes then
      assert w.clean ==> MachineInv(w, u.spec.machines[k], u.spec);
      UpgraderApply(w, CreateNode(k))
    else w
  }

  lemma CreateNextChangesNodes(w: World)
    requires Inv(w) && Live(w)
    ensures CreateNext(w) == w.(nodes := CreateNext(w).nodes)
  {
  }

  /**
   * The one NodeUpgrade that a reconcile may create is that of the first machine that is not
   * done, with the target version, and first only at index 0 of a control plane.
   */
  lemma CreateMeans(w: World, k: nat)
    requires Inv(w) && Live(w)
    requires var ms := w.upgrade.value.spec.machines;
             && k <= |ms|
             && (forall j :: 0 <= j < k ==> ms[j] in w.nodes && w.nodes[ms[j]].completed)
             && (k < |ms| && ms[k] in w.nodes ==> !w.nodes[ms[k]].completed)
    ensures var w', u := CreateNext(w), w.upgrade.value;
            if k == |u.spec.machines| || u.spec.machines[k] in w.nodes || (u.ready && w.role.ControlPlane?)
            then w' == w
            else w' == w.(nodes := w.nodes[u.spec.machines[k] :=
                   NodeUpgrade(u.spec.version, w.role.ControlPlane? && k == 0, false, false, false, {}, false)])
  {
    var ms := w.upgrade.value.spec.machines;
    var first := FirstNotDone(w, ms, 0);
    assert first == k;
    hide Inv;
  }

  /** Machine, KubeadmConfig and infrastructure machine get the version and the target data. */
  function PatchAll(w: World, m: Name, data: Data): World
    requires m in w.nodes
  {
    w.(machines := w.machines[m := Machine(w.nodes[m].version, data, data, data)])
  }

  /**
   * Counts the completed NodeUpgrades from index i on. For a control plane the
   * resources of each counted machine are patched; a missing machine is an error.
   */
  function CountDone(w: World, spec: UpgradeSpec, i: nat, count: nat): (World, Option<nat>)
    requires i <= |spec.machines|
    decreases |spec.machines| - i
  {
    if i == |spec.machines| then (w, Some(count))
    else
      var m := spec.machines[i];
      if !NodeDone(w, m) then CountDone(w, spec, i + 1, count)
      else if w.role.Workers? then CountDone(w, spec, i + 1, count + 1)
      else if m !in w.machines then (w, None)
      else CountDone(PatchAll(w, m, spec.data), spec, i + 1, count + 1)
  }

  /** The status that a count leads to. */
  function WithCount(u: Upgrade, count: nat): Upgrade {
    if count > |u.spec.machines| then u
    else u.(upgraded := count, required := |u.spec.machines| - count, ready := count == |u.spec.machines|)
  }

  function UpdatedStatus(w: World, u: Upgrade): (World, Upgrade) {
    var (w', count) := CountDone(w, u.spec, 0, 0);
    if count.None? then (w', u)
    else
      var u' := WithCount(u, count.value);
      (if w'.role.Workers? && u'.ready then w'.(machineSet := u.spec.data) else w', u')
  }

  /** One reconcile of a live upgrade object in which nothing fails and nobody interferes. */
  function UpgradeRound(w: World): World
    requires Inv(w) && Live(w)
  {
    var (w', u) := UpdatedStatus(CreateNext(w), w.upgrade.value.(finalizer := true));
    w'.(upgrade := Some(u))
  }

  /** The same for workers, where decoding the new spec or patching the MachineSet with it may fail without effect. */
  function WorkerRound(w: World, setFails: bool): World
    requires Inv(w) && Live(w)
  {
    var w' := UpgradeRound(w);
    if setFails then w'.(machineSet := w.machineSet) else w'
  }

  /** Deletion is requested for a NodeUpgrade. */
  function ReleaseOne(w: World, m: Name): World {
    if m !in w.nodes then w
    else
      var n := w.nodes[m];
      w.(nodes := if n.finalizer then w.nodes[m := n.(deleting := true)] else w.nodes - {m})
  }

  /** Deletion is requested for every NodeUpgrade from index i on. */
  function ReleaseFrom(w: World, ms: seq<Name>, i: nat): World
    requires i <= |ms|
    decreases |ms| - i
  {
    if i == |ms| then w else ReleaseFrom(ReleaseOne(w, ms[i]), ms, i + 1)
  }

  /** The same for a deleting one: it vanishes with its finalizer. */
  function ReleaseRound(w: World): World
    requires w.upgrade.Some?
  {
    ReleaseFrom(w, w.upgrade.value.spec.machines, 0).(upgrade := None)
  }

  lemma {:induction false} ReleaseChangesNodes(w: World, ms: seq<Name>, i: nat)
    requires i <= |ms|
    ensures ReleaseFrom(w, ms, i) == w.(nodes := ReleaseFrom(w, ms, i).nodes)
    decreases |ms| - i
  {
    if i < |ms| {
      ReleaseChangesNodes(ReleaseOne(w, ms[i]), ms, i + 1);
    }
  }

  /** A NodeUpgrade is deleting, or gone if it had no finalizer. */
  predicate IsReleased(w: World, w': World, m: Name) {
    && (m in w'.nodes <==> m in w.nodes && w.nodes[m].finalizer)
    && (m in w'.nodes ==> w'.nodes[m] == w.nodes[m].(deleting := true))
  }

  predicate IsKept(w: World, w': World, m: Name) {
    (m in w'.nodes <==> m in w.nodes) && (m in w.nodes ==> w'.nodes[m] == w.nodes[m])
  }

  lemma ReleaseOneAt(w: World, x: Name, m: Name)
    ensures if m == x then IsReleased(w, ReleaseOne(w, x), m) else IsKept(w, ReleaseOne(w, x), m)
  {
  }

  lemma ReleasedThen(w: World, w1: World, w2: World, m: Name)
    requires (IsKept(w, w1, m) || IsReleased(w, w1, m)) && (IsKept(w1, w2, m) || IsReleased(w1, w2, m))
    ensures if IsKept(w, w1, m) && IsKept(w1, w2, m) then IsKept(w, w2, m) else IsReleased(w, w2, m)
  {
  }

  lemma {:induction false} ReleasedFrom(w: World, ms: seq<Name>, i: nat, m: Name)
    requires i <= |ms|
    ensures if m in ms[i..] then IsReleased(w, ReleaseFrom(w, ms, i), m) else IsKept(w, ReleaseFrom(w, ms, i), m)
    decreases |ms| - i
  {
    if i < |ms| {
      assert ms[i..] == [ms[i]] + ms[i + 1..];
      var w1 := ReleaseOne(w, ms[i]);
      ReleaseOneAt(w, ms[i], m);
      ReleasedFrom(w1, ms, i + 1, m);
      ReleasedThen(w, w1, ReleaseFrom(w1, ms, i + 1), m);
      hide ReleaseOne, IsKept, IsReleased;
    }
  }

  /**
   * The upgrade object goes, and with it the listed NodeUpgrades: those with a finalizer
   * are deleting, those without are gone. Nothing else changes.
   */
  lemma ReleaseMeans(w: World, m: Name)
    requires w.upgrade.Some?
    ensures var w' := ReleaseRound(w);
            && w' == w.(upgrade := None, nodes := w'.nodes)
            && if m in w.upgrade.value.spec.machines
               then && (m in w'.nodes <==> m in w.nodes && w.nodes[m].finalizer)
                    && (m in w'.nodes ==> w'.nodes[m] == w.nodes[m].(deleting := true))
               else && (m in w'.nodes <==> m in w.nodes)
                    && (m in w.nodes ==> w'.nodes[m] == w.nodes[m])
  {
    var ms := w.upgrade.value.spec.machines;
    ReleaseChangesNodes(w, ms, 0);
    ReleasedFrom(w, ms, 0, m);
    assert ms[0..] == ms;
    hide ReleaseFrom;
  }

  // ------------------------------------------------------------------ local copies

  /** The object on the server still is what was read, except that it may be deleting by now. */
  predicate InSync(w: World, read: Upgrade) {
    && w.upgrade.Some?
    && w.upgrade.value == read.(deleting := w.upgrade.value.deleting)
    && (read.deleting ==> w.upgrade.value.deleting)
    && (w.clean && w.upgrade.value.deleting ==> read.deleting || read.ready)
  }

  /** The first i machines are done as the status promises. */
  predicate DoneUpTo(w: World, spec: UpgradeSpec, i: nat)
    requires i <= |spec.machines|
  {
    forall j :: 0 <= j < i ==>
      Upgraded(w, spec.machines[j], spec) && (w.clean && Live(w) ==> NodeDone(w, spec.machines[j]))
  }

  predicate ReleasedUpTo(w: World, ms: seq<Name>, i: nat)
    requires i <= |ms|
  {
    forall j :: 0 <= j < i ==> ms[j] !in w.nodes || w.nodes[ms[j]].deleting
  }

  lemma SyncStable(w: World, w': World, read: Upgrade)
    requires UpgraderRely(w, w') && InSync(w, read)
    ensures InSync(w', read)
  {
  }

  lemma LiveNodeStays(w: World, w': World, m: Name)
    requires Inv(w) && UpgraderRely(w, w') && Live(w) && Governed(w, m) && NodeDone(w, m)
    ensures NodeDone(w', m)
  {
    assert MachineInv(w, m, w.life.value);
    assert NodeRemains(w.nodes[m], m, w');
  }

  /** The first i machines are done, and nobody has asked to delete their NodeUpgrades. */
  predicate HeldUpTo(w: World, ms: seq<Name>, i: nat)
    requires i <= |ms|
  {
    forall j :: 0 <= j < i ==> NodeDone(w, ms[j]) && !w.nodes[ms[j]].deleting
  }

  /** What the creation loop knows about the machines. */
  predicate Created(w: World, u: Upgrade, i: nat)
    requires i <= |u.spec.machines|
  {
    w.clean ==> HeldUpTo(w, u.spec.machines, i) && (u.ready ==> HeldUpTo(w, u.spec.machines, |u.spec.machines|))
  }

  lemma HeldStable(w: World, w': World, ms: seq<Name>, i: nat)
    requires Inv(w) && UpgraderRely(w, w') && w.clean && w.upgrade.Some? && w.upgrade.value.spec.machines == ms
    requires i <= |ms| && HeldUpTo(w, ms, i)
    ensures HeldUpTo(w', ms, i)
  {
    forall j | 0 <= j < i
      ensures NodeDone(w', ms[j]) && !w'.nodes[ms[j]].deleting
    {
      assert Governed(w, ms[j]) && NodeRemains(w.nodes[ms[j]], ms[j], w');
    }
  }

  lemma CreatedStable(w: World, w': World, u: Upgrade, i: nat)
    requires Inv(w) && UpgraderRely(w, w') && InSync(w, u) && i <= |u.spec.machines| && Created(w, u, i)
    ensures Created(w', u, i)
  {
    if w.clean {
      HeldStable(w, w', u.spec.machines, i);
      if u.ready {
        HeldStable(w, w', u.spec.machines, |u.spec.machines|);
      }
    }
  }

  /** A live upgrade that is ready holds all its NodeUpgrades. */
  lemma ReadyHolds(w: World, u: Upgrade)
    requires Inv(w) && w.upgrade == Some(u) && !u.deleting
    ensures Created(w, u, 0)
  {
    if w.clean {
      assert forall j :: 0 <= j < |u.spec.machines| ==> MachineInv(w, u.spec.machines[j], u.spec);
    }
  }

  lemma DoneUpToStable(w: World, w': World, spec: UpgradeSpec, i: nat)
    requires Inv(w) && UpgraderRely(w, w') && w.safe && w.upgrade.Some? && w.upgrade.value.spec == spec
    requires i <= |spec.machines| && DoneUpTo(w, spec, i)
    ensures DoneUpTo(w', spec, i)
  {
    forall j | 0 <= j < i && w'.clean && Live(w')
      ensures NodeDone(w', spec.machines[j])
    {
      LiveNodeStays(w, w', spec.machines[j]);
    }
  }

  lemma ReleasedStable(w: World, w': World, ms: seq<Name>, i: nat)
    requires UpgraderRely(w, w') && w.upgrade.Some? && i <= |ms| && ReleasedUpTo(w, ms, i)
    ensures ReleasedUpTo(w', ms, i)
  {
    forall j | 0 <= j < i && ms[j] in w'.nodes
      ensures w'.nodes[ms[j]].deleting
    {
      assert NodeRemains(w.nodes[ms[j]], ms[j], w');
    }
  }

  // ------------------------------------------------------------------ creating NodeUpgrades

  /** The loop over the machines: stops at the first one that is not done. */
  method CreateNodes(api: ApiServer, u: Upgrade)
    requires api.Valid() && InSync(api.w, u) && !u.deleting && Created(api.w, u, 0)
    requires u.ready ==> api.w.role.Workers?
    modifies api
    ensures api.Valid() && InSync(api.w, u)
    ensures api.quiet && Live(old(api.w)) ==> api.w == CreateNext(old(api.w))
  {
    var ms := u.spec.machines;
    for i := 0 to |ms|
      invariant api.Valid() && InSync(api.w, u) && Created(api.w, u, i)
      invariant api.quiet ==> api.w == old(api.w) && FirstNotDone(api.w, ms, 0) == FirstNotDone(api.w, ms, i)
    {
      var more := CreateNodeOf(api, u, i);
      if !more {
        return;
      }
    }
  }

  /** Goes on to the next machine only if this one is done. */
  method CreateNodeOf(api: ApiServer, u: Upgrade, i: nat) returns (more: bool)
    requires api.Valid() && InSync(api.w, u) && !u.deleting && i < |u.spec.machines| && Created(api.w, u, i)
    modifies api
    ensures api.Valid() && InSync(api.w, u)
    ensures more ==> Created(api.w, u, i + 1)
    ensures api.quiet ==>
              var m, w := u.spec.machines[i], old(api.w);
              && (more <==> NodeDone(w, m))
              && (m in w.nodes ==> api.w == w)
              && (m !in w.nodes ==> UpgraderGuard(w, CreateNode(i)) && api.w == UpgraderApply(w, CreateNode(i)))
  {
    var m := u.spec.machines[i];
    var got := api.GetNode(Upgrader, m);
    CreatedStable(old(api.w), api.w, u, i);
    if got.NotFound? {
      ghost var before := api.w;
      api.Interfere(Upgrader);
      CreatedStable(before, api.w, u, i);
      var _ := api.Attempt(UpgraderDoes(CreateNode(i)));
      return false;
    }
    more := got.Found? && got.value.completed;
    if more && api.w.clean {
      assert MachineInv(api.w, m, u.spec);
    }
  }

  // ------------------------------------------------------------------ deleting NodeUpgrades

  function Release(w: World, m: Name): World {
    if m !in w.nodes then w
    else
      var n := w.nodes[m];
      w.(nodes := if n.finalizer then w.nodes[m := n.(deleting := true)] else w.nodes - {m})
  }

  predicate Releasing(w: World, u: Upgrade, i: nat)
    requires i <= |u.spec.machines|
  {
    InSync(w, u) && ReleasedUpTo(w, u.spec.machines, i)
  }

  lemma ReleasingStable(w: World, w': World, u: Upgrade, i: nat)
    requires UpgraderRely(w, w') && i <= |u.spec.machines| && Releasing(w, u, i)
    ensures Releasing(w', u, i)
  {
    ReleasedStable(w, w', u.spec.machines, i);
  }

  lemma ReleasingStep(w: World, u: Upgrade, i: nat)
    requires u.deleting && i < |u.spec.machines| && Releasing(w, u, i)
    ensures var m := u.spec.machines[i];
            if m in w.nodes then
              && Guard(w, UpgraderDoes(DeleteNode(m)))
              && var w' := Apply(w, UpgraderDoes(DeleteNode(m)));
              && Releasing(w', u, i) && Releasing(w', u, i + 1) && w' == Release(w, m)
            else Releasing(w, u, i + 1) && w == Release(w, m)
  {
  }

  method DeleteNodeOf(api: ApiServer, u: Upgrade, i: nat) returns (ok: bool)
    requires api.Valid() && u.deleting && i < |u.spec.machines| && Releasing(api.w, u, i)
    modifies api
    ensures api.Valid() && Releasing(api.w, u, if ok then i + 1 else i)
    ensures api.quiet ==> ok && api.w == Release(old(api.w), u.spec.machines[i])
  {
    hide Inv, Reaches, UpgraderRely, Releasing, Release, Guard, Apply;
    var m := u.spec.machines[i];
    var got := api.GetNode(Upgrader, m);
    ReleasingStable(old(api.w), api.w, u, i);
    ReleasingStep(api.w, u, i);
    match got
    case NotFound => return true;
    case Failed => return false;
    case Found(n) =>
      ghost var before := api.w;
      api.Interfere(Upgrader);
      ReleasingStable(before, api.w, u, i);
      ReleasingStep(api.w, u, i);
      if m !in api.w.nodes {
        return false;
      }
      ok := api.Attempt(UpgraderDoes(DeleteNode(m)));
  }

  method DeleteNodes(api: ApiServer, u: Upgrade) returns (ok: bool)
    requires api.Valid() && InSync(api.w, u) && u.deleting
    modifies api
    ensures api.Valid() && InSync(api.w, u)
    ensures ok ==> NodesReleased(api.w, u.spec)
    ensures api.quiet ==> ok && api.w == ReleaseFrom(old(api.w), u.spec.machines, 0)
  {
    hide Inv, Reaches;
    for i := 0 to |u.spec.machines|
      invariant api.Valid() && Releasing(api.w, u, i)
      invariant api.quiet ==> ReleaseFrom(old(api.w), u.spec.machines, 0) == ReleaseFrom(api.w, u.spec.machines, i)
    {
      ok := DeleteNodeOf(api, u, i);
      if !ok {
        return;
      }
    }
    ok := true;
  }

  // ------------------------------------------------------------------ status

  /** Between the two worlds the reconciler itself changed nothing but this machine's resources. */
  predicate ResourceRely(w: World, w': World, m: Name) {
    && UpgradeRemains(w, w')
    && w.upgrade.Some?
    && w'.machines.Keys == w.machines.Keys
    && (forall m' :: m' in w.machines && m' != m ==> w'.machines[m'] == w.machines[m'])
  }

  function PatchedBy(machine: Machine, s: UpgraderStep, data: Data): Machine
    requires s.PatchMachine? || s.PatchKubeadmConfig? || s.PatchInfraMachine?
  {
    match s
    case PatchMachine(_, version) => machine.(version := version, clusterConfig := data)
    case PatchKubeadmConfig(_) => machine.(kubeadmConfig := data)
    case PatchInfraMachine(_) => machine.(infraTemplate := data)
  }

  /** The object read is still in sync, and only this machine's resources were touched. */
  predicate ResourceDone(w: World, w': World, m: Name, u: Upgrade) {
    InSync(w', u) && ResourceRely(w, w', m)
  }

  predicate IsResourcePatch(s: UpgraderStep, m: Name) {
    s == PatchKubeadmConfig(m) || s == PatchInfraMachine(m) || (s.PatchMachine? && s.m == m)
  }

  /** A completed NodeUpgrade of the machine was read, so its resources may be patched to this version. */
  predicate MayPatch(w: World, u: Upgrade, m: Name, version: Version) {
    w.safe ==> version == u.spec.version && (m, u.spec.version) in w.succeeded
  }

  lemma ResourceInterfered(w: World, before: World, m: Name, u: Upgrade)
    requires UpgraderRely(w, before) && InSync(w, u)
    ensures ResourceDone(w, before, m, u)
  {
  }

  lemma ResourceStep(before: World, s: UpgraderStep, m: Name, u: Upgrade)
    requires UpgraderGuard(before, s) && InSync(before, u) && IsResourcePatch(s, m)
    ensures var w' := UpgraderApply(before, s);
            && ResourceDone(before, w', m, u)
            && w' == before.(machines := before.machines[m := PatchedBy(before.machines[m], s, u.spec.data)])
  {
    match s
    case PatchMachine(_, _) =>
    case PatchKubeadmConfig(_) =>
    case PatchInfraMachine(_) =>
  }

  /** A patch of this machine's resources after some interference, seen from the reconciler. */
  lemma ResourcePatch(w: World, before: World, s: UpgraderStep, m: Name, u: Upgrade, version: Version)
    requires UpgraderRely(w, before) && InSync(w, u) && m in w.machines && IsResourcePatch(s, m)
    requires MayPatch(w, u, m, version) && (s.PatchMachine? ==> s.version == version)
    ensures Guard(before, UpgraderDoes(s))
    ensures ResourceDone(w, before, m, u) && InSync(before, u) && m in before.machines
            && MayPatch(before, u, m, version)
    ensures var w' := Apply(before, UpgraderDoes(s));
            && ResourceDone(w, w', m, u) && InSync(w', u) && m in w'.machines && MayPatch(w', u, m, version)
            && w'.machines[m] == PatchedBy(w.machines[m], s, u.spec.data)
            && w' == before.(machines := w'.machines)
  {
    ResourceInterfered(w, before, m, u);
    PatchIsGuarded(w, before, s, m, u, version);
    hide UpgraderRely, ResourceRely, NodeRemains, UpgraderGuard, UpgraderApply, InSync, IsResourcePatch, PatchedBy;
    ResourceStep(before, s, m, u);
    ResourceDoneTransitive(w, before, UpgraderApply(before, s), m, u);
  }

  lemma PatchIsGuarded(w: World, before: World, s: UpgraderStep, m: Name, u: Upgrade, version: Version)
    requires UpgraderRely(w, before) && InSync(w, u) && m in w.machines && IsResourcePatch(s, m)
    requires MayPatch(w, u, m, version) && (s.PatchMachine? ==> s.version == version)
    ensures UpgraderGuard(before, s) && InSync(before, u) && before.machines == w.machines
            && MayPatch(before, u, m, version)
  {
    hide NodeRemains;
    match s
    case PatchMachine(_, _) =>
    case PatchKubeadmConfig(_) =>
    case PatchInfraMachine(_) =>
  }

  lemma ResourceRelyTransitive(w: World, w': World, w'': World, m: Name)
    requires ResourceRely(w, w', m) && ResourceRely(w', w'', m)
    ensures ResourceRely(w, w'', m)
  {
    forall m' | Governed(w, m') && m' in w.nodes
      ensures NodeRemains(w.nodes[m'], m', w'')
    {
      assert NodeRemains(w.nodes[m'], m', w');
      if m' in w'.nodes {
        assert NodeRemains(w'.nodes[m'], m', w'');
      }
    }
  }

  method PatchResource(api: ApiServer, u: Upgrade, m: Name, s: UpgraderStep, ghost version: Version) returns (ok: bool)
    requires api.Valid() && InSync(api.w, u) && m in api.w.machines && IsResourcePatch(s, m)
    requires MayPatch(api.w, u, m, version) && (s.PatchMachine? ==> s.version == version)
    modifies api
    ensures api.Valid() && InSync(api.w, u) && ResourceDone(old(api.w), api.w, m, u)
    ensures m in api.w.machines && MayPatch(api.w, u, m, version)
    ensures ok ==> api.w.machines[m] == PatchedBy(old(api.w).machines[m], s, u.spec.data)
    ensures api.quiet ==> ok && api.w == old(api.w).(machines := api.w.machines)
  {
    hide Inv, Reaches, Guard, Apply, UpgraderRely, InSync, ResourceDone, IsResourcePatch, MayPatch, PatchedBy;
    api.Interfere(Upgrader);
    ResourcePatch(old(api.w), api.w, s, m, u, version);
    ok := api.Attempt(UpgraderDoes(s));
  }

  /** The machine is read. */
  method GetMachine(api: ApiServer, u: Upgrade, m: Name, ghost version: Version) returns (found: bool)
    requires api.Valid() && InSync(api.w, u) && MayPatch(api.w, u, m, version)
    modifies api
    ensures api.Valid() && InSync(api.w, u) && ResourceDone(old(api.w), api.w, m, u) && MayPatch(api.w, u, m, version)
    ensures found ==> m in api.w.machines
    ensures api.quiet ==> api.w == old(api.w) && (found <==> m in api.w.machines)
  {
    hide Inv, Reaches;
    api.Interfere(Upgrader);
    found := Reachable(api.quiet);
    found := found && m in api.w.machines;
  }

  lemma ResourceDoneTransitive(w: World, w': World, w'': World, m: Name, u: Upgrade)
    requires ResourceDone(w, w', m, u) && ResourceDone(w', w'', m, u)
    ensures ResourceDone(w, w'', m, u)
  {
    ResourceRelyTransitive(w, w', w'', m);
  }

  /** Patches the Machine, then its KubeadmConfig, then its infrastructure machine. */
  method UpdateResources(api: ApiServer, u: Upgrade, m: Name, n: NodeUpgrade) returns (ok: bool)
    requires api.Valid() && InSync(api.w, u) && MayPatch(api.w, u, m, n.version)
    modifies api
    ensures api.Valid() && InSync(api.w, u) && ResourceDone(old(api.w), api.w, m, u)
    ensures ok ==> m in api.w.machines && api.w.machines[m] == Machine(n.version, u.spec.data, u.spec.data, u.spec.data)
    ensures api.quiet ==> (ok <==> m in old(api.w).machines) && api.w == old(api.w).(machines := api.w.machines)
  {
    hide Inv, Reaches, InSync, ResourceDone, MayPatch;
    ok := GetMachine(api, u, m, n.version);
    if ok {
      ghost var w0 := api.w;
      ok := PatchResource(api, u, m, PatchMachine(m, n.version), n.version);
      ResourceDoneTransitive(old(api.w), w0, api.w, m, u);
      if ok {
        w0 := api.w;
        ok := PatchResource(api, u, m, PatchKubeadmConfig(m), n.version);
        ResourceDoneTransitive(old(api.w), w0, api.w, m, u);
        if ok {
          w0 := api.w;
          ok := PatchResource(api, u, m, PatchInfraMachine(m), n.version);
          ResourceDoneTransitive(old(api.w), w0, api.w, m, u);
        }
      }
    }
  }

  lemma DoneUpToResource(w: World, w': World, spec: UpgradeSpec, i: nat)
    requires Inv(w) && w.safe && w.upgrade.Some? && w.upgrade.value.spec == spec
    requires i < |spec.machines| && ResourceRely(w, w', spec.machines[i]) && DoneUpTo(w, spec, i)
    ensures DoneUpTo(w', spec, i)
  {
    forall j | 0 <= j < i && w'.clean && Live(w')
      ensures NodeDone(w', spec.machines[j])
    {
      assert MachineInv(w, spec.machines[j], spec);
      assert NodeRemains(w.nodes[spec.machines[j]], spec.machines[j], w');
    }
  }

  lemma DoneUpToNext(w: World, w': World, spec: UpgradeSpec, i: nat)
    requires Inv(w) && w.safe && w.upgrade.Some? && w.upgrade.value.spec == spec
    requires i < |spec.machines| && ResourceRely(w, w', spec.machines[i]) && DoneUpTo(w, spec, i)
    requires NodeDone(w, spec.machines[i]) && Patched(w', spec.machines[i], spec)
    ensures DoneUpTo(w', spec, i + 1)
  {
    DoneUpToResource(w, w', spec, i);
    var m := spec.machines[i];
    assert SafeMachine(w, m, spec);
    if w.clean {
      assert MachineInv(w, m, spec) && NodeRemains(w.nodes[m], m, w');
    }
  }

  predicate SameLife(w: World, w': World) {
    w'.safe == w.safe && w'.clean == w.clean && (Live(w') ==> Live(w))
  }

  lemma CompletedMayPatch(w: World, u: Upgrade, i: nat)
    requires Inv(w) && InSync(w, u) && i < |u.spec.machines| && NodeDone(w, u.spec.machines[i])
    ensures w.role.ControlPlane? ==> MayPatch(w, u, u.spec.machines[i], w.nodes[u.spec.machines[i]].version)
  {
    if w.safe {
      assert SafeMachine(w, u.spec.machines[i], u.spec);
    }
  }

  /** The resources of a completed machine were patched, or some of them. */
  lemma CompletedPatched(w: World, w': World, u: Upgrade, i: nat)
    requires Inv(w) && InSync(w, u) && i < |u.spec.machines| && NodeDone(w, u.spec.machines[i])
    requires ResourceDone(w, w', u.spec.machines[i], u)
    ensures SameLife(w, w')
    ensures var m := u.spec.machines[i];
            w.safe && DoneUpTo(w, u.spec, i)
            && (w.role.ControlPlane? ==>
                  && m in w'.machines
                  && w'.machines[m] == Machine(w.nodes[m].version, u.spec.data, u.spec.data, u.spec.data))
            ==> DoneUpTo(w', u.spec, i + 1)
    ensures u.spec.machines[i] !in w.machines ==> w'.machines == w.machines
    ensures var m := u.spec.machines[i]; m in w'.machines ==> w'.machines == w.machines[m := w'.machines[m]]
  {
    var m := u.spec.machines[i];
    CompletedMayPatch(w, u, i);
    if w.safe && DoneUpTo(w, u.spec, i) && Patched(w', m, u.spec) {
      DoneUpToNext(w, w', u.spec, i);
    }
  }

  /** A completed NodeUpgrade was read: a control plane patches the machine's resources. */
  method CountCompleted(api: ApiServer, u: Upgrade, i: nat, node: NodeUpgrade) returns (ok: bool)
    requires api.Valid() && InSync(api.w, u) && i < |u.spec.machines|
    requires u.spec.machines[i] in api.w.nodes && api.w.nodes[u.spec.machines[i]] == node && node.completed
    modifies api
    ensures api.Valid() && InSync(api.w, u)
    ensures api.w.safe && ok && DoneUpTo(old(api.w), u.spec, i) ==> DoneUpTo(api.w, u.spec, i + 1)
    ensures SameLife(old(api.w), api.w)
    ensures api.quiet ==>
              var m, w := u.spec.machines[i], old(api.w);
              && (ok <==> w.role.ControlPlane? ==> m in w.machines)
              && api.w == if ok && w.role.ControlPlane? then PatchAll(w, m, u.spec.data) else w
  {
    hide Inv, Reaches, MayPatch, ResourceRely, ResourceDone, InSync, DoneUpTo;
    var m := u.spec.machines[i];
    CompletedMayPatch(api.w, u, i);
    ResourceUnchanged(api.w, m, u);
    ok := true;
    if api.w.role.ControlPlane? {
      ok := UpdateResources(api, u, m, node);
    }
    CompletedPatched(old(api.w), api.w, u, i);
  }

  lemma ResourceUnchanged(w: World, m: Name, u: Upgrade)
    requires InSync(w, u)
    ensures ResourceDone(w, w, m, u)
  {
  }

  /** The interference before a read of the status loop. */
  lemma CountStable(w: World, w': World, u: Upgrade, i: nat, n: nat)
    requires Inv(w) && Inv(w') && UpgraderRely(w, w') && InSync(w, u) && n <= i < |u.spec.machines|
    requires w.safe && n == i ==> DoneUpTo(w, u.spec, i)
    ensures InSync(w', u) && SameLife(w, w')
    ensures w'.safe && n == i ==> DoneUpTo(w', u.spec, i)
    ensures w'.clean && Live(w') && u.ready ==> NodeDone(w', u.spec.machines[i])
  {
    if w.safe && n == i {
      DoneUpToStable(w, w', u.spec, i);
    }
    ReadyStays(w', u);
  }

  /** One machine of the status loop: the new count, or nothing after an error. */
  method CountOne(api: ApiServer, u: Upgrade, i: nat, n: nat) returns (count: Option<nat>)
    requires api.Valid() && InSync(api.w, u) && i < |u.spec.machines| && n <= i
    requires api.w.safe && n == i ==> DoneUpTo(api.w, u.spec, i)
    modifies api
    ensures api.Valid() && InSync(api.w, u)
    ensures SameLife(old(api.w), api.w)
    ensures count.Some? ==> count == Some(n) || count == Some(n + 1)
    ensures api.w.safe && count == Some(i + 1) ==> DoneUpTo(api.w, u.spec, i + 1)
    ensures api.w.clean && Live(api.w) && u.ready && count.Some? ==> count == Some(n + 1)
    ensures api.quiet ==>
              CountDone(old(api.w), u.spec, i, n) ==
              if count.Some? then CountDone(api.w, u.spec, i + 1, count.value) else (api.w, None)
  {
    hide Inv, Reaches, UpgraderRely, InSync, DoneUpTo;
    var m := u.spec.machines[i];
    var got := api.GetNode(Upgrader, m);
    CountStable(old(api.w), api.w, u, i, n);
    if got.Found? && got.value.completed {
      var ok := CountCompleted(api, u, i, got.value);
      count := if ok then Some(n + 1) else None;
    } else {
      count := if got.Failed? then None else Some(n);
    }
  }

  /** The status loop. */
  method CountNodes(api: ApiServer, u: Upgrade) returns (count: Option<nat>)
    requires api.Valid() && InSync(api.w, u)
    modifies api
    ensures api.Valid() && InSync(api.w, u)
    ensures count.Some? ==> count.value <= |u.spec.machines|
    ensures api.w.safe && count == Some(|u.spec.machines|) ==> DoneUpTo(api.w, u.spec, |u.spec.machines|)
    ensures api.w.clean && Live(api.w) && u.ready && count.Some? ==> count == Some(|u.spec.machines|)
    ensures api.quiet ==> (api.w, count) == CountDone(old(api.w), u.spec, 0, 0)
  {
    hide Inv;
    count := Some(0);
    for i := 0 to |u.spec.machines|
      invariant api.Valid() && InSync(api.w, u)
      invariant count.Some? && count.value <= i
      invariant api.w.safe && count == Some(i) ==> DoneUpTo(api.w, u.spec, i)
      invariant api.w.clean && Live(api.w) && u.ready ==> count == Some(i)
      invariant api.quiet ==> CountDone(old(api.w), u.spec, 0, 0) == CountDone(api.w, u.spec, i, count.value)
    {
      count := CountOne(api, u, i, count.value);
      if count.None? {
        return;
      }
    }
  }

  lemma {:induction false} CountKeepsUpgrade(w: World, spec: UpgradeSpec, i: nat, count: nat)
    requires i <= |spec.machines|
    ensures CountDone(w, spec, i, count).0 == w.(machines := CountDone(w, spec, i, count).0.machines)
    decreases |spec.machines| - i
  {
    if i < |spec.machines| {
      var m := spec.machines[i];
      if !NodeDone(w, m) {
        CountKeepsUpgrade(w, spec, i + 1, count);
      } else if w.role.Workers? {
        CountKeepsUpgrade(w, spec, i + 1, count + 1);
      } else if m in w.machines {
        CountKeepsUpgrade(PatchAll(w, m, spec.data), spec, i + 1, count + 1);
      }
    }
  }

  /** What the status written by the deferred patch must be backed by. */
  predicate StatusEarned(w: World, read: Upgrade, u: Upgrade) {
    && u.spec == read.spec
    && u.deleting == read.deleting
    && Counters(|u.spec.machines|, u.ready, u.upgraded, u.required)
    && (w.clean && Live(w) && read.ready ==> u.ready)
    && (w.safe && u.ready ==> read.ready || DoneUpTo(w, u.spec, |u.spec.machines|))
  }

  /** An object that is ready has been earned. */
  lemma ReadyStays(w: World, read: Upgrade)
    requires Inv(w) && InSync(w, read)
    ensures w.safe && read.ready ==> AllUpgraded(w, read.spec)
    ensures w.clean && read.ready && Live(w) ==> AllNodesDone(w, read.spec.machines)
  {
    if w.safe {
      assert forall m :: m in read.spec.machines ==> SafeMachine(w, m, read.spec);
    }
    if w.clean {
      assert forall m :: m in read.spec.machines ==> MachineInv(w, m, read.spec);
    }
  }

  /** The patch still meets its guard when it arrives. */
  lemma PatchStillEarned(w: World, w': World, read: Upgrade, u: Upgrade)
    requires Inv(w) && Inv(w') && UpgraderRely(w, w') && InSync(w, read) && StatusEarned(w, read, u)
    requires (u.finalizer || u.deleting) && (!u.finalizer ==> NodesReleased(w, u.spec))
    ensures InSync(w', read)
    ensures UpgraderGuard(w', PatchUpgrade(u.finalizer, u.ready, u.upgraded, u.required))
  {
    if !u.finalizer {
      ReleasedStable(w, w', u.spec.machines, |u.spec.machines|);
      assert NodesReleased(w', u.spec);
    }
    if w.safe && u.ready && !read.ready {
      DoneUpToStable(w, w', u.spec, |u.spec.machines|);
    }
    ReadyStays(w', read);
    hide Inv, UpgraderRely;
  }

  /** The deferred patch: finalizer and status together. */
  method PatchObject(api: ApiServer, read: Upgrade, u: Upgrade)
    requires api.Valid() && InSync(api.w, read) && StatusEarned(api.w, read, u)
    requires u.finalizer || u.deleting
    requires !u.finalizer ==> NodesReleased(api.w, u.spec)
    modifies api
    ensures api.Valid()
    ensures api.quiet ==>
              api.w == old(api.w).(upgrade :=
                         if u.deleting && !u.finalizer then None
                         else Some(u.(deleting := old(api.w).upgrade.value.deleting)))
  {
    hide Inv, Reaches, UpgraderRely, UpgraderGuard;
    api.Interfere(Upgrader);
    PatchStillEarned(old(api.w), api.w, read, u);
    var _ := api.Attempt(UpgraderDoes(PatchUpgrade(u.finalizer, u.ready, u.upgraded, u.required)));
  }

  // ------------------------------------------------------------------ the reconcilers

  class ControlPlaneUpgradeReconciler {
    constructor () {}

    method UpdateStatus(api: ApiServer, read: Upgrade, u: Upgrade) returns (u': Upgrade)
      requires api.Valid() && InSync(api.w, read) && u == read.(finalizer := u.finalizer)
      modifies api
      ensures api.Valid() && InSync(api.w, read) && StatusEarned(api.w, read, u') && u'.finalizer == u.finalizer
      ensures u.deleting && !u.finalizer ==> api.w == old(api.w) && u' == u
      ensures api.quiet && old(api.w).role.ControlPlane? && (u.finalizer || !u.deleting) ==>
                (api.w, u') == UpdatedStatus(old(api.w), u) && api.w.upgrade == old(api.w).upgrade
    {
      CountKeepsUpgrade(api.w, u.spec, 0, 0);
      u' := u;
      if u.deleting && !u.finalizer {
        return;
      }
      var count := CountNodes(api, read);
      if count.Some? {
        u' := WithCount(u, count.value);
      }
    }

    method Reconcile(api: ApiServer)
      requires api.Valid() && api.w.role.ControlPlane?
      modifies api
      ensures api.Valid()
      ensures api.quiet && old(api.w).upgrade.None? ==> api.w == old(api.w)
      ensures api.quiet && Live(old(api.w)) ==> api.w == UpgradeRound(old(api.w))
      ensures api.quiet && old(api.w).upgrade.Some? && !Live(old(api.w)) ==> api.w == ReleaseRound(old(api.w))
    {
      var got := api.GetUpgrade(Upgrader);
      if !got.Found? {
        return;
      }
      var read := got.value;
      var u := read;
      if read.deleting {
        var ok := DeleteNodes(api, read);
        u := u.(finalizer := u.finalizer && !ok);
      } else {
        u := u.(finalizer := true);
        ReconcileLive(api, read);
      }
      u := UpdateStatus(api, read, u);
      PatchObject(api, read, u);
    }

    /** The kube-vip config map and the remote cluster are outside the model: they work or fail. */
    method ReconcileLive(api: ApiServer, read: Upgrade)
      requires api.Valid() && InSync(api.w, read) && !read.deleting && api.w.role.ControlPlane?
      modifies api
      ensures api.Valid() && InSync(api.w, read)
      ensures api.quiet && Live(old(api.w)) ==> api.w == CreateNext(old(api.w))
    {
      var ok := Reachable(api.quiet);  // client of the remote cluster
      if !ok || read.ready {
        return;
      }
      ok := Reachable(api.quiet);  // namespace
      if !ok {
        return;
      }
      ok := Reachable(api.quiet);  // kube-vip config map
      if !ok {
        return;
      }
      CreateNodes(api, read);
    }
  }

  /** All machines are done as far as the leftovers allow to say so. */
  predicate MayPatchSet(w: World, read: Upgrade) {
    InSync(w, read) && (w.safe ==> DoneUpTo(w, read.spec, |read.spec.machines|))
  }

  lemma MayPatchSetStable(w: World, w': World, read: Upgrade)
    requires Inv(w) && UpgraderRely(w, w') && MayPatchSet(w, read)
    ensures MayPatchSet(w', read)
  {
    if w.safe {
      DoneUpToStable(w, w', read.spec, |read.spec.machines|);
    }
    hide Inv, DoneUpTo, NodeRemains;
  }

  lemma PatchSetStep(w: World, read: Upgrade)
    requires MayPatchSet(w, read)
    ensures Guard(w, UpgraderDoes(PatchMachineSet))
    ensures Apply(w, UpgraderDoes(PatchMachineSet)) == w.(machineSet := read.spec.data)
    ensures MayPatchSet(w.(machineSet := read.spec.data), read)
  {
    var w', ms := w.(machineSet := read.spec.data), read.spec.machines;
    if w.safe {
      assert forall j :: 0 <= j < |ms| ==> Upgraded(w, ms[j], read.spec) ==> Upgraded(w', ms[j], read.spec);
    }
  }

  /** What a count of the nodes justifies. */
  lemma CountEarns(w: World, read: Upgrade, u: Upgrade, count: Option<nat>)
    requires Inv(w) && InSync(w, read) && u == read.(finalizer := u.finalizer)
    requires count.Some? ==> count.value <= |u.spec.machines|
    requires w.safe && count == Some(|u.spec.machines|) ==> DoneUpTo(w, u.spec, |u.spec.machines|)
    requires w.clean && Live(w) && read.ready && count.Some? ==> count == Some(|u.spec.machines|)
    ensures var u' := if count.Some? then WithCount(u, count.value) else u;
            StatusEarned(w, read, u') && (count.Some? && u'.ready ==> MayPatchSet(w, read))
  {
    assert Accounts(w);
    hide Inv, DoneUpTo;
  }

  /** All machines being done is enough for the status to say ready. */
  lemma SetEarns(counted: World, w: World, read: Upgrade, u: Upgrade)
    requires StatusEarned(counted, read, u) && MayPatchSet(w, read) && u.ready
    ensures StatusEarned(w, read, u)
  {
  }

  class MachineDeploymentUpgradeReconciler {
    constructor () {}

    /**
     * The status says ready even when the MachineSet could not be patched; an update
     * without an error has patched it. `setFails` makes the update of the MachineSet
     * fail before it takes effect.
     */
    method UpdateStatus(api: ApiServer, read: Upgrade, u: Upgrade, setFails: bool) returns (u': Upgrade, ok: bool)
      requires api.Valid() && InSync(api.w, read) && u == read.(finalizer := u.finalizer)
      modifies api
      ensures api.Valid() && InSync(api.w, read) && StatusEarned(api.w, read, u') && u'.finalizer == u.finalizer
      ensures u.deleting && !u.finalizer ==> api.w == old(api.w) && u' == u
      ensures ok && u'.ready && (u.finalizer || !u.deleting) ==> api.w.machineSet == read.spec.data
      ensures api.quiet && old(api.w).role.Workers? && (u.finalizer || !u.deleting) ==>
                var (w, u'') := UpdatedStatus(old(api.w), u);
                u' == u'' && api.w == (if setFails then w.(machineSet := old(api.w).machineSet) else w)
                && api.w.upgrade == old(api.w).upgrade
    {
      hide Inv, Reaches, DoneUpTo, InSync, StatusEarned, CountDone;
      CountKeepsUpgrade(api.w, u.spec, 0, 0);
      u', ok := u, true;
      CountEarns(api.w, read, u, None);
      if u.deleting && !u.finalizer {
        return;
      }
      var count := CountNodes(api, read);
      CountEarns(api.w, read, u, count);
      if count.None? {
        ok := false;
      } else {
        u' := WithCount(u, count.value);
        if u'.ready {
          ghost var counted := api.w;
          ok := PatchSet(api, read, setFails);
          SetEarns(counted, api.w, read, u');
        }
      }
    }

    method PatchSet(api: ApiServer, read: Upgrade, setFails: bool) returns (ok: bool)
      requires api.Valid() && MayPatchSet(api.w, read)
      modifies api
      ensures api.Valid() && MayPatchSet(api.w, read)
      ensures ok ==> api.w.machineSet == read.spec.data
      ensures api.quiet ==> api.w == if setFails then old(api.w) else old(api.w).(machineSet := read.spec.data)
    {
      if setFails {
        return false;
      }
      hide Inv, Reaches, UpgraderRely, MayPatchSet, Guard, Apply;
      api.Interfere(Upgrader);
      MayPatchSetStable(old(api.w), api.w, read);
      PatchSetStep(api.w, read);
      ok := api.Attempt(UpgraderDoes(PatchMachineSet));
    }

    method Reconcile(api: ApiServer, setFails: bool)
      requires api.Valid() && api.w.role.Workers?
      modifies api
      ensures api.Valid()
      ensures api.quiet && old(api.w).upgrade.None? ==> api.w == old(api.w)
      ensures api.quiet && Live(old(api.w)) ==> api.w == WorkerRound(old(api.w), setFails)
      ensures api.quiet && old(api.w).upgrade.Some? && !Live(old(api.w)) ==> api.w == ReleaseRound(old(api.w))
    {
      if Live(api.w) {
        CreateNextChangesNodes(api.w);
      }
      hide Reaches, NodeRemains, DoneUpTo, StatusEarned, CountDone, CreateNext, ReleaseFrom, NodesReleased;
      var got := api.GetUpgrade(Upgrader);
      if !got.Found? {
        return;
      }
      var ok := Reachable(api.quiet);  // the MachineDeployment and its current MachineSet
      if !ok {
        return;
      }
      var read := got.value;
      var u := read;
      if read.deleting {
        ok := DeleteNodes(api, read);
        u := u.(finalizer := u.finalizer && !ok);
      } else {
        u := u.(finalizer := true);
        ReadyHolds(api.w, read);
        CreateNodes(api, read);
      }
      u, ok := UpdateStatus(api, read, u, setFails);
      PatchObject(api, read, u);
    }
  }
}
