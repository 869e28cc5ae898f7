/**
The reconcilers that own an upgrade object: KubeadmControlPlane for the control
plane, MachineDeployment for workers. They pause the machine health check and
create the object; when it is ready they delete it, resume the check and clear the
"in-place-upgrade-needed" annotation.
 */
module OwnerControllers {
  import opened Wrappers
  import opened UpgradeModel
  import opened UpgradeInvariant
  import opened UpgradeInterference
  import opened ApiServers

  // ------------------------------------------------------------------ without failures

  /** The ready upgrade object is deleted, the check resumed, the annotation cleared. */
  function Finished(w: World): World
    requires w.upgrade.Some?
  {
    w.(upgrade := Some(w.upgrade.value.(deleting := true)), ended := true, paused := false, annotation := false)
  }

  /** The check is paused and the upgrade object created. */
  function Started(w: World, desired: UpgradeSpec): World {
    w.(paused := true, upgrade := Some(Upgrade(desired, false, false, false, 0, 0)), life := Some(desired),
       safe := AllHarmless(w, desired), clean := CleanStart(w, desired.machines),
       matched := AllAre(w.observed, desired.version), ended := false, succeeded := {})
  }

  /**
   * One reconcile in which nothing fails and nobody interferes. `valid` says that the
   * owner can be upgraded in place at all.
   */
  function OwnerRound(w: World, desired: UpgradeSpec, valid: bool): World {
    if !w.annotation || !valid then w
    else if w.upgrade.None? then Started(w, desired)
    else if w.upgrade.value.ready && AllAre(w.observed, w.upgrade.value.spec.version) then Finished(w)
    else w
  }

  /** A control plane's upgrade is finished exactly if it is ready and the status version is the target. */
  lemma ControlPlaneFinishesExactly(w: World, desired: UpgradeSpec, stackedEtcd: bool)
    requires Inv(w) && w.role.ControlPlane? && w.annotation
    ensures var w' := OwnerRound(w, desired, stackedEtcd);
            && (!w'.annotation <==>
                && stackedEtcd && w.upgrade.Some? && w.upgrade.value.ready
                && w.observed[0] == Some(w.upgrade.value.spec.version))
            && (w.upgrade.Some? && w.observed[0] != Some(w.upgrade.value.spec.version) ==> w' == w)
  {
  }

  /** A workers' upgrade is finished exactly if it is ready and every listed machine has the target version. */
  lemma WorkersFinishExactly(w: World, desired: UpgradeSpec, hasVersion: bool)
    requires w.role.Workers? && w.annotation
    ensures var w' := OwnerRound(w, desired, hasVersion);
            && (!w'.annotation <==>
                && hasVersion && w.upgrade.Some? && w.upgrade.value.ready
                && forall i :: 0 <= i < |w.observed| ==> w.observed[i] == Some(w.upgrade.value.spec.version))
            && (w.upgrade.Some?
                && (exists i :: 0 <= i < |w.observed| && w.observed[i] != Some(w.upgrade.value.spec.version)) ==>
                  w' == w)
  {
  }

  /** What starting and finishing do, and that nothing else is ever done. */
  lemma OwnerRoundMeans(w: World, desired: UpgradeSpec, valid: bool)
    ensures var w' := OwnerRound(w, desired, valid);
            && (!w.annotation || !valid ==> w' == w)
            && (w.annotation && valid && w.upgrade.None? ==>
                  && w'.upgrade.Some? && w'.upgrade.value.spec == desired
                  && !w'.upgrade.value.ready && !w'.upgrade.value.deleting && !w'.upgrade.value.finalizer
                  && w'.paused && w'.annotation)
            && (w.annotation && !w'.annotation ==> w'.upgrade.Some? && w'.upgrade.value.deleting && !w'.paused)
            && (w.annotation && w'.annotation && w.upgrade.Some? ==> w' == w)
            && w'.nodes == w.nodes && w'.pods == w.pods && w'.machines == w.machines && w'.machineSet == w.machineSet
  {
  }

  // ------------------------------------------------------------------ the reconcilers

  lemma ReadyIsUpgraded(w: World)
    requires Inv(w) && w.safe && w.upgrade.Some? && w.upgrade.value.ready
    ensures AllUpgraded(w, w.upgrade.value.spec)
  {
    assert forall m :: m in w.life.value.machines ==> SafeMachine(w, m, w.life.value);
  }

  /** Deletes the upgrade object that was just read, then resumes the check. */
  method DeleteAndResume(api: ApiServer, u: Upgrade) returns (ok: bool)
    requires api.Valid() && api.w.annotation && api.w.upgrade == Some(u) && u.ready && api.w.matched
    modifies api
    ensures api.Valid()
    ensures ok ==> api.w.annotation && api.w.ended && !Live(api.w) && !api.w.paused && api.w.life == old(api.w.life)
    ensures api.quiet ==> ok && api.w == Finished(old(api.w)).(annotation := true)
  {
    if api.w.safe {
      ReadyIsUpgraded(api.w);
    }
    api.Interfere(Owner);
    if api.w.upgrade.None? {
      return false;
    }
    ok := api.Attempt(OwnerDoes(DeleteUpgrade));
    if !ok {
      return;
    }
    api.Interfere(Owner);
    ok := api.Attempt(OwnerDoes(ResumeCheck));
  }

  lemma PauseKeepsLeftovers(w: World, spec: UpgradeSpec)
    ensures AllHarmless(w.(paused := true), spec) == AllHarmless(w, spec)
    ensures CleanStart(w.(paused := true), spec.machines) == CleanStart(w, spec.machines)
  {
    assert forall m :: Harmless(w.(paused := true), m, spec.version) == Harmless(w, m, spec.version);
  }

  /** Pauses the check, then creates the upgrade object that was not found. */
  method PauseAndCreate(api: ApiServer, desired: UpgradeSpec)
    requires api.Valid() && api.w.annotation && api.w.upgrade.None? && Distinct(desired.machines)
    modifies api
    ensures api.Valid()
    ensures api.quiet ==> api.w == Started(old(api.w), desired)
  {
    PauseKeepsLeftovers(api.w, desired);
    hide Inv, Reaches, AllHarmless, CleanStart, AllUpgraded;
    api.Interfere(Owner);
    var ok := api.Attempt(OwnerDoes(PauseCheck));
    if !ok {
      return;
    }
    api.Interfere(Owner);
    var _ := api.Attempt(OwnerDoes(CreateUpgrade(desired)));
  }

  /** If the owner has seen the target everywhere, then this is on record. */
  predicate OnRecord(w: World, versions: seq<Option<Version>>) {
    w.life.Some? && AllAre(versions, w.life.value.version) ==> w.matched
  }

  /** What a control plane's status says is what has been observed of it. */
  lemma StatusIsObserved(w: World)
    requires Inv(w) && w.role.ControlPlane?
    ensures |w.observed| == 1 && w.observed == [w.observed[0]] && OnRecord(w, [w.observed[0]])
  {
    assert w.observed == [w.observed[0]];
  }

  lemma OneVersion(version: Option<Version>, target: Version)
    ensures AllAre([version], target) <==> version == Some(target)
  {
    assert AllAre([version], target) ==> [version][0] == Some(target);
  }

  class KubeadmControlPlaneReconciler {
    constructor () {}

    /** `desired` is what the owner's spec and the list of its machines say at this moment. */
    method Reconcile(api: ApiServer, desired: UpgradeSpec, stackedEtcd: bool)
      requires api.Valid() && Distinct(desired.machines) && api.w.role.ControlPlane?
      modifies api
      ensures api.Valid()
      ensures api.quiet ==> api.w == OwnerRound(old(api.w), desired, stackedEtcd)
      // the upgrade is finished exactly if it is ready and the status version is its target
      ensures api.quiet && old(api.w).annotation ==>
                var w := old(api.w);
                && (!api.w.annotation <==>
                    && stackedEtcd && w.upgrade.Some? && w.upgrade.value.ready
                    && w.observed == [Some(w.upgrade.value.spec.version)])
                && (w.upgrade.Some? && w.observed != [Some(w.upgrade.value.spec.version)] ==> api.w == w)
    {
      if api.w.annotation {
        StatusIsObserved(api.w);
        ControlPlaneFinishesExactly(api.w, desired, stackedEtcd);
      }
      api.Interfere(Owner);
      var ok := Reachable(api.quiet);
      if !ok || !api.w.annotation {
        return;
      }
      StatusIsObserved(api.w);
      var statusVersion := api.w.observed[0];
      var remove := ReconcileAnnotated(api, desired, stackedEtcd, statusVersion);
      if remove {
        // the deferred patch of the owner
        api.Interfere(Owner);
        var _ := api.Attempt(OwnerDoes(ClearAnnotation));
      }
    }

    method ReconcileAnnotated(api: ApiServer, desired: UpgradeSpec, stackedEtcd: bool, statusVersion: Option<Version>)
      returns (remove: bool)
      requires api.Valid() && api.w.annotation && Distinct(desired.machines) && OnRecord(api.w, [statusVersion])
      modifies api
      ensures api.Valid()
      ensures remove ==> api.w.annotation && api.w.ended && !Live(api.w) && !api.w.paused
      // whatever fails: the annotation is to be removed only if the status version was that of the upgrade
      ensures remove ==> api.w.life.Some? && statusVersion == Some(api.w.life.value.version)
      ensures api.quiet && old(api.w).observed == [statusVersion] ==>
                var r := OwnerRound(old(api.w), desired, stackedEtcd);
                remove == !r.annotation && api.w == r.(annotation := true)
    {
      hide Reaches, AllAre, AllHarmless, CleanStart, AllUpgraded, SafeLife, CleanLife;
      remove := false;
      if !stackedEtcd {
        return;
      }
      var ok := Reachable(api.quiet);  // the health check is read
      if !ok {
        return;
      }
      var got := api.GetUpgrade(Owner);
      match got
      case Found(u) =>
        OneVersion(statusVersion, u.spec.version);
        if u.ready && statusVersion == Some(u.spec.version) {
          remove := DeleteAndResume(api, u);
        }
      case NotFound =>
        ok := Reachable(api.quiet);  // the machines are listed
        if ok {
          PauseAndCreate(api, desired);
        }
      case Failed =>
    }
  }

  class MachineDeploymentReconciler {
    constructor () {}

    static method CheckMachines(versions: seq<Option<Version>>, target: Version) returns (upgraded: bool)
      ensures upgraded <==> forall i :: 0 <= i < |versions| ==> versions[i] == Some(target)
    {
      upgraded := true;
      for i := 0 to |versions|
        invariant upgraded
        invariant forall j :: 0 <= j < i ==> versions[j] == Some(target)
      {
        if versions[i] == None || versions[i].value != target {
          upgraded := false;
          break;
        }
      }
    }

    method Reconcile(api: ApiServer, desired: UpgradeSpec, hasVersion: bool)
      requires api.Valid() && Distinct(desired.machines) && api.w.role.Workers?
      modifies api
      ensures api.Valid()
      ensures api.quiet ==> api.w == OwnerRound(old(api.w), desired, hasVersion)
      // the upgrade is finished exactly if it is ready and every listed machine has its version
      ensures api.quiet && old(api.w).annotation ==>
                var w := old(api.w);
                && (!api.w.annotation <==>
                    && hasVersion && w.upgrade.Some? && w.upgrade.value.ready
                    && forall i :: 0 <= i < |w.observed| ==> w.observed[i] == Some(w.upgrade.value.spec.version))
                && (w.upgrade.Some? && api.w.annotation ==> api.w == w)
    {
      if api.w.annotation {
        WorkersFinishExactly(api.w, desired, hasVersion);
        OwnerRoundMeans(api.w, desired, hasVersion);
      }
      hide Inv, Reaches, AllAre, AllHarmless, CleanStart, AllUpgraded;
      api.Interfere(Owner);
      var ok := Reachable(api.quiet);
      if !ok || !api.w.annotation {
        return;
      }
      var remove, _ := ReconcileAnnotated(api, desired, hasVersion);
      if remove {
        api.Interfere(Owner);
        var _ := api.Attempt(OwnerDoes(ClearAnnotation));
      }
    }

    /** `versions` are those of the machines that the list returned. */
    method ReconcileAnnotated(api: ApiServer, desired: UpgradeSpec, hasVersion: bool)
      returns (remove: bool, versions: seq<Option<Version>>)
      requires api.Valid() && api.w.annotation && Distinct(desired.machines)
      modifies api
      ensures api.Valid()
      ensures remove ==> api.w.annotation && api.w.ended && !Live(api.w) && !api.w.paused
      // whatever fails: the annotation is to be removed only if all listed machines had the version of the upgrade
      ensures remove ==>
                && api.w.life.Some?
                && forall i :: 0 <= i < |versions| ==> versions[i] == Some(api.w.life.value.version)
      ensures api.quiet ==>
                var r := OwnerRound(old(api.w), desired, hasVersion);
                remove == !r.annotation && api.w == r.(annotation := true)
    {
      remove, versions := false, [];
      if !hasVersion {
        return;
      }
      var ok := Reachable(api.quiet);  // the health check is read
      if !ok {
        return;
      }
      api.Interfere(Owner);
      ok := Reachable(api.quiet);  // the machines are listed
      if !ok {
        return;
      }
      versions := api.w.observed;
      var got := api.GetUpgrade(Owner);
      match got
      case Found(u) =>
        var machinesUpgraded := CheckMachines(versions, u.spec.version);
        if machinesUpgraded && u.ready {
          remove := DeleteAndResume(api, u);
        }
      case NotFound => PauseAndCreate(api, desired);
      case Failed =>
    }
  }
}
