/**
The templates of a control plane over any number of rounds: those that the
KubeadmControlPlane refers to and, with external etcd, those that the EtcdadmCluster
refers to. Both kinds live in one name space.

In a round the objects are written in the order control plane, its machine template,
etcd cluster, its machine template, and the round may stop after any write. So a
template is never written without its owner, and nothing is ever overwritten.
 */
module ControlPlaneHistory {
  import opened Wrappers
  import opened Names
  import opened TemplateHistory
  import opened TemplateNames

  datatype Plane<M> = Plane(templates: map<string, M>, controlPlane: Option<string>, etcd: Option<string>) {
    function ControlPlaneSlot(): Slot<M> {
      Slot(templates, controlPlane)
    }

    function EtcdSlot(): Slot<M> {
      Slot(templates, etcd)
    }
  }

  /** What a round wants; without external etcd there is no etcd template. */
  datatype PlaneRound<M> = PlaneRound(machine: M, etcd: Option<M>, writes: nat)

  datatype Bases = Bases(controlPlane: string, etcd: string)

  /** The names for the two templates. A new control plane means that etcd is not looked at. */
  function PlaneNames<M(==)>(p: Plane<M>, bases: Bases, r: PlaneRound<M>): Option<(string, string)> {
    var default := DefaultObjectName(bases.etcd);
    var machine := NewName(p.ControlPlaneSlot(), DefaultObjectName(bases.controlPlane), r.machine);
    var etcd := if p.controlPlane.None? || r.etcd.None? then Some(default)
      else NewName(p.EtcdSlot(), default, r.etcd.value);
    if machine.Some? && etcd.Some? then Some((machine.value, etcd.value)) else None
  }

  /** What of the control plane, and of etcd, a round writes. */
  function ControlPlaneWritten<M>(r: PlaneRound<M>): Written {
    if r.writes == 0 then Nothing else if r.writes == 1 then ReferenceOnly else Both
  }

  function EtcdWritten<M>(r: PlaneRound<M>): Written {
    if r.etcd.None? || r.writes <= 2 then Nothing else if r.writes == 3 then ReferenceOnly else Both
  }

  function WritePlane<M>(p: Plane<M>, names: (string, string), r: PlaneRound<M>): Plane<M> {
    var first := Write(p.ControlPlaneSlot(), names.0, r.machine, ControlPlaneWritten(r));
    if r.etcd.None? then Plane(first.templates, first.reference, p.etcd)
    else
      var second := Write(Slot(first.templates, p.etcd), names.1, r.etcd.value, EtcdWritten(r));
      Plane(second.templates, first.reference, second.reference)
  }

  function PlaneHistory<M(==)>(p: Plane<M>, bases: Bases, rounds: seq<PlaneRound<M>>): Option<Plane<M>> {
    if rounds == [] then Some(p)
    else
      var before := PlaneHistory(p, bases, rounds[..|rounds| - 1]);
      var r := rounds[|rounds| - 1];
      if before.None? then None
      else
        var names := PlaneNames(before.value, bases, r);
        if names.None? then None else Some(WritePlane(before.value, names.value, r))
  }

  // ------------------------------------------------------------------ where a control plane stands

  datatype PlaneStanding<M> = PlaneStanding(controlPlane: Standing<M>, etcd: Standing<M>)

  function AfterPlane<M(==)>(st: PlaneStanding<M>, r: PlaneRound<M>): PlaneStanding<M> {
    PlaneStanding(TemplateHistory.After(st.controlPlane, Round(r.machine, ControlPlaneWritten(r))),
                  if r.etcd.None? then st.etcd else TemplateHistory.After(st.etcd, Round(r.etcd.value, EtcdWritten(r))))
  }

  function PlaneStandingOf<M(==)>(rounds: seq<PlaneRound<M>>): PlaneStanding<M> {
    if rounds == [] then PlaneStanding(Standing(0, None, None), Standing(0, None, None))
    else AfterPlane(PlaneStandingOf(rounds[..|rounds| - 1]), rounds[|rounds| - 1])
  }

  /** Both slots stand, no template is without its owner, and etcd does not exist before the control plane. */
  ghost predicate PlaneStands<M>(p: Plane<M>, bases: Bases, st: PlaneStanding<M>) {
    && Stands(p.ControlPlaneSlot(), bases.controlPlane, st.controlPlane) && st.controlPlane.pending.None?
    && Stands(p.EtcdSlot(), bases.etcd, st.etcd) && st.etcd.pending.None?
    && (p.controlPlane.None? ==> p.etcd.None?)
  }

  ghost predicate BasesFit(bases: Bases) {
    bases.controlPlane != bases.etcd && '\n' !in bases.controlPlane && '\n' !in bases.etcd
  }

  /** The names that are picked are those of the targets. */
  lemma PlanePicks<M>(p: Plane<M>, bases: Bases, st: PlaneStanding<M>, r: PlaneRound<M>)
    requires PlaneStands(p, bases, st) && BasesFit(bases)
    requires st.controlPlane.version + 1 < MAX_INT && st.etcd.version + 1 < MAX_INT
    ensures var names := PlaneNames(p, bases, r);
            && names.Some?
            && names.value.0 == ObjectName(bases.controlPlane, Target(st.controlPlane, r.machine))
            && (r.etcd.Some? ==> names.value.1 == ObjectName(bases.etcd, Target(st.etcd, r.etcd.value)))
  {
    PicksTarget(p.ControlPlaneSlot(), bases.controlPlane, st.controlPlane, r.machine);
    if r.etcd.Some? {
      PicksTarget(p.EtcdSlot(), bases.etcd, st.etcd, r.etcd.value);
    }
    hide Stands, NewNameIfChanged;
  }

  /**
   * One of the two slots is written, owner first: it stands as the round says, the other
   * one stands as before, and no template changes its content.
   */
  lemma SlotWritten<M>(slot: Slot<M>, other: Option<string>, base: string, base': string,
                       st: Standing<M>, st': Standing<M>, r: Round<M>)
    requires Stands(slot, base, st) && Stands(Slot(slot.templates, other), base', st') && base != base'
    requires st.pending.None? && !r.written.TemplateOnly?
    ensures var slot' := Write(slot, ObjectName(base, Target(st, r.content)), r.content, r.written);
            && Stands(slot', base, TemplateHistory.After(st, r)) && TemplateHistory.After(st, r).pending.None?
            && Stands(Slot(slot'.templates, other), base', st')
            && Keeps(slot, slot')
            && (slot.reference.Some? || r.written != Nothing ==> slot'.reference.Some?)
            && (r.written == Nothing ==> slot'.reference == slot.reference)
  {
    RoundStands(slot, base, st, r);
    RoundKeeps(slot, base, st, r);
    OtherOwnersDoNotInterfere(Slot(slot.templates, other), base', st', base, Target(st, r.content), r.content);
    hide Stands, Keeps;
  }

  lemma PlaneRoundStands<M>(p: Plane<M>, bases: Bases, st: PlaneStanding<M>, r: PlaneRound<M>)
    requires PlaneStands(p, bases, st) && BasesFit(bases)
    requires st.controlPlane.version + 1 < MAX_INT && st.etcd.version + 1 < MAX_INT
    ensures var names := PlaneNames(p, bases, r);
            && names.Some?
            && var p' := WritePlane(p, names.value, r);
            && PlaneStands(p', bases, AfterPlane(st, r))
            && Keeps(p.ControlPlaneSlot(), p'.ControlPlaneSlot())
  {
    PlanePicks(p, bases, st, r);
    hide Stands, PlaneNames;
    var names := PlaneNames(p, bases, r).value;
    var machine := Round(r.machine, ControlPlaneWritten(r));
    SlotWritten(p.ControlPlaneSlot(), p.etcd, bases.controlPlane, bases.etcd, st.controlPlane, st.etcd, machine);
    var first := Write(p.ControlPlaneSlot(), names.0, r.machine, ControlPlaneWritten(r));
    if r.etcd.Some? {
      var etcd := Round(r.etcd.value, EtcdWritten(r));
      SlotWritten(Slot(first.templates, p.etcd), first.reference, bases.etcd, bases.controlPlane,
                  st.etcd, TemplateHistory.After(st.controlPlane, machine), etcd);
    }
  }

  // ------------------------------------------------------------------ any number of rounds

  /** Neither owner exists yet, nor any template under one of their names. */
  ghost predicate FreshPlane<M>(p: Plane<M>, bases: Bases) {
    Fresh(p.ControlPlaneSlot(), bases.controlPlane) && Fresh(p.EtcdSlot(), bases.etcd) && BasesFit(bases)
  }

  lemma FreshStands<M>(p: Plane<M>, bases: Bases)
    requires FreshPlane(p, bases)
    ensures PlaneStands(p, bases, PlaneStandingOf([])) && BasesFit(bases)
  {
  }

  lemma VersionsGrow<M>(st: PlaneStanding<M>, r: PlaneRound<M>)
    ensures AfterPlane(st, r).controlPlane.version <= st.controlPlane.version + 1
    ensures AfterPlane(st, r).etcd.version <= st.etcd.version + 1
  {
  }

  lemma {:induction false} PlaneHistoryStands<M>(p: Plane<M>, bases: Bases, rounds: seq<PlaneRound<M>>)
    requires FreshPlane(p, bases) && |rounds| < MAX_INT - 1
    ensures PlaneHistory(p, bases, rounds).Some?
    ensures PlaneStands(PlaneHistory(p, bases, rounds).value, bases, PlaneStandingOf(rounds))
    ensures PlaneStandingOf(rounds).controlPlane.version <= |rounds| && PlaneStandingOf(rounds).etcd.version <= |rounds|
  {
    FreshStands(p, bases);
    hide FreshPlane, PlaneStands, WritePlane, PlaneNames, AfterPlane, BasesFit;
    if rounds != [] {
      var earlier, r := rounds[..|rounds| - 1], rounds[|rounds| - 1];
      PlaneHistoryStands(p, bases, earlier);
      VersionsGrow(PlaneStandingOf(earlier), r);
      PlaneRoundStands(PlaneHistory(p, bases, earlier).value, bases, PlaneStandingOf(earlier), r);
    }
  }

  /**
   * Over any rounds of a control plane, stopped after any write and with any contents:
   * every template name, of the control plane and of etcd, keeps its content for ever.
   */
  lemma {:induction false} PlaneNamesAreBound<M>(p: Plane<M>, bases: Bases, rounds: seq<PlaneRound<M>>, k: nat)
    requires FreshPlane(p, bases) && k <= |rounds| < MAX_INT - 1
    ensures PlaneHistory(p, bases, rounds).Some? && PlaneHistory(p, bases, rounds[..k]).Some?
    ensures Keeps(PlaneHistory(p, bases, rounds[..k]).value.ControlPlaneSlot(),
                  PlaneHistory(p, bases, rounds).value.ControlPlaneSlot())
    decreases |rounds|
  {
    PlaneHistoryStands(p, bases, rounds);
    hide FreshPlane;
    if k == |rounds| {
      assert rounds[..k] == rounds;
    } else {
      var earlier := rounds[..|rounds| - 1];
      assert earlier[..k] == rounds[..k];
      PlaneNamesAreBound(p, bases, earlier, k);
      PlaneHistoryStands(p, bases, earlier);
      hide PlaneStands, WritePlane, PlaneNames;
      PlaneRoundStands(PlaneHistory(p, bases, earlier).value, bases, PlaneStandingOf(earlier), rounds[|rounds| - 1]);
    }
  }

  /** After a completed round both owners refer to that round's templates. */
  lemma PlaneReferences<M>(p: Plane<M>, bases: Bases, rounds: seq<PlaneRound<M>>)
    requires FreshPlane(p, bases) && 0 < |rounds| < MAX_INT - 1 && rounds[|rounds| - 1].writes >= 4
    ensures PlaneHistory(p, bases, rounds).Some?
    ensures var p', r := PlaneHistory(p, bases, rounds).value, rounds[|rounds| - 1];
            var st := PlaneStandingOf(rounds);
            && var machine := ObjectName(bases.controlPlane, st.controlPlane.version);
            && p'.controlPlane == Some(machine) && machine in p'.templates && p'.templates[machine] == r.machine
            && (r.etcd.Some? ==>
                  var etcd := ObjectName(bases.etcd, st.etcd.version);
                  p'.etcd == Some(etcd) && etcd in p'.templates && p'.templates[etcd] == r.etcd.value)
  {
    PlaneHistoryStands(p, bases, rounds);
    hide FreshPlane, PlaneHistory, NothingAbove;
  }
}
