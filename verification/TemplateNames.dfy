/**
How the desired objects of a cluster get the names of their immutable templates, and
what that means for a worker group, whose one MachineDeployment refers to a machine
template and to a kubeadm config template.
 */
module TemplateNames {
  import opened Wrappers
  import opened Names
  import opened TemplateHistory

  /** The two references of a MachineDeployment. */
  datatype References = References(infrastructure: string, config: string)

  datatype Read = ReadDeployment(name: string) | ReadMachineTemplate(name: string) | ReadConfigTemplate(name: string)
                | ReadControlPlane(name: string) | ReadEtcd(name: string)

  /** What the API server holds, and the reads that fail with something other than not-found. */
  datatype Cluster<M, K> = Cluster(deployments: map<string, References>,
                                   controlPlanes: map<string, string>,
                                   etcds: map<string, string>,
                                   machineTemplates: map<string, M>,
                                   configTemplates: map<string, K>,
                                   failing: set<Read>)
  {
    function GroupOf(deployment: string): Group<M, K> {
      Group(machineTemplates, configTemplates,
            if deployment in deployments then Some(deployments[deployment]) else None)
    }

    function ControlPlaneSlot(name: string): Slot<M> {
      Slot(machineTemplates, if name in controlPlanes then Some(controlPlanes[name]) else None)
    }

    function EtcdSlot(name: string): Slot<M> {
      Slot(machineTemplates, if name in etcds then Some(etcds[name]) else None)
    }

    predicate Readable(slot: Slot<M>, owner: Read) {
      owner !in failing && (slot.reference.Some? ==> ReadMachineTemplate(slot.reference.value) !in failing)
    }

    predicate GroupReadable(deployment: string) {
      && Readable(GroupOf(deployment).MachineSlot(), ReadDeployment(deployment))
      && (deployment in deployments ==> ReadConfigTemplate(deployments[deployment].config) !in failing)
    }
  }

  /** A worker group on the API server. */
  datatype Group<M, K> = Group(machineTemplates: map<string, M>, configTemplates: map<string, K>,
                               references: Option<References>) {
    function MachineSlot(): Slot<M> {
      Slot(machineTemplates, if references.None? then None else Some(references.value.infrastructure))
    }

    function ConfigSlot(): Slot<K> {
      Slot(configTemplates, if references.None? then None else Some(references.value.config))
    }
  }

  // ------------------------------------------------------------------ desired objects

  class Template<C> {
    var name: string
    const content: C

    constructor (name: string, content: C)
      ensures this.name == name && this.content == content
    {
      this.name := name;
      this.content := content;
    }
  }

  class MachineDeployment {
    const name: string
    var infrastructureRef: string
    var configRef: string

    constructor (name: string, infrastructureRef: string, configRef: string)
      ensures this.name == name && this.infrastructureRef == infrastructureRef && this.configRef == configRef
    {
      this.name := name;
      this.infrastructureRef := infrastructureRef;
      this.configRef := configRef;
    }
  }

  /** A KubeadmControlPlane or an EtcdadmCluster: an owner with one reference. */
  class Owner {
    const name: string
    var infrastructureRef: string

    constructor (name: string, infrastructureRef: string)
      ensures this.name == name && this.infrastructureRef == infrastructureRef
    {
      this.name := name;
      this.infrastructureRef := infrastructureRef;
    }
  }

  /** Gives the object a new name if a different object has its name. */
  method EnsureNewNameIfChanged<C(==)>(current: map<string, C>, fails: bool, new': Template<C>) returns (ok: bool)
    modifies new'`name
    ensures ok <==> !fails && NewNameIfChanged(current, old(new'.name), new'.content).Some?
    ensures new'.name == if ok then NewNameIfChanged(current, old(new'.name), new'.content).value else old(new'.name)
    ensures ok ==> if old(new'.name) in current && current[old(new'.name)] != new'.content
                   then IncrementName(old(new'.name)) == Some(new'.name)
                   else new'.name == old(new'.name)
  {
    hide IncrementName;
    if fails {
      return false;
    }
    if new'.name !in current {
      return true;
    }
    if new'.content != current[new'.name] {
      var newName := IncrementName(new'.name);
      if newName.None? {
        return false;
      }
      new'.name := newName.value;
    }
    return true;
  }

  class WorkerGroup<M(==), K(==)> {
    const configTemplate: Template<K>
    const deployment: MachineDeployment
    const machineTemplate: Template<M>

    constructor (configTemplate: Template<K>, deployment: MachineDeployment, machineTemplate: Template<M>)
      ensures this.configTemplate == configTemplate && this.deployment == deployment
              && this.machineTemplate == machineTemplate
    {
      this.configTemplate := configTemplate;
      this.deployment := deployment;
      this.machineTemplate := machineTemplate;
    }

    ghost function Repr(): set<object> {
      {configTemplate, deployment, machineTemplate}
    }

    predicate Distinct() {
      (configTemplate as object) != (machineTemplate as object)
    }

    function Names(): References
      reads Repr()
    {
      References(machineTemplate.name, configTemplate.name)
    }

    /** The desired deployment refers to the desired templates. */
    predicate Consistent()
      reads Repr()
    {
      References(deployment.infrastructureRef, deployment.configRef) == Names()
    }

    /** The names that the templates, now called `names`, get; none if a read fails or a name cannot be counted up. */
    function Wanted(client: Cluster<M, K>, names: References): Option<References> {
      if client.GroupReadable(deployment.name)
      then NewReferences(client.GroupOf(deployment.name), names, machineTemplate.content, configTemplate.content)
      else None
    }

    /** The names are the wanted ones, and the deployment refers to them. */
    predicate Settled(client: Cluster<M, K>, names: References)
      reads Repr()
    {
      Consistent() && Some(Names()) == Wanted(client, names)
    }

    method UpdateImmutableObjectNames(client: Cluster<M, K>) returns (ok: bool)
      requires Distinct()
      modifies Repr()
      ensures ok <==> Wanted(client, old(Names())).Some?
      ensures ok ==> Some(Names()) == Wanted(client, old(Names()))
      ensures ok && (deployment.name in client.deployments || old(Consistent())) ==> Consistent()
    {
      if ReadDeployment(deployment.name) in client.failing {
        return false;
      }
      if deployment.name !in client.deployments {
        return true;
      }
      var current := client.deployments[deployment.name];

      machineTemplate.name := current.infrastructure;
      ok := EnsureNewNameIfChanged(client.machineTemplates,
                                   ReadMachineTemplate(machineTemplate.name) in client.failing, machineTemplate);
      if !ok {
        return;
      }
      deployment.infrastructureRef := machineTemplate.name;

      configTemplate.name := current.config;
      ok := EnsureNewNameIfChanged(client.configTemplates,
                                   ReadConfigTemplate(configTemplate.name) in client.failing, configTemplate);
      if !ok {
        return;
      }
      deployment.configRef := configTemplate.name;
    }
  }

  /** Worker groups share no objects. */
  ghost predicate Separate<M, K>(groups: seq<WorkerGroup<M, K>>) {
    && (forall i :: 0 <= i < |groups| ==> groups[i].Distinct())
    && (forall i, j :: 0 <= i < j < |groups| ==> groups[i].Repr() !! groups[j].Repr())
  }

  ghost function Footprint<M, K>(groups: seq<WorkerGroup<M, K>>): set<object> {
    set g <- groups, o <- g.Repr() :: o
  }

  /** Updates all groups; every one of them is consistent if that succeeds. */
  method UpdateWorkers<M(==), K(==)>(groups: seq<WorkerGroup<M, K>>, client: Cluster<M, K>) returns (ok: bool)
    requires Separate(groups)
    requires forall i :: 0 <= i < |groups| ==> groups[i].Consistent()
    modifies Footprint(groups)
    ensures ok <==> forall i :: 0 <= i < |groups| ==> groups[i].Wanted(client, old(groups[i].Names())).Some?
    ensures ok ==> forall i :: 0 <= i < |groups| ==> groups[i].Settled(client, old(groups[i].Names()))
  {
    hide NewReferences, NewName;
    for n := 0 to |groups|
      invariant forall i :: n <= i < |groups| ==> groups[i].Names() == old(groups[i].Names()) && groups[i].Consistent()
      invariant forall i :: 0 <= i < n ==> groups[i].Settled(client, old(groups[i].Names()))
    {
      assert groups[n] in groups;
      ok := groups[n].UpdateImmutableObjectNames(client);
      if !ok {
        return;
      }
    }
    ok := true;
  }

  class ControlPlane<M(==)> {
    const kubeadmControlPlane: Owner
    const machineTemplate: Template<M>
    const etcd: Option<(Owner, Template<M>)>

    constructor (kubeadmControlPlane: Owner, machineTemplate: Template<M>, etcd: Option<(Owner, Template<M>)>)
      ensures this.kubeadmControlPlane == kubeadmControlPlane && this.machineTemplate == machineTemplate
              && this.etcd == etcd
    {
      this.kubeadmControlPlane := kubeadmControlPlane;
      this.machineTemplate := machineTemplate;
      this.etcd := etcd;
    }

    ghost function EtcdRepr(): set<object> {
      if etcd.None? then {} else {etcd.value.0, etcd.value.1}
    }

    predicate Distinct() {
      etcd.Some? ==> etcd.value.0 != kubeadmControlPlane && etcd.value.1 != machineTemplate
    }

    method UpdateImmutableObjectNames<K>(client: Cluster<M, K>) returns (ok: bool)
      requires Distinct()
      modifies machineTemplate, kubeadmControlPlane, EtcdRepr()
      // An absent control plane means a new cluster: then the etcd cluster is not looked at either.
      ensures ok <==>
              && NewNameReadable(client, client.ControlPlaneSlot(kubeadmControlPlane.name),
                                 ReadControlPlane(kubeadmControlPlane.name), old(machineTemplate.name),
                                   machineTemplate.content)
              && (etcd.Some? && kubeadmControlPlane.name in client.controlPlanes ==>
                    NewNameReadable(client, client.EtcdSlot(etcd.value.0.name), ReadEtcd(etcd.value.0.name),
                                    old(etcd.value.1.name), etcd.value.1.content))
      ensures ok ==>
                && Some(machineTemplate.name) ==
                   NewName(client.ControlPlaneSlot(kubeadmControlPlane.name), old(machineTemplate.name),
                           machineTemplate.content)
                && kubeadmControlPlane.infrastructureRef ==
                   if kubeadmControlPlane.name in client.controlPlanes then machineTemplate.name
                   else old(kubeadmControlPlane.infrastructureRef)
      ensures ok && etcd.Some? && kubeadmControlPlane.name in client.controlPlanes ==>
                && Some(etcd.value.1.name) ==
                   NewName(client.EtcdSlot(etcd.value.0.name), old(etcd.value.1.name), etcd.value.1.content)
                && etcd.value.0.infrastructureRef ==
                   if etcd.value.0.name in client.etcds then etcd.value.1.name else old(etcd.value.0.infrastructureRef)
      ensures etcd.Some? && kubeadmControlPlane.name !in client.controlPlanes ==>
                unchanged(etcd.value.0) && unchanged(etcd.value.1)
    {
      if ReadControlPlane(kubeadmControlPlane.name) in client.failing {
        return false;
      }
      if kubeadmControlPlane.name !in client.controlPlanes {
        return true;
      }

      machineTemplate.name := client.controlPlanes[kubeadmControlPlane.name];
      ok := EnsureNewNameIfChanged(client.machineTemplates,
                                   ReadMachineTemplate(machineTemplate.name) in client.failing, machineTemplate);
      if !ok {
        return;
      }
      kubeadmControlPlane.infrastructureRef := machineTemplate.name;

      if etcd.None? {
        return;
      }
      var cluster, template := etcd.value.0, etcd.value.1;
      if ReadEtcd(cluster.name) in client.failing {
        return false;
      }
      if cluster.name !in client.etcds {
        return true;
      }

      template.name := client.etcds[cluster.name];
      ok := EnsureNewNameIfChanged(client.machineTemplates,
                                   ReadMachineTemplate(template.name) in client.failing, template);
      if !ok {
        return;
      }
      cluster.infrastructureRef := template.name;
    }
  }

  /** The name for a template whose default is `name`. */
  function NewName<C(==)>(slot: Slot<C>, name: string, content: C): Option<string> {
    if slot.reference.None? then Some(name) else NewNameIfChanged(slot.templates, slot.reference.value, content)
  }

  predicate NewNameReadable<M(==), K>(client: Cluster<M, K>, slot: Slot<M>, owner: Read, name: string, content: M) {
    client.Readable(slot, owner) && NewName(slot, name, content).Some?
  }

  function NewReferences<M(==), K(==)>(
      group: Group<M, K>, names: References, machine: M, config: K): Option<References> {
    var m, k := NewName(group.MachineSlot(), names.infrastructure, machine),
      NewName(group.ConfigSlot(), names.config, config);
    if m.Some? && k.Some? then Some(References(m.value, k.value)) else None
  }

  // ------------------------------------------------------------------ rounds of a worker group

  /** The objects of a group are written in the order config template, deployment, machine template. */
  datatype GroupRound<M, K> = GroupRound(machine: M, config: K, writes: nat)

  function WriteGroup<M, K>(g: Group<M, K>, names: References, r: GroupRound<M, K>): Group<M, K> {
    Group(if r.writes >= 3 then g.machineTemplates[names.infrastructure := r.machine] else g.machineTemplates,
          if r.writes >= 1 then g.configTemplates[names.config := r.config] else g.configTemplates,
          if r.writes >= 2 then Some(names) else g.references)
  }

  function GroupHistory<M(==), K(==)>(
      g: Group<M, K>, defaults: References, rounds: seq<GroupRound<M, K>>): Option<Group<M, K>> {
    if rounds == [] then Some(g)
    else
      var before := GroupHistory(g, defaults, rounds[..|rounds| - 1]);
      var r := rounds[|rounds| - 1];
      if before.None? then None
      else
        var names := NewReferences(before.value, defaults, r.machine, r.config);
        if names.None? then None else Some(WriteGroup(before.value, names.value, r))
  }

  /** What a round of the group is for its machine templates. */
  function MachineRound<M, K>(r: GroupRound<M, K>): Round<M> {
    Round(r.machine, if r.writes >= 3 then Both else if r.writes == 2 then ReferenceOnly else Nothing)
  }

  function ConfigRound<M, K>(r: GroupRound<M, K>): Round<K> {
    Round(r.config, if r.writes >= 2 then Both else if r.writes == 1 then TemplateOnly else Nothing)
  }

  function MachineRounds<M, K>(rounds: seq<GroupRound<M, K>>): seq<Round<M>> {
    seq(|rounds|, i requires 0 <= i < |rounds| => MachineRound(rounds[i]))
  }

  function ConfigRounds<M, K>(rounds: seq<GroupRound<M, K>>): seq<Round<K>> {
    seq(|rounds|, i requires 0 <= i < |rounds| => ConfigRound(rounds[i]))
  }

  function Defaults(machineBase: string, configBase: string): References {
    References(DefaultObjectName(machineBase), DefaultObjectName(configBase))
  }

  /** The two kinds of templates of a group have independent histories, although they share their owner. */
  lemma {:induction false} GroupProjects<M, K>(
      g: Group<M, K>, machineBase: string, configBase: string, rounds: seq<GroupRound<M, K>>)
    ensures var after := GroupHistory(g, Defaults(machineBase, configBase), rounds);
            var m := History(g.MachineSlot(), machineBase, MachineRounds(rounds));
            var k := History(g.ConfigSlot(), configBase, ConfigRounds(rounds));
            && (after.Some? <==> m.Some? && k.Some?)
            && (after.Some? ==> after.value.MachineSlot() == m.value && after.value.ConfigSlot() == k.value)
  {
    hide NewNameIfChanged;
    if rounds != [] {
      var earlier := rounds[..|rounds| - 1];
      GroupProjects(g, machineBase, configBase, earlier);
      assert MachineRounds(rounds)[..|rounds| - 1] == MachineRounds(earlier);
      assert ConfigRounds(rounds)[..|rounds| - 1] == ConfigRounds(earlier);
    }
  }

  ghost predicate GroupReady<M, K>(
      g: Group<M, K>, machineBase: string, configBase: string, rounds: seq<GroupRound<M, K>>) {
    && g.references.None? && NothingAbove(g.MachineSlot(), machineBase, 0)
    && NothingAbove(g.ConfigSlot(), configBase, 0)
    && '\n' !in machineBase && '\n' !in configBase && |rounds| < MAX_INT - 1
  }

  /** The deployment is written before the machine template, so a machine template is never written alone. */
  lemma NoConflictOfMachines<M(!new), K>(rounds: seq<GroupRound<M, K>>)
    ensures !exists i, j :: Conflict(MachineRounds(rounds), i, j)
  {
  }

  ghost function GroupAt<M, K>(g: Group<M, K>, defaults: References, rounds: seq<GroupRound<M, K>>, k: nat): Group<M, K>
    requires k <= |rounds|
  {
    var h := GroupHistory(g, defaults, rounds[..k]);
    if h.Some? then h.value else g
  }

  lemma GroupAtProjects<M, K>(
      g: Group<M, K>, machineBase: string, configBase: string, rounds: seq<GroupRound<M, K>>, k: nat)
    requires GroupReady(g, machineBase, configBase, rounds) && k <= |rounds|
    ensures GroupHistory(g, Defaults(machineBase, configBase), rounds[..k]).Some?
    ensures var at := GroupAt(g, Defaults(machineBase, configBase), rounds, k);
            && at.MachineSlot() == SlotAt(g.MachineSlot(), machineBase, MachineRounds(rounds), k)
            && at.ConfigSlot() == SlotAt(g.ConfigSlot(), configBase, ConfigRounds(rounds), k)
  {
    GroupProjects(g, machineBase, configBase, rounds[..k]);
    assert MachineRounds(rounds)[..k] == MachineRounds(rounds[..k]);
    assert ConfigRounds(rounds)[..k] == ConfigRounds(rounds[..k]);
    HistoryStands(g.MachineSlot(), machineBase, MachineRounds(rounds[..k]));
    HistoryStands(g.ConfigSlot(), configBase, ConfigRounds(rounds[..k]));
  }

  ghost predicate MachinesBound<M(!new), K(!new)>(g: Group<M, K>, defaults: References, rounds: seq<GroupRound<M, K>>) {
    forall k, l :: 0 <= k <= l <= |rounds| ==>
      Keeps(GroupAt(g, defaults, rounds, k).MachineSlot(), GroupAt(g, defaults, rounds, l).MachineSlot())
  }

  ghost predicate ConfigsBound<M(!new), K(!new)>(g: Group<M, K>, defaults: References, rounds: seq<GroupRound<M, K>>) {
    forall k, l :: 0 <= k <= l <= |rounds| ==>
      Keeps(GroupAt(g, defaults, rounds, k).ConfigSlot(), GroupAt(g, defaults, rounds, l).ConfigSlot())
  }

  /**
   * A worker group over any rounds, stopped after any write, with any contents: names of
   * machine templates keep their contents for ever, and those of config templates if and
   * only if no two rounds conflict.
   */
  lemma GroupNamesAreBound<M(!new), K(!new)>(
      g: Group<M, K>, machineBase: string, configBase: string, rounds: seq<GroupRound<M, K>>)
    requires GroupReady(g, machineBase, configBase, rounds)
    ensures GroupHistory(g, Defaults(machineBase, configBase), rounds).Some?
    ensures MachinesBound(g, Defaults(machineBase, configBase), rounds)
    ensures ConfigsBound(g, Defaults(machineBase, configBase), rounds) <==>
            !exists i, j :: Conflict(ConfigRounds(rounds), i, j)
  {
    var defaults := Defaults(machineBase, configBase);
    var machines, configs := MachineRounds(rounds), ConfigRounds(rounds);
    NoConflictOfMachines(rounds);
    NamesAreBoundExactly(g.MachineSlot(), machineBase, machines);
    NamesAreBoundExactly(g.ConfigSlot(), configBase, configs);
    forall k | 0 <= k <= |rounds|
      ensures GroupAt(g, defaults, rounds, k).MachineSlot() == SlotAt(g.MachineSlot(), machineBase, machines, k)
      ensures GroupAt(g, defaults, rounds, k).ConfigSlot() == SlotAt(g.ConfigSlot(), configBase, configs, k)
    {
      GroupAtProjects(g, machineBase, configBase, rounds, k);
    }
    GroupAtProjects(g, machineBase, configBase, rounds, |rounds|);
    assert rounds[..|rounds|] == rounds;
  }

  /**
   * After a completed round both references of the deployment name that round's
   * templates.
   */
  lemma GroupReferences<M, K>(g: Group<M, K>, machineBase: string, configBase: string, rounds: seq<GroupRound<M, K>>)
    requires GroupReady(g, machineBase, configBase, rounds) && rounds != [] && rounds[|rounds| - 1].writes >= 3
    ensures GroupHistory(g, Defaults(machineBase, configBase), rounds).Some?
    ensures var after := GroupHistory(g, Defaults(machineBase, configBase), rounds).value;
            var names := References(ObjectName(machineBase, StandingOf(MachineRounds(rounds)).version),
                                    ObjectName(configBase, StandingOf(ConfigRounds(rounds)).version));
            && after.references == Some(names)
            && names.infrastructure in after.machineTemplates
            && after.machineTemplates[names.infrastructure] == rounds[|rounds| - 1].machine
            && names.config in after.configTemplates
            && after.configTemplates[names.config] == rounds[|rounds| - 1].config
  {
    GroupProjects(g, machineBase, configBase, rounds);
    ReferenceNamesTheTemplate(g.MachineSlot(), machineBase, MachineRounds(rounds));
    ReferenceNamesTheTemplate(g.ConfigSlot(), configBase, ConfigRounds(rounds));
  }

  /**
   * A config template that was left by an interrupted round is overwritten later, also
   * after the old content had been restored in between.
   */
  lemma StaleConfigIsOverwritten<M(!new), K(!new)>(
      g: Group<M, K>, machineBase: string, configBase: string, machine: M, c: K, a: K, d: K)
    requires c != a && a != d && c != d && GroupReady(g, machineBase, configBase, [])
    ensures var rounds := [GroupRound(machine, c, 3), GroupRound(machine, a, 1), GroupRound(machine, c, 3),
                           GroupRound(machine, d, 3)];
            !ConfigsBound(g, Defaults(machineBase, configBase), rounds)
  {
    var rounds := [GroupRound(machine, c, 3), GroupRound(machine, a, 1), GroupRound(machine, c, 3),
                   GroupRound(machine, d, 3)];
    hide Conflict, NothingAbove, ConfigsBound, MachinesBound;
    GroupNamesAreBound(g, machineBase, configBase, rounds);
    assert ConfigRounds(rounds) == [Round(c, Both), Round(a, TemplateOnly), Round(c, Both), Round(d, Both)];
    ConflictSurvivesReturn(c, a, d);
  }
}
