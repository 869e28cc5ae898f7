/**
Machine health checks: the defaults for what the user left out of the cluster spec,
and the checks that are built from the spec for the control plane and for each group
of workers.
 */
module HealthCheckDefaults {
  import opened Wrappers

  datatype IntOrString = Int(n: int) | Str(s: string)

  type Duration = int

  const MINUTE: Duration := 60_000_000_000
  const DEFAULT_NODE_STARTUP_TIMEOUT: Duration := 10 * MINUTE
  const DEFAULT_TINKERBELL_NODE_STARTUP_TIMEOUT: Duration := 20 * MINUTE

  /** A health check as the user writes it; every field may be missing. */
  datatype HealthCheck = HealthCheck(nodeStartup: Option<Duration>, unhealthy: Option<Duration>,
                                     maxUnhealthy: Option<IntOrString>)

  datatype WorkerGroup = WorkerGroup(name: string, check: Option<HealthCheck>)

  /** The part of the cluster spec that is about health checks. */
  datatype Spec = Spec(name: string, tinkerbell: bool,
                       check: Option<HealthCheck>, controlPlane: Option<HealthCheck>, workers: seq<WorkerGroup>)

  datatype Defaults = Defaults(nodeStartup: Duration, unhealthy: Duration, maxUnhealthy: IntOrString,
                               workerMaxUnhealthy: IntOrString)

  const EMPTY: HealthCheck := HealthCheck(None, None, None)

  function OrEmpty(c: Option<HealthCheck>): HealthCheck {
    if c.Some? then c.value else EMPTY
  }

  function Or<T>(a: Option<T>, b: T): T {
    if a.Some? then a.value else b
  }

  function OrElse<T>(a: Option<T>, b: Option<T>): Option<T> {
    if a.Some? then a else b
  }

  // ------------------------------------------------------------------ defaulting

  /** Tinkerbell nodes get more time to start, if the default is the usual one. */
  function StartupDefault(spec: Spec, d: Defaults): Duration {
    if spec.tinkerbell && d.nodeStartup == DEFAULT_NODE_STARTUP_TIMEOUT then DEFAULT_TINKERBELL_NODE_STARTUP_TIMEOUT
    else d.nodeStartup
  }

  function WithTimeouts(spec: Spec, d: Defaults): Spec {
    var c := OrEmpty(spec.check);
    spec.(check := Some(c.(nodeStartup := Some(Or(c.nodeStartup, StartupDefault(spec, d))),
                           unhealthy := Some(Or(c.unhealthy, d.unhealthy)))))
  }

  function WithMax(c: Option<HealthCheck>, max: IntOrString): Option<HealthCheck> {
    Some(OrEmpty(c).(maxUnhealthy := Some(Or(OrEmpty(c).maxUnhealthy, max))))
  }

  function WorkersWithMax(workers: seq<WorkerGroup>, max: IntOrString): (r: seq<WorkerGroup>)
    ensures |r| == |workers|
    ensures forall i :: 0 <= i < |workers| ==> r[i] == workers[i].(check := WithMax(workers[i].check, max))
  {
    if workers == [] then []
    else WorkersWithMax(workers[..|workers| - 1], max)
         + [workers[|workers| - 1].(check := WithMax(workers[|workers| - 1].check, max))]
  }

  /** With a maximum for the whole cluster nothing is filled in. */
  function WithMaxUnhealthy(spec: Spec, d: Defaults): Spec {
    if OrEmpty(spec.check).maxUnhealthy.Some? then spec
    else FilledMax(spec, d)
  }

  /** Workers have a default of their own, unless there is a maximum for the whole cluster. */
  function FilledMax(spec: Spec, d: Defaults): Spec {
    spec.(check := WithMax(spec.check, d.maxUnhealthy),
          controlPlane := WithMax(spec.controlPlane, d.maxUnhealthy),
          workers := WorkersWithMax(spec.workers, Or(OrEmpty(spec.check).maxUnhealthy, d.workerMaxUnhealthy)))
  }

  function Defaulted(spec: Spec, d: Defaults): Spec {
    WithMaxUnhealthy(WithTimeouts(spec, d), d)
  }

  /** The cluster object whose spec is completed in place. */
  class Cluster {
    const name: string
    const tinkerbell: bool
    var check: Option<HealthCheck>
    var controlPlane: Option<HealthCheck>
    var workers: seq<WorkerGroup>

    constructor (spec: Spec)
      ensures GetSpec() == spec
    {
      name, tinkerbell := spec.name, spec.tinkerbell;
      check, controlPlane, workers := spec.check, spec.controlPlane, spec.workers;
    }

    function GetSpec(): Spec
      reads this
    {
      Spec(name, tinkerbell, check, controlPlane, workers)
    }

    method SetTimeoutDefaults(d: Defaults)
      modifies this
      ensures GetSpec() == WithTimeouts(old(GetSpec()), d)
    {
      if check.Some? && check.value.nodeStartup.Some? && check.value.unhealthy.Some? {
        return;
      }
      if check.None? {
        check := Some(EMPTY);
      }
      var nodeStartup := d.nodeStartup;
      if check.value.nodeStartup.None? && tinkerbell && nodeStartup == DEFAULT_NODE_STARTUP_TIMEOUT {
        nodeStartup := DEFAULT_TINKERBELL_NODE_STARTUP_TIMEOUT;
      }
      if check.value.nodeStartup.None? {
        check := Some(check.value.(nodeStartup := Some(nodeStartup)));
      }
      if check.value.unhealthy.None? {
        check := Some(check.value.(unhealthy := Some(d.unhealthy)));
      }
    }

    method SetMaxUnhealthyDefaults(d: Defaults)
      modifies this
      ensures GetSpec() == WithMaxUnhealthy(old(GetSpec()), d)
    {
      if check.Some? && check.value.maxUnhealthy.Some? {
        return;
      }
      if check.None? {
        check := Some(EMPTY);
      }
      FillMaxUnhealthy(d);
    }

    /** Once the cluster has a check. */
    method FillMaxUnhealthy(d: Defaults)
      requires check.Some?
      modifies this
      ensures GetSpec() == FilledMax(old(GetSpec()), d)
    {
      var topLevelUndefined := true;
      if check.value.maxUnhealthy.None? {
        check := Some(check.value.(maxUnhealthy := Some(d.maxUnhealthy)));
      } else {
        topLevelUndefined := false;
      }
      if controlPlane.None? {
        controlPlane := Some(EMPTY);
      }
      if controlPlane.value.maxUnhealthy.None? {
        controlPlane := Some(controlPlane.value.(maxUnhealthy := Some(d.maxUnhealthy)));
      }
      SetWorkers(if topLevelUndefined then d.workerMaxUnhealthy else check.value.maxUnhealthy.value);
    }

    method SetWorkers(max: IntOrString)
      modifies this`workers
      ensures workers == WorkersWithMax(old(workers), max)
    {
      for i := 0 to |workers|
        invariant |workers| == |old(workers)|
        invariant forall j :: 0 <= j < |workers| ==>
                    workers[j] == if j < i then old(workers)[j].(check := WithMax(old(workers)[j].check, max))
                      else old(workers)[j]
      {
        if workers[i].check.None? {
          workers := workers[i := workers[i].(check := Some(EMPTY))];
        }
        if workers[i].check.value.maxUnhealthy.None? {
          workers := workers[i := workers[i].(check := Some(workers[i].check.value.(maxUnhealthy := Some(max))))];
        }
      }
    }

    method SetDefaults(d: Defaults)
      modifies this
      ensures GetSpec() == Defaulted(old(GetSpec()), d)
    {
      SetTimeoutDefaults(d);
      SetMaxUnhealthyDefaults(d);
    }
  }

  // ------------------------------------------------------------------ building

  datatype Status = Unknown | False

  /** A health check object: the machines it selects, and when they count as unhealthy. */
  datatype Check = Check(name: string, cluster: string, selector: Selector, nodeStartup: Option<Duration>,
                         conditions: seq<(Status, Duration)>, maxUnhealthy: Option<IntOrString>)

  datatype Selector = ControlPlaneLabel | DeploymentLabel(deployment: string)

  function ControlPlaneCheckName(cluster: string): string {
    cluster + "-kcp-unhealthy"
  }

  function DeploymentName(cluster: string, group: string): string {
    cluster + "-" + group
  }

  function WorkerCheckName(cluster: string, group: string): string {
    DeploymentName(cluster, group) + "-worker-unhealthy"
  }

  function MachineHealthCheck(cluster: string, name: string, selector: Selector, unhealthy: Duration,
                              nodeStartup: Option<Duration>, maxUnhealthy: Option<IntOrString>): Check {
    Check(name, cluster, selector, nodeStartup, [(Unknown, unhealthy), (False, unhealthy)], maxUnhealthy)
  }

  /**
   * The check for the machines with a label, whose own settings come before those of the
   * cluster. There is no result if a missing pointer would be followed.
   */
  method BuildCheck(c: Cluster, own: Option<HealthCheck>, name: string, selector: Selector) returns (r: Option<Check>)
    ensures r == Built(c.GetSpec(), own, name, selector)
  {
    if c.check.None? {
      return None;
    }
    var unhealthy := c.check.value.unhealthy;
    if own.Some? && own.value.unhealthy.Some? {
      unhealthy := own.value.unhealthy;
    }
    var nodeStartup := c.check.value.nodeStartup;
    if own.Some? && own.value.nodeStartup.Some? {
      nodeStartup := own.value.nodeStartup;
    }
    if unhealthy.None? {
      return None;
    }
    var maxUnhealthy := c.check.value.maxUnhealthy;
    if own.Some? && own.value.maxUnhealthy.Some? {
      maxUnhealthy := own.value.maxUnhealthy;
    }
    r := Some(MachineHealthCheck(c.name, name, selector, unhealthy.value, nodeStartup, maxUnhealthy));
  }

  /** Own settings, or else those of the cluster. */
  function Built(spec: Spec, own: Option<HealthCheck>, name: string, selector: Selector): Option<Check> {
    var unhealthy := OrElse(OrEmpty(own).unhealthy, OrEmpty(spec.check).unhealthy);
    if spec.check.None? || unhealthy.None? then None
    else Some(MachineHealthCheck(spec.name, name, selector, unhealthy.value,
                                 OrElse(OrEmpty(own).nodeStartup, spec.check.value.nodeStartup),
                                 OrElse(OrEmpty(own).maxUnhealthy, spec.check.value.maxUnhealthy)))
  }

  function BuiltForControlPlane(spec: Spec): Option<Check> {
    Built(spec, spec.controlPlane, ControlPlaneCheckName(spec.name), ControlPlaneLabel)
  }

  function BuiltForWorker(spec: Spec, g: WorkerGroup): Option<Check> {
    Built(spec, g.check, WorkerCheckName(spec.name, g.name), DeploymentLabel(DeploymentName(spec.name, g.name)))
  }

  /** The cluster has a check, and a timeout for unhealthy machines is set for all of it or for every role. */
  predicate HasTimeouts(spec: Spec) {
    && spec.check.Some?
    && (spec.check.value.unhealthy.Some? ||
        (OrEmpty(spec.controlPlane).unhealthy.Some? && forall g <- spec.workers :: OrEmpty(g.check).unhealthy.Some?))
  }

  /**
   * The checks of all worker groups and then that of the control plane. No nil pointer is
   * followed exactly if there are timeouts.
   */
  method MachineHealthCheckObjects(c: Cluster) returns (r: Option<seq<Check>>)
    ensures r.Some? <==> HasTimeouts(c.GetSpec())
    ensures r.Some? ==> Objects(c.GetSpec(), r.value)
  {
    var checks: seq<Check> := [];
    for i := 0 to |c.workers|
      invariant |checks| == i
      invariant forall j :: 0 <= j < i ==> BuiltForWorker(c.GetSpec(), c.workers[j]) == Some(checks[j])
    {
      var g := c.workers[i];
      var check := BuildCheck(c, g.check, WorkerCheckName(c.name, g.name),
                              DeploymentLabel(DeploymentName(c.name, g.name)));
      if check.None? {
        assert g in c.workers;
        return None;
      }
      checks := checks + [check.value];
    }
    var check := BuildCheck(c, c.controlPlane, ControlPlaneCheckName(c.name), ControlPlaneLabel);
    r := if check.None? then None else Some(checks + [check.value]);
  }

  ghost predicate Objects(spec: Spec, checks: seq<Check>) {
    && |checks| == |spec.workers| + 1
    && (forall i :: 0 <= i < |spec.workers| ==> BuiltForWorker(spec, spec.workers[i]) == Some(checks[i]))
    && BuiltForControlPlane(spec) == Some(checks[|spec.workers|])
  }

  // ------------------------------------------------------------------ what defaulting means

  /** A second defaulting changes nothing, even with other defaults. */
  lemma DefaultingIsIdempotent(spec: Spec, d: Defaults, d': Defaults)
    ensures Defaulted(Defaulted(spec, d), d') == Defaulted(spec, d)
  {
  }

  /** What the first check sets, the second has. */
  predicate Keeps(c: Option<HealthCheck>, c': Option<HealthCheck>) {
    && (c.Some? ==> c'.Some?)
    && (OrEmpty(c).nodeStartup.Some? ==> OrEmpty(c').nodeStartup == OrEmpty(c).nodeStartup)
    && (OrEmpty(c).unhealthy.Some? ==> OrEmpty(c').unhealthy == OrEmpty(c).unhealthy)
    && (OrEmpty(c).maxUnhealthy.Some? ==> OrEmpty(c').maxUnhealthy == OrEmpty(c).maxUnhealthy)
  }

  /** What the user has set stays as it is. */
  lemma DefaultingKeepsUserValues(spec: Spec, d: Defaults)
    ensures var spec' := Defaulted(spec, d);
            && Keeps(spec.check, spec'.check) && Keeps(spec.controlPlane, spec'.controlPlane)
            && |spec'.workers| == |spec.workers|
            && forall i :: 0 <= i < |spec.workers| ==>
                             spec'.workers[i].name == spec.workers[i].name
                               && Keeps(spec.workers[i].check, spec'.workers[i].check)
  {
  }

  /** What a check should be: own value, else the user's value for the cluster, else the default of the role. */
  function Intended(user: Spec, d: Defaults, own: Option<HealthCheck>, maxDefault: IntOrString, name: string,
                    selector: Selector): Check {
    var c, o := OrEmpty(user.check), OrEmpty(own);
    Check(name, user.name, selector,
          Some(Or(OrElse(o.nodeStartup, c.nodeStartup), StartupDefault(user, d))),
          var t := Or(OrElse(o.unhealthy, c.unhealthy), d.unhealthy); [(Unknown, t), (False, t)],
          Some(Or(OrElse(o.maxUnhealthy, c.maxUnhealthy), maxDefault)))
  }

  /** For every spec the builders succeed after defaulting, and build what the user intends. */
  lemma DefaultingGivesIntendedChecks(user: Spec, d: Defaults)
    ensures var spec := Defaulted(user, d);
            && BuiltForControlPlane(spec) ==
               Some(Intended(user, d, user.controlPlane, d.maxUnhealthy, ControlPlaneCheckName(user.name),
                             ControlPlaneLabel))
            && |spec.workers| == |user.workers|
            && forall i :: 0 <= i < |user.workers| ==>
                             BuiltForWorker(spec, spec.workers[i]) ==
                             Some(Intended(user, d, user.workers[i].check, d.workerMaxUnhealthy,
                                           WorkerCheckName(user.name, user.workers[i].name),
                                           DeploymentLabel(DeploymentName(user.name, user.workers[i].name))))
  {
  }

  /** The time to start: the user's, or 20 minutes instead of 10 for Tinkerbell, or the default that is given. */
  lemma StartupTimeout(user: Spec, d: Defaults)
    ensures var spec := Defaulted(user, d);
            && spec.check.Some?
            && spec.check.value.nodeStartup ==
               if user.check.Some? && user.check.value.nodeStartup.Some? then user.check.value.nodeStartup
               else if user.tinkerbell && d.nodeStartup == 600_000_000_000 then Some(1_200_000_000_000)
               else Some(d.nodeStartup)
  {
  }

  /** The names of the checks, the machines they select, and the two conditions they look at. */
  lemma ChecksAreNamed(spec: Spec, checks: seq<Check>)
    requires Objects(spec, checks)
    ensures |checks| == |spec.workers| + 1
    ensures var check := checks[|spec.workers|];
            check.name == spec.name + "-kcp-unhealthy" && check.selector == ControlPlaneLabel
    ensures forall i :: 0 <= i < |spec.workers| ==>
              && checks[i].name == spec.name + "-" + spec.workers[i].name + "-worker-unhealthy"
              && checks[i].selector == DeploymentLabel(spec.name + "-" + spec.workers[i].name)
    ensures forall check <- checks ::
              && check.cluster == spec.name
              && exists t :: check.conditions == [(Unknown, t), (False, t)]
  {
  }

  /** Groups with different names get different checks, and none of them is the one of the control plane. */
  lemma CheckNamesDiffer(spec: Spec, checks: seq<Check>, i: nat, j: nat)
    requires Objects(spec, checks) && i < j <= |spec.workers|
    requires j < |spec.workers| ==> spec.workers[i].name != spec.workers[j].name
    ensures checks[i].name != checks[j].name && checks[i].selector != checks[j].selector
  {
    ChecksAreNamed(spec, checks);
    var a := spec.workers[i].name;
    var prefix, suffix := spec.name + "-", "-worker-unhealthy";
    assert checks[i].name == prefix + a + suffix;
    if j == |spec.workers| {
      assert checks[j].name[|checks[j].name| - 11] == 'p';
      assert checks[i].name[|checks[i].name| - 11] == 'r';
    } else {
      var b := spec.workers[j].name;
      assert checks[j].name == prefix + b + suffix;
      assert (prefix + a + suffix)[|prefix|..|prefix| + |a|] == a;
      assert (prefix + b + suffix)[|prefix|..|prefix| + |b|] == b;
      assert (prefix + a)[|prefix|..] == a && (prefix + b)[|prefix|..] == b;
    }
  }

  /** The two calls together: a cluster is completed and its checks are built. */
  method DefaultAndBuild(c: Cluster, d: Defaults) returns (checks: seq<Check>)
    modifies c
    ensures c.GetSpec() == Defaulted(old(c.GetSpec()), d)
    ensures |checks| == |old(c.workers)| + 1
    ensures forall i :: 0 <= i < |old(c.workers)| ==>
                          var g := old(c.workers)[i];
                          checks[i] == Intended(old(c.GetSpec()), d, g.check, d.workerMaxUnhealthy,
                                                WorkerCheckName(c.name, g.name),
                                                DeploymentLabel(DeploymentName(c.name, g.name)))
    ensures checks[|old(c.workers)|] ==
            Intended(old(c.GetSpec()), d, old(c.controlPlane), d.maxUnhealthy, ControlPlaneCheckName(c.name),
                     ControlPlaneLabel)
  {
    c.SetDefaults(d);
    var r := MachineHealthCheckObjects(c);
    DefaultingGivesIntendedChecks(old(c.GetSpec()), d);
    checks := r.value;
  }
}
