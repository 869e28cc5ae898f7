/** What holds in every run of the upgrade protocol, whatever is interleaved and whatever fails. */
module UpgradeTheorems {
  import opened Wrappers
  import opened UpgradeModel
  import opened UpgradeInvariant

  lemma InitialInv(w: World)
    requires Initial(w)
    ensures Inv(w)
  {
  }

  /** Health check pairing, at every point of every run. */
  lemma HealthCheckPairing(start: World, steps: seq<Step>)
    requires Initial(start) && IsRun(start, steps)
    ensures var w := After(start, steps);
            && (Live(w) ==> w.paused && w.annotation)
            && (!w.annotation ==> !w.paused)
  {
    InitialInv(start);
    RunKeepsInv(start, steps);
  }

  // ------------------------------------------------------------------ one node at a time

  /**
   * The machines with a NodeUpgrade are the first k, and only the last of them may be
   * unfinished. Only they have pods, each of the kind for its machine.
   */
  predicate IsPrefix(w: World, ms: seq<Name>, k: nat) {
    && k <= |ms|
    && (forall i :: 0 <= i < k ==> ms[i] in w.nodes && !w.nodes[ms[i]].deleting)
    && (forall i :: k <= i < |ms| ==> ms[i] !in w.nodes)
    && (forall i :: 0 <= i < k - 1 ==> w.nodes[ms[i]].completed)
    && (forall i :: 0 <= i < k ==> (w.nodes[ms[i]].first <==> w.role.ControlPlane? && i == 0))
    && (forall i :: 0 <= i < |ms| && ms[i] in w.pods ==>
          && i < k
          && (w.role.Workers? ==> w.pods[ms[i]].kind == WorkerPod)
          && (w.role.ControlPlane? && i == 0 ==> w.pods[ms[i]].kind == FirstControlPlanePod)
          && (w.role.ControlPlane? && i > 0 ==> w.pods[ms[i]].kind == SecondaryControlPlanePod))
  }

  function FirstMissing(w: World, ms: seq<Name>, i: nat): (k: nat)
    requires i <= |ms|
    ensures i <= k <= |ms|
    ensures forall j :: i <= j < k ==> ms[j] in w.nodes
    ensures k < |ms| ==> ms[k] !in w.nodes
    decreases |ms| - i
  {
    if i < |ms| && ms[i] in w.nodes then FirstMissing(w, ms, i + 1) else i
  }

  lemma LivePrefix(w: World)
    requires Inv(w) && w.clean && Live(w)
    ensures IsPrefix(w, w.life.value.machines, FirstMissing(w, w.life.value.machines, 0))
  {
    var ms := w.life.value.machines;
    forall i | 0 <= i < |ms|
      ensures MachineInv(w, ms[i], w.life.value) && (ms[i] == ms[0] <==> i == 0)
    {
    }
    var k := FirstMissing(w, ms, 0);
    assert forall i :: k < i < |ms| && ms[i] in w.nodes ==> NodeDone(w, ms[k]);
    assert forall i :: 0 <= i < k - 1 && ms[k - 1] in w.nodes ==> NodeDone(w, ms[i]);
  }

  /** In every run of a clean life, also while it ends, a machine's pod is of the kind for that machine. */
  lemma RightPodForEachMachine(start: World, steps: seq<Step>, i: nat)
    requires Initial(start) && IsRun(start, steps) && After(start, steps).clean
    requires var life := After(start, steps).life; life.Some? && i < |life.value.machines|
    ensures var w := After(start, steps);
            var m := w.life.value.machines[i];
            m in w.pods ==>
              match w.role
              case Workers => w.pods[m].kind == WorkerPod
              case ControlPlane => w.pods[m].kind == (if i == 0 then FirstControlPlanePod else SecondaryControlPlanePod)
  {
    InitialInv(start);
    RunKeepsInv(start, steps);
    var w := After(start, steps);
    assert MachineInv(w, w.life.value.machines[i], w.life.value) && Distinct(w.life.value.machines);
  }

  lemma OneNodeAtATime(start: World, steps: seq<Step>)
    requires Initial(start) && IsRun(start, steps)
    ensures var w := After(start, steps);
            w.clean && Live(w) ==> exists k :: IsPrefix(w, w.upgrade.value.spec.machines, k)
  {
    InitialInv(start);
    RunKeepsInv(start, steps);
    if After(start, steps).clean && Live(After(start, steps)) {
      LivePrefix(After(start, steps));
    }
  }

  // ------------------------------------------------------------------ lives

  predicate Creates(s: Step) {
    s.OwnerDoes? && s.o.CreateUpgrade?
  }

  predicate NoCreate(steps: seq<Step>) {
    forall i :: 0 <= i < |steps| ==> !Creates(steps[i])
  }

  /** The last step of the run is the one that makes the pod's six containers all exit with 0. */
  predicate FinishesPod(start: World, steps: seq<Step>, m: Name, version: Version)
    requires IsRun(start, steps)
  {
    steps != [] && Finishes(After(start, steps[..|steps| - 1]), steps[|steps| - 1], m, version)
  }

  /** Some prefix of the run, longer than the first `from` steps, finishes the pod. */
  predicate PodFinished(start: World, steps: seq<Step>, from: nat, m: Name, version: Version)
    requires IsRun(start, steps)
  {
    exists j :: from < j <= |steps| && IsRun(start, steps[..j]) && FinishesPod(start, steps[..j], m, version)
  }

  lemma PodFinishedLonger(start: World, steps: seq<Step>, from: nat, m: Name, version: Version)
    requires from < |steps| && IsRun(start, steps)
    ensures PodFinished(start, steps, from, m, version) <==>
            PodFinished(start, steps[..|steps| - 1], from, m, version) || FinishesPod(start, steps, m, version)
  {
    var before := steps[..|steps| - 1];
    assert forall j :: 0 <= j <= |before| ==> before[..j] == steps[..j];
    assert steps[..|steps|] == steps;
  }

  /** The step is the one that makes the pod's six containers all exit with 0. */
  predicate Finishes(w: World, s: Step, m: Name, version: Version)
    requires Guard(w, s)
  {
    && s.EnvironmentDoes?
    && s.e.Progress?
    && s.e.m == m
    && !AllDone(w.pods[m])
    && var pod := Apply(w, s).pods[m];
    && pod.version == version
    && AllDone(pod)
  }

  predicate SameRecord(w: World, w': World) {
    w'.life == w.life && w'.safe == w.safe && w'.clean == w.clean
  }

  lemma OwnerStepRecord(w: World, s: OwnerStep)
    requires OwnerGuard(w, s) && !s.CreateUpgrade?
    ensures var w' := OwnerApply(w, s); SameRecord(w, w') && w'.succeeded == w.succeeded
  {
    match s
    case PauseCheck =>
    case DeleteUpgrade =>
    case ResumeCheck =>
    case ClearAnnotation =>
  }

  lemma EnvironmentStepRecord(w: World, s: EnvironmentStep, m: Name, version: Version)
    requires EnvironmentGuard(w, s)
    ensures var w' := EnvironmentApply(w, s);
            && SameRecord(w, w')
            && ((m, version) in w'.succeeded <==>
              (m, version) in w.succeeded || Finishes(w, EnvironmentDoes(s), m, version))
  {
    match s
    case Progress(_, _, _) =>
    case LosePod(_) =>
    case SetAnnotation =>
    case Observe(_) =>
  }

  lemma UpgraderStepRecord(w: World, s: UpgraderStep)
    requires UpgraderGuard(w, s)
    ensures var w' := UpgraderApply(w, s); SameRecord(w, w') && w'.succeeded == w.succeeded
  {
    match s
    case CreateNode(_) =>
    case DeleteNode(_) =>
    case PatchMachine(_, _) =>
    case PatchKubeadmConfig(_) =>
    case PatchInfraMachine(_) =>
    case PatchMachineSet =>
    case PatchUpgrade(_, _, _, _) =>
  }

  lemma NodeStepRecord(w: World, m: Name, s: NodeStep)
    requires NodeGuard(w, m, s)
    ensures var w' := NodeApply(w, m, s); SameRecord(w, w') && w'.succeeded == w.succeeded
  {
    match s
    case Begin =>
    case End =>
    case CreatePod(_, _) =>
    case DeletePod =>
    case PatchNode(_, _, _, _) =>
  }

  /** A step inside a life keeps its record, and only a pod that finishes adds to it. */
  lemma StepRecord(w: World, s: Step, m: Name, version: Version)
    requires Guard(w, s) && !Creates(s)
    ensures SameRecord(w, Apply(w, s))
    ensures (m, version) in Apply(w, s).succeeded <==> (m, version) in w.succeeded || Finishes(w, s, m, version)
  {
    match s
    case OwnerDoes(o) => OwnerStepRecord(w, o);
    case UpgraderDoes(u) => UpgraderStepRecord(w, u);
    case NodeDoes(m', n) => NodeStepRecord(w, m', n);
    case EnvironmentDoes(e) => EnvironmentStepRecord(w, e, m, version);
  }

  /** A life begins with its spec, an assessment of the leftovers and no record. */
  lemma LifeBegins(start: World, before: seq<Step>, spec: UpgradeSpec)
    requires IsRun(start, before) && IsRun(start, before + [OwnerDoes(CreateUpgrade(spec))])
    ensures var w := After(start, before + [OwnerDoes(CreateUpgrade(spec))]);
            && w.life == Some(spec)
            && w.safe == AllHarmless(After(start, before), spec)
            && w.clean == CleanStart(After(start, before), spec.machines)
            && w.succeeded == {}
  {
    hide AllHarmless, CleanStart, AllAre;
    var steps := before + [OwnerDoes(CreateUpgrade(spec))];
    assert steps[..|steps| - 1] == before;
  }

  /** `life` is the spec that the last creation wrote, and `succeeded` records exactly the pods that finished since. */
  lemma {:induction false} LifeRecord(start: World, before: seq<Step>, spec: UpgradeSpec, rest: seq<Step>, m: Name)
    requires IsRun(start, before + [OwnerDoes(CreateUpgrade(spec))] + rest) && NoCreate(rest)
    requires IsRun(start, before)
    ensures var steps := before + [OwnerDoes(CreateUpgrade(spec))] + rest;
            var w := After(start, steps);
            && w.life == Some(spec)
            && w.safe == AllHarmless(After(start, before), spec)
            && w.clean == CleanStart(After(start, before), spec.machines)
            && ((m, spec.version) in w.succeeded <==> PodFinished(start, steps, |before| + 1, m, spec.version))
  {
    var steps := before + [OwnerDoes(CreateUpgrade(spec))] + rest;
    var shorter := steps[..|steps| - 1];
    hide Guard, Apply, AllHarmless, CleanStart;
    if rest == [] {
      assert steps == before + [OwnerDoes(CreateUpgrade(spec))];
      LifeBegins(start, before, spec);
    } else {
      assert shorter == before + [OwnerDoes(CreateUpgrade(spec))] + rest[..|rest| - 1];
      LifeRecord(start, before, spec, rest[..|rest| - 1], m);
      StepRecord(After(start, shorter), rest[|rest| - 1], m, spec.version);
      PodFinishedLonger(start, steps, |before| + 1, m, spec.version);
    }
  }

  // ------------------------------------------------------------------ observed versions

  lemma OwnerStepMatched(w: World, s: OwnerStep)
    requires OwnerGuard(w, s) && !s.CreateUpgrade?
    ensures OwnerApply(w, s).observed == w.observed && OwnerApply(w, s).matched == w.matched
  {
    match s
    case PauseCheck =>
    case DeleteUpgrade =>
    case ResumeCheck =>
    case ClearAnnotation =>
  }

  lemma UpgraderStepMatched(w: World, s: UpgraderStep)
    requires UpgraderGuard(w, s)
    ensures UpgraderApply(w, s).observed == w.observed && UpgraderApply(w, s).matched == w.matched
  {
    match s
    case CreateNode(_) =>
    case DeleteNode(_) =>
    case PatchMachine(_, _) =>
    case PatchKubeadmConfig(_) =>
    case PatchInfraMachine(_) =>
    case PatchMachineSet =>
    case PatchUpgrade(_, _, _, _) =>
  }

  lemma NodeStepMatched(w: World, m: Name, s: NodeStep)
    requires NodeGuard(w, m, s)
    ensures NodeApply(w, m, s).observed == w.observed && NodeApply(w, m, s).matched == w.matched
  {
    match s
    case Begin =>
    case End =>
    case CreatePod(_, _) =>
    case DeletePod =>
    case PatchNode(_, _, _, _) =>
  }

  lemma EnvironmentStepMatched(w: World, s: EnvironmentStep)
    requires Accounts(w) && w.life.Some? && EnvironmentGuard(w, s)
    ensures var w' := EnvironmentApply(w, s);
            w'.matched <==> w.matched || AllAre(w'.observed, w.life.value.version)
  {
    match s
    case Progress(_, _, _) =>
    case LosePod(_) =>
    case SetAnnotation =>
    case Observe(_) =>
  }

  lemma StepMatched(w: World, s: Step)
    requires Accounts(w) && w.life.Some? && Guard(w, s) && !Creates(s)
    ensures Apply(w, s).matched <==> w.matched || AllAre(Apply(w, s).observed, w.life.value.version)
  {
    match s
    case OwnerDoes(o) => OwnerStepMatched(w, o);
    case UpgraderDoes(u) => UpgraderStepMatched(w, u);
    case NodeDoes(m, n) => NodeStepMatched(w, m, n);
    case EnvironmentDoes(e) => EnvironmentStepMatched(w, e);
  }

  /** At some moment from `from` on, all observed versions were this one. */
  predicate ObservedSince(start: World, steps: seq<Step>, from: nat, version: Version)
    requires IsRun(start, steps)
  {
    exists j :: from <= j <= |steps| && IsRun(start, steps[..j]) && AllAre(After(start, steps[..j]).observed, version)
  }

  lemma ObservedLonger(start: World, steps: seq<Step>, from: nat, version: Version)
    requires from < |steps| && IsRun(start, steps)
    ensures ObservedSince(start, steps, from, version) <==>
            ObservedSince(start, steps[..|steps| - 1], from, version) || AllAre(After(start, steps).observed, version)
  {
    hide Guard, Apply, AllAre;
    var before := steps[..|steps| - 1];
    assert forall j :: 0 <= j <= |before| ==> before[..j] == steps[..j];
    assert steps[..|steps|] == steps;
  }

  lemma MatchedBegins(start: World, before: seq<Step>, spec: UpgradeSpec)
    requires IsRun(start, before) && IsRun(start, before + [OwnerDoes(CreateUpgrade(spec))])
    ensures var steps := before + [OwnerDoes(CreateUpgrade(spec))];
            After(start, steps).matched <==> ObservedSince(start, steps, |before| + 1, spec.version)
  {
    hide AllHarmless, CleanStart, AllAre;
    var steps := before + [OwnerDoes(CreateUpgrade(spec))];
    assert steps[..|steps| - 1] == before && steps[..|steps|] == steps;
  }

  /** `matched` records exactly whether all observed versions were the target at some moment of the life. */
  lemma {:induction false} MatchedRecord(start: World, before: seq<Step>, spec: UpgradeSpec, rest: seq<Step>)
    requires Initial(start) && IsRun(start, before + [OwnerDoes(CreateUpgrade(spec))] + rest) && NoCreate(rest)
    requires IsRun(start, before)
    ensures var steps := before + [OwnerDoes(CreateUpgrade(spec))] + rest;
            After(start, steps).matched <==> ObservedSince(start, steps, |before| + 1, spec.version)
  {
    var steps := before + [OwnerDoes(CreateUpgrade(spec))] + rest;
    var shorter := steps[..|steps| - 1];
    hide Guard, Apply, AllHarmless, CleanStart;
    if rest == [] {
      assert steps == before + [OwnerDoes(CreateUpgrade(spec))];
      MatchedBegins(start, before, spec);
    } else {
      assert shorter == before + [OwnerDoes(CreateUpgrade(spec))] + rest[..|rest| - 1];
      MatchedRecord(start, before, spec, rest[..|rest| - 1]);
      LifeRecord(start, before, spec, rest[..|rest| - 1], Name(""));
      InitialInv(start);
      RunKeepsInv(start, shorter);
      assert Accounts(After(start, shorter));
      hide Inv, Initial, Accounts;
      StepMatched(After(start, shorter), rest[|rest| - 1]);
      ObservedLonger(start, steps, |before| + 1, spec.version);
    }
  }

  /**
   * An upgrade object is deleted only after, in its life, the status version of the
   * control plane, or the version of every listed worker, had been seen at the target.
   */
  lemma DeletedOnlyIfObserved(start: World, before: seq<Step>, spec: UpgradeSpec, rest: seq<Step>)
    requires Initial(start) && IsRun(start, before) && NoCreate(rest)
    requires var life := before + [OwnerDoes(CreateUpgrade(spec))] + rest;
             IsRun(start, life) && IsRun(start, life + [OwnerDoes(DeleteUpgrade)])
    ensures var life := before + [OwnerDoes(CreateUpgrade(spec))] + rest;
            ObservedSince(start, life, |before| + 1, spec.version)
  {
    var life := before + [OwnerDoes(CreateUpgrade(spec))] + rest;
    var all := life + [OwnerDoes(DeleteUpgrade)];
    assert all[..|all| - 1] == life;
    MatchedRecord(start, before, spec, rest);
  }

  // ------------------------------------------------------------------ counters

  /**
   * In every reachable world the counters of the upgrade object add up to its machines, and
   * it is ready exactly if none is required; or nothing has been counted yet.
   */
  lemma CountersAddUp(start: World, steps: seq<Step>)
    requires Initial(start) && IsRun(start, steps) && After(start, steps).upgrade.Some?
    ensures var u := After(start, steps).upgrade.value;
            || (u.upgraded + u.required == |u.spec.machines| && (u.ready <==> u.required == 0))
            || (u.upgraded == 0 && u.required == 0 && !u.ready)
  {
    InitialInv(start);
    RunKeepsInv(start, steps);
  }

  // ------------------------------------------------------------------ end to end

  lemma CleanIsHarmless(w: World, spec: UpgradeSpec)
    requires CleanStart(w, spec.machines)
    ensures AllHarmless(w, spec)
  {
  }

  /**
   * The annotation of a life that found only harmless leftovers, or none, is cleared only after, in that life,
   * the upgrader pod of every listed machine ran its six containers to exit 0, and
   * after machine, KubeadmConfig and infrastructure machine were patched, and after the
   * observed versions had been the target.
   */
  lemma EndToEndSafety(start: World, before: seq<Step>, spec: UpgradeSpec, rest: seq<Step>, m: Name)
    requires Initial(start)
    requires IsRun(start, before) && AllHarmless(After(start, before), spec)
    requires NoCreate(rest)
    requires var life := before + [OwnerDoes(CreateUpgrade(spec))] + rest;
             IsRun(start, life) && IsRun(start, life + [OwnerDoes(ClearAnnotation)])
    requires m in spec.machines
    ensures var life := before + [OwnerDoes(CreateUpgrade(spec))] + rest;
            && PodFinished(start, life, |before| + 1, m, spec.version)
            && Patched(After(start, life), m, spec)
            && ObservedSince(start, life, |before| + 1, spec.version)
            && !Live(After(start, life))
            && !After(start, life).paused
  {
    var life := before + [OwnerDoes(CreateUpgrade(spec))] + rest;
    InitialInv(start);
    RunKeepsInv(start, life);
    LifeRecord(start, before, spec, rest, m);
    MatchedRecord(start, before, spec, rest);
    var all := life + [OwnerDoes(ClearAnnotation)];
    assert all[..|all| - 1] == life;
    assert SafeMachine(After(start, life), m, spec);
  }

  // ------------------------------------------------------------------ no orphans

  /**
   * Once an upgrade object has vanished, in any life, its NodeUpgrades are gone or
   * deleting. In a clean life, the pod of a NodeUpgrade that has vanished is deleted.
   */
  lemma NoOrphans(start: World, steps: seq<Step>, m: Name)
    requires Initial(start) && IsRun(start, steps)
    requires After(start, steps).life.Some? && m in After(start, steps).life.value.machines
    ensures var w := After(start, steps);
            && (w.upgrade.None? && m in w.nodes ==> w.nodes[m].deleting && w.nodes[m].finalizer)
            && (w.clean && m !in w.nodes && m in w.pods ==> w.pods[m].deleting)
            && (w.clean && Live(w) && m !in w.nodes ==> m !in w.pods)
  {
    InitialInv(start);
    RunKeepsInv(start, steps);
    var w := After(start, steps);
    if w.clean {
      assert MachineInv(w, m, w.life.value);
    }
    assert m in w.nodes ==> Orderly(w, m);
  }

  /** Every deletion that the protocol starts in a clean life finds the finalizer persisted. */
  lemma DeletionFindsFinalizer(start: World, steps: seq<Step>, s: Step)
    requires Initial(start) && IsRun(start, steps) && Guard(After(start, steps), s)
    ensures var w := After(start, steps);
            && (s == OwnerDoes(DeleteUpgrade) ==> w.upgrade.value.finalizer)
            && (w.clean && s.UpgraderDoes? && s.u.DeleteNode? ==> w.nodes[s.u.m].finalizer && w.nodes[s.u.m].completed)
  {
    InitialInv(start);
    RunKeepsInv(start, steps);
    var w := After(start, steps);
    if w.clean && s.UpgraderDoes? && s.u.DeleteNode? {
      assert MachineInv(w, s.u.m, w.life.value);
    }
  }

  /** In a clean life, a NodeUpgrade that is there vanishes only after the upgrade object was deleted. */
  predicate VanishesLast(w: World, m: Name) {
    Inv(w) && Governed(w, m) && (m !in w.nodes ==> w.ended)
  }

  /** It vanishes only at the end, and what has vanished stays away. */
  predicate VanishesWell(w: World, w': World, m: Name) {
    && (m !in w'.nodes ==> w'.ended)
    && (m !in w.nodes ==> m !in w'.nodes && (m !in w.pods ==> m !in w'.pods))
  }

  lemma UpgraderVanishStep(w: World, s: UpgraderStep, m: Name)
    requires Bookkeeping(w) && Governed(w, m) && (m !in w.nodes ==> w.ended) && UpgraderGuard(w, s)
    ensures VanishesWell(w, UpgraderApply(w, s), m)
  {
    match s
    case CreateNode(_) =>
    case DeleteNode(_) =>
    case PatchMachine(_, _) =>
    case PatchKubeadmConfig(_) =>
    case PatchInfraMachine(_) =>
    case PatchMachineSet =>
    case PatchUpgrade(_, _, _, _) =>
  }

  lemma NodeVanishStep(w: World, m': Name, s: NodeStep, m: Name)
    requires Bookkeeping(w) && Governed(w, m) && MachineInv(w, m, w.life.value) && (m !in w.nodes ==> w.ended)
    requires NodeGuard(w, m', s)
    ensures VanishesWell(w, NodeApply(w, m', s), m)
  {
    match s
    case Begin =>
    case End =>
    case CreatePod(_, _) =>
    case DeletePod =>
    case PatchNode(_, _, _, _) =>
  }

  lemma OwnerVanishStep(w: World, s: OwnerStep, m: Name)
    requires (m !in w.nodes ==> w.ended) && OwnerGuard(w, s) && !s.CreateUpgrade?
    ensures VanishesWell(w, OwnerApply(w, s), m)
  {
    match s
    case PauseCheck =>
    case DeleteUpgrade =>
    case ResumeCheck =>
    case ClearAnnotation =>
  }

  lemma EnvironmentVanishStep(w: World, s: EnvironmentStep, m: Name)
    requires (m !in w.nodes ==> w.ended) && EnvironmentGuard(w, s)
    ensures VanishesWell(w, EnvironmentApply(w, s), m)
  {
    match s
    case Progress(_, _, _) =>
    case LosePod(_) =>
    case SetAnnotation =>
    case Observe(_) =>
  }

  lemma VanishStep(w: World, s: Step, m: Name)
    requires Bookkeeping(w) && Governed(w, m) && MachineInv(w, m, w.life.value) && (m !in w.nodes ==> w.ended)
    requires Guard(w, s) && !Creates(s)
    ensures VanishesWell(w, Apply(w, s), m)
  {
    hide Bookkeeping, MachineInv, VanishesWell;
    match s
    case OwnerDoes(o) => OwnerVanishStep(w, o, m);
    case UpgraderDoes(u) => UpgraderVanishStep(w, u, m);
    case NodeDoes(m', n) => NodeVanishStep(w, m', n, m);
    case EnvironmentDoes(e) => EnvironmentVanishStep(w, e, m);
  }

  lemma VanishesLastStep(w: World, s: Step, m: Name)
    requires VanishesLast(w, m) && Guard(w, s) && !Creates(s)
    ensures VanishesLast(Apply(w, s), m)
    ensures m !in w.nodes ==> m !in Apply(w, s).nodes && (m !in w.pods ==> m !in Apply(w, s).pods)
  {
    assert MachineInv(w, m, w.life.value) && Bookkeeping(w);
    hide Inv, Guard, Apply, MachineInv, Bookkeeping;
    StepKeepsInv(w, s);
    StepRecord(w, s, m, w.life.value.version);
    VanishStep(w, s, m);
  }

  lemma {:induction false} VanishesOnlyAfterTheEnd(w: World, steps: seq<Step>, m: Name)
    requires Inv(w) && Governed(w, m) && m in w.nodes && IsRun(w, steps) && NoCreate(steps)
    ensures VanishesLast(After(w, steps), m)
  {
    if steps != [] {
      VanishesOnlyAfterTheEnd(w, steps[..|steps| - 1], m);
      VanishesLastStep(After(w, steps[..|steps| - 1]), steps[|steps| - 1], m);
    }
  }

  /** Once a NodeUpgrade has vanished, neither it nor its pod comes back in that life. */
  lemma {:induction false} NeverRecreated(w: World, steps: seq<Step>, i: nat, m: Name)
    requires Inv(w) && Governed(w, m) && m in w.nodes && IsRun(w, steps) && NoCreate(steps)
    requires i <= |steps| && IsRun(w, steps[..i]) && m !in After(w, steps[..i]).nodes
    ensures After(w, steps).ended && m !in After(w, steps).nodes
    ensures m !in After(w, steps[..i]).pods ==> m !in After(w, steps).pods
  {
    VanishesOnlyAfterTheEnd(w, steps, m);
    if i == |steps| {
      assert steps[..i] == steps;
    } else {
      var before := steps[..|steps| - 1];
      assert before[..i] == steps[..i];
      NeverRecreated(w, before, i, m);
      VanishesOnlyAfterTheEnd(w, before, m);
      VanishesLastStep(After(w, before), steps[|steps| - 1], m);
    }
  }

  // ------------------------------------------------------------------ stability

  /** If the NodeUpgrade is still there, it is still completed, and no pod was created for it. */
  predicate StaysCompleted(w: World, w': World, m: Name) {
    m in w'.nodes ==> w'.nodes[m].completed && (m !in w.pods ==> m !in w'.pods)
  }

  lemma OwnerCompletedStep(w: World, s: OwnerStep, m: Name)
    requires NodeDone(w, m) && OwnerGuard(w, s)
    ensures StaysCompleted(w, OwnerApply(w, s), m)
  {
    match s
    case PauseCheck =>
    case CreateUpgrade(_) =>
    case DeleteUpgrade =>
    case ResumeCheck =>
    case ClearAnnotation =>
  }

  lemma UpgraderCompletedStep(w: World, s: UpgraderStep, m: Name)
    requires NodeDone(w, m) && UpgraderGuard(w, s)
    ensures StaysCompleted(w, UpgraderApply(w, s), m)
  {
    match s
    case CreateNode(_) =>
    case DeleteNode(_) =>
    case PatchMachine(_, _) =>
    case PatchKubeadmConfig(_) =>
    case PatchInfraMachine(_) =>
    case PatchMachineSet =>
    case PatchUpgrade(_, _, _, _) =>
  }

  lemma NodeCompletedStep(w: World, m': Name, s: NodeStep, m: Name)
    requires NodeDone(w, m) && NodeGuard(w, m', s)
    ensures StaysCompleted(w, NodeApply(w, m', s), m)
  {
    match s
    case Begin =>
    case End =>
    case CreatePod(_, _) =>
    case DeletePod =>
    case PatchNode(_, _, _, _) =>
  }

  lemma EnvironmentCompletedStep(w: World, s: EnvironmentStep, m: Name)
    requires NodeDone(w, m) && EnvironmentGuard(w, s)
    ensures StaysCompleted(w, EnvironmentApply(w, s), m)
  {
    match s
    case Progress(_, _, _) =>
    case LosePod(_) =>
    case SetAnnotation =>
    case Observe(_) =>
  }

  lemma CompletedStep(w: World, s: Step, m: Name)
    requires NodeDone(w, m) && Guard(w, s)
    ensures StaysCompleted(w, Apply(w, s), m)
  {
    hide StaysCompleted, NodeDone;
    match s
    case OwnerDoes(o) => OwnerCompletedStep(w, o, m);
    case UpgraderDoes(u) => UpgraderCompletedStep(w, u, m);
    case NodeDoes(m', n) => NodeCompletedStep(w, m', n, m);
    case EnvironmentDoes(e) => EnvironmentCompletedStep(w, e, m);
  }

  /** The NodeUpgrade of the machine is there all the time. */
  predicate Remains(w: World, steps: seq<Step>, m: Name)
    requires IsRun(w, steps)
    decreases |steps|
  {
    m in After(w, steps).nodes && (steps != [] ==> Remains(w, steps[..|steps| - 1], m))
  }

  /**
   * In every run, through any number of lives and whatever is left over: from the moment
   * it is completed until it vanishes, a NodeUpgrade stays completed, no pod is created
   * for it, and a pod that it still has is done.
   */
  lemma {:induction false} CompletedIsStable(w: World, steps: seq<Step>, m: Name)
    requires Inv(w) && NodeDone(w, m) && IsRun(w, steps) && Remains(w, steps, m)
    ensures NodeDone(After(w, steps), m)
    ensures m in After(w, steps).pods ==> m in w.pods && AllDone(After(w, steps).pods[m])
    decreases |steps|
  {
    RunKeepsInv(w, steps);
    assert Orderly(After(w, steps), m);
    if steps != [] {
      var before := steps[..|steps| - 1];
      CompletedIsStable(w, before, m);
      hide Guard, Apply, Inv;
      CompletedStep(After(w, before), steps[|steps| - 1], m);
    }
  }
}
