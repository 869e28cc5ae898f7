/**
The concurrent image processor: a feeder, a fixed number of workers and a collector
that meet on unbuffered channels.

A step is one rendezvous, one local move of a goroutine, one return of a `process`
call, or a cancellation from outside. Whether a `process` call fails is up to the
step, so a theorem about all runs is about all failure patterns and all schedules.
 */
module ImageProcessor {
  import opened Wrappers

  /** Checking: at the loop head. Sending: past the context check. Waiting: the jobs channel is closed. */
  datatype Feeder = Checking(next: nat) | Sending(next: nat) | Waiting | Finished

  datatype Worker = Idle | Processing(index: nat) | Reporting(index: nat) | Exited

  datatype State = State(
    images: nat,                 // how many there are; an image is known by its index
    feeder: Feeder,
    workers: seq<Worker>,
    cancelled: bool,             // the context handed to the jobs
    outside: bool,               // the caller's context was cancelled
    firstError: Option<nat>,     // the image whose error came first
    returned: bool,
    dispatched: seq<nat>,        // images handed out so far, in order
    results: map<nat, bool>)     // images whose process call has returned, and whether it succeeded

  datatype Step =
    | Check                          // the feeder looks at the context, or finds no more images
    | HandOut(worker: nat)           // rendezvous on the jobs channel
    | Return(worker: nat, ok: bool)  // a process call returns
    | Report(worker: nat)            // rendezvous on the error channel
    | Exit(worker: nat)              // a worker finds the jobs channel closed
    | Done                           // the feeder's wait for the workers is over
    | Leave                          // the collector finds the done channel closed
    | CancelFromOutside

  function Min(a: int, b: int): int { if a < b then a else b }

  function Max(a: int, b: int): int { if a > b then a else b }

  function Workers(images: nat, maxRoutines: int): nat {
    Max(Min(images, maxRoutines), 1)
  }

  function Start(images: nat, maxRoutines: int): State {
    State(images, Checking(0), seq(Workers(images, maxRoutines), _ => Idle), false, false, None, false, [], map[])
  }

  predicate Closed(s: State) {
    s.feeder.Waiting? || s.feeder.Finished?
  }

  predicate Enabled(s: State, step: Step) {
    match step
    case Check => s.feeder.Checking?
    case HandOut(k) => s.feeder.Sending? && k < |s.workers| && s.workers[k].Idle?
    case Return(k, _) => k < |s.workers| && s.workers[k].Processing?
    case Report(k) => !s.returned && k < |s.workers| && s.workers[k].Reporting?
    case Exit(k) => Closed(s) && k < |s.workers| && s.workers[k].Idle?
    case Done => s.feeder.Waiting? && forall k :: 0 <= k < |s.workers| ==> s.workers[k].Exited?
    case Leave => s.feeder.Finished? && !s.returned
    case CancelFromOutside => !s.outside
  }

  function Next(s: State, step: Step): State
    requires Enabled(s, step)
  {
    match step
    case Check =>
      s.(feeder := if s.feeder.next < s.images && !s.cancelled then Sending(s.feeder.next) else Waiting)
    case HandOut(k) =>
      var i := s.feeder.next;
      s.(feeder := Checking(i + 1), workers := s.workers[k := Processing(i)], dispatched := s.dispatched + [i])
    case Return(k, ok) =>
      var i := s.workers[k].index;
      s.(workers := s.workers[k := if ok then Idle else Reporting(i)], results := s.results[i := ok])
    case Report(k) =>
      s.(workers := s.workers[k := Idle], cancelled := true,
         firstError := if s.firstError.None? then Some(s.workers[k].index) else s.firstError)
    case Exit(k) => s.(workers := s.workers[k := Exited])
    case Done => s.(feeder := Finished)
    case Leave => s.(returned := true, cancelled := true)
    case CancelFromOutside => s.(outside := true, cancelled := true)
  }

  predicate IsRun(s: State, steps: seq<Step>)
    decreases |steps|
  {
    steps == [] || (Enabled(s, steps[0]) && IsRun(Next(s, steps[0]), steps[1..]))
  }

  function Final(s: State, steps: seq<Step>): State
    requires IsRun(s, steps)
    decreases |steps|
  {
    if steps == [] then s else Final(Next(s, steps[0]), steps[1..])
  }

  /** What `Process` returns: an error, or nothing. */
  predicate Fails(s: State) {
    s.firstError.Some?
  }

  predicate Failed(s: State, i: nat) {
    i in s.results && !s.results[i]
  }

  // ------------------------------------------------------------------ invariant

  /** The images handed out are 0, 1, 2, ... in this order. */
  predicate IsPrefix(dispatched: seq<nat>, images: nat) {
    |dispatched| <= images && forall j :: 0 <= j < |dispatched| ==> dispatched[j] == j
  }

  predicate FeederInv(s: State) {
    && IsPrefix(s.dispatched, s.images)
    && (s.feeder.Checking? ==> s.feeder.next == |s.dispatched|)
    && (s.feeder.Sending? ==> s.feeder.next == |s.dispatched| < s.images)
    && (Closed(s) ==> s.outside || s.firstError.Some? || |s.dispatched| == s.images)
    && (s.cancelled <==> s.outside || s.firstError.Some? || s.returned)
    && (s.returned ==> s.feeder.Finished?)
  }

  predicate WorkerInv(s: State) {
    && |s.workers| > 0
    && (forall k :: 0 <= k < |s.workers| && s.workers[k].Processing? ==>
          s.workers[k].index < |s.dispatched| && s.workers[k].index !in s.results)
    && (forall k :: 0 <= k < |s.workers| && s.workers[k].Reporting? ==> Failed(s, s.workers[k].index))
    && (forall k, l :: 0 <= k < l < |s.workers| && s.workers[k].Processing? && s.workers[l].Processing? ==>
          s.workers[k].index != s.workers[l].index)
    && (forall k :: 0 <= k < |s.workers| && s.workers[k].Exited? ==> Closed(s))
    && (s.feeder.Finished? ==> forall k :: 0 <= k < |s.workers| ==> s.workers[k].Exited?)
  }

  predicate AtWork(s: State, i: nat) {
    exists k :: 0 <= k < |s.workers| && s.workers[k] == Processing(i)
  }

  predicate Reported(s: State, i: nat) {
    s.firstError.Some? || exists k :: 0 <= k < |s.workers| && s.workers[k] == Reporting(i)
  }

  /** Every image handed out is at work or has a result; every failure is on its way or has arrived. */
  predicate ResultInv(s: State) {
    && (forall i: nat :: i < |s.dispatched| ==> i in s.results || AtWork(s, i))
    && (forall i :: i in s.results ==> i < |s.dispatched|)
    && (forall i :: i in s.results && Failed(s, i) ==> Reported(s, i))
    && (s.firstError.Some? ==> Failed(s, s.firstError.value))
  }

  predicate Inv(s: State) {
    FeederInv(s) && WorkerInv(s) && ResultInv(s)
  }

  lemma StartInv(images: nat, maxRoutines: int)
    ensures Inv(Start(images, maxRoutines))
  {
  }

  lemma StepKeepsResults(s: State, step: Step)
    requires Inv(s) && Enabled(s, step)
    ensures ResultInv(Next(s, step))
  {
    var s' := Next(s, step);
    forall i: nat | i < |s'.dispatched| && i !in s'.results
      ensures AtWork(s', i)
    {
      if i < |s.dispatched| {
        var k :| 0 <= k < |s.workers| && s.workers[k] == Processing(i);
        assert s'.workers[k] == Processing(i);
      } else {
        assert s'.workers[step.worker] == Processing(i);
      }
    }
    forall i: nat | Failed(s', i)
      ensures Reported(s', i)
    {
      if Failed(s, i) {
        if s.firstError.None? && !step.Report? {
          var k :| 0 <= k < |s.workers| && s.workers[k] == Reporting(i);
          assert s'.workers[k] == Reporting(i);
        }
      } else {
        assert s'.workers[step.worker] == Reporting(i);
      }
    }
  }

  /** Handing out an image puts one worker to work on an image that no other has. */
  lemma HandOutKeepsWorkers(s: State, k: nat)
    requires FeederInv(s) && WorkerInv(s) && (forall i :: i in s.results ==> i < |s.dispatched|)
             && Enabled(s, HandOut(k))
    ensures WorkerInv(Next(s, HandOut(k)))
  {
    var s' := Next(s, HandOut(k));
    assert forall l :: 0 <= l < |s.workers| && l != k ==> s'.workers[l] == s.workers[l];
  }

  /** A worker whose call returns, or that reports, is no longer at work. */
  lemma ReturnKeepsWorkers(s: State, step: Step)
    requires FeederInv(s) && WorkerInv(s) && (step.Return? || step.Report?) && Enabled(s, step)
    ensures WorkerInv(Next(s, step))
  {
    var s' := Next(s, step);
    assert forall l :: 0 <= l < |s.workers| && l != step.worker ==> s'.workers[l] == s.workers[l];
  }

  lemma StepKeepsWorkers(s: State, step: Step)
    requires FeederInv(s) && WorkerInv(s) && (forall i :: i in s.results ==> i < |s.dispatched|) && Enabled(s, step)
    ensures WorkerInv(Next(s, step))
  {
    match step
    case HandOut(k) => HandOutKeepsWorkers(s, k);
    case Return(_, _) => ReturnKeepsWorkers(s, step);
    case Report(_) => ReturnKeepsWorkers(s, step);
    case Check =>
    case Exit(_) =>
    case Done =>
    case Leave =>
    case CancelFromOutside =>
  }

  lemma StepKeepsInv(s: State, step: Step)
    requires Inv(s) && Enabled(s, step)
    ensures Inv(Next(s, step))
  {
    StepKeepsResults(s, step);
    StepKeepsWorkers(s, step);
  }

  lemma {:induction false} RunKeepsInv(s: State, steps: seq<Step>)
    requires Inv(s) && IsRun(s, steps)
    ensures Inv(Final(s, steps))
    ensures Final(s, steps).images == s.images && |Final(s, steps).workers| == |s.workers|
    decreases |steps|
  {
    if steps != [] {
      StepKeepsInv(s, steps[0]);
      RunKeepsInv(Next(s, steps[0]), steps[1..]);
    }
  }

  // ------------------------------------------------------------------ deadlock freedom

  /** Until `Process` returns, some step other than an outside cancellation can be taken. */
  lemma NeverStuck(s: State)
    requires Inv(s) && !s.returned
    ensures exists step :: step != CancelFromOutside && Enabled(s, step)
  {
    if k :| 0 <= k < |s.workers| && s.workers[k].Processing? {
      assert Enabled(s, Return(k, true));
    } else if k :| 0 <= k < |s.workers| && s.workers[k].Reporting? {
      assert Enabled(s, Report(k));
    } else if s.feeder.Checking? {
      assert Enabled(s, Check);
    } else if s.feeder.Finished? {
      assert Enabled(s, Leave);
    } else if k :| 0 <= k < |s.workers| && s.workers[k].Idle? {
      assert Enabled(s, if s.feeder.Sending? then HandOut(k) else Exit(k));
    } else {
      assert s.workers[0].Exited?;
      assert Enabled(s, Done);
    }
  }

  function WorkerWeight(w: Worker): nat {
    match w
    case Exited => 0
    case Idle => 1
    case Reporting(_) => 2
    case Processing(_) => 3
  }

  function Weight(ws: seq<Worker>): nat {
    if ws == [] then 0 else WorkerWeight(ws[0]) + Weight(ws[1..])
  }

  lemma {:induction false} WeightUpdate(ws: seq<Worker>, k: nat, w: Worker)
    requires k < |ws|
    ensures Weight(ws[k := w]) + WorkerWeight(ws[k]) == Weight(ws) + WorkerWeight(w)
  {
    if k == 0 {
      assert ws[0 := w][1..] == ws[1..];
    } else {
      WeightUpdate(ws[1..], k - 1, w);
      assert ws[k := w][1..] == ws[1..][k - 1 := w];
    }
  }

  function FeederWeight(s: State): nat {
    match s.feeder
    case Checking(i) => if i <= s.images then 4 * (s.images - i) + 2 else 2
    case Sending(i) => if i <= s.images then 4 * (s.images - i) + 1 else 1
    case Waiting => 1
    case Finished => 0
  }

  function Measure(s: State): nat {
    FeederWeight(s) + Weight(s.workers) + (if s.outside then 0 else 1) + (if s.returned then 0 else 1)
  }

  lemma StepDecreases(s: State, step: Step)
    requires Inv(s) && Enabled(s, step)
    ensures Measure(Next(s, step)) < Measure(s)
  {
    match step
    case HandOut(k) => WeightUpdate(s.workers, k, Processing(s.feeder.next));
    case Return(k, ok) => WeightUpdate(s.workers, k, if ok then Idle else Reporting(s.workers[k].index));
    case Report(k) => WeightUpdate(s.workers, k, Idle);
    case Exit(k) => WeightUpdate(s.workers, k, Exited);
    case _ =>
  }

  lemma {:induction false} RunIsBounded(s: State, steps: seq<Step>)
    requires Inv(s) && IsRun(s, steps)
    ensures |steps| + Measure(Final(s, steps)) <= Measure(s)
    decreases |steps|
  {
    if steps != [] {
      StepKeepsInv(s, steps[0]);
      StepDecreases(s, steps[0]);
      RunIsBounded(Next(s, steps[0]), steps[1..]);
    }
  }

  lemma {:induction false} IdleWeight(n: nat)
    ensures Weight(seq(n, _ => Idle)) == n
  {
    if n > 0 {
      IdleWeight(n - 1);
      assert seq(n, _ => Idle)[1..] == seq(n - 1, _ => Idle);
    }
  }

  /**
   * For any images, any limit, any failures and any cancellation: runs are finite, a
   * run that cannot be continued has returned, and then every worker has exited.
   */
  lemma ProcessTerminates(images: nat, maxRoutines: int, steps: seq<Step>)
    requires IsRun(Start(images, maxRoutines), steps)
    ensures |steps| <= 4 * images + Workers(images, maxRoutines) + 4
    ensures var s := Final(Start(images, maxRoutines), steps);
            && (!s.returned ==> exists step :: step != CancelFromOutside && Enabled(s, step))
            && (s.returned ==> forall k :: 0 <= k < |s.workers| ==> s.workers[k].Exited?)
  {
    var s := Start(images, maxRoutines);
    StartInv(images, maxRoutines);
    RunKeepsInv(s, steps);
    RunIsBounded(s, steps);
    IdleWeight(Workers(images, maxRoutines));
    if !Final(s, steps).returned {
      NeverStuck(Final(s, steps));
    }
  }

  // ------------------------------------------------------------------ dispatch and result

  function Busy(ws: seq<Worker>): set<nat> {
    set k | 0 <= k < |ws| && ws[k].Processing?
  }

  lemma {:induction false} BusyAtMost(ws: seq<Worker>)
    ensures |Busy(ws)| <= |ws|
    ensures (forall k :: 0 <= k < |ws| ==> ws[k].Processing?) ==> |Busy(ws)| == |ws|
  {
    if ws != [] {
      var n := |ws| - 1;
      BusyAtMost(ws[..n]);
      assert n !in Busy(ws[..n]);
      assert Busy(ws) == Busy(ws[..n]) + if ws[n].Processing? then {n} else {};
    } else {
      assert Busy(ws) == {};
    }
  }

  /**
   * At every moment at most `maxRoutines` images are in process, or one if that is less
   * than one, and no more than there are. There are as many workers as images or as the
   * limit allows, whichever is less.
   */
  lemma AtMostTheLimit(images: nat, maxRoutines: int, steps: seq<Step>)
    requires IsRun(Start(images, maxRoutines), steps)
    ensures var s := Final(Start(images, maxRoutines), steps);
            && |Busy(s.workers)| <= images
            && (if maxRoutines >= 1 then |Busy(s.workers)| <= maxRoutines else |Busy(s.workers)| <= 1)
            && (images >= 1 && maxRoutines >= 1 ==>
                  && |s.workers| <= images && |s.workers| <= maxRoutines
                  && (|s.workers| == images || |s.workers| == maxRoutines))
            && (images == 0 || maxRoutines < 1 ==> |s.workers| == 1)
  {
    StartInv(images, maxRoutines);
    RunKeepsInv(Start(images, maxRoutines), steps);
    var s := Final(Start(images, maxRoutines), steps);
    BusyAtMost(s.workers);
    if images == 0 {
      assert Busy(s.workers) == {};
    }
  }

  /** The images from k on are handed out to the workers from k on. */
  function HandOutAll(k: nat, n: nat): seq<Step>
    requires k <= n
    decreases n - k
  {
    if k == n then [] else [Check, HandOut(k)] + HandOutAll(k + 1, n)
  }

  lemma TwoSteps(s: State, a: Step, b: Step, rest: seq<Step>)
    requires Enabled(s, a) && Enabled(Next(s, a), b) && IsRun(Next(Next(s, a), b), rest)
    ensures IsRun(s, [a, b] + rest) && Final(s, [a, b] + rest) == Final(Next(Next(s, a), b), rest)
  {
    hide Enabled, Next;
    assert ([b] + rest)[1..] == rest && ([a, b] + rest)[1..] == [b] + rest;
    assert IsRun(Next(s, a), [b] + rest);
  }

  lemma {:induction false} HandOutAllRuns(s: State, k: nat)
    requires k <= |s.workers| <= s.images && s.feeder == Checking(k) && !s.cancelled
    requires forall j :: 0 <= j < |s.workers| ==> if j < k then s.workers[j].Processing? else s.workers[j].Idle?
    ensures IsRun(s, HandOutAll(k, |s.workers|))
    ensures var s' := Final(s, HandOutAll(k, |s.workers|));
            |s'.workers| == |s.workers| && forall j :: 0 <= j < |s.workers| ==> s'.workers[j].Processing?
    decreases |s.workers| - k
  {
    if k < |s.workers| {
      hide IsRun, Final;
      HandOutAllRuns(Next(Next(s, Check), HandOut(k)), k + 1);
      TwoSteps(s, Check, HandOut(k), HandOutAll(k + 1, |s.workers|));
    }
  }

  /** The limit is used: in some run as many images as allowed are in process together. */
  lemma LimitIsReached(images: nat, maxRoutines: int) returns (steps: seq<Step>)
    requires images >= 1
    ensures IsRun(Start(images, maxRoutines), steps)
    ensures var busy := |Busy(Final(Start(images, maxRoutines), steps).workers)|;
            if maxRoutines >= 1 then busy == images || busy == maxRoutines else busy == 1
  {
    var s := Start(images, maxRoutines);
    steps := HandOutAll(0, |s.workers|);
    HandOutAllRuns(s, 0);
    BusyAtMost(Final(s, steps).workers);
  }

  /** At every point a prefix has been handed out, and the images in process are all different. */
  lemma DispatchIsAPrefix(images: nat, maxRoutines: int, steps: seq<Step>)
    requires IsRun(Start(images, maxRoutines), steps)
    ensures var s := Final(Start(images, maxRoutines), steps);
            && |s.dispatched| <= images && (forall j :: 0 <= j < |s.dispatched| ==> s.dispatched[j] == j)
            && |s.workers| == Workers(images, maxRoutines)
            && (forall k, l :: k in Busy(s.workers) && l in Busy(s.workers) && k != l ==>
                  s.workers[k].index != s.workers[l].index)
            && (forall k :: k in Busy(s.workers) ==>
              s.workers[k].index in s.dispatched && s.workers[k].index !in s.results)
  {
    StartInv(images, maxRoutines);
    RunKeepsInv(Start(images, maxRoutines), steps);
    var s := Final(Start(images, maxRoutines), steps);
    forall k | k in Busy(s.workers)
      ensures s.workers[k].index in s.dispatched
    {
      assert s.dispatched[s.workers[k].index] == s.workers[k].index;
    }
  }

  /** The result of `Process`, and what has been processed when it returns. */
  lemma ProcessResult(images: nat, maxRoutines: int, steps: seq<Step>)
    requires IsRun(Start(images, maxRoutines), steps) && Final(Start(images, maxRoutines), steps).returned
    ensures var s := Final(Start(images, maxRoutines), steps);
            && (Fails(s) <==> exists i: nat :: Failed(s, i))
            && s.results.Keys == set i | i in s.dispatched
            && (!Fails(s) && !s.outside ==> forall i: nat :: i < images ==> i in s.results && s.results[i])
  {
    StartInv(images, maxRoutines);
    RunKeepsInv(Start(images, maxRoutines), steps);
    var s := Final(Start(images, maxRoutines), steps);
    forall i: nat
      ensures i in s.results <==> i in s.dispatched
    {
      if i < |s.dispatched| {
        assert s.dispatched[i] == i;
      }
    }
    if i: nat :| Failed(s, i) {
      assert Reported(s, i);
    } else if !s.outside {
      assert |s.dispatched| == images;
      assert forall i: nat :: i in s.results ==> !Failed(s, i);
    }
  }

  /** The image whose error is reported first. */
  function FirstReported(s: State, steps: seq<Step>): Option<nat>
    requires IsRun(s, steps)
    decreases |steps|
  {
    if steps == [] then None
    else if steps[0].Report? then Some(s.workers[steps[0].worker].index)
    else FirstReported(Next(s, steps[0]), steps[1..])
  }

  /** The first error that is reported is the one that is returned; later ones do not replace it. */
  lemma {:induction false} FirstErrorWins(s: State, steps: seq<Step>)
    requires IsRun(s, steps)
    ensures Final(s, steps).firstError == if s.firstError.Some? then s.firstError else FirstReported(s, steps)
    decreases |steps|
  {
    if steps != [] {
      FirstErrorWins(Next(s, steps[0]), steps[1..]);
    }
  }

  /** One result per image: a return never overwrites an earlier one. */
  lemma EachProcessedOnce(s: State, step: Step)
    requires Inv(s) && Enabled(s, step)
    ensures forall i :: i in s.results ==> i in Next(s, step).results && Next(s, step).results[i] == s.results[i]
  {
  }

  /** How many images may still be handed out after an abort. */
  function StillComing(s: State): nat {
    if s.feeder.Sending? then 1 else 0
  }

  /** After an abort at most one more image is handed out, and none if the feeder was not already sending. */
  lemma {:induction false} AtMostOneAfterAbort(s: State, steps: seq<Step>)
    requires s.cancelled && IsRun(s, steps)
    ensures var s' := Final(s, steps);
            |s.dispatched| <= |s'.dispatched| <= |s.dispatched| + StillComing(s) - StillComing(s')
    decreases |steps|
  {
    if steps != [] {
      AtMostOneAfterAbort(Next(s, steps[0]), steps[1..]);
    }
  }

  // ------------------------------------------------------------------ cancellation

  /** How often the feeder looks for the next image before the context is cancelled. */
  function LooksInTime(steps: seq<Step>): nat {
    if steps == [] || steps[0].CancelFromOutside? || steps[0].Report? then 0
    else (if steps[0].Check? then 1 else 0) + LooksInTime(steps[1..])
  }

  /** How many images will have been handed out if the context is cancelled now. */
  function Committed(s: State): nat {
    match s.feeder
    case Checking(i) => i
    case Sending(i) => i + 1
    case _ => |s.dispatched|
  }

  lemma CommittedStep(s: State, step: Step)
    requires FeederInv(s) && Enabled(s, step)
    ensures var s' := Next(s, step);
            && s'.images == s.images && Committed(s) <= s.images
            && (s.cancelled || step.CancelFromOutside? || step.Report? ==>
              s'.cancelled && Committed(s') == Committed(s))
            && (!s.cancelled && s'.cancelled && step.Leave? ==> Committed(s) == s.images)
            && (!s.cancelled && step.Check? ==> !s'.cancelled && Committed(s') == Min(s.images, Committed(s) + 1))
            && (!step.Check? ==> Committed(s') == Committed(s))
            && (s'.cancelled && !s.cancelled ==> step.CancelFromOutside? || step.Report? || step.Leave?)
  {
    match step
    case Check =>
    case HandOut(_) =>
    case Return(_, _) =>
    case Report(_) =>
    case Exit(_) =>
    case Done =>
    case Leave =>
    case CancelFromOutside =>
  }

  lemma {:induction false} HandedOutInTheEnd(s: State, steps: seq<Step>)
    requires Inv(s) && IsRun(s, steps) && Final(s, steps).returned
    ensures |Final(s, steps).dispatched| ==
            if s.cancelled then Committed(s) else Min(s.images, Committed(s) + LooksInTime(steps))
    decreases |steps|
  {
    if steps != [] {
      StepKeepsInv(s, steps[0]);
      CommittedStep(s, steps[0]);
      hide Inv, Next, Enabled, Committed;
      HandedOutInTheEnd(Next(s, steps[0]), steps[1..]);
    }
  }

  /**
   * When `Process` returns, all images have been processed if and only if the feeder had
   * looked for each of them before the context was cancelled, by an error that was
   * reported or from outside.
   */
  lemma AllProcessedExactlyIfInTime(images: nat, maxRoutines: int, steps: seq<Step>)
    requires IsRun(Start(images, maxRoutines), steps) && Final(Start(images, maxRoutines), steps).returned
    ensures (forall i: nat :: i < images ==> i in Final(Start(images, maxRoutines), steps).results) <==>
            LooksInTime(steps) >= images
  {
    StartInv(images, maxRoutines);
    HandedOutInTheEnd(Start(images, maxRoutines), steps);
    RunKeepsInv(Start(images, maxRoutines), steps);
    ProcessResult(images, maxRoutines, steps);
    var s := Final(Start(images, maxRoutines), steps);
    if |s.dispatched| < images {
      assert |s.dispatched| !in s.results;
    } else {
      assert forall i: nat :: i < images ==> s.dispatched[i] == i;
    }
  }

  /** The workers from k on exit, and then `Process` returns. */
  function ExitAll(k: nat, n: nat): seq<Step>
    requires k <= n
    decreases n - k
  {
    if k == n then [Done, Leave] else [Exit(k)] + ExitAll(k + 1, n)
  }

  lemma {:induction false} ExitAllRuns(s: State, k: nat)
    requires s.feeder.Waiting? && !s.returned && k <= |s.workers|
    requires forall j :: 0 <= j < |s.workers| ==> s.workers[j] == if j < k then Exited else Idle
    ensures IsRun(s, ExitAll(k, |s.workers|))
    ensures var s' := Final(s, ExitAll(k, |s.workers|));
            s'.returned && s'.results == s.results && s'.firstError == s.firstError
    decreases |s.workers| - k
  {
    if k == |s.workers| {
      var s1 := Next(s, Done);
      assert [Done, Leave][1..] == [Leave] && [Leave][1..] == [];
      assert IsRun(Next(s1, Leave), []) && IsRun(s1, [Leave]);
    } else {
      assert ([Exit(k)] + ExitAll(k + 1, |s.workers|))[1..] == ExitAll(k + 1, |s.workers|);
      ExitAllRuns(Next(s, Exit(k)), k + 1);
    }
  }

  /** Cancelled from outside at the start, `Process` returns without an error and without having done anything. */
  lemma CancelledBeforeTheStart(images: nat, maxRoutines: int) returns (steps: seq<Step>)
    ensures IsRun(Start(images, maxRoutines), steps)
    ensures var s := Final(Start(images, maxRoutines), steps); s.returned && !Fails(s) && s.results == map[]
  {
    var s0 := Start(images, maxRoutines);
    var s1 := Next(s0, CancelFromOutside);
    var s2 := Next(s1, Check);
    var exits := ExitAll(0, |s0.workers|);
    ExitAllRuns(s2, 0);
    steps := [CancelFromOutside] + ([Check] + exits);
    assert steps[1..] == [Check] + exits && ([Check] + exits)[1..] == exits;
    assert IsRun(s1, [Check] + exits);
  }
}
