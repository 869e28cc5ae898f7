/**
The API server as the reconcilers see it: reads that may fail, writes that may be
lost or may take effect although the caller gets an error, and everybody else
running before each call.

`Valid` says that some run of the protocol leads from the server's first world to
its current one, so a reconciler that keeps `Valid` makes guarded steps only.
A `quiet` server has no failures and nobody else running.
 */
module ApiServers {
  import opened Wrappers
  import opened UpgradeModel
  import opened UpgradeInvariant
  import opened UpgradeInterference

  datatype Reply<+T> = Found(value: T) | NotFound | Failed

  /** Some run of the protocol leads from one world to the other. */
  ghost predicate Reaches(start: World, w: World) {
    exists steps: seq<Step> :: IsRun(start, steps) && After(start, steps) == w
  }

  lemma StepReaches(start: World, w: World, s: Step)
    requires Reaches(start, w) && Guard(w, s)
    ensures Reaches(start, Apply(w, s))
  {
    var steps :| IsRun(start, steps) && After(start, steps) == w;
    var longer := steps + [s];
    assert longer[..|longer| - 1] == steps;
    assert IsRun(start, longer) && After(start, longer) == Apply(w, s);
  }

  class ApiServer {
    var w: World
    const quiet: bool
    ghost const start: World

    ghost predicate Valid()
      reads this
    {
      && Inv(start)
      && Reaches(start, w)
      && Inv(w)
    }

    constructor (start: World, quiet: bool)
      requires Inv(start)
      ensures Valid() && w == start && this.start == start && this.quiet == quiet
    {
      this.w := start;
      this.quiet := quiet;
      this.start := start;
      assert Reaches(start, start) by {
        assert IsRun(start, []) && After(start, []) == start;
      }
    }

    /** One step takes effect. */
    method Take(s: Step)
      requires Valid() && Guard(w, s)
      modifies this
      ensures Valid() && w == Apply(old(w), s)
    {
      StepKeepsInv(w, s);
      StepReaches(start, w, s);
      w := Apply(w, s);
    }

    /** Any number of steps of the other actors. */
    method Interfere(me: Actor)
      requires Valid() && Registered(me, w)
      modifies this
      ensures Valid() && Registered(me, w) && Rely(me, old(w), w)
      ensures quiet ==> w == old(w)
    {
      RelyReflexive(me, w);
      var rounds: nat := *;
      while !quiet && rounds > 0
        invariant Valid() && Registered(me, w) && Rely(me, old(w), w)
        invariant quiet ==> w == old(w)
      {
        var s: Step := *;
        if ActorOf(s) != me && Guard(w, s) {
          ghost var before := w;
          RelyStep(me, w, s);
          Take(s);
          RelyTransitive(me, old(w), before, w);
        }
        rounds := rounds - 1;
      }
    }

    /** A write that the server accepts. An error does not tell whether it took effect. */
    method Attempt(s: Step) returns (ok: bool)
      requires Valid() && Guard(w, s)
      modifies this
      ensures Valid()
      ensures w == old(w) || w == Apply(old(w), s)
      ensures ok ==> w == Apply(old(w), s)
      ensures quiet ==> ok
    {
      ok := Reachable(quiet);
      var lost: bool := *;
      if ok || !lost {
        Take(s);
      }
    }

    method GetUpgrade(me: Actor) returns (r: Reply<Upgrade>)
      requires Valid() && Registered(me, w)
      modifies this
      ensures Valid() && Registered(me, w) && Rely(me, old(w), w)
      ensures r.Found? ==> w.upgrade == Some(r.value)
      ensures r.NotFound? ==> w.upgrade.None?
      ensures quiet ==> w == old(w) && !r.Failed?
    {
      Interfere(me);
      var ok := Reachable(quiet);
      r := if !ok then Failed else if w.upgrade.Some? then Found(w.upgrade.value) else NotFound;
    }

    method GetNode(me: Actor, m: Name) returns (r: Reply<NodeUpgrade>)
      requires Valid() && Registered(me, w)
      modifies this
      ensures Valid() && Registered(me, w) && Rely(me, old(w), w)
      ensures r.Found? ==> m in w.nodes && w.nodes[m] == r.value
      ensures r.NotFound? ==> m !in w.nodes
      ensures quiet ==> w == old(w) && !r.Failed?
    {
      Interfere(me);
      var ok := Reachable(quiet);
      r := if !ok then Failed else if m in w.nodes then Found(w.nodes[m]) else NotFound;
    }

    method GetPod(me: Actor, m: Name) returns (r: Reply<Pod>)
      requires Valid() && Registered(me, w)
      modifies this
      ensures Valid() && Registered(me, w) && Rely(me, old(w), w)
      ensures r.Found? ==> m in w.pods && w.pods[m] == r.value
      ensures r.NotFound? ==> m !in w.pods
      ensures quiet ==> w == old(w) && !r.Failed?
    {
      Interfere(me);
      var ok := Reachable(quiet);
      r := if !ok then Failed else if m in w.pods then Found(w.pods[m]) else NotFound;
    }
  }
}
