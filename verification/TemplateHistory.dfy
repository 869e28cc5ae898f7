/**
Immutable templates and the references to them, over any number of rounds.

A slot is what one owner (a MachineDeployment, a KubeadmControlPlane, an
EtcdadmCluster) and its templates of one kind look like on the API server: which
template names exist, with which content, and which name the owner refers to. In a
round the reconciler picks a name for the desired content and then writes the
template and the owner. A round may stop before or between the two writes.
 */
module TemplateHistory {
  import opened Wrappers
  import opened Names

  datatype Slot<C> = Slot(templates: map<string, C>, reference: Option<string>)

  /** The name that a round picks for its template, or nothing if the current name cannot be counted up. */
  function Picked<C(==)>(slot: Slot<C>, base: string, content: C): Option<string> {
    if slot.reference.None? then Some(DefaultObjectName(base))
    else NewNameIfChanged(slot.templates, slot.reference.value, content)
  }

  /** The current name, unless a template with that name and another content exists. */
  function NewNameIfChanged<C(==)>(templates: map<string, C>, name: string, content: C): Option<string> {
    if name in templates && templates[name] != content then IncrementName(name) else Some(name)
  }

  datatype Written = Nothing | TemplateOnly | ReferenceOnly | Both

  function Write<C>(slot: Slot<C>, name: string, content: C, written: Written): Slot<C> {
    Slot(if written.TemplateOnly? || written.Both? then slot.templates[name := content] else slot.templates,
         if written.ReferenceOnly? || written.Both? then Some(name) else slot.reference)
  }

  datatype Round<C> = Round(content: C, written: Written)

  /** The slot after a sequence of rounds, or nothing if some round could not pick a name. */
  function History<C(==)>(slot: Slot<C>, base: string, rounds: seq<Round<C>>): Option<Slot<C>> {
    if rounds == [] then Some(slot)
    else
      var before := History(slot, base, rounds[..|rounds| - 1]);
      var r := rounds[|rounds| - 1];
      if before.None? then None
      else
        var name := Picked(before.value, base, r.content);
        if name.None? then None else Some(Write(before.value, name.value, r.content, r.written))
  }

  /** An interrupted round is retried with the same desired content until it completes. */
  predicate Retried<C(==)>(rounds: seq<Round<C>>) {
    forall i :: 0 <= i < |rounds| - 1 && rounds[i].written != Both ==> rounds[i + 1].content == rounds[i].content
  }

  // ------------------------------------------------------------------ where a slot stands

  /**
   * What the rounds so far have come to: the owner refers to version `version` (0 means
   * that it does not exist yet), whose template has content `current` if it was written,
   * and the template of the next version has content `pending` if it was written.
   */
  datatype Standing<C> = Standing(version: nat, current: Option<C>, pending: Option<C>)

  predicate WritesTemplate<C>(r: Round<C>) {
    r.written.TemplateOnly? || r.written.Both?
  }

  predicate WritesReference<C>(r: Round<C>) {
    r.written.ReferenceOnly? || r.written.Both?
  }

  /** The current version has other content, so desired content gets the next one. */
  predicate IsNew<C(==)>(st: Standing<C>, desired: C) {
    st.version == 0 || (st.current.Some? && st.current.value != desired)
  }

  function Target<C(==)>(st: Standing<C>, desired: C): nat {
    if IsNew(st, desired) then st.version + 1 else st.version
  }

  function After<C(==)>(st: Standing<C>, r: Round<C>): Standing<C> {
    if !IsNew(st, r.content) then st.(current := if WritesTemplate(r) then Some(r.content) else st.current)
    else
      var next := if WritesTemplate(r) then Some(r.content) else st.pending;
      if WritesReference(r) then Standing(st.version + 1, next, None) else st.(pending := next)
  }

  function StandingOf<C(==)>(rounds: seq<Round<C>>): Standing<C> {
    if rounds == [] then Standing(0, None, None)
    else After(StandingOf(rounds[..|rounds| - 1]), rounds[|rounds| - 1])
  }

  lemma StandingOneMore<C>(rounds: seq<Round<C>>, r: Round<C>)
    ensures StandingOf(rounds + [r]) == After(StandingOf(rounds), r)
  {
    assert (rounds + [r])[..|rounds|] == rounds;
  }

  /** No version above v has been written. */
  ghost predicate NothingAbove<C>(slot: Slot<C>, base: string, v: nat) {
    forall k: nat :: k > v ==> ObjectName(base, k) !in slot.templates
  }

  predicate Holds<C(==)>(slot: Slot<C>, name: string, content: Option<C>) {
    if name in slot.templates then content == Some(slot.templates[name]) else content == None
  }

  ghost predicate Stands<C>(slot: Slot<C>, base: string, st: Standing<C>) {
    && NothingAbove(slot, base, st.version + 1)
    && Holds(slot, ObjectName(base, st.version + 1), st.pending)
    && (st.version > 0 ==> Holds(slot, ObjectName(base, st.version), st.current))
    && slot.reference == if st.version == 0 then None else Some(ObjectName(base, st.version))
  }

  /** All template names keep the content they have. */
  predicate Keeps<C(==)>(before: Slot<C>, after: Slot<C>) {
    forall name :: name in before.templates ==>
      name in after.templates && after.templates[name] == before.templates[name]
  }

  lemma NamesDiffer(base: string, n: nat, n': nat)
    requires n != n'
    ensures ObjectName(base, n) != ObjectName(base, n')
  {
    if ObjectName(base, n) == ObjectName(base, n') {
      ObjectNameInjective(base, n, base, n');
    }
  }

  lemma PicksTarget<C>(slot: Slot<C>, base: string, st: Standing<C>, content: C)
    requires '\n' !in base && st.version + 1 < MAX_INT && Stands(slot, base, st)
    ensures Picked(slot, base, content) == Some(ObjectName(base, Target(st, content)))
  {
    if st.version > 0 {
      NameRoundTrip(base, st.version);
    }
  }

  lemma RoundStands<C>(slot: Slot<C>, base: string, st: Standing<C>, r: Round<C>)
    requires Stands(slot, base, st)
    ensures Stands(Write(slot, ObjectName(base, Target(st, r.content)), r.content, r.written), base, After(st, r))
  {
    var name := ObjectName(base, Target(st, r.content));
    var slot' := Write(slot, name, r.content, r.written);
    forall k: nat | k != Target(st, r.content)
      ensures ObjectName(base, k) in slot'.templates <==> ObjectName(base, k) in slot.templates
      ensures ObjectName(base, k) != name
    {
      NamesDiffer(base, k, Target(st, r.content));
    }
  }

  // ------------------------------------------------------------------ any number of rounds

  /** No owner yet, and no template under any of its names. */
  ghost predicate Fresh<C>(slot: Slot<C>, base: string) {
    slot.reference.None? && NothingAbove(slot, base, 0)
  }

  lemma {:induction false} HistoryStands<C>(slot: Slot<C>, base: string, rounds: seq<Round<C>>)
    requires Fresh(slot, base) && '\n' !in base && |rounds| < MAX_INT - 1
    ensures StandingOf(rounds).version <= |rounds|
    ensures History(slot, base, rounds).Some?
    ensures Stands(History(slot, base, rounds).value, base, StandingOf(rounds))
  {
    if rounds != [] {
      var earlier, r := rounds[..|rounds| - 1], rounds[|rounds| - 1];
      HistoryStands(slot, base, earlier);
      PicksTarget(History(slot, base, earlier).value, base, StandingOf(earlier), r.content);
      RoundStands(History(slot, base, earlier).value, base, StandingOf(earlier), r);
    }
  }

  /** After a completed round the owner refers to that round's template. */
  lemma ReferenceNamesTheTemplate<C>(slot: Slot<C>, base: string, rounds: seq<Round<C>>)
    requires Fresh(slot, base) && '\n' !in base && 0 < |rounds| < MAX_INT - 1
    requires rounds[|rounds| - 1].written.Both?
    ensures History(slot, base, rounds).Some?
    ensures var slot', content := History(slot, base, rounds).value, rounds[|rounds| - 1].content;
            var name := ObjectName(base, StandingOf(rounds).version);
            && slot'.reference == Some(name)
            && name in slot'.templates
            && slot'.templates[name] == content
            && StandingOf(rounds).current == Some(content)
  {
    HistoryStands(slot, base, rounds);
  }

  // ------------------------------------------------------------------ when names stay bound

  /** The round gives a template of the next version, which was written before, another content. */
  predicate Overwrites<C(==)>(st: Standing<C>, r: Round<C>) {
    WritesTemplate(r) && IsNew(st, r.content) && st.pending.Some? && st.pending.value != r.content
  }

  lemma WriteKeeps<C>(slot: Slot<C>, name: string, content: C, written: Written)
    ensures Keeps(slot, Write(slot, name, content, written)) <==>
            ((written.TemplateOnly? || written.Both?) && name in slot.templates ==> slot.templates[name] == content)
  {
    var slot' := Write(slot, name, content, written);
    if written.TemplateOnly? || written.Both? {
      assert name in slot'.templates && slot'.templates[name] == content;
    }
  }

  lemma RoundKeeps<C>(slot: Slot<C>, base: string, st: Standing<C>, r: Round<C>)
    requires Stands(slot, base, st)
    ensures Keeps(slot, Write(slot, ObjectName(base, Target(st, r.content)), r.content, r.written)) <==>
            !Overwrites(st, r)
  {
    WriteKeeps(slot, ObjectName(base, Target(st, r.content)), r.content, r.written);
  }

  /** The slot after k rounds. */
  ghost function SlotAt<C>(slot: Slot<C>, base: string, rounds: seq<Round<C>>, k: nat): Slot<C>
    requires k <= |rounds|
  {
    var h := History(slot, base, rounds[..k]);
    if h.Some? then h.value else slot
  }

  ghost predicate BoundForEver<C(!new)>(slot: Slot<C>, base: string, rounds: seq<Round<C>>) {
    forall k, l :: 0 <= k <= l <= |rounds| ==> Keeps(SlotAt(slot, base, rounds, k), SlotAt(slot, base, rounds, l))
  }

  predicate OverwritesAt<C(==)>(rounds: seq<Round<C>>, j: nat)
    requires j < |rounds|
  {
    Overwrites(StandingOf(rounds[..j]), rounds[j])
  }

  lemma RoundKeepsAt<C>(slot: Slot<C>, base: string, rounds: seq<Round<C>>, j: nat)
    requires Fresh(slot, base) && '\n' !in base && j < |rounds| < MAX_INT - 1
    ensures Keeps(SlotAt(slot, base, rounds, j), SlotAt(slot, base, rounds, j + 1)) <==> !OverwritesAt(rounds, j)
  {
    var earlier, r := rounds[..j], rounds[j];
    assert rounds[..j + 1][..j] == earlier;
    HistoryStands(slot, base, earlier);
    PicksTarget(History(slot, base, earlier).value, base, StandingOf(earlier), r.content);
    RoundKeeps(History(slot, base, earlier).value, base, StandingOf(earlier), r);
  }

  lemma {:induction false} KeptBetween<C>(slot: Slot<C>, base: string, rounds: seq<Round<C>>, k: nat, l: nat)
    requires Fresh(slot, base) && '\n' !in base && k <= l <= |rounds| < MAX_INT - 1
    requires forall j :: 0 <= j < |rounds| ==> !OverwritesAt(rounds, j)
    ensures Keeps(SlotAt(slot, base, rounds, k), SlotAt(slot, base, rounds, l))
    decreases l
  {
    if k < l {
      KeptBetween(slot, base, rounds, k, l - 1);
      RoundKeepsAt(slot, base, rounds, l - 1);
    }
  }

  /** Round k has content that is new, with the owner at the given version. */
  predicate NewAt<C(==)>(rounds: seq<Round<C>>, k: nat, version: nat)
    requires k < |rounds|
  {
    StandingOf(rounds[..k]).version == version && IsNew(StandingOf(rounds[..k]), rounds[k].content)
  }

  /**
   * Round i was interrupted after writing the template of new content, and round j, with
   * the owner's reference where it was, writes the template of other new content.
   */
  predicate Conflict<C(==)>(rounds: seq<Round<C>>, i: nat, j: nat) {
    && i < j < |rounds|
    && rounds[i].written.TemplateOnly? && WritesTemplate(rounds[j])
    && NewAt(rounds, i, StandingOf(rounds[..j]).version) && NewAt(rounds, j, StandingOf(rounds[..j]).version)
    && rounds[i].content != rounds[j].content
  }

  /** Going back to the old content in between does not resolve a conflict. */
  lemma ConflictSurvivesReturn<C>(c: C, a: C, d: C)
    requires c != a && a != d && c != d
    ensures Conflict([Round(c, Both), Round(a, TemplateOnly), Round(c, Both), Round(d, Both)], 1, 3)
  {
    var rounds := [Round(c, Both), Round(a, TemplateOnly), Round(c, Both), Round(d, Both)];
    assert rounds[..1] == [] + [Round(c, Both)] && rounds[..2] == rounds[..1] + [Round(a, TemplateOnly)];
    assert rounds[..3] == rounds[..2] + [Round(c, Both)];
    StandingOneMore([], Round(c, Both));
    StandingOneMore(rounds[..1], Round(a, TemplateOnly));
    StandingOneMore(rounds[..2], Round(c, Both));
  }

  lemma {:induction false} VersionGrows<C>(rounds: seq<Round<C>>, i: nat, j: nat)
    requires i <= j <= |rounds|
    ensures StandingOf(rounds[..i]).version <= StandingOf(rounds[..j]).version
    decreases j
  {
    if i < j {
      assert rounds[..j][..j - 1] == rounds[..j - 1];
      VersionGrows(rounds, i, j - 1);
    }
  }

  /** What is pending was written by an interrupted round, and the reference has not moved since. */
  lemma {:induction false} PendingComesFrom<C>(rounds: seq<Round<C>>, j: nat) returns (i: nat)
    requires j <= |rounds| && StandingOf(rounds[..j]).pending.Some?
    ensures i < j && rounds[i].written.TemplateOnly? && NewAt(rounds, i, StandingOf(rounds[..j]).version)
    ensures Some(rounds[i].content) == StandingOf(rounds[..j]).pending
    decreases j
  {
    assert rounds[..j][..j - 1] == rounds[..j - 1];
    var st, r := StandingOf(rounds[..j - 1]), rounds[j - 1];
    if IsNew(st, r.content) && r.written.TemplateOnly? {
      i := j - 1;
    } else {
      i := PendingComesFrom(rounds, j - 1);
    }
  }

  /** As long as nothing is overwritten and the reference does not move, it stays pending. */
  lemma {:induction false} PendingStays<C>(rounds: seq<Round<C>>, i: nat, j: nat)
    requires i < j <= |rounds| && rounds[i].written.TemplateOnly? && NewAt(rounds, i, StandingOf(rounds[..j]).version)
    requires forall k :: i < k < j ==> !OverwritesAt(rounds, k)
    ensures StandingOf(rounds[..j]).pending == Some(rounds[i].content)
    decreases j
  {
    assert rounds[..j][..j - 1] == rounds[..j - 1];
    if i < j - 1 {
      VersionGrows(rounds, i, j - 1);
      VersionGrows(rounds, j - 1, j);
      PendingStays(rounds, i, j - 1);
      assert !OverwritesAt(rounds, j - 1);
    }
  }

  lemma ConflictOverwrites<C>(rounds: seq<Round<C>>, i: nat, j: nat)
    requires Conflict(rounds, i, j)
    ensures exists k :: 0 <= k < |rounds| && OverwritesAt(rounds, k)
  {
    if forall k :: 0 <= k < |rounds| ==> !OverwritesAt(rounds, k) {
      PendingStays(rounds, i, j);
      assert OverwritesAt(rounds, j);
    }
  }

  /**
   * Over any rounds at all, interrupted anywhere and with any desired contents: every
   * template name keeps its content for ever if and only if no two rounds conflict.
   */
  lemma NamesAreBoundExactly<C(!new)>(slot: Slot<C>, base: string, rounds: seq<Round<C>>)
    requires Fresh(slot, base) && '\n' !in base && |rounds| < MAX_INT - 1
    ensures History(slot, base, rounds).Some?
    ensures BoundForEver(slot, base, rounds) <==> !exists i, j :: Conflict(rounds, i, j)
  {
    HistoryStands(slot, base, rounds);
    if j :| 0 <= j < |rounds| && OverwritesAt(rounds, j) {
      RoundKeepsAt(slot, base, rounds, j);
      var i := PendingComesFrom(rounds, j);
      assert Conflict(rounds, i, j);
    } else {
      forall k, l | 0 <= k <= l <= |rounds|
        ensures Keeps(SlotAt(slot, base, rounds, k), SlotAt(slot, base, rounds, l))
      {
        KeptBetween(slot, base, rounds, k, l);
      }
      if i, j :| Conflict(rounds, i, j) {
        ConflictOverwrites(rounds, i, j);
      }
    }
  }

  // ------------------------------------------------------------------ interrupted rounds that are retried

  /** From the interruption on, a retried round has the same content and finds the same current version. */
  lemma {:induction false} RetriedUntil<C>(rounds: seq<Round<C>>, i: nat, k: nat)
    requires Retried(rounds) && i < k < |rounds| && rounds[i].written.TemplateOnly?
    requires NewAt(rounds, i, StandingOf(rounds[..k]).version)
    ensures rounds[k].content == rounds[i].content
    ensures IsNew(StandingOf(rounds[..k]), rounds[i].content)
    decreases k
  {
    assert rounds[..k][..k - 1] == rounds[..k - 1];
    if i < k - 1 {
      VersionGrows(rounds, i, k - 1);
      VersionGrows(rounds, k - 1, k);
      RetriedUntil(rounds, i, k - 1);
    }
    assert rounds[k - 1].written != Both;
  }

  /** Rounds of which each interrupted one is retried until it completes do not conflict, so names stay bound. */
  lemma NamesAreBoundForEver<C(!new)>(slot: Slot<C>, base: string, rounds: seq<Round<C>>)
    requires Fresh(slot, base) && '\n' !in base && Retried(rounds) && |rounds| < MAX_INT - 1
    ensures History(slot, base, rounds).Some? && BoundForEver(slot, base, rounds)
  {
    NamesAreBoundExactly(slot, base, rounds);
    if i, j :| Conflict(rounds, i, j) {
      RetriedUntil(rounds, i, j);
    }
  }

  /** How many completed rounds changed the content, and the content of the last completed one. */
  function Changes<C(==)>(rounds: seq<Round<C>>): (nat, Option<C>) {
    if rounds == [] then (0, None)
    else
      var (n, content) := Changes(rounds[..|rounds| - 1]);
      var r := rounds[|rounds| - 1];
      if r.written.Both? && content != Some(r.content) then (n + 1, Some(r.content)) else (n, content)
  }

  /** Between two completed rounds: nothing, the template or the reference of the change under way has been written. */
  predicate UnderWay<C(==)>(st: Standing<C>, n: nat, content: Option<C>, desired: C) {
    if content == Some(desired) then st == Standing(n, content, None)
    else
      || (st.version == n && st.current == content && (st.pending == None || st.pending == Some(desired)))
      || (st.version == n + 1 && st.pending == None && (st.current == None || st.current == Some(desired)))
  }

  lemma {:induction false} RetriedStanding<C>(rounds: seq<Round<C>>)
    requires Retried(rounds) && rounds != []
    ensures var (n, content) := Changes(rounds);
            var st, r := StandingOf(rounds), rounds[|rounds| - 1];
            && (n > 0 <==> content.Some?)
            && (r.written.Both? ==> st == Standing(n, content, None) && content == Some(r.content))
            && UnderWay(st, n, content, r.content)
  {
    var earlier, r := rounds[..|rounds| - 1], rounds[|rounds| - 1];
    if earlier != [] {
      assert Retried(earlier);
      RetriedStanding(earlier);
      assert earlier[|earlier| - 1] == rounds[|rounds| - 2];
    }
  }

  /**
   * When interrupted rounds are retried, the version after a completed round counts the
   * completed rounds that changed the content.
   */
  lemma VersionCountsChanges<C>(rounds: seq<Round<C>>)
    requires Retried(rounds) && rounds != [] && rounds[|rounds| - 1].written.Both?
    ensures StandingOf(rounds).version == Changes(rounds).0
    ensures StandingOf(rounds).current == Changes(rounds).1 == Some(rounds[|rounds| - 1].content)
  {
    RetriedStanding(rounds);
  }

  /**
   * A round that was interrupted is done again with the same content. It picks the same
   * name, except if only the reference was written and the template that this reference
   * now names had been left there with other content.
   */
  lemma RetryPicksTheSameName<C>(slot: Slot<C>, base: string, st: Standing<C>, r: Round<C>)
    requires '\n' !in base && st.version + 2 < MAX_INT && Stands(slot, base, st)
    ensures Picked(slot, base, r.content).Some?
    ensures var slot' := Write(slot, Picked(slot, base, r.content).value, r.content, r.written);
            Picked(slot', base, r.content) == Picked(slot, base, r.content) <==>
            !(r.written.ReferenceOnly? && IsNew(st, r.content) && st.pending.Some? && st.pending.value != r.content)
  {
    var st' := After(st, r);
    PicksTarget(slot, base, st, r.content);
    RoundStands(slot, base, st, r);
    var slot' := Write(slot, ObjectName(base, Target(st, r.content)), r.content, r.written);
    PicksTarget(slot', base, st', r.content);
    if Target(st', r.content) != Target(st, r.content) {
      NamesDiffer(base, Target(st', r.content), Target(st, r.content));
    }
  }

  /** In a history whose interrupted rounds are retried, the exception does not occur. */
  lemma RetriesPickTheSameName<C>(slot: Slot<C>, base: string, rounds: seq<Round<C>>)
    requires Fresh(slot, base) && '\n' !in base && Retried(rounds) && 0 < |rounds| < MAX_INT - 2
    ensures var earlier, content := rounds[..|rounds| - 1], rounds[|rounds| - 1].content;
            && History(slot, base, earlier).Some? && History(slot, base, rounds).Some?
            && Picked(History(slot, base, rounds).value, base, content) ==
               Picked(History(slot, base, earlier).value, base, content)
  {
    var earlier, r := rounds[..|rounds| - 1], rounds[|rounds| - 1];
    HistoryStands(slot, base, earlier);
    HistoryStands(slot, base, rounds);
    if earlier != [] {
      assert Retried(earlier);
      RetriedStanding(earlier);
      assert earlier[|earlier| - 1] == rounds[|rounds| - 2];
    }
    RetryPicksTheSameName(History(slot, base, earlier).value, base, StandingOf(earlier), r);
  }

  /** What is written for an owner with another base name does not change where a slot stands. */
  lemma OtherOwnersDoNotInterfere<C>(slot: Slot<C>, base: string, st: Standing<C>, base': string, version: nat,
                                     content: C)
    requires Stands(slot, base, st) && base' != base
    ensures Stands(slot.(templates := slot.templates[ObjectName(base', version) := content]), base, st)
  {
    var slot' := slot.(templates := slot.templates[ObjectName(base', version) := content]);
    forall k: nat
      ensures ObjectName(base, k) in slot'.templates <==> ObjectName(base, k) in slot.templates
      ensures ObjectName(base, k) != ObjectName(base', version)
    {
      if ObjectName(base, k) == ObjectName(base', version) {
        ObjectNameInjective(base, k, base', version);
      }
    }
  }
}
