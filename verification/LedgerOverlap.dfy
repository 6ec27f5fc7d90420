/** When the claims of every definition are served one after the other. */
module LedgerOverlap {
  import opened Prelude
  import opened Records
  import opened Ledger
  import opened LedgerInvariant
  import opened LedgerSteps
  import opened LedgerRuns
  import opened LedgerEvolution
  import opened LedgerTheorems
  import opened LedgerCalls
  import opened LedgerReceipts
  import opened LedgerClaims

  predicate SameDefinition(schedules: map<Id, Schedule>, a: Trigger, b: Trigger) {
    && a.schedule in schedules && b.schedule in schedules
    && schedules[a.schedule].definition == schedules[b.schedule].definition
  }

  predicate Held(t: Tables, x: Trigger) {
    x.schedule in t.schedules && t.schedules[x.schedule].Holds(x.id)
  }

  /** Every claim of a definition but its newest is resolved and let go. */
  ghost predicate ClaimsSerial(t: Tables) {
    forall i, j | 0 <= i < j < |t.triggers| && SameDefinition(t.schedules, t.triggers[i], t.triggers[j]) ::
      ClaimResolved(t, t.triggers[i]) && !Held(t, t.triggers[i])
  }

  predicate Concerns(schedules: map<Id, Schedule>, id: Id, x: Trigger) {
    && id in schedules && schedules[id].Active() && x.schedule in schedules
    && schedules[x.schedule].definition == schedules[id].definition
  }

  /** While a schedule is active, every claim of its definition is resolved but the one it holds. */
  ghost predicate ActiveQuiet(t: Tables) {
    forall id, x | x in t.triggers && Concerns(t.schedules, id, x) :: ClaimResolved(t, x) || t.schedules[id].Holds(x.id)
  }

  ghost predicate Quiet(t: Tables) {
    ClaimsSerial(t) && ActiveQuiet(t)
  }

  /** A resolved claim that nobody holds stays resolved, and nobody takes hold of a claim again. */
  ghost predicate KeepsClosed(t: Tables, t': Tables) {
    && (forall x | x in t.triggers && ClaimResolved(t, x) && !Held(t', x) :: ClaimResolved(t', x))
    && (forall x | x in t.triggers && Held(t', x) :: Held(t, x))
  }

  // ------------------------------------------------------------------ what each change keeps

  lemma SameTriggers(t: Tables, t': Tables)
    requires ClaimsSerial(t) && KeepsClosed(t, t') && t'.triggers == t.triggers
    requires TriggersOk(t.triggers, t.schedules, t.policies) && SchedulesKept(t.schedules, t'.schedules)
    ensures ClaimsSerial(t')
  {
    forall i, j | 0 <= i < j < |t.triggers| && SameDefinition(t'.schedules, t.triggers[i], t.triggers[j])
      ensures ClaimResolved(t', t.triggers[i]) && !Held(t', t.triggers[i])
    {
      assert TriggerOk(t.triggers[i], t.schedules, t.policies) && TriggerOk(t.triggers[j], t.schedules, t.policies);
      assert SameDefinition(t.schedules, t.triggers[i], t.triggers[j]);
    }
  }

  /** A claim that concerns a waiting schedule is resolved, and held by no one. */
  lemma WaitingReleases(t: Tables, id: Id, y: Trigger)
    requires ActiveQuiet(t) && OneActive(t.schedules) && y in t.triggers
    requires Concerns(t.schedules, id, y) && t.schedules[id].state == Waiting
    ensures ClaimResolved(t, y) && !Held(t, y)
  {
    assert id != y.schedule ==> !Rival(t.schedules[id], t.schedules[y.schedule]);
  }

  lemma ClaimSerial(t: Tables, t': Tables, id: Id, x: Trigger)
    requires Quiet(t) && KeepsClosed(t, t') && OneActive(t.schedules)
    requires id in t.schedules && t.schedules[id].Id() == id && ClaimOf(t.schedules[id], x) && t' == Claim(t, t.schedules[id], x)
    requires forall y | y in t.triggers :: y.schedule in t.schedules
    ensures ClaimsSerial(t')
  {
    forall i, j | 0 <= i < j < |t'.triggers| && SameDefinition(t'.schedules, t'.triggers[i], t'.triggers[j])
      ensures ClaimResolved(t', t'.triggers[i]) && !Held(t', t'.triggers[i])
    {
      var y := t.triggers[i];
      assert y in t.triggers && t'.triggers[i] == y;
      if j < |t.triggers| {
        assert t.triggers[j] in t.triggers && SameDefinition(t.schedules, y, t.triggers[j]);
      } else {
        assert Concerns(t.schedules, id, y);
        WaitingReleases(t, id, y);
      }
    }
  }

  /** A claim that was resolved is resolved or held by the very schedule it concerns. */
  lemma StillQuiet(t: Tables, t': Tables, id: Id, x: Trigger)
    requires KeepsClosed(t, t') && OneActive(t'.schedules) && x in t.triggers && ClaimResolved(t, x)
    requires Concerns(t'.schedules, id, x)
    ensures ClaimResolved(t', x) || t'.schedules[id].Holds(x.id)
  {
    if Held(t', x) {
      assert id != x.schedule ==> !Rival(t'.schedules[id], t'.schedules[x.schedule]);
    }
  }

  lemma ClaimQuiet(t: Tables, t': Tables, id: Id, x: Trigger)
    requires ActiveQuiet(t) && KeepsClosed(t, t') && OneActive(t.schedules) && OneActive(t'.schedules)
    requires id in t.schedules && t.schedules[id].Id() == id && ClaimOf(t.schedules[id], x)
    requires t' == Claim(t, t.schedules[id], x)
    requires forall y | y in t.triggers :: y.schedule in t.schedules
    ensures ActiveQuiet(t')
  {
    forall s, y | y in t'.triggers && Concerns(t'.schedules, s, y)
      ensures ClaimResolved(t', y) || t'.schedules[s].Holds(y.id)
    {
      assert s != id ==> !Rival(t.schedules[s], t.schedules[id]);
      if y in t.triggers {
        assert Concerns(t.schedules, s, y);
        if ClaimResolved(t, y) {
          StillQuiet(t, t', s, y);
        }
      }
    }
  }

  lemma EditQuiet(t: Tables, t': Tables, id: Id)
    requires ActiveQuiet(t) && KeepsClosed(t, t') && EditAt(t, t', id) && OneActive(t'.schedules)
    requires TriggersOk(t.triggers, t.schedules, t.policies) && IdentitiesOk(t.triggers)
    ensures ActiveQuiet(t')
  {
    assert SchedulesKept(t.schedules, t'.schedules);
    forall s, x | x in t'.triggers && Concerns(t'.schedules, s, x)
      ensures ClaimResolved(t', x) || t'.schedules[s].Holds(x.id)
    {
      assert TriggerOk(x, t.schedules, t.policies);
      assert Concerns(t.schedules, s, x);
      if t.schedules[s].Holds(x.id) && s == id && t'.schedules[id].state == Waiting {
        UniqueOwner(t.triggers, x, TriggerById(t.triggers, x.id).value, x.id);
      }
      if ClaimResolved(t, x) {
        StillQuiet(t, t', s, x);
      }
    }
  }

  lemma ArmQuiet(t: Tables, t': Tables, s: Schedule)
    requires ActiveQuiet(t) && KeepsClosed(t, t') && ArmAt(t, t', s) && OneActive(t'.schedules)
    requires TriggersOk(t.triggers, t.schedules, t.policies)
    ensures ActiveQuiet(t')
  {
    forall id, x | x in t'.triggers && Concerns(t'.schedules, id, x)
      ensures ClaimResolved(t', x) || t'.schedules[id].Holds(x.id)
    {
      assert TriggerOk(x, t.schedules, t.policies);
      if id != s.Id() {
        assert Concerns(t.schedules, id, x);
      }
      if ClaimResolved(t, x) {
        StillQuiet(t, t', id, x);
      }
    }
  }

  /** Schedules that are unchanged or inactive keep the others' claims quiet. */
  lemma RetireQuiet(t: Tables, t': Tables)
    requires ActiveQuiet(t) && KeepsClosed(t, t') && t'.triggers == t.triggers && OneActive(t'.schedules)
    requires TriggersOk(t.triggers, t.schedules, t.policies)
    requires AllRetire(t.schedules, t'.schedules)
    ensures ActiveQuiet(t')
  {
    forall id, x | x in t'.triggers && Concerns(t'.schedules, id, x)
      ensures ClaimResolved(t', x) || t'.schedules[id].Holds(x.id)
    {
      assert TriggerOk(x, t.schedules, t.policies);
      assert Concerns(t.schedules, id, x);
      if ClaimResolved(t, x) {
        StillQuiet(t, t', id, x);
      }
    }
  }

  lemma FrameQuiet(t: Tables, t': Tables)
    requires ActiveQuiet(t) && KeepsClosed(t, t') && t'.triggers == t.triggers && t'.schedules == t.schedules
    requires OneActive(t'.schedules)
    ensures ActiveQuiet(t')
  {
    forall id, x | x in t'.triggers && Concerns(t'.schedules, id, x)
      ensures ClaimResolved(t', x) || t'.schedules[id].Holds(x.id)
    {
      if ClaimResolved(t, x) {
        StillQuiet(t, t', id, x);
      }
    }
  }

  lemma MoveQuiet(t: Tables, m: Move, t': Tables)
    requires TriggersOk(t.triggers, t.schedules, t.policies) && IdentitiesOk(t.triggers)
    requires OneActive(t.schedules) && OneActive(t'.schedules)
    requires Quiet(t) && Moves(t, m, t') && KeepsClosed(t, t') && SchedulesKept(t.schedules, t'.schedules)
    ensures Quiet(t')
  {
    if m.ClaimMove? {
      assert forall y | y in t.triggers :: TriggerOk(y, t.schedules, t.policies);
      ClaimSerial(t, t', m.id, m.x);
      ClaimQuiet(t, t', m.id, m.x);
    } else {
      SameTriggers(t, t');
      match m
      case EditMove(id) => EditQuiet(t, t', id);
      case ArmMove(s) => ArmQuiet(t, t', s);
      case RewriteMove => RetireQuiet(t, t');
      case _ => FrameQuiet(t, t');
    }
  }

  // ------------------------------------------------------------------ runs

  /** Something already relies on this claim being over: a later claim of its definition, or an active schedule
      of it that holds another claim or none. */
  ghost predicate Pressing(t: Tables, x: Trigger) {
    || (exists i, j | 0 <= i < j < |t.triggers| :: t.triggers[i] == x && SameDefinition(t.schedules, t.triggers[i], t.triggers[j]))
    || (exists id :: Concerns(t.schedules, id, x) && !t.schedules[id].Holds(x.id))
  }

  /** The step does not reserve a job under the receipt of a resolved claim that something relies on. */
  ghost predicate Honest(t: Tables, e: Event) {
    e.ReserveEvent? ==> forall x | x in t.triggers && ClaimResolved(t, x) && Pressing(t, x) :: !Reopens(t, e, x)
  }

  ghost predicate HonestRun(events: seq<Event>) {
    events != [] ==>
      && HonestRun(events[..|events| - 1])
      && Honest(Run(EMPTY, events[..|events| - 1]), events[|events| - 1])
  }

  /** A job for a claimed request is inserted only while the claim is held. */
  lemma InsertedWhileHeld(t: Tables, m: Move, t': Tables, x: Trigger)
    requires IdentitiesOk(t.triggers) && Moves(t, m, t') && x in t.triggers
    requires m.JobMove? && m.plan.id !in t.jobs && m.plan.context == Some(x.context)
    ensures Held(t', x)
  {
    UniqueOwner(t.triggers, x, TriggerByRequest(t.triggers, x.context.request).value, x.context.request);
  }

  lemma StepClosed(t: Tables, e: Event, m: Move, x: Trigger)
    requires Inv(t) && ArchivesDelegated(t) && !e.ReserveEvent? && Moves(t, m, Apply(t, e)) && Caused(t, e, m)
    requires x in t.triggers && ClaimResolved(t, x) && !Held(Apply(t, e), x)
    ensures ClaimResolved(Apply(t, e), x)
  {
    if MoveReopens(t, m, x) {
      InsertedWhileHeld(t, m, Apply(t, e), x);
    }
    StepStays(t, e, m, x);
  }

  lemma HeldBefore(t: Tables, t': Tables, x: Trigger)
    requires SchedulesEvolve(t, t') && x in t.triggers && x.schedule in t.schedules && Held(t', x)
    ensures Held(t, x)
  {
    assert ClaimEvolves(x, t.schedules[x.schedule], t'.schedules[x.schedule]);
  }

  lemma StepNeverHeldAgain(t: Tables, e: Event)
    requires Inv(t)
    ensures forall x | x in t.triggers && Held(Apply(t, e), x) :: Held(t, x)
  {
    StepEvolves(t, e);
    forall x | x in t.triggers && Held(Apply(t, e), x) ensures Held(t, x) {
      assert TriggerOk(x, t.schedules, t.policies);
      HeldBefore(t, Apply(t, e), x);
    }
  }

  lemma StepKeepsClosed(t: Tables, e: Event, m: Move)
    requires Inv(t) && ArchivesDelegated(t) && !e.ReserveEvent? && Moves(t, m, Apply(t, e)) && Caused(t, e, m)
    ensures KeepsClosed(t, Apply(t, e))
  {
    StepNeverHeldAgain(t, e);
    forall x | x in t.triggers && ClaimResolved(t, x) && !Held(Apply(t, e), x) ensures ClaimResolved(Apply(t, e), x) {
      StepClosed(t, e, m, x);
    }
  }

  lemma OtherQuiet(t: Tables, e: Event)
    requires Inv(t) && ArchivesDelegated(t) && Quiet(t) && !e.ReserveEvent?
    ensures Quiet(Apply(t, e))
  {
    var m := Classify(t, e);
    StepKeeps(t, e);
    StepKeepsClosed(t, e, m);
    StepEvolves(t, e);
    assert SchedulesKept(t.schedules, Apply(t, e).schedules);
    MoveQuiet(t, m, Apply(t, e));
  }

  /** Claims and schedules are as before, and exactly the claims that are pressed upon stay resolved. */
  lemma ReserveQuiet(t: Tables, t': Tables)
    requires Quiet(t) && t'.triggers == t.triggers && t'.schedules == t.schedules
    ensures Quiet(t') <==> forall x | x in t.triggers && ClaimResolved(t, x) && Pressing(t, x) :: ClaimResolved(t', x)
  {
    if forall x | x in t.triggers && ClaimResolved(t, x) && Pressing(t, x) :: ClaimResolved(t', x) {
      forall i, j | 0 <= i < j < |t'.triggers| && SameDefinition(t'.schedules, t'.triggers[i], t'.triggers[j])
        ensures ClaimResolved(t', t'.triggers[i]) && !Held(t', t'.triggers[i])
      {
        assert SameDefinition(t.schedules, t.triggers[i], t.triggers[j]) && t.triggers[i] in t.triggers;
        assert Pressing(t, t.triggers[i]);
      }
      forall id, x | x in t'.triggers && Concerns(t'.schedules, id, x) ensures ClaimResolved(t', x) || t'.schedules[id].Holds(x.id) {
        assert t.schedules[id].Holds(x.id) || Pressing(t, x);
      }
    }
    if Quiet(t') {
      forall x | x in t.triggers && ClaimResolved(t, x) && Pressing(t, x) ensures ClaimResolved(t', x) {
        PressedIsResolved(t', x);
      }
    }
  }

  lemma PressedIsResolved(t: Tables, x: Trigger)
    requires Quiet(t) && x in t.triggers && Pressing(t, x)
    ensures ClaimResolved(t, x)
  {
    if i, j :| 0 <= i < j < |t.triggers| && t.triggers[i] == x && SameDefinition(t.schedules, t.triggers[i], t.triggers[j]) {
    } else {
      var id :| Concerns(t.schedules, id, x) && !t.schedules[id].Holds(x.id);
    }
  }

  lemma ReserveKeepsSchedules(t: Tables, e: Event)
    requires e.ReserveEvent?
    ensures Apply(t, e).triggers == t.triggers && Apply(t, e).schedules == t.schedules
  {
    ReserveApplies(t, e);
  }

  lemma ReserveExactly(t: Tables, e: Event)
    requires Inv(t) && ArchivesDelegated(t) && Quiet(t) && e.ReserveEvent?
    ensures Quiet(Apply(t, e)) <==> Honest(t, e)
  {
    ReserveKeepsSchedules(t, e);
    ReserveQuiet(t, Apply(t, e));
    forall x | x in t.triggers && ClaimResolved(t, x) ensures ClaimResolved(Apply(t, e), x) <==> !Reopens(t, e, x) {
      StepReopening(t, e, x);
    }
  }

  /** Order is kept exactly by the honest steps. */
  lemma StepQuiet(t: Tables, e: Event)
    requires Inv(t) && ArchivesDelegated(t) && Quiet(t)
    ensures Quiet(Apply(t, e)) <==> Honest(t, e)
  {
    if e.ReserveEvent? {
      ReserveExactly(t, e);
    } else {
      OtherQuiet(t, e);
    }
  }

  /** Every state on the way is quiet. */
  ghost predicate AlwaysQuiet(events: seq<Event>) {
    Quiet(Run(EMPTY, events)) && (events != [] ==> AlwaysQuiet(events[..|events| - 1]))
  }

  /** The claims of every definition are served one after the other throughout a run if and only if no reservation
      in it takes the receipt of a resolved claim that a later claim or an active schedule relies on. */
  lemma {:induction false} QuietExactly(events: seq<Event>)
    ensures AlwaysQuiet(events) <==> HonestRun(events)
  {
    if events != [] {
      QuietExactly(events[..|events| - 1]);
      if HonestRun(events[..|events| - 1]) {
        RunDelegated(events[..|events| - 1]);
        StepQuiet(Run(EMPTY, events[..|events| - 1]), events[|events| - 1]);
      }
    }
  }

  lemma RunQuiet(events: seq<Event>)
    requires HonestRun(events)
    ensures Quiet(Run(EMPTY, events))
  {
    QuietExactly(events);
  }

  lemma SerialPair(t: Tables, a: Trigger, b: Trigger)
    requires ClaimsSerial(t) && a in t.triggers && b in t.triggers && SameDefinition(t.schedules, a, b)
    requires !ClaimResolved(t, a) && !ClaimResolved(t, b)
    ensures a == b
  {
    var i :| 0 <= i < |t.triggers| && t.triggers[i] == a;
    var j :| 0 <= j < |t.triggers| && t.triggers[j] == b;
  }
}
