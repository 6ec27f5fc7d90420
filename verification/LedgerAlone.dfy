/**
 When a definition has at most one unresolved claim, and when nothing is open while a schedule waits.  Neither
 is checked by the due check itself, so each holds throughout a run exactly when no step of it breaks it.
 */
module LedgerAlone {
  import opened Prelude
  import opened Records
  import opened Ledger
  import opened LedgerInvariant
  import opened LedgerSteps
  import opened LedgerRuns
  import opened LedgerCalls
  import opened LedgerEvolution
  import opened LedgerTheorems
  import opened LedgerLaunch
  import opened LedgerDue
  import opened LedgerClaims
  import opened LedgerOverlap

  ghost predicate Open(t: Tables, x: Trigger) {
    x in t.triggers && !ClaimResolved(t, x)
  }

  /** A claim of this definition. */
  predicate OfDefinition(schedules: map<Id, Schedule>, x: Trigger, definition: Id) {
    x.schedule in schedules && schedules[x.schedule].definition == definition
  }

  /** No definition has two open claims. */
  ghost predicate Alone(t: Tables) {
    forall a, b | Open(t, a) && Open(t, b) && SameDefinition(t.schedules, a, b) :: a == b
  }

  ghost predicate DueEvent(t: Tables, e: Event) {
    e.ClaimEvent? && DueGuard(t, e.id, e.runtime, e.issuer, e.now, e.commit, e.ids, e.room)
  }

  /** A due check claims while a claim of its definition is open. */
  ghost predicate ClaimCrowds(t: Tables, e: Event) {
    && DueEvent(t, e)
    && exists y :: Open(t, y) && OfDefinition(t.schedules, y, t.schedules[e.id].definition)
  }

  /** A resolved claim is opened again while another claim of its definition is open. */
  ghost predicate ReopenCrowds(t: Tables, e: Event) {
    exists x, y :: x in t.triggers && ClaimResolved(t, x) && Reopens(t, e, x) && Open(t, y) && SameDefinition(t.schedules, x, y)
  }

  ghost predicate Crowds(t: Tables, e: Event) {
    ClaimCrowds(t, e) || ReopenCrowds(t, e)
  }

  // ------------------------------------------------------------------ what is open stays open

  /** The claim's reservation is resolved. */
  predicate Backed(t: Tables, x: Trigger) {
    && OccurrenceById(t.occurrences, x.reservation).Some?
    && ReservationResolved(OccurrenceById(t.occurrences, x.reservation).value, t.jobs, t.archives)
  }

  ghost predicate Withdrawn(t: Tables, x: Trigger) {
    exists id :: Unissued(t, x, id)
  }

  /** The three ways in which a claim is over, where every retained plan keeps its lineage. */
  lemma OverExactly(t: Tables, x: Trigger)
    requires JobsOk(t) && ArchivesDelegated(t) && x.schedule in t.schedules
    ensures ClaimResolved(t, x) <==> RefusalAccepted(t, x) || Backed(t, x) || Withdrawn(t, x)
  {
    if ClaimResolved(t, x) {
      var id := OverCases(t, x);
    }
    if Backed(t, x) {
      RetainedDelegation(t, OccurrenceById(t.occurrences, x.reservation).value);
      OverIsResolved(t, x);
    }
    if Withdrawn(t, x) {
      var id :| Unissued(t, x, id);
      UnissuedIsOver(t, x, id);
    }
  }

  lemma EditOpen(t: Tables, t': Tables, x: Trigger)
    requires t'.jobs == t.jobs && t'.occurrences == t.occurrences && t'.archives == t.archives
    requires x.schedule in t.schedules && x.schedule in t'.schedules
    requires t'.schedules[x.schedule].resolution == t.schedules[x.schedule].resolution
    ensures Backed(t', x) ==> Backed(t, x)
    ensures Withdrawn(t', x) ==> Withdrawn(t, x)
    ensures RefusalAccepted(t', x) ==> RefusalAccepted(t, x)
  {
    if Withdrawn(t', x) {
      var id :| Unissued(t', x, id);
      assert Unissued(t, x, id);
    }
  }

  lemma ReserveBacked(t: Tables, t': Tables, r: Reservation, x: Trigger)
    requires OccurrenceByJob(t.occurrences, r.command.job).None? && r.Id() != x.reservation && Backed(t', x)
    requires t'.occurrences == t.occurrences + [r] && t'.archives == t.archives
    requires t'.jobs == t.jobs[r.command.job := r.snapshot]
    ensures Backed(t, x)
  {
    FindAppend(t.occurrences, r, IsReservation(x.reservation));
    var kept := OccurrenceById(t.occurrences, x.reservation).value;
    assert kept.command.job != r.command.job;
    assert RetainedPlan(kept, t'.jobs, t'.archives) == RetainedPlan(kept, t.jobs, t.archives);
  }

  lemma ReserveWithdrawn(t: Tables, t': Tables, r: Reservation, x: Trigger)
    requires ReserveAt(t, t', r) && OccurrenceOk(r, t') && r.Id() != x.reservation && Withdrawn(t', x)
    ensures Withdrawn(t, x)
  {
    FindAppend(t.occurrences, r, IsReservation(x.reservation));
    var id :| Unissued(t', x, id);
    SourceFrame(t.jobs, r.command.job, r.snapshot, x.context);
    assert Unissued(t, x, id);
  }

  lemma InsertBacked(t: Tables, t': Tables, plan: Plan, x: Trigger)
    requires RetainedOk(t) && JobAt(t, t', plan) && plan.id !in t.jobs && Backed(t', x)
    ensures Backed(t, x)
  {
    var r := OccurrenceById(t.occurrences, x.reservation).value;
    assert RetainedPlan(r, t.jobs, t.archives).Some?;
  }

  lemma InsertWithdrawn(t: Tables, t': Tables, plan: Plan, x: Trigger)
    requires JobAt(t, t', plan) && plan.id !in t.jobs && plan.context != Some(x.context) && Withdrawn(t', x)
    ensures Withdrawn(t, x)
  {
    var id :| Unissued(t', x, id);
    assert SourceJobs(t'.jobs, x.context) == SourceJobs(t.jobs, x.context);
    assert id in SourceJobs(t.jobs, x.context);
    assert Unissued(t, x, id);
  }

  /** Only its own reservation and jobs of its own request can close an open claim here. */
  predicate Leaves(t: Tables, m: Move, x: Trigger) {
    || m.ClaimMove? || m.EditMove?
    || (m.ReserveMove? && m.r.Id() != x.reservation)
    || (m.JobMove? && m.plan.id !in t.jobs && m.plan.context != Some(x.context))
  }

  predicate StillOpen(t: Tables, t': Tables, x: Trigger)
  {
    x.schedule in t'.schedules && (RefusalAccepted(t', x) ==> RefusalAccepted(t, x)) && (Backed(t', x) ==> Backed(t, x))
  }

  lemma ReserveLeaves(t: Tables, t': Tables, r: Reservation, x: Trigger)
    requires ReserveAt(t, t', r) && OccurrenceOk(r, t') && r.Id() != x.reservation && x.schedule in t.schedules
    ensures StillOpen(t, t', x) && (Withdrawn(t', x) ==> Withdrawn(t, x))
  {
    if Backed(t', x) {
      ReserveBacked(t, t', r, x);
    }
    if Withdrawn(t', x) {
      ReserveWithdrawn(t, t', r, x);
    }
  }

  lemma InsertLeaves(t: Tables, t': Tables, plan: Plan, x: Trigger)
    requires RetainedOk(t) && JobAt(t, t', plan) && plan.id !in t.jobs && plan.context != Some(x.context)
    requires x.schedule in t.schedules
    ensures StillOpen(t, t', x) && (Withdrawn(t', x) ==> Withdrawn(t, x))
  {
    if Backed(t', x) {
      InsertBacked(t, t', plan, x);
    }
    if Withdrawn(t', x) {
      InsertWithdrawn(t, t', plan, x);
    }
  }

  lemma ClaimLeaves(t: Tables, t': Tables, id: Id, y: Trigger, x: Trigger)
    requires ClaimAt(t, t', id, y) && x.schedule in t.schedules
    ensures StillOpen(t, t', x) && (Withdrawn(t', x) ==> Withdrawn(t, x))
  {
    EditOpen(t, t', x);
  }

  lemma EditLeaves(t: Tables, t': Tables, id: Id, x: Trigger)
    requires EditAt(t, t', id) && x.schedule in t.schedules
    ensures StillOpen(t, t', x) && (Withdrawn(t', x) ==> Withdrawn(t, x))
  {
    EditOpen(t, t', x);
  }

  lemma LeftCases(t: Tables, m: Move, t': Tables, x: Trigger)
    requires RetainedOk(t) && RetainedOk(t') && Moves(t, m, t') && Leaves(t, m, x) && x.schedule in t.schedules
    ensures StillOpen(t, t', x) && (Withdrawn(t', x) ==> Withdrawn(t, x))
  {
    match m
    case ReserveMove(r) =>
      assert r in t'.occurrences && OccurrenceOk(r, t');
      ReserveLeaves(t, t', r, x);
    case JobMove(plan) => InsertLeaves(t, t', plan, x);
    case ClaimMove(id, y) => ClaimLeaves(t, t', id, y, x);
    case EditMove(id) => EditLeaves(t, t', id, x);
  }

  lemma LeftOpen(t: Tables, m: Move, t': Tables, x: Trigger)
    requires RetainedOk(t) && RetainedOk(t') && JobsOk(t) && JobsOk(t') && ArchivesDelegated(t) && ArchivesDelegated(t')
    requires t.triggers <= t'.triggers && Moves(t, m, t') && Leaves(t, m, x) && Open(t, x) && x.schedule in t.schedules
    ensures Open(t', x)
  {
    LeftCases(t, m, t', x);
    OverExactly(t, x);
    OverExactly(t', x);
  }

  lemma StaysOpen(t: Tables, e: Event, m: Move, x: Trigger)
    requires Inv(t) && ArchivesDelegated(t) && Moves(t, m, Apply(t, e)) && Leaves(t, m, x) && Open(t, x)
    ensures Open(Apply(t, e), x)
  {
    StepKeeps(t, e);
    StepDelegated(t, e);
    MoveLogs(t, m, Apply(t, e));
    assert TriggerOk(x, t.schedules, t.policies);
    LeftOpen(t, m, Apply(t, e), x);
  }

  // ------------------------------------------------------------------ claims

  lemma NewClaimIsOpen(t: Tables, t': Tables, id: Id, x: Trigger)
    requires SchedulesOk(t.schedules, t.policies, t.definitions) && ClaimAt(t, t', id, x)
    ensures Open(t', x) && x !in t.triggers && OfDefinition(t'.schedules, x, t.schedules[id].definition)
  {
    assert ScheduleOk(t.schedules[id], id, t.policies, t.definitions);
    assert SourceJobs(t'.jobs, x.context) == {};
    assert OccurrenceById(t'.occurrences, x.reservation).None?;
  }

  lemma DueClaims(t: Tables, id: Id, runtime: Id, issuer: int, now: nat, commit: nat, ids: FreshIds, room: bool)
    requires HistoryOk(t) && RetainedOk(t) && AllPaced(t.schedules, t.triggers)
    ensures var a := ClaimDue(t, id, runtime, issuer, now, commit, ids, room);
            a.Done? && a.value.Some? <==> DueGuard(t, id, runtime, issuer, now, commit, ids, room)
  {
    if id in t.schedules {
      DueJudged(t, id, runtime, issuer, now, commit, ids, room);
    }
  }

  /** A due check appends a claim if and only if its guard holds. */
  lemma ClaimsWhen(t: Tables, e: Event) returns (x: Option<Trigger>)
    requires HistoryOk(t) && RetainedOk(t) && AllPaced(t.schedules, t.triggers) && e.ClaimEvent?
    ensures x.Some? <==> DueEvent(t, e)
    ensures if x.Some? then ClaimAt(t, Apply(t, e), e.id, x.value) else Apply(t, e).triggers == t.triggers
  {
    ClaimApplies(t, e);
    DueClaims(t, e.id, e.runtime, e.issuer, e.now, e.commit, e.ids, e.room);
    ClaimShape(t, e.id, e.runtime, e.issuer, e.now, e.commit, e.ids, e.room);
    var a := ClaimDue(t, e.id, e.runtime, e.issuer, e.now, e.commit, e.ids, e.room);
    x := if a.Done? then a.value else None;
  }

  // ------------------------------------------------------------------ reopened claims

  /** A checkpoint reopens at most one claim. */
  lemma ReopensOne(t: Tables, e: Event, x: Trigger, y: Trigger)
    requires IdentitiesOk(t.triggers) && x in t.triggers && y in t.triggers && Reopens(t, e, x) && Reopens(t, e, y)
    ensures x == y
  {
    if e.ReserveEvent? {
      UniqueOwner(t.triggers, x, y, x.reservation);
    } else {
      UniqueOwner(t.triggers, x, y, x.context.request);
    }
  }

  lemma ReopeningLeaves(t: Tables, m: Move, x: Trigger, y: Trigger)
    requires IdentitiesOk(t.triggers) && x in t.triggers && y in t.triggers && x != y
    requires MoveReopens(t, m, x)
    ensures Leaves(t, m, y)
  {
    if m.ReserveMove? && m.r.Id() == y.reservation {
      UniqueOwner(t.triggers, x, y, x.reservation);
    }
    if m.JobMove? && m.plan.context == Some(y.context) {
      UniqueOwner(t.triggers, x, y, x.context.request);
    }
  }

  /** A reopened claim joins every other open one. */
  lemma ReopenedJoins(t: Tables, e: Event, m: Move, x: Trigger, y: Trigger)
    requires Inv(t) && ArchivesDelegated(t) && Moves(t, m, Apply(t, e)) && Caused(t, e, m)
    requires x in t.triggers && ClaimResolved(t, x) && Reopens(t, e, x) && Open(t, y) && x != y
    ensures Open(Apply(t, e), y)
  {
    ReopensByMove(t, e, m, x);
    ReopeningLeaves(t, m, x, y);
    StaysOpen(t, e, m, y);
  }

  // ------------------------------------------------------------------ pairs of claims

  lemma SameBefore(t: Tables, t': Tables, a: Trigger, b: Trigger)
    requires TriggersOk(t.triggers, t.schedules, t.policies) && SchedulesKept(t.schedules, t'.schedules)
    requires a in t.triggers && b in t.triggers
    ensures SameDefinition(t'.schedules, a, b) <==> SameDefinition(t.schedules, a, b)
  {
    assert TriggerOk(a, t.schedules, t.policies) && TriggerOk(b, t.schedules, t.policies);
  }

  /** Every claim retained before that is open now was open, or is the one that the step reopened. */
  ghost predicate OpensOnly(t: Tables, t': Tables, r: Option<Trigger>) {
    forall x | x in t.triggers && Open(t', x) :: Open(t, x) || r == Some(x)
  }

  lemma OldPairs(t: Tables, t': Tables, r: Option<Trigger>, a: Trigger, b: Trigger)
    requires TriggersOk(t.triggers, t.schedules, t.policies) && SchedulesKept(t.schedules, t'.schedules)
    requires Alone(t) && OpensOnly(t, t', r)
    requires r.Some? ==> forall y | Open(t, y) :: !SameDefinition(t.schedules, r.value, y)
    requires a in t.triggers && b in t.triggers && Open(t', a) && Open(t', b) && SameDefinition(t'.schedules, a, b)
    ensures a == b
  {
    SameBefore(t, t', a, b);
    assert SameDefinition(t.schedules, b, a);
  }

  /** Nothing but the reopened claim is new. */
  lemma ReopenedAlone(t: Tables, t': Tables, r: Option<Trigger>)
    requires TriggersOk(t.triggers, t.schedules, t.policies) && SchedulesKept(t.schedules, t'.schedules)
    requires Alone(t) && OpensOnly(t, t', r) && t'.triggers == t.triggers
    requires r.Some? ==> forall y | Open(t, y) :: !SameDefinition(t.schedules, r.value, y)
    ensures Alone(t')
  {
    forall a, b | Open(t', a) && Open(t', b) && SameDefinition(t'.schedules, a, b) ensures a == b {
      OldPairs(t, t', r, a, b);
    }
  }

  lemma NewPair(t: Tables, t': Tables, id: Id, x: Trigger, b: Trigger)
    requires TriggersOk(t.triggers, t.schedules, t.policies) && OpensOnly(t, t', None) && ClaimAt(t, t', id, x)
    requires forall y | Open(t, y) :: !OfDefinition(t.schedules, y, t.schedules[id].definition)
    requires b in t.triggers && Open(t', b)
    ensures !SameDefinition(t'.schedules, x, b)
  {
    assert TriggerOk(b, t.schedules, t.policies);
    assert !OfDefinition(t.schedules, b, t.schedules[id].definition);
  }

  lemma ClaimedPair(t: Tables, t': Tables, id: Id, x: Trigger, a: Trigger, b: Trigger)
    requires TriggersOk(t.triggers, t.schedules, t.policies) && SchedulesKept(t.schedules, t'.schedules)
    requires Alone(t) && OpensOnly(t, t', None) && ClaimAt(t, t', id, x)
    requires forall y | Open(t, y) :: !OfDefinition(t.schedules, y, t.schedules[id].definition)
    requires Open(t', a) && Open(t', b) && SameDefinition(t'.schedules, a, b)
    ensures a == b
  {
    if a in t.triggers && b in t.triggers {
      OldPairs(t, t', None, a, b);
    } else if a in t.triggers {
      NewPair(t, t', id, x, a);
    } else if b in t.triggers {
      NewPair(t, t', id, x, b);
    }
  }

  lemma ClaimedAlone(t: Tables, t': Tables, id: Id, x: Trigger)
    requires TriggersOk(t.triggers, t.schedules, t.policies) && SchedulesKept(t.schedules, t'.schedules)
    requires Alone(t) && OpensOnly(t, t', None) && ClaimAt(t, t', id, x)
    requires forall y | Open(t, y) :: !OfDefinition(t.schedules, y, t.schedules[id].definition)
    ensures Alone(t')
  {
    forall a, b | Open(t', a) && Open(t', b) && SameDefinition(t'.schedules, a, b) ensures a == b {
      ClaimedPair(t, t', id, x, a, b);
    }
  }

  // ------------------------------------------------------------------ steps

  /** The claim that a step reopens, if any. */
  ghost predicate ReopensJust(t: Tables, e: Event, r: Option<Trigger>) {
    && (r.Some? ==> r.value in t.triggers && ClaimResolved(t, r.value) && Reopens(t, e, r.value))
    && (forall x | x in t.triggers && ClaimResolved(t, x) && Reopens(t, e, x) :: r == Some(x))
  }

  lemma WhichReopens(t: Tables, e: Event) returns (r: Option<Trigger>)
    requires IdentitiesOk(t.triggers)
    ensures ReopensJust(t, e, r)
  {
    if y :| y in t.triggers && ClaimResolved(t, y) && Reopens(t, e, y) {
      forall x | x in t.triggers && ClaimResolved(t, x) && Reopens(t, e, x) ensures x == y {
        ReopensOne(t, e, x, y);
      }
      r := Some(y);
    } else {
      r := None;
    }
  }

  lemma StepOpens(t: Tables, e: Event, r: Option<Trigger>)
    requires Inv(t) && ArchivesDelegated(t) && ReopensJust(t, e, r)
    ensures OpensOnly(t, Apply(t, e), r)
  {
    forall x | x in t.triggers && Open(Apply(t, e), x) ensures Open(t, x) || r == Some(x) {
      if ClaimResolved(t, x) {
        StepReopening(t, e, x);
      }
    }
  }

  lemma StepFrame(t: Tables, e: Event)
    requires Inv(t)
    ensures TriggersOk(t.triggers, t.schedules, t.policies) && SchedulesKept(t.schedules, Apply(t, e).schedules)
  {
    StepEvolves(t, e);
  }

  lemma OtherTriggers(t: Tables, e: Event)
    requires Inv(t) && !e.ClaimEvent?
    ensures Apply(t, e).triggers == t.triggers
  {
    var m := Classify(t, e);
  }

  lemma DueReopensNone(t: Tables, e: Event, r: Option<Trigger>)
    requires e.ClaimEvent? && ReopensJust(t, e, r)
    ensures r.None?
  {
  }

  lemma ClaimedStays(t: Tables, e: Event)
    requires Inv(t) && ArchivesDelegated(t) && Alone(t) && e.ClaimEvent? && !ClaimCrowds(t, e)
    ensures Alone(Apply(t, e))
  {
    var r := WhichReopens(t, e);
    DueReopensNone(t, e, r);
    StepOpens(t, e, None);
    StepFrame(t, e);
    var x := ClaimsWhen(t, e);
    if x.Some? {
      ClaimedAlone(t, Apply(t, e), e.id, x.value);
    } else {
      ReopenedAlone(t, Apply(t, e), None);
    }
  }

  lemma OtherStays(t: Tables, e: Event)
    requires Inv(t) && ArchivesDelegated(t) && Alone(t) && !e.ClaimEvent? && !ReopenCrowds(t, e)
    ensures Alone(Apply(t, e))
  {
    var r := WhichReopens(t, e);
    StepOpens(t, e, r);
    StepFrame(t, e);
    OtherTriggers(t, e);
    ReopenedAlone(t, Apply(t, e), r);
  }

  lemma CrowdedPair(t: Tables, t': Tables, id: Id, x: Trigger, y: Trigger)
    requires SchedulesOk(t.schedules, t.policies, t.definitions) && SchedulesKept(t.schedules, t'.schedules)
    requires ClaimAt(t, t', id, x) && Open(t, y) && OfDefinition(t.schedules, y, t.schedules[id].definition) && Open(t', y)
    ensures !Alone(t')
  {
    NewClaimIsOpen(t, t', id, x);
    assert SameDefinition(t'.schedules, x, y);
  }

  lemma CrowdedByClaim(t: Tables, e: Event)
    requires Inv(t) && ArchivesDelegated(t) && ClaimCrowds(t, e)
    ensures !Alone(Apply(t, e))
  {
    var y :| Open(t, y) && OfDefinition(t.schedules, y, t.schedules[e.id].definition);
    var x := ClaimsWhen(t, e);
    StaysOpen(t, e, ClaimMove(e.id, x.value), y);
    StepFrame(t, e);
    CrowdedPair(t, Apply(t, e), e.id, x.value, y);
  }

  lemma ReopenedIsOpen(t: Tables, e: Event, m: Move, x: Trigger)
    requires Inv(t) && ArchivesDelegated(t) && Moves(t, m, Apply(t, e))
    requires x in t.triggers && ClaimResolved(t, x) && Reopens(t, e, x)
    ensures Open(Apply(t, e), x)
  {
    StepReopening(t, e, x);
    MoveLogs(t, m, Apply(t, e));
  }

  lemma ReopenedPair(t: Tables, t': Tables, x: Trigger, y: Trigger)
    requires SchedulesKept(t.schedules, t'.schedules) && SameDefinition(t.schedules, x, y)
    requires x != y && Open(t', x) && Open(t', y)
    ensures !Alone(t')
  {
    assert SameDefinition(t'.schedules, x, y);
  }

  lemma ReopenedOpens(t: Tables, e: Event, x: Trigger)
    requires Inv(t) && ArchivesDelegated(t) && x in t.triggers && ClaimResolved(t, x) && Reopens(t, e, x)
    ensures Open(Apply(t, e), x)
  {
    var m := Classify(t, e);
    ReopenedIsOpen(t, e, m, x);
  }

  lemma OthersStayOpen(t: Tables, e: Event, x: Trigger, y: Trigger)
    requires Inv(t) && ArchivesDelegated(t) && x in t.triggers && ClaimResolved(t, x) && Reopens(t, e, x) && Open(t, y) && x != y
    ensures Open(Apply(t, e), y)
  {
    var m := Classify(t, e);
    ReopenedJoins(t, e, m, x, y);
  }

  lemma Joined(t: Tables, e: Event, x: Trigger, y: Trigger) returns (t': Tables)
    requires Inv(t) && ArchivesDelegated(t) && x in t.triggers && ClaimResolved(t, x) && Reopens(t, e, x)
    requires Open(t, y) && x != y
    ensures t' == Apply(t, e) && Open(t', x) && Open(t', y) && SchedulesKept(t.schedules, t'.schedules)
  {
    t' := Apply(t, e);
    ReopenedOpens(t, e, x);
    OthersStayOpen(t, e, x, y);
    StepFrame(t, e);
  }

  lemma CrowdedByReopening(t: Tables, e: Event)
    requires Inv(t) && ArchivesDelegated(t) && ReopenCrowds(t, e)
    ensures !Alone(Apply(t, e))
  {
    var x, y :| x in t.triggers && ClaimResolved(t, x) && Reopens(t, e, x) && Open(t, y) && SameDefinition(t.schedules, x, y);
    var t' := Joined(t, e, x, y);
    ReopenedPair(t, t', x, y);
  }

  /** A definition keeps at most one open claim through exactly the steps that do not crowd it. */
  lemma StepAlone(t: Tables, e: Event)
    requires Inv(t) && ArchivesDelegated(t) && Alone(t)
    ensures Alone(Apply(t, e)) <==> !Crowds(t, e)
  {
    if ClaimCrowds(t, e) {
      CrowdedByClaim(t, e);
    } else if ReopenCrowds(t, e) {
      CrowdedByReopening(t, e);
    } else if e.ClaimEvent? {
      ClaimedStays(t, e);
    } else {
      OtherStays(t, e);
    }
  }

  // ------------------------------------------------------------------ runs

  ghost predicate AlwaysAlone(events: seq<Event>) {
    Alone(Run(EMPTY, events)) && (events != [] ==> AlwaysAlone(events[..|events| - 1]))
  }

  ghost predicate NeverCrowds(events: seq<Event>) {
    events != [] ==>
      && NeverCrowds(events[..|events| - 1])
      && !Crowds(Run(EMPTY, events[..|events| - 1]), events[|events| - 1])
  }

  /** Throughout a run no definition has two open claims, if and only if no due check in it claims, and no
      reservation or insertion reopens a claim, while another claim of the definition is open. */
  lemma {:induction false} AloneExactly(events: seq<Event>)
    ensures AlwaysAlone(events) <==> NeverCrowds(events)
  {
    if events != [] {
      AloneExactly(events[..|events| - 1]);
      if NeverCrowds(events[..|events| - 1]) {
        RunDelegated(events[..|events| - 1]);
        StepAlone(Run(EMPTY, events[..|events| - 1]), events[|events| - 1]);
      }
    }
  }

  // ------------------------------------------------------------------ while a schedule waits

  /** A schedule of this definition waits. */
  predicate WaitedFor(schedules: map<Id, Schedule>, definition: Id) {
    exists id | id in schedules :: schedules[id].state == Waiting && schedules[id].definition == definition
  }

  /** While any schedule of a definition waits, all of the definition's claims are over. */
  ghost predicate Calm(t: Tables) {
    forall y | Open(t, y) && y.schedule in t.schedules :: !WaitedFor(t.schedules, t.schedules[y.schedule].definition)
  }

  /** Settling commits and leaves this schedule waiting for its next due time. */
  ghost predicate Rearms(t: Tables, e: Event, id: Id) {
    && e.SettleEvent? && e.id == id && id in t.schedules && t.schedules[id].state == InFlight
    && LastClaim(t.triggers, t.schedules[id]).Some?
    && SettleGuard(t, t.schedules[id], LastClaim(t.triggers, t.schedules[id]).value, e.runtime, e.issuer, e.now)
    && SettledAs(t, t.schedules[id], e.runtime, e.issuer, e.now).state == Waiting
  }

  /** A schedule is armed again while a claim of its definition is open. */
  ghost predicate RearmDisturbs(t: Tables, e: Event) {
    exists id, y :: Rearms(t, e, id) && Open(t, y) && OfDefinition(t.schedules, y, t.schedules[id].definition)
  }

  /** A resolved claim is opened again while a schedule of its definition waits. */
  ghost predicate ReopenDisturbs(t: Tables, e: Event) {
    exists x :: x in t.triggers && ClaimResolved(t, x) && Reopens(t, e, x) && x.schedule in t.schedules
                && WaitedFor(t.schedules, t.schedules[x.schedule].definition)
  }

  ghost predicate Disturbs(t: Tables, e: Event) {
    RearmDisturbs(t, e) || ReopenDisturbs(t, e)
  }

  // ------------------------------------------------------------------ who starts to wait

  predicate NewlyWaits(t: Tables, t': Tables, id: Id) {
    && id in t'.schedules && t'.schedules[id].state == Waiting
    && !(id in t.schedules && t.schedules[id].state == Waiting)
  }

  /** No retained schedule starts to wait. */
  predicate NoneWaits(t: Tables, t': Tables) {
    forall id | id in t.schedules && id in t'.schedules :: !NewlyWaits(t, t', id)
  }

  lemma SaveNoneWaits(t: Tables, s: Schedule)
    requires s.state != Waiting
    ensures Save(t, s).Done? ==> NoneWaits(t, Save(t, s).tables)
  {
  }

  lemma DueNoneWaits(t: Tables, id: Id, verdict: Verdict, now: nat, ids: FreshIds, t': Tables)
    requires id in t.schedules && Carried(t, id, verdict, now, ids, t')
    ensures NoneWaits(t, t')
  {
  }

  lemma ClaimNoneWaits(t: Tables, id: Id, runtime: Id, issuer: int, now: nat, commit: nat, ids: FreshIds, room: bool)
    requires HistoryOk(t) && RetainedOk(t) && AllPaced(t.schedules, t.triggers)
    ensures NoneWaits(t, After(t, ClaimDue(t, id, runtime, issuer, now, commit, ids, room)))
  {
    if id in t.schedules {
      DueJudged(t, id, runtime, issuer, now, commit, ids, room);
      DueNoneWaits(t, id, Judge(t, id, runtime, issuer, now, commit, ids, room), now, ids,
                   After(t, ClaimDue(t, id, runtime, issuer, now, commit, ids, room)));
    }
  }

  lemma LaunchNoneWaits(t: Tables, id: Id, runtime: Id, now: nat, commit: nat)
    ensures NoneWaits(t, After(t, BeginLaunch(t, id, runtime, now, commit)))
  {
    if BeginLaunch(t, id, runtime, now, commit).Done? {
      var s := t.schedules[TriggerById(t.triggers, id).value.schedule];
      SaveNoneWaits(t, Advanced(s, now).(launchedAt := Some(now)));
    }
  }

  lemma InterruptNoneWaits(t: Tables, id: Id, reason: Reason, now: nat)
    ensures NoneWaits(t, After(t, InterruptSchedule(t, id, reason, now)))
  {
    if InterruptSchedule(t, id, reason, now).Done? {
      SaveNoneWaits(t, InterruptedAt(t.schedules[id], reason, now));
    }
  }

  lemma TriggerNoneWaits(t: Tables, id: Id, reason: Reason, now: nat)
    ensures NoneWaits(t, After(t, InterruptTrigger(t, id, reason, now)))
  {
    if InterruptTrigger(t, id, reason, now).Done? {
      SaveNoneWaits(t, InterruptedAt(t.schedules[TriggerById(t.triggers, id).value.schedule], reason, now));
    }
  }

  lemma StopNoneWaits(t: Tables, id: Id, revision: nat, operation: Id, now: nat)
    ensures NoneWaits(t, After(t, StopSchedule(t, id, revision, operation, now)))
  {
    if StopSchedule(t, id, revision, operation, now).Done? {
      SaveNoneWaits(t, StoppedBy(t.schedules[id], Receipt(operation, revision), now));
    }
  }

  lemma ClaimingNoneWaits(t: Tables, e: Event)
    requires HistoryOk(t) && RetainedOk(t) && AllPaced(t.schedules, t.triggers) && e.ClaimEvent?
    ensures NoneWaits(t, Apply(t, e))
  {
    ClaimApplies(t, e);
    ClaimNoneWaits(t, e.id, e.runtime, e.issuer, e.now, e.commit, e.ids, e.room);
  }

  lemma EditNoneWaits(t: Tables, e: Event)
    requires e.LaunchEvent? || e.InterruptScheduleEvent? || e.InterruptTriggerEvent? || e.StopEvent?
    ensures NoneWaits(t, Apply(t, e))
  {
    match e
    case LaunchEvent(id, runtime, now, commit) => LaunchNoneWaits(t, id, runtime, now, commit);
    case InterruptScheduleEvent(id, reason, now) => InterruptNoneWaits(t, id, reason, now);
    case InterruptTriggerEvent(id, reason, now) => TriggerNoneWaits(t, id, reason, now);
    case StopEvent(id, revision, op, now) => StopNoneWaits(t, id, revision, op, now);
  }

  lemma SettleIdle(t: Tables, id: Id, runtime: Id, issuer: int, now: nat)
    requires id !in t.schedules || t.schedules[id].state != InFlight
    ensures SettleSchedule(t, id, runtime, issuer, now).Refused?
  {
  }

  lemma WaitsAfter(t: Tables, t': Tables, id: Id, next: Schedule, committed: bool)
    requires id in t.schedules && t.schedules[id].state == InFlight
    requires t'.schedules == if committed then t.schedules[id := next] else t.schedules
    ensures forall k | k in t.schedules && k in t'.schedules :: NewlyWaits(t, t', k) <==> committed && k == id && next.state == Waiting
  {
  }

  lemma SettleLeaves(t: Tables, id: Id, runtime: Id, issuer: int, now: nat)
    requires HistoryOk(t) && RetainedOk(t) && id in t.schedules && t.schedules[id].state == InFlight
    ensures LastClaim(t.triggers, t.schedules[id]).Some?
    ensures var s := t.schedules[id];
            After(t, SettleSchedule(t, id, runtime, issuer, now)).schedules
            == if SettleGuard(t, s, LastClaim(t.triggers, s).value, runtime, issuer, now)
               then t.schedules[id := SettledAs(t, s, runtime, issuer, now)] else t.schedules
  {
    SettleExactly(t, id, runtime, issuer, now);
  }

  lemma SettleWaits(t: Tables, id: Id, runtime: Id, issuer: int, now: nat)
    requires HistoryOk(t) && RetainedOk(t)
    ensures var t' := After(t, SettleSchedule(t, id, runtime, issuer, now));
            forall k | k in t.schedules && k in t'.schedules ::
              NewlyWaits(t, t', k) <==> Rearms(t, SettleEvent(id, runtime, issuer, now), k)
  {
    if id in t.schedules && t.schedules[id].state == InFlight {
      var s := t.schedules[id];
      SettleLeaves(t, id, runtime, issuer, now);
      WaitsAfter(t, After(t, SettleSchedule(t, id, runtime, issuer, now)), id, SettledAs(t, s, runtime, issuer, now),
                 SettleGuard(t, s, LastClaim(t.triggers, s).value, runtime, issuer, now));
    } else {
      SettleIdle(t, id, runtime, issuer, now);
    }
  }

  /** Settling arms its schedule again exactly when it commits and a run is left. */
  lemma RearmsWhen(t: Tables, e: Event)
    requires HistoryOk(t) && RetainedOk(t) && e.SettleEvent?
    ensures forall id | id in t.schedules && id in Apply(t, e).schedules :: NewlyWaits(t, Apply(t, e), id) <==> Rearms(t, e, id)
  {
    SettleApplies(t, e);
    SettleWaits(t, e.id, e.runtime, e.issuer, e.now);
    assert e == SettleEvent(e.id, e.runtime, e.issuer, e.now);
  }

  lemma EditsKeys(t: Tables, e: Event)
    requires Inv(t) && !e.ArmEvent?
    ensures Apply(t, e).schedules.Keys == t.schedules.Keys
  {
    var m := Classify(t, e);
    OnlyArmingAdds(t, m, Apply(t, e));
  }

  lemma MoveNoneWaits(t: Tables, m: Move, t': Tables)
    requires Moves(t, m, t') && !m.EditMove? && !m.ClaimMove?
    ensures NoneWaits(t, t')
  {
  }

  lemma ArmsOne(t: Tables, t': Tables, s: Schedule)
    requires ArmAt(t, t', s)
    ensures t'.schedules == t.schedules[s.Id() := s] && NoOverlap(t, s.definition)
  {
  }

  lemma OnlyArmingAdds(t: Tables, m: Move, t': Tables)
    requires Moves(t, m, t') && !m.ArmMove?
    ensures t'.schedules.Keys == t.schedules.Keys
  {
  }

  lemma MoveArmsQuietly(t: Tables, m: Move, t': Tables, id: Id)
    requires Moves(t, m, t') && !m.EditMove? && !m.ClaimMove? && NewlyWaits(t, t', id)
    ensures NoOverlap(t, t'.schedules[id].definition)
  {
    MoveNoneWaits(t, m, t');
    if m.ArmMove? {
      ArmsOne(t, t', m.s);
    } else {
      OnlyArmingAdds(t, m, t');
    }
  }

  lemma OthersNoneWait(t: Tables, e: Event)
    requires Inv(t) && !EditsSchedule(e)
    ensures NoneWaits(t, Apply(t, e))
  {
    var m := Classify(t, e);
    MoveNoneWaits(t, m, Apply(t, e));
  }

  lemma ArmedQuietly(t: Tables, e: Event, id: Id)
    requires Inv(t) && e.ArmEvent? && NewlyWaits(t, Apply(t, e), id)
    ensures NoOverlap(t, Apply(t, e).schedules[id].definition)
  {
    var m := Classify(t, e);
    MoveArmsQuietly(t, m, Apply(t, e), id);
  }

  /** A schedule starts to wait because settling armed it again, or with all claims of its definition over. */
  lemma NewWaiter(t: Tables, e: Event, id: Id)
    requires Inv(t) && NewlyWaits(t, Apply(t, e), id)
    ensures Rearms(t, e, id) || NoOverlap(t, Apply(t, e).schedules[id].definition)
  {
    if e.ArmEvent? {
      ArmedQuietly(t, e, id);
    } else {
      EditsKeys(t, e);
      if e.SettleEvent? {
        RearmsWhen(t, e);
      } else {
        NoneElse(t, e, id);
      }
    }
  }

  lemma NoneElse(t: Tables, e: Event, id: Id)
    requires Inv(t) && !e.ArmEvent? && !e.SettleEvent? && id in t.schedules
    ensures !NewlyWaits(t, Apply(t, e), id)
  {
    if e.ClaimEvent? {
      ClaimingNoneWaits(t, e);
    } else if EditsSchedule(e) {
      EditNoneWaits(t, e);
    } else {
      OthersNoneWait(t, e);
    }
  }

  // ------------------------------------------------------------------ calm steps

  /** No schedule starts to wait for a definition with an open claim. */
  ghost predicate WaitsCalmly(t: Tables, t': Tables) {
    forall id, y | NewlyWaits(t, t', id) && Open(t, y) :: !OfDefinition(t.schedules, y, t'.schedules[id].definition)
  }

  lemma CalmPair(t: Tables, t': Tables, r: Option<Trigger>, id: Id, y: Trigger)
    requires TriggersOk(t.triggers, t.schedules, t.policies) && SchedulesKept(t.schedules, t'.schedules)
    requires Calm(t) && OpensOnly(t, t', r) && WaitsCalmly(t, t') && y in t.triggers && Open(t', y)
    requires r.Some? && r.value.schedule in t.schedules ==>
               t'.schedules == t.schedules && !WaitedFor(t.schedules, t.schedules[r.value.schedule].definition)
    requires id in t'.schedules && t'.schedules[id].state == Waiting
    ensures !OfDefinition(t'.schedules, y, t'.schedules[id].definition)
  {
    assert TriggerOk(y, t.schedules, t.policies);
    if NewlyWaits(t, t', id) {
      assert Open(t, y) ==> !OfDefinition(t.schedules, y, t'.schedules[id].definition);
    } else {
      assert t'.schedules[id].definition == t.schedules[id].definition;
      assert WaitedFor(t.schedules, t.schedules[id].definition);
    }
  }

  lemma ClaimCalm(t: Tables, t': Tables, id: Id, x: Trigger, w: Id)
    requires OneActive(t.schedules) && ClaimAt(t, t', id, x) && w in t'.schedules && t'.schedules[w].state == Waiting
    ensures t'.schedules[w].definition != t.schedules[id].definition
  {
    assert w != id ==> !Rival(t.schedules[w], t.schedules[id]);
  }

  lemma CalmWithout(t: Tables, t': Tables, r: Option<Trigger>)
    requires TriggersOk(t.triggers, t.schedules, t.policies) && SchedulesKept(t.schedules, t'.schedules)
    requires Calm(t) && OpensOnly(t, t', r) && WaitsCalmly(t, t') && t'.triggers == t.triggers
    requires r.Some? && r.value.schedule in t.schedules ==>
               t'.schedules == t.schedules && !WaitedFor(t.schedules, t.schedules[r.value.schedule].definition)
    ensures Calm(t')
  {
    forall y | Open(t', y) && y.schedule in t'.schedules
      ensures !WaitedFor(t'.schedules, t'.schedules[y.schedule].definition)
    {
      if WaitedFor(t'.schedules, t'.schedules[y.schedule].definition) {
        var id :| id in t'.schedules && t'.schedules[id].state == Waiting
                  && t'.schedules[id].definition == t'.schedules[y.schedule].definition;
        CalmPair(t, t', r, id, y);
      }
    }
  }

  lemma CalmWith(t: Tables, t': Tables, id: Id, x: Trigger)
    requires TriggersOk(t.triggers, t.schedules, t.policies) && SchedulesKept(t.schedules, t'.schedules)
    requires OneActive(t.schedules) && ClaimAt(t, t', id, x)
    requires Calm(t) && OpensOnly(t, t', None) && WaitsCalmly(t, t')
    ensures Calm(t')
  {
    forall y | Open(t', y) && y.schedule in t'.schedules
      ensures !WaitedFor(t'.schedules, t'.schedules[y.schedule].definition)
    {
      if WaitedFor(t'.schedules, t'.schedules[y.schedule].definition) {
        var w :| w in t'.schedules && t'.schedules[w].state == Waiting
                 && t'.schedules[w].definition == t'.schedules[y.schedule].definition;
        if y in t.triggers {
          CalmPair(t, t', None, w, y);
        } else {
          ClaimCalm(t, t', id, x, w);
        }
      }
    }
  }

  lemma RearmedCalmly(t: Tables, t': Tables, e: Event, id: Id, y: Trigger)
    requires SchedulesKept(t.schedules, t'.schedules) && !RearmDisturbs(t, e) && Rearms(t, e, id) && Open(t, y)
    ensures id in t'.schedules && !OfDefinition(t.schedules, y, t'.schedules[id].definition)
  {
    assert !OfDefinition(t.schedules, y, t.schedules[id].definition);
  }

  lemma StepWaitsCalmly(t: Tables, e: Event)
    requires Inv(t) && !RearmDisturbs(t, e)
    ensures WaitsCalmly(t, Apply(t, e))
  {
    var t' := Apply(t, e);
    StepFrame(t, e);
    forall id, y | NewlyWaits(t, t', id) && Open(t, y) ensures !OfDefinition(t.schedules, y, t'.schedules[id].definition) {
      NewWaiter(t, e, id);
      if Rearms(t, e, id) {
        RearmedCalmly(t, t', e, id, y);
      }
    }
  }

  lemma ReopeningKeeps(t: Tables, e: Event, x: Trigger)
    requires Inv(t) && Reopens(t, e, x)
    ensures Apply(t, e).schedules == t.schedules
  {
    var m := Classify(t, e);
  }

  lemma CalmStays(t: Tables, e: Event)
    requires Inv(t) && ArchivesDelegated(t) && Calm(t) && !Disturbs(t, e)
    ensures Calm(Apply(t, e))
  {
    var r := WhichReopens(t, e);
    StepOpens(t, e, r);
    StepFrame(t, e);
    StepWaitsCalmly(t, e);
    if e.ClaimEvent? {
      DueReopensNone(t, e, r);
      var x := ClaimsWhen(t, e);
      if x.Some? {
        CalmWith(t, Apply(t, e), e.id, x.value);
      } else {
        CalmWithout(t, Apply(t, e), None);
      }
    } else {
      OtherTriggers(t, e);
      if r.Some? {
        ReopeningKeeps(t, e, r.value);
      }
      CalmWithout(t, Apply(t, e), r);
    }
  }

  lemma DisturbedByReopening(t: Tables, e: Event, x: Trigger)
    requires Inv(t) && ArchivesDelegated(t) && x in t.triggers && ClaimResolved(t, x) && Reopens(t, e, x)
    requires x.schedule in t.schedules && WaitedFor(t.schedules, t.schedules[x.schedule].definition)
    ensures !Calm(Apply(t, e))
  {
    var m := Classify(t, e);
    ReopenedIsOpen(t, e, m, x);
    ReopeningKeeps(t, e, x);
  }

  lemma SettlingEdits(t: Tables, e: Event, id: Id) returns (m: Move)
    requires Inv(t) && e.SettleEvent? && Rearms(t, e, id)
    ensures Moves(t, m, Apply(t, e)) && (m.EditMove? || m.Idle?)
  {
    SettleApplies(t, e);
    SettleShape(t, e.id, e.runtime, e.issuer, e.now);
    m := if SettleSchedule(t, e.id, e.runtime, e.issuer, e.now).Done? then EditMove(e.id) else Idle;
  }

  lemma DisturbedPair(t: Tables, t': Tables, id: Id, y: Trigger)
    requires SchedulesKept(t.schedules, t'.schedules) && id in t.schedules && NewlyWaits(t, t', id)
    requires OfDefinition(t.schedules, y, t.schedules[id].definition) && Open(t', y)
    ensures !Calm(t')
  {
  }

  lemma DisturbedByRearming(t: Tables, e: Event, id: Id, y: Trigger)
    requires Inv(t) && ArchivesDelegated(t) && Rearms(t, e, id)
    requires Open(t, y) && OfDefinition(t.schedules, y, t.schedules[id].definition)
    ensures !Calm(Apply(t, e))
  {
    var m := SettlingEdits(t, e, id);
    RearmsWhen(t, e);
    StepFrame(t, e);
    if m.EditMove? {
      StaysOpen(t, e, m, y);
    }
    DisturbedPair(t, Apply(t, e), id, y);
  }

  lemma Disturbed(t: Tables, e: Event)
    requires Inv(t) && ArchivesDelegated(t) && Disturbs(t, e)
    ensures !Calm(Apply(t, e))
  {
    if RearmDisturbs(t, e) {
      var id, y :| Rearms(t, e, id) && Open(t, y) && OfDefinition(t.schedules, y, t.schedules[id].definition);
      DisturbedByRearming(t, e, id, y);
    } else {
      var x :| x in t.triggers && ClaimResolved(t, x) && Reopens(t, e, x) && x.schedule in t.schedules
               && WaitedFor(t.schedules, t.schedules[x.schedule].definition);
      DisturbedByReopening(t, e, x);
    }
  }

  /** A waiting schedule's definition stays free of open claims through exactly the steps that do not disturb it. */
  lemma StepCalm(t: Tables, e: Event)
    requires Inv(t) && ArchivesDelegated(t) && Calm(t)
    ensures Calm(Apply(t, e)) <==> !Disturbs(t, e)
  {
    if Disturbs(t, e) {
      Disturbed(t, e);
    } else {
      CalmStays(t, e);
    }
  }

  ghost predicate AlwaysCalm(events: seq<Event>) {
    Calm(Run(EMPTY, events)) && (events != [] ==> AlwaysCalm(events[..|events| - 1]))
  }

  ghost predicate NeverDisturbs(events: seq<Event>) {
    events != [] ==>
      && NeverDisturbs(events[..|events| - 1])
      && !Disturbs(Run(EMPTY, events[..|events| - 1]), events[|events| - 1])
  }

  /** Throughout a run every claim of a definition is over while any of its schedules waits, if and only if
      no step reopens a claim of a definition that is waited for, and settling never arms a schedule again
      while another claim of its definition is open. */
  lemma {:induction false} CalmExactly(events: seq<Event>)
    ensures AlwaysCalm(events) <==> NeverDisturbs(events)
  {
    if events != [] {
      CalmExactly(events[..|events| - 1]);
      if NeverDisturbs(events[..|events| - 1]) {
        RunDelegated(events[..|events| - 1]);
        StepCalm(Run(EMPTY, events[..|events| - 1]), events[|events| - 1]);
      }
    }
  }

  // ------------------------------------------------------------------ in service order

  /** Claims that are served one after the other are alone, and all over while a schedule waits. */
  lemma QuietMeans(t: Tables)
    requires Quiet(t)
    ensures Alone(t) && Calm(t)
  {
    forall a, b | Open(t, a) && Open(t, b) && SameDefinition(t.schedules, a, b) ensures a == b {
      SerialPair(t, a, b);
    }
    forall y | Open(t, y) && y.schedule in t.schedules ensures !WaitedFor(t.schedules, t.schedules[y.schedule].definition) {
      forall id | id in t.schedules && t.schedules[id].state == Waiting
        ensures t.schedules[id].definition != t.schedules[y.schedule].definition
      {
        assert Concerns(t.schedules, id, y) ==> ClaimResolved(t, y) || t.schedules[id].Holds(y.id);
      }
    }
  }

  lemma {:induction false} HonestIsAlone(events: seq<Event>)
    requires HonestRun(events)
    ensures AlwaysAlone(events) && AlwaysCalm(events)
  {
    RunQuiet(events);
    QuietMeans(Run(EMPTY, events));
    if events != [] {
      HonestIsAlone(events[..|events| - 1]);
    }
  }

  /** An honest run never crowds a definition and never disturbs one that is waited for. */
  lemma HonestNeverCrowds(events: seq<Event>)
    requires HonestRun(events)
    ensures NeverCrowds(events) && NeverDisturbs(events)
  {
    HonestIsAlone(events);
    AloneExactly(events);
    CalmExactly(events);
  }
}
