/** When a claim is over, and exactly which checkpoints can open it again. */
module LedgerClaims {
  import opened Prelude
  import opened Records
  import opened Ledger
  import opened LedgerInvariant
  import opened LedgerSteps
  import opened LedgerRuns
  import opened LedgerEvolution
  import opened LedgerTheorems
  import opened LedgerCalls
  import opened LedgerOutcomes

  // ------------------------------------------------------------------ three ways to be over

  predicate RefusalAccepted(t: Tables, x: Trigger) {
    && x.schedule in t.schedules && t.schedules[x.schedule].resolution.Some?
    && t.schedules[x.schedule].resolution.value.trigger == x.id
  }

  /** The claim's reservation is resolved. */
  predicate ReservationOver(t: Tables, x: Trigger) {
    && OccurrenceById(t.occurrences, x.reservation).Some?
    && var r := OccurrenceById(t.occurrences, x.reservation).value;
       && ReservationResolved(r, t.jobs, t.archives)
       && DelegationValid(RetainedPlan(r, t.jobs, t.archives).value, t.triggers, t.schedules)
  }

  /** No reservation uses the claim's receipt, and its only job was cancelled before any approval. */
  ghost predicate Unissued(t: Tables, x: Trigger, id: Id) {
    && OccurrenceById(t.occurrences, x.reservation).None? && SourceJobs(t.jobs, x.context) == {id}
    && id in t.jobs && t.jobs[id].approval.None? && t.jobs[id].execution.None? && Resolved(t.jobs[id])
  }

  lemma OverCases(t: Tables, x: Trigger) returns (id: Id)
    requires ClaimResolved(t, x)
    ensures RefusalAccepted(t, x) || ReservationOver(t, x) || Unissued(t, x, id)
  {
    id := NIL;
    if OccurrenceById(t.occurrences, x.reservation).None? && SourceJob(t, x).Found? {
      var ids := SourceJobs(t.jobs, x.context);
      id :| id in ids && ids == {id};
    }
  }

  lemma UnissuedIsOver(t: Tables, x: Trigger, id: Id)
    requires x.schedule in t.schedules && Unissued(t, x, id)
    ensures ClaimResolved(t, x)
  {
    assert SourceJob(t, x) == Found(t.jobs[id]);
  }

  // ------------------------------------------------------------------ archived plans keep their lineage

  predicate ArchivesDelegated(t: Tables) {
    forall a | a in t.archives :: DelegationValid(a.terminal, t.triggers, t.schedules)
  }

  lemma FrameDelegated(t: Tables, schedules: map<Id, Schedule>)
    requires ArchivesDelegated(t) && SchedulesKept(t.schedules, schedules)
    ensures forall a | a in t.archives :: DelegationValid(a.terminal, t.triggers, schedules)
  {
    forall a | a in t.archives ensures DelegationValid(a.terminal, t.triggers, schedules) {
      DelegationFrame(a.terminal, t.triggers, t.schedules, schedules);
    }
  }

  lemma ClaimDelegated(t: Tables, t': Tables, x: Trigger)
    requires ArchivesDelegated(t) && ArchivesOk(t) && SchedulesKept(t.schedules, t'.schedules)
    requires t'.archives == t.archives && t'.triggers == t.triggers + [x] && Unused(t, x.context.request)
    ensures ArchivesDelegated(t')
  {
    FrameDelegated(t, t'.schedules);
    forall a | a in t.archives ensures DelegationValid(a.terminal, t'.triggers, t'.schedules) {
      assert ArchiveOk(a, t);
      if a.terminal.context.Some? {
        RequestFrame(t.triggers, x, a.terminal.context.value.request);
      }
    }
  }

  lemma ArchiveDelegated(t: Tables, t': Tables, a: Archive)
    requires ArchivesDelegated(t) && ArchiveAt(t, t', a) && JobsOk(t)
    ensures ArchivesDelegated(t')
  {
    assert JobOk(t.jobs[a.command.job], a.command.job, t);
  }

  lemma MoveDelegated(t: Tables, m: Move, t': Tables)
    requires ArchivesDelegated(t) && ArchivesOk(t) && Moves(t, m, t')
    requires SchedulesKept(t.schedules, t'.schedules) && JobsOk(t)
    ensures ArchivesDelegated(t')
  {
    match m
    case ClaimMove(_, x) => ClaimDelegated(t, t', x);
    case ArchiveMove(a) => ArchiveDelegated(t, t', a);
    case _ => FrameDelegated(t, t'.schedules);
  }

  lemma StepDelegated(t: Tables, e: Event)
    requires Inv(t) && ArchivesDelegated(t)
    ensures ArchivesDelegated(Apply(t, e))
  {
    var m := Classify(t, e);
    StepEvolves(t, e);
    assert SchedulesKept(t.schedules, Apply(t, e).schedules);
    MoveDelegated(t, m, Apply(t, e));
  }

  lemma {:induction false} RunDelegated(events: seq<Event>)
    ensures Inv(Run(EMPTY, events)) && ArchivesDelegated(Run(EMPTY, events))
  {
    EmptyInv();
    RunKeeps(EMPTY, events);
    if events != [] {
      RunDelegated(events[..|events| - 1]);
      StepDelegated(Run(EMPTY, events[..|events| - 1]), events[|events| - 1]);
    }
  }

  lemma RetainedDelegation(t: Tables, r: Reservation)
    requires JobsOk(t) && ArchivesDelegated(t) && RetainedPlan(r, t.jobs, t.archives).Some?
    ensures DelegationValid(RetainedPlan(r, t.jobs, t.archives).value, t.triggers, t.schedules)
  {
    if ArchiveOf(t.archives, r.Id()).None? {
      assert JobOk(t.jobs[r.command.job], r.command.job, t);
    }
  }

  lemma ReservationStaysOver(t: Tables, t': Tables, x: Trigger)
    requires Evolves(t, t') && JobsOk(t') && ArchivesDelegated(t') && ReservationOver(t, x)
    ensures ReservationOver(t', x)
  {
    var r := OccurrenceById(t.occurrences, x.reservation).value;
    FindPrefix(t.occurrences, t'.occurrences, IsReservation(x.reservation));
    assert ReservationResolved(r, t'.jobs, t'.archives);
    RetainedDelegation(t', r);
  }

  // ------------------------------------------------------------------ what opens a claim again

  /** A new reservation takes the claim's receipt, or a second job joins the claim's cancelled one. */
  predicate MoveReopens(t: Tables, m: Move, x: Trigger) {
    && !RefusalAccepted(t, x)
    && (|| (m.ReserveMove? && m.r.Id() == x.reservation)
        || (m.JobMove? && m.plan.id !in t.jobs && m.plan.context == Some(x.context)
            && OccurrenceById(t.occurrences, x.reservation).None?))
  }

  lemma SourceFrame(jobs: map<Id, Plan>, id: Id, plan: Plan, context: Context)
    requires id in jobs && jobs[id].context == plan.context
    ensures SourceJobs(jobs[id := plan], context) == SourceJobs(jobs, context)
  {
  }

  lemma ReserveUnissued(t: Tables, t': Tables, r: Reservation, x: Trigger, id: Id)
    requires r.command.job in t.jobs && t.jobs[r.command.job].status == AwaitingApproval
    requires r.snapshot.context == t.jobs[r.command.job].context
    requires t'.jobs == t.jobs[r.command.job := r.snapshot] && t'.occurrences == t.occurrences + [r]
    requires Unissued(t, x, id) && r.Id() != x.reservation
    ensures Unissued(t', x, id)
  {
    FindAppend(t.occurrences, r, IsReservation(x.reservation));
    SourceFrame(t.jobs, r.command.job, r.snapshot, x.context);
  }

  lemma JobUnissued(t: Tables, t': Tables, plan: Plan, x: Trigger, id: Id)
    requires JobAt(t, t', plan) && Unissued(t, x, id) && (plan.id in t.jobs || plan.context != Some(x.context))
    ensures Unissued(t', x, id)
  {
    assert id in SourceJobs(t.jobs, x.context);
    assert SourceJobs(t'.jobs, x.context) == SourceJobs(t.jobs, x.context);
  }

  lemma DropUnissued(t: Tables, t': Tables, job: Id, x: Trigger, id: Id)
    requires DropAt(t, t', job) && x in t.triggers && Unissued(t, x, id)
    ensures Unissued(t', x, id)
  {
    assert id in SourceJobs(t.jobs, x.context);
    assert SourceJobs(t'.jobs, x.context) == SourceJobs(t.jobs, x.context);
  }

  lemma ArchivedApproved(t: Tables, a: Archive)
    requires ArchivesOk(t) && a in t.archives
    ensures a.terminal.approval.Some?
  {
    assert ArchiveOk(a, t);
  }

  lemma ArchiveUnissued(t: Tables, t': Tables, a: Archive, x: Trigger, id: Id)
    requires a.command.job in t.jobs && t.jobs[a.command.job].approval.Some?
    requires t'.jobs == t.jobs - {a.command.job} && t'.occurrences == t.occurrences && Unissued(t, x, id)
    ensures Unissued(t', x, id)
  {
    assert id in SourceJobs(t.jobs, x.context) && a.command.job != id;
    assert SourceJobs(t'.jobs, x.context) == SourceJobs(t.jobs, x.context);
  }

  lemma UnissuedStays(t: Tables, m: Move, t': Tables, x: Trigger, id: Id)
    requires ArchivesOk(t') && Moves(t, m, t') && x in t.triggers
    requires Unissued(t, x, id) && !RefusalAccepted(t, x) && !MoveReopens(t, m, x)
    ensures Unissued(t', x, id)
  {
    match m
    case ReserveMove(r) => ReserveUnissued(t, t', r, x, id);
    case JobMove(plan) => JobUnissued(t, t', plan, x, id);
    case DropMove(job) => DropUnissued(t, t', job, x, id);
    case ArchiveMove(a) =>
      ArchivedApproved(t', a);
      ArchiveUnissued(t, t', a, x, id);
    case _ => assert t'.jobs == t.jobs && t'.occurrences == t.occurrences;
  }

  lemma AcceptedStays(t: Tables, t': Tables, x: Trigger)
    requires Evolves(t, t') && RefusalAccepted(t, x)
    ensures ClaimResolved(t', x)
  {
    assert ScheduleEvolves(t.schedules[x.schedule], t'.schedules[x.schedule]);
  }

  lemma OverIsResolved(t: Tables, x: Trigger)
    requires x.schedule in t.schedules && ReservationOver(t, x)
    ensures ClaimResolved(t, x)
  {
  }

  /** What stays over. */
  lemma ClaimStays(t: Tables, m: Move, t': Tables, x: Trigger)
    requires Moves(t, m, t') && Evolves(t, t') && ArchivesOk(t') && JobsOk(t') && ArchivesDelegated(t')
    requires x in t.triggers && ClaimResolved(t, x) && !MoveReopens(t, m, x)
    ensures ClaimResolved(t', x)
  {
    assert x.schedule in t'.schedules;
    var id := OverCases(t, x);
    if RefusalAccepted(t, x) {
      AcceptedStays(t, t', x);
    } else if ReservationOver(t, x) {
      ReservationStaysOver(t, t', x);
      OverIsResolved(t', x);
    } else {
      UnissuedStays(t, m, t', x, id);
      UnissuedIsOver(t', x, id);
    }
  }

  lemma FreshlyRetained(t: Tables, t': Tables, r: Reservation)
    requires ArchivesOk(t) && ReserveAt(t, t', r)
    ensures OccurrenceById(t'.occurrences, r.Id()) == Some(r)
    ensures !ReservationResolved(r, t'.jobs, t'.archives)
  {
    FindAppend(t.occurrences, r, IsReservation(r.Id()));
    FreshReceipt(t, r.Id());
    assert r in t'.occurrences && OccurrenceOk(r, t');
    assert t'.jobs[r.command.job] == r.snapshot;
  }

  /** A receipt taken for a new reservation makes its claim wait for that reservation. */
  lemma ReserveReopens(t: Tables, t': Tables, r: Reservation, x: Trigger)
    requires ArchivesOk(t) && ReserveAt(t, t', r) && r.Id() == x.reservation && !RefusalAccepted(t, x)
    ensures !ClaimResolved(t', x)
  {
    FreshlyRetained(t, t', r);
  }

  /** A second job makes the claim's source ambiguous. */
  lemma InsertReopens(t: Tables, t': Tables, plan: Plan, x: Trigger, id: Id)
    requires JobAt(t, t', plan) && plan.id !in t.jobs && plan.context == Some(x.context)
    requires Unissued(t, x, id) && !RefusalAccepted(t, x)
    ensures !ClaimResolved(t', x) && SourceJob(t', x).Ambiguous?
  {
    assert id in SourceJobs(t.jobs, x.context);
    assert SourceJobs(t'.jobs, x.context) == {id, plan.id};
  }

  lemma MoveReopening(t: Tables, m: Move, t': Tables, x: Trigger)
    requires Moves(t, m, t') && ArchivesOk(t) && ClaimResolved(t, x) && MoveReopens(t, m, x)
    ensures !ClaimResolved(t', x)
  {
    var id := OverCases(t, x);
    if m.ReserveMove? {
      ReserveReopens(t, t', m.r, x);
    } else {
      InsertReopens(t, t', m.plan, x, id);
    }
  }

  /** A reservation that its guard lets commit takes the claim's receipt. */
  predicate TakesReceipt(t: Tables, e: Event, x: Trigger) {
    && e.ReserveEvent? && e.reserve.operation == x.reservation
    && ReserveGuard(t, e.reserve, e.runtime, e.issuer, e.now, e.commit, e.room)
  }

  /** A direct insertion that its guard lets commit adds a job to a claim closed by its cancelled job. */
  predicate JoinsRequest(t: Tables, e: Event, x: Trigger) {
    && e.InsertEvent? && e.plan.context == Some(x.context) && OccurrenceById(t.occurrences, x.reservation).None?
    && InsertGuard(t, e.plan, e.now, e.room)
  }

  /** The two checkpoints that can open a resolved claim again.  Neither can where an owner accepted the
      claim's refusal. */
  predicate Reopens(t: Tables, e: Event, x: Trigger) {
    !RefusalAccepted(t, x) && (TakesReceipt(t, e, x) || JoinsRequest(t, e, x))
  }

  /** A reservation changes the ledger exactly when its guard holds, and so does an insertion. */
  lemma ReserveChanges(t: Tables, e: Event)
    requires HistoryOk(t) && RetainedOk(t) && JobsOk(t) && e.ReserveEvent?
    ensures Apply(t, e) != t <==> ReserveGuard(t, e.reserve, e.runtime, e.issuer, e.now, e.commit, e.room)
  {
    ReserveApplies(t, e);
    if OccurrenceById(t.occurrences, e.reserve.operation).None? {
      ReserveExact(t, e.reserve, e.runtime, e.issuer, e.now, e.commit, e.stamped, e.sha, e.room);
    } else {
      ReserveAgain(t, e.reserve, e.runtime, e.issuer, e.now, e.commit, e.stamped, e.sha, e.room);
    }
  }

  lemma InsertChanges(t: Tables, e: Event)
    requires e.InsertEvent?
    ensures Apply(t, e) != t <==> InsertGuard(t, e.plan, e.now, e.room)
  {
    InsertApplies(t, e);
    InsertExact(t, e.plan, e.now, e.room);
  }

  /** An admission finds the claim's job and inserts nothing. */
  lemma AdmissionFindsIt(t: Tables, m: Move, x: Trigger)
    requires ClaimResolved(t, x) && MoveReopens(t, m, x) && m.JobMove?
    ensures SameRequestJobs(t.jobs, x.context) != {}
  {
    var id := OverCases(t, x);
    assert id in SourceJobs(t.jobs, x.context);
    assert id in SameRequestJobs(t.jobs, x.context);
  }

  lemma MoveChanges(t: Tables, m: Move, t': Tables)
    requires Moves(t, m, t') && (m.ReserveMove? || (m.JobMove? && m.plan.id !in t.jobs))
    ensures t' != t
  {
    if m.ReserveMove? {
      assert |t'.occurrences| == |t.occurrences| + 1;
    } else {
      assert m.plan.id in t'.jobs;
    }
  }

  lemma ReceiptByMove(t: Tables, e: Event, m: Move, x: Trigger)
    requires HistoryOk(t) && RetainedOk(t) && JobsOk(t) && e.ReserveEvent? && Moves(t, m, Apply(t, e)) && Caused(t, e, m)
    ensures m.ReserveMove? && m.r.Id() == x.reservation <==> TakesReceipt(t, e, x)
  {
    ReserveChanges(t, e);
    if m.ReserveMove? {
      MoveChanges(t, m, Apply(t, e));
    }
  }

  lemma RequestByMove(t: Tables, e: Event, m: Move, x: Trigger)
    requires e.InsertEvent? && Moves(t, m, Apply(t, e)) && Caused(t, e, m)
    ensures m.JobMove? && m.plan.id !in t.jobs && m.plan.context == Some(x.context) && OccurrenceById(t.occurrences, x.reservation).None?
            <==> JoinsRequest(t, e, x)
  {
    InsertChanges(t, e);
    if m.JobMove? {
      MoveChanges(t, m, Apply(t, e));
    }
  }

  lemma OthersReopenNone(t: Tables, e: Event, m: Move, x: Trigger)
    requires Caused(t, e, m) && !e.ReserveEvent? && !e.InsertEvent? && ClaimResolved(t, x)
    ensures !MoveReopens(t, m, x) && !Reopens(t, e, x)
  {
    if MoveReopens(t, m, x) {
      AdmissionFindsIt(t, m, x);
    }
  }

  lemma CasesReopen(t: Tables, e: Event, m: Move, x: Trigger)
    requires (e.ReserveEvent? && (m.Idle? || m.ReserveMove?)) || (e.InsertEvent? && (m.Idle? || m.JobMove?))
    requires e.ReserveEvent? ==> (m.ReserveMove? && m.r.Id() == x.reservation <==> TakesReceipt(t, e, x))
    requires e.InsertEvent? ==>
               (m.JobMove? && m.plan.id !in t.jobs && m.plan.context == Some(x.context) && OccurrenceById(t.occurrences, x.reservation).None?
                <==> JoinsRequest(t, e, x))
    ensures MoveReopens(t, m, x) <==> Reopens(t, e, x)
  {
  }

  lemma ReservesByMove(t: Tables, e: Event, m: Move, x: Trigger)
    requires HistoryOk(t) && RetainedOk(t) && JobsOk(t) && Moves(t, m, Apply(t, e)) && Caused(t, e, m) && e.ReserveEvent?
    ensures MoveReopens(t, m, x) <==> Reopens(t, e, x)
  {
    ReceiptByMove(t, e, m, x);
    CasesReopen(t, e, m, x);
  }

  lemma InsertsByMove(t: Tables, e: Event, m: Move, x: Trigger)
    requires Moves(t, m, Apply(t, e)) && Caused(t, e, m) && e.InsertEvent?
    ensures MoveReopens(t, m, x) <==> Reopens(t, e, x)
  {
    RequestByMove(t, e, m, x);
    CasesReopen(t, e, m, x);
  }

  lemma ReopensByMove(t: Tables, e: Event, m: Move, x: Trigger)
    requires HistoryOk(t) && RetainedOk(t) && JobsOk(t) && Moves(t, m, Apply(t, e)) && Caused(t, e, m) && ClaimResolved(t, x)
    ensures MoveReopens(t, m, x) <==> Reopens(t, e, x)
  {
    if e.ReserveEvent? {
      ReservesByMove(t, e, m, x);
    } else if e.InsertEvent? {
      InsertsByMove(t, e, m, x);
    } else {
      OthersReopenNone(t, e, m, x);
    }
  }

  /** Over all twenty checkpoints, in every reachable state: a resolved claim is open afterwards if and only
      if the checkpoint is one of those two. */
  lemma StepReopens(t: Tables, e: Event, x: Trigger)
    requires Reachable(t) && x in t.triggers && ClaimResolved(t, x)
    ensures !ClaimResolved(Apply(t, e), x) <==> Reopens(t, e, x)
  {
    var events :| t == Run(EMPTY, events);
    RunDelegated(events);
    StepReopening(t, e, x);
  }

  lemma StepStays(t: Tables, e: Event, m: Move, x: Trigger)
    requires Inv(t) && ArchivesDelegated(t) && Moves(t, m, Apply(t, e))
    requires x in t.triggers && ClaimResolved(t, x) && !MoveReopens(t, m, x)
    ensures ClaimResolved(Apply(t, e), x)
  {
    StepKeeps(t, e);
    StepEvolves(t, e);
    StepDelegated(t, e);
    ClaimStays(t, m, Apply(t, e), x);
  }

  lemma StepReopening(t: Tables, e: Event, x: Trigger)
    requires Inv(t) && ArchivesDelegated(t) && x in t.triggers && ClaimResolved(t, x)
    ensures !ClaimResolved(Apply(t, e), x) <==> Reopens(t, e, x)
  {
    var m := Classify(t, e);
    ReopensByMove(t, e, m, x);
    if MoveReopens(t, m, x) {
      MoveReopening(t, m, Apply(t, e), x);
    } else {
      StepStays(t, e, m, x);
    }
  }

  /** No step of a run opens this claim again. */
  ghost predicate LeavesClosed(t: Tables, events: seq<Event>, x: Trigger) {
    events != [] ==>
      && LeavesClosed(t, events[..|events| - 1], x)
      && !Reopens(Run(t, events[..|events| - 1]), events[|events| - 1], x)
  }

  /** A resolved claim stays resolved, archiving included, through every later run without such a step. */
  lemma {:induction false} ResolvedForever(t: Tables, events: seq<Event>, x: Trigger)
    requires Reachable(t) && x in t.triggers && ClaimResolved(t, x) && LeavesClosed(t, events, x)
    ensures Reachable(Run(t, events)) && x in Run(t, events).triggers && ClaimResolved(Run(t, events), x)
  {
    ReachableRun(t, events);
    if events != [] {
      ResolvedForever(t, events[..|events| - 1], x);
      ReachableInv(Run(t, events[..|events| - 1]));
      StepEvolves(Run(t, events[..|events| - 1]), events[|events| - 1]);
      StepReopens(Run(t, events[..|events| - 1]), events[|events| - 1], x);
    }
  }
}
