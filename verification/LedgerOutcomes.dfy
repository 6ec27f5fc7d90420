/**
 Exactly when the receipt-bearing checkpoints commit: reservations, archives, arming and resolving a refusal.
 What they stage is checked again as a whole, and in a reachable ledger that check fails only for the
 reasons that the guards below name.
 */
module LedgerOutcomes {
  import opened Prelude
  import opened Records
  import opened Ledger
  import opened LedgerInvariant
  import opened LedgerSteps
  import opened LedgerRuns
  import opened LedgerTheorems
  import opened LedgerLaunch
  import opened LedgerDue

  // ------------------------------------------------------------------ reservations

  /** The receipt that the refused, last claim of some schedule was given. */
  predicate RefusedReceipt(t: Tables, receipt: Id) {
    exists id | id in t.schedules ::
      && t.schedules[id].refusal.Some? && LastClaim(t.triggers, t.schedules[id]).Some?
      && LastClaim(t.triggers, t.schedules[id]).value.reservation == receipt
  }

  /** The command is well formed, its receipt is new, and everything it names is retained. */
  predicate Named(t: Tables, c: Reserve, runtime: Id) {
    && ValidReserve(c) && runtime != NIL && OccurrenceById(t.occurrences, c.operation).None?
    && c.policy in t.policies && c.job in t.jobs && t.policies[c.policy].creation.definition in t.definitions
  }

  /** At commit authority still holds, with time for the whole run. */
  predicate Timely(p: Policy, now: nat, commit: nat) {
    now <= commit < p.expiresAt && AllowanceMs(p) <= p.expiresAt - commit
  }

  /** Everything a new reservation needs.  Of all claims it asks only about the one of its own job's request,
      and that no refused claim was given its receipt. */
  predicate ReserveGuard(t: Tables, c: Reserve, runtime: Id, issuer: int, now: nat, commit: nat, room: bool) {
    && Named(t, c, runtime)
    && Reservable(t, c, t.policies[c.policy], t.definitions[t.policies[c.policy].creation.definition], t.jobs[c.job], runtime, issuer, now)
    && !RefusedReceipt(t, c.operation) && room && Timely(t.policies[c.policy], now, commit)
  }

  lemma LinkIds(t: Tables, plan: Plan, p: Policy, reservation: Id, now: nat)
    requires TriggersOk(t.triggers, t.schedules, t.policies)
    requires p.id in t.policies && t.policies[p.id] == p
    requires ReservationLink(t, plan, p, reservation, now).Some? && ReservationLink(t, plan, p, reservation, now).value.Some?
    ensures var link := ReservationLink(t, plan, p, reservation, now).value.value;
            && link.schedule != NIL && link.trigger != NIL && link.schedule != link.trigger
            && link.schedule != p.id && link.trigger != reservation
  {
    var x := TriggerByRequest(t.triggers, plan.context.value.request).value;
    assert TriggerOk(x, t.schedules, t.policies);
  }

  lemma SnapshotHolds(t: Tables, c: Reserve, p: Policy, d: Definition, plan: Plan, runtime: Id, issuer: int, now: nat, stamped: nat, sha: int)
    requires ReservationLink(t, plan, p, c.operation, now).Some? && plan.id == c.job
    requires plan.revision == c.revision && plan.execution.None? && plan.planning.Some? && plan.planning.value.sha == c.planSha
    ensures ValidSnapshot(NewRun(t, c, p, plan, runtime, issuer, now, stamped, sha))
  {
  }

  lemma DelegationHolds(t: Tables, c: Reserve, p: Policy, plan: Plan, runtime: Id, issuer: int, now: nat, stamped: nat, sha: int)
    requires TriggersOk(t.triggers, t.schedules, t.policies) && p.id in t.policies && t.policies[p.id] == p && p.id == c.policy
    requires ValidReserve(c) && ValidPolicy(p) && runtime != NIL && ReservationLink(t, plan, p, c.operation, now).Some?
    ensures ValidDelegationIds(NewRun(t, c, p, plan, runtime, issuer, now, stamped, sha).delegation)
  {
    if ReservationLink(t, plan, p, c.operation, now).value.Some? {
      LinkIds(t, plan, p, c.operation, now);
    }
  }

  lemma NewRunValid(t: Tables, c: Reserve, p: Policy, d: Definition, plan: Plan, runtime: Id, issuer: int, now: nat, stamped: nat, sha: int)
    requires TriggersOk(t.triggers, t.schedules, t.policies) && p.id in t.policies && t.policies[p.id] == p && p.id == c.policy
    requires ValidReserve(c) && runtime != NIL && plan.id == c.job
    requires Reservable(t, c, p, d, plan, runtime, issuer, now)
    ensures ValidReservation(NewRun(t, c, p, plan, runtime, issuer, now, stamped, sha), p, d)
  {
    SnapshotHolds(t, c, p, d, plan, runtime, issuer, now, stamped, sha);
    DelegationHolds(t, c, p, plan, runtime, issuer, now, stamped, sha);
  }

  lemma NewRunDelegates(t: Tables, c: Reserve, p: Policy, plan: Plan, runtime: Id, issuer: int, now: nat, stamped: nat, sha: int)
    requires SchedulesOk(t.schedules, t.policies, t.definitions) && p.id == c.policy && p.runtime == runtime && plan.execution.None?
    requires ReservationLink(t, plan, p, c.operation, now).Some?
    ensures DelegationValid(NewRun(t, c, p, plan, runtime, issuer, now, stamped, sha).snapshot, t.triggers, t.schedules)
  {
    if plan.context.Some? && TriggerByRequest(t.triggers, plan.context.value.request).Some? {
      var x := TriggerByRequest(t.triggers, plan.context.value.request).value;
      assert ScheduleOk(t.schedules[x.schedule], x.schedule, t.policies, t.definitions);
    }
  }

  /** The tables with a reservation and its approved job. */
  function WithRun(t: Tables, r: Reservation): Tables {
    t.(jobs := t.jobs[r.command.job := r.snapshot], occurrences := t.occurrences + [r])
  }

  lemma RunJobOk(t: Tables, r: Reservation)
    requires r.command.job in t.jobs && JobOk(t.jobs[r.command.job], r.command.job, t) && r.snapshot.id == r.command.job
    requires OccurrenceByJob(t.occurrences, r.command.job).None?
    requires DelegationValid(r.snapshot, t.triggers, t.schedules)
    requires FixedScope(r.snapshot).Some?
    ensures JobOk(r.snapshot, r.command.job, WithRun(t, r))
  {
    FindAppend(t.occurrences, r, ReservesJob(r.command.job));
  }

  lemma RunRequested(t: Tables, r: Reservation, request: Id)
    requires r.command.job in t.jobs && r.snapshot.context == t.jobs[r.command.job].context
    ensures Requested(WithRun(t, r).jobs, request) <==> Requested(t.jobs, request)
  {
    var jobs := WithRun(t, r).jobs;
    assert forall id | id in t.jobs :: id in jobs && jobs[id].context == t.jobs[id].context;
  }

  lemma RunRefusals(t: Tables, r: Reservation)
    requires RefusalsOk(t.schedules, t.triggers, t.occurrences, t.jobs)
    requires r.command.job in t.jobs && r.snapshot.context == t.jobs[r.command.job].context
    ensures RefusalsOk(t.schedules, t.triggers, WithRun(t, r).occurrences, WithRun(t, r).jobs) <==> !RefusedReceipt(t, r.Id())
  {
    var t' := WithRun(t, r);
    if !RefusedReceipt(t, r.Id()) {
      forall id | id in t.schedules ensures RefusalMatches(t.schedules[id], t.triggers, t'.occurrences, t'.jobs) {
        RunRefusal(t, r, id);
      }
    } else {
      var id :| id in t.schedules && t.schedules[id].refusal.Some? && LastClaim(t.triggers, t.schedules[id]).Some?
                && LastClaim(t.triggers, t.schedules[id]).value.reservation == r.Id();
      assert r in t'.occurrences;
      assert !RefusalMatches(t.schedules[id], t.triggers, t'.occurrences, t'.jobs);
    }
  }

  lemma RunRefusal(t: Tables, r: Reservation, id: Id)
    requires id in t.schedules && RefusalMatches(t.schedules[id], t.triggers, t.occurrences, t.jobs)
    requires r.command.job in t.jobs && r.snapshot.context == t.jobs[r.command.job].context && !RefusedReceipt(t, r.Id())
    ensures RefusalMatches(t.schedules[id], t.triggers, WithRun(t, r).occurrences, WithRun(t, r).jobs)
  {
    if t.schedules[id].refusal.Some? {
      var x := LastClaim(t.triggers, t.schedules[id]).value;
      FindAppend(t.occurrences, r, IsReservation(x.reservation));
      RunRequested(t, r, x.context.request);
    }
  }

  lemma RunHistory(t: Tables, r: Reservation)
    requires HistoryOk(t) && r.command.job in t.jobs && r.snapshot.context == t.jobs[r.command.job].context
    ensures HistoryOk(WithRun(t, r)) <==> !RefusedReceipt(t, r.Id())
  {
    RunRefusals(t, r);
  }

  lemma RunGroup(occurrences: seq<Reservation>, r: Reservation, p: Policy)
    requires GroupOk(occurrences, p)
    requires r.delegation.policy == p.id ==>
               && AllowanceAvailable(occurrences, p) && r.ordinal == Runs(occurrences, p.id) + 1
               && 1 <= r.executionMs == AllowanceMs(p) && 1 <= r.resultBytes == AllowanceBytes(p)
    ensures GroupOk(occurrences + [r], p)
  {
    CountAppend(occurrences, r, OfPolicy(p.id));
    SumAppend(occurrences, r, MsOf(p.id));
    SumAppend(occurrences, r, BytesOf(p.id));
  }

  lemma NewRunDistinct(occurrences: seq<Reservation>, r: Reservation)
    requires forall i, j | 0 <= i < j < |occurrences| :: !SameRun(occurrences[i], occurrences[j])
    requires forall k | k in occurrences && k.delegation.policy == r.delegation.policy :: k.ordinal < r.ordinal
    ensures forall i, j | 0 <= i < j < |occurrences + [r]| :: !SameRun((occurrences + [r])[i], (occurrences + [r])[j])
  {
    forall i, j | 0 <= i < j < |occurrences + [r]| ensures !SameRun((occurrences + [r])[i], (occurrences + [r])[j]) {
      assert (occurrences + [r])[i] == occurrences[i] && occurrences[i] in occurrences;
    }
  }

  lemma RunBudgets(t: Tables, r: Reservation, p: Policy)
    requires BudgetsOk(t.occurrences, t.policies) && PoliciesOk(t.policies, t.definitions)
    requires p.id in t.policies && t.policies[p.id] == p && r.delegation.policy == p.id && AllowanceAvailable(t.occurrences, p)
    requires r.ordinal == Runs(t.occurrences, p.id) + 1
    requires 1 <= r.executionMs == AllowanceMs(p) && 1 <= r.resultBytes == AllowanceBytes(p)
    ensures BudgetsOk(t.occurrences + [r], t.policies)
  {
    assert GroupOk(t.occurrences, p);
    NewRunDistinct(t.occurrences, r);
    forall id | id in t.policies ensures GroupOk(t.occurrences + [r], t.policies[id]) {
      assert PolicyOk(t.policies[id], id, t.definitions);
      RunGroup(t.occurrences, r, t.policies[id]);
    }
  }

  lemma FreshReceipt(t: Tables, receipt: Id)
    requires ArchivesOk(t) && OccurrenceById(t.occurrences, receipt).None?
    ensures ArchiveOf(t.archives, receipt).None?
  {
    assert forall a | a in t.archives :: ArchiveOk(a, t);
  }

  lemma KeptOccurrence(t: Tables, t': Tables, r: Reservation)
    requires OccurrenceOk(r, t) && t'.policies == t.policies && t'.definitions == t.definitions
    requires t'.triggers == t.triggers && t'.schedules == t.schedules
    ensures OccurrenceOk(r, t')
  {
  }

  lemma RunArchives(t: Tables, r: Reservation)
    requires ArchivesOk(t) && r.command.job in t.jobs
    ensures ArchivesOk(WithRun(t, r))
  {
    var t' := WithRun(t, r);
    forall a | a in t'.archives ensures ArchiveOk(a, t') {
      assert ArchiveOk(a, t);
      FindAppend(t.occurrences, r, IsReservation(a.command.reservation));
      KeptOccurrence(t, t', OccurrenceById(t.occurrences, a.command.reservation).value);
    }
  }

  lemma OldRetained(t: Tables, r: Reservation, k: Reservation)
    requires RetainedPlan(k, t.jobs, t.archives).Some? && k.command.job != r.command.job
    ensures RetainedPlan(k, WithRun(t, r).jobs, WithRun(t, r).archives).Some?
  {
  }

  lemma NewRetained(t: Tables, r: Reservation)
    requires ArchiveOf(t.archives, r.Id()).None? && LiveMatches(r, r.snapshot)
    ensures RetainedPlan(r, WithRun(t, r).jobs, WithRun(t, r).archives).Some?
  {
  }

  lemma RunRetained(t: Tables, r: Reservation)
    requires RetainedOk(t) && BudgetsOk(WithRun(t, r).occurrences, t.policies) && r.command.job in t.jobs
    requires OccurrenceById(t.occurrences, r.Id()).None? && OccurrenceByJob(t.occurrences, r.command.job).None?
    requires OccurrenceOk(r, t) && LiveMatches(r, r.snapshot)
    ensures RetainedOk(WithRun(t, r))
  {
    RunArchives(t, r);
    FreshReceipt(t, r.Id());
    NewRetained(t, r);
    KeptOccurrence(t, WithRun(t, r), r);
    forall k | k in t.occurrences
      ensures OccurrenceOk(k, WithRun(t, r)) && RetainedPlan(k, WithRun(t, r).jobs, WithRun(t, r).archives).Some?
    {
      KeptOccurrence(t, WithRun(t, r), k);
      OldRetained(t, r, k);
    }
  }

  lemma AllowancesPositive(p: Policy)
    requires ValidPolicy(p)
    ensures AllowanceMs(p) >= 1 && AllowanceBytes(p) >= 1
  {
    ProductPositive(p.scope.operations, p.creation.limits.executionMs);
    ProductPositive(p.scope.operations, p.creation.limits.resultBytes);
  }

  /** What a reservation stages, once it may be staged at all, fails its re-check only for a refused receipt. */
  lemma StagedRun(t: Tables, c: Reserve, p: Policy, d: Definition, plan: Plan, runtime: Id, issuer: int, now: nat, stamped: nat, sha: int)
    requires HistoryOk(t) && RetainedOk(t) && c.job in t.jobs && plan == t.jobs[c.job] && JobOk(plan, c.job, t)
    requires c.policy in t.policies && p == t.policies[c.policy] && PolicyOk(p, c.policy, t.definitions)
    requires d == t.definitions[p.creation.definition]
    requires ValidReserve(c) && runtime != NIL && OccurrenceById(t.occurrences, c.operation).None?
    requires Reservable(t, c, p, d, plan, runtime, issuer, now)
    ensures var r := NewRun(t, c, p, plan, runtime, issuer, now, stamped, sha);
            && OccurrenceOk(r, t) && JobOk(r.snapshot, c.job, WithRun(t, r)) && RetainedOk(WithRun(t, r))
            && (HistoryOk(WithRun(t, r)) <==> !RefusedReceipt(t, c.operation))
  {
    var r := NewRun(t, c, p, plan, runtime, issuer, now, stamped, sha);
    NewRunValid(t, c, p, d, plan, runtime, issuer, now, stamped, sha);
    NewRunDelegates(t, c, p, plan, runtime, issuer, now, stamped, sha);
    AllowancesPositive(p);
    RunJobOk(t, r);
    RunBudgets(t, r, p);
    RunRetained(t, r);
    RunHistory(t, r);
  }

  lemma CommitsWhen(t: Tables, r: Reservation, p: Policy, d: Definition, runtime: Id, issuer: int, commit: nat)
    requires JobOk(r.snapshot, r.command.job, t) && RetainedOk(t) && CurrentAt(p, d, t.policies, runtime, issuer, r.reservedAt)
    ensures RunCommits(t, r, p, d, runtime, issuer, commit) <==> HistoryOk(t) && Timely(p, r.reservedAt, commit)
  {
  }

  lemma StageDecides(t: Tables, c: Reserve, p: Policy, d: Definition, plan: Plan, r: Reservation,
                     runtime: Id, issuer: int, now: nat, commit: nat, stamped: nat, sha: int, room: bool)
    requires ReservationLink(t, plan, p, c.operation, now).Some? && r == NewRun(t, c, p, plan, runtime, issuer, now, stamped, sha)
    requires OccurrenceOk(r, t)
    ensures StageRun(t, c, p, d, plan, runtime, issuer, now, commit, stamped, sha, room)
            == if room && RunCommits(WithRun(t, r), r, p, d, runtime, issuer, commit) then Done(WithRun(t, r), (r, false)) else Refused
  {
  }

  lemma StageExact(t: Tables, c: Reserve, p: Policy, d: Definition, plan: Plan,
                   runtime: Id, issuer: int, now: nat, commit: nat, stamped: nat, sha: int, room: bool)
    requires HistoryOk(t) && RetainedOk(t) && c.job in t.jobs && plan == t.jobs[c.job] && JobOk(plan, c.job, t)
    requires c.policy in t.policies && p == t.policies[c.policy] && PolicyOk(p, c.policy, t.definitions)
    requires d == t.definitions[p.creation.definition]
    requires ValidReserve(c) && runtime != NIL && OccurrenceById(t.occurrences, c.operation).None?
    requires Reservable(t, c, p, d, plan, runtime, issuer, now)
    ensures var r := NewRun(t, c, p, plan, runtime, issuer, now, stamped, sha);
            StageRun(t, c, p, d, plan, runtime, issuer, now, commit, stamped, sha, room)
            == if !RefusedReceipt(t, c.operation) && room && Timely(p, now, commit)
               then Done(WithRun(t, r), (r, false)) else Refused
  {
    var r := NewRun(t, c, p, plan, runtime, issuer, now, stamped, sha);
    StagedRun(t, c, p, d, plan, runtime, issuer, now, stamped, sha);
    CommitsWhen(WithRun(t, r), r, p, d, runtime, issuer, commit);
    StageDecides(t, c, p, d, plan, r, runtime, issuer, now, commit, stamped, sha, room);
  }

  lemma ReserveGoesOn(t: Tables, c: Reserve, runtime: Id, issuer: int, now: nat, commit: nat, stamped: nat, sha: int, room: bool)
    requires OccurrencesOk(t) && Named(t, c, runtime) && JobOk(t.jobs[c.job], c.job, t)
    ensures var p := t.policies[c.policy];
            var d := t.definitions[p.creation.definition];
            ReserveRun(t, c, runtime, issuer, now, commit, stamped, sha, room)
            == if Reservable(t, c, p, d, t.jobs[c.job], runtime, issuer, now)
               then StageRun(t, c, p, d, t.jobs[c.job], runtime, issuer, now, commit, stamped, sha, room) else Refused
  {
  }

  lemma ReserveStops(t: Tables, c: Reserve, runtime: Id, issuer: int, now: nat, commit: nat, stamped: nat, sha: int, room: bool)
    requires OccurrenceById(t.occurrences, c.operation).None? && !Named(t, c, runtime)
    ensures ReserveRun(t, c, runtime, issuer, now, commit, stamped, sha, room) == Refused
  {
  }

  /** The reservation that a command makes. */
  function RunOf(t: Tables, c: Reserve, runtime: Id, issuer: int, now: nat, stamped: nat, sha: int): Reservation
    requires c.policy in t.policies && c.job in t.jobs
    requires ReservationLink(t, t.jobs[c.job], t.policies[c.policy], c.operation, now).Some?
  {
    NewRun(t, c, t.policies[c.policy], t.jobs[c.job], runtime, issuer, now, stamped, sha)
  }

  lemma NamedExact(t: Tables, c: Reserve, runtime: Id, issuer: int, now: nat, commit: nat, stamped: nat, sha: int, room: bool)
    requires HistoryOk(t) && RetainedOk(t) && Named(t, c, runtime) && JobOk(t.jobs[c.job], c.job, t)
    requires PolicyOk(t.policies[c.policy], c.policy, t.definitions)
    ensures ReserveRun(t, c, runtime, issuer, now, commit, stamped, sha, room)
            == if ReserveGuard(t, c, runtime, issuer, now, commit, room)
               then var r := RunOf(t, c, runtime, issuer, now, stamped, sha); Done(WithRun(t, r), (r, false))
               else Refused
  {
    var p := t.policies[c.policy];
    var d := t.definitions[p.creation.definition];
    ReserveGoesOn(t, c, runtime, issuer, now, commit, stamped, sha, room);
    if Reservable(t, c, p, d, t.jobs[c.job], runtime, issuer, now) {
      StageExact(t, c, p, d, t.jobs[c.job], runtime, issuer, now, commit, stamped, sha, room);
    }
  }

  lemma ReserveExact(t: Tables, c: Reserve, runtime: Id, issuer: int, now: nat, commit: nat, stamped: nat, sha: int, room: bool)
    requires HistoryOk(t) && RetainedOk(t) && JobsOk(t) && OccurrenceById(t.occurrences, c.operation).None?
    ensures ReserveRun(t, c, runtime, issuer, now, commit, stamped, sha, room)
            == if ReserveGuard(t, c, runtime, issuer, now, commit, room)
               then var r := RunOf(t, c, runtime, issuer, now, stamped, sha); Done(WithRun(t, r), (r, false))
               else Refused
  {
    if Named(t, c, runtime) {
      assert JobOk(t.jobs[c.job], c.job, t) && PolicyOk(t.policies[c.policy], c.policy, t.definitions);
      NamedExact(t, c, runtime, issuer, now, commit, stamped, sha, room);
    } else {
      ReserveStops(t, c, runtime, issuer, now, commit, stamped, sha, room);
    }
  }

  lemma ReserveAgain(t: Tables, c: Reserve, runtime: Id, issuer: int, now: nat, commit: nat, stamped: nat, sha: int, room: bool)
    requires OccurrencesOk(t) && OccurrenceById(t.occurrences, c.operation).Some?
    ensures var kept := OccurrenceById(t.occurrences, c.operation).value;
            ReserveRun(t, c, runtime, issuer, now, commit, stamped, sha, room)
            == if ValidReserve(c) && runtime != NIL && kept.command == c then Done(t, (kept, true)) else Refused
  {
  }

  /** In every reachable ledger a reservation under a new receipt commits if and only if its guard holds, and
      then leaves exactly the approved job and its reservation; a retained receipt returns its reservation to
      the same command and is refused to any other. */
  lemma ReserveOutcome(t: Tables, c: Reserve, runtime: Id, issuer: int, now: nat, commit: nat, stamped: nat, sha: int, room: bool)
    requires Reachable(t)
    ensures var kept := OccurrenceById(t.occurrences, c.operation);
            ReserveRun(t, c, runtime, issuer, now, commit, stamped, sha, room)
            == if kept.Some? then
                 if ValidReserve(c) && runtime != NIL && kept.value.command == c then Done(t, (kept.value, true)) else Refused
               else if ReserveGuard(t, c, runtime, issuer, now, commit, room) then
                 var r := RunOf(t, c, runtime, issuer, now, stamped, sha); Done(WithRun(t, r), (r, false))
               else Refused
  {
    ReachableInv(t);
    if OccurrenceById(t.occurrences, c.operation).None? {
      ReserveExact(t, c, runtime, issuer, now, commit, stamped, sha, room);
    } else {
      ReserveAgain(t, c, runtime, issuer, now, commit, stamped, sha, room);
    }
  }

  // ------------------------------------------------------------------ archives

  /** Everything an archive needs; its clock may not lie before the reservation or the last change of the job. */
  predicate ArchiveGuard(t: Tables, c: ArchiveCommand, runtime: Id, now: nat, commit: nat, room: bool) {
    && ValidArchiveCommand(c) && runtime != NIL && ArchiveById(t.archives, c.operation).None?
    && Archivable(t, c) && room && 0 < now <= commit
    && OccurrenceById(t.occurrences, c.reservation).value.reservedAt <= now && t.jobs[c.job].updatedAt <= now
  }

  /** The tables with terminal evidence in place of the live job. */
  function WithArchive(t: Tables, a: Archive): Tables {
    t.(jobs := t.jobs - {a.command.job}, archives := t.archives + [a])
  }

  lemma ArchivedLive(t: Tables, r: Reservation)
    requires ReceiptsDistinct(t.occurrences) && r in t.occurrences
    requires r.command.job in t.jobs && JobOk(t.jobs[r.command.job], r.command.job, t)
    ensures LiveMatches(r, t.jobs[r.command.job])
  {
    UniqueReceipt(t.occurrences, r, OccurrenceByJob(t.occurrences, r.command.job).value);
  }

  lemma NewArchiveOk(t: Tables, a: Archive, r: Reservation)
    requires RetainedOk(t) && ReceiptsDistinct(t.occurrences) && OccurrenceById(t.occurrences, a.command.reservation) == Some(r)
    requires ValidArchiveCommand(a.command) && a.runtime != NIL && Archivable(t, a.command) && a.terminal == t.jobs[a.command.job]
    ensures ArchiveOk(a, WithArchive(t, a)) <==> a.archivedAt != 0 && a.archivedAt >= r.reservedAt && a.archivedAt >= a.terminal.updatedAt
  {
    ArchivedLive(t, r);
    KeptOccurrence(t, WithArchive(t, a), r);
  }

  lemma OldArchivesOk(t: Tables, a: Archive)
    requires ArchivesOk(t)
    ensures forall k | k in t.archives :: ArchiveOk(k, WithArchive(t, a))
  {
    forall k | k in t.archives ensures ArchiveOk(k, WithArchive(t, a)) {
      assert ArchiveOk(k, t);
      KeptOccurrence(t, WithArchive(t, a), OccurrenceById(t.occurrences, k.command.reservation).value);
    }
  }

  lemma ArchivesDecide(t: Tables, a: Archive)
    requires ArchivesOk(t)
    ensures ArchivesOk(WithArchive(t, a)) <==> ArchiveOk(a, WithArchive(t, a))
  {
    OldArchivesOk(t, a);
    assert a in WithArchive(t, a).archives;
  }

  lemma ArchivePlan(t: Tables, a: Archive, r: Reservation)
    requires ReceiptsDistinct(t.occurrences) && r in t.occurrences && RetainedPlan(r, t.jobs, t.archives).Some?
    requires OccurrenceById(t.occurrences, a.command.reservation).Some?
    requires OccurrenceById(t.occurrences, a.command.reservation).value.command.job == a.command.job
    ensures RetainedPlan(r, WithArchive(t, a).jobs, WithArchive(t, a).archives).Some?
  {
    FindAppend(t.archives, a, Archives(r.Id()));
    if r.command.job == a.command.job {
      UniqueReceipt(t.occurrences, r, OccurrenceById(t.occurrences, a.command.reservation).value);
    }
  }

  lemma ArchiveRetains(t: Tables, a: Archive)
    requires RetainedOk(t) && ReceiptsDistinct(t.occurrences) && Archivable(t, a.command)
    ensures RetainedOk(WithArchive(t, a)) <==> ArchiveOk(a, WithArchive(t, a))
  {
    var t' := WithArchive(t, a);
    ArchivesDecide(t, a);
    forall r | r in t.occurrences ensures OccurrenceOk(r, t') && RetainedPlan(r, t'.jobs, t'.archives).Some? {
      KeptOccurrence(t, t', r);
      ArchivePlan(t, a, r);
    }
  }

  lemma ArchiveHistory(t: Tables, a: Archive)
    requires HistoryOk(t)
    ensures HistoryOk(WithArchive(t, a))
  {
    DropJobHistory(t, a.command.job);
  }

  lemma ArchiveStaged(t: Tables, c: ArchiveCommand, runtime: Id, now: nat)
    requires HistoryOk(t) && RetainedOk(t) && ReceiptsDistinct(t.occurrences)
    requires ValidArchiveCommand(c) && runtime != NIL && Archivable(t, c)
    ensures OccurrencesOk(WithArchive(t, Archive(c, runtime, now, t.jobs[c.job]))) <==>
            && now > 0 && OccurrenceById(t.occurrences, c.reservation).value.reservedAt <= now && t.jobs[c.job].updatedAt <= now
  {
    var a := Archive(c, runtime, now, t.jobs[c.job]);
    NewArchiveOk(t, a, OccurrenceById(t.occurrences, c.reservation).value);
    ArchiveRetains(t, a);
    ArchiveHistory(t, a);
  }

  lemma ArchiveSteps(t: Tables, c: ArchiveCommand, runtime: Id, now: nat, commit: nat, room: bool)
    requires OccurrencesOk(t) && ArchiveById(t.archives, c.operation).None?
    ensures ArchiveRun(t, c, runtime, now, commit, room)
            == if ValidArchiveCommand(c) && runtime != NIL && Archivable(t, c) then
                 var a := Archive(c, runtime, now, t.jobs[c.job]);
                 if room && OccurrencesOk(WithArchive(t, a)) && now <= commit then Done(WithArchive(t, a), (a, false)) else Refused
               else Refused
  {
  }

  lemma ArchiveExact(t: Tables, c: ArchiveCommand, runtime: Id, now: nat, commit: nat, room: bool)
    requires HistoryOk(t) && RetainedOk(t) && ReceiptsDistinct(t.occurrences) && ArchiveById(t.archives, c.operation).None?
    ensures ArchiveRun(t, c, runtime, now, commit, room)
            == if ArchiveGuard(t, c, runtime, now, commit, room)
               then var a := Archive(c, runtime, now, t.jobs[c.job]); Done(WithArchive(t, a), (a, false)) else Refused
  {
    ArchiveSteps(t, c, runtime, now, commit, room);
    if ValidArchiveCommand(c) && runtime != NIL && Archivable(t, c) {
      ArchiveStaged(t, c, runtime, now);
    }
  }

  lemma ArchiveAgain(t: Tables, c: ArchiveCommand, runtime: Id, now: nat, commit: nat, room: bool)
    requires OccurrencesOk(t) && ArchiveById(t.archives, c.operation).Some?
    ensures var kept := ArchiveById(t.archives, c.operation).value;
            ArchiveRun(t, c, runtime, now, commit, room)
            == if ValidArchiveCommand(c) && runtime != NIL && kept.command == c then Done(t, (kept, true)) else Refused
  {
  }

  /** In every reachable ledger an archive under a new receipt commits if and only if its guard holds: its
      re-check fails for a clock alone. */
  lemma ArchiveOutcome(t: Tables, c: ArchiveCommand, runtime: Id, now: nat, commit: nat, room: bool)
    requires Reachable(t)
    ensures var kept := ArchiveById(t.archives, c.operation);
            ArchiveRun(t, c, runtime, now, commit, room)
            == if kept.Some? then
                 if ValidArchiveCommand(c) && runtime != NIL && kept.value.command == c then Done(t, (kept.value, true)) else Refused
               else if ArchiveGuard(t, c, runtime, now, commit, room) then
                 var a := Archive(c, runtime, now, t.jobs[c.job]); Done(WithArchive(t, a), (a, false))
               else Refused
  {
    ReachableInv(t);
    if ArchiveById(t.archives, c.operation).None? {
      ArchiveExact(t, c, runtime, now, commit, room);
    } else {
      ArchiveAgain(t, c, runtime, now, commit, room);
    }
  }

  // ------------------------------------------------------------------ arming

  predicate ArmNamed(t: Tables, c: Arm, runtime: Id) {
    && c.operation != NIL && c.policy != NIL && runtime != NIL && c.operation != c.policy && c.operation != runtime
    && c.policy in t.policies && t.policies[c.policy].creation.definition in t.definitions
    && c.operation != t.policies[c.policy].creation.definition && c.policySha == t.policies[c.policy].sha
  }

  /** Everything a new schedule needs. */
  ghost predicate ArmGuard(t: Tables, c: Arm, runtime: Id, issuer: int, now: nat, commit: nat, room: bool) {
    && ArmNamed(t, c, runtime) && room
    && var p := t.policies[c.policy];
       var d := t.definitions[p.creation.definition];
       var due := now + d.creation.every;
       && due < U64_LIMIT && now <= commit && CurrentAt(p, d, t.policies, runtime, issuer, now) && commit < p.expiresAt
       && AllowanceMs(p) <= SaturatingSub(p.expiresAt, Max(due, commit)) && AllowanceAvailable(t.occurrences, p)
       && NoOverlap(t, d.id) && DefinitionResolved(t, d.id)
  }

  lemma ArmValid(t: Tables, c: Arm, p: Policy, d: Definition, runtime: Id, issuer: int, now: nat)
    requires c.policy in t.policies && p == t.policies[c.policy] && p.id == c.policy && PolicyFits(p, d)
    requires p.creation.definition in t.definitions && d == t.definitions[p.creation.definition]
    requires c.operation != NIL && runtime != NIL && c.operation != c.policy && c.policySha == p.sha
    requires CurrentAt(p, d, t.policies, runtime, issuer, now) && AllowanceMs(p) <= SaturatingSub(p.expiresAt, now + d.creation.every)
    ensures ScheduleOk(NewSchedule(c, p, d, runtime, issuer, now), c.operation, t.policies, t.definitions) <==>
            c.operation != d.id && c.operation != runtime
  {
    AllowancesPositive(p);
  }

  lemma NewCurrent(t: Tables, c: Arm, p: Policy, d: Definition, runtime: Id, issuer: int, now: nat, at: nat)
    requires c.policy in t.policies && p == t.policies[c.policy]
    requires p.creation.definition in t.definitions && d == t.definitions[p.creation.definition]
    ensures Current(NewSchedule(c, p, d, runtime, issuer, now), t.policies, t.definitions, runtime, issuer, at) <==>
            CurrentAt(p, d, t.policies, runtime, issuer, at)
  {
  }

  lemma ArmStageExact(t: Tables, c: Arm, p: Policy, d: Definition, runtime: Id, issuer: int, now: nat, commit: nat, room: bool)
    requires OccurrencesOk(t) && c.policy in t.policies && p == t.policies[c.policy] && p.id == c.policy && PolicyFits(p, d)
    requires p.creation.definition in t.definitions && d == t.definitions[p.creation.definition]
    requires c.operation != NIL && c.policy != NIL && runtime != NIL && c.operation != c.policy
    ensures var s := NewSchedule(c, p, d, runtime, issuer, now);
            ArmStage(t, c, p, d, runtime, issuer, now, commit, room)
            == if ArmGuard(t, c, runtime, issuer, now, commit, room)
               then Done(t.(schedules := t.schedules[c.operation := s]), (s, false)) else Refused
  {
    NewCurrent(t, c, p, d, runtime, issuer, now, now);
    NewCurrent(t, c, p, d, runtime, issuer, now, commit);
    if c.policySha == p.sha && CurrentAt(p, d, t.policies, runtime, issuer, now)
       && AllowanceMs(p) <= SaturatingSub(p.expiresAt, now + d.creation.every) {
      ArmValid(t, c, p, d, runtime, issuer, now);
    }
  }

  lemma ArmStarts(t: Tables, c: Arm, runtime: Id, issuer: int, now: nat, commit: nat, room: bool)
    requires HistoryOk(t) && c.operation !in t.schedules
    requires c.policy in t.policies && t.policies[c.policy].creation.definition in t.definitions
    ensures var p := t.policies[c.policy];
            ArmSchedule(t, c, runtime, issuer, now, commit, room)
            == if c.operation == NIL || c.policy == NIL || runtime == NIL || c.operation == c.policy then Refused
               else ArmStage(t, c, p, t.definitions[p.creation.definition], runtime, issuer, now, commit, room)
  {
  }

  lemma ArmExact(t: Tables, c: Arm, runtime: Id, issuer: int, now: nat, commit: nat, room: bool)
    requires HistoryOk(t) && RetainedOk(t) && c.operation !in t.schedules
    requires c.policy in t.policies ==> PolicyOk(t.policies[c.policy], c.policy, t.definitions)
    ensures ArmSchedule(t, c, runtime, issuer, now, commit, room)
            == if ArmGuard(t, c, runtime, issuer, now, commit, room) then
                 var p := t.policies[c.policy];
                 var s := NewSchedule(c, p, t.definitions[p.creation.definition], runtime, issuer, now);
                 Done(t.(schedules := t.schedules[c.operation := s]), (s, false))
               else Refused
  {
    if c.policy in t.policies {
      var p := t.policies[c.policy];
      ArmStarts(t, c, runtime, issuer, now, commit, room);
      if !(c.operation == NIL || c.policy == NIL || runtime == NIL || c.operation == c.policy) {
        ArmStageExact(t, c, p, t.definitions[p.creation.definition], runtime, issuer, now, commit, room);
      }
    }
  }

  lemma ArmAgain(t: Tables, c: Arm, runtime: Id, issuer: int, now: nat, commit: nat, room: bool)
    requires HistoryOk(t) && c.operation in t.schedules
    ensures ArmSchedule(t, c, runtime, issuer, now, commit, room)
            == if c.operation != NIL && c.policy != NIL && runtime != NIL && c.operation != c.policy && t.schedules[c.operation].creation == c
               then Done(t, (t.schedules[c.operation], true)) else Refused
  {
  }

  /** In every reachable ledger arming under a new receipt commits if and only if its guard holds. */
  lemma ArmOutcome(t: Tables, c: Arm, runtime: Id, issuer: int, now: nat, commit: nat, room: bool)
    requires Reachable(t)
    ensures ArmSchedule(t, c, runtime, issuer, now, commit, room)
            == if c.operation in t.schedules then
                 if c.operation != NIL && c.policy != NIL && runtime != NIL && c.operation != c.policy && t.schedules[c.operation].creation == c
                 then Done(t, (t.schedules[c.operation], true)) else Refused
               else if ArmGuard(t, c, runtime, issuer, now, commit, room) then
                 var p := t.policies[c.policy];
                 var s := NewSchedule(c, p, t.definitions[p.creation.definition], runtime, issuer, now);
                 Done(t.(schedules := t.schedules[c.operation := s]), (s, false))
               else Refused
  {
    ReachableInv(t);
    if c.operation in t.schedules {
      ArmAgain(t, c, runtime, issuer, now, commit, room);
    } else {
      assert c.policy in t.policies ==> PolicyOk(t.policies[c.policy], c.policy, t.definitions);
      ArmExact(t, c, runtime, issuer, now, commit, room);
    }
  }

  // ------------------------------------------------------------------ resolving a refusal

  /** Everything that resolving a recorded refusal needs. */
  predicate ResolveGuard(t: Tables, id: Id, revision: nat, trigger: Id, hash: int, operation: Id, now: nat) {
    && id in t.schedules && t.schedules[id].resolution.None? && t.schedules[id].refusal.Some?
    && t.schedules[id].refusal.value.trigger == trigger && t.schedules[id].refusal.value.sha == hash
    && t.schedules[id].revision == revision
    && operation != NIL && operation != id && operation != t.schedules[id].creation.policy && !TriggerOwns(t.triggers, operation)
    && Savable(t.schedules[id], now)
  }

  lemma ResolvedOk(t: Tables, id: Id, s: Schedule, operation: Id, now: nat)
    requires ScheduleOk(s, id, t.policies, t.definitions) && s.resolution.None? && s.refusal.Some?
    requires operation != NIL && operation != id && operation != s.refusal.value.trigger && now > 0 && s.revision < U64_LIMIT
    ensures ScheduleOk(ResolvedBy(s, operation, s.refusal.value.trigger, s.refusal.value.sha, now), id, t.policies, t.definitions)
  {
  }

  lemma ResolvedFits(t: Tables, s: Schedule, operation: Id, hash: int, now: nat)
    requires s.refusal.Some? && s.Id() in t.schedules && s == t.schedules[s.Id()]
    requires var s' := ResolvedBy(s, operation, s.refusal.value.trigger, hash, now); ScheduleOk(s', s.Id(), t.policies, t.definitions)
    requires ClaimsMatch(s, t.triggers) && RefusalMatches(s, t.triggers, t.occurrences, t.jobs) && Paced(s, t.triggers)
    ensures Fits(ResolvedBy(s, operation, s.refusal.value.trigger, hash, now), t)
  {
    var s' := ResolvedBy(s, operation, s.refusal.value.trigger, hash, now);
    assert LastClaim(t.triggers, s') == LastClaim(t.triggers, s);
    assert forall k: nat :: Pace(s', k) == Pace(s, k);
  }

  lemma RefusedOwned(t: Tables, s: Schedule, operation: Id)
    requires RefusalMatches(s, t.triggers, t.occurrences, t.jobs) && s.refusal.Some? && !TriggerOwns(t.triggers, operation)
    ensures operation != s.refusal.value.trigger
  {
    assert Owns(LastClaim(t.triggers, s).value, s.refusal.value.trigger);
  }

  /** The staged resolution passes the check that is run on it. */
  lemma ResolutionCommits(t: Tables, id: Id, revision: nat, trigger: Id, hash: int, operation: Id, now: nat)
    requires HistoryOk(t) && AllPaced(t.schedules, t.triggers) && ResolveGuard(t, id, revision, trigger, hash, operation, now)
    ensures var s' := ResolvedBy(t.schedules[id], operation, trigger, hash, now);
            && s'.Id() == id && Save(t, s').Done? && HistoryOk(t.(schedules := t.schedules[id := s']))
  {
    var s := t.schedules[id];
    assert ScheduleOk(s, id, t.policies, t.definitions) && ClaimsMatch(s, t.triggers) && Paced(s, t.triggers);
    assert RefusalMatches(s, t.triggers, t.occurrences, t.jobs);
    RefusedOwned(t, s, operation);
    ResolvedOk(t, id, s, operation, now);
    ResolvedFits(t, s, operation, hash, now);
    PutHistory(t, ResolvedBy(s, operation, trigger, hash, now));
  }

  /** Without the guard nothing can be saved. */
  lemma ResolutionRefused(t: Tables, id: Id, revision: nat, trigger: Id, hash: int, operation: Id, now: nat)
    requires id in t.schedules && t.schedules[id].resolution.None? && !ResolveGuard(t, id, revision, trigger, hash, operation, now)
    requires ScheduleOk(t.schedules[id], id, t.policies, t.definitions)
    ensures ResolveRefusal(t, id, revision, trigger, hash, operation, now) == Refused
  {
    if !Savable(t.schedules[id], now) {
      UnsavableSaves(t, t.schedules[id], now);
    }
  }

  lemma ResolutionDone(t: Tables, id: Id, revision: nat, trigger: Id, hash: int, operation: Id, now: nat)
    requires HistoryOk(t) && ResolveGuard(t, id, revision, trigger, hash, operation, now)
    requires ValidRefusal(t.schedules[id]) && ValidResolution(t.schedules[id])
    requires var s' := ResolvedBy(t.schedules[id], operation, trigger, hash, now);
             s'.Id() == id && Save(t, s').Done? && HistoryOk(t.(schedules := t.schedules[id := s']))
    ensures var s' := ResolvedBy(t.schedules[id], operation, trigger, hash, now);
            ResolveRefusal(t, id, revision, trigger, hash, operation, now)
            == Done(t.(schedules := t.schedules[id := s']), (s', false))
  {
  }

  lemma ResolveExact(t: Tables, id: Id, revision: nat, trigger: Id, hash: int, operation: Id, now: nat)
    requires HistoryOk(t) && AllPaced(t.schedules, t.triggers) && id in t.schedules && t.schedules[id].resolution.None?
    ensures var s' := ResolvedBy(t.schedules[id], operation, trigger, hash, now);
            ResolveRefusal(t, id, revision, trigger, hash, operation, now)
            == if ResolveGuard(t, id, revision, trigger, hash, operation, now)
               then Done(t.(schedules := t.schedules[id := s']), (s', false)) else Refused
  {
    assert ScheduleOk(t.schedules[id], id, t.policies, t.definitions);
    if ResolveGuard(t, id, revision, trigger, hash, operation, now) {
      ResolutionCommits(t, id, revision, trigger, hash, operation, now);
      ResolutionDone(t, id, revision, trigger, hash, operation, now);
    } else {
      ResolutionRefused(t, id, revision, trigger, hash, operation, now);
    }
  }

  lemma ResolveAgain(t: Tables, id: Id, revision: nat, trigger: Id, hash: int, operation: Id, now: nat)
    requires HistoryOk(t) && id in t.schedules && t.schedules[id].resolution.Some?
    ensures var kept := t.schedules[id].resolution.value;
            ResolveRefusal(t, id, revision, trigger, hash, operation, now)
            == if operation != NIL && trigger != NIL && kept == Resolution(operation, revision, trigger, hash, kept.resolvedAt)
               then Done(t, (t.schedules[id], true)) else Refused
  {
  }

  /** In every reachable ledger resolving a recorded refusal commits if and only if its guard holds: the
      re-check never fails. */
  lemma ResolveOutcome(t: Tables, id: Id, revision: nat, trigger: Id, hash: int, operation: Id, now: nat)
    requires Reachable(t) && id in t.schedules
    ensures var s := t.schedules[id];
            var s' := ResolvedBy(s, operation, trigger, hash, now);
            ResolveRefusal(t, id, revision, trigger, hash, operation, now)
            == if s.resolution.Some? then
                 if operation != NIL && trigger != NIL
                    && s.resolution.value == Resolution(operation, revision, trigger, hash, s.resolution.value.resolvedAt)
                 then Done(t, (s, true)) else Refused
               else if ResolveGuard(t, id, revision, trigger, hash, operation, now)
               then Done(t.(schedules := t.schedules[id := s']), (s', false)) else Refused
  {
    ReachableInv(t);
    if t.schedules[id].resolution.Some? {
      ResolveAgain(t, id, revision, trigger, hash, operation, now);
    } else {
      ResolveExact(t, id, revision, trigger, hash, operation, now);
    }
  }

  // ------------------------------------------------------------------ stopping

  /** Everything that a first stop needs; a schedule whose refusal was resolved cannot be stopped any more. */
  predicate StopGuard(t: Tables, id: Id, revision: nat, operation: Id, now: nat) {
    && id in t.schedules && t.schedules[id].resolution.None? && t.schedules[id].revision == revision
    && operation != NIL && operation != id && operation != t.schedules[id].creation.policy && !TriggerOwns(t.triggers, operation)
    && Savable(t.schedules[id], now)
  }

  lemma StopSaves(t: Tables, id: Id, s: Schedule, operation: Id, now: nat)
    requires id in t.schedules && s == t.schedules[id] && ScheduleOk(s, id, t.policies, t.definitions) && s.stop.None?
    requires operation != NIL && operation != id
    ensures var s' := StoppedBy(s, Receipt(operation, s.revision), now);
            Save(t, s') == if s.resolution.None? && Savable(s, now) then Done(t.(schedules := t.schedules[id := s']), s') else Refused
  {
  }

  lemma StopSteps(t: Tables, id: Id, revision: nat, operation: Id, now: nat)
    requires HistoryOk(t) && id in t.schedules && t.schedules[id].stop.None?
    ensures var s := t.schedules[id];
            StopSchedule(t, id, revision, operation, now)
            == if operation == NIL || revision != s.revision || operation == id || operation == s.creation.policy
                  || TriggerOwns(t.triggers, operation) then Refused
               else match Save(t, StoppedBy(s, Receipt(operation, revision), now))
                    case Refused => Refused
                    case Done(t', s') => Done(t', (s', false))
  {
  }

  lemma StopExact(t: Tables, id: Id, revision: nat, operation: Id, now: nat)
    requires HistoryOk(t) && id in t.schedules && t.schedules[id].stop.None?
    ensures var s' := StoppedBy(t.schedules[id], Receipt(operation, revision), now);
            StopSchedule(t, id, revision, operation, now)
            == if StopGuard(t, id, revision, operation, now)
               then Done(t.(schedules := t.schedules[id := s']), (s', false)) else Refused
  {
    var s := t.schedules[id];
    assert ScheduleOk(s, id, t.policies, t.definitions);
    StopSteps(t, id, revision, operation, now);
    if operation != NIL && operation != id && revision == s.revision {
      StopSaves(t, id, s, operation, now);
    }
  }

  lemma StopAgain(t: Tables, id: Id, revision: nat, operation: Id, now: nat)
    requires HistoryOk(t) && id in t.schedules && t.schedules[id].stop.Some?
    ensures StopSchedule(t, id, revision, operation, now)
            == if operation != NIL && t.schedules[id].stop.value == Receipt(operation, revision)
               then Done(t, (t.schedules[id], true)) else Refused
  {
  }

  /** In every reachable ledger a first stop commits if and only if its guard holds, whatever state the schedule
      is in, except that a resolved refusal is final. */
  lemma StopOutcome(t: Tables, id: Id, revision: nat, operation: Id, now: nat)
    requires Reachable(t) && id in t.schedules
    ensures var s := t.schedules[id];
            var s' := StoppedBy(s, Receipt(operation, revision), now);
            StopSchedule(t, id, revision, operation, now)
            == if s.stop.Some? then
                 if operation != NIL && s.stop.value == Receipt(operation, revision) then Done(t, (s, true)) else Refused
               else if StopGuard(t, id, revision, operation, now)
               then Done(t.(schedules := t.schedules[id := s']), (s', false)) else Refused
  {
    ReachableInv(t);
    if t.schedules[id].stop.Some? {
      StopAgain(t, id, revision, operation, now);
    } else {
      StopExact(t, id, revision, operation, now);
    }
  }

  // ------------------------------------------------------------------ launching

  /** Everything that marking a held, unmarked claim as launched needs. */
  ghost predicate LaunchGuard(t: Tables, x: Trigger, runtime: Id, now: nat, commit: nat)
    requires x.schedule in t.schedules
  {
    var s := t.schedules[x.schedule];
    && s.runtime == runtime && s.Holds(x.id) && s.launchedAt.None? && SourceJob(t, x).Missing?
    && s.observedAt <= now <= commit
    && Current(s, t.policies, t.definitions, runtime, s.issuer, now)
    && Current(s, t.policies, t.definitions, runtime, s.issuer, commit)
    && s.revision + 1 < U64_LIMIT
  }

  lemma LaunchSaves(t: Tables, id: Id, s: Schedule, now: nat)
    requires id in t.schedules && s == t.schedules[id] && ScheduleOk(s, id, t.policies, t.definitions)
    requires s.state == InFlight && s.observedAt <= now
    ensures var s' := Advanced(s, now).(launchedAt := Some(now));
            Save(t, s') == if s.revision + 1 < U64_LIMIT then Done(t.(schedules := t.schedules[id := s']), s') else Refused
  {
  }

  lemma LaunchSteps(t: Tables, x: Trigger, s: Schedule, runtime: Id, now: nat, commit: nat)
    requires HistoryOk(t) && TriggerById(t.triggers, x.id) == Some(x) && x.schedule in t.schedules && s == t.schedules[x.schedule]
    requires !(s.runtime == runtime && s.Holds(x.id) && s.launchedAt.Some?)
    ensures BeginLaunch(t, x.id, runtime, now, commit)
            == if && s.runtime == runtime && s.Holds(x.id) && s.launchedAt.None? && SourceJob(t, x).Missing?
                  && s.observedAt <= now <= commit
                  && Current(s, t.policies, t.definitions, runtime, s.issuer, now)
                  && Current(s, t.policies, t.definitions, runtime, s.issuer, commit)
               then Without(Save(t, Advanced(s, now).(launchedAt := Some(now))), true) else Refused
  {
  }

  lemma LaunchExact(t: Tables, x: Trigger, s: Schedule, runtime: Id, now: nat, commit: nat)
    requires HistoryOk(t) && TriggerById(t.triggers, x.id) == Some(x) && x.schedule in t.schedules && s == t.schedules[x.schedule]
    requires ScheduleOk(s, x.schedule, t.policies, t.definitions)
    requires !(s.runtime == runtime && s.Holds(x.id) && s.launchedAt.Some?)
    ensures BeginLaunch(t, x.id, runtime, now, commit)
            == if LaunchGuard(t, x, runtime, now, commit)
               then Done(t.(schedules := t.schedules[x.schedule := Advanced(s, now).(launchedAt := Some(now))]), true) else Refused
  {
    LaunchSteps(t, x, s, runtime, now, commit);
    if s.state == InFlight && s.observedAt <= now {
      LaunchSaves(t, x.schedule, s, now);
    }
  }

  lemma LaunchAgain(t: Tables, x: Trigger, s: Schedule, runtime: Id, now: nat, commit: nat)
    requires HistoryOk(t) && TriggerById(t.triggers, x.id) == Some(x) && x.schedule in t.schedules && s == t.schedules[x.schedule]
    requires s.runtime == runtime && s.Holds(x.id) && s.launchedAt.Some?
    ensures BeginLaunch(t, x.id, runtime, now, commit) == Done(t, false)
  {
  }

  lemma ClaimFound(t: Tables, x: Trigger)
    requires HistoryOk(t) && x in t.triggers
    ensures x.schedule in t.schedules && TriggerById(t.triggers, x.id) == Some(x)
    ensures ScheduleOk(t.schedules[x.schedule], x.schedule, t.policies, t.definitions)
  {
    assert TriggerOk(x, t.schedules, t.policies);
    UniqueOwner(t.triggers, x, TriggerById(t.triggers, x.id).value, x.id);
  }

  /** In every reachable ledger a launch of a retained claim begins if and only if its guard holds, and reports
      reuse only for a claim that is held and was marked before. */
  lemma LaunchOutcome(t: Tables, x: Trigger, runtime: Id, now: nat, commit: nat)
    requires Reachable(t) && x in t.triggers
    ensures x.schedule in t.schedules
    ensures var s := t.schedules[x.schedule];
            BeginLaunch(t, x.id, runtime, now, commit)
            == if s.runtime == runtime && s.Holds(x.id) && s.launchedAt.Some? then Done(t, false)
               else if LaunchGuard(t, x, runtime, now, commit)
               then Done(t.(schedules := t.schedules[x.schedule := Advanced(s, now).(launchedAt := Some(now))]), true)
               else Refused
  {
    ReachableInv(t);
    ClaimFound(t, x);
    var s := t.schedules[x.schedule];
    if s.runtime == runtime && s.Holds(x.id) && s.launchedAt.Some? {
      LaunchAgain(t, x, s, runtime, now, commit);
    } else {
      LaunchExact(t, x, s, runtime, now, commit);
    }
  }

  // ------------------------------------------------------------------ direct insertion

  /** Everything a direct insertion asks.  The requests of archived jobs are not among it. */
  predicate InsertGuard(t: Tables, plan: Plan, now: nat, room: bool) {
    && FreshPlan(plan) && plan.id !in t.jobs && !ArchivedJob(t.archives, plan.id) && room
    && (plan.context.Some? ==> SourceAuthority(t, plan.context.value, now))
  }

  lemma InsertExact(t: Tables, plan: Plan, now: nat, room: bool)
    ensures var saved := plan.(revision := 1, updatedAt := now);
            InsertJob(t, plan, now, room)
            == if InsertGuard(t, plan, now, room) then Done(t.(jobs := t.jobs[plan.id := saved]), saved) else Refused
  {
  }
}
