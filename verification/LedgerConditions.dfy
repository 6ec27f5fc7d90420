/** When each checkpoint of a reachable ledger commits, in terms of the fields of the records alone. */
module LedgerConditions {
  import opened Prelude
  import opened Records
  import opened Ledger
  import opened LedgerInvariant
  import opened LedgerSteps
  import opened LedgerRuns
  import opened LedgerTheorems
  import opened LedgerLaunch
  import opened LedgerClaims
  import opened LedgerDue
  import opened LedgerOutcomes
  import opened LedgerPlain

  // ------------------------------------------------------------------ reservations

  /** A claim that names the plan's request must be held, under this policy and with this receipt. */
  predicate ClaimAllows(t: Tables, plan: Plan, policy: Id, receipt: Id, now: nat) {
    plan.context.Some? ==>
      forall x | x in t.triggers && x.context.request == plan.context.value.request ::
        && x.context == plan.context.value && x.reservation == receipt && x.schedule in t.schedules
        && t.schedules[x.schedule].creation.policy == policy
        && t.schedules[x.schedule].state == InFlight && t.schedules[x.schedule].active == Some(x.id)
        && t.schedules[x.schedule].observedAt <= now
  }

  lemma LinkIs(t: Tables, plan: Plan, policy: Id, receipt: Id, now: nat)
    requires HistoryOk(t) && policy in t.policies && InForce(t, policy, t.policies[policy].runtime, t.policies[policy].issuer, now)
    ensures ReservationLink(t, plan, t.policies[policy], receipt, now).Some? <==> ClaimAllows(t, plan, policy, receipt, now)
  {
    assert PolicyOk(t.policies[policy], policy, t.definitions);
    if plan.context.Some? && TriggerByRequest(t.triggers, plan.context.value.request).Some? {
      var x := TriggerByRequest(t.triggers, plan.context.value.request).value;
      forall y | y in t.triggers && y.context.request == plan.context.value.request ensures y == x {
        UniqueOwner(t.triggers, x, y, plan.context.value.request);
      }
      assert TriggerOk(x, t.schedules, t.policies);
      ScheduleInForce(t, x.schedule, t.policies[policy].runtime, t.policies[policy].issuer, now);
    }
  }

  /** A refused claim was given this receipt. */
  predicate RefusedBy(t: Tables, receipt: Id) {
    exists x | x in t.triggers ::
      && x.reservation == receipt && x.schedule in t.schedules
      && t.schedules[x.schedule].refusal.Some? && t.schedules[x.schedule].refusal.value.trigger == x.id
  }

  lemma RefusedIs(t: Tables, receipt: Id)
    requires HistoryOk(t)
    ensures RefusedReceipt(t, receipt) <==> RefusedBy(t, receipt)
  {
    if RefusedReceipt(t, receipt) {
      var id :| id in t.schedules && t.schedules[id].refusal.Some? && LastClaim(t.triggers, t.schedules[id]).Some?
                && LastClaim(t.triggers, t.schedules[id]).value.reservation == receipt;
      assert ScheduleOk(t.schedules[id], id, t.policies, t.definitions);
      assert RefusalMatches(t.schedules[id], t.triggers, t.occurrences, t.jobs);
    }
    if RefusedBy(t, receipt) {
      var x :| x in t.triggers && x.reservation == receipt && x.schedule in t.schedules
               && t.schedules[x.schedule].refusal.Some? && t.schedules[x.schedule].refusal.value.trigger == x.id;
      assert RefusalMatches(t.schedules[x.schedule], t.triggers, t.occurrences, t.jobs);
      UniqueOwner(t.triggers, x, LastClaim(t.triggers, t.schedules[x.schedule]).value, x.id);
    }
  }

  /** The command is well formed and names a retained policy and job exactly as they are. */
  predicate ReserveNames(t: Tables, c: Reserve, runtime: Id) {
    && c.policy != NIL && c.operation != NIL && c.policy != c.operation && 0 < c.revision < U64_LIMIT - 1 && runtime != NIL
    && c.policy in t.policies && c.policySha == t.policies[c.policy].sha
    && t.policies[c.policy].creation.definition in t.definitions
    && c.job in t.jobs && c.job != t.definitions[t.policies[c.policy].creation.definition].creation.job
    && (forall r | r in t.occurrences :: r.command.job != c.job)
    && t.jobs[c.job].revision == c.revision && t.jobs[c.job].status == AwaitingApproval
    && t.jobs[c.job].approval.None? && t.jobs[c.job].execution.None?
    && t.jobs[c.job].planning.Some? && t.jobs[c.job].planning.value.sha == c.planSha
  }

  /** At commit the policy is still in force, with time for every operation of the run. */
  predicate TimeLeft(t: Tables, policy: Id, now: nat, commit: nat)
    requires policy in t.policies
  {
    var p := t.policies[policy];
    now <= commit && commit + p.scope.operations * p.creation.limits.executionMs <= p.approvedAt + p.creation.validFor
  }

  /** Everything a new reservation needs. */
  predicate ReserveAllowed(t: Tables, c: Reserve, runtime: Id, issuer: int, now: nat, commit: nat, room: bool) {
    && ReserveNames(t, c, runtime) && InForce(t, c.policy, runtime, issuer, now) && room
    && InScope(t.jobs[c.job], t.policies[c.policy])
    && RunsProven(t, t.policies[c.policy].creation.definition)
    && Affordable(t, c.policy) && TimeLeft(t, c.policy, now, commit)
    && ClaimAllows(t, t.jobs[c.job], c.policy, c.operation, now) && !RefusedBy(t, c.operation)
  }

  lemma TimelyIs(p: Policy, now: nat, commit: nat)
    requires ValidPolicy(p)
    ensures Timely(p, now, commit) <==>
            now <= commit && commit + p.scope.operations * p.creation.limits.executionMs <= p.approvedAt + p.creation.validFor
  {
    AllowancesPositive(p);
  }

  lemma ReservableIs(t: Tables, c: Reserve, runtime: Id, issuer: int, now: nat)
    requires HistoryOk(t) && RetainedOk(t) && ReceiptsDistinct(t.occurrences) && Named(t, c, runtime)
    ensures var p := t.policies[c.policy];
            Reservable(t, c, p, t.definitions[p.creation.definition], t.jobs[c.job], runtime, issuer, now)
            && AllowanceMs(p) <= p.expiresAt - now
            <==> && ReserveNames(t, c, runtime) && InForce(t, c.policy, runtime, issuer, now)
                 && InScope(t.jobs[c.job], p) && RunsProven(t, p.creation.definition) && Affordable(t, c.policy)
                 && AllowanceMs(p) <= p.expiresAt - now
                 && ClaimAllows(t, t.jobs[c.job], c.policy, c.operation, now)
  {
    var p := t.policies[c.policy];
    assert PolicyOk(p, c.policy, t.definitions);
    InForceIs(t, c.policy, runtime, issuer, now);
    InScopeIs(t.jobs[c.job], p);
    RunsProvenIs(t, p.creation.definition);
    AffordableIs(t, c.policy);
    if InForce(t, c.policy, runtime, issuer, now) {
      LinkIs(t, t.jobs[c.job], c.policy, c.operation, now);
    }
  }

  lemma ReserveGuardIs(t: Tables, c: Reserve, runtime: Id, issuer: int, now: nat, commit: nat, room: bool)
    requires HistoryOk(t) && RetainedOk(t) && ReceiptsDistinct(t.occurrences) && OccurrenceById(t.occurrences, c.operation).None?
    ensures ReserveGuard(t, c, runtime, issuer, now, commit, room) <==> ReserveAllowed(t, c, runtime, issuer, now, commit, room)
  {
    if Named(t, c, runtime) {
      assert PolicyOk(t.policies[c.policy], c.policy, t.definitions);
      ReservableIs(t, c, runtime, issuer, now);
      TimelyIs(t.policies[c.policy], now, commit);
      RefusedIs(t, c.operation);
    }
  }

  /** A reservation under a new receipt commits if and only if all this holds.  What it approves is the job as it
      was, with exactly the approved limits and expiry, delegated under this policy. */
  lemma ReserveWhen(t: Tables, c: Reserve, runtime: Id, issuer: int, now: nat, commit: nat, stamped: nat, sha: int, room: bool)
    requires Sound(t) && forall r | r in t.occurrences :: r.command.operation != c.operation
    ensures var a := ReserveRun(t, c, runtime, issuer, now, commit, stamped, sha, room);
            && (a.Done? <==> ReserveAllowed(t, c, runtime, issuer, now, commit, room))
            && (a.Done? ==>
                  var p := t.policies[c.policy];
                  var r := a.value.0;
                  && a.tables == t.(jobs := t.jobs[c.job := r.snapshot], occurrences := t.occurrences + [r])
                  && r.command == c && r.ordinal == |RunsUnder(t, c.policy)| + 1
                  && r.executionMs == p.scope.operations * p.creation.limits.executionMs
                  && r.resultBytes == p.scope.operations * p.creation.limits.resultBytes
                  && r.snapshot.approval.Some?
                  && r.snapshot == t.jobs[c.job].(approval := r.snapshot.approval, status := Approved,
                                                  revision := c.revision + 1, updatedAt := stamped)
                  && r.snapshot.approval.value == Approval(c.operation, issuer, now, p.expiresAt, p.creation.limits, Some(r.delegation))
                  && r.delegation == Delegation(c.operation, c.policy, p.sha, p.creation.definition, p.generation, runtime, r.delegation.link))
  {
    ReserveExact(t, c, runtime, issuer, now, commit, stamped, sha, room);
    ReserveGuardIs(t, c, runtime, issuer, now, commit, room);
    if ReserveAllowed(t, c, runtime, issuer, now, commit, room) {
      UsedIsUniform(t, c.policy);
    }
  }

  // ------------------------------------------------------------------ archives

  /** The archive names one retained reservation and its live job exactly as they are. */
  predicate ArchiveNames(t: Tables, c: ArchiveCommand, r: Reservation) {
    && c.reservation != NIL && c.operation != NIL && c.reservation != c.operation && 0 < c.revision < U64_LIMIT - 1
    && r in t.occurrences && r.command.operation == c.reservation && r.command.job == c.job && r.sha == c.reservationSha
    && c.job in t.jobs && t.jobs[c.job].revision == c.revision
    && c.operation !in t.policies && (forall k | k in t.occurrences :: k.command.operation != c.operation)
  }

  /** Everything a new archive needs of a reservation: a proven job, and a clock after both records. */
  predicate ArchiveAllowed(t: Tables, c: ArchiveCommand, runtime: Id, now: nat, commit: nat, room: bool) {
    && runtime != NIL && room && 0 < now <= commit
    && exists r | r in t.occurrences ::
         ArchiveNames(t, c, r) && Proven(t.jobs[c.job]) && r.reservedAt <= now && t.jobs[c.job].updatedAt <= now
  }

  lemma ArchiveNone(t: Tables, c: ArchiveCommand)
    requires RetainedOk(t) && ReceiptsDistinct(t.occurrences) && c.job in t.jobs
    requires exists r | r in t.occurrences :: r.command.operation == c.reservation && r.command.job == c.job
    ensures ArchiveOf(t.archives, c.reservation).None? && !ArchivedJob(t.archives, c.job)
  {
    assert forall a | a in t.archives :: ArchiveOk(a, t);
    var r :| r in t.occurrences && r.command.operation == c.reservation && r.command.job == c.job;
    if ArchiveOf(t.archives, c.reservation).Some? {
      var a := ArchiveOf(t.archives, c.reservation).value;
      assert ArchiveOk(a, t);
      UniqueReceipt(t.occurrences, r, OccurrenceById(t.occurrences, c.reservation).value);
    }
  }

  lemma ArchivableIs(t: Tables, c: ArchiveCommand, r: Reservation)
    requires OccurrenceById(t.occurrences, c.reservation) == Some(r) && ValidArchiveCommand(c)
    requires c.job in t.jobs ==> JobOk(t.jobs[c.job], c.job, t)
    requires c.job in t.jobs && r.command.job == c.job ==> ArchiveOf(t.archives, c.reservation).None? && !ArchivedJob(t.archives, c.job)
    ensures Archivable(t, c) <==> ArchiveNames(t, c, r) && Proven(t.jobs[c.job])
  {
    if c.job in t.jobs {
      ResolvedIsProven(t.jobs[c.job]);
    }
  }

  lemma OneReceipt(t: Tables, c: ArchiveCommand, r: Reservation)
    requires ReceiptsDistinct(t.occurrences) && OccurrenceById(t.occurrences, c.reservation) == Some(r)
    ensures forall k | k in t.occurrences && k.command.operation == c.reservation :: k == r
  {
    forall k | k in t.occurrences && k.command.operation == c.reservation ensures k == r {
      UniqueReceipt(t.occurrences, k, r);
    }
  }

  lemma ArchiveGuardIs(t: Tables, c: ArchiveCommand, runtime: Id, now: nat, commit: nat, room: bool)
    requires RetainedOk(t) && ReceiptsDistinct(t.occurrences) && JobsOk(t) && ArchiveById(t.archives, c.operation).None?
    ensures ArchiveGuard(t, c, runtime, now, commit, room) <==> ArchiveAllowed(t, c, runtime, now, commit, room)
  {
    var found := OccurrenceById(t.occurrences, c.reservation);
    if found.Some? && ValidArchiveCommand(c) {
      var r := found.value;
      if c.job in t.jobs {
        assert JobOk(t.jobs[c.job], c.job, t);
        if r.command.job == c.job {
          ArchiveNone(t, c);
        }
      }
      ArchivableIs(t, c, r);
      OneReceipt(t, c, r);
    }
  }

  /** An archive under a new receipt commits if and only if all this holds: a job with any other evidence is
      neither archived nor deleted. */
  lemma ArchiveWhen(t: Tables, c: ArchiveCommand, runtime: Id, now: nat, commit: nat, room: bool)
    requires Sound(t) && forall a | a in t.archives :: a.command.operation != c.operation
    ensures var a := ArchiveRun(t, c, runtime, now, commit, room);
            && (a.Done? <==> ArchiveAllowed(t, c, runtime, now, commit, room))
            && (a.Done? ==> a.tables == t.(jobs := t.jobs - {c.job}, archives := t.archives + [Archive(c, runtime, now, t.jobs[c.job])]))
  {
    ArchiveExact(t, c, runtime, now, commit, room);
    ArchiveGuardIs(t, c, runtime, now, commit, room);
  }

  /** Every archive holds proven evidence. */
  lemma ArchivesAreProven(t: Tables, a: Archive)
    requires Sound(t) && a in t.archives
    ensures Proven(a.terminal)
  {
    assert ArchiveOk(a, t);
    ResolvedIsProven(a.terminal);
  }

  // ------------------------------------------------------------------ schedules

  /** No schedule of the definition is active, and every claim of it is over. */
  predicate NothingOpen(t: Tables, definition: Id) {
    && (forall id | id in t.schedules && t.schedules[id].definition == definition ::
          t.schedules[id].state != Waiting && t.schedules[id].state != InFlight)
    && (forall x | x in t.triggers && x.schedule in t.schedules && t.schedules[x.schedule].definition == definition ::
          OwnerSettled(t, x) || ClaimProven(t, x))
  }

  lemma NothingOpenIs(t: Tables, definition: Id)
    requires RetainedOk(t) && ReceiptsDistinct(t.occurrences) && JobsOk(t) && ArchivesDelegated(t)
    ensures NoOverlap(t, definition) <==> NothingOpen(t, definition)
  {
    forall x | x in t.triggers && x.schedule in t.schedules
      ensures ClaimResolved(t, x) <==> OwnerSettled(t, x) || ClaimProven(t, x)
    {
      ClaimOverIs(t, x);
    }
  }

  predicate ArmNames(t: Tables, c: Arm, runtime: Id) {
    && c.operation != NIL && c.policy != NIL && runtime != NIL && c.operation != c.policy && c.operation != runtime
    && c.policy in t.policies && t.policies[c.policy].sha == c.policySha
    && t.policies[c.policy].creation.definition in t.definitions && c.operation != t.policies[c.policy].creation.definition
  }

  /** Everything a new schedule needs. */
  predicate ArmAllowed(t: Tables, c: Arm, runtime: Id, issuer: int, now: nat, commit: nat, room: bool) {
    && ArmNames(t, c, runtime) && InForce(t, c.policy, runtime, issuer, now) && room
    && var due := now + t.definitions[t.policies[c.policy].creation.definition].creation.every;
       && TimeLeft(t, c.policy, now, due) && TimeLeft(t, c.policy, now, commit)
       && Affordable(t, c.policy) && RunsProven(t, t.policies[c.policy].creation.definition)
       && NothingOpen(t, t.policies[c.policy].creation.definition)
  }

  lemma ArmTimes(p: Policy, due: nat, now: nat, commit: nat)
    requires ValidPolicy(p) && now <= due
    ensures due < U64_LIMIT && now <= commit && commit < p.expiresAt && AllowanceMs(p) <= SaturatingSub(p.expiresAt, Max(due, commit))
            <==> && now <= commit && commit + p.scope.operations * p.creation.limits.executionMs <= p.approvedAt + p.creation.validFor
                 && due + p.scope.operations * p.creation.limits.executionMs <= p.approvedAt + p.creation.validFor
  {
    AllowancesPositive(p);
  }

  lemma ArmGuardIs(t: Tables, c: Arm, runtime: Id, issuer: int, now: nat, commit: nat, room: bool)
    requires HistoryOk(t) && RetainedOk(t) && ReceiptsDistinct(t.occurrences) && JobsOk(t) && ArchivesDelegated(t)
    requires DefinitionsOk(t.definitions)
    ensures ArmGuard(t, c, runtime, issuer, now, commit, room) <==> ArmAllowed(t, c, runtime, issuer, now, commit, room)
  {
    if ArmNamed(t, c, runtime) {
      var p := t.policies[c.policy];
      var d := t.definitions[p.creation.definition];
      assert PolicyOk(p, c.policy, t.definitions);
      InForceIs(t, c.policy, runtime, issuer, now);
      AffordableIs(t, c.policy);
      RunsProvenIs(t, d.id);
      NothingOpenIs(t, d.id);
      ArmTimes(p, now + d.creation.every, now, commit);
    }
  }

  /** Arming under a new receipt commits if and only if all this holds. */
  lemma ArmWhen(t: Tables, c: Arm, runtime: Id, issuer: int, now: nat, commit: nat, room: bool)
    requires Sound(t) && c.operation !in t.schedules
    ensures var a := ArmSchedule(t, c, runtime, issuer, now, commit, room);
            && (a.Done? <==> ArmAllowed(t, c, runtime, issuer, now, commit, room))
            && (a.Done? ==>
                  var p := t.policies[c.policy];
                  var every := t.definitions[p.creation.definition].creation.every;
                  var s := a.value.0;
                  && a.tables == t.(schedules := t.schedules[c.operation := s]) && s.creation == c
                  && s.state == Waiting && s.observedAt == now && s.nextDue == Some(now + every) && s.claimed == 0 && s.every == every
                  && s.definition == p.creation.definition && s.runtime == runtime && s.issuer == issuer
                  && s.generation == p.generation && s.armedAt == now && s.expiresAt == p.expiresAt && s.active.None?)
  {
    assert c.policy in t.policies ==> PolicyOk(t.policies[c.policy], c.policy, t.definitions);
    ArmExact(t, c, runtime, issuer, now, commit, room);
    ArmGuardIs(t, c, runtime, issuer, now, commit, room);
  }

  /** The schedule waits, and its time has come and is not missed. */
  predicate DueNow(t: Tables, id: Id, now: nat) {
    && id in t.schedules && t.schedules[id].state == Waiting
    && t.schedules[id].observedAt + t.schedules[id].every <= now < t.schedules[id].observedAt + 2 * t.schedules[id].every
  }

  /** Everything a due check needs in order to claim. */
  ghost predicate ClaimAllowed(t: Tables, id: Id, runtime: Id, issuer: int, now: nat, commit: nat, ids: FreshIds, room: bool) {
    && DueNow(t, id, now) && DueNow(t, id, commit) && room && t.schedules[id].revision + 1 < U64_LIMIT && Generated(t, ids)
    && var policy := t.schedules[id].creation.policy;
       && InForce(t, policy, runtime, issuer, now) && TimeLeft(t, policy, now, commit)
       && t.schedules[id].claimed < t.policies[policy].creation.maxRuns && Affordable(t, policy)
       && RunsProven(t, t.schedules[id].definition)
  }

  lemma DueIs(t: Tables, id: Id, runtime: Id, issuer: int, now: nat)
    requires HistoryOk(t) && AllPaced(t.schedules, t.triggers)
    ensures Due(t, id, runtime, issuer, now) <==> DueNow(t, id, now) && InForce(t, t.schedules[id].creation.policy, runtime, issuer, now)
  {
    if id in t.schedules {
      var s := t.schedules[id];
      assert ScheduleOk(s, id, t.policies, t.definitions) && Paced(s, t.triggers);
      assert PolicyOk(t.policies[s.creation.policy], s.creation.policy, t.definitions);
      ScheduleInForce(t, id, runtime, issuer, now);
    }
  }

  lemma RunLeftIs(t: Tables, id: Id, at: nat)
    requires HistoryOk(t) && RetainedOk(t) && id in t.schedules
    ensures t.schedules[id].creation.policy in t.policies
    ensures var s := t.schedules[id];
            var p := t.policies[s.creation.policy];
            NoRunAt(t.occurrences, s, p, at).None? <==>
            && s.claimed < p.creation.maxRuns && Affordable(t, s.creation.policy)
            && at + p.scope.operations * p.creation.limits.executionMs <= p.approvedAt + p.creation.validFor
  {
    var s := t.schedules[id];
    assert ScheduleOk(s, id, t.policies, t.definitions);
    assert PolicyOk(t.policies[s.creation.policy], s.creation.policy, t.definitions);
    AffordableIs(t, s.creation.policy);
    AllowancesPositive(t.policies[s.creation.policy]);
  }

  lemma LaterInForce(t: Tables, policy: Id, runtime: Id, issuer: int, now: nat, commit: nat)
    requires InForce(t, policy, runtime, issuer, now) && now <= commit
    ensures InForce(t, policy, runtime, issuer, commit) <==> commit < t.policies[policy].approvedAt + t.policies[policy].creation.validFor
  {
  }

  lemma ClaimGuardIs(t: Tables, id: Id, runtime: Id, issuer: int, now: nat, commit: nat, ids: FreshIds, room: bool)
    requires HistoryOk(t) && RetainedOk(t) && ReceiptsDistinct(t.occurrences) && AllPaced(t.schedules, t.triggers)
    ensures DueGuard(t, id, runtime, issuer, now, commit, ids, room) <==> ClaimAllowed(t, id, runtime, issuer, now, commit, ids, room)
  {
    DueIs(t, id, runtime, issuer, now);
    DueIs(t, id, runtime, issuer, commit);
    if id in t.schedules {
      var policy := t.schedules[id].creation.policy;
      RunsProvenIs(t, t.schedules[id].definition);
      RunLeftIs(t, id, commit);
      assert PolicyOk(t.policies[policy], policy, t.definitions);
      AllowancesPositive(t.policies[policy]);
      if InForce(t, policy, runtime, issuer, now) && now <= commit {
        LaterInForce(t, policy, runtime, issuer, now, commit);
      }
    }
  }

  /** The claim that a due check makes. */
  function NewClaim(s: Schedule, owner: Context, ids: FreshIds, now: nat): Trigger {
    Trigger(ids.trigger, s.creation.operation, s.claimed + 1, s.observedAt + s.every, now,
            Context(ids.request, owner.node, owner.area), ids.reservation, ids.execution, ids.sha)
  }

  function Holding(s: Schedule, trigger: Id, now: nat): Schedule {
    s.(revision := s.revision + 1, observedAt := now, claimed := s.claimed + 1, state := InFlight, nextDue := None,
       active := Some(trigger), launchedAt := None)
  }

  lemma ClaimMade(t: Tables, id: Id, ids: FreshIds, now: nat)
    requires id in t.schedules && t.schedules[id].Id() == id && t.schedules[id].nextDue == Some(t.schedules[id].observedAt + t.schedules[id].every)
    requires t.schedules[id].creation.policy in t.policies
    ensures var s := t.schedules[id];
            var x := NewClaim(s, t.policies[s.creation.policy].scope.owner, ids, now);
            && Staged(t, id, ids, now) == x
            && Claim(t, s, x) == t.(triggers := t.triggers + [x], schedules := t.schedules[id := Holding(s, ids.trigger, now)])
  {
  }

  lemma WaitingSince(t: Tables, id: Id)
    requires HistoryOk(t) && AllPaced(t.schedules, t.triggers) && id in t.schedules
    ensures t.schedules[id].Id() == id && t.schedules[id].creation.policy in t.policies
    ensures t.schedules[id].state == Waiting ==> t.schedules[id].nextDue == Some(t.schedules[id].observedAt + t.schedules[id].every)
  {
    assert ScheduleOk(t.schedules[id], id, t.policies, t.definitions) && Paced(t.schedules[id], t.triggers);
  }

  /** A due check claims if and only if all this holds, and appends exactly this claim. */
  lemma ClaimWhen(t: Tables, id: Id, runtime: Id, issuer: int, now: nat, commit: nat, ids: FreshIds, room: bool)
    requires Sound(t) && id in t.schedules
    ensures t.schedules[id].creation.policy in t.policies
    ensures var a := ClaimDue(t, id, runtime, issuer, now, commit, ids, room);
            var s := t.schedules[id];
            var x := NewClaim(s, t.policies[s.creation.policy].scope.owner, ids, now);
            && (a.Done? && a.value.Some? <==> ClaimAllowed(t, id, runtime, issuer, now, commit, ids, room))
            && (a.Done? && a.value.Some? ==>
                  a.tables == t.(triggers := t.triggers + [x], schedules := t.schedules[id := Holding(s, ids.trigger, now)]))
  {
    WaitingSince(t, id);
    DueJudged(t, id, runtime, issuer, now, commit, ids, room);
    ClaimGuardIs(t, id, runtime, issuer, now, commit, ids, room);
    if t.schedules[id].state == Waiting {
      ClaimMade(t, id, ids, now);
    }
  }

  /** Why a due check ends a waiting schedule, first reason first. */
  predicate Missed(t: Tables, id: Id, now: nat)
    requires id in t.schedules
  {
    now >= t.schedules[id].observedAt + 2 * t.schedules[id].every
  }

  function FaultOf(t: Tables, id: Id, runtime: Id, issuer: int, now: nat): Option<Reason>
    requires id in t.schedules
  {
    if now < t.schedules[id].observedAt then Some(BackwardClock)
    else if !InForce(t, t.schedules[id].creation.policy, runtime, issuer, now) then Some(PolicyChanged)
    else if Missed(t, id, now) then Some(MissedTrigger) else None
  }

  /** Why no run is left at this time, first reason first. */
  function EndOf(t: Tables, id: Id, at: nat): Option<Reason>
    requires id in t.schedules && t.schedules[id].creation.policy in t.policies
  {
    var p := t.policies[t.schedules[id].creation.policy];
    if t.schedules[id].claimed >= p.creation.maxRuns then Some(RunBudget)
    else if !Affordable(t, t.schedules[id].creation.policy) then Some(PolicyBudget)
    else if at + p.scope.operations * p.creation.limits.executionMs > p.approvedAt + p.creation.validFor then Some(TimeBudget)
    else None
  }

  lemma FaultIs(t: Tables, id: Id, runtime: Id, issuer: int, now: nat)
    requires HistoryOk(t) && AllPaced(t.schedules, t.triggers) && id in t.schedules && t.schedules[id].state == Waiting
    ensures t.schedules[id].nextDue.Some?
    ensures DueFault(t, t.schedules[id], runtime, issuer, now, t.schedules[id].nextDue.value) == FaultOf(t, id, runtime, issuer, now)
  {
    var s := t.schedules[id];
    WaitingSince(t, id);
    ScheduleInForce(t, id, runtime, issuer, now);
    assert ScheduleOk(s, id, t.policies, t.definitions) && PolicyOk(t.policies[s.creation.policy], s.creation.policy, t.definitions);
  }

  lemma EndIs(t: Tables, id: Id, at: nat)
    requires HistoryOk(t) && RetainedOk(t) && id in t.schedules
    ensures t.schedules[id].creation.policy in t.policies
    ensures NoRunAt(t.occurrences, t.schedules[id], t.policies[t.schedules[id].creation.policy], at) == EndOf(t, id, at)
  {
    var s := t.schedules[id];
    assert ScheduleOk(s, id, t.policies, t.definitions) && PolicyOk(t.policies[s.creation.policy], s.creation.policy, t.definitions);
    AffordableIs(t, s.creation.policy);
    AllowancesPositive(t.policies[s.creation.policy]);
  }

  /** The schedule ended at this time for this reason. */
  function Ending(s: Schedule, state: State, reason: Option<Reason>, now: nat): Schedule {
    s.(revision := s.revision + 1, observedAt := now, state := state, reason := reason, nextDue := None)
  }

  /** What a due check that does not claim makes of a waiting schedule. */
  function Unclaimed(t: Tables, id: Id, runtime: Id, issuer: int, now: nat): Schedule
    requires id in t.schedules && t.schedules[id].creation.policy in t.policies
  {
    var s := t.schedules[id];
    var fault := FaultOf(t, id, runtime, issuer, now);
    if s.revision + 1 >= U64_LIMIT || now == 0 then s
    else if fault.Some? then Ending(s, Interrupted, fault, now)
    else if DueNow(t, id, now) && RunsProven(t, s.definition) && EndOf(t, id, now).Some? then Ending(s, Exhausted, EndOf(t, id, now), now)
    else s
  }

  /** A verdict that is not a claim leaves this schedule. */
  predicate Leaves(s: Schedule, verdict: Verdict, now: nat, s': Schedule) {
    match verdict
    case Claiming => false
    case Exhausting(reason) => s' == Ending(s, Exhausted, Some(reason), now)
    case Interrupting(reason) => s' == Ending(s, Interrupted, Some(reason), now)
    case Nothing => s' == s
  }

  lemma VerdictFrom(t: Tables, id: Id, runtime: Id, issuer: int, now: nat, commit: nat, ids: FreshIds, room: bool)
    requires id in t.schedules && t.schedules[id].state == Waiting && t.schedules[id].creation.policy in t.policies
    requires t.schedules[id].nextDue == Some(t.schedules[id].observedAt + t.schedules[id].every)
    requires !DueGuard(t, id, runtime, issuer, now, commit, ids, room)
    requires DueFault(t, t.schedules[id], runtime, issuer, now, t.schedules[id].nextDue.value) == FaultOf(t, id, runtime, issuer, now)
    requires NoRunAt(t.occurrences, t.schedules[id], t.policies[t.schedules[id].creation.policy], now) == EndOf(t, id, now)
    requires DefinitionResolved(t, t.schedules[id].definition) <==> RunsProven(t, t.schedules[id].definition)
    ensures Leaves(t.schedules[id], Judge(t, id, runtime, issuer, now, commit, ids, room), now, Unclaimed(t, id, runtime, issuer, now))
  {
  }

  lemma VerdictIs(t: Tables, id: Id, runtime: Id, issuer: int, now: nat, commit: nat, ids: FreshIds, room: bool)
    requires HistoryOk(t) && RetainedOk(t) && ReceiptsDistinct(t.occurrences) && AllPaced(t.schedules, t.triggers)
    requires id in t.schedules && t.schedules[id].state == Waiting && t.schedules[id].creation.policy in t.policies
    requires !ClaimAllowed(t, id, runtime, issuer, now, commit, ids, room)
    ensures Leaves(t.schedules[id], Judge(t, id, runtime, issuer, now, commit, ids, room), now, Unclaimed(t, id, runtime, issuer, now))
  {
    ClaimGuardIs(t, id, runtime, issuer, now, commit, ids, room);
    FaultIs(t, id, runtime, issuer, now);
    EndIs(t, id, now);
    RunsProvenIs(t, t.schedules[id].definition);
    WaitingSince(t, id);
    VerdictFrom(t, id, runtime, issuer, now, commit, ids, room);
  }

  lemma CarriedLeaves(t: Tables, id: Id, verdict: Verdict, now: nat, ids: FreshIds, t': Tables, s': Schedule)
    requires id in t.schedules && Carried(t, id, verdict, now, ids, t') && Leaves(t.schedules[id], verdict, now, s')
    ensures t' == t.(schedules := t.schedules[id := s'])
  {
    assert t.schedules[id := t.schedules[id]] == t.schedules;
  }

  /** A due check that does not claim interrupts, exhausts or leaves a waiting schedule exactly as said above, and
      changes nothing else. */
  lemma DueWhen(t: Tables, id: Id, runtime: Id, issuer: int, now: nat, commit: nat, ids: FreshIds, room: bool)
    requires Sound(t) && id in t.schedules && t.schedules[id].state == Waiting
    requires !ClaimAllowed(t, id, runtime, issuer, now, commit, ids, room)
    ensures t.schedules[id].creation.policy in t.policies
    ensures After(t, ClaimDue(t, id, runtime, issuer, now, commit, ids, room))
            == t.(schedules := t.schedules[id := Unclaimed(t, id, runtime, issuer, now)])
  {
    WaitingSince(t, id);
    DueJudged(t, id, runtime, issuer, now, commit, ids, room);
    VerdictIs(t, id, runtime, issuer, now, commit, ids, room);
    CarriedLeaves(t, id, Judge(t, id, runtime, issuer, now, commit, ids, room), now, ids,
                  After(t, ClaimDue(t, id, runtime, issuer, now, commit, ids, room)), Unclaimed(t, id, runtime, issuer, now));
  }

  // ------------------------------------------------------------------ settling

  /** What settling makes of the schedule once its claim is proven over. */
  function SettledTo(t: Tables, id: Id, runtime: Id, issuer: int, now: nat): Schedule
    requires id in t.schedules && t.schedules[id].creation.policy in t.policies
  {
    var s := t.schedules[id];
    if now < s.observedAt then Ending(s, Interrupted, Some(BackwardClock), now)
    else if !InForce(t, s.creation.policy, runtime, issuer, now) then Ending(s, Interrupted, Some(PolicyChanged), now)
    else if EndOf(t, id, now + s.every).Some? then Ending(s, Exhausted, EndOf(t, id, now + s.every), now).(active := None, launchedAt := None)
    else s.(revision := s.revision + 1, observedAt := now, state := Waiting, nextDue := Some(now + s.every), active := None, launchedAt := None)
  }

  /** Everything that settling needs: proven evidence, a revision, and clocks that do not overflow. */
  predicate SettleAllowed(t: Tables, id: Id, x: Trigger, runtime: Id, issuer: int, now: nat)
    requires id in t.schedules
  {
    var s := t.schedules[id];
    && ClaimProven(t, x) && s.revision + 1 < U64_LIMIT && now > 0
    && (s.observedAt <= now && InForce(t, s.creation.policy, runtime, issuer, now) ==> now + s.every < U64_LIMIT)
  }

  lemma HeldFound(t: Tables, id: Id, x: Trigger)
    requires HistoryOk(t) && id in t.schedules && t.schedules[id].state == InFlight
    requires x in t.triggers && t.schedules[id].active == Some(x.id)
    ensures LastClaim(t.triggers, t.schedules[id]) == Some(x) && x.schedule == id && !OwnerSettled(t, x)
  {
    assert ScheduleOk(t.schedules[id], id, t.policies, t.definitions);
    HeldClaim(t, id);
    UniqueOwner(t.triggers, x, LastClaim(t.triggers, t.schedules[id]).value, x.id);
  }

  lemma SettledToFrom(t: Tables, id: Id, runtime: Id, issuer: int, now: nat)
    requires id in t.schedules && t.schedules[id].creation.policy in t.policies && t.schedules[id].nextDue.None?
    requires Current(t.schedules[id], t.policies, t.definitions, runtime, issuer, now)
             <==> InForce(t, t.schedules[id].creation.policy, runtime, issuer, now)
    requires NoRunAt(t.occurrences, t.schedules[id], t.policies[t.schedules[id].creation.policy], now + t.schedules[id].every)
             == EndOf(t, id, now + t.schedules[id].every)
    ensures SettledAs(t, t.schedules[id], runtime, issuer, now) == SettledTo(t, id, runtime, issuer, now)
  {
  }

  lemma SettledToIs(t: Tables, id: Id, runtime: Id, issuer: int, now: nat)
    requires HistoryOk(t) && RetainedOk(t) && id in t.schedules && t.schedules[id].state == InFlight
    ensures t.schedules[id].creation.policy in t.policies
    ensures SettledAs(t, t.schedules[id], runtime, issuer, now) == SettledTo(t, id, runtime, issuer, now)
  {
    assert ScheduleOk(t.schedules[id], id, t.policies, t.definitions);
    ScheduleInForce(t, id, runtime, issuer, now);
    EndIs(t, id, now + t.schedules[id].every);
    SettledToFrom(t, id, runtime, issuer, now);
  }

  /** Settling commits if and only if all this holds, and leaves exactly that schedule. */
  lemma SettleWhen(t: Tables, id: Id, x: Trigger, runtime: Id, issuer: int, now: nat)
    requires Sound(t) && id in t.schedules && t.schedules[id].state == InFlight
    requires x in t.triggers && t.schedules[id].active == Some(x.id)
    ensures t.schedules[id].creation.policy in t.policies
    ensures var s' := SettledTo(t, id, runtime, issuer, now);
            SettleSchedule(t, id, runtime, issuer, now)
            == if SettleAllowed(t, id, x, runtime, issuer, now) then Done(t.(schedules := t.schedules[id := s']), s') else Refused
  {
    HeldFound(t, id, x);
    ClaimOverIs(t, x);
    ScheduleInForce(t, id, runtime, issuer, now);
    SettledToIs(t, id, runtime, issuer, now);
    SettleExactly(t, id, runtime, issuer, now);
  }

  /** While the reserved job of a claim is live and not proven, failed and interrupted jobs included, the claim is
      not over, settling is refused, and so is every archive of it. */
  lemma UnprovenStays(t: Tables, x: Trigger, r: Reservation, runtime: Id, issuer: int, now: nat)
    requires Sound(t) && x in t.triggers && r in t.occurrences && r.command.operation == x.reservation
    requires r.command.job in t.jobs && !Proven(t.jobs[r.command.job])
    ensures x.schedule in t.schedules && (ClaimResolved(t, x) <==> OwnerSettled(t, x))
    ensures t.schedules[x.schedule].Holds(x.id) ==> SettleSchedule(t, x.schedule, runtime, issuer, now).Refused?
  {
    assert TriggerOk(x, t.schedules, t.policies);
    UnprovenRun(t, x, r);
    ClaimOverIs(t, x);
    if t.schedules[x.schedule].Holds(x.id) {
      SettleWhen(t, x.schedule, x, runtime, issuer, now);
    }
  }

  lemma UnprovenRun(t: Tables, x: Trigger, r: Reservation)
    requires RetainedOk(t) && ReceiptsDistinct(t.occurrences) && r in t.occurrences && r.command.operation == x.reservation
    requires r.command.job in t.jobs && !Proven(t.jobs[r.command.job])
    ensures !ClaimProven(t, x)
  {
    forall k | k in t.occurrences && k.command.operation == x.reservation ensures !RunProven(t, k) {
      UniqueReceipt(t.occurrences, k, r);
      forall a | a in t.archives && a.command.reservation == r.command.operation ensures false {
        ArchivedRun(t, r, a);
      }
    }
  }
}
