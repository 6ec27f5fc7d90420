/** How a checkpoint reaches its next state when nothing stands in its way, for building concrete runs. */
module LedgerWitness {
  import opened Prelude
  import opened Records
  import opened Ledger
  import opened LedgerInvariant
  import opened LedgerRuns
  import opened LedgerTheorems
  import opened LedgerCalls
  import opened LedgerReceipts

  lemma EmptyReached()
    ensures Reachable(EMPTY)
  {
    assert EMPTY == Run(EMPTY, []);
  }

  /** A ledger without reservations and archives, on which jobs are checked against claims alone. */
  predicate Early(t: Tables) { t.occurrences == [] && t.archives == [] }

  lemma EarlyJob(t: Tables, plan: Plan)
    requires Early(t) && plan.approval.None?
    ensures JobOk(plan, plan.id, t)
  {
  }

  lemma AdmitReaches(t: Tables, plan: Plan, now: nat)
    requires Reachable(t) && Early(t) && FreshPlan(plan) && plan.context.Some? && plan.id !in t.jobs
    requires SameRequestJobs(t.jobs, plan.context.value) == {} && SourceAuthority(t, plan.context.value, now)
    ensures Reachable(t.(jobs := t.jobs[plan.id := plan.(revision := 1, updatedAt := now)]))
  {
    assert InsertJob(t, plan, now, true).Done?;
    assert AdmitRequest(t, plan, true, now, true).Done?;
    ReachableStep(t, AdmitEvent(plan, true, now, true));
  }

  lemma EditReaches(t: Tables, id: Id, edited: Plan, now: nat)
    requires Reachable(t) && Early(t) && id in t.jobs && Editable(t.jobs[id], edited) && !Resolved(t.jobs[id])
    requires edited.approval.None? && edited.revision == t.jobs[id].revision + 1 < U64_LIMIT
    requires edited.context.Some? && SourceAuthority(t, edited.context.value, now)
    ensures Reachable(t.(jobs := t.jobs[id := edited]))
  {
    ReachableInv(t);
    assert JobOk(t.jobs[id], id, t);
    EarlyJob(t, edited);
    assert edited.(revision := t.jobs[id].revision + 1) == edited;
    assert EditJob(t, id, edited, None, now, true) == Done(t.(jobs := t.jobs[id := edited]), edited);
    ReachableStep(t, EditEvent(id, edited, None, now, true));
  }

  lemma DefineReaches(t: Tables, c: Define, now: nat, sha: int, d: Definition)
    requires Reachable(t) && ValidDefine(c) && c.operation !in t.definitions && c.job in t.jobs && now > 0
    requires t.jobs[c.job].context.Some? && DefinableFrom(c, t.jobs[c.job])
    requires d == Definition(c.operation, t.jobs[c.job].context.value, now, c, sha, t.jobs[c.job], None)
    ensures Reachable(t.(definitions := t.definitions[d.id := d]))
  {
    ReachableInv(t);
    assert JobOk(t.jobs[c.job], c.job, t);
    ReachableStep(t, DefineEvent(c, now, sha, true));
  }

  lemma ApproveReaches(t: Tables, p: Policy, d: Definition, now: nat)
    requires Reachable(t) && p.id !in t.policies && p.runtime != NIL && p.revocation.None? && ValidPolicy(p)
    requires p.creation.definition in t.definitions && t.definitions[p.creation.definition] == d && d.removal.None?
    requires PolicyFits(p, d) && Latest(t.policies, p.creation.definition, p.creation.generation)
    requires p.approvedAt <= now < p.expiresAt
    ensures Reachable(t.(policies := t.policies[p.id := p]))
  {
    ReachableInv(t);
    assert ApprovePolicy(t, p, p.runtime, now, true).Done?;
    ReachableStep(t, ApproveEvent(p, p.runtime, now, true));
  }

  lemma ArmFollows(t: Tables, c: Arm, p: Policy, d: Definition, now: nat)
    requires HistoryOk(t) && RetainedOk(t) && Early(t) && t.schedules == map[] && t.triggers == []
    requires c.operation != NIL && c.policy != NIL && c.operation != c.policy && p.runtime != NIL
    requires c.policy in t.policies && t.policies[c.policy] == p && c.policySha == p.sha && AllowanceAvailable([], p)
    requires p.creation.definition in t.definitions && t.definitions[p.creation.definition] == d
    requires now + d.creation.every < U64_LIMIT && AllowanceMs(p) <= SaturatingSub(p.expiresAt, now + d.creation.every)
    requires CurrentAt(p, d, t.policies, p.runtime, p.issuer, now)
    requires ScheduleOk(NewSchedule(c, p, d, p.runtime, p.issuer, now), c.operation, t.policies, t.definitions)
    ensures var s := NewSchedule(c, p, d, p.runtime, p.issuer, now);
            ArmSchedule(t, c, p.runtime, p.issuer, now, now, true) == Done(t.(schedules := map[c.operation := s]), (s, false))
  {
    var s := NewSchedule(c, p, d, p.runtime, p.issuer, now);
    assert Current(s, t.policies, t.definitions, p.runtime, p.issuer, now);
    assert NoOverlap(t, p.creation.definition) && DefinitionResolved(t, p.creation.definition);
    assert t.schedules[s.Id() := s] == map[c.operation := s];
  }

  lemma ArmReaches(t: Tables, c: Arm, p: Policy, d: Definition, now: nat)
    requires Reachable(t) && Early(t) && t.schedules == map[] && t.triggers == []
    requires c.operation != NIL && c.policy != NIL && c.operation != c.policy && p.runtime != NIL
    requires c.policy in t.policies && t.policies[c.policy] == p && c.policySha == p.sha && AllowanceAvailable([], p)
    requires p.creation.definition in t.definitions && t.definitions[p.creation.definition] == d
    requires now + d.creation.every < U64_LIMIT && AllowanceMs(p) <= SaturatingSub(p.expiresAt, now + d.creation.every)
    requires CurrentAt(p, d, t.policies, p.runtime, p.issuer, now)
    requires ScheduleOk(NewSchedule(c, p, d, p.runtime, p.issuer, now), c.operation, t.policies, t.definitions)
    ensures Reachable(t.(schedules := map[c.operation := NewSchedule(c, p, d, p.runtime, p.issuer, now)]))
  {
    ReachableInv(t);
    ArmFollows(t, c, p, d, now);
    ReachableStep(t, ArmEvent(c, p.runtime, p.issuer, now, now, true));
  }

  /** Everything a claim at its due time needs. */
  ghost predicate Claimable(t: Tables, s: Schedule, p: Policy, ids: FreshIds, now: nat, x: Trigger, t': Tables) {
    && s.Id() in t.schedules && t.schedules[s.Id()] == s && s.state == Waiting && s.nextDue == Some(now)
    && s.creation.policy in t.policies && t.policies[s.creation.policy] == p
    && DefinitionResolved(t, s.definition) && AllowanceAvailable(t.occurrences, p)
    && s.claimed < p.creation.maxRuns && AllowanceMs(p) <= SaturatingSub(s.expiresAt, now)
    && Generated(t, ids) && x == NewTrigger(s, p, ids, now, now)
    && t' == t.(schedules := t.schedules[s.Id() := ClaimedAt(s, x.id, now)], triggers := t.triggers + [x])
    && s.observedAt <= now && s.every > 0 && now + s.every < U64_LIMIT && s.revision + 1 < U64_LIMIT
    && ScheduleOk(ClaimedAt(s, x.id, now), s.Id(), t.policies, t.definitions)
    && Current(s, t.policies, t.definitions, p.runtime, p.issuer, now)
  }

  lemma StageFollows(t: Tables, s: Schedule, p: Policy, ids: FreshIds, now: nat, x: Trigger, t': Tables)
    requires HistoryOk(t') && Claimable(t, s, p, ids, now, x, t')
    ensures StageClaim(t, s, p, p.runtime, p.issuer, now, now, ids, true) == Done(t', Some(x))
  {
  }

  lemma WithinFollows(t: Tables, s: Schedule, p: Policy, ids: FreshIds, now: nat, x: Trigger, t': Tables)
    requires OccurrencesOk(t) && Claimable(t, s, p, ids, now, x, t')
    requires StageClaim(t, s, p, p.runtime, p.issuer, now, now, ids, true) == Done(t', Some(x))
    ensures ClaimWithin(t, s, p.runtime, p.issuer, now, now, ids, true) == Done(t', Some(x))
  {
  }

  lemma ClaimFollows(t: Tables, s: Schedule, p: Policy, ids: FreshIds, now: nat, x: Trigger, t': Tables)
    requires HistoryOk(t) && RetainedOk(t) && HistoryOk(t') && Claimable(t, s, p, ids, now, x, t')
    ensures ClaimDue(t, s.Id(), p.runtime, p.issuer, now, now, ids, true) == Done(t', Some(x))
  {
    StageFollows(t, s, p, ids, now, x, t');
    WithinFollows(t, s, p, ids, now, x, t');
  }

  lemma ClaimStep(t: Tables, id: Id, runtime: Id, issuer: int, now: nat, ids: FreshIds, t': Tables, x: Trigger)
    requires Reachable(t) && ClaimDue(t, id, runtime, issuer, now, now, ids, true) == Done(t', Some(x))
    ensures Reachable(t')
  {
    ClaimApplies(t, ClaimEvent(id, runtime, issuer, now, now, ids, true));
    ReachedBy(t, ClaimEvent(id, runtime, issuer, now, now, ids, true), ClaimDue(t, id, runtime, issuer, now, now, ids, true));
  }

  lemma SettleStep(t: Tables, id: Id, runtime: Id, issuer: int, now: nat, t': Tables, s: Schedule)
    requires Reachable(t) && SettleSchedule(t, id, runtime, issuer, now) == Done(t', s)
    ensures Reachable(t')
  {
    SettleApplies(t, SettleEvent(id, runtime, issuer, now));
    ReachedBy(t, SettleEvent(id, runtime, issuer, now), SettleSchedule(t, id, runtime, issuer, now));
  }

  lemma Checked(t: Tables)
    requires Reachable(t)
    ensures HistoryOk(t) && RetainedOk(t)
  {
    ReachableInv(t);
  }

  lemma ClaimReaches(t: Tables, s: Schedule, p: Policy, ids: FreshIds, now: nat, x: Trigger, t': Tables)
    requires Reachable(t) && HistoryOk(t') && Claimable(t, s, p, ids, now, x, t')
    ensures ClaimDue(t, s.Id(), p.runtime, p.issuer, now, now, ids, true) == Done(t', Some(x)) && Reachable(t')
  {
    Checked(t);
    ClaimFollows(t, s, p, ids, now, x, t');
    ClaimStep(t, s.Id(), p.runtime, p.issuer, now, ids, t', x);
  }

  lemma SettlingRearms(t: Tables, s: Schedule, p: Policy, now: nat)
    requires OccurrencesOk(t) && s.observedAt <= now && now + s.every < U64_LIMIT
    requires Current(s, t.policies, t.definitions, p.runtime, p.issuer, now) && t.policies[s.creation.policy] == p
    requires AllowanceAvailable(t.occurrences, p) && s.claimed < p.creation.maxRuns
    requires AllowanceMs(p) <= SaturatingSub(s.expiresAt, now + s.every)
    ensures Settling(t, s, p.runtime, p.issuer, now) == Some(Rearmed(s, now))
  {
  }

  lemma SettleFollows(t: Tables, s: Schedule, p: Policy, now: nat, x: Trigger)
    requires HistoryOk(t) && RetainedOk(t) && s.Id() in t.schedules && t.schedules[s.Id()] == s
    requires s.state == InFlight && s.active.Some? && TriggerById(t.triggers, s.active.value) == Some(x) && ClaimResolved(t, x)
    requires s.observedAt <= now && now + s.every < U64_LIMIT && s.revision + 1 < U64_LIMIT
    requires Current(s, t.policies, t.definitions, p.runtime, p.issuer, now) && t.policies[s.creation.policy] == p
    requires AllowanceAvailable(t.occurrences, p) && s.claimed < p.creation.maxRuns
    requires AllowanceMs(p) <= SaturatingSub(s.expiresAt, now + s.every)
    requires ScheduleOk(Rearmed(s, now), s.Id(), t.policies, t.definitions)
    ensures SettleSchedule(t, s.Id(), p.runtime, p.issuer, now) == Done(t.(schedules := t.schedules[s.Id() := Rearmed(s, now)]), Rearmed(s, now))
  {
    SettlingRearms(t, s, p, now);
  }

  lemma SettleReaches(t: Tables, s: Schedule, p: Policy, now: nat, x: Trigger)
    requires Reachable(t) && s.Id() in t.schedules && t.schedules[s.Id()] == s
    requires s.state == InFlight && s.active.Some? && TriggerById(t.triggers, s.active.value) == Some(x) && ClaimResolved(t, x)
    requires s.observedAt <= now && now + s.every < U64_LIMIT && s.revision + 1 < U64_LIMIT
    requires Current(s, t.policies, t.definitions, p.runtime, p.issuer, now) && t.policies[s.creation.policy] == p
    requires AllowanceAvailable(t.occurrences, p) && s.claimed < p.creation.maxRuns
    requires AllowanceMs(p) <= SaturatingSub(s.expiresAt, now + s.every)
    requires ScheduleOk(Rearmed(s, now), s.Id(), t.policies, t.definitions)
    ensures Reachable(t.(schedules := t.schedules[s.Id() := Rearmed(s, now)]))
  {
    Checked(t);
    SettleFollows(t, s, p, now, x);
    SettleStep(t, s.Id(), p.runtime, p.issuer, now, t.(schedules := t.schedules[s.Id() := Rearmed(s, now)]), Rearmed(s, now));
  }

  /** Everything a reservation needs, staged result included. */
  predicate Stageable(t: Tables, c: Reserve, p: Policy, d: Definition, plan: Plan, now: nat, sha: int, r: Reservation, t': Tables) {
    && ValidReserve(c) && p.runtime != NIL && OccurrenceById(t.occurrences, c.operation).None?
    && c.policy in t.policies && t.policies[c.policy] == p && c.job in t.jobs && t.jobs[c.job] == plan
    && p.creation.definition in t.definitions && t.definitions[p.creation.definition] == d
    && Reservable(t, c, p, d, plan, p.runtime, p.issuer, now)
    && r == NewRun(t, c, p, plan, p.runtime, p.issuer, now, now, sha)
    && t' == t.(jobs := t.jobs[c.job := r.snapshot], occurrences := t.occurrences + [r])
    && OccurrenceOk(r, t)
  }

  lemma ReserveFollows(t: Tables, c: Reserve, p: Policy, d: Definition, plan: Plan, now: nat, sha: int, r: Reservation, t': Tables)
    requires OccurrencesOk(t) && JobsOk(t) && Stageable(t, c, p, d, plan, now, sha, r, t')
    requires RunCommits(t', r, p, d, p.runtime, p.issuer, now)
    ensures ReserveRun(t, c, p.runtime, p.issuer, now, now, now, sha, true) == Done(t', (r, false))
  {
    assert JobOk(plan, c.job, t);
    assert StageRun(t, c, p, d, plan, p.runtime, p.issuer, now, now, now, sha, true) == Done(t', (r, false));
  }

  lemma ReserveReached(t: Tables, c: Reserve, runtime: Id, issuer: int, now: nat, sha: int, t': Tables, r: Reservation)
    requires Reachable(t) && ReserveRun(t, c, runtime, issuer, now, now, now, sha, true) == Done(t', (r, false))
    ensures Apply(t, ReserveEvent(c, runtime, issuer, now, now, now, sha, true)) == t' && Reachable(t')
  {
    ReserveApplies(t, ReserveEvent(c, runtime, issuer, now, now, now, sha, true));
    ReachedBy(t, ReserveEvent(c, runtime, issuer, now, now, now, sha, true), ReserveRun(t, c, runtime, issuer, now, now, now, sha, true));
  }

  lemma InsertReached(t: Tables, plan: Plan, now: nat)
    requires Reachable(t) && InsertJob(t, plan, now, true).Done?
    ensures Apply(t, InsertEvent(plan, now, true)) == InsertJob(t, plan, now, true).tables
    ensures Reachable(InsertJob(t, plan, now, true).tables)
  {
    ReachedBy(t, InsertEvent(plan, now, true), InsertJob(t, plan, now, true));
  }
}
