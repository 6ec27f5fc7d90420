/**
 What the ledger's checks mean, spelled out over the fields of the records alone, and the proof that in every
 reachable ledger each check says exactly that.
 */
module LedgerPlain {
  import opened Prelude
  import opened Records
  import opened Ledger
  import opened LedgerInvariant
  import opened LedgerSteps
  import opened LedgerRuns
  import opened LedgerTheorems
  import opened LedgerLaunch
  import opened LedgerClaims
  import opened LedgerOverlap
  import opened LedgerDue
  import opened LedgerOutcomes
  import opened LedgerAlone

  /** What every reachable ledger satisfies. */
  predicate Sound(t: Tables) {
    Inv(t) && ArchivesDelegated(t) && RequestsExact(t)
  }

  lemma ReachableIsSound(t: Tables)
    requires Reachable(t)
    ensures Sound(t)
  {
    var events :| t == Run(EMPTY, events);
    RunDelegated(events);
    RunRequests(events);
  }

  // ------------------------------------------------------------------ terminal evidence

  /** Every task of a completed job ran once to its end. */
  predicate AllDone(p: Plan) {
    && p.status == Completed && |p.tasks| >= 1
    && (forall i | 0 <= i < |p.tasks| :: p.tasks[i].status == TaskCompleted)
    && p.execution.Some? && p.execution.value.attempts == |p.tasks|
  }

  /** A cancelled job was never started. */
  predicate NothingDone(p: Plan) {
    && p.status == Cancelled && !p.results && (p.execution.Some? ==> p.execution.value.attempts == 0)
    && (forall i | 0 <= i < |p.tasks| ::
          && p.tasks[i].status == TaskCancelled && p.tasks[i].attempts == 0
          && !p.tasks[i].bound && !p.tasks[i].hasResult)
  }

  predicate Proven(p: Plan) { AllDone(p) || NothingDone(p) }

  lemma ResolvedIsProven(p: Plan)
    ensures Resolved(p) <==> Proven(p)
  {
    if Resolved(p) {
      forall i | 0 <= i < |p.tasks| ensures p.tasks[i] in p.tasks {
      }
    }
    if Proven(p) {
      forall task | task in p.tasks
        ensures if p.status == Completed then task.status == TaskCompleted else task == Task(TaskCancelled, 0, false, false)
      {
        var i :| 0 <= i < |p.tasks| && p.tasks[i] == task;
      }
    }
  }

  /** A reservation's job, archived or live, is proven. */
  predicate RunProven(t: Tables, r: Reservation) {
    || (exists a | a in t.archives :: a.command.reservation == r.command.operation && Proven(a.terminal))
    || (r.command.job in t.jobs && Proven(t.jobs[r.command.job]))
  }

  lemma ArchivedRun(t: Tables, r: Reservation, a: Archive)
    requires RetainedOk(t) && ReceiptsDistinct(t.occurrences) && r in t.occurrences
    requires a in t.archives && a.command.reservation == r.command.operation
    ensures Proven(a.terminal) && r.command.job !in t.jobs && a.terminal.approval == r.snapshot.approval && LiveMatches(r, a.terminal)
  {
    assert ArchiveOk(a, t);
    UniqueReceipt(t.occurrences, r, OccurrenceById(t.occurrences, r.Id()).value);
    ResolvedIsProven(a.terminal);
  }

  lemma RunProvenIs(t: Tables, r: Reservation)
    requires RetainedOk(t) && ReceiptsDistinct(t.occurrences) && r in t.occurrences
    ensures ReservationResolved(r, t.jobs, t.archives) <==> RunProven(t, r)
  {
    assert RetainedPlan(r, t.jobs, t.archives).Some?;
    ResolvedIsProven(RetainedPlan(r, t.jobs, t.archives).value);
    if ArchiveOf(t.archives, r.Id()).Some? {
      ArchivedRun(t, r, ArchiveOf(t.archives, r.Id()).value);
    }
  }

  /** All runs of a definition are proven, under whichever of its policies they were reserved. */
  predicate RunsProven(t: Tables, definition: Id) {
    forall r | r in t.occurrences && r.command.policy in t.policies && t.policies[r.command.policy].creation.definition == definition ::
      RunProven(t, r)
  }

  lemma RunsProvenIs(t: Tables, definition: Id)
    requires RetainedOk(t) && ReceiptsDistinct(t.occurrences)
    ensures DefinitionResolved(t, definition) <==> RunsProven(t, definition)
  {
    forall r | r in t.occurrences
      ensures r.command.policy in t.policies && r.delegation.definition == t.policies[r.command.policy].creation.definition
      ensures ReservationResolved(r, t.jobs, t.archives) <==> RunProven(t, r)
    {
      assert OccurrenceOk(r, t);
      RunProvenIs(t, r);
    }
  }

  // ------------------------------------------------------------------ claims

  /** An owner accepted the refusal of this claim. */
  predicate OwnerSettled(t: Tables, x: Trigger) {
    && x.schedule in t.schedules && t.schedules[x.schedule].resolution.Some?
    && t.schedules[x.schedule].resolution.value.trigger == x.id
  }

  predicate Unreserved(t: Tables, x: Trigger) {
    forall r | r in t.occurrences :: r.command.operation != x.reservation
  }

  predicate OnlyJob(t: Tables, x: Trigger, id: Id) {
    && id in t.jobs && t.jobs[id].context == Some(x.context)
    && (forall k | k in t.jobs && t.jobs[k].context == Some(x.context) :: k == id)
  }

  /** The claim's reservation is proven, or it has none and its only job was cancelled before any approval. */
  predicate ClaimProven(t: Tables, x: Trigger) {
    || (exists r | r in t.occurrences :: r.command.operation == x.reservation && RunProven(t, r))
    || (Unreserved(t, x)
        && exists id | id in t.jobs ::
             OnlyJob(t, x, id) && NothingDone(t.jobs[id]) && t.jobs[id].approval.None? && t.jobs[id].execution.None?)
  }

  lemma BackedIs(t: Tables, x: Trigger)
    requires RetainedOk(t) && ReceiptsDistinct(t.occurrences)
    ensures Backed(t, x) <==> exists r | r in t.occurrences :: r.command.operation == x.reservation && RunProven(t, r)
  {
    var found := OccurrenceById(t.occurrences, x.reservation);
    if found.Some? {
      RunProvenIs(t, found.value);
      forall r | r in t.occurrences && r.command.operation == x.reservation ensures r == found.value {
        UniqueReceipt(t.occurrences, r, found.value);
      }
    }
  }

  lemma UnissuedIs(t: Tables, x: Trigger, id: Id)
    ensures Unissued(t, x, id) <==>
            Unreserved(t, x) && OnlyJob(t, x, id) && NothingDone(t.jobs[id]) && t.jobs[id].approval.None? && t.jobs[id].execution.None?
  {
    if id in t.jobs {
      ResolvedIsProven(t.jobs[id]);
      assert id in SourceJobs(t.jobs, x.context) <==> t.jobs[id].context == Some(x.context);
    }
    if Unissued(t, x, id) {
      assert id in SourceJobs(t.jobs, x.context);
      forall k | k in t.jobs && t.jobs[k].context == Some(x.context) ensures k == id {
        assert k in SourceJobs(t.jobs, x.context);
      }
    }
  }

  /** Outside accepted refusals, a claim is over exactly with proven evidence. */
  lemma ClaimOverIs(t: Tables, x: Trigger)
    requires RetainedOk(t) && ReceiptsDistinct(t.occurrences) && JobsOk(t) && ArchivesDelegated(t) && x.schedule in t.schedules
    ensures ClaimResolved(t, x) <==> OwnerSettled(t, x) || ClaimProven(t, x)
  {
    OverExactly(t, x);
    BackedIs(t, x);
    forall id ensures Unissued(t, x, id) <==>
      Unreserved(t, x) && OnlyJob(t, x, id) && NothingDone(t.jobs[id]) && t.jobs[id].approval.None? && t.jobs[id].execution.None?
    {
      UnissuedIs(t, x, id);
    }
  }

  /** In every reachable ledger a claim counts as over exactly when an owner accepted its refusal, or its evidence
      is proven. */
  lemma ClaimsEndProven(t: Tables, x: Trigger)
    requires Sound(t) && x in t.triggers
    ensures x.schedule in t.schedules && (ClaimResolved(t, x) <==> OwnerSettled(t, x) || ClaimProven(t, x))
  {
    assert TriggerOk(x, t.schedules, t.policies);
    ClaimOverIs(t, x);
  }

  /** No reservation and no job exists for the claim. */
  predicate NoWork(t: Tables, x: Trigger) {
    Unreserved(t, x) && forall id | id in t.jobs :: t.jobs[id].context != Some(x.context)
  }

  lemma NoWorkIs(t: Tables, x: Trigger)
    ensures SourceJob(t, x).Missing? <==> NoWork(t, x)
  {
    assert forall id | id in t.jobs && t.jobs[id].context == Some(x.context) :: id in SourceJobs(t.jobs, x.context);
  }

  // ------------------------------------------------------------------ authority

  /** The policy is in force: not revoked, its definition not removed, none of a later generation, of this
      runtime and issuer, and inside its window. */
  predicate InForce(t: Tables, policy: Id, runtime: Id, issuer: int, now: nat) {
    && policy in t.policies && t.policies[policy].creation.definition in t.definitions
    && t.definitions[t.policies[policy].creation.definition].removal.None?
    && t.policies[policy].revocation.None?
    && t.policies[policy].runtime == runtime && t.policies[policy].issuer == issuer
    && t.policies[policy].approvedAt <= now < t.policies[policy].approvedAt + t.policies[policy].creation.validFor
    && (forall q | q in t.policies && t.policies[q].creation.definition == t.policies[policy].creation.definition ::
          t.policies[q].generation <= t.policies[policy].generation)
  }

  lemma InForceIs(t: Tables, policy: Id, runtime: Id, issuer: int, now: nat)
    requires policy in t.policies && PolicyOk(t.policies[policy], policy, t.definitions)
    ensures var p := t.policies[policy];
            CurrentAt(p, t.definitions[p.creation.definition], t.policies, runtime, issuer, now) <==> InForce(t, policy, runtime, issuer, now)
  {
    var p := t.policies[policy];
    assert HasGeneration(t.policies, p.creation.definition, p.generation);
  }

  lemma ScheduleInForce(t: Tables, id: Id, runtime: Id, issuer: int, now: nat)
    requires HistoryOk(t) && id in t.schedules
    ensures Current(t.schedules[id], t.policies, t.definitions, runtime, issuer, now)
            <==> InForce(t, t.schedules[id].creation.policy, runtime, issuer, now)
  {
    var s := t.schedules[id];
    assert ScheduleOk(s, id, t.policies, t.definitions);
    assert PolicyOk(t.policies[s.creation.policy], s.creation.policy, t.definitions);
    InForceIs(t, s.creation.policy, runtime, issuer, now);
  }

  // ------------------------------------------------------------------ budgets

  /** The positions of a policy's reservations in the log. */
  function RunsUnder(t: Tables, policy: Id): set<nat> {
    set i | 0 <= i < |t.occurrences| && t.occurrences[i].command.policy == policy
  }

  /** One more run, at the full cost of every operation, fits all three approved budgets. */
  predicate Affordable(t: Tables, policy: Id)
    requires policy in t.policies
  {
    var p := t.policies[policy];
    var n := |RunsUnder(t, policy)|;
    && n < p.creation.maxRuns
    && (n + 1) * (p.scope.operations * p.creation.limits.executionMs) <= p.creation.maxExecutionMs
    && (n + 1) * (p.scope.operations * p.creation.limits.resultBytes) <= p.creation.maxResultBytes
  }

  function Hits<T>(log: seq<T>, hit: T -> bool): set<nat> {
    set i | 0 <= i < |log| && hit(log[i])
  }

  lemma {:induction false} CountIsSize<T>(log: seq<T>, hit: T -> bool)
    ensures Count(log, hit) == |Hits(log, hit)|
  {
    if log != [] {
      var n := |log| - 1;
      CountIsSize(log[..n], hit);
      if hit(log[n]) {
        assert Hits(log, hit) == Hits(log[..n], hit) + {n};
      } else {
        assert Hits(log, hit) == Hits(log[..n], hit);
      }
    }
  }

  lemma Distribute(n: nat, w: nat)
    ensures (n + 1) * w == n * w + w
  {
  }

  lemma {:induction false} SumIsUniform<T>(log: seq<T>, hit: T -> bool, weight: T -> nat, w: nat)
    requires forall x | x in log :: weight(x) == if hit(x) then w else 0
    ensures Sum(log, weight) == Count(log, hit) * w
  {
    if log != [] {
      var n := |log| - 1;
      SumIsUniform(log[..n], hit, weight, w);
      Distribute(Count(log[..n], hit), w);
      assert log[n] in log;
    }
  }

  /** What a policy's runs have used is their number times the full cost of a run. */
  lemma UsedIsUniform(t: Tables, policy: Id)
    requires RetainedOk(t) && PoliciesOk(t.policies, t.definitions) && policy in t.policies
    ensures var p := t.policies[policy];
            var n := |RunsUnder(t, policy)|;
            && Runs(t.occurrences, policy) == n
            && UsedMs(t.occurrences, policy) == n * (p.scope.operations * p.creation.limits.executionMs)
            && UsedBytes(t.occurrences, policy) == n * (p.scope.operations * p.creation.limits.resultBytes)
  {
    var p := t.policies[policy];
    forall r | r in t.occurrences
      ensures r.delegation.policy == r.command.policy
      ensures r.command.policy == policy ==> r.executionMs == AllowanceMs(p) && r.resultBytes == AllowanceBytes(p)
    {
      assert OccurrenceOk(r, t);
    }
    CountIsSize(t.occurrences, OfPolicy(policy));
    assert Hits(t.occurrences, OfPolicy(policy)) == RunsUnder(t, policy);
    SumIsUniform(t.occurrences, OfPolicy(policy), MsOf(policy), AllowanceMs(p));
    SumIsUniform(t.occurrences, OfPolicy(policy), BytesOf(policy), AllowanceBytes(p));
  }

  lemma FitsWithin(used: nat, cost: nat, most: nat)
    requires cost >= 1
    ensures cost <= SaturatingSub(most, used) <==> used + cost <= most
  {
  }

  lemma AffordableIs(t: Tables, policy: Id)
    requires RetainedOk(t) && PoliciesOk(t.policies, t.definitions) && policy in t.policies
    ensures AllowanceAvailable(t.occurrences, t.policies[policy]) <==> Affordable(t, policy)
  {
    var p := t.policies[policy];
    assert PolicyOk(p, policy, t.definitions);
    UsedIsUniform(t, policy);
    AllowancesPositive(p);
    FitsWithin(UsedMs(t.occurrences, policy), AllowanceMs(p), p.creation.maxExecutionMs);
    FitsWithin(UsedBytes(t.occurrences, policy), AllowanceBytes(p), p.creation.maxResultBytes);
    Distribute(|RunsUnder(t, policy)|, AllowanceMs(p));
    Distribute(|RunsUnder(t, policy)|, AllowanceBytes(p));
  }

  /** Over every reachable ledger the runs of a policy, at their full cost, stay within all three budgets. */
  lemma WithinBudgets(t: Tables, policy: Id)
    requires Sound(t) && policy in t.policies
    ensures var p := t.policies[policy];
            var n := |RunsUnder(t, policy)|;
            && n <= p.creation.maxRuns
            && n * (p.scope.operations * p.creation.limits.executionMs) <= p.creation.maxExecutionMs
            && n * (p.scope.operations * p.creation.limits.resultBytes) <= p.creation.maxResultBytes
  {
    assert PolicyOk(t.policies[policy], policy, t.definitions) && GroupOk(t.occurrences, t.policies[policy]);
    UsedIsUniform(t, policy);
  }

  // ------------------------------------------------------------------ scope

  /** The plan runs the approved operations on the approved input, from the approved origin, for another request. */
  predicate InScope(plan: Plan, p: Policy) {
    && plan.context.Some? && plan.planning.Some?
    && plan.planning.value.input == p.scope.input && plan.planning.value.operations == p.scope.operations
    && plan.context.value.node == p.scope.owner.node && plan.context.value.area == p.scope.owner.area
    && plan.context.value.request != p.scope.owner.request
  }

  lemma InScopeIs(plan: Plan, p: Policy)
    requires ValidPolicy(p)
    ensures MatchingScope(plan, p) <==> InScope(plan, p)
  {
  }

  /** In every reachable ledger the approved job of a reservation, its live job and its archived evidence all stay
      within the scope that the policy approved. */
  lemma ReservedInScope(t: Tables, r: Reservation)
    requires Sound(t) && r in t.occurrences
    ensures r.command.policy in t.policies
    ensures InScope(r.snapshot, t.policies[r.command.policy])
    ensures r.command.job in t.jobs ==> InScope(t.jobs[r.command.job], t.policies[r.command.policy])
    ensures forall a | a in t.archives && a.command.reservation == r.command.operation :: InScope(a.terminal, t.policies[r.command.policy])
  {
    ScopeKept(t, r);
  }

  lemma ScopeFollows(r: Reservation, plan: Plan, p: Policy)
    requires LiveMatches(r, plan) && InScope(r.snapshot, p)
    ensures InScope(plan, p)
  {
  }

  lemma ScopeKept(t: Tables, r: Reservation)
    requires PoliciesOk(t.policies, t.definitions) && RetainedOk(t) && ReceiptsDistinct(t.occurrences) && JobsOk(t) && r in t.occurrences
    ensures r.command.policy in t.policies
    ensures InScope(r.snapshot, t.policies[r.command.policy])
    ensures r.command.job in t.jobs ==> InScope(t.jobs[r.command.job], t.policies[r.command.policy])
    ensures forall a | a in t.archives && a.command.reservation == r.command.operation :: InScope(a.terminal, t.policies[r.command.policy])
  {
    assert OccurrenceOk(r, t);
    var p := t.policies[r.command.policy];
    assert PolicyOk(p, r.command.policy, t.definitions);
    InScopeIs(r.snapshot, p);
    if r.command.job in t.jobs {
      assert JobOk(t.jobs[r.command.job], r.command.job, t);
      ArchivedLive(t, r);
      ScopeFollows(r, t.jobs[r.command.job], p);
    }
    forall a | a in t.archives && a.command.reservation == r.command.operation ensures InScope(a.terminal, p) {
      ArchivedRun(t, r, a);
      ScopeFollows(r, a.terminal, p);
    }
  }
}
