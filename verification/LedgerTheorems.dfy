/** The ledger's promises over whole runs: budgets, pacing, no replay, no refund, exact receipts. */
module LedgerTheorems {
  import opened Prelude
  import opened Records
  import opened Ledger
  import opened LedgerInvariant
  import opened LedgerSteps
  import opened LedgerRuns
  import opened LedgerEvolution

  ghost predicate Reachable(t: Tables) {
    exists events :: t == Run(EMPTY, events)
  }

  lemma ReachableInv(t: Tables)
    requires Reachable(t)
    ensures Inv(t)
  {
    var events :| t == Run(EMPTY, events);
    EmptyInv();
    RunKeeps(EMPTY, events);
  }

  /** A later state satisfies the invariant again and has undone nothing. */
  lemma Later(t: Tables, events: seq<Event>)
    requires Reachable(t)
    ensures Inv(t) && Inv(Run(t, events)) && Evolves(t, Run(t, events))
  {
    ReachableInv(t);
    RunKeeps(t, events);
    RunEvolves(t, events);
  }

  // ------------------------------------------------------------------ budgets

  ghost predicate HasRun(occurrences: seq<Reservation>, policy: Id, k: nat) {
    exists r | r in occurrences :: r.delegation.policy == policy && r.ordinal == k
  }

  /** Ordinals are exactly 1..n, n is within the approved runs, and so are both totals. */
  lemma BudgetsHold(t: Tables, policy: Id)
    requires Reachable(t) && policy in t.policies
    ensures Runs(t.occurrences, policy) <= t.policies[policy].creation.maxRuns
    ensures UsedMs(t.occurrences, policy) <= t.policies[policy].creation.maxExecutionMs
    ensures UsedBytes(t.occurrences, policy) <= t.policies[policy].creation.maxResultBytes
    ensures forall k | 1 <= k <= Runs(t.occurrences, policy) :: HasRun(t.occurrences, policy, k)
    ensures forall r | r in t.occurrences && r.delegation.policy == policy ::
              1 <= r.ordinal <= Runs(t.occurrences, policy)
    ensures forall i, j | 0 <= i < j < |t.occurrences| :: !SameRun(t.occurrences[i], t.occurrences[j])
  {
    ReachableInv(t);
    assert PolicyOk(t.policies[policy], policy, t.definitions) && GroupOk(t.occurrences, t.policies[policy]);
    AllRuns(t.occurrences, policy);
  }

  lemma AllRuns(occurrences: seq<Reservation>, policy: Id)
    requires NumberedRuns(occurrences)
    ensures forall k | 1 <= k <= Runs(occurrences, policy) :: HasRun(occurrences, policy, k)
  {
    forall k | 1 <= k <= Runs(occurrences, policy) ensures HasRun(occurrences, policy, k) {
      var i := NthHit(occurrences, OfPolicy(policy), k);
      assert occurrences[i] in occurrences;
    }
  }

  /** No step, in any order, ever gives reserved budget back. */
  lemma NoRefund(t: Tables, events: seq<Event>, policy: Id)
    requires Reachable(t)
    ensures UsedMs(t.occurrences, policy) <= UsedMs(Run(t, events).occurrences, policy)
    ensures UsedBytes(t.occurrences, policy) <= UsedBytes(Run(t, events).occurrences, policy)
    ensures t.occurrences <= Run(t, events).occurrences
  {
    Later(t, events);
    SumPrefix(t.occurrences, Run(t, events).occurrences, MsOf(policy));
    SumPrefix(t.occurrences, Run(t, events).occurrences, BytesOf(policy));
  }

  // ------------------------------------------------------------------ pacing

  /** The k-th claim happens inside its own window, at least k periods after arming. */
  lemma ClaimsArePaced(t: Tables, x: Trigger)
    requires Reachable(t) && x in t.triggers
    ensures x.schedule in t.schedules
    ensures var s := t.schedules[x.schedule];
            && s.armedAt + x.ordinal * s.every <= x.dueAt <= x.claimedAt < x.dueAt + s.every
            && x.ordinal * s.every < s.expiresAt - s.armedAt
  {
    ReachableInv(t);
    assert TriggerOk(x, t.schedules, t.policies);
    assert Paced(t.schedules[x.schedule], t.triggers);
  }

  lemma LaterSpaced(triggers: seq<Trigger>, schedules: map<Id, Schedule>, x: Trigger, y: Trigger)
    requires AllSpaced(triggers, schedules) && x in triggers && y in triggers
    requires x.schedule == y.schedule && x.schedule in schedules && x.ordinal < y.ordinal
    ensures x.claimedAt + schedules[x.schedule].every <= y.dueAt
  {
    var i :| 0 <= i < |triggers| && triggers[i] == x;
    var j :| 0 <= j < |triggers| && triggers[j] == y;
    assert forall a, b | 0 <= a < b < |triggers| :: Spaced(triggers[a], triggers[b], schedules);
  }

  /** Two claims of one schedule are at least one period apart: there is no catch-up claim. */
  lemma ClaimsAreSpaced(t: Tables, x: Trigger, y: Trigger)
    requires Reachable(t) && x in t.triggers && y in t.triggers && x.schedule == y.schedule && x.ordinal < y.ordinal
    ensures x.schedule in t.schedules
    ensures x.claimedAt + t.schedules[x.schedule].every <= y.dueAt <= y.claimedAt
  {
    ReachableInv(t);
    assert TriggerOk(x, t.schedules, t.policies) && TriggerOk(y, t.schedules, t.policies);
    LaterSpaced(t.triggers, t.schedules, x, y);
  }

  ghost predicate HasClaim(triggers: seq<Trigger>, schedule: Id, k: nat) {
    exists x | x in triggers :: x.schedule == schedule && x.ordinal == k
  }

  /** The claims of a schedule are numbered exactly 1..claimed. */
  lemma ClaimsAreNumbered(t: Tables, id: Id)
    requires Reachable(t) && id in t.schedules
    ensures forall k | 1 <= k <= t.schedules[id].claimed :: HasClaim(t.triggers, id, k)
    ensures forall x | x in t.triggers && x.schedule == id :: 1 <= x.ordinal <= t.schedules[id].claimed
    ensures forall i, j | 0 <= i < j < |t.triggers| :: Independent(t.triggers[i], t.triggers[j])
  {
    ReachableInv(t);
    assert ScheduleOk(t.schedules[id], id, t.policies, t.definitions) && ClaimsMatch(t.schedules[id], t.triggers);
    forall k | 1 <= k <= t.schedules[id].claimed ensures HasClaim(t.triggers, id, k) {
      var i := NthHit(t.triggers, OfSchedule(id), k);
      assert t.triggers[i] in t.triggers;
    }
    forall x | x in t.triggers && x.schedule == id ensures 1 <= x.ordinal <= t.schedules[id].claimed {
      assert TriggerOk(x, t.schedules, t.policies);
    }
  }

  // ------------------------------------------------------------------ released claims

  /** A claim that its schedule no longer holds. */
  predicate Released(t: Tables, x: Trigger) {
    && x in t.triggers && x.schedule in t.schedules
    && !t.schedules[x.schedule].Holds(x.id)
  }

  lemma StaysReleased(t: Tables, events: seq<Event>, x: Trigger)
    requires Reachable(t) && Released(t, x)
    ensures Released(Run(t, events), x)
  {
    Later(t, events);
    assert ClaimEvolves(x, t.schedules[x.schedule], Run(t, events).schedules[x.schedule]);
  }

  /** What makes a released claim inert: both lookups still find it, and its schedule does not hold it. */
  predicate Inert(t: Tables, x: Trigger) {
    && Released(t, x) && t.schedules[x.schedule].Id() == x.schedule
    && TriggerByRequest(t.triggers, x.context.request) == Some(x) && TriggerById(t.triggers, x.id) == Some(x)
  }

  lemma ReleasedIsInert(t: Tables, x: Trigger)
    requires Reachable(t) && Released(t, x)
    ensures Inert(t, x)
  {
    ReachableInv(t);
    assert ScheduleOk(t.schedules[x.schedule], x.schedule, t.policies, t.definitions);
    UniqueOwner(t.triggers, x, TriggerByRequest(t.triggers, x.context.request).value, x.context.request);
    UniqueOwner(t.triggers, x, TriggerById(t.triggers, x.id).value, x.id);
  }

  /** None of the gates opens for it: admission, insertion, reservation, launch and issuance. */
  lemma InertIsClosed(t: Tables, x: Trigger, plan: Plan, now: nat)
    requires Inert(t, x) && plan.context.Some? && plan.context.value.request == x.context.request
    ensures !SourceAuthority(t, plan.context.value, now)
    ensures forall same, room :: var a := AdmitRequest(t, plan, same, now, room); a.Done? ==> a.tables == t
    ensures forall room :: InsertJob(t, plan, now, room).Refused?
    ensures forall p, reservation :: ReservationLink(t, plan, p, reservation, now).None?
    ensures forall runtime, commit :: BeginLaunch(t, x.id, runtime, now, commit).Refused?
    ensures forall runtime, issuer :: DelegationOf(plan).Some? ==> !FencePasses(t, plan, runtime, issuer, now)
  {
  }

  lemma {:induction false} ReachableRun(t: Tables, events: seq<Event>)
    requires Reachable(t)
    ensures Reachable(Run(t, events))
  {
    if events != [] {
      ReachableRun(t, events[..|events| - 1]);
      var before := Run(t, events[..|events| - 1]);
      var path :| before == Run(EMPTY, path);
      assert (path + [events[|events| - 1]])[..|path|] == path;
      assert Run(t, events) == Run(EMPTY, path + [events[|events| - 1]]);
    }
  }

  /** Once its schedule has let a claim go, no later state ever opens any of the gates for it again. */
  lemma ReleasedForever(t: Tables, events: seq<Event>, x: Trigger, plan: Plan, now: nat)
    requires Reachable(t) && Released(t, x)
    requires plan.context.Some? && plan.context.value.request == x.context.request
    ensures var later := Run(t, events);
            && Released(later, x)
            && !SourceAuthority(later, plan.context.value, now)
            && (forall same, room :: var a := AdmitRequest(later, plan, same, now, room); a.Done? ==> a.tables == later)
            && (forall room :: InsertJob(later, plan, now, room).Refused?)
            && (forall p, reservation :: ReservationLink(later, plan, p, reservation, now).None?)
            && (forall runtime, commit :: BeginLaunch(later, x.id, runtime, now, commit).Refused?)
            && (forall runtime, issuer :: DelegationOf(plan).Some? ==> !FencePasses(later, plan, runtime, issuer, now))
  {
    StaysReleased(t, events, x);
    ReachableRun(t, events);
    ReleasedIsInert(Run(t, events), x);
    InertIsClosed(Run(t, events), x, plan, now);
  }

  /** A recorded refusal excludes a launch mark, a job and a reservation of the same claim. */
  lemma RefusalExcludesWork(t: Tables, id: Id)
    requires Reachable(t) && id in t.schedules && t.schedules[id].refusal.Some?
    ensures t.schedules[id].launchedAt.None?
    ensures exists x | x in t.triggers ::
              && x.id == t.schedules[id].refusal.value.trigger
              && x.schedule == id && Released(t, x)
              && OccurrenceById(t.occurrences, x.reservation).None?
              && !Requested(t.jobs, x.context.request)
  {
    ReachableInv(t);
    var s := t.schedules[id];
    assert ScheduleOk(s, id, t.policies, t.definitions);
    assert RefusalMatches(s, t.triggers, t.occurrences, t.jobs);
    assert LastClaim(t.triggers, s).value in t.triggers;
  }
}
