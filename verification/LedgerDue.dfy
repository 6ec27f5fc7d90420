/**
 Exactly when a due check claims, exhausts or interrupts, when settling commits, and when a journal opens.
 The checks that these checkpoints run again on what they staged never fail in a reachable ledger.
 */
module LedgerDue {
  import opened Prelude
  import opened Records
  import opened Ledger
  import opened LedgerInvariant
  import opened LedgerSteps
  import opened LedgerRuns
  import opened LedgerTheorems
  import opened LedgerLaunch

  /** Why no further run can start at this moment, in the order in which the reasons are looked at. */
  function NoRunAt(occurrences: seq<Reservation>, s: Schedule, p: Policy, at: nat): Option<Reason> {
    if s.claimed >= p.creation.maxRuns then Some(RunBudget)
    else if !AllowanceAvailable(occurrences, p) then Some(PolicyBudget)
    else if AllowanceMs(p) > SaturatingSub(s.expiresAt, at) then Some(TimeBudget)
    else None
  }

  // ------------------------------------------------------------------ the guard of a claim

  /** The schedule waits, its time has come and is not missed, and its authority is current. */
  predicate Due(t: Tables, id: Id, runtime: Id, issuer: int, now: nat) {
    && id in t.schedules && t.schedules[id].state == Waiting && t.schedules[id].nextDue.Some?
    && t.schedules[id].nextDue.value <= now < SaturatingAdd(t.schedules[id].nextDue.value, t.schedules[id].every)
    && Current(t.schedules[id], t.policies, t.definitions, runtime, issuer, now)
  }

  /** Everything a due check needs in order to claim.  Nothing here asks about the definition's other claims. */
  ghost predicate DueGuard(t: Tables, id: Id, runtime: Id, issuer: int, now: nat, commit: nat, ids: FreshIds, room: bool) {
    && Due(t, id, runtime, issuer, now) && now <= commit && Due(t, id, runtime, issuer, commit)
    && DefinitionResolved(t, t.schedules[id].definition)
    && NoRunAt(t.occurrences, t.schedules[id], t.policies[t.schedules[id].creation.policy], commit).None?
    && Generated(t, ids) && room && t.schedules[id].revision + 1 < U64_LIMIT
  }

  // ------------------------------------------------------------------ the staged claim is always valid

  lemma ClaimedLineage(s: Schedule, p: Policy, d: Definition, trigger: Id, now: nat)
    requires ValidLineage(s, p, d) && s.claimed < p.creation.maxRuns
    ensures ValidLineage(ClaimedAt(s, trigger, now), p, d)
  {
  }

  lemma ClaimedLifecycle(s: Schedule, trigger: Id, now: nat)
    requires ValidLifecycle(s) && s.state == Waiting && s.revision >= 2 * s.claimed + 1
    requires trigger != NIL && s.nextDue.value <= now
    ensures ValidLifecycle(ClaimedAt(s, trigger, now))
  {
  }

  /** The window of a due claim, from the pace its schedule keeps. */
  lemma ClaimWindow(s: Schedule, triggers: seq<Trigger>, now: nat)
    requires Paced(s, triggers) && ValidLifecycle(s) && s.state == Waiting
    requires s.nextDue.value <= now < SaturatingAdd(s.nextDue.value, s.every)
    ensures SaturatingAdd(s.armedAt, s.every) <= s.nextDue.value && now - s.nextDue.value < s.every
  {
  }

  lemma ClaimIds(t: Tables, s: Schedule, p: Policy, ids: FreshIds, due: nat, now: nat)
    requires Generated(t, ids) && s.Id() in t.schedules && p.id in t.policies && t.policies[p.id] == p
    requires s.Id() != NIL && s.Id() != p.id
    ensures ValidTriggerIds(NewTrigger(s, p, ids, due, now), p.id)
    ensures ids.request != p.scope.owner.request
  {
  }

  lemma NewTriggerOk(t: Tables, s: Schedule, p: Policy, ids: FreshIds, now: nat)
    requires s.Id() in t.schedules && s == t.schedules[s.Id()] && s.creation.policy in t.policies && p == t.policies[s.creation.policy]
    requires p.id == s.creation.policy && s.Id() != NIL && s.Id() != p.id
    requires Paced(s, t.triggers) && ValidLifecycle(s) && s.state == Waiting
    requires s.nextDue.value <= now < SaturatingAdd(s.nextDue.value, s.every) && now < s.expiresAt && Generated(t, ids)
    ensures var x := NewTrigger(s, p, ids, s.nextDue.value, now);
            TriggerOk(x, t.schedules[s.Id() := ClaimedAt(s, x.id, now)], t.policies)
  {
    ClaimWindow(s, t.triggers, now);
    ClaimIds(t, s, p, ids, s.nextDue.value, now);
  }

  lemma NewIdentities(t: Tables, s: Schedule, x: Trigger)
    requires IdentitiesOk(t.triggers) && TriggersOk(t.triggers, t.schedules, t.policies)
    requires s.Id() in t.schedules && s == t.schedules[s.Id()] && x.schedule == s.Id() && x.ordinal == s.claimed + 1
    requires Unused(t, x.id) && Unused(t, x.reservation) && Unused(t, x.execution) && Unused(t, x.context.request)
    ensures IdentitiesOk(t.triggers + [x])
  {
    var log := t.triggers + [x];
    forall i, j | 0 <= i < j < |log| ensures Independent(log[i], log[j]) {
      assert log[i] in t.triggers && TriggerOk(log[i], t.schedules, t.policies);
    }
  }

  lemma LastClaimFrame(triggers: seq<Trigger>, s: Schedule, x: Trigger)
    requires x.schedule != s.Id()
    ensures LastClaim(triggers + [x], s) == LastClaim(triggers, s) && Claims(triggers + [x], s.Id()) == Claims(triggers, s.Id())
  {
    FindAppend(triggers, x, IsClaim(s.Id(), s.claimed));
    CountAppend(triggers, x, OfSchedule(s.Id()));
  }

  /** The new claim is the last one of its schedule. */
  lemma NewLastClaim(triggers: seq<Trigger>, s: Schedule, x: Trigger)
    requires ClaimOf(s, x) && Claims(triggers, s.Id()) == s.claimed
    requires forall y | y in triggers && y.schedule == s.Id() :: y.ordinal <= s.claimed
    ensures ClaimsMatch(ClaimedAt(s, x.id, x.claimedAt), triggers + [x])
  {
    FindAppend(triggers, x, IsClaim(s.Id(), s.claimed + 1));
    CountAppend(triggers, x, OfSchedule(s.Id()));
  }

  lemma NewClaimsOk(t: Tables, s: Schedule, x: Trigger)
    requires SchedulesOk(t.schedules, t.policies, t.definitions) && TriggersOk(t.triggers, t.schedules, t.policies)
    requires ClaimsOk(t.schedules, t.triggers) && s.Id() in t.schedules && s == t.schedules[s.Id()] && ClaimOf(s, x)
    ensures ClaimsOk(Claim(t, s, x).schedules, Claim(t, s, x).triggers)
  {
    var t' := Claim(t, s, x);
    forall id | id in t'.schedules ensures ClaimsMatch(t'.schedules[id], t'.triggers) {
      assert ScheduleOk(t.schedules[id], id, t.policies, t.definitions) && ClaimsMatch(t.schedules[id], t.triggers);
      if id != s.Id() {
        LastClaimFrame(t.triggers, t.schedules[id], x);
      } else {
        assert forall y | y in t.triggers && y.schedule == id :: TriggerOk(y, t.schedules, t.policies);
        NewLastClaim(t.triggers, s, x);
      }
    }
  }

  lemma NewRefusalsOk(t: Tables, s: Schedule, x: Trigger)
    requires SchedulesOk(t.schedules, t.policies, t.definitions) && RefusalsOk(t.schedules, t.triggers, t.occurrences, t.jobs)
    requires s.Id() in t.schedules && s == t.schedules[s.Id()] && ClaimOf(s, x)
    ensures RefusalsOk(Claim(t, s, x).schedules, Claim(t, s, x).triggers, t.occurrences, t.jobs)
  {
    var t' := Claim(t, s, x);
    forall id | id in t'.schedules ensures RefusalMatches(t'.schedules[id], t'.triggers, t.occurrences, t.jobs) {
      assert ScheduleOk(t.schedules[id], id, t.policies, t.definitions);
      assert RefusalMatches(t.schedules[id], t.triggers, t.occurrences, t.jobs);
      if id != s.Id() {
        LastClaimFrame(t.triggers, t.schedules[id], x);
      }
    }
  }

  lemma NewTriggersOk(t: Tables, s: Schedule, x: Trigger)
    requires TriggersOk(t.triggers, t.schedules, t.policies) && s.Id() in t.schedules && s == t.schedules[s.Id()]
    requires TriggerOk(x, Claim(t, s, x).schedules, t.policies)
    ensures TriggersOk(Claim(t, s, x).triggers, Claim(t, s, x).schedules, t.policies)
  {
    PutTriggers(t.triggers, t.schedules, ClaimedAt(s, x.id, x.claimedAt), t.policies);
  }

  lemma ClaimHistory(t: Tables, s: Schedule, x: Trigger)
    requires HistoryOk(t) && s.Id() in t.schedules && s == t.schedules[s.Id()] && ClaimOf(s, x)
    requires ScheduleOk(ClaimedAt(s, x.id, x.claimedAt), s.Id(), t.policies, t.definitions)
    requires TriggerOk(x, Claim(t, s, x).schedules, t.policies)
    requires Unused(t, x.id) && Unused(t, x.reservation) && Unused(t, x.execution) && Unused(t, x.context.request)
    ensures HistoryOk(Claim(t, s, x))
  {
    var s' := ClaimedAt(s, x.id, x.claimedAt);
    PutSchedules(t.schedules, s', t.policies, t.definitions);
    NewTriggersOk(t, s, x);
    NewIdentities(t, s, x);
    assert forall id | id in t.schedules && id != s.Id() :: !Rival(t.schedules[id], s);
    PutOneActive(t.schedules, s');
    NewClaimsOk(t, s, x);
    NewRefusalsOk(t, s, x);
  }

  /** The claim a due check stages. */
  function Staged(t: Tables, id: Id, ids: FreshIds, now: nat): Trigger
    requires id in t.schedules && t.schedules[id].nextDue.Some? && t.schedules[id].creation.policy in t.policies
  {
    NewTrigger(t.schedules[id], t.policies[t.schedules[id].creation.policy], ids, t.schedules[id].nextDue.value, now)
  }

  lemma StagedSchedule(t: Tables, id: Id, x: Trigger, now: nat)
    requires id in t.schedules && ScheduleOk(t.schedules[id], id, t.policies, t.definitions) && Paced(t.schedules[id], t.triggers)
    requires t.schedules[id].state == Waiting && t.schedules[id].nextDue.value <= now && x.id != NIL
    requires t.schedules[id].claimed < t.policies[t.schedules[id].creation.policy].creation.maxRuns
    ensures ScheduleOk(ClaimedAt(t.schedules[id], x.id, now), id, t.policies, t.definitions)
  {
    var s := t.schedules[id];
    var p := t.policies[s.creation.policy];
    ClaimedLineage(s, p, t.definitions[p.creation.definition], x.id, now);
    ClaimedLifecycle(s, x.id, now);
  }

  /** A due claim of a schedule with a run left passes every re-check on what it stages. */
  lemma StagedIsValid(t: Tables, id: Id, runtime: Id, issuer: int, now: nat, ids: FreshIds)
    requires HistoryOk(t) && AllPaced(t.schedules, t.triggers) && Due(t, id, runtime, issuer, now) && Generated(t, ids)
    requires t.schedules[id].claimed < t.policies[t.schedules[id].creation.policy].creation.maxRuns
    ensures var s := t.schedules[id];
            var x := Staged(t, id, ids, now);
            && s.Id() == id
            && ScheduleOk(ClaimedAt(s, x.id, now), id, t.policies, t.definitions) && HistoryOk(Claim(t, s, x))
  {
    var s := t.schedules[id];
    var x := Staged(t, id, ids, now);
    var p := t.policies[s.creation.policy];
    assert ScheduleOk(s, id, t.policies, t.definitions) && Paced(s, t.triggers);
    assert PolicyOk(p, s.creation.policy, t.definitions);
    StagedSchedule(t, id, x, now);
    NewTriggerOk(t, s, p, ids, now);
    ClaimHistory(t, s, x);
  }

  // ------------------------------------------------------------------ what a due check does

  lemma StageExactly(t: Tables, id: Id, runtime: Id, issuer: int, now: nat, commit: nat, ids: FreshIds, room: bool)
    requires HistoryOk(t) && AllPaced(t.schedules, t.triggers) && Due(t, id, runtime, issuer, now)
    requires DefinitionResolved(t, t.schedules[id].definition)
    requires NoRunAt(t.occurrences, t.schedules[id], t.policies[t.schedules[id].creation.policy], now).None?
    ensures StageClaim(t, t.schedules[id], t.policies[t.schedules[id].creation.policy], runtime, issuer, now, commit, ids, room)
            == if DueGuard(t, id, runtime, issuer, now, commit, ids, room)
               then Done(Claim(t, t.schedules[id], Staged(t, id, ids, now)), Some(Staged(t, id, ids, now)))
               else Refused
  {
    var s := t.schedules[id];
    assert Current(ClaimedAt(s, ids.trigger, now), t.policies, t.definitions, runtime, issuer, commit)
      <==> Current(s, t.policies, t.definitions, runtime, issuer, commit);
    if Generated(t, ids) {
      StagedIsValid(t, id, runtime, issuer, now, ids);
    }
  }

  lemma ExhaustSaves(t: Tables, id: Id, p: Policy, available: bool, now: nat)
    requires id in t.schedules && ScheduleOk(t.schedules[id], id, t.policies, t.definitions) && t.schedules[id].Active()
    ensures var s := t.schedules[id].(active := None, launchedAt := None);
            Save(t, ExhaustedAt(s, p, available, now))
            == if Savable(t.schedules[id], now)
               then Done(t.(schedules := t.schedules[id := ExhaustedAt(s, p, available, now)]), ExhaustedAt(s, p, available, now))
               else Refused
  {
  }

  lemma InterruptExactly(t: Tables, id: Id, reason: Reason, now: nat)
    requires id in t.schedules && ScheduleOk(t.schedules[id], id, t.policies, t.definitions) && t.schedules[id].Active()
    requires Interruption(reason)
    ensures Save(t, InterruptedAt(t.schedules[id], reason, now))
            == if Savable(t.schedules[id], now)
               then Done(t.(schedules := t.schedules[id := InterruptedAt(t.schedules[id], reason, now)]),
                         InterruptedAt(t.schedules[id], reason, now))
               else Refused
  {
    if Savable(t.schedules[id], now) {
      InterruptSaves(t, id, reason, now);
    }
  }

  lemma UnresolvedRefused(t: Tables, s: Schedule, runtime: Id, issuer: int, now: nat, commit: nat, ids: FreshIds, room: bool)
    requires s.nextDue.Some? && !DefinitionResolved(t, s.definition)
    ensures ClaimWithin(t, s, runtime, issuer, now, commit, ids, room) == Refused
  {
  }

  lemma SpentSaves(t: Tables, s: Schedule, p: Policy, runtime: Id, issuer: int, now: nat, commit: nat, ids: FreshIds, room: bool)
    requires s.nextDue.Some? && s.creation.policy in t.policies && p == t.policies[s.creation.policy]
    requires OccurrencesOk(t) && DefinitionResolved(t, s.definition) && NoRunAt(t.occurrences, s, p, now).Some?
    ensures ClaimWithin(t, s, runtime, issuer, now, commit, ids, room)
            == Without(Save(t, ExhaustedAt(s, p, AllowanceAvailable(t.occurrences, p), now)), None)
  {
  }

  lemma UnspentStages(t: Tables, s: Schedule, p: Policy, runtime: Id, issuer: int, now: nat, commit: nat, ids: FreshIds, room: bool)
    requires s.nextDue.Some? && s.creation.policy in t.policies && p == t.policies[s.creation.policy]
    requires OccurrencesOk(t) && DefinitionResolved(t, s.definition) && NoRunAt(t.occurrences, s, p, now).None?
    ensures ClaimWithin(t, s, runtime, issuer, now, commit, ids, room)
            == StageClaim(t, s, p, runtime, issuer, now, commit, ids, room)
  {
  }

  /** A claim that may commit later may be staged now. */
  lemma GuardNow(t: Tables, id: Id, runtime: Id, issuer: int, now: nat, commit: nat, ids: FreshIds, room: bool)
    requires DueGuard(t, id, runtime, issuer, now, commit, ids, room)
    ensures DefinitionResolved(t, t.schedules[id].definition)
    ensures NoRunAt(t.occurrences, t.schedules[id], t.policies[t.schedules[id].creation.policy], now).None?
  {
  }

  /** The four ends of a due check. */
  datatype Verdict = Claiming | Exhausting(reason: Reason) | Interrupting(reason: Reason) | Nothing

  /** What a due check of a retained schedule does. */
  ghost function Judge(t: Tables, id: Id, runtime: Id, issuer: int, now: nat, commit: nat, ids: FreshIds, room: bool): Verdict
    requires id in t.schedules
  {
    var s := t.schedules[id];
    if s.state != Waiting || s.nextDue.None? then Nothing
    else if DueGuard(t, id, runtime, issuer, now, commit, ids, room) then Claiming
    else if !Savable(s, now) then Nothing
    else if DueFault(t, s, runtime, issuer, now, s.nextDue.value).Some?
    then Interrupting(DueFault(t, s, runtime, issuer, now, s.nextDue.value).value)
    else if s.nextDue.value <= now && DefinitionResolved(t, s.definition) && s.creation.policy in t.policies
            && NoRunAt(t.occurrences, s, t.policies[s.creation.policy], now).Some?
    then Exhausting(NoRunAt(t.occurrences, s, t.policies[s.creation.policy], now).value)
    else Nothing
  }

  /** What the verdict makes of the tables. */
  ghost predicate Carried(t: Tables, id: Id, verdict: Verdict, now: nat, ids: FreshIds, t': Tables)
    requires id in t.schedules
  {
    var s := t.schedules[id];
    match verdict
    case Claiming =>
      && s.nextDue.Some? && s.creation.policy in t.policies
      && t' == Claim(t, s, Staged(t, id, ids, now))
    case Exhausting(reason) =>
      t' == t.(schedules := t.schedules[id := Advanced(s, now).(state := Exhausted, nextDue := None, reason := Some(reason))])
    case Interrupting(reason) => t' == t.(schedules := t.schedules[id := InterruptedAt(s, reason, now)])
    case Nothing => t' == t
  }

  lemma ExhaustedReason(t: Tables, s: Schedule, p: Policy, now: nat)
    requires NoRunAt(t.occurrences, s, p, now).Some?
    ensures ExhaustedAt(s, p, AllowanceAvailable(t.occurrences, p), now)
            == Advanced(s, now).(state := Exhausted, nextDue := None, reason := NoRunAt(t.occurrences, s, p, now))
  {
  }

  lemma DueFaulted(t: Tables, id: Id, runtime: Id, issuer: int, now: nat, commit: nat, ids: FreshIds, room: bool)
    requires HistoryOk(t) && id in t.schedules && t.schedules[id].state == Waiting && t.schedules[id].nextDue.Some?
    requires DueFault(t, t.schedules[id], runtime, issuer, now, t.schedules[id].nextDue.value).Some?
    ensures var s := t.schedules[id];
            var fault := DueFault(t, s, runtime, issuer, now, s.nextDue.value).value;
            ClaimDue(t, id, runtime, issuer, now, commit, ids, room)
            == if Savable(s, now) then Done(t.(schedules := t.schedules[id := InterruptedAt(s, fault, now)]), None) else Refused
  {
    assert ScheduleOk(t.schedules[id], id, t.policies, t.definitions);
    InterruptExactly(t, id, DueFault(t, t.schedules[id], runtime, issuer, now, t.schedules[id].nextDue.value).value, now);
  }

  lemma DueWithin(t: Tables, id: Id, runtime: Id, issuer: int, now: nat, commit: nat, ids: FreshIds, room: bool)
    requires HistoryOk(t) && id in t.schedules && Due(t, id, runtime, issuer, now) && t.schedules[id].observedAt <= now
    ensures ClaimDue(t, id, runtime, issuer, now, commit, ids, room)
            == ClaimWithin(t, t.schedules[id], runtime, issuer, now, commit, ids, room)
  {
  }

  /** An attempt does what a verdict says. */
  ghost predicate Obeys(t: Tables, id: Id, now: nat, ids: FreshIds, a: Attempt<Option<Trigger>>, verdict: Verdict)
    requires id in t.schedules
  {
    Carried(t, id, verdict, now, ids, After(t, a)) && (a.Done? && a.value.Some? <==> verdict.Claiming?)
  }

  lemma FaultJudged(t: Tables, id: Id, runtime: Id, issuer: int, now: nat, commit: nat, ids: FreshIds, room: bool)
    requires HistoryOk(t) && id in t.schedules && t.schedules[id].state == Waiting && t.schedules[id].nextDue.Some?
    requires t.schedules[id].observedAt < t.schedules[id].nextDue.value
    requires DueFault(t, t.schedules[id], runtime, issuer, now, t.schedules[id].nextDue.value).Some?
    ensures Obeys(t, id, now, ids, ClaimDue(t, id, runtime, issuer, now, commit, ids, room),
                  Judge(t, id, runtime, issuer, now, commit, ids, room))
  {
    DueFaulted(t, id, runtime, issuer, now, commit, ids, room);
  }

  lemma DueVerdict(t: Tables, id: Id, runtime: Id, issuer: int, now: nat, commit: nat, ids: FreshIds, room: bool)
    requires Due(t, id, runtime, issuer, now) && t.schedules[id].observedAt <= now
    ensures var s := t.schedules[id];
            var none := NoRunAt(t.occurrences, s, t.policies[s.creation.policy], now);
            Judge(t, id, runtime, issuer, now, commit, ids, room)
            == if DueGuard(t, id, runtime, issuer, now, commit, ids, room) then Claiming
               else if Savable(s, now) && DefinitionResolved(t, s.definition) && none.Some? then Exhausting(none.value)
               else Nothing
  {
  }

  lemma SpentResult(t: Tables, id: Id, s: Schedule, p: Policy, now: nat)
    requires id in t.schedules && s == t.schedules[id] && ScheduleOk(s, id, t.policies, t.definitions) && s.state == Waiting
    requires NoRunAt(t.occurrences, s, p, now).Some?
    ensures var spent := Advanced(s, now).(state := Exhausted, nextDue := None, reason := NoRunAt(t.occurrences, s, p, now));
            Save(t, ExhaustedAt(s, p, AllowanceAvailable(t.occurrences, p), now))
            == if Savable(s, now) then Done(t.(schedules := t.schedules[id := spent]), spent) else Refused
  {
    assert s.(active := None, launchedAt := None) == s;
    ExhaustSaves(t, id, p, AllowanceAvailable(t.occurrences, p), now);
    ExhaustedReason(t, s, p, now);
  }

  lemma SpentJudged(t: Tables, id: Id, runtime: Id, issuer: int, now: nat, commit: nat, ids: FreshIds, room: bool)
    requires OccurrencesOk(t) && Due(t, id, runtime, issuer, now) && ScheduleOk(t.schedules[id], id, t.policies, t.definitions)
    requires DefinitionResolved(t, t.schedules[id].definition)
    requires NoRunAt(t.occurrences, t.schedules[id], t.policies[t.schedules[id].creation.policy], now).Some?
    ensures var s := t.schedules[id];
            var none := NoRunAt(t.occurrences, s, t.policies[s.creation.policy], now);
            Obeys(t, id, now, ids, ClaimWithin(t, s, runtime, issuer, now, commit, ids, room),
                  if Savable(s, now) then Exhausting(none.value) else Nothing)
  {
    var s := t.schedules[id];
    var p := t.policies[s.creation.policy];
    SpentSaves(t, s, p, runtime, issuer, now, commit, ids, room);
    SpentResult(t, id, s, p, now);
  }

  lemma StageJudged(t: Tables, id: Id, runtime: Id, issuer: int, now: nat, commit: nat, ids: FreshIds, room: bool)
    requires HistoryOk(t) && RetainedOk(t) && AllPaced(t.schedules, t.triggers) && Due(t, id, runtime, issuer, now)
    requires DefinitionResolved(t, t.schedules[id].definition)
    requires NoRunAt(t.occurrences, t.schedules[id], t.policies[t.schedules[id].creation.policy], now).None?
    ensures Obeys(t, id, now, ids, ClaimWithin(t, t.schedules[id], runtime, issuer, now, commit, ids, room),
                  if DueGuard(t, id, runtime, issuer, now, commit, ids, room) then Claiming else Nothing)
  {
    var s := t.schedules[id];
    UnspentStages(t, s, t.policies[s.creation.policy], runtime, issuer, now, commit, ids, room);
    StageExactly(t, id, runtime, issuer, now, commit, ids, room);
  }

  lemma WithinJudged(t: Tables, id: Id, runtime: Id, issuer: int, now: nat, commit: nat, ids: FreshIds, room: bool)
    requires HistoryOk(t) && RetainedOk(t) && AllPaced(t.schedules, t.triggers)
    requires Due(t, id, runtime, issuer, now) && t.schedules[id].observedAt <= now
    requires ScheduleOk(t.schedules[id], id, t.policies, t.definitions)
    ensures Obeys(t, id, now, ids, ClaimWithin(t, t.schedules[id], runtime, issuer, now, commit, ids, room),
                  Judge(t, id, runtime, issuer, now, commit, ids, room))
  {
    var s := t.schedules[id];
    var p := t.policies[s.creation.policy];
    DueVerdict(t, id, runtime, issuer, now, commit, ids, room);
    if DueGuard(t, id, runtime, issuer, now, commit, ids, room) {
      GuardNow(t, id, runtime, issuer, now, commit, ids, room);
    }
    if !DefinitionResolved(t, s.definition) {
      UnresolvedRefused(t, s, runtime, issuer, now, commit, ids, room);
    } else if NoRunAt(t.occurrences, s, p, now).Some? {
      SpentJudged(t, id, runtime, issuer, now, commit, ids, room);
    } else {
      StageJudged(t, id, runtime, issuer, now, commit, ids, room);
    }
  }

  /** The schedule does not wait, or its time has not come and nothing is wrong. */
  predicate NotYet(t: Tables, id: Id, runtime: Id, issuer: int, now: nat)
    requires id in t.schedules
  {
    var s := t.schedules[id];
    || s.state != Waiting || s.nextDue.None?
    || (now < s.nextDue.value && DueFault(t, s, runtime, issuer, now, s.nextDue.value).None?)
  }

  lemma IdleDue(t: Tables, id: Id, runtime: Id, issuer: int, now: nat, commit: nat, ids: FreshIds, room: bool)
    requires HistoryOk(t) && id in t.schedules && NotYet(t, id, runtime, issuer, now)
    ensures ClaimDue(t, id, runtime, issuer, now, commit, ids, room) == Done(t, None)
  {
  }

  lemma IdleVerdict(t: Tables, id: Id, runtime: Id, issuer: int, now: nat, commit: nat, ids: FreshIds, room: bool)
    requires id in t.schedules && NotYet(t, id, runtime, issuer, now)
    ensures Judge(t, id, runtime, issuer, now, commit, ids, room) == Nothing
  {
  }

  lemma DueJudged(t: Tables, id: Id, runtime: Id, issuer: int, now: nat, commit: nat, ids: FreshIds, room: bool)
    requires HistoryOk(t) && RetainedOk(t) && AllPaced(t.schedules, t.triggers) && id in t.schedules
    ensures Obeys(t, id, now, ids, ClaimDue(t, id, runtime, issuer, now, commit, ids, room),
                  Judge(t, id, runtime, issuer, now, commit, ids, room))
  {
    var s := t.schedules[id];
    assert ScheduleOk(s, id, t.policies, t.definitions);
    if s.state == Waiting && DueFault(t, s, runtime, issuer, now, s.nextDue.value).Some? {
      FaultJudged(t, id, runtime, issuer, now, commit, ids, room);
    } else if s.state == Waiting && s.nextDue.value <= now {
      DueWithin(t, id, runtime, issuer, now, commit, ids, room);
      WithinJudged(t, id, runtime, issuer, now, commit, ids, room);
    } else {
      IdleDue(t, id, runtime, issuer, now, commit, ids, room);
      IdleVerdict(t, id, runtime, issuer, now, commit, ids, room);
    }
  }

  /** In every reachable ledger a due check claims if and only if its guard holds, and otherwise exhausts,
      interrupts or leaves the ledger alone, each exactly when and as its verdict says. */
  lemma DueOutcome(t: Tables, id: Id, runtime: Id, issuer: int, now: nat, commit: nat, ids: FreshIds, room: bool)
    requires Reachable(t) && id in t.schedules
    ensures var a := ClaimDue(t, id, runtime, issuer, now, commit, ids, room);
            && (a.Done? && a.value.Some? <==> DueGuard(t, id, runtime, issuer, now, commit, ids, room))
            && Obeys(t, id, now, ids, a, Judge(t, id, runtime, issuer, now, commit, ids, room))
  {
    ReachableInv(t);
    DueJudged(t, id, runtime, issuer, now, commit, ids, room);
  }

  // ------------------------------------------------------------------ what settling does

  lemma RearmSaves(t: Tables, id: Id, p: Policy, now: nat)
    requires id in t.schedules && ScheduleOk(t.schedules[id], id, t.policies, t.definitions) && t.schedules[id].state == InFlight
    requires t.schedules[id].observedAt <= now && t.schedules[id].every > 0
    requires 1 <= AllowanceMs(p) <= SaturatingSub(t.schedules[id].expiresAt, now + t.schedules[id].every)
    ensures Save(t, Rearmed(t.schedules[id], now))
            == if t.schedules[id].revision + 1 < U64_LIMIT
               then Done(t.(schedules := t.schedules[id := Rearmed(t.schedules[id], now)]), Rearmed(t.schedules[id], now))
               else Refused
  {
  }

  lemma AllowancePositive(p: Policy)
    requires ValidPolicy(p)
    ensures AllowanceMs(p) >= 1
  {
    ProductPositive(p.scope.operations, p.creation.limits.executionMs);
  }

  lemma ProductPositive(a: nat, b: nat)
    requires a >= 1 && b >= 1
    ensures a * b >= 1
  {
  }

  /** The schedule that settling leaves, once the claim it holds is over. */
  function SettledAs(t: Tables, s: Schedule, runtime: Id, issuer: int, now: nat): Schedule {
    if now < s.observedAt then InterruptedAt(s, BackwardClock, now)
    else if !Current(s, t.policies, t.definitions, runtime, issuer, now) then InterruptedAt(s, PolicyChanged, now)
    else
      var none := NoRunAt(t.occurrences, s, t.policies[s.creation.policy], now + s.every);
      if none.None? then Rearmed(s, now)
      else Advanced(s, now).(state := Exhausted, active := None, launchedAt := None, reason := none)
  }

  lemma SettlingIs(t: Tables, s: Schedule, runtime: Id, issuer: int, now: nat)
    requires HistoryOk(t) && RetainedOk(t) && s.state == InFlight && s.nextDue.None?
    ensures Settling(t, s, runtime, issuer, now)
            == if s.observedAt <= now && Current(s, t.policies, t.definitions, runtime, issuer, now) && now + s.every >= U64_LIMIT
               then None else Some(SettledAs(t, s, runtime, issuer, now))
  {
  }

  lemma CurrentSaves(t: Tables, id: Id, s: Schedule, p: Policy, runtime: Id, issuer: int, now: nat)
    requires id in t.schedules && s == t.schedules[id] && ScheduleOk(s, id, t.policies, t.definitions)
    requires s.state == InFlight && s.observedAt <= now && p == t.policies[s.creation.policy] && ValidPolicy(p)
    requires Current(s, t.policies, t.definitions, runtime, issuer, now) && s.every > 0
    ensures var next := SettledAs(t, s, runtime, issuer, now);
            Save(t, next) == if Savable(s, now) then Done(t.(schedules := t.schedules[id := next]), next) else Refused
  {
    AllowancePositive(p);
    if NoRunAt(t.occurrences, s, p, now + s.every).None? {
      RearmSaves(t, id, p, now);
    } else {
      ExhaustSaves(t, id, p, AllowanceAvailable(t.occurrences, p), now);
      ExhaustedLater(t, s, p, now);
    }
  }

  lemma ExhaustedLater(t: Tables, s: Schedule, p: Policy, now: nat)
    requires NoRunAt(t.occurrences, s, p, now + s.every).Some?
    ensures ExhaustedAt(s.(active := None, launchedAt := None), p, AllowanceAvailable(t.occurrences, p), now)
            == Advanced(s, now).(state := Exhausted, active := None, launchedAt := None, nextDue := None,
                                 reason := NoRunAt(t.occurrences, s, p, now + s.every))
  {
  }

  lemma PolicyOf(t: Tables, id: Id)
    requires HistoryOk(t) && id in t.schedules
    ensures ScheduleOk(t.schedules[id], id, t.policies, t.definitions) && t.schedules[id].every > 0
    ensures ValidPolicy(t.policies[t.schedules[id].creation.policy])
  {
    var s := t.schedules[id];
    assert ScheduleOk(s, id, t.policies, t.definitions);
    assert PolicyOk(t.policies[s.creation.policy], s.creation.policy, t.definitions);
  }

  lemma SettledSaves(t: Tables, id: Id, runtime: Id, issuer: int, now: nat)
    requires HistoryOk(t) && id in t.schedules && t.schedules[id].state == InFlight
    ensures var next := SettledAs(t, t.schedules[id], runtime, issuer, now);
            Save(t, next) == if Savable(t.schedules[id], now) then Done(t.(schedules := t.schedules[id := next]), next) else Refused
  {
    PolicyOf(t, id);
    if now < t.schedules[id].observedAt {
      InterruptExactly(t, id, BackwardClock, now);
    } else if !Current(t.schedules[id], t.policies, t.definitions, runtime, issuer, now) {
      InterruptExactly(t, id, PolicyChanged, now);
    } else {
      CurrentSaves(t, id, t.schedules[id], t.policies[t.schedules[id].creation.policy], runtime, issuer, now);
    }
  }

  lemma HeldClaim(t: Tables, id: Id)
    requires HistoryOk(t) && id in t.schedules && t.schedules[id].state == InFlight
    ensures LastClaim(t.triggers, t.schedules[id]).Some? && t.schedules[id].active.Some?
    ensures TriggerById(t.triggers, t.schedules[id].active.value) == LastClaim(t.triggers, t.schedules[id])
  {
    var s := t.schedules[id];
    assert ScheduleOk(s, id, t.policies, t.definitions) && ClaimsMatch(s, t.triggers);
    HeldIsLast(t, LastClaim(t.triggers, s).value);
  }

  /** When settling may commit: the held claim is over, the schedule can be saved, and a next due time exists
      where one is looked for. */
  ghost predicate SettleGuard(t: Tables, s: Schedule, x: Trigger, runtime: Id, issuer: int, now: nat) {
    && ClaimResolved(t, x) && Savable(s, now)
    && (s.observedAt <= now && Current(s, t.policies, t.definitions, runtime, issuer, now) ==> now + s.every < U64_LIMIT)
  }

  lemma SettleExactly(t: Tables, id: Id, runtime: Id, issuer: int, now: nat)
    requires HistoryOk(t) && RetainedOk(t) && id in t.schedules && t.schedules[id].state == InFlight
    ensures LastClaim(t.triggers, t.schedules[id]).Some?
    ensures var s := t.schedules[id];
            var next := SettledAs(t, s, runtime, issuer, now);
            SettleSchedule(t, id, runtime, issuer, now)
            == if SettleGuard(t, s, LastClaim(t.triggers, s).value, runtime, issuer, now)
               then Done(t.(schedules := t.schedules[id := next]), next) else Refused
  {
    assert ScheduleOk(t.schedules[id], id, t.policies, t.definitions);
    HeldClaim(t, id);
    SettlingIs(t, t.schedules[id], runtime, issuer, now);
    SettledSaves(t, id, runtime, issuer, now);
  }

  /** In every reachable ledger settling an in-flight schedule commits if and only if its last claim is over,
      the schedule can be saved and no clock overflows; it then interrupts for a backward clock or lost
      authority, exhausts for the first reason for which no run could start one period later, and waits for
      that time otherwise. */
  lemma SettleOutcome(t: Tables, id: Id, runtime: Id, issuer: int, now: nat)
    requires Reachable(t) && id in t.schedules && t.schedules[id].state == InFlight
    ensures LastClaim(t.triggers, t.schedules[id]).Some?
    ensures var s := t.schedules[id];
            var next := SettledAs(t, s, runtime, issuer, now);
            SettleSchedule(t, id, runtime, issuer, now)
            == if SettleGuard(t, s, LastClaim(t.triggers, s).value, runtime, issuer, now)
               then Done(t.(schedules := t.schedules[id := next]), next) else Refused
  {
    ReachableInv(t);
    SettleExactly(t, id, runtime, issuer, now);
  }

  // ------------------------------------------------------------------ opening the journal

  /** The schedules after every active one was interrupted. */
  function Restarted(schedules: map<Id, Schedule>, clock: Id -> nat): map<Id, Schedule> {
    map id | id in schedules :: RestartedAt(schedules[id], clock(id))
  }

  lemma RestartOk(s: Schedule, id: Id, t: Tables, now: nat)
    requires ScheduleOk(s, id, t.policies, t.definitions)
    ensures ScheduleOk(RestartedAt(s, now), id, t.policies, t.definitions) <==> !s.Active() || now > 0
  {
  }

  lemma RestartClaims(s: Schedule, triggers: seq<Trigger>, now: nat)
    requires ClaimsMatch(s, triggers)
    ensures ClaimsMatch(RestartedAt(s, now), triggers)
  {
    assert LastClaim(triggers, RestartedAt(s, now)) == LastClaim(triggers, s);
  }

  lemma RestartRefusal(s: Schedule, t: Tables, now: nat)
    requires RefusalMatches(s, t.triggers, t.occurrences, t.jobs)
    ensures RefusalMatches(RestartedAt(s, now), t.triggers, t.occurrences, t.jobs)
  {
    assert LastClaim(t.triggers, RestartedAt(s, now)) == LastClaim(t.triggers, s);
  }

  lemma RestartTriggers(t: Tables, clock: Id -> nat)
    requires TriggersOk(t.triggers, t.schedules, t.policies)
    ensures TriggersOk(t.triggers, Restarted(t.schedules, clock), t.policies)
  {
    forall x | x in t.triggers ensures TriggerOk(x, Restarted(t.schedules, clock), t.policies) {
      TriggerFrame(x, t.schedules, Restarted(t.schedules, clock), t.policies);
    }
  }

  lemma RestartLogs(t: Tables, clock: Id -> nat)
    requires ClaimsOk(t.schedules, t.triggers) && RefusalsOk(t.schedules, t.triggers, t.occurrences, t.jobs)
    ensures ClaimsOk(Restarted(t.schedules, clock), t.triggers)
    ensures RefusalsOk(Restarted(t.schedules, clock), t.triggers, t.occurrences, t.jobs)
  {
    var m := Restarted(t.schedules, clock);
    forall id | id in m ensures ClaimsMatch(m[id], t.triggers) {
      RestartClaims(t.schedules[id], t.triggers, clock(id));
    }
    forall id | id in m ensures RefusalMatches(m[id], t.triggers, t.occurrences, t.jobs) {
      assert RefusalMatches(t.schedules[id], t.triggers, t.occurrences, t.jobs);
      RestartRefusal(t.schedules[id], t, clock(id));
    }
  }

  lemma RestartHistory(t: Tables, clock: Id -> nat)
    requires HistoryOk(t) && forall id | id in t.schedules && t.schedules[id].Active() :: clock(id) > 0
    ensures HistoryOk(t.(schedules := Restarted(t.schedules, clock)))
  {
    RestartTriggers(t, clock);
    RestartLogs(t, clock);
    var m := Restarted(t.schedules, clock);
    forall id | id in m ensures ScheduleOk(m[id], id, t.policies, t.definitions) {
      RestartOk(t.schedules[id], id, t, clock(id));
    }
  }

  /** Every active schedule can still be saved at the time its interruption is stamped with. */
  predicate AllSavable(schedules: map<Id, Schedule>, clock: Id -> nat) {
    forall id | id in schedules && schedules[id].Active() :: Savable(schedules[id], clock(id))
  }

  lemma OpensWhen(t: Tables, clock: Id -> nat)
    requires HistoryOk(t)
    ensures HistoryOk(t.(schedules := Restarted(t.schedules, clock))) <==>
            forall id | id in t.schedules && t.schedules[id].Active() :: clock(id) > 0
  {
    var m := Restarted(t.schedules, clock);
    if HistoryOk(t.(schedules := m)) {
      forall id | id in t.schedules && t.schedules[id].Active() ensures clock(id) > 0 {
        assert ScheduleOk(m[id], id, t.policies, t.definitions);
      }
    } else {
      if forall id | id in t.schedules && t.schedules[id].Active() :: clock(id) > 0 {
        RestartHistory(t, clock);
      }
    }
  }

  lemma OpensTo(t: Tables, clock: Id -> nat)
    requires HistoryOk(t)
    ensures Reopen(t, clock) == if AllSavable(t.schedules, clock) then Done(t.(schedules := Restarted(t.schedules, clock)), ())
                                else Refused
  {
    OpensWhen(t, clock);
  }

  lemma RestartEnds(m: map<Id, Schedule>, clock: Id -> nat)
    ensures var m' := Restarted(m, clock);
            && m'.Keys == m.Keys && (forall id | id in m' :: !m'[id].Active())
            && (forall id | id in m' && !m[id].Active() :: m'[id] == m[id])
  {
  }

  /** Opening a reachable ledger commits if and only if every active schedule can be saved: the check on the
      staged history never fails.  Afterwards no schedule is active, and nothing else has changed. */
  lemma OpeningCommits(t: Tables, clock: Id -> nat)
    requires Reachable(t)
    ensures Reopen(t, clock).Done? <==> AllSavable(t.schedules, clock)
    ensures Reopen(t, clock).Done? ==>
              var m := Reopen(t, clock).tables.schedules;
              && Reopen(t, clock).tables == t.(schedules := m) && m.Keys == t.schedules.Keys
              && (forall id | id in m :: !m[id].Active())
              && (forall id | id in m && !t.schedules[id].Active() :: m[id] == t.schedules[id])
  {
    ReachableInv(t);
    OpensTo(t, clock);
    RestartEnds(t.schedules, clock);
  }
}
