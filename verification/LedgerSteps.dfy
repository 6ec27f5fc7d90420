/** Every checkpoint preserves the ledger invariant, including those that re-check nothing. */
module LedgerSteps {
  import opened Prelude
  import opened Records
  import opened Ledger
  import opened LedgerInvariant

  // ------------------------------------------------------------------ schedule checkpoints

  /** The claim a schedule holds is over. */
  ghost predicate ActiveResolved(t: Tables, s: Schedule) {
    && s.active.Some? && TriggerById(t.triggers, s.active.value).Some?
    && ClaimResolved(t, TriggerById(t.triggers, s.active.value).value)
  }

  /** Why a schedule is exhausted is true: no run is left, no further run fits the policy's budgets, or
      none fits into the time that remains one period later. */
  predicate Spent(s: Schedule, policies: map<Id, Policy>, occurrences: seq<Reservation>) {
    s.state == Exhausted ==>
      && s.creation.policy in policies && s.reason.Some?
      && var p := policies[s.creation.policy];
         match s.reason.value
         case RunBudget => s.claimed >= p.creation.maxRuns
         case PolicyBudget => !AllowanceAvailable(occurrences, p)
         case TimeBudget => AllowanceMs(p) > SaturatingSub(s.expiresAt, s.observedAt + s.every)
         case _ => false
  }

  /** One existing schedule was edited and saved, and nothing else changed. */
  ghost predicate EditAt(t: Tables, t': Tables, id: Id) {
    && id in t.schedules && id in t'.schedules
    && t' == t.(schedules := t.schedules[id := t'.schedules[id]])
    && Edits(t.schedules[id], t'.schedules[id])
    && ScheduleOk(t'.schedules[id], id, t.policies, t.definitions)
    && (t'.schedules[id].state == Waiting ==> ActiveResolved(t, t.schedules[id]))
    && Spent(t'.schedules[id], t.policies, t.occurrences)
  }

  lemma EditKeeps(t: Tables, t': Tables, id: Id)
    requires Inv(t) && EditAt(t, t', id)
    ensures Inv(t')
  {
    EditSchedule(t, t.schedules[id], t'.schedules[id]);
  }

  lemma SaveEdits(t: Tables, id: Id, s': Schedule)
    requires s'.Id() == id && id in t.schedules && Edits(t.schedules[id], s')
    requires s'.state == Waiting ==> ActiveResolved(t, t.schedules[id])
    requires Spent(s', t.policies, t.occurrences)
    ensures Save(t, s').Done? ==> EditAt(t, Save(t, s').tables, id)
  {
  }

  lemma InterruptEdits(t: Tables, id: Id, reason: Reason, now: nat)
    requires id in t.schedules && t.schedules[id].Id() == id
    ensures var a := Save(t, InterruptedAt(t.schedules[id], reason, now)); a.Done? ==> EditAt(t, a.tables, id)
  {
    SaveEdits(t, id, InterruptedAt(t.schedules[id], reason, now));
  }

  lemma ArmFits(t: Tables, command: Arm, p: Policy, d: Definition, runtime: Id, issuer: int, now: nat)
    requires TriggersOk(t.triggers, t.schedules, t.policies) && command.operation !in t.schedules
    requires now + d.creation.every < U64_LIMIT && NoOverlap(t, p.creation.definition)
    requires var s := NewSchedule(command, p, d, runtime, issuer, now); ScheduleOk(s, s.Id(), t.policies, t.definitions)
    ensures Fits(NewSchedule(command, p, d, runtime, issuer, now), t)
  {
    var s := NewSchedule(command, p, d, runtime, issuer, now);
    forall x | x in t.triggers ensures x.schedule != s.Id() {
      assert TriggerOk(x, t.schedules, t.policies);
    }
    CountNone(t.triggers, OfSchedule(s.Id()));
    assert Pace(s, 0) == s.armedAt;
  }

  lemma RequestFrame(triggers: seq<Trigger>, x: Trigger, request: Id)
    requires x.context.request != request
    ensures TriggerByRequest(triggers + [x], request) == TriggerByRequest(triggers, request)
  {
    FindAppend(triggers, x, HasRequest(request));
  }

  lemma ClaimDelegations(t: Tables, x: Trigger, schedules: map<Id, Schedule>)
    requires RetainedOk(t) && JobsOk(t) && SchedulesKept(t.schedules, schedules) && Unused(t, x.context.request)
    ensures forall id | id in t.jobs :: DelegationValid(t.jobs[id], t.triggers + [x], schedules)
    ensures forall r | r in t.occurrences :: DelegationValid(r.snapshot, t.triggers + [x], schedules)
  {
    DelegationsFrame(t, schedules);
    forall id | id in t.jobs ensures DelegationValid(t.jobs[id], t.triggers + [x], schedules) {
      if t.jobs[id].context.Some? {
        RequestFrame(t.triggers, x, t.jobs[id].context.value.request);
      }
    }
    forall r | r in t.occurrences ensures DelegationValid(r.snapshot, t.triggers + [x], schedules) {
      if r.snapshot.context.Some? {
        RequestFrame(t.triggers, x, r.snapshot.context.value.request);
      }
    }
  }

  /** A claim made at its due time from a waiting schedule. */
  predicate ClaimOf(s: Schedule, x: Trigger) {
    && s.state == Waiting && s.nextDue == Some(x.dueAt)
    && x.schedule == s.Id() && x.ordinal == s.claimed + 1 && x.dueAt <= x.claimedAt
  }

  lemma ClaimPaced(m: map<Id, Schedule>, triggers: seq<Trigger>, s: Schedule, x: Trigger)
    requires AllPaced(m, triggers) && (forall id | id in m :: m[id].Id() == id)
    requires s.Id() in m && s == m[s.Id()] && ClaimOf(s, x)
    ensures AllPaced(m[s.Id() := ClaimedAt(s, x.id, x.claimedAt)], triggers + [x])
  {
    var s' := ClaimedAt(s, x.id, x.claimedAt);
    assert Paced(s, triggers);
    assert Pace(s, s.claimed + 1) == Pace(s, s.claimed) + s.every;
    assert forall k: nat :: Pace(s', k) == Pace(s, k);
  }

  lemma ClaimSpaced(t: Tables, s: Schedule, x: Trigger, m: map<Id, Schedule>)
    requires TriggersOk(t.triggers, t.schedules, t.policies) && AllSpaced(t.triggers, t.schedules)
    requires s.Id() in t.schedules && s == t.schedules[s.Id()] && Paced(s, t.triggers) && ClaimOf(s, x)
    requires m == t.schedules[s.Id() := ClaimedAt(s, x.id, x.claimedAt)]
    ensures AllSpaced(t.triggers + [x], m)
  {
    var triggers := t.triggers + [x];
    SpacedFrame(t, m);
    forall i, j | 0 <= i < j < |triggers| ensures Spaced(triggers[i], triggers[j], m) {
      if j < |t.triggers| {
        assert Spaced(t.triggers[i], t.triggers[j], m);
      } else {
        assert TriggerOk(t.triggers[i], t.schedules, t.policies);
      }
    }
  }

  /** The tables after a claim. */
  function Claim(t: Tables, s: Schedule, x: Trigger): Tables {
    t.(schedules := t.schedules[s.Id() := ClaimedAt(s, x.id, x.claimedAt)], triggers := t.triggers + [x])
  }

  lemma ClaimTimes(t: Tables, s: Schedule, x: Trigger)
    requires Inv(t) && s.Id() in t.schedules && s == t.schedules[s.Id()] && ClaimOf(s, x)
    ensures AllPaced(Claim(t, s, x).schedules, Claim(t, s, x).triggers)
    ensures AllSpaced(Claim(t, s, x).triggers, Claim(t, s, x).schedules)
  {
    assert Paced(s, t.triggers);
    ClaimSpaced(t, s, x, Claim(t, s, x).schedules);
    ClaimPaced(t.schedules, t.triggers, s, x);
  }

  lemma ClaimNumbered(t: Tables, s: Schedule, x: Trigger)
    requires NumberedClaims(t.triggers) && ClaimOf(s, x) && ClaimsMatch(s, t.triggers)
    ensures NumberedClaims(t.triggers + [x])
  {
    var log := t.triggers + [x];
    forall i | 0 <= i < |log| ensures log[i].ordinal == Claims(log[..i], log[i].schedule) + 1 {
      assert log[..i] == t.triggers[..i];
      assert t.triggers[..|t.triggers|] == t.triggers;
    }
  }

  lemma ClaimAuthority(t: Tables, s: Schedule, x: Trigger)
    requires RetainedOk(t) && JobsOk(t) && s.Id() in t.schedules && s == t.schedules[s.Id()]
    requires Unused(t, x.context.request)
    ensures RetainedOk(Claim(t, s, x)) && JobsOk(Claim(t, s, x))
  {
    assert SchedulesKept(t.schedules, Claim(t, s, x).schedules);
    ClaimDelegations(t, x, Claim(t, s, x).schedules);
    AuthorityFrame(t, Claim(t, s, x));
  }

  /** A due check edits the schedule, claims a run, or does nothing. */
  ghost predicate ClaimAt(t: Tables, t': Tables, id: Id, x: Trigger) {
    && id in t.schedules && ClaimOf(t.schedules[id], x) && t.schedules[id].Id() == id
    && t' == Claim(t, t.schedules[id], x) && HistoryOk(t')
    && Unused(t, x.id) && Unused(t, x.context.request) && Unused(t, x.reservation)
  }

  lemma ClaimWithinShape(t: Tables, id: Id, runtime: Id, issuer: int, now: nat, commit: nat, ids: FreshIds, room: bool)
    requires id in t.schedules && t.schedules[id].Id() == id && t.schedules[id].state == Waiting
    requires t.schedules[id].nextDue.Some? && t.schedules[id].nextDue.value <= now
    ensures var a := ClaimWithin(t, t.schedules[id], runtime, issuer, now, commit, ids, room);
            a.Done? ==> if a.value.None? then EditAt(t, a.tables, id) else ClaimAt(t, a.tables, id, a.value.value)
  {
    var s := t.schedules[id];
    var a := ClaimWithin(t, s, runtime, issuer, now, commit, ids, room);
    if a.Done? && a.value.None? {
      var p := t.policies[s.creation.policy];
      SaveEdits(t, id, ExhaustedAt(s, p, AllowanceAvailable(t.occurrences, p), now));
    }
  }

  lemma ClaimShape(t: Tables, id: Id, runtime: Id, issuer: int, now: nat, commit: nat, ids: FreshIds, room: bool)
    ensures var a := ClaimDue(t, id, runtime, issuer, now, commit, ids, room);
            a.Done? ==> if a.value.None? then a.tables == t || EditAt(t, a.tables, id)
                        else ClaimAt(t, a.tables, id, a.value.value)
  {
    var a := ClaimDue(t, id, runtime, issuer, now, commit, ids, room);
    if a.Done? {
      assert ScheduleOk(t.schedules[id], id, t.policies, t.definitions);
      var s := t.schedules[id];
      if s.state == Waiting && s.nextDue.Some? {
        var fault := DueFault(t, s, runtime, issuer, now, s.nextDue.value);
        if fault.Some? {
          InterruptEdits(t, id, fault.value, now);
        } else if s.nextDue.value <= now {
          ClaimWithinShape(t, id, runtime, issuer, now, commit, ids, room);
        }
      }
    }
  }

  lemma ClaimKeeps(t: Tables, t': Tables, id: Id, x: Trigger)
    requires Inv(t) && ClaimAt(t, t', id, x)
    ensures Inv(t')
  {
    ClaimNumbered(t, t.schedules[id], x);
    ClaimTimes(t, t.schedules[id], x);
    ClaimAuthority(t, t.schedules[id], x);
  }

  lemma LaunchShape(t: Tables, id: Id, runtime: Id, now: nat, commit: nat)
    ensures var a := BeginLaunch(t, id, runtime, now, commit);
            a.Done? ==> TriggerById(t.triggers, id).Some?
                        && (if a.value then EditAt(t, a.tables, TriggerById(t.triggers, id).value.schedule) else a.tables == t)
  {
    var a := BeginLaunch(t, id, runtime, now, commit);
    if a.Done? && a.value {
      var x := TriggerById(t.triggers, id).value;
      assert TriggerOk(x, t.schedules, t.policies);
      var s := t.schedules[x.schedule];
      assert ScheduleOk(s, x.schedule, t.policies, t.definitions);
      SaveEdits(t, x.schedule, Advanced(s, now).(launchedAt := Some(now)));
    }
  }

  lemma StopShape(t: Tables, id: Id, revision: nat, operation: Id, now: nat)
    ensures var a := StopSchedule(t, id, revision, operation, now);
            a.Done? ==> if a.value.1 then a.tables == t else EditAt(t, a.tables, id)
  {
    var a := StopSchedule(t, id, revision, operation, now);
    if a.Done? {
      assert ScheduleOk(t.schedules[id], id, t.policies, t.definitions);
      SaveEdits(t, id, StoppedBy(t.schedules[id], Receipt(operation, revision), now));
    }
  }

  lemma SettleEdits(s: Schedule, p: Policy, available: bool, now: nat)
    requires s.state == InFlight && s.observedAt <= now
    ensures Edits(s, Rearmed(s, now))
    ensures Edits(s, ExhaustedAt(s.(active := None, launchedAt := None), p, available, now))
  {
  }

  lemma SettlingEdits(t: Tables, s: Schedule, runtime: Id, issuer: int, now: nat)
    requires s.state == InFlight
    ensures var next := Settling(t, s, runtime, issuer, now);
            next.Some? ==> Edits(s, next.value) && Spent(next.value, t.policies, t.occurrences)
  {
    if s.observedAt <= now && s.creation.policy in t.policies {
      var p := t.policies[s.creation.policy];
      SettleEdits(s, p, AllowanceAvailable(t.occurrences, p), now);
    }
  }

  lemma SettleShape(t: Tables, id: Id, runtime: Id, issuer: int, now: nat)
    ensures var a := SettleSchedule(t, id, runtime, issuer, now); a.Done? ==> EditAt(t, a.tables, id)
  {
    var a := SettleSchedule(t, id, runtime, issuer, now);
    if a.Done? {
      var s := t.schedules[id];
      assert ScheduleOk(s, id, t.policies, t.definitions);
      SettlingEdits(t, s, runtime, issuer, now);
      SaveEdits(t, id, Settling(t, s, runtime, issuer, now).value);
    }
  }

  lemma InterruptScheduleShape(t: Tables, id: Id, reason: Reason, now: nat)
    ensures var a := InterruptSchedule(t, id, reason, now); a.Done? ==> a.tables == t || EditAt(t, a.tables, id)
  {
    if InterruptSchedule(t, id, reason, now).Done? {
      assert ScheduleOk(t.schedules[id], id, t.policies, t.definitions);
      InterruptEdits(t, id, reason, now);
    }
  }

  lemma InterruptTriggerShape(t: Tables, id: Id, reason: Reason, now: nat)
    ensures var a := InterruptTrigger(t, id, reason, now);
            a.Done? ==> TriggerById(t.triggers, id).Some?
                        && (a.tables == t || EditAt(t, a.tables, TriggerById(t.triggers, id).value.schedule))
  {
    if InterruptTrigger(t, id, reason, now).Done? {
      var x := TriggerById(t.triggers, id).value;
      assert TriggerOk(x, t.schedules, t.policies);
      assert ScheduleOk(t.schedules[x.schedule], x.schedule, t.policies, t.definitions);
      InterruptEdits(t, x.schedule, reason, now);
    }
  }

  /** Some schedules were retired in place and the whole history was checked again. */
  predicate RewriteAt(t: Tables, t': Tables) {
    && t' == t.(schedules := t'.schedules) && HistoryOk(t')
    && AllRetire(t.schedules, t'.schedules)
  }

  predicate AllRetire(m: map<Id, Schedule>, m': map<Id, Schedule>) {
    && m'.Keys == m.Keys
    && (forall id | id in m :: Lineage(m[id], m'[id]) && Retires(m[id], m'[id]))
  }

  /** An unchanged schedule, or one that is inactive with all its receipts and claims kept. */
  predicate Retires(s: Schedule, s': Schedule) {
    || s' == s
    || (&& !s'.Active() && s'.claimed == s.claimed && s'.active == s.active && s'.launchedAt == s.launchedAt
        && s'.stop == s.stop
        && (s.refusal.Some? ==> s'.refusal == s.refusal)
        && (s.resolution.Some? ==> s'.resolution == s.resolution)
        && (s'.refusal != s.refusal ==> s.state == InFlight && s.launchedAt.None?)
        && s'.state != Exhausted)
  }

  lemma RewriteKeeps(t: Tables, t': Tables)
    requires Inv(t) && RewriteAt(t, t')
    ensures Inv(t')
  {
    RewriteSchedules(t, t'.schedules);
  }

  lemma SaveRetires(t: Tables, id: Id, s': Schedule)
    requires s'.Id() == id && id in t.schedules
    requires Lineage(t.schedules[id], s') && Retires(t.schedules[id], s')
    ensures Save(t, s').Done? ==> AllRetire(t.schedules, Save(t, s').tables.schedules)
  {
  }

  lemma SaveRewrites(t: Tables, id: Id, s': Schedule)
    requires s'.Id() == id && id in t.schedules
    requires Lineage(t.schedules[id], s') && Retires(t.schedules[id], s')
    ensures Save(t, s').Done? && HistoryOk(Save(t, s').tables) ==> RewriteAt(t, Save(t, s').tables)
  {
    SaveRetires(t, id, s');
  }

  lemma ClaimedSchedule(t: Tables, id: Id)
    requires HistoryOk(t) && TriggerById(t.triggers, id).Some?
    ensures var x := TriggerById(t.triggers, id).value;
            x.schedule in t.schedules && t.schedules[x.schedule].Id() == x.schedule
  {
    var x := TriggerById(t.triggers, id).value;
    assert TriggerOk(x, t.schedules, t.policies);
    assert ScheduleOk(t.schedules[x.schedule], x.schedule, t.policies, t.definitions);
  }

  lemma RefusalShape(t: Tables, id: Id, runtime: Id, now: nat, sha: int)
    ensures var a := RecordRefusal(t, id, runtime, now, sha); a.Done? ==> a.tables == t || RewriteAt(t, a.tables)
  {
    var a := RecordRefusal(t, id, runtime, now, sha);
    if a.Done? {
      ClaimedSchedule(t, id);
      var x := TriggerById(t.triggers, id).value;
      var s := t.schedules[x.schedule];
      if s.refusal.None? && s.Holds(id) && s.launchedAt.None? {
        SaveRewrites(t, x.schedule, RefusedAt(s, x, now, sha));
      }
    }
  }

  lemma ResolveShape(t: Tables, id: Id, revision: nat, trigger: Id, hash: int, operation: Id, now: nat)
    ensures var a := ResolveRefusal(t, id, revision, trigger, hash, operation, now);
            a.Done? ==> if a.value.1 then a.tables == t else RewriteAt(t, a.tables)
  {
    var a := ResolveRefusal(t, id, revision, trigger, hash, operation, now);
    if a.Done? && !a.value.1 {
      assert ScheduleOk(t.schedules[id], id, t.policies, t.definitions);
      SaveRewrites(t, id, ResolvedBy(t.schedules[id], operation, trigger, hash, now));
    }
  }

  lemma RestartRetires(m: map<Id, Schedule>, clock: Id -> nat)
    ensures AllRetire(m, map id | id in m :: RestartedAt(m[id], clock(id)))
  {
  }

  lemma ReopenShape(t: Tables, clock: Id -> nat)
    ensures var a := Reopen(t, clock); a.Done? ==> RewriteAt(t, a.tables)
  {
    RestartRetires(t.schedules, clock);
  }

  // ------------------------------------------------------------------ job checkpoints

  /** One job was inserted or edited, under the job check and without touching a refused claim. */
  predicate JobAt(t: Tables, t': Tables, plan: Plan) {
    && t' == t.(jobs := t.jobs[plan.id := plan])
    && JobOk(plan, plan.id, t)
    && if plan.id in t.jobs
       then Editable(t.jobs[plan.id], plan) && JobOk(t.jobs[plan.id], plan.id, t)
       else FreshPlan(plan.(revision := 0))
            && (plan.context.Some? && TriggerByRequest(t.triggers, plan.context.value.request).Some? ==>
                  var x := TriggerByRequest(t.triggers, plan.context.value.request).value;
                  x.schedule in t.schedules && t.schedules[x.schedule].Holds(x.id) && plan.context.value == x.context)
  }

  lemma NewJobHarmless(t: Tables, plan: Plan)
    requires HistoryOk(t)
    requires plan.context.Some? && TriggerByRequest(t.triggers, plan.context.value.request).Some? ==>
               var x := TriggerByRequest(t.triggers, plan.context.value.request).value;
               x.schedule in t.schedules && t.schedules[x.schedule].Holds(x.id)
    ensures Harmless(t, plan)
  {
    if plan.context.Some? {
      forall id | id in t.schedules && t.schedules[id].refusal.Some? && LastClaim(t.triggers, t.schedules[id]).Some?
        ensures LastClaim(t.triggers, t.schedules[id]).value.context.request != plan.context.value.request
      {
        var y := LastClaim(t.triggers, t.schedules[id]).value;
        assert ScheduleOk(t.schedules[id], id, t.policies, t.definitions);
        if y.context.request == plan.context.value.request {
          UniqueOwner(t.triggers, y, TriggerByRequest(t.triggers, y.context.request).value, y.context.request);
        }
      }
    }
  }

  lemma OldJobHarmless(t: Tables, plan: Plan)
    requires HistoryOk(t) && plan.id in t.jobs && t.jobs[plan.id].context == plan.context
    ensures Harmless(t, plan)
  {
    forall id | id in t.schedules && t.schedules[id].refusal.Some? && LastClaim(t.triggers, t.schedules[id]).Some? && plan.context.Some?
      ensures LastClaim(t.triggers, t.schedules[id]).value.context.request != plan.context.value.request
    {
      assert RefusalMatches(t.schedules[id], t.triggers, t.occurrences, t.jobs);
    }
  }

  lemma FreshJobUnreserved(t: Tables, plan: Plan)
    requires RetainedOk(t) && ReceiptsDistinct(t.occurrences) && JobOk(plan, plan.id, t) && plan.id !in t.jobs
    ensures OccurrenceByJob(t.occurrences, plan.id).None?
  {
    if OccurrenceByJob(t.occurrences, plan.id).Some? {
      var r := OccurrenceByJob(t.occurrences, plan.id).value;
      var a := ArchiveOf(t.archives, r.Id()).value;
      assert ArchiveOk(a, t);
      UniqueReceipt(t.occurrences, r, OccurrenceById(t.occurrences, r.Id()).value);
    }
  }

  lemma JobKeeps(t: Tables, t': Tables, plan: Plan)
    requires Inv(t) && JobAt(t, t', plan)
    ensures Inv(t')
  {
    if plan.id in t.jobs {
      OldJobHarmless(t, plan);
    } else {
      NewJobHarmless(t, plan);
      FreshJobUnreserved(t, plan);
    }
    PutJob(t, plan);
  }

  lemma InsertShape(t: Tables, plan: Plan, now: nat, room: bool)
    requires RetainedOk(t) && ReceiptsDistinct(t.occurrences)
    ensures var a := InsertJob(t, plan, now, room);
            a.Done? ==> a.value.id !in t.jobs && JobAt(t, a.tables, a.value)
  {
    var a := InsertJob(t, plan, now, room);
    if a.Done? && OccurrenceByJob(t.occurrences, plan.id).Some? {
      var r := OccurrenceByJob(t.occurrences, plan.id).value;
      assert RetainedPlan(r, t.jobs, t.archives).Some?;
      var archive := ArchiveOf(t.archives, r.Id()).value;
      assert ArchiveOk(archive, t);
      UniqueReceipt(t.occurrences, r, OccurrenceById(t.occurrences, r.Id()).value);
    }
  }

  lemma AdmitShape(t: Tables, plan: Plan, same: bool, now: nat, room: bool)
    requires RetainedOk(t) && ReceiptsDistinct(t.occurrences)
    ensures var a := AdmitRequest(t, plan, same, now, room);
            a.Done? ==> if a.value.1 then a.tables == t
                        else a.value.0.id !in t.jobs && JobAt(t, a.tables, a.value.0)
  {
    InsertShape(t, plan, now, room);
  }

  lemma EditShape(t: Tables, id: Id, edited: Plan, gate: Option<Gate>, now: nat, room: bool)
    ensures var a := EditJob(t, id, edited, gate, now, room);
            a.Done? ==> id in t.jobs && a.value.id == id && JobAt(t, a.tables, a.value)
  {
  }

  /** A finished, unreserved and unclaimed job was removed. */
  predicate DropAt(t: Tables, t': Tables, id: Id) {
    && id in t.jobs && t' == t.(jobs := t.jobs - {id})
    && OccurrenceByJob(t.occurrences, id).None?
    && (t.jobs[id].context.Some? ==> TriggerByRequest(t.triggers, t.jobs[id].context.value.request).None?)
  }

  lemma RemoveShape(t: Tables, id: Id)
    ensures var a := RemoveFinished(t, id); a.Done? ==> DropAt(t, a.tables, id)
  {
  }

  lemma DropKeeps(t: Tables, t': Tables, id: Id)
    requires Inv(t) && DropAt(t, t', id)
    ensures Inv(t')
  {
    DropJob(t, id);
  }

  // ------------------------------------------------------------------ reserve and archive

  /** A reservation was appended together with the approval of its job. */
  predicate ReserveAt(t: Tables, t': Tables, r: Reservation) {
    && r.command.job in t.jobs
    && t' == t.(jobs := t.jobs[r.command.job := r.snapshot], occurrences := t.occurrences + [r])
    && OccurrencesOk(t') && JobOk(r.snapshot, r.command.job, t')
    && OccurrenceById(t.occurrences, r.Id()).None? && OccurrenceByJob(t.occurrences, r.command.job).None?
    && JobOk(t.jobs[r.command.job], r.command.job, t)
    && t.jobs[r.command.job].status == AwaitingApproval
    && r.snapshot.context == t.jobs[r.command.job].context
    && r.ordinal == Runs(t.occurrences, r.command.policy) + 1
    && DefinitionResolved(t, r.delegation.definition)
    && (r.snapshot.context.Some? && TriggerByRequest(t.triggers, r.snapshot.context.value.request).Some? ==>
          var x := TriggerByRequest(t.triggers, r.snapshot.context.value.request).value;
          && x.schedule in t.schedules && t.schedules[x.schedule].Holds(x.id)
          && x.context == r.snapshot.context.value && x.reservation == r.Id())
  }

  lemma ReserveShape(t: Tables, command: Reserve, runtime: Id, issuer: int, now: nat, commit: nat, stamped: nat, sha: int, room: bool)
    ensures var a := ReserveRun(t, command, runtime, issuer, now, commit, stamped, sha, room);
            a.Done? ==> a.value.0.command == command
                        && if a.value.1 then a.tables == t else ReserveAt(t, a.tables, a.value.0)
  {
  }

  lemma JobByFrame(occurrences: seq<Reservation>, r: Reservation, id: Id)
    requires r.command.job != id
    ensures OccurrenceByJob(occurrences + [r], id) == OccurrenceByJob(occurrences, id)
  {
    FindAppend(occurrences, r, ReservesJob(id));
  }

  lemma ReserveJobs(t: Tables, t': Tables, r: Reservation)
    requires JobsOk(t) && ReserveAt(t, t', r)
    ensures JobsOk(t')
  {
    forall id | id in t'.jobs ensures JobOk(t'.jobs[id], id, t') {
      if id != r.command.job {
        assert JobOk(t.jobs[id], id, t);
        JobByFrame(t.occurrences, r, id);
      }
    }
  }

  lemma ReserveReceipts(t: Tables, r: Reservation)
    requires ReceiptsDistinct(t.occurrences)
    requires OccurrenceById(t.occurrences, r.Id()).None? && OccurrenceByJob(t.occurrences, r.command.job).None?
    ensures ReceiptsDistinct(t.occurrences + [r])
  {
    var log := t.occurrences + [r];
    forall i, j | 0 <= i < j < |log| ensures !SameReceipt(log[i], log[j]) {
      assert log[i] in t.occurrences;
    }
  }

  lemma ReserveNumbered(t: Tables, r: Reservation)
    requires NumberedRuns(t.occurrences) && r.ordinal == Runs(t.occurrences, r.delegation.policy) + 1
    ensures NumberedRuns(t.occurrences + [r])
  {
    var log := t.occurrences + [r];
    forall i | 0 <= i < |log| ensures log[i].ordinal == Runs(log[..i], log[i].delegation.policy) + 1 {
      assert log[..i] == t.occurrences[..i];
      assert t.occurrences[..|t.occurrences|] == t.occurrences;
    }
  }

  lemma ReserveKeeps(t: Tables, t': Tables, r: Reservation)
    requires Inv(t) && ReserveAt(t, t', r)
    ensures Inv(t')
  {
    ReserveReceipts(t, r);
    assert r in t'.occurrences && OccurrenceOk(r, t');
    ReserveNumbered(t, r);
    ReserveJobs(t, t', r);
  }

  /** Terminal evidence replaced the live job of one reservation. */
  predicate ArchiveAt(t: Tables, t': Tables, a: Archive) {
    && a.command.job in t.jobs && a.terminal == t.jobs[a.command.job] && Resolved(a.terminal)
    && t' == t.(jobs := t.jobs - {a.command.job}, archives := t.archives + [a])
    && OccurrencesOk(t')
    && OccurrenceById(t.occurrences, a.command.reservation).Some?
    && OccurrenceById(t.occurrences, a.command.reservation).value.command.job == a.command.job
    && ArchiveById(t.archives, a.Id()).None? && ArchiveOf(t.archives, a.command.reservation).None?
  }

  lemma ArchiveShape(t: Tables, command: ArchiveCommand, runtime: Id, now: nat, commit: nat, room: bool)
    ensures var a := ArchiveRun(t, command, runtime, now, commit, room);
            a.Done? ==> a.value.0.command == command
                        && if a.value.1 then a.tables == t else ArchiveAt(t, a.tables, a.value.0)
  {
  }

  lemma ArchiveKeeps(t: Tables, t': Tables, a: Archive)
    requires Inv(t) && ArchiveAt(t, t', a)
    ensures Inv(t')
  {
    forall id | id in t'.jobs ensures JobOk(t'.jobs[id], id, t') {
      assert JobOk(t.jobs[id], id, t);
    }
  }

  // ------------------------------------------------------------------ definitions and policies

  /** A definition or policy was added, or retired once by its own receipt. */
  predicate AuthorityAt(t: Tables, t': Tables) {
    && t' == t.(policies := t'.policies, definitions := t'.definitions)
    && PoliciesKept(t.policies, t'.policies) && DefinitionsKept(t.definitions, t'.definitions)
    && (forall id | id in t.policies && t.policies[id].revocation.Some? :: t'.policies[id] == t.policies[id])
    && (forall id | id in t.definitions && t.definitions[id].removal.Some? :: t'.definitions[id] == t.definitions[id])
    && PoliciesOk(t'.policies, t'.definitions) && GenerationsOk(t'.policies)
    && DefinitionsOk(t'.definitions)
    && (forall id | id in t'.policies && id !in t.policies :: t'.policies[id].id == id)
  }

  lemma NewBudgets(t: Tables, policies: map<Id, Policy>)
    requires RetainedOk(t) && PoliciesKept(t.policies, policies)
    requires forall id | id in policies :: policies[id].id == id
    ensures BudgetsOk(t.occurrences, policies)
  {
    forall id | id in policies ensures GroupOk(t.occurrences, policies[id]) {
      if id in t.policies {
        assert GroupOk(t.occurrences, t.policies[id]);
      } else {
        forall r | r in t.occurrences ensures r.delegation.policy != id {
          assert OccurrenceOk(r, t);
        }
        CountNone(t.occurrences, OfPolicy(id));
        SumNone(t.occurrences, MsOf(id));
        SumNone(t.occurrences, BytesOf(id));
      }
    }
  }

  lemma AuthorityKeeps(t: Tables, t': Tables)
    requires Inv(t) && AuthorityAt(t, t')
    ensures Inv(t')
  {
    NewBudgets(t, t'.policies);
    PutAuthority(t, t'.policies, t'.definitions);
  }

  lemma DefineShape(t: Tables, command: Define, now: nat, sha: int, room: bool)
    requires PoliciesOk(t.policies, t.definitions) && GenerationsOk(t.policies) && DefinitionsOk(t.definitions)
    ensures var a := DefineAutomation(t, command, now, sha, room);
            a.Done? ==> if a.value.1 then a.tables == t else AuthorityAt(t, a.tables)
  {
    var a := DefineAutomation(t, command, now, sha, room);
    if a.Done? && !a.value.1 {
      forall id | id in t.policies ensures PolicyOk(t.policies[id], id, a.tables.definitions) {
        assert PolicyOk(t.policies[id], id, t.definitions);
      }
    }
  }

  lemma RemoveDefinitionShape(t: Tables, id: Id, revision: nat, operation: Id)
    requires PoliciesOk(t.policies, t.definitions) && GenerationsOk(t.policies) && DefinitionsOk(t.definitions)
    ensures var a := RemoveDefinition(t, id, revision, operation);
            a.Done? ==> if a.value.1 then a.tables == t else AuthorityAt(t, a.tables)
  {
    var a := RemoveDefinition(t, id, revision, operation);
    if a.Done? && !a.value.1 {
      forall p | p in t.policies ensures PolicyOk(t.policies[p], p, a.tables.definitions) {
        assert PolicyOk(t.policies[p], p, t.definitions);
      }
    }
  }

  lemma NextGeneration(policies: map<Id, Policy>, p: Policy)
    requires GenerationsOk(policies) && p.id !in policies
    requires Latest(policies, p.creation.definition, p.creation.generation) && p.generation == p.creation.generation + 1
    ensures GenerationsOk(policies[p.id := p])
  {
    var m := policies[p.id := p];
    forall a, g | a in m && 1 <= g < m[a].generation ensures HasGeneration(m, m[a].creation.definition, g) {
      if a in policies && a != p.id {
        GenerationKept(policies, m, m[a].creation.definition, g);
      } else if g == p.creation.generation {
        GenerationKept(policies, m, p.creation.definition, g);
      } else {
        var b :| b in policies && policies[b].creation.definition == p.creation.definition
                 && policies[b].generation == p.creation.generation;
        assert HasGeneration(policies, policies[b].creation.definition, g);
        GenerationKept(policies, m, p.creation.definition, g);
      }
    }
  }

  lemma GenerationKept(policies: map<Id, Policy>, m: map<Id, Policy>, definition: Id, g: nat)
    requires PoliciesKept(policies, m) && HasGeneration(policies, definition, g)
    ensures HasGeneration(m, definition, g)
  {
    var b :| b in policies && policies[b].creation.definition == definition && policies[b].generation == g;
    assert m[b].generation == g;
  }

  lemma ApproveShape(t: Tables, candidate: Policy, runtime: Id, now: nat, room: bool)
    requires DefinitionsOk(t.definitions)
    ensures var a := ApprovePolicy(t, candidate, runtime, now, room);
            a.Done? ==> if a.value.1 then a.tables == t else AuthorityAt(t, a.tables)
  {
    var a := ApprovePolicy(t, candidate, runtime, now, room);
    if a.Done? && !a.value.1 {
      NextGeneration(t.policies, candidate);
    }
  }

  lemma RevokeGenerations(policies: map<Id, Policy>, m: map<Id, Policy>)
    requires GenerationsOk(policies) && PoliciesKept(policies, m) && m.Keys == policies.Keys
    ensures GenerationsOk(m)
  {
    forall a, b | a in m && b in m && a != b ensures !SameGeneration(m[a], m[b]) {
      assert !SameGeneration(policies[a], policies[b]);
    }
    forall a, g | a in m && 1 <= g < m[a].generation ensures HasGeneration(m, m[a].creation.definition, g) {
      GenerationKept(policies, m, policies[a].creation.definition, g);
    }
  }

  lemma RevokedPolicies(policies: map<Id, Policy>, id: Id, p: Policy, definitions: map<Id, Definition>)
    requires PoliciesOk(policies, definitions) && id in policies
    requires p == policies[id].(revocation := p.revocation)
    requires p.revocation.Some? && p.revocation.value.operation != id && p.revocation.value.revision == 1
    ensures PoliciesOk(policies[id := p], definitions) && PoliciesKept(policies, policies[id := p])
  {
    assert PolicyOk(policies[id], id, definitions);
  }

  lemma RevokeShape(t: Tables, id: Id, revision: nat, operation: Id, now: nat)
    requires DefinitionsOk(t.definitions)
    ensures var a := RevokePolicy(t, id, revision, operation, now);
            a.Done? ==> if a.value.1 then a.tables == t else AuthorityAt(t, a.tables)
  {
    var a := RevokePolicy(t, id, revision, operation, now);
    if a.Done? && !a.value.1 {
      RevokedPolicies(t.policies, id, a.value.0, t.definitions);
      RevokeGenerations(t.policies, a.tables.policies);
    }
  }
}
