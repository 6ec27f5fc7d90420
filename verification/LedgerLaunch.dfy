/**
 The launch path.  A launch that fails gives its claim up if the claim was marked as launched or its source is
 not ambiguous, and its schedule can still be saved; otherwise it changes nothing and the claim stays held.
 */
module LedgerLaunch {
  import opened Prelude
  import opened Records
  import opened Ledger
  import opened LedgerInvariant
  import opened LedgerSteps
  import opened LedgerRuns
  import opened LedgerEvolution
  import opened LedgerTheorems

  // ------------------------------------------------------------------ jobs of a claimed request

  /** Every job that names a claimed request carries that claim's whole context. */
  predicate RequestsExact(t: Tables) {
    forall id, x | id in t.jobs && t.jobs[id].context.Some? && x in t.triggers ::
      x.context.request == t.jobs[id].context.value.request ==> t.jobs[id].context == Some(x.context)
  }

  lemma JobRequests(t: Tables, t': Tables, plan: Plan)
    requires RequestsExact(t) && IdentitiesOk(t.triggers) && JobAt(t, t', plan)
    ensures RequestsExact(t')
  {
    if plan.id !in t.jobs && plan.context.Some? {
      forall x | x in t.triggers && x.context.request == plan.context.value.request
        ensures plan.context == Some(x.context)
      {
        UniqueOwner(t.triggers, x, TriggerByRequest(t.triggers, x.context.request).value, x.context.request);
      }
    }
  }

  lemma ReserveRequests(t: Tables, t': Tables, r: Reservation)
    requires RequestsExact(t) && ReserveAt(t, t', r)
    ensures RequestsExact(t')
  {
  }

  lemma ClaimRequests(t: Tables, t': Tables, id: Id, x: Trigger)
    requires RequestsExact(t) && ClaimAt(t, t', id, x)
    ensures RequestsExact(t')
  {
  }

  lemma MoveRequests(t: Tables, m: Move, t': Tables)
    requires RequestsExact(t) && IdentitiesOk(t.triggers) && Moves(t, m, t')
    ensures RequestsExact(t')
  {
    match m
    case JobMove(plan) => JobRequests(t, t', plan);
    case ReserveMove(r) => ReserveRequests(t, t', r);
    case ClaimMove(id, x) => ClaimRequests(t, t', id, x);
    case _ => assert t'.triggers == t.triggers && forall id | id in t'.jobs :: id in t.jobs && t'.jobs[id] == t.jobs[id];
  }

  lemma {:induction false} RunRequests(events: seq<Event>)
    ensures Inv(Run(EMPTY, events)) && RequestsExact(Run(EMPTY, events))
  {
    EmptyInv();
    RunKeeps(EMPTY, events);
    if events != [] {
      var before := Run(EMPTY, events[..|events| - 1]);
      RunRequests(events[..|events| - 1]);
      var m := Classify(before, events[|events| - 1]);
      MoveRequests(before, m, Run(EMPTY, events));
    }
  }

  // ------------------------------------------------------------------ a failed launch

  /** The error branch of a launch: record a refusal, or else interrupt the claim. */
  ghost function FailLaunch(t: Tables, id: Id, runtime: Id, now: nat, sha: int, later: nat): Tables {
    match RecordRefusal(t, id, runtime, now, sha)
    case Refused => t
    case Done(t', recorded) => if recorded then t' else After(t', InterruptTrigger(t', id, LaunchFailed, later))
  }

  lemma InterruptSaves(t: Tables, id: Id, reason: Reason, now: nat)
    requires id in t.schedules && ScheduleOk(t.schedules[id], id, t.policies, t.definitions)
    requires t.schedules[id].Active() && t.schedules[id].revision + 1 < U64_LIMIT && now > 0 && Interruption(reason)
    ensures Save(t, InterruptedAt(t.schedules[id], reason, now)).Done?
  {
  }

  lemma RefusalSaves(t: Tables, id: Id, x: Trigger, now: nat, sha: int)
    requires id in t.schedules && ScheduleOk(t.schedules[id], id, t.policies, t.definitions)
    requires t.schedules[id].Holds(x.id) && t.schedules[id].revision + 1 < U64_LIMIT && now > 0
    requires t.schedules[id].launchedAt.None? && x.id != NIL
    ensures Save(t, RefusedAt(t.schedules[id], x, now, sha)).Done?
  {
  }

  lemma HeldIsLast(t: Tables, x: Trigger)
    requires HistoryOk(t) && x in t.triggers && t.schedules[x.schedule].Holds(x.id)
    ensures LastClaim(t.triggers, t.schedules[x.schedule]) == Some(x)
    ensures TriggerById(t.triggers, x.id) == Some(x)
  {
    assert TriggerOk(x, t.schedules, t.policies);
    assert ClaimsMatch(t.schedules[x.schedule], t.triggers);
    UniqueOwner(t.triggers, x, LastClaim(t.triggers, t.schedules[x.schedule]).value, x.id);
    UniqueOwner(t.triggers, x, TriggerById(t.triggers, x.id).value, x.id);
  }

  lemma MissingUnrequested(t: Tables, x: Trigger)
    requires RequestsExact(t) && x in t.triggers && SourceJob(t, x).Missing?
    ensures !Requested(t.jobs, x.context.request) && OccurrenceById(t.occurrences, x.reservation).None?
  {
    assert forall id | id in t.jobs && t.jobs[id].context == Some(x.context) :: id in SourceJobs(t.jobs, x.context);
  }

  lemma RefusalFits(t: Tables, s: Schedule, x: Trigger, now: nat, sha: int)
    requires s.Id() in t.schedules && t.schedules[s.Id()] == s && s.Holds(x.id)
    requires ScheduleOk(RefusedAt(s, x, now, sha), s.Id(), t.policies, t.definitions)
    requires ClaimsMatch(s, t.triggers) && Paced(s, t.triggers) && LastClaim(t.triggers, s) == Some(x)
    requires !Requested(t.jobs, x.context.request) && OccurrenceById(t.occurrences, x.reservation).None?
    ensures Fits(RefusedAt(s, x, now, sha), t)
  {
    var s' := RefusedAt(s, x, now, sha);
    assert LastClaim(t.triggers, s') == LastClaim(t.triggers, s);
    assert forall k: nat :: Pace(s', k) == Pace(s, k);
  }

  /** Recording a refusal of unlaunched, sourceless work never fails its own re-check. */
  lemma RefusalCommits(t: Tables, x: Trigger, now: nat, sha: int)
    requires HistoryOk(t) && AllPaced(t.schedules, t.triggers) && RequestsExact(t)
    requires x in t.triggers && t.schedules[x.schedule].Holds(x.id)
    requires t.schedules[x.schedule].launchedAt.None? && SourceJob(t, x).Missing?
    requires t.schedules[x.schedule].revision + 1 < U64_LIMIT && now > 0
    ensures var saved := Save(t, RefusedAt(t.schedules[x.schedule], x, now, sha)); saved.Done? && HistoryOk(saved.tables)
  {
    var s := t.schedules[x.schedule];
    assert TriggerOk(x, t.schedules, t.policies);
    assert ScheduleOk(s, x.schedule, t.policies, t.definitions);
    HeldIsLast(t, x);
    MissingUnrequested(t, x);
    RefusalSaves(t, x.schedule, x, now, sha);
    assert ClaimsMatch(s, t.triggers) && Paced(s, t.triggers);
    RefusalFits(t, s, x, now, sha);
    PutHistory(t, RefusedAt(s, x, now, sha));
  }

  lemma RefusedLaunch(t: Tables, x: Trigger, s: Schedule, now: nat, sha: int)
    requires HistoryOk(t) && TriggerById(t.triggers, x.id) == Some(x)
    requires x.schedule in t.schedules && t.schedules[x.schedule] == s
    requires s.Holds(x.id) && s.refusal.None? && s.launchedAt.None? && SourceJob(t, x) == Missing
    requires Save(t, RefusedAt(s, x, now, sha)).Done? && HistoryOk(Save(t, RefusedAt(s, x, now, sha)).tables)
    ensures RecordRefusal(t, x.id, s.runtime, now, sha) == Done(Save(t, RefusedAt(s, x, now, sha)).tables, true)
  {
  }

  lemma InterruptedLaunch(t: Tables, x: Trigger, s: Schedule, now: nat, sha: int, later: nat)
    requires HistoryOk(t) && TriggerById(t.triggers, x.id) == Some(x)
    requires x.schedule in t.schedules && t.schedules[x.schedule] == s
    requires s.Holds(x.id) && s.refusal.None? && (s.launchedAt.Some? || SourceJob(t, x).Found?)
    requires Save(t, InterruptedAt(s, LaunchFailed, later)).Done?
    ensures FailLaunch(t, x.id, s.runtime, now, sha, later) == Save(t, InterruptedAt(s, LaunchFailed, later)).tables
  {
  }

  /** A revision and a clock reading with which a schedule can still be saved. */
  predicate Savable(s: Schedule, now: nat) { s.revision + 1 < U64_LIMIT && now > 0 }

  lemma UnsavableSaves(t: Tables, s: Schedule, now: nat)
    requires !Savable(s, now)
    ensures forall s': Schedule | s'.revision == s.revision + 1 && s'.observedAt == now :: Save(t, s').Refused?
  {
  }

  lemma StuckRefusal(t: Tables, x: Trigger, s: Schedule, now: nat, sha: int, later: nat)
    requires HistoryOk(t) && TriggerById(t.triggers, x.id) == Some(x)
    requires x.schedule in t.schedules && t.schedules[x.schedule] == s
    requires s.Holds(x.id) && s.refusal.None? && s.launchedAt.None?
    requires SourceJob(t, x).Ambiguous? || (SourceJob(t, x).Missing? && !Savable(s, now))
    ensures FailLaunch(t, x.id, s.runtime, now, sha, later) == t
  {
    if !Savable(s, now) {
      UnsavableSaves(t, s, now);
    }
  }

  lemma StuckInterrupt(t: Tables, x: Trigger, s: Schedule, now: nat, sha: int, later: nat)
    requires HistoryOk(t) && TriggerById(t.triggers, x.id) == Some(x)
    requires x.schedule in t.schedules && t.schedules[x.schedule] == s
    requires s.Holds(x.id) && s.refusal.None? && (s.launchedAt.Some? || SourceJob(t, x).Found?) && !Savable(s, later)
    ensures FailLaunch(t, x.id, s.runtime, now, sha, later) == t
  {
    UnsavableSaves(t, s, later);
  }

  /** What the error branch makes of the schedule that holds the claim. */
  ghost function LaunchEnd(t: Tables, x: Trigger, s: Schedule, now: nat, sha: int, later: nat): Schedule {
    if s.launchedAt.Some? || SourceJob(t, x).Found? then
      if Savable(s, later) then InterruptedAt(s, LaunchFailed, later) else s
    else if SourceJob(t, x).Missing? && Savable(s, now) then RefusedAt(s, x, now, sha)
    else s
  }

  lemma FailedMarked(t: Tables, x: Trigger, s: Schedule, now: nat, sha: int, later: nat)
    requires HistoryOk(t) && TriggerById(t.triggers, x.id) == Some(x)
    requires x.schedule in t.schedules && t.schedules[x.schedule] == s && ScheduleOk(s, x.schedule, t.policies, t.definitions)
    requires s.Holds(x.id) && (s.launchedAt.Some? || SourceJob(t, x).Found?)
    ensures FailLaunch(t, x.id, s.runtime, now, sha, later).schedules == t.schedules[x.schedule := LaunchEnd(t, x, s, now, sha, later)]
    ensures FailLaunch(t, x.id, s.runtime, now, sha, later) == t.(schedules := FailLaunch(t, x.id, s.runtime, now, sha, later).schedules)
  {
    if Savable(s, later) {
      InterruptSaves(t, x.schedule, LaunchFailed, later);
      InterruptedLaunch(t, x, s, now, sha, later);
    } else {
      StuckInterrupt(t, x, s, now, sha, later);
      assert t.schedules == t.schedules[x.schedule := s];
    }
  }

  lemma RefusalEnds(t: Tables, id: Id, runtime: Id, now: nat, sha: int, later: nat, t': Tables)
    requires RecordRefusal(t, id, runtime, now, sha) == Done(t', true)
    ensures FailLaunch(t, id, runtime, now, sha, later) == t'
  {
  }

  lemma SavedSchedules(t: Tables, s: Schedule)
    requires Save(t, s).Done?
    ensures Save(t, s).tables == t.(schedules := t.schedules[s.Id() := s])
  {
  }

  lemma RecordsRefusal(t: Tables, x: Trigger, s: Schedule, now: nat, sha: int)
    requires HistoryOk(t) && AllPaced(t.schedules, t.triggers) && RequestsExact(t)
    requires x in t.triggers && TriggerById(t.triggers, x.id) == Some(x)
    requires x.schedule in t.schedules && t.schedules[x.schedule] == s && s.refusal.None?
    requires s.Holds(x.id) && s.launchedAt.None? && SourceJob(t, x).Missing? && Savable(s, now)
    ensures RecordRefusal(t, x.id, s.runtime, now, sha)
            == Done(t.(schedules := t.schedules[s.Id() := RefusedAt(s, x, now, sha)]), true)
  {
    RefusalCommits(t, x, now, sha);
    RefusedLaunch(t, x, s, now, sha);
    SavedSchedules(t, RefusedAt(s, x, now, sha));
  }

  lemma RefusedEnd(t: Tables, x: Trigger, s: Schedule, now: nat, sha: int, later: nat)
    requires HistoryOk(t) && AllPaced(t.schedules, t.triggers) && RequestsExact(t)
    requires x in t.triggers && TriggerById(t.triggers, x.id) == Some(x)
    requires x.schedule in t.schedules && t.schedules[x.schedule] == s && s.refusal.None?
    requires s.Holds(x.id) && s.launchedAt.None? && SourceJob(t, x).Missing? && Savable(s, now)
    ensures FailLaunch(t, x.id, s.runtime, now, sha, later) == t.(schedules := t.schedules[s.Id() := RefusedAt(s, x, now, sha)])
  {
    RecordsRefusal(t, x, s, now, sha);
    RefusalEnds(t, x.id, s.runtime, now, sha, later, t.(schedules := t.schedules[s.Id() := RefusedAt(s, x, now, sha)]));
  }

  lemma FailedUnmarked(t: Tables, x: Trigger, s: Schedule, now: nat, sha: int, later: nat)
    requires HistoryOk(t) && AllPaced(t.schedules, t.triggers) && RequestsExact(t)
    requires x in t.triggers && TriggerById(t.triggers, x.id) == Some(x)
    requires x.schedule in t.schedules && t.schedules[x.schedule] == s && ScheduleOk(s, x.schedule, t.policies, t.definitions)
    requires s.Holds(x.id) && s.launchedAt.None? && !SourceJob(t, x).Found? && s.refusal.None? && x.id != NIL
    ensures FailLaunch(t, x.id, s.runtime, now, sha, later).schedules == t.schedules[x.schedule := LaunchEnd(t, x, s, now, sha, later)]
    ensures FailLaunch(t, x.id, s.runtime, now, sha, later) == t.(schedules := FailLaunch(t, x.id, s.runtime, now, sha, later).schedules)
  {
    if SourceJob(t, x).Missing? && Savable(s, now) {
      RefusedEnd(t, x, s, now, sha, later);
    } else {
      StuckRefusal(t, x, s, now, sha, later);
      assert t.schedules == t.schedules[x.schedule := s];
    }
  }

  lemma FailedLaunch(t: Tables, x: Trigger, s: Schedule, now: nat, sha: int, later: nat)
    requires HistoryOk(t) && AllPaced(t.schedules, t.triggers) && RequestsExact(t)
    requires x in t.triggers && x.schedule in t.schedules && t.schedules[x.schedule] == s && s.Holds(x.id)
    ensures FailLaunch(t, x.id, s.runtime, now, sha, later) == t.(schedules := t.schedules[x.schedule := LaunchEnd(t, x, s, now, sha, later)])
    ensures s.refusal.None?
  {
    HeldIsLast(t, x);
    assert ScheduleOk(s, x.schedule, t.policies, t.definitions);
    if s.launchedAt.Some? || SourceJob(t, x).Found? {
      FailedMarked(t, x, s, now, sha, later);
    } else {
      FailedUnmarked(t, x, s, now, sha, later);
    }
  }

  lemma LaunchEndState(t: Tables, x: Trigger, s: Schedule, now: nat, sha: int, later: nat)
    requires s.Holds(x.id) && s.refusal.None?
    ensures var end := LaunchEnd(t, x, s, now, sha, later);
            var refusing := s.launchedAt.None? && SourceJob(t, x).Missing?;
            && (!end.Holds(x.id) <==>
                  && (s.launchedAt.Some? || !SourceJob(t, x).Ambiguous?)
                  && s.revision + 1 < U64_LIMIT && (if refusing then now else later) > 0)
            && (end.refusal.Some? <==> !end.Holds(x.id) && refusing)
  {
  }

  /** A failed launch of a held claim releases it exactly when its source is not ambiguous, or it had been
      marked as launched, and the schedule can still be saved.  It leaves refusal evidence exactly when
      nothing was launched and no source job exists, and touches no other record. */
  lemma FailedLaunchReleases(t: Tables, x: Trigger, now: nat, sha: int, later: nat)
    requires Reachable(t) && x in t.triggers && x.schedule in t.schedules && t.schedules[x.schedule].Holds(x.id)
    ensures var s := t.schedules[x.schedule];
            var t' := FailLaunch(t, x.id, s.runtime, now, sha, later);
            var refusing := s.launchedAt.None? && SourceJob(t, x).Missing?;
            && x.schedule in t'.schedules && t' == t.(schedules := t.schedules[x.schedule := t'.schedules[x.schedule]])
            && (Released(t', x) <==>
                  && (s.launchedAt.Some? || !SourceJob(t, x).Ambiguous?)
                  && s.revision + 1 < U64_LIMIT && (if refusing then now else later) > 0)
            && (t'.schedules[x.schedule].refusal.Some? <==> Released(t', x) && refusing)
  {
    var events :| t == Run(EMPTY, events);
    RunRequests(events);
    FailedLaunch(t, x, t.schedules[x.schedule], now, sha, later);
    LaunchEndState(t, x, t.schedules[x.schedule], now, sha, later);
  }
}
