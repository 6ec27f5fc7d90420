/** What ends for good: schedules that were stopped or interrupted, and authority that was withdrawn. */
module LedgerAuthority {
  import opened Prelude
  import opened Records
  import opened Ledger
  import opened LedgerInvariant
  import opened LedgerSteps
  import opened LedgerRuns
  import opened LedgerEvolution
  import opened LedgerTheorems
  import opened LedgerReceipts
  import opened LedgerLaunch
  import opened LedgerClaims

  // ------------------------------------------------------------------ schedules

  /** A schedule that is not active never is again, claims nothing more and lets none of its claims live. */
  lemma EndedForever(t: Tables, id: Id, events: seq<Event>)
    requires Reachable(t) && id in t.schedules && !t.schedules[id].Active()
    ensures id in Run(t, events).schedules && !Run(t, events).schedules[id].Active()
    ensures Claims(Run(t, events).triggers, id) == Claims(t.triggers, id)
    ensures forall x | x in Run(t, events).triggers && x.schedule == id :: Released(Run(t, events), x)
  {
    Later(t, events);
    assert ScheduleEvolves(t.schedules[id], Run(t, events).schedules[id]);
    assert ScheduleOk(t.schedules[id], id, t.policies, t.definitions) && ClaimsMatch(t.schedules[id], t.triggers);
    EndedClaims(Run(t, events), id);
  }

  lemma EndedClaims(t: Tables, id: Id)
    requires HistoryOk(t) && id in t.schedules && !t.schedules[id].Active()
    ensures Claims(t.triggers, id) == t.schedules[id].claimed
  {
    assert ScheduleOk(t.schedules[id], id, t.policies, t.definitions);
    assert ClaimsMatch(t.schedules[id], t.triggers);
  }

  lemma StopEnds(t: Tables, id: Id, revision: nat, op: Id, now: nat)
    requires StopSchedule(t, id, revision, op, now).Done?
    ensures var t' := StopSchedule(t, id, revision, op, now).tables;
            && id in t.schedules && id in t'.schedules && !t'.schedules[id].Active()
            && t' == t.(schedules := t.schedules[id := t'.schedules[id]])
  {
    assert ScheduleOk(t.schedules[id], id, t.policies, t.definitions);
    assert t == t.(schedules := t.schedules[id := t.schedules[id]]);
  }

  /** A stop ends its schedule for good, and changes no other record. */
  lemma StoppedForever(t: Tables, id: Id, revision: nat, op: Id, now: nat, events: seq<Event>)
    requires Reachable(t) && StopSchedule(t, id, revision, op, now).Done?
    ensures var stopped := StopSchedule(t, id, revision, op, now).tables;
            var later := Run(stopped, events);
            && stopped.triggers == t.triggers && id in later.schedules && !later.schedules[id].Active()
            && later.schedules[id].stop == Some(Receipt(op, revision))
            && Claims(later.triggers, id) == Claims(t.triggers, id)
            && forall x | x in later.triggers && x.schedule == id :: Released(later, x)
  {
    var stopped := StopSchedule(t, id, revision, op, now).tables;
    StopEnds(t, id, revision, op, now);
    StopReachable(t, id, revision, op, now);
    StopCommits(t, id, revision, op, now);
    EndedForever(stopped, id, events);
    RetainsForever(stopped, events, Stops(id, Receipt(op, revision)));
  }

  lemma InterruptionSaves(t: Tables, s: Schedule, reason: Reason, now: nat)
    requires s.Id() in t.schedules && t.schedules[s.Id()] == s && s.Active() && ScheduleOk(s, s.Id(), t.policies, t.definitions)
    ensures Save(t, InterruptedAt(s, reason, now)).Done? <==> Savable(s, now) && Interruption(reason)
  {
    if Savable(s, now) && Interruption(reason) {
      InterruptSaves(t, s.Id(), reason, now);
    }
  }

  /** An interruption is refused only when the schedule cannot be saved; it ends an active schedule, leaves any
      other as it is, and changes no other record. */
  lemma InterruptEnds(t: Tables, id: Id, reason: Reason, now: nat)
    requires Reachable(t) && id in t.schedules
    ensures var a := InterruptSchedule(t, id, reason, now);
            && (a.Done? <==> (t.schedules[id].Active() ==> Savable(t.schedules[id], now) && Interruption(reason)))
            && (a.Done? ==> id in a.tables.schedules && !a.tables.schedules[id].Active()
                            && a.tables == t.(schedules := t.schedules[id := a.tables.schedules[id]])
                            && a.tables.schedules[id].active == t.schedules[id].active)
            && (!t.schedules[id].Active() ==> a.tables == t)
  {
    Checks(t);
    assert ScheduleOk(t.schedules[id], id, t.policies, t.definitions);
    assert t.schedules == t.schedules[id := t.schedules[id]];
    if t.schedules[id].Active() {
      InterruptionSaves(t, t.schedules[id], reason, now);
    }
  }

  lemma Checks(t: Tables)
    requires Reachable(t)
    ensures HistoryOk(t)
  {
    ReachableInv(t);
  }

  /** Interrupting a claim ends only the schedule that still holds it: a schedule that has moved on to
      another claim, or was stopped, is not touched. */
  lemma InterruptTriggerOnly(t: Tables, x: Trigger, reason: Reason, now: nat)
    requires Reachable(t) && x in t.triggers
    ensures x.schedule in t.schedules
    ensures var s := t.schedules[x.schedule];
            var a := InterruptTrigger(t, x.id, reason, now);
            && (a.Done? <==> (s.Holds(x.id) ==> Savable(s, now) && Interruption(reason)))
            && (a.Done? ==> Released(a.tables, x) && a.tables == t.(schedules := a.tables.schedules))
            && (!s.Holds(x.id) ==> a.tables == t)
  {
    Checks(t);
    assert TriggerOk(x, t.schedules, t.policies);
    var s := t.schedules[x.schedule];
    assert ScheduleOk(s, x.schedule, t.policies, t.definitions);
    UniqueOwner(t.triggers, x, TriggerById(t.triggers, x.id).value, x.id);
    if s.Holds(x.id) {
      InterruptionSaves(t, s, reason, now);
    }
  }

  // ------------------------------------------------------------------ policies

  ghost predicate Superseded(t: Tables, p: Policy) {
    exists id | id in t.policies :: t.policies[id].creation.definition == p.creation.definition && t.policies[id].generation > p.generation
  }

  /** The policy was revoked, its definition removed, or a newer generation approved. */
  ghost predicate Withdrawn(t: Tables, id: Id) {
    && id in t.policies && t.policies[id].creation.definition in t.definitions
    && (|| t.policies[id].revocation.Some?
        || t.definitions[t.policies[id].creation.definition].removal.Some?
        || Superseded(t, t.policies[id]))
  }

  lemma WithdrawnStays(t: Tables, t': Tables, id: Id)
    requires AuthorityEvolves(t, t') && Withdrawn(t, id)
    ensures Withdrawn(t', id)
  {
    var p := t.policies[id];
    assert t'.policies[id] == p.(revocation := t'.policies[id].revocation);
    if Superseded(t, p) {
      var q :| q in t.policies && t.policies[q].creation.definition == p.creation.definition && t.policies[q].generation > p.generation;
      assert t'.policies[q] == t.policies[q].(revocation := t'.policies[q].revocation);
    }
  }

  lemma WithdrawnIsNotCurrent(t: Tables, id: Id, runtime: Id, issuer: int, now: nat)
    requires Withdrawn(t, id)
    ensures !CurrentAt(t.policies[id], t.definitions[t.policies[id].creation.definition], t.policies, runtime, issuer, now)
  {
  }

  /** A withdrawn policy arms nothing, claims nothing and reserves nothing: only exact repeats still answer. */
  lemma WithdrawnArmsNothing(t: Tables, c: Arm, runtime: Id, issuer: int, now: nat, commit: nat, room: bool)
    requires Withdrawn(t, c.policy)
    ensures var a := ArmSchedule(t, c, runtime, issuer, now, commit, room); a.Done? ==> a.tables == t
  {
    WithdrawnIsNotCurrent(t, c.policy, runtime, issuer, now);
  }

  lemma WithdrawnReservesNothing(t: Tables, c: Reserve, runtime: Id, issuer: int, now: nat, commit: nat, stamped: nat, sha: int, room: bool)
    requires Withdrawn(t, c.policy)
    ensures var a := ReserveRun(t, c, runtime, issuer, now, commit, stamped, sha, room); a.Done? ==> a.tables == t
  {
    WithdrawnIsNotCurrent(t, c.policy, runtime, issuer, now);
  }

  lemma WithdrawnClaimsNothing(t: Tables, id: Id, runtime: Id, issuer: int, now: nat, commit: nat, ids: FreshIds, room: bool)
    requires id in t.schedules && Withdrawn(t, t.schedules[id].creation.policy)
    ensures var a := ClaimDue(t, id, runtime, issuer, now, commit, ids, room); a.Done? ==> a.value.None? && a.tables.triggers == t.triggers
  {
    var s := t.schedules[id];
    if ClaimDue(t, id, runtime, issuer, now, commit, ids, room).Done? {
      assert ScheduleOk(s, id, t.policies, t.definitions);
      WithdrawnIsNotCurrent(t, s.creation.policy, runtime, issuer, now);
    }
  }

  ghost predicate Inactive(t: Tables, id: Id) {
    && (forall c: Arm, runtime, issuer, now, commit, room | c.policy == id ::
          var a := ArmSchedule(t, c, runtime, issuer, now, commit, room); a.Done? ==> a.tables == t)
    && (forall c: Reserve, runtime, issuer, now, commit, stamped, sha, room | c.policy == id ::
          var a := ReserveRun(t, c, runtime, issuer, now, commit, stamped, sha, room); a.Done? ==> a.tables == t)
    && (forall s, runtime, issuer, now, commit, ids, room | s in t.schedules && t.schedules[s].creation.policy == id ::
          var a := ClaimDue(t, s, runtime, issuer, now, commit, ids, room); a.Done? ==> a.tables.triggers == t.triggers)
  }

  lemma WithdrawnIsInactive(t: Tables, id: Id)
    requires Withdrawn(t, id)
    ensures Inactive(t, id)
  {
    forall c: Arm, runtime, issuer, now, commit, room | c.policy == id
      ensures var a := ArmSchedule(t, c, runtime, issuer, now, commit, room); a.Done? ==> a.tables == t
    {
      WithdrawnArmsNothing(t, c, runtime, issuer, now, commit, room);
    }
    forall c: Reserve, runtime, issuer, now, commit, stamped, sha, room | c.policy == id
      ensures var a := ReserveRun(t, c, runtime, issuer, now, commit, stamped, sha, room); a.Done? ==> a.tables == t
    {
      WithdrawnReservesNothing(t, c, runtime, issuer, now, commit, stamped, sha, room);
    }
    forall s, runtime, issuer, now, commit, ids, room | s in t.schedules && t.schedules[s].creation.policy == id
      ensures var a := ClaimDue(t, s, runtime, issuer, now, commit, ids, room); a.Done? ==> a.tables.triggers == t.triggers
    {
      WithdrawnClaimsNothing(t, s, runtime, issuer, now, commit, ids, room);
    }
  }

  /** Once withdrawn, a policy authorises no new schedule, claim or reservation in any later state. */
  lemma WithdrawnForever(t: Tables, id: Id, events: seq<Event>)
    requires Reachable(t) && Withdrawn(t, id)
    ensures Withdrawn(Run(t, events), id) && Inactive(Run(t, events), id)
  {
    Later(t, events);
    WithdrawnStays(t, Run(t, events), id);
    WithdrawnIsInactive(Run(t, events), id);
  }

  lemma RevokedForever(t: Tables, id: Id, revision: nat, op: Id, now: nat, events: seq<Event>)
    requires Reachable(t) && RevokePolicy(t, id, revision, op, now).Done?
    ensures Inactive(Run(RevokePolicy(t, id, revision, op, now).tables, events), id)
  {
    ReachedBy(t, RevokeEvent(id, revision, op, now), RevokePolicy(t, id, revision, op, now));
    assert PolicyOk(t.policies[id], id, t.definitions);
    WithdrawnForever(RevokePolicy(t, id, revision, op, now).tables, id, events);
  }

  /** Removing a definition withdraws every policy approved for it. */
  lemma RemovedForever(t: Tables, id: Id, revision: nat, op: Id, p: Id, events: seq<Event>)
    requires Reachable(t) && RemoveDefinition(t, id, revision, op).Done?
    requires p in t.policies && t.policies[p].creation.definition == id
    ensures Inactive(Run(RemoveDefinition(t, id, revision, op).tables, events), p)
  {
    ReachedBy(t, RemoveDefinitionEvent(id, revision, op), RemoveDefinition(t, id, revision, op));
    WithdrawnForever(RemoveDefinition(t, id, revision, op).tables, p, events);
  }

  /** A new approval withdraws every earlier one of its definition. */
  lemma SupersededForever(t: Tables, candidate: Policy, runtime: Id, now: nat, room: bool, p: Id, events: seq<Event>)
    requires Reachable(t) && ApprovePolicy(t, candidate, runtime, now, room).Done?
    requires !ApprovePolicy(t, candidate, runtime, now, room).value.1
    requires p in t.policies && t.policies[p].creation.definition == candidate.creation.definition
    ensures Inactive(Run(ApprovePolicy(t, candidate, runtime, now, room).tables, events), p)
  {
    var t' := ApprovePolicy(t, candidate, runtime, now, room).tables;
    ReachedBy(t, ApproveEvent(candidate, runtime, now, room), ApprovePolicy(t, candidate, runtime, now, room));
    assert candidate.id in t'.policies && t'.policies[candidate.id].generation > t.policies[p].generation;
    assert PolicyOk(t.policies[p], p, t.definitions);
    assert t'.policies[p] == t.policies[p];
    assert Withdrawn(t', p);
    WithdrawnForever(t', p, events);
  }

  /** A definition keeps its owner, command, creation time and digest for ever, and the plan it was made from,
      whatever later happens to the job, until it is removed. */
  lemma DefinitionIsFrozen(t: Tables, c: Define, now: nat, sha: int, room: bool, events: seq<Event>)
    requires Reachable(t) && DefineAutomation(t, c, now, sha, room).Done? && c.operation !in t.definitions
    ensures c.job in t.jobs && t.jobs[c.job].context.Some?
    ensures var later := Run(DefineAutomation(t, c, now, sha, room).tables, events);
            && c.operation in later.definitions
            && var d := later.definitions[c.operation];
               && d.id == c.operation && d.owner == t.jobs[c.job].context.value && d.createdAt == now
               && d.creation == c && d.sha == sha
               && (d.removal.None? ==> d.frozen == t.jobs[c.job])
  {
    var defined := DefineAutomation(t, c, now, sha, room).tables;
    ReachedBy(t, DefineEvent(c, now, sha, room), DefineAutomation(t, c, now, sha, room));
    Later(defined, events);
    assert c.operation in defined.definitions;
  }

  // ------------------------------------------------------------------ jobs

  /** An edit never changes the authority, request or compiled scope of a reserved job. */
  lemma EditKeepsAuthority(t: Tables, id: Id, edited: Plan, gate: Option<Gate>, now: nat, room: bool)
    requires EditJob(t, id, edited, gate, now, room).Done? && OccurrenceByJob(t.occurrences, id).Some?
    ensures var saved := EditJob(t, id, edited, gate, now, room).value;
            && saved.approval == t.jobs[id].approval && saved.context == t.jobs[id].context
            && FixedScope(saved) == FixedScope(t.jobs[id]) && saved.revision == t.jobs[id].revision + 1
  {
  }

  /** Once a claim was let go, no later state lets a fenced edit issue work for a job delegated under it. */
  lemma FencedEditsEnd(t: Tables, events: seq<Event>, x: Trigger, id: Id, edited: Plan, gate: Gate, now: nat, room: bool)
    requires Reachable(t) && Released(t, x) && id in Run(t, events).jobs
    requires var plan := Run(t, events).jobs[id];
             plan.context.Some? && plan.context.value.request == x.context.request && DelegationOf(plan).Some?
    ensures EditJob(Run(t, events), id, edited, Some(gate), now, room).Refused?
  {
    ReleasedForever(t, events, x, Run(t, events).jobs[id], now);
  }

  lemma DropSources(t: Tables, t': Tables, id: Id, x: Trigger)
    requires DropAt(t, t', id) && x in t.triggers
    ensures SourceJobs(t'.jobs, x.context) == SourceJobs(t.jobs, x.context)
  {
  }

  lemma DropPlans(t: Tables, t': Tables, id: Id, r: Reservation)
    requires DropAt(t, t', id) && r in t.occurrences
    ensures RetainedPlan(r, t'.jobs, t'.archives) == RetainedPlan(r, t.jobs, t.archives)
  {
  }

  /** Removing a finished job removes no evidence: every reservation keeps its plan, and every claim is
      resolved or not as it was. */
  lemma RemovalIsSilent(t: Tables, id: Id)
    requires RemoveFinished(t, id).Done?
    ensures var t' := RemoveFinished(t, id).tables;
            && (forall r | r in t.occurrences :: RetainedPlan(r, t'.jobs, t'.archives) == RetainedPlan(r, t.jobs, t.archives))
            && (forall x | x in t.triggers :: SourceJob(t', x) == SourceJob(t, x) && (ClaimResolved(t', x) <==> ClaimResolved(t, x)))
  {
    var t' := RemoveFinished(t, id).tables;
    RemoveShape(t, id);
    forall r | r in t.occurrences ensures RetainedPlan(r, t'.jobs, t'.archives) == RetainedPlan(r, t.jobs, t.archives) {
      DropPlans(t, t', id, r);
    }
    forall x | x in t.triggers ensures SourceJob(t', x) == SourceJob(t, x) && (ClaimResolved(t', x) <==> ClaimResolved(t, x)) {
      DropSources(t, t', id, x);
      SameSource(t, t', x);
    }
  }

  lemma SameSource(t: Tables, t': Tables, x: Trigger)
    requires t' == t.(jobs := t'.jobs) && SourceJobs(t'.jobs, x.context) == SourceJobs(t.jobs, x.context)
    requires forall id | id in SourceJobs(t.jobs, x.context) :: t'.jobs[id] == t.jobs[id]
    requires forall r | r in t.occurrences :: RetainedPlan(r, t'.jobs, t'.archives) == RetainedPlan(r, t.jobs, t.archives)
    ensures SourceJob(t', x) == SourceJob(t, x) && (ClaimResolved(t', x) <==> ClaimResolved(t, x))
  {
  }
}
