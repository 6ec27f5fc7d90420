/** When jobs enter, change and leave a reachable ledger, and when authority is given and taken, in plain terms. */
module LedgerGates {
  import opened Prelude
  import opened Records
  import opened Ledger
  import opened LedgerInvariant
  import opened LedgerSteps
  import opened LedgerRuns
  import opened LedgerEvolution
  import opened LedgerTheorems
  import opened LedgerLaunch
  import opened LedgerClaims
  import opened LedgerAuthority
  import opened LedgerOutcomes
  import opened LedgerPlain
  import opened LedgerConditions

  // ------------------------------------------------------------------ source work

  /** Work for a claimed request is admitted only for its exact context, while the claim is held in force. */
  predicate SourceAllowed(t: Tables, context: Context, now: nat) {
    forall x | x in t.triggers && x.context.request == context.request ::
      && context == x.context && x.schedule in t.schedules
      && t.schedules[x.schedule].state == InFlight && t.schedules[x.schedule].active == Some(x.id)
      && InForce(t, t.schedules[x.schedule].creation.policy, t.schedules[x.schedule].runtime, t.schedules[x.schedule].issuer, now)
  }

  lemma SourceIs(t: Tables, context: Context, now: nat)
    requires HistoryOk(t)
    ensures SourceAuthority(t, context, now) <==> SourceAllowed(t, context, now)
  {
    var found := TriggerByRequest(t.triggers, context.request);
    if found.Some? {
      var x := found.value;
      forall y | y in t.triggers && y.context.request == context.request ensures y == x {
        UniqueOwner(t.triggers, x, y, context.request);
      }
      assert TriggerOk(x, t.schedules, t.policies);
      ScheduleInForce(t, x.schedule, t.schedules[x.schedule].runtime, t.schedules[x.schedule].issuer, now);
    }
  }

  /** A plan as it may enter the journal: nothing planned, approved, run or produced yet. */
  predicate Untouched(p: Plan) {
    && (p.status == Pending || (p.status == Review && |p.tasks| == 0 && p.context.Some?))
    && p.revision == 0 && !p.results && p.planning.None? && p.approval.None? && p.execution.None?
    && (forall i | 0 <= i < |p.tasks| ::
          && p.tasks[i].status == TaskPending && p.tasks[i].attempts == 0 && !p.tasks[i].bound && !p.tasks[i].hasResult)
  }

  lemma UntouchedIs(p: Plan)
    ensures FreshPlan(p) <==> Untouched(p)
  {
    if FreshPlan(p) {
      forall i | 0 <= i < |p.tasks| ensures p.tasks[i] in p.tasks {
      }
    }
    if Untouched(p) {
      forall task | task in p.tasks ensures task == Task(TaskPending, 0, false, false) {
        var i :| 0 <= i < |p.tasks| && p.tasks[i] == task;
      }
    }
  }

  predicate InsertAllowed(t: Tables, plan: Plan, now: nat, room: bool) {
    && Untouched(plan) && plan.id !in t.jobs && room
    && (forall a | a in t.archives :: a.command.job != plan.id)
    && (plan.context.Some? ==> SourceAllowed(t, plan.context.value, now))
  }

  /** A direct insertion commits if and only if all this holds, and saves the plan as it is. */
  lemma InsertWhen(t: Tables, plan: Plan, now: nat, room: bool)
    requires Sound(t)
    ensures var saved := plan.(revision := 1, updatedAt := now);
            InsertJob(t, plan, now, room)
            == if InsertAllowed(t, plan, now, room) then Done(t.(jobs := t.jobs[plan.id := saved]), saved) else Refused
  {
    InsertExact(t, plan, now, room);
    UntouchedIs(plan);
    if plan.context.Some? {
      SourceIs(t, plan.context.value, now);
    }
  }

  /** A retained job of this request, from the same node. */
  predicate OfRequest(plan: Plan, origin: Context) {
    plan.context.Some? && plan.context.value.node == origin.node && plan.context.value.request == origin.request
  }

  /** The request has no retained job and was never archived. */
  predicate NewRequest(t: Tables, origin: Context) {
    && (forall id | id in t.jobs :: !OfRequest(t.jobs[id], origin))
    && (forall a | a in t.archives :: !OfRequest(a.terminal, origin))
  }

  lemma AdmitSteps(t: Tables, plan: Plan, same: bool, now: nat, room: bool)
    requires ArchivesOk(t) && plan.context.Some? && NewRequest(t, plan.context.value)
    ensures var a := AdmitRequest(t, plan, same, now, room);
            a == match InsertJob(t, plan, now, room)
                 case Refused => Refused
                 case Done(t', saved) => Done(t', (saved, false))
  {
    assert SameRequestJobs(t.jobs, plan.context.value) == {};
  }

  lemma AdmitOld(t: Tables, plan: Plan, same: bool, now: nat, room: bool)
    requires ArchivesOk(t) && plan.context.Some? && !NewRequest(t, plan.context.value)
    ensures var a := AdmitRequest(t, plan, same, now, room);
            a.Done? ==> && same && a.tables == t && a.value.1 && OfRequest(a.value.0, plan.context.value)
                        && (forall x | x in t.archives :: !OfRequest(x.terminal, plan.context.value))
                        && exists id | id in t.jobs :: t.jobs[id] == a.value.0
                                                      && forall k | k in t.jobs && OfRequest(t.jobs[k], plan.context.value) :: k == id
  {
    var ids := SameRequestJobs(t.jobs, plan.context.value);
    if AdmitRequest(t, plan, same, now, room).Done? {
      forall x | x in t.archives ensures !OfRequest(x.terminal, plan.context.value) {
        assert SameRequest(x.terminal, plan.context.value) <==> OfRequest(x.terminal, plan.context.value);
      }
      if ids == {} {
        forall id | id in t.jobs ensures !OfRequest(t.jobs[id], plan.context.value) {
          assert id !in ids;
        }
      } else {
        var id :| id in ids && ids == {id};
        forall k | k in t.jobs && OfRequest(t.jobs[k], plan.context.value) ensures k == id {
          assert k in ids;
        }
        assert AdmitRequest(t, plan, same, now, room).value.0 == t.jobs[id];
      }
    }
  }

  /** Admission inserts exactly what insertion would, and only for a new request; for any other it at most returns
      the one job that the request has. */
  lemma AdmitWhen(t: Tables, plan: Plan, same: bool, now: nat, room: bool)
    requires Sound(t)
    ensures var a := AdmitRequest(t, plan, same, now, room);
            && (a.Done? && !a.value.1 <==>
                  plan.context.Some? && NewRequest(t, plan.context.value) && InsertAllowed(t, plan, now, room))
            && (a.Done? && a.value.1 ==>
                  && a.tables == t && same && plan.context.Some? && OfRequest(a.value.0, plan.context.value)
                  && exists id | id in t.jobs :: t.jobs[id] == a.value.0
                                                && forall k | k in t.jobs && OfRequest(t.jobs[k], plan.context.value) :: k == id)
  {
    InsertWhen(t, plan, now, room);
    if plan.context.Some? {
      if NewRequest(t, plan.context.value) {
        AdmitSteps(t, plan, same, now, room);
      } else {
        AdmitOld(t, plan, same, now, room);
      }
    }
  }

  // ------------------------------------------------------------------ removal

  predicate RemovalAllowed(t: Tables, id: Id) {
    && id in t.jobs && (t.jobs[id].status == Completed || t.jobs[id].status == Failed
                        || t.jobs[id].status == Cancelled || t.jobs[id].status == Abandoned)
    && (forall r | r in t.occurrences :: r.command.job != id)
    && (t.jobs[id].context.Some? ==> forall x | x in t.triggers :: x.context.request != t.jobs[id].context.value.request)
  }

  /** A job is removed if and only if it is finished, never reserved, and its request was never claimed. */
  lemma RemovalWhen(t: Tables, id: Id)
    requires Sound(t)
    ensures RemoveFinished(t, id) == if RemovalAllowed(t, id) then Done(t.(jobs := t.jobs - {id}), ()) else Refused
  {
    if id in t.jobs {
      assert JobOk(t.jobs[id], id, t);
    }
  }

  // ------------------------------------------------------------------ the issuance fence and edits

  /** Delegated work may be issued while its policy is in force, and its claim, if any, is held. */
  predicate IssueAllowed(t: Tables, plan: Plan, runtime: Id, issuer: int, now: nat) {
    plan.approval.Some? && plan.approval.value.delegation.Some? ==>
      var d := plan.approval.value.delegation.value;
      && InForce(t, d.policy, runtime, issuer, now)
      && (d.link.Some? ==>
            && d.link.value.schedule in t.schedules && t.schedules[d.link.value.schedule].state == InFlight
            && t.schedules[d.link.value.schedule].active == Some(d.link.value.trigger)
            && t.schedules[d.link.value.schedule].observedAt <= now)
  }

  /** The reservation behind a delegated job. */
  lemma DelegatedRun(t: Tables, id: Id) returns (r: Reservation)
    requires RetainedOk(t) && ReceiptsDistinct(t.occurrences) && JobsOk(t) && id in t.jobs && DelegationOf(t.jobs[id]).Some?
    ensures r in t.occurrences && r.command.job == id && LiveMatches(r, t.jobs[id]) && OccurrenceOk(r, t)
    ensures DelegationOf(t.jobs[id]).value == r.delegation && OccurrenceById(t.occurrences, r.delegation.reservation) == Some(r)
  {
    assert JobOk(t.jobs[id], id, t);
    r := OccurrenceByJob(t.occurrences, id).value;
    assert OccurrenceOk(r, t);
    UniqueReceipt(t.occurrences, r, OccurrenceById(t.occurrences, r.Id()).value);
  }

  lemma LinkedSchedule(t: Tables, id: Id)
    requires HistoryOk(t) && JobsOk(t) && id in t.jobs && LinkOf(t.jobs[id]).Some?
    ensures var d := DelegationOf(t.jobs[id]).value;
            var s := d.link.value.schedule;
            && s in t.schedules && t.schedules[s].creation.policy == d.policy && ScheduleOk(t.schedules[s], s, t.policies, t.definitions)
  {
    var plan := t.jobs[id];
    assert JobOk(plan, id, t);
    assert plan.context.Some? && TriggerByRequest(t.triggers, plan.context.value.request).Some?;
    var x := TriggerByRequest(t.triggers, plan.context.value.request).value;
    assert TriggerOk(x, t.schedules, t.policies) && ScheduleOk(t.schedules[x.schedule], x.schedule, t.policies, t.definitions);
  }

  lemma LinkNeedsRequest(t: Tables, id: Id)
    requires RetainedOk(t) && ReceiptsDistinct(t.occurrences) && JobsOk(t) && id in t.jobs && DelegationOf(t.jobs[id]).Some?
    ensures t.jobs[id].context.Some?
  {
    var r := DelegatedRun(t, id);
  }

  /** The part of the fence that can change once a job is reserved. */
  predicate LinkHeld(t: Tables, d: Delegation, runtime: Id, now: nat) {
    d.link.Some? ==>
      && d.link.value.schedule in t.schedules && t.schedules[d.link.value.schedule].Holds(d.link.value.trigger)
      && t.schedules[d.link.value.schedule].runtime == runtime
      && t.schedules[d.link.value.schedule].observedAt <= now < t.schedules[d.link.value.schedule].expiresAt
  }

  lemma FenceParts(t: Tables, plan: Plan, r: Reservation, runtime: Id, issuer: int, now: nat)
    requires DelegationOf(plan) == Some(r.delegation) && OccurrencesOk(t) && OccurrenceById(t.occurrences, r.delegation.reservation) == Some(r)
    requires LiveMatches(r, plan) && DelegationValid(plan, t.triggers, t.schedules)
    requires r.delegation.policy in t.policies && r.delegation.definition in t.definitions
    ensures FencePasses(t, plan, runtime, issuer, now) <==>
            && CurrentAt(t.policies[r.delegation.policy], t.definitions[r.delegation.definition], t.policies, runtime, issuer, now)
            && LinkHeld(t, r.delegation, runtime, now)
  {
  }

  lemma IssueFrom(t: Tables, plan: Plan, d: Delegation, runtime: Id, issuer: int, now: nat)
    requires DelegationOf(plan) == Some(d) && d.policy in t.policies
    requires d.link.Some? ==>
               && d.link.value.schedule in t.schedules
               && t.schedules[d.link.value.schedule].runtime == t.policies[d.policy].runtime
               && t.schedules[d.link.value.schedule].expiresAt == t.policies[d.policy].approvedAt + t.policies[d.policy].creation.validFor
    ensures InForce(t, d.policy, runtime, issuer, now) && LinkHeld(t, d, runtime, now) <==> IssueAllowed(t, plan, runtime, issuer, now)
  {
  }

  lemma IssueIs(t: Tables, id: Id, runtime: Id, issuer: int, now: nat)
    requires Sound(t) && id in t.jobs
    ensures FencePasses(t, t.jobs[id], runtime, issuer, now) <==> IssueAllowed(t, t.jobs[id], runtime, issuer, now)
  {
    if DelegationOf(t.jobs[id]).Some? {
      var r := DelegatedRun(t, id);
      LinkNeedsRequest(t, id);
      assert JobOk(t.jobs[id], id, t) && PolicyOk(t.policies[r.delegation.policy], r.delegation.policy, t.definitions);
      InForceIs(t, r.delegation.policy, runtime, issuer, now);
      if r.delegation.link.Some? {
        LinkedSchedule(t, id);
      }
      FenceParts(t, t.jobs[id], r, runtime, issuer, now);
      IssueFrom(t, t.jobs[id], r.delegation, runtime, issuer, now);
    }
  }

  /** A reserved job keeps its approval and its compiled plan, and runs its claim under the claim's operation; any
      other job gains no delegated approval, nor any at all where a claim names its request. */
  predicate KeepsAuthority(t: Tables, id: Id, saved: Plan) {
    && (forall r | r in t.occurrences && r.command.job == id ::
          saved.approval == r.snapshot.approval && saved.planning == r.snapshot.planning)
    && ((forall r | r in t.occurrences :: r.command.job != id) ==> saved.approval.Some? ==> saved.approval.value.delegation.None?)
    && (saved.context.Some? ==>
          forall x | x in t.triggers && x.context.request == saved.context.value.request ::
            if saved.approval.Some? && saved.approval.value.delegation.Some?
            then saved.execution.Some? ==> saved.execution.value.operation == x.execution
            else saved.approval.None?)
  }

  lemma RunAuthority(r: Reservation, before: Plan, saved: Plan)
    requires LiveMatches(r, before) && saved.id == before.id && saved.context == before.context && saved.revision >= before.revision
    ensures LiveMatches(r, saved) <==> saved.approval == r.snapshot.approval && saved.planning == r.snapshot.planning
  {
  }

  lemma DelegationIs(t: Tables, before: Plan, saved: Plan)
    requires IdentitiesOk(t.triggers) && DelegationValid(before, t.triggers, t.schedules)
    requires saved.context == before.context && (LinkOf(saved) == LinkOf(before) || LinkOf(saved).None?)
    requires LinkOf(saved).Some? ==> DelegationOf(saved) == DelegationOf(before)
    requires DelegationOf(saved).Some? && saved.context.Some? && TriggerByRequest(t.triggers, saved.context.value.request).Some? ==> LinkOf(saved).Some?
    ensures DelegationValid(saved, t.triggers, t.schedules) <==>
            (saved.context.Some? ==>
               forall x | x in t.triggers && x.context.request == saved.context.value.request ::
                 if saved.approval.Some? && saved.approval.value.delegation.Some?
                 then saved.execution.Some? ==> saved.execution.value.operation == x.execution
                 else saved.approval.None?)
  {
    if saved.context.Some? && TriggerByRequest(t.triggers, saved.context.value.request).Some? {
      var x := TriggerByRequest(t.triggers, saved.context.value.request).value;
      forall y | y in t.triggers && y.context.request == saved.context.value.request ensures y == x {
        UniqueOwner(t.triggers, x, y, saved.context.value.request);
      }
    }
  }

  lemma ReservedEdit(t: Tables, id: Id, r: Reservation, before: Plan, saved: Plan)
    requires IdentitiesOk(t.triggers) && ReceiptsDistinct(t.occurrences) && JobOk(before, id, t)
    requires OccurrenceByJob(t.occurrences, id) == Some(r) && r.snapshot.approval.Some? && r.snapshot.approval.value.delegation.Some?
    requires saved.id == id && saved.context == before.context && saved.revision >= before.revision
    ensures JobOk(saved, id, t) <==> KeepsAuthority(t, id, saved)
  {
    RunAuthority(r, before, saved);
    forall k | k in t.occurrences && k.command.job == id ensures k == r {
      UniqueReceipt(t.occurrences, k, r);
    }
    if saved.approval == r.snapshot.approval {
      DelegationIs(t, before, saved);
    }
  }

  lemma FreeEdit(t: Tables, id: Id, before: Plan, saved: Plan)
    requires IdentitiesOk(t.triggers) && JobOk(before, id, t) && OccurrenceByJob(t.occurrences, id).None?
    requires saved.id == id && saved.context == before.context
    ensures JobOk(saved, id, t) <==> KeepsAuthority(t, id, saved)
  {
    if DelegationOf(saved).None? {
      DelegationIs(t, before, saved);
    }
  }

  lemma KeepsAuthorityIs(t: Tables, id: Id, saved: Plan)
    requires HistoryOk(t) && RetainedOk(t) && ReceiptsDistinct(t.occurrences) && id in t.jobs && JobOk(t.jobs[id], id, t)
    requires saved.id == id && saved.context == t.jobs[id].context && saved.revision >= t.jobs[id].revision
    ensures JobOk(saved, id, t) <==> KeepsAuthority(t, id, saved)
  {
    if OccurrenceByJob(t.occurrences, id).Some? {
      var r := OccurrenceByJob(t.occurrences, id).value;
      assert OccurrenceOk(r, t);
      ReservedEdit(t, id, r, t.jobs[id], saved);
    } else {
      FreeEdit(t, id, t.jobs[id], saved);
    }
  }

  /** Everything that an edit needs. */
  predicate EditAllowed(t: Tables, id: Id, edited: Plan, gate: Option<Gate>, now: nat, room: bool) {
    && id in t.jobs && edited.id == id && edited.context == t.jobs[id].context && t.jobs[id].revision + 1 < U64_LIMIT && room
    && (Proven(t.jobs[id]) ==> edited == t.jobs[id].(revision := edited.revision, updatedAt := edited.updatedAt))
    && (gate.Some? ==> IssueAllowed(t, t.jobs[id], gate.value.runtime, gate.value.issuer, now))
    && (t.jobs[id].planning.None? && edited.planning.Some? && edited.context.Some? ==> SourceAllowed(t, edited.context.value, now))
    && KeepsAuthority(t, id, edited)
  }

  lemma EditSteps(t: Tables, id: Id, edited: Plan, gate: Option<Gate>, now: nat, room: bool)
    requires id in t.jobs && JobOk(t.jobs[id], id, t)
    ensures var saved := edited.(revision := t.jobs[id].revision + 1);
            EditJob(t, id, edited, gate, now, room)
            == if && Editable(t.jobs[id], edited) && t.jobs[id].revision + 1 < U64_LIMIT
                  && EditAuthorised(t, t.jobs[id], edited, gate, now) && JobOk(saved, id, t) && room
               then Done(t.(jobs := t.jobs[id := saved]), saved) else Refused
  {
  }

  lemma AuthorisedIs(t: Tables, id: Id, edited: Plan, gate: Option<Gate>, now: nat)
    requires Sound(t) && id in t.jobs
    ensures EditAuthorised(t, t.jobs[id], edited, gate, now) <==>
            && (gate.Some? ==> IssueAllowed(t, t.jobs[id], gate.value.runtime, gate.value.issuer, now))
            && (t.jobs[id].planning.None? && edited.planning.Some? && edited.context.Some? ==> SourceAllowed(t, edited.context.value, now))
  {
    if gate.Some? {
      IssueIs(t, id, gate.value.runtime, gate.value.issuer, now);
    }
    if edited.context.Some? {
      SourceIs(t, edited.context.value, now);
    }
  }

  lemma EditFrom(t: Tables, id: Id, edited: Plan, gate: Option<Gate>, now: nat, room: bool)
    requires id in t.jobs && (Resolved(t.jobs[id]) <==> Proven(t.jobs[id])) && t.jobs[id].id == id
    requires EditAuthorised(t, t.jobs[id], edited, gate, now) <==>
             && (gate.Some? ==> IssueAllowed(t, t.jobs[id], gate.value.runtime, gate.value.issuer, now))
             && (t.jobs[id].planning.None? && edited.planning.Some? && edited.context.Some? ==> SourceAllowed(t, edited.context.value, now))
    requires edited.id == id && edited.context == t.jobs[id].context ==>
               (JobOk(edited.(revision := t.jobs[id].revision + 1), id, t) <==> KeepsAuthority(t, id, edited))
    ensures && Editable(t.jobs[id], edited) && t.jobs[id].revision + 1 < U64_LIMIT
            && EditAuthorised(t, t.jobs[id], edited, gate, now) && JobOk(edited.(revision := t.jobs[id].revision + 1), id, t) && room
            <==> EditAllowed(t, id, edited, gate, now, room)
  {
  }

  lemma SameAuthority(t: Tables, id: Id, edited: Plan, revision: nat)
    ensures KeepsAuthority(t, id, edited.(revision := revision)) <==> KeepsAuthority(t, id, edited)
  {
  }

  lemma SavedKeeps(t: Tables, id: Id, edited: Plan)
    requires HistoryOk(t) && RetainedOk(t) && ReceiptsDistinct(t.occurrences) && id in t.jobs && JobOk(t.jobs[id], id, t)
    requires edited.id == id && edited.context == t.jobs[id].context
    ensures JobOk(edited.(revision := t.jobs[id].revision + 1), id, t) <==> KeepsAuthority(t, id, edited)
  {
    var saved := edited.(revision := t.jobs[id].revision + 1);
    KeepsAuthorityIs(t, id, saved);
    SameAuthority(t, id, edited, t.jobs[id].revision + 1);
  }

  lemma EditGuardIs(t: Tables, id: Id, edited: Plan, gate: Option<Gate>, now: nat, room: bool)
    requires Sound(t) && id in t.jobs && JobOk(t.jobs[id], id, t)
    ensures && Editable(t.jobs[id], edited) && t.jobs[id].revision + 1 < U64_LIMIT
            && EditAuthorised(t, t.jobs[id], edited, gate, now) && JobOk(edited.(revision := t.jobs[id].revision + 1), id, t) && room
            <==> EditAllowed(t, id, edited, gate, now, room)
  {
    AuthorisedIs(t, id, edited, gate, now);
    ResolvedIsProven(t.jobs[id]);
    if edited.id == id && edited.context == t.jobs[id].context {
      SavedKeeps(t, id, edited);
    }
    EditFrom(t, id, edited, gate, now, room);
  }

  /** An edit commits if and only if all this holds, and saves the edited plan at the next revision. */
  lemma EditWhen(t: Tables, id: Id, edited: Plan, gate: Option<Gate>, now: nat, room: bool)
    requires Sound(t) && id in t.jobs
    ensures var saved := edited.(revision := t.jobs[id].revision + 1);
            EditJob(t, id, edited, gate, now, room)
            == if EditAllowed(t, id, edited, gate, now, room) then Done(t.(jobs := t.jobs[id := saved]), saved) else Refused
  {
    assert JobOk(t.jobs[id], id, t);
    EditSteps(t, id, edited, gate, now, room);
    EditGuardIs(t, id, edited, gate, now, room);
  }

  /** No work is issued for a job delegated under a policy that is not in force: under another runtime or issuer,
      or outside the approved window. */
  lemma IssueNeedsForce(t: Tables, id: Id, edited: Plan, gate: Gate, now: nat, room: bool)
    requires Sound(t) && id in t.jobs && DelegationOf(t.jobs[id]).Some?
    requires var policy := DelegationOf(t.jobs[id]).value.policy;
             policy in t.policies ==>
               || gate.runtime != t.policies[policy].runtime || gate.issuer != t.policies[policy].issuer
               || now < t.policies[policy].approvedAt || now >= t.policies[policy].approvedAt + t.policies[policy].creation.validFor
    ensures EditJob(t, id, edited, Some(gate), now, room).Refused?
  {
    EditWhen(t, id, edited, Some(gate), now, room);
  }

  /** Once a policy was revoked, superseded, or its definition removed, no later state issues work under it. */
  lemma IssueEnds(t: Tables, policy: Id, events: seq<Event>, id: Id, edited: Plan, gate: Gate, now: nat, room: bool)
    requires Reachable(t) && Withdrawn(t, policy)
    requires id in Run(t, events).jobs && DelegationOf(Run(t, events).jobs[id]).Some?
    requires DelegationOf(Run(t, events).jobs[id]).value.policy == policy
    ensures EditJob(Run(t, events), id, edited, Some(gate), now, room).Refused?
  {
    Later(t, events);
    WithdrawnStays(t, Run(t, events), policy);
    ReachableRun(t, events);
    ReachableIsSound(Run(t, events));
    WithdrawnIssuesNothing(Run(t, events), policy, id, edited, gate, now, room);
  }

  lemma WithdrawnIssuesNothing(t: Tables, policy: Id, id: Id, edited: Plan, gate: Gate, now: nat, room: bool)
    requires Sound(t) && Withdrawn(t, policy) && id in t.jobs
    requires DelegationOf(t.jobs[id]).Some? && DelegationOf(t.jobs[id]).value.policy == policy
    ensures EditJob(t, id, edited, Some(gate), now, room).Refused?
  {
    EditWhen(t, id, edited, Some(gate), now, room);
  }
}
