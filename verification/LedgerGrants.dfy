/** When claims are launched, refused and resolved, and when authority is defined, approved and taken back. */
module LedgerGrants {
  import opened Prelude
  import opened Records
  import opened Ledger
  import opened LedgerInvariant
  import opened LedgerSteps
  import opened LedgerTheorems
  import opened LedgerLaunch
  import opened LedgerClaims
  import opened LedgerDue
  import opened LedgerOutcomes
  import opened LedgerPlain
  import opened LedgerConditions

  // ------------------------------------------------------------------ launching and refusing

  /** The claim is held in this runtime, nothing was launched for it, and no work of it exists. */
  predicate Unlaunched(t: Tables, x: Trigger, runtime: Id) {
    && x.schedule in t.schedules && t.schedules[x.schedule].runtime == runtime
    && t.schedules[x.schedule].state == InFlight && t.schedules[x.schedule].active == Some(x.id)
    && t.schedules[x.schedule].launchedAt.None? && NoWork(t, x)
  }

  predicate LaunchAllowed(t: Tables, x: Trigger, runtime: Id, now: nat, commit: nat) {
    && Unlaunched(t, x, runtime) && t.schedules[x.schedule].observedAt <= now <= commit
    && t.schedules[x.schedule].revision + 1 < U64_LIMIT
    && InForce(t, t.schedules[x.schedule].creation.policy, runtime, t.schedules[x.schedule].issuer, now)
    && InForce(t, t.schedules[x.schedule].creation.policy, runtime, t.schedules[x.schedule].issuer, commit)
  }

  lemma LaunchGuardIs(t: Tables, x: Trigger, runtime: Id, now: nat, commit: nat)
    requires HistoryOk(t) && x.schedule in t.schedules
    ensures LaunchGuard(t, x, runtime, now, commit) <==> LaunchAllowed(t, x, runtime, now, commit)
  {
    NoWorkIs(t, x);
    ScheduleInForce(t, x.schedule, runtime, t.schedules[x.schedule].issuer, now);
    ScheduleInForce(t, x.schedule, runtime, t.schedules[x.schedule].issuer, commit);
  }

  /** The mark that a launch leaves. */
  function Marked(s: Schedule, now: nat): Schedule {
    s.(revision := s.revision + 1, observedAt := now, launchedAt := Some(now))
  }

  lemma MarkedIs(s: Schedule, now: nat)
    ensures Advanced(s, now).(launchedAt := Some(now)) == Marked(s, now)
  {
  }

  lemma LaunchFresh(t: Tables, x: Trigger, s: Schedule, runtime: Id, now: nat, commit: nat)
    requires HistoryOk(t) && TriggerById(t.triggers, x.id) == Some(x) && x.schedule in t.schedules && s == t.schedules[x.schedule]
    requires ScheduleOk(s, x.schedule, t.policies, t.definitions)
    requires !(s.runtime == runtime && s.Holds(x.id) && s.launchedAt.Some?)
    ensures BeginLaunch(t, x.id, runtime, now, commit)
            == if LaunchGuard(t, x, runtime, now, commit) then Done(t.(schedules := t.schedules[x.schedule := Marked(s, now)]), true) else Refused
  {
    LaunchExact(t, x, s, runtime, now, commit);
    MarkedIs(s, now);
  }

  /** A launch begins if and only if all this holds, and marks just the schedule; for a held claim that was marked
      before it reports reuse, and otherwise it is refused. */
  lemma LaunchWhen(t: Tables, x: Trigger, runtime: Id, now: nat, commit: nat)
    requires Sound(t) && x in t.triggers
    ensures x.schedule in t.schedules
    ensures var s := t.schedules[x.schedule];
            BeginLaunch(t, x.id, runtime, now, commit)
            == if s.runtime == runtime && s.state == InFlight && s.active == Some(x.id) && s.launchedAt.Some? then Done(t, false)
               else if LaunchAllowed(t, x, runtime, now, commit) then Done(t.(schedules := t.schedules[x.schedule := Marked(s, now)]), true)
               else Refused
  {
    ClaimFound(t, x);
    var s := t.schedules[x.schedule];
    if s.runtime == runtime && s.Holds(x.id) && s.launchedAt.Some? {
      LaunchAgain(t, x, s, runtime, now, commit);
    } else {
      LaunchGuardIs(t, x, runtime, now, commit);
      LaunchFresh(t, x, s, runtime, now, commit);
    }
  }

  lemma RefusalElse(t: Tables, x: Trigger, runtime: Id, now: nat, sha: int)
    requires HistoryOk(t) && TriggerById(t.triggers, x.id) == Some(x) && x.schedule in t.schedules
    requires var s := t.schedules[x.schedule];
             s.refusal.None? && !(s.runtime == runtime && s.Holds(x.id) && s.launchedAt.None? && SourceJob(t, x).Missing?)
    ensures var a := RecordRefusal(t, x.id, runtime, now, sha); a.Done? ==> a.tables == t && !a.value
  {
  }

  lemma RefusalUnsaved(t: Tables, x: Trigger, runtime: Id, now: nat, sha: int)
    requires TriggerById(t.triggers, x.id) == Some(x) && x.schedule in t.schedules
    requires var s := t.schedules[x.schedule];
             s.refusal.None? && s.runtime == runtime && s.Holds(x.id) && s.launchedAt.None? && SourceJob(t, x).Missing? && !Savable(s, now)
    ensures RecordRefusal(t, x.id, runtime, now, sha) == Refused
  {
    UnsavableSaves(t, t.schedules[x.schedule], now);
  }

  lemma RefusalNew(t: Tables, x: Trigger, runtime: Id, now: nat, sha: int)
    requires HistoryOk(t) && TriggerById(t.triggers, x.id) == Some(x) && x.schedule in t.schedules
    requires t.schedules[x.schedule].refusal.None?
    requires !Unlaunched(t, x, runtime) || !Savable(t.schedules[x.schedule], now)
    ensures var a := RecordRefusal(t, x.id, runtime, now, sha); a.Done? ==> a.tables == t && !a.value
  {
    NoWorkIs(t, x);
    if Unlaunched(t, x, runtime) {
      RefusalUnsaved(t, x, runtime, now, sha);
    } else {
      RefusalElse(t, x, runtime, now, sha);
    }
  }

  /** The refusal that is put on record. */
  function RefusedTo(s: Schedule, x: Trigger, now: nat, sha: int): Schedule {
    Ending(s, Interrupted, Some(PreflightRefused), now).(refusal := Some(Refusal(x.id, x.sha, s.runtime, now, sha)))
  }

  lemma RefusalKept(t: Tables, x: Trigger, runtime: Id, now: nat, sha: int)
    requires HistoryOk(t) && TriggerById(t.triggers, x.id) == Some(x) && x.schedule in t.schedules
    requires t.schedules[x.schedule].refusal.Some?
    ensures RecordRefusal(t, x.id, runtime, now, sha) == Done(t, true)
  {
  }

  lemma RefusedSame(s: Schedule, x: Trigger, now: nat, sha: int)
    ensures RefusedAt(s, x, now, sha) == RefusedTo(s, x, now, sha)
  {
  }

  lemma RefusalMade(t: Tables, x: Trigger, s: Schedule, now: nat, sha: int)
    requires HistoryOk(t) && AllPaced(t.schedules, t.triggers) && RequestsExact(t)
    requires x in t.triggers && TriggerById(t.triggers, x.id) == Some(x)
    requires x.schedule in t.schedules && t.schedules[x.schedule] == s && s.Id() == x.schedule && s.refusal.None?
    requires s.Holds(x.id) && s.launchedAt.None? && SourceJob(t, x).Missing? && Savable(s, now)
    ensures RecordRefusal(t, x.id, s.runtime, now, sha)
            == Done(t.(schedules := t.schedules[x.schedule := RefusedTo(s, x, now, sha)]), true)
  {
    RecordsRefusal(t, x, s, now, sha);
    RefusedSame(s, x, now, sha);
  }

  /** A refusal is recorded exactly for a held claim without launch or work, once; a schedule that has one reports it. */
  lemma RefusalWhen(t: Tables, x: Trigger, runtime: Id, now: nat, sha: int)
    requires Sound(t) && x in t.triggers
    ensures x.schedule in t.schedules
    ensures var s := t.schedules[x.schedule];
            var a := RecordRefusal(t, x.id, runtime, now, sha);
            if s.refusal.Some? then a == Done(t, true)
            else if Unlaunched(t, x, runtime) && s.revision + 1 < U64_LIMIT && now > 0
            then a == Done(t.(schedules := t.schedules[x.schedule := RefusedTo(s, x, now, sha)]), true)
            else a.Done? ==> a.tables == t && !a.value
  {
    ClaimFound(t, x);
    var s := t.schedules[x.schedule];
    if s.refusal.Some? {
      RefusalKept(t, x, runtime, now, sha);
    } else if Unlaunched(t, x, runtime) && Savable(s, now) {
      NoWorkIs(t, x);
      RefusalMade(t, x, s, now, sha);
    } else {
      RefusalNew(t, x, runtime, now, sha);
    }
  }

  /** No claim was given this identity. */
  predicate Unowned(t: Tables, id: Id) {
    forall x | x in t.triggers :: id != x.id && id != x.reservation && id != x.execution && id != x.context.request
  }

  predicate ResolveAllowed(t: Tables, id: Id, revision: nat, trigger: Id, hash: int, operation: Id, now: nat) {
    && id in t.schedules && t.schedules[id].resolution.None? && t.schedules[id].refusal.Some?
    && t.schedules[id].refusal.value.trigger == trigger && t.schedules[id].refusal.value.sha == hash
    && t.schedules[id].revision == revision && revision + 1 < U64_LIMIT && now > 0
    && operation != NIL && operation != id && operation != t.schedules[id].creation.policy && Unowned(t, operation)
  }

  lemma OwnedIs(t: Tables, operation: Id)
    ensures TriggerOwns(t.triggers, operation) <==> !Unowned(t, operation)
  {
  }

  /** The schedule with its refusal resolved. */
  function ResolvedTo(s: Schedule, revision: nat, trigger: Id, hash: int, operation: Id, now: nat): Schedule {
    Ending(s, Settled, Some(RefusalResolved), now).(resolution := Some(Resolution(operation, revision, trigger, hash, now)))
  }

  lemma ResolveSame(t: Tables, id: Id, revision: nat, trigger: Id, hash: int, operation: Id, now: nat)
    requires id in t.schedules
    ensures ResolveGuard(t, id, revision, trigger, hash, operation, now) <==> ResolveAllowed(t, id, revision, trigger, hash, operation, now)
    ensures ResolveAllowed(t, id, revision, trigger, hash, operation, now) ==>
              ResolvedBy(t.schedules[id], operation, trigger, hash, now) == ResolvedTo(t.schedules[id], revision, trigger, hash, operation, now)
  {
    OwnedIs(t, operation);
  }

  /** A refusal is resolved if and only if all this holds; the schedule then keeps the resolution and is settled. */
  lemma ResolveWhen(t: Tables, id: Id, revision: nat, trigger: Id, hash: int, operation: Id, now: nat)
    requires Sound(t) && id in t.schedules && t.schedules[id].resolution.None?
    ensures var s' := ResolvedTo(t.schedules[id], revision, trigger, hash, operation, now);
            ResolveRefusal(t, id, revision, trigger, hash, operation, now)
            == if ResolveAllowed(t, id, revision, trigger, hash, operation, now)
               then Done(t.(schedules := t.schedules[id := s']), (s', false)) else Refused
  {
    ResolveExact(t, id, revision, trigger, hash, operation, now);
    ResolveSame(t, id, revision, trigger, hash, operation, now);
  }

  predicate StopAllowed(t: Tables, id: Id, revision: nat, operation: Id, now: nat) {
    && id in t.schedules && t.schedules[id].resolution.None? && t.schedules[id].revision == revision
    && revision + 1 < U64_LIMIT && now > 0
    && operation != NIL && operation != id && operation != t.schedules[id].creation.policy && Unowned(t, operation)
  }

  /** The schedule stopped by its owner. */
  function StoppedTo(s: Schedule, revision: nat, operation: Id, now: nat): Schedule {
    Ending(s, Stopped, Some(OwnerStop), now).(stop := Some(Receipt(operation, revision)))
  }

  lemma StopSame(t: Tables, id: Id, revision: nat, operation: Id, now: nat)
    requires id in t.schedules
    ensures StopGuard(t, id, revision, operation, now) <==> StopAllowed(t, id, revision, operation, now)
    ensures StoppedBy(t.schedules[id], Receipt(operation, revision), now) == StoppedTo(t.schedules[id], revision, operation, now)
  {
    OwnedIs(t, operation);
  }

  /** A first stop commits if and only if all this holds. */
  lemma StopWhen(t: Tables, id: Id, revision: nat, operation: Id, now: nat)
    requires Sound(t) && id in t.schedules && t.schedules[id].stop.None?
    ensures var s' := StoppedTo(t.schedules[id], revision, operation, now);
            StopSchedule(t, id, revision, operation, now)
            == if StopAllowed(t, id, revision, operation, now)
               then Done(t.(schedules := t.schedules[id := s']), (s', false)) else Refused
  {
    StopExact(t, id, revision, operation, now);
    StopSame(t, id, revision, operation, now);
  }

  // ------------------------------------------------------------------ interrupting

  /** An active schedule ends at this time for one of the reasons that interrupt; no other is touched. */
  predicate InterruptAllowed(s: Schedule, reason: Reason, now: nat) {
    && s.revision + 1 < U64_LIMIT && now > 0
    && reason !in {OwnerStop, RunBudget, TimeBudget, PolicyBudget, RefusalResolved}
  }

  lemma InterruptMakes(t: Tables, id: Id, reason: Reason, now: nat)
    requires id in t.schedules && ScheduleOk(t.schedules[id], id, t.policies, t.definitions) && t.schedules[id].Active()
    ensures var s' := Ending(t.schedules[id], Interrupted, Some(reason), now);
            Save(t, InterruptedAt(t.schedules[id], reason, now))
            == if InterruptAllowed(t.schedules[id], reason, now) then Done(t.(schedules := t.schedules[id := s']), s') else Refused
  {
    if Interruption(reason) {
      InterruptExactly(t, id, reason, now);
    }
  }

  lemma InterruptWhen(t: Tables, id: Id, reason: Reason, now: nat)
    requires Sound(t) && id in t.schedules
    ensures var s := t.schedules[id];
            var s' := Ending(s, Interrupted, Some(reason), now);
            InterruptSchedule(t, id, reason, now)
            == if s.state != Waiting && s.state != InFlight then Done(t, s)
               else if InterruptAllowed(s, reason, now) then Done(t.(schedules := t.schedules[id := s']), s') else Refused
  {
    assert ScheduleOk(t.schedules[id], id, t.policies, t.definitions);
    if t.schedules[id].Active() {
      InterruptMakes(t, id, reason, now);
    }
  }

  lemma TriggerSteps(t: Tables, x: Trigger, reason: Reason, now: nat)
    requires HistoryOk(t) && TriggerById(t.triggers, x.id) == Some(x) && x.schedule in t.schedules
    ensures var s := t.schedules[x.schedule];
            InterruptTrigger(t, x.id, reason, now) == if s.Holds(x.id) then Save(t, InterruptedAt(s, reason, now)) else Done(t, s)
  {
  }

  lemma InterruptTriggerWhen(t: Tables, x: Trigger, reason: Reason, now: nat)
    requires Sound(t) && x in t.triggers
    ensures x.schedule in t.schedules
    ensures var s := t.schedules[x.schedule];
            var s' := Ending(s, Interrupted, Some(reason), now);
            InterruptTrigger(t, x.id, reason, now)
            == if s.state != InFlight || s.active != Some(x.id) then Done(t, s)
               else if InterruptAllowed(s, reason, now) then Done(t.(schedules := t.schedules[x.schedule := s']), s') else Refused
  {
    ClaimFound(t, x);
    TriggerSteps(t, x, reason, now);
    if t.schedules[x.schedule].Holds(x.id) {
      InterruptMakes(t, x.schedule, reason, now);
    }
  }

  /** The schedules after a restart. */
  predicate RestartedTo(m: map<Id, Schedule>, m': map<Id, Schedule>, clock: Id -> nat) {
    && m'.Keys == m.Keys
    && forall id | id in m ::
         m'[id] == if m[id].state == Waiting || m[id].state == InFlight then Ending(m[id], Interrupted, Some(Restart), clock(id)) else m[id]
  }

  lemma RestartedIs(m: map<Id, Schedule>, clock: Id -> nat)
    ensures RestartedTo(m, Restarted(m, clock), clock)
  {
  }

  lemma SavableAll(m: map<Id, Schedule>, clock: Id -> nat)
    ensures AllSavable(m, clock) <==>
            forall id | id in m && (m[id].state == Waiting || m[id].state == InFlight) :: m[id].revision + 1 < U64_LIMIT && clock(id) > 0
  {
  }

  /** Opening a ledger ends every active schedule as interrupted by a restart, all or none. */
  lemma OpenWhen(t: Tables, clock: Id -> nat)
    requires Sound(t)
    ensures var a := Reopen(t, clock);
            && (a.Done? <==>
                  forall id | id in t.schedules && (t.schedules[id].state == Waiting || t.schedules[id].state == InFlight) ::
                    t.schedules[id].revision + 1 < U64_LIMIT && clock(id) > 0)
            && (a.Done? ==> a.tables == t.(schedules := a.tables.schedules) && RestartedTo(t.schedules, a.tables.schedules, clock))
  {
    OpensTo(t, clock);
    RestartedIs(t.schedules, clock);
    SavableAll(t.schedules, clock);
  }

  // ------------------------------------------------------------------ definitions

  predicate DefineAllowed(t: Tables, c: Define, now: nat, room: bool) {
    && c.operation != NIL && 0 < c.revision < U64_LIMIT - 1 && room && now != 0
    && 1000 <= c.every <= 24 * 60 * 60 * 1000 && 1 <= c.maxRuns <= 128
    && 1000 <= c.validFor <= 24 * 60 * 60 * 1000 && c.every <= c.validFor
    && c.job in t.jobs && t.jobs[c.job].revision == c.revision && t.jobs[c.job].status == AwaitingApproval
    && t.jobs[c.job].approval.None? && t.jobs[c.job].execution.None? && t.jobs[c.job].context.Some?
    && t.jobs[c.job].planning.Some? && t.jobs[c.job].planning.value.sha == c.planSha
  }

  /** A new definition is saved if and only if all this holds. */
  lemma DefineWhen(t: Tables, c: Define, now: nat, sha: int, room: bool)
    requires Sound(t) && c.operation !in t.definitions
    ensures var a := DefineAutomation(t, c, now, sha, room);
            && (a.Done? <==> DefineAllowed(t, c, now, room))
            && (a.Done? ==>
                  var d := Definition(c.operation, t.jobs[c.job].context.value, now, c, sha, t.jobs[c.job], None);
                  a.tables == t.(definitions := t.definitions[c.operation := d]) && a.value == (d, false))
  {
    if c.job in t.jobs {
      assert JobOk(t.jobs[c.job], c.job, t);
    }
  }

  /** A definition is removed, once, by a receipt of its own. */
  lemma RemoveDefinitionWhen(t: Tables, id: Id, revision: nat, operation: Id)
    requires Sound(t) && id in t.definitions && t.definitions[id].removal.None?
    ensures var d := t.definitions[id].(removal := Some(Receipt(operation, revision)));
            RemoveDefinition(t, id, revision, operation)
            == if operation != NIL && operation != id && revision == 1
               then Done(t.(definitions := t.definitions[id := d]), (d, false)) else Refused
  {
  }

  // ------------------------------------------------------------------ policies

  /** The approval's own numbers. */
  predicate ApproveNumbers(p: Policy, runtime: Id, now: nat) {
    && p.creation.definition != NIL && p.creation.operation != NIL && runtime != NIL
    && p.creation.generation < U64_LIMIT - 1
    && 1000 <= p.creation.validFor <= 24 * 60 * 60 * 1000 && 1 <= p.creation.maxRuns <= 128
    && 1 <= p.creation.limits.executionMs <= p.creation.validFor
    && 1024 <= p.creation.limits.resultBytes <= 1024 * 1024
    && 1 <= p.creation.maxExecutionMs <= 24 * 60 * 60 * 1000 && 1024 <= p.creation.maxResultBytes <= 128 * 1024 * 1024
    && p.id == p.creation.operation && p.generation == p.creation.generation + 1 && p.runtime == runtime && p.revocation.None?
    && 0 < p.approvedAt <= now < p.expiresAt && p.expiresAt == p.approvedAt + p.creation.validFor < U64_LIMIT
    && 1 <= p.scope.operations <= 128
    && p.scope.operations * p.creation.limits.executionMs <= p.creation.maxExecutionMs
    && p.scope.operations * p.creation.limits.resultBytes <= p.creation.maxResultBytes
  }

  /** The approval covers exactly the definition's fixed plan, within the definition's own limits. */
  predicate ApproveCovers(p: Policy, d: Definition) {
    && d.removal.None? && p.creation.definitionSha == d.sha
    && p.creation.validFor <= d.creation.validFor && p.creation.maxRuns <= d.creation.maxRuns
    && p.approvedAt >= d.createdAt
    && d.frozen.planning.Some?
    && p.scope == Scope(d.owner, d.frozen.planning.value.input, d.frozen.planning.value.operations)
  }

  /** The newest generation of the definition's policies, zero when there is none. */
  predicate NewestIs(t: Tables, definition: Id, g: nat) {
    && (forall q | q in t.policies && t.policies[q].creation.definition == definition :: t.policies[q].generation <= g)
    && (g == 0 || exists q | q in t.policies :: t.policies[q].creation.definition == definition && t.policies[q].generation == g)
  }

  predicate ApproveAllowed(t: Tables, p: Policy, runtime: Id, now: nat, room: bool) {
    && ApproveNumbers(p, runtime, now) && room && p.creation.definition in t.definitions
    && ApproveCovers(p, t.definitions[p.creation.definition]) && NewestIs(t, p.creation.definition, p.creation.generation)
  }

  /** The prepared approval itself, apart from the ledger. */
  predicate Prepared(p: Policy, runtime: Id, now: nat) {
    && ValidApprove(p.creation) && ValidPolicy(p) && runtime != NIL && p.runtime == runtime && p.revocation.None?
    && p.approvedAt <= now < p.expiresAt
  }

  lemma NumbersAre(p: Policy, runtime: Id, now: nat)
    ensures Prepared(p, runtime, now) <==> ApproveNumbers(p, runtime, now)
  {
  }

  lemma CoversIs(p: Policy, d: Definition)
    requires ValidDefinition(d) && d.id == p.creation.definition && 1 <= p.scope.operations <= 128
    ensures d.removal.None? && PolicyFits(p, d) <==> ApproveCovers(p, d)
  {
  }

  lemma ApproveSteps(t: Tables, p: Policy, runtime: Id, now: nat, room: bool)
    requires PoliciesOk(t.policies, t.definitions) && GenerationsOk(t.policies) && p.creation.operation !in t.policies
    requires p.creation.definition in t.definitions ==>
               ValidDefinition(t.definitions[p.creation.definition]) && t.definitions[p.creation.definition].id == p.creation.definition
    ensures ApprovePolicy(t, p, runtime, now, room)
            == if && Prepared(p, runtime, now) && p.creation.definition in t.definitions && room
                  && t.definitions[p.creation.definition].removal.None? && PolicyFits(p, t.definitions[p.creation.definition])
                  && Latest(t.policies, p.creation.definition, p.creation.generation)
               then Done(t.(policies := t.policies[p.id := p]), (p, false)) else Refused
  {
  }

  /** An approval under a new receipt is saved if and only if all this holds. */
  lemma ApproveWhen(t: Tables, p: Policy, runtime: Id, now: nat, room: bool)
    requires Sound(t) && p.creation.operation !in t.policies
    ensures ApprovePolicy(t, p, runtime, now, room)
            == if ApproveAllowed(t, p, runtime, now, room) then Done(t.(policies := t.policies[p.id := p]), (p, false)) else Refused
  {
    ApproveSteps(t, p, runtime, now, room);
    NumbersAre(p, runtime, now);
    if p.creation.definition in t.definitions && ApproveNumbers(p, runtime, now) {
      CoversIs(p, t.definitions[p.creation.definition]);
    }
    assert NewestIs(t, p.creation.definition, p.creation.generation) <==> Latest(t.policies, p.creation.definition, p.creation.generation);
  }

  /** A policy is revoked, once, by a receipt of its own. */
  lemma RevokeWhen(t: Tables, id: Id, revision: nat, operation: Id, now: nat)
    requires Sound(t) && id in t.policies && t.policies[id].revocation.None?
    ensures var p := t.policies[id].(revocation := Some(Receipt(operation, revision)));
            RevokePolicy(t, id, revision, operation, now)
            == if operation != NIL && operation != id && revision == 1 && now != 0
               then Done(t.(policies := t.policies[id := p]), (p, false)) else Refused
  {
  }
}
