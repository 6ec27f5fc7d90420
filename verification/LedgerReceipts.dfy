/** Exact receipts: after a checkpoint commits, the same command never commits again in any later
    state; it returns the retained record as it then is and writes nothing. */
module LedgerReceipts {
  import opened Prelude
  import opened Records
  import opened Ledger
  import opened LedgerInvariant
  import opened LedgerSteps
  import opened LedgerRuns
  import opened LedgerEvolution
  import opened LedgerTheorems
  import opened LedgerCalls

  lemma ReachableStep(t: Tables, e: Event)
    requires Reachable(t)
    ensures Reachable(Apply(t, e))
  {
    var events :| t == Run(EMPTY, events);
    assert (events + [e])[..|events|] == events;
    assert Apply(t, e) == Run(EMPTY, events + [e]);
  }

  lemma ReachedBy<T>(t: Tables, e: Event, a: Attempt<T>)
    requires Reachable(t) && a.Done? && Apply(t, e) == After(t, a)
    ensures Reachable(a.tables)
  {
    ReachableStep(t, e);
  }

  // ------------------------------------------------------------------ retained receipts

  datatype Retained =
    | Defined(define: Define)
    | Removed(id: Id, receipt: Receipt)
    | Approves(approve: Approve)
    | Revoked(id: Id, receipt: Receipt)
    | Armed(arm: Arm)
    | Stops(id: Id, receipt: Receipt)
    | Resolves(id: Id, resolution: Resolution)
    | Reserves(reservation: Reservation)
    | Archived(archive: Archive)
    | Launched(x: Trigger)

  /** The ledger still holds the record that a committed command left behind. */
  predicate Retains(t: Tables, k: Retained) {
    match k
    case Defined(c) => c.operation in t.definitions && t.definitions[c.operation].creation == c
    case Removed(id, receipt) => id in t.definitions && t.definitions[id].removal == Some(receipt)
    case Approves(c) => c.operation in t.policies && t.policies[c.operation].creation == c
    case Revoked(id, receipt) => id in t.policies && t.policies[id].revocation == Some(receipt)
    case Armed(c) => c.operation in t.schedules && t.schedules[c.operation].creation == c
    case Stops(id, receipt) => id in t.schedules && t.schedules[id].stop == Some(receipt)
    case Resolves(id, resolution) => id in t.schedules && t.schedules[id].resolution == Some(resolution)
    case Reserves(r) => r in t.occurrences
    case Archived(a) => ArchiveById(t.archives, a.Id()) == Some(a)
    case Launched(x) =>
      && x in t.triggers && x.schedule in t.schedules
      && (t.schedules[x.schedule].Holds(x.id) ==> t.schedules[x.schedule].launchedAt.Some?)
  }

  lemma RetainsEvolves(t: Tables, t': Tables, k: Retained)
    requires Evolves(t, t') && Retains(t, k)
    ensures Retains(t', k)
  {
    match k
    case Archived(a) => FindPrefix(t.archives, t'.archives, IsArchive(a.Id()));
    case Launched(x) => assert ClaimEvolves(x, t.schedules[x.schedule], t'.schedules[x.schedule]);
    case _ =>
  }

  /** Nothing retained is ever lost, and the checks a repeat runs first always pass. */
  lemma RetainsForever(t: Tables, events: seq<Event>, k: Retained)
    requires Reachable(t) && Retains(t, k)
    ensures Retains(Run(t, events), k)
    ensures Inv(Run(t, events))
  {
    Later(t, events);
    RetainsEvolves(t, Run(t, events), k);
  }

  // ------------------------------------------------------------------ a repeat writes nothing

  lemma DefineRepeats(t: Tables, c: Define, now: nat, sha: int, room: bool)
    requires DefinitionsOk(t.definitions) && ValidDefine(c) && Retains(t, Defined(c))
    ensures DefineAutomation(t, c, now, sha, room) == Done(t, (t.definitions[c.operation], true))
  {
  }

  lemma RemoveRepeats(t: Tables, id: Id, revision: nat, op: Id)
    requires DefinitionsOk(t.definitions) && op != NIL && Retains(t, Removed(id, Receipt(op, revision)))
    ensures RemoveDefinition(t, id, revision, op) == Done(t, (t.definitions[id], true))
  {
  }

  lemma ApproveRepeats(t: Tables, p: Policy, runtime: Id, now: nat, room: bool)
    requires HistoryOk(t) && ValidApprove(p.creation) && runtime != NIL && Retains(t, Approves(p.creation))
    ensures ApprovePolicy(t, p, runtime, now, room) == Done(t, (t.policies[p.creation.operation], true))
  {
  }

  lemma RevokeRepeats(t: Tables, id: Id, revision: nat, op: Id, now: nat)
    requires HistoryOk(t) && op != NIL && Retains(t, Revoked(id, Receipt(op, revision)))
    ensures RevokePolicy(t, id, revision, op, now) == Done(t, (t.policies[id], true))
  {
  }

  lemma ArmRepeats(t: Tables, c: Arm, runtime: Id, issuer: int, now: nat, commit: nat, room: bool)
    requires HistoryOk(t) && Retains(t, Armed(c))
    requires c.operation != NIL && c.policy != NIL && runtime != NIL && c.operation != c.policy
    ensures ArmSchedule(t, c, runtime, issuer, now, commit, room) == Done(t, (t.schedules[c.operation], true))
  {
  }

  lemma StopRepeats(t: Tables, id: Id, revision: nat, op: Id, now: nat)
    requires HistoryOk(t) && op != NIL && Retains(t, Stops(id, Receipt(op, revision)))
    ensures StopSchedule(t, id, revision, op, now) == Done(t, (t.schedules[id], true))
  {
  }

  lemma ResolveRepeats(t: Tables, id: Id, revision: nat, x: Id, hash: int, op: Id, now: nat, at: nat)
    requires HistoryOk(t) && op != NIL && x != NIL && Retains(t, Resolves(id, Resolution(op, revision, x, hash, at)))
    ensures ResolveRefusal(t, id, revision, x, hash, op, now) == Done(t, (t.schedules[id], true))
  {
  }

  lemma ReserveRepeats(t: Tables, r: Reservation, runtime: Id, issuer: int, now: nat, commit: nat, stamped: nat, sha: int, room: bool)
    requires OccurrencesOk(t) && ReceiptsDistinct(t.occurrences) && ValidReserve(r.command) && runtime != NIL && Retains(t, Reserves(r))
    ensures ReserveRun(t, r.command, runtime, issuer, now, commit, stamped, sha, room) == Done(t, (r, true))
  {
    UniqueReceipt(t.occurrences, r, OccurrenceById(t.occurrences, r.Id()).value);
  }

  lemma ArchiveRepeats(t: Tables, a: Archive, runtime: Id, now: nat, commit: nat, room: bool)
    requires OccurrencesOk(t) && ValidArchiveCommand(a.command) && runtime != NIL && Retains(t, Archived(a))
    ensures ArchiveRun(t, a.command, runtime, now, commit, room) == Done(t, (a, true))
  {
  }

  lemma LaunchRepeats(t: Tables, x: Trigger, runtime: Id, now: nat, commit: nat)
    requires HistoryOk(t) && Retains(t, Launched(x))
    ensures var again := BeginLaunch(t, x.id, runtime, now, commit); again.Done? ==> again == Done(t, false)
  {
    UniqueOwner(t.triggers, x, TriggerById(t.triggers, x.id).value, x.id);
  }

  // ------------------------------------------------------------------ at most once, in any run

  lemma ArmReachable(t: Tables, c: Arm, runtime: Id, issuer: int, now: nat, commit: nat, room: bool)
    requires Reachable(t) && ArmSchedule(t, c, runtime, issuer, now, commit, room).Done?
    ensures Reachable(ArmSchedule(t, c, runtime, issuer, now, commit, room).tables)
  {
    ArmApplies(t, ArmEvent(c, runtime, issuer, now, commit, room));
    ReachedBy(t, ArmEvent(c, runtime, issuer, now, commit, room), ArmSchedule(t, c, runtime, issuer, now, commit, room));
  }

  lemma ArmCommits(t: Tables, c: Arm, runtime: Id, issuer: int, now: nat, commit: nat, room: bool)
    requires ArmSchedule(t, c, runtime, issuer, now, commit, room).Done?
    ensures Retains(ArmSchedule(t, c, runtime, issuer, now, commit, room).tables, Armed(c))
    ensures c.operation != NIL && c.policy != NIL && c.operation != c.policy
  {
  }

  lemma ArmLater(t: Tables, c: Arm, events: seq<Event>, runtime: Id, issuer: int, now: nat, commit: nat, room: bool)
    requires Reachable(t) && Retains(t, Armed(c)) && runtime != NIL
    requires c.operation != NIL && c.policy != NIL && c.operation != c.policy
    ensures c.operation in Run(t, events).schedules
    ensures ArmSchedule(Run(t, events), c, runtime, issuer, now, commit, room)
            == Done(Run(t, events), (Run(t, events).schedules[c.operation], true))
  {
    RetainsForever(t, events, Armed(c));
    ArmRepeats(Run(t, events), c, runtime, issuer, now, commit, room);
  }

  lemma StopReachable(t: Tables, id: Id, revision: nat, op: Id, now: nat)
    requires Reachable(t) && StopSchedule(t, id, revision, op, now).Done?
    ensures Reachable(StopSchedule(t, id, revision, op, now).tables)
  {
    StopApplies(t, StopEvent(id, revision, op, now));
    ReachedBy(t, StopEvent(id, revision, op, now), StopSchedule(t, id, revision, op, now));
  }

  lemma ResolveReachable(t: Tables, id: Id, revision: nat, x: Id, hash: int, op: Id, now: nat)
    requires Reachable(t) && ResolveRefusal(t, id, revision, x, hash, op, now).Done?
    ensures Reachable(ResolveRefusal(t, id, revision, x, hash, op, now).tables)
  {
    ResolveApplies(t, ResolveEvent(id, revision, x, hash, op, now));
    ReachedBy(t, ResolveEvent(id, revision, x, hash, op, now), ResolveRefusal(t, id, revision, x, hash, op, now));
  }

  lemma LaunchReachable(t: Tables, id: Id, runtime: Id, now: nat, commit: nat)
    requires Reachable(t) && BeginLaunch(t, id, runtime, now, commit).Done?
    ensures Reachable(BeginLaunch(t, id, runtime, now, commit).tables)
  {
    LaunchApplies(t, LaunchEvent(id, runtime, now, commit));
    ReachedBy(t, LaunchEvent(id, runtime, now, commit), BeginLaunch(t, id, runtime, now, commit));
  }

  lemma DefineOnce(t: Tables, c: Define, now: nat, sha: int, room: bool, events: seq<Event>, now': nat, sha': int, room': bool)
    requires Reachable(t) && DefineAutomation(t, c, now, sha, room).Done?
    ensures var t' := Run(DefineAutomation(t, c, now, sha, room).tables, events);
            && c.operation in t'.definitions
            && DefineAutomation(t', c, now', sha', room') == Done(t', (t'.definitions[c.operation], true))
  {
    ReachableStep(t, DefineEvent(c, now, sha, room));
    RetainsForever(DefineAutomation(t, c, now, sha, room).tables, events, Defined(c));
    DefineRepeats(Run(DefineAutomation(t, c, now, sha, room).tables, events), c, now', sha', room');
  }

  lemma ArmOnce(t: Tables, c: Arm, runtime: Id, issuer: int, now: nat, commit: nat, room: bool, events: seq<Event>,
                runtime': Id, issuer': int, now': nat, commit': nat, room': bool)
    requires Reachable(t) && ArmSchedule(t, c, runtime, issuer, now, commit, room).Done? && runtime' != NIL
    ensures var t' := Run(ArmSchedule(t, c, runtime, issuer, now, commit, room).tables, events);
            && c.operation in t'.schedules
            && ArmSchedule(t', c, runtime', issuer', now', commit', room') == Done(t', (t'.schedules[c.operation], true))
  {
    ArmReachable(t, c, runtime, issuer, now, commit, room);
    ArmCommits(t, c, runtime, issuer, now, commit, room);
    ArmLater(ArmSchedule(t, c, runtime, issuer, now, commit, room).tables, c, events, runtime', issuer', now', commit', room');
  }

  lemma RemoveOnce(t: Tables, id: Id, revision: nat, op: Id, events: seq<Event>)
    requires Reachable(t) && RemoveDefinition(t, id, revision, op).Done?
    ensures var t' := Run(RemoveDefinition(t, id, revision, op).tables, events);
            && id in t'.definitions
            && RemoveDefinition(t', id, revision, op) == Done(t', (t'.definitions[id], true))
  {
    var t1 := RemoveDefinition(t, id, revision, op).tables;
    ReachableStep(t, RemoveDefinitionEvent(id, revision, op));
    RetainsForever(t1, events, Removed(id, Receipt(op, revision)));
    RemoveRepeats(Run(t1, events), id, revision, op);
  }

  lemma ApproveOnce(t: Tables, p: Policy, runtime: Id, now: nat, room: bool, events: seq<Event>, runtime': Id, now': nat, room': bool)
    requires Reachable(t) && ApprovePolicy(t, p, runtime, now, room).Done? && runtime' != NIL
    ensures var t' := Run(ApprovePolicy(t, p, runtime, now, room).tables, events);
            && p.creation.operation in t'.policies
            && ApprovePolicy(t', p, runtime', now', room') == Done(t', (t'.policies[p.creation.operation], true))
  {
    var t1 := ApprovePolicy(t, p, runtime, now, room).tables;
    ReachableStep(t, ApproveEvent(p, runtime, now, room));
    RetainsForever(t1, events, Approves(p.creation));
    ApproveRepeats(Run(t1, events), p, runtime', now', room');
  }

  lemma RevokeOnce(t: Tables, id: Id, revision: nat, op: Id, now: nat, events: seq<Event>, now': nat)
    requires Reachable(t) && RevokePolicy(t, id, revision, op, now).Done?
    ensures var t' := Run(RevokePolicy(t, id, revision, op, now).tables, events);
            && id in t'.policies
            && RevokePolicy(t', id, revision, op, now') == Done(t', (t'.policies[id], true))
  {
    var t1 := RevokePolicy(t, id, revision, op, now).tables;
    ReachableStep(t, RevokeEvent(id, revision, op, now));
    RetainsForever(t1, events, Revoked(id, Receipt(op, revision)));
    RevokeRepeats(Run(t1, events), id, revision, op, now');
  }

  lemma StopCommits(t: Tables, id: Id, revision: nat, op: Id, now: nat)
    requires StopSchedule(t, id, revision, op, now).Done?
    ensures op != NIL && Retains(StopSchedule(t, id, revision, op, now).tables, Stops(id, Receipt(op, revision)))
  {
    assert ScheduleOk(t.schedules[id], id, t.policies, t.definitions);
  }

  lemma StopOnce(t: Tables, id: Id, revision: nat, op: Id, now: nat, events: seq<Event>, now': nat)
    requires Reachable(t) && StopSchedule(t, id, revision, op, now).Done?
    ensures var t' := Run(StopSchedule(t, id, revision, op, now).tables, events);
            && id in t'.schedules
            && StopSchedule(t', id, revision, op, now') == Done(t', (t'.schedules[id], true))
  {
    var t1 := StopSchedule(t, id, revision, op, now).tables;
    StopCommits(t, id, revision, op, now);
    StopReachable(t, id, revision, op, now);
    RetainsForever(t1, events, Stops(id, Receipt(op, revision)));
    StopRepeats(Run(t1, events), id, revision, op, now');
  }

  lemma ResolveCommits(t: Tables, id: Id, revision: nat, x: Id, hash: int, op: Id, now: nat) returns (at: nat)
    requires ResolveRefusal(t, id, revision, x, hash, op, now).Done?
    ensures op != NIL && x != NIL
    ensures Retains(ResolveRefusal(t, id, revision, x, hash, op, now).tables, Resolves(id, Resolution(op, revision, x, hash, at)))
  {
    assert ScheduleOk(t.schedules[id], id, t.policies, t.definitions);
    at := if t.schedules[id].resolution.Some? then t.schedules[id].resolution.value.resolvedAt else now;
  }

  lemma ResolveLater(t: Tables, id: Id, r: Resolution, events: seq<Event>, now: nat)
    requires Reachable(t) && Retains(t, Resolves(id, r)) && r.operation != NIL && r.trigger != NIL
    ensures id in Run(t, events).schedules
    ensures ResolveRefusal(Run(t, events), id, r.revision, r.trigger, r.refusalSha, r.operation, now)
            == Done(Run(t, events), (Run(t, events).schedules[id], true))
  {
    RetainsForever(t, events, Resolves(id, r));
    ResolveRepeats(Run(t, events), id, r.revision, r.trigger, r.refusalSha, r.operation, now, r.resolvedAt);
  }

  lemma ResolveOnce(t: Tables, id: Id, revision: nat, x: Id, hash: int, op: Id, now: nat, events: seq<Event>, now': nat)
    requires Reachable(t) && ResolveRefusal(t, id, revision, x, hash, op, now).Done?
    ensures var t' := Run(ResolveRefusal(t, id, revision, x, hash, op, now).tables, events);
            && id in t'.schedules
            && ResolveRefusal(t', id, revision, x, hash, op, now') == Done(t', (t'.schedules[id], true))
  {
    var t1 := ResolveRefusal(t, id, revision, x, hash, op, now).tables;
    var at := ResolveCommits(t, id, revision, x, hash, op, now);
    ResolveReachable(t, id, revision, x, hash, op, now);
    ResolveLater(t1, id, Resolution(op, revision, x, hash, at), events, now');
  }

  /** Whatever reservation is retained now is what its command returns in every later state. */
  lemma ReserveLater(t: Tables, r: Reservation, events: seq<Event>, runtime: Id, issuer: int, now: nat, commit: nat, stamped: nat, sha: int, room: bool)
    requires Reachable(t) && Retains(t, Reserves(r)) && ValidReserve(r.command) && runtime != NIL
    ensures ReserveRun(Run(t, events), r.command, runtime, issuer, now, commit, stamped, sha, room) == Done(Run(t, events), (r, true))
  {
    RetainsForever(t, events, Reserves(r));
    ReserveRepeats(Run(t, events), r, runtime, issuer, now, commit, stamped, sha, room);
  }

  lemma ReserveCommits(t: Tables, c: Reserve, runtime: Id, issuer: int, now: nat, commit: nat, stamped: nat, sha: int, room: bool)
    requires ReserveRun(t, c, runtime, issuer, now, commit, stamped, sha, room).Done?
    ensures var a := ReserveRun(t, c, runtime, issuer, now, commit, stamped, sha, room);
            && ValidReserve(c) && a.value.0.command == c && Retains(a.tables, Reserves(a.value.0))
  {
  }

  lemma ArchiveCommits(t: Tables, c: ArchiveCommand, runtime: Id, now: nat, commit: nat, room: bool)
    requires ArchiveRun(t, c, runtime, now, commit, room).Done?
    ensures var a := ArchiveRun(t, c, runtime, now, commit, room);
            && ValidArchiveCommand(c) && a.value.0.command == c && Retains(a.tables, Archived(a.value.0))
  {
    FindAppend(t.archives, ArchiveRun(t, c, runtime, now, commit, room).value.0, IsArchive(c.operation));
  }

  /** Whatever archive is retained now is what its command returns in every later state. */
  lemma ArchiveLater(t: Tables, a: Archive, events: seq<Event>, runtime: Id, now: nat, commit: nat, room: bool)
    requires Reachable(t) && Retains(t, Archived(a)) && ValidArchiveCommand(a.command) && runtime != NIL
    ensures ArchiveRun(Run(t, events), a.command, runtime, now, commit, room) == Done(Run(t, events), (a, true))
  {
    RetainsForever(t, events, Archived(a));
    ArchiveRepeats(Run(t, events), a, runtime, now, commit, room);
  }

  /** A reservation commits once: in any later state its command returns that same reservation. */
  lemma ReserveOnce(t: Tables, c: Reserve, runtime: Id, issuer: int, now: nat, commit: nat, stamped: nat, sha: int, room: bool,
                    events: seq<Event>, runtime': Id, issuer': int, now': nat, commit': nat, stamped': nat, sha': int, room': bool)
    requires Reachable(t) && ReserveRun(t, c, runtime, issuer, now, commit, stamped, sha, room).Done? && runtime' != NIL
    ensures var a := ReserveRun(t, c, runtime, issuer, now, commit, stamped, sha, room);
            var t' := Run(a.tables, events);
            ReserveRun(t', c, runtime', issuer', now', commit', stamped', sha', room') == Done(t', (a.value.0, true))
  {
    var a := ReserveRun(t, c, runtime, issuer, now, commit, stamped, sha, room);
    ReserveApplies(t, ReserveEvent(c, runtime, issuer, now, commit, stamped, sha, room));
    ReachedBy(t, ReserveEvent(c, runtime, issuer, now, commit, stamped, sha, room), a);
    ReserveCommits(t, c, runtime, issuer, now, commit, stamped, sha, room);
    ReserveLater(a.tables, a.value.0, events, runtime', issuer', now', commit', stamped', sha', room');
  }

  /** An archive commits once: in any later state its command returns that same archive. */
  lemma ArchiveOnce(t: Tables, c: ArchiveCommand, runtime: Id, now: nat, commit: nat, room: bool,
                    events: seq<Event>, runtime': Id, now': nat, commit': nat, room': bool)
    requires Reachable(t) && ArchiveRun(t, c, runtime, now, commit, room).Done? && runtime' != NIL
    ensures var a := ArchiveRun(t, c, runtime, now, commit, room);
            var t' := Run(a.tables, events);
            ArchiveRun(t', c, runtime', now', commit', room') == Done(t', (a.value.0, true))
  {
    var a := ArchiveRun(t, c, runtime, now, commit, room);
    ArchiveApplies(t, ArchiveEvent(c, runtime, now, commit, room));
    ReachedBy(t, ArchiveEvent(c, runtime, now, commit, room), a);
    ArchiveCommits(t, c, runtime, now, commit, room);
    ArchiveLater(a.tables, a.value.0, events, runtime', now', commit', room');
  }

  lemma LaunchCommits(t: Tables, id: Id, runtime: Id, now: nat, commit: nat)
    requires BeginLaunch(t, id, runtime, now, commit).Done?
    ensures TriggerById(t.triggers, id).Some?
    ensures Retains(BeginLaunch(t, id, runtime, now, commit).tables, Launched(TriggerById(t.triggers, id).value))
  {
    assert TriggerOk(TriggerById(t.triggers, id).value, t.schedules, t.policies);
    assert ScheduleOk(t.schedules[TriggerById(t.triggers, id).value.schedule],
                      TriggerById(t.triggers, id).value.schedule, t.policies, t.definitions);
  }

  lemma LaunchLater(t: Tables, x: Trigger, events: seq<Event>, runtime: Id, now: nat, commit: nat)
    requires Reachable(t) && Retains(t, Launched(x))
    ensures var again := BeginLaunch(Run(t, events), x.id, runtime, now, commit);
            again.Done? ==> again == Done(Run(t, events), false)
  {
    RetainsForever(t, events, Launched(x));
    LaunchRepeats(Run(t, events), x, runtime, now, commit);
  }

  /** A launch begins at most once per claim: every later attempt is refused or reports reuse. */
  lemma LaunchOnce(t: Tables, id: Id, runtime: Id, now: nat, commit: nat, events: seq<Event>, runtime': Id, now': nat, commit': nat)
    requires Reachable(t) && BeginLaunch(t, id, runtime, now, commit).Done?
    ensures var t' := Run(BeginLaunch(t, id, runtime, now, commit).tables, events);
            var again := BeginLaunch(t', id, runtime', now', commit');
            again.Done? ==> again == Done(t', false)
  {
    var t1 := BeginLaunch(t, id, runtime, now, commit).tables;
    LaunchCommits(t, id, runtime, now, commit);
    LaunchReachable(t, id, runtime, now, commit);
    LaunchLater(t1, TriggerById(t.triggers, id).value, events, runtime', now', commit');
  }
}
