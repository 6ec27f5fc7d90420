/**
 Where overlap is not refused, on a concrete run from the empty ledger.  A job that belongs to no claim is
 checked against no claim, so a reservation for it may carry the receipt that a cancelled claim was given;
 and a direct insertion adds a second job to a claim that is still held.
 */
module LedgerBorrow {
  import opened Prelude
  import opened Records
  import opened Ledger
  import opened LedgerInvariant
  import opened LedgerSteps
  import opened LedgerRuns
  import opened LedgerTheorems
  import opened LedgerLaunch
  import opened LedgerClaims
  import opened LedgerOverlap
  import opened LedgerDue
  import opened LedgerAlone
  import opened LedgerWitness
  import LedgerCalls

  // ------------------------------------------------------------------ the records

  function At(request: Id): Context { Context(request, 7, 8) }

  function Submission(job: Id, request: Id): Plan {
    Plan(job, Some(At(request)), 0, Review, None, None, None, [], false, 0)
  }

  function Submitted(job: Id, request: Id, now: nat): Plan {
    Submission(job, request).(revision := 1, updatedAt := now)
  }

  function Compiled(job: Id, request: Id): Plan {
    Plan(job, Some(At(request)), 2, AwaitingApproval, Some(Planning(1, 5, 1)), None, None, [], false, 50)
  }

  function Frozen(id: Id, job: Id, request: Id): Definition {
    Definition(id, At(request), 60, Define(id, job, 2, 1, 1000, 10, 1_000_000), id, Compiled(job, request), None)
  }

  const LIMITS := Limits(10, 1024)

  function Granted(id: Id, definition: Id, request: Id): Policy {
    Policy(id, Approve(definition, definition, 0, id, 1_000_000, 10, LIMITS, 1000, 102_400), 1, 9, 1,
           100, 1_000_100, Scope(At(request), 5, 1), id, None)
  }

  const UNRELATED := Compiled(201, 301)
  const OTHERS := Compiled(202, 302)
  const FIRST := Frozen(11, 201, 301)
  const SECOND := Frozen(12, 202, 302)
  const POLICY := Granted(13, 11, 301)
  const OTHER := Granted(14, 12, 302)
  const ARM := Arm(13, 13, 15)
  const ARMED := NewSchedule(ARM, POLICY, FIRST, 9, 1, 100)
  const CLAIM := Trigger(16, 15, 1, 1100, 1100, At(303), 17, 18, 0)
  const HELD := ClaimedAt(ARMED, 16, 1100)
  const CANCELLED := Plan(203, Some(At(303)), 2, Cancelled, None, None, None, [], false, 1150)
  const WAITS := Rearmed(HELD, 1200)

  const DEFINITIONS := map[11 := FIRST, 12 := SECOND]
  const POLICIES := map[13 := POLICY, 14 := OTHER]
  const JOBS := map[201 := UNRELATED, 202 := OTHERS]

  // ------------------------------------------------------------------ two definitions and their policies

  const COMPILED := EMPTY.(jobs := JOBS)
  const DEFINED := COMPILED.(definitions := DEFINITIONS)
  const APPROVED := DEFINED.(policies := POLICIES)

  lemma OneCompiled(t: Tables, job: Id, request: Id)
    requires Reachable(t) && Early(t) && t.triggers == [] && job !in t.jobs
    requires forall id | id in t.jobs :: t.jobs[id].context.Some? && t.jobs[id].context.value.request != request
    ensures Reachable(t.(jobs := t.jobs[job := Compiled(job, request)]))
  {
    AdmitReaches(t, Submission(job, request), 40);
    var admitted := t.(jobs := t.jobs[job := Submitted(job, request, 40)]);
    EditReaches(admitted, job, Compiled(job, request), 50);
    assert admitted.(jobs := admitted.jobs[job := Compiled(job, request)]) == t.(jobs := t.jobs[job := Compiled(job, request)]);
  }

  lemma CompiledReached()
    ensures Reachable(COMPILED)
  {
    EmptyReached();
    OneCompiled(EMPTY, 201, 301);
    var one := EMPTY.(jobs := map[201 := UNRELATED]);
    assert EMPTY.jobs[201 := UNRELATED] == one.jobs;
    OneCompiled(one, 202, 302);
    assert one.jobs[202 := OTHERS] == JOBS;
  }

  lemma DefinedReached()
    ensures Reachable(DEFINED)
  {
    CompiledReached();
    DefineReaches(COMPILED, FIRST.creation, 60, 11, FIRST);
    var one := COMPILED.(definitions := map[11 := FIRST]);
    assert COMPILED.definitions[11 := FIRST] == one.definitions;
    DefineReaches(one, SECOND.creation, 60, 12, SECOND);
    assert one.definitions[12 := SECOND] == DEFINITIONS;
  }

  lemma PolicyHolds(p: Policy, d: Definition)
    requires (p == POLICY && d == FIRST) || (p == OTHER && d == SECOND)
    ensures ValidPolicy(p) && ValidDefinition(d) && PolicyFits(p, d)
  {
  }

  const GRANTS := DEFINED.(policies := map[13 := POLICY])

  lemma GrantedReached()
    ensures Reachable(GRANTS)
  {
    DefinedReached();
    PolicyHolds(POLICY, FIRST);
    ApproveReaches(DEFINED, POLICY, FIRST, 100);
    assert DEFINED.policies[13 := POLICY] == GRANTS.policies;
  }

  lemma ApprovedReached()
    ensures Reachable(APPROVED)
  {
    GrantedReached();
    PolicyHolds(OTHER, SECOND);
    ApproveReaches(GRANTS, OTHER, SECOND, 100);
    assert GRANTS.policies[14 := OTHER] == POLICIES;
  }

  lemma LatestHere()
    ensures Latest(POLICIES, 12, 1) && Latest(POLICIES, 11, 1)
  {
    assert POLICIES[13].generation == 1 && POLICIES[14].generation == 1;
  }

  lemma CurrentHere(p: Policy, d: Definition, now: nat)
    requires (p == POLICY && d == FIRST) || (p == OTHER && d == SECOND)
    requires 100 <= now < 1_000_100
    ensures CurrentAt(p, d, POLICIES, 9, 1, now)
  {
    PolicyHolds(p, d);
    LatestHere();
  }

  lemma AllowanceHere(p: Policy)
    requires p == POLICY || p == OTHER
    ensures AllowanceAvailable([], p) && AllowanceMs(p) == 10 && AllowanceBytes(p) == 1024
  {
  }

  // ------------------------------------------------------------------ one claim, cancelled

  const ARMS := APPROVED.(schedules := map[15 := ARMED])
  const CLAIMS := APPROVED.(schedules := map[15 := HELD], triggers := [CLAIM])
  const SUBMITS := CLAIMS.(jobs := JOBS[203 := Submitted(203, 303, 1110)])
  const CLOSED := CLAIMS.(jobs := JOBS[203 := CANCELLED])
  const BEFORE := CLOSED.(schedules := map[15 := WAITS])

  lemma ScheduleHolds(s: Schedule)
    requires s == ARMED || s == HELD || s == WAITS
    ensures ScheduleOk(s, 15, POLICIES, DEFINITIONS)
  {
  }

  lemma ArmedReached()
    ensures Reachable(ARMS)
  {
    ApprovedReached();
    CurrentHere(POLICY, FIRST, 100);
    AllowanceHere(POLICY);
    ScheduleHolds(ARMED);
    ArmReaches(APPROVED, ARM, POLICY, FIRST, 100);
  }

  lemma FindOne<T>(x: T, hit: T -> bool)
    ensures Find([x], hit) == if hit(x) then Some(x) else None
    ensures Count([x], hit) == if hit(x) then 1 else 0
  {
    assert [x] == [] + [x];
    FindAppend([], x, hit);
    CountAppend([], x, hit);
  }

  const FIRST_IDS := FreshIds(16, 303, 17, 18, 0)

  lemma UnusedFirst(id: Id)
    requires id in {16, 303, 17, 18}
    ensures Unused(ARMS, id)
  {
  }

  lemma FirstGenerated()
    ensures Generated(ARMS, FIRST_IDS)
  {
    UnusedFirst(16);
    UnusedFirst(303);
    UnusedFirst(17);
    UnusedFirst(18);
  }

  lemma FirstClaims()
    ensures TriggersOk([CLAIM], map[15 := HELD], POLICIES) && IdentitiesOk([CLAIM]) && OneActive(map[15 := HELD])
    ensures ClaimsOk(map[15 := HELD], [CLAIM]) && RefusalsOk(map[15 := HELD], [CLAIM], [], JOBS)
  {
    FindOne(CLAIM, OfSchedule(15));
    FindOne(CLAIM, IsClaim(15, 1));
  }

  lemma FirstHistory()
    ensures HistoryOk(CLAIMS)
  {
    ApprovedReached();
    Checked(APPROVED);
    ScheduleHolds(HELD);
    FirstClaims();
  }

  lemma FirstClaimable()
    ensures Claimable(ARMS, ARMED, POLICY, FIRST_IDS, 1100, CLAIM, CLAIMS)
  {
    CurrentHere(POLICY, FIRST, 1100);
    AllowanceHere(POLICY);
    FirstGenerated();
    ScheduleHolds(HELD);
  }

  lemma ClaimedReached()
    ensures Reachable(CLAIMS)
  {
    ArmedReached();
    FirstHistory();
    FirstClaimable();
    ClaimReaches(ARMS, ARMED, POLICY, FIRST_IDS, 1100, CLAIM, CLAIMS);
  }

  /** While the claim is held, work for its request is admitted. */
  lemma AuthorityHere(t: Tables, now: nat)
    requires t == CLAIMS || t == SUBMITS || t == CLOSED
    requires 1100 <= now < 1_000_100
    ensures SourceAuthority(t, At(303), now)
  {
    FindOne(CLAIM, HasRequest(303));
    CurrentHere(POLICY, FIRST, now);
  }

  lemma ClosedReached()
    ensures Reachable(CLOSED)
  {
    ClaimedReached();
    AuthorityHere(CLAIMS, 1110);
    AdmitReaches(CLAIMS, Submission(203, 303), 1110);
    AuthorityHere(SUBMITS, 1150);
    EditReaches(SUBMITS, 203, CANCELLED, 1150);
    assert SUBMITS.jobs[203 := CANCELLED] == CLOSED.jobs;
  }

  lemma ClosedClaim()
    ensures Unissued(CLOSED, CLAIM, 203) && ClaimResolved(CLOSED, CLAIM) && !RefusalAccepted(CLOSED, CLAIM)
  {
    assert SourceJobs(CLOSED.jobs, At(303)) == {203};
    UnissuedIsOver(CLOSED, CLAIM, 203);
  }

  lemma SettlesHere()
    ensures TriggerById([CLAIM], 16) == Some(CLAIM) && CLOSED.schedules[15 := WAITS] == map[15 := WAITS]
  {
    FindOne(CLAIM, (x: Trigger) => x.id == 16);
  }

  /** The schedule waits again after its one claim, whose job was cancelled. */
  lemma BeforeReached()
    ensures Reachable(BEFORE)
  {
    ClosedReached();
    ClosedClaim();
    SettlesHere();
    CurrentHere(POLICY, FIRST, 1200);
    AllowanceHere(POLICY);
    ScheduleHolds(WAITS);
    SettleReaches(CLOSED, HELD, POLICY, 1200, CLAIM);
  }

  lemma BeforeClaim()
    ensures ClaimResolved(BEFORE, CLAIM) && !RefusalAccepted(BEFORE, CLAIM)
  {
    assert SourceJobs(BEFORE.jobs, At(303)) == {203};
    UnissuedIsOver(BEFORE, CLAIM, 203);
  }

  // ------------------------------------------------------------------ the borrowing reservation

  /** A job of no claim is reserved under the other policy, with the claim's receipt 17. */
  const COMMAND := Reserve(14, 14, 201, 2, 1, 17)
  const TAKEN := Reserved(UNRELATED, COMMAND, OTHER, 1, 9, None, 1300, 1300)
  const RUN := Reservation(COMMAND, Delegation(17, 14, 14, 12, 1, 9, None), 1, 1300, 10, 1024, TAKEN, 0)
  const BORROWED := BEFORE.(jobs := BEFORE.jobs[201 := TAKEN], occurrences := [RUN])

  lemma Unlinked()
    ensures ReservationLink(BEFORE, UNRELATED, OTHER, 17, 1300) == Some(None)
  {
    FindOne(CLAIM, HasRequest(301));
  }

  lemma ScopesMatch()
    ensures MatchingScope(UNRELATED, OTHER) && MatchingScope(TAKEN, OTHER)
  {
  }

  lemma ReservableHere()
    ensures Reservable(BEFORE, COMMAND, OTHER, SECOND, UNRELATED, 9, 1, 1300)
  {
    CurrentHere(OTHER, SECOND, 1300);
    Unlinked();
    ScopesMatch();
    AllowanceHere(OTHER);
  }

  lemma NewRunHere()
    ensures ReservationLink(BEFORE, UNRELATED, OTHER, 17, 1300).Some?
    ensures NewRun(BEFORE, COMMAND, OTHER, UNRELATED, 9, 1, 1300, 1300, 0) == RUN
  {
    Unlinked();
  }

  lemma SnapshotValid()
    ensures ValidSnapshot(RUN) && ValidDelegationIds(RUN.delegation) && ValidReserve(COMMAND)
    ensures TAKEN.approval == Some(Approval(17, 1, 1300, 1_000_100, LIMITS, Some(RUN.delegation)))
  {
  }

  lemma RunValid()
    ensures ValidReservation(RUN, OTHER, SECOND)
  {
    SnapshotValid();
    ScopesMatch();
    AllowanceHere(OTHER);
  }

  lemma RunDelegates()
    ensures DelegationValid(TAKEN, BEFORE.triggers, BEFORE.schedules)
  {
    FindOne(CLAIM, HasRequest(301));
  }

  lemma RunHolds()
    ensures OccurrenceOk(RUN, BEFORE) && OccurrenceOk(RUN, BORROWED)
  {
    RunValid();
    RunDelegates();
  }

  lemma BorrowedJob()
    ensures JobOk(TAKEN, 201, BORROWED) && LiveMatches(RUN, TAKEN)
  {
    RunDelegates();
    FindOne(RUN, ReservesJob(201));
  }

  lemma BorrowedBudgets()
    ensures BudgetsOk(BORROWED.occurrences, BORROWED.policies)
  {
    FindOne(RUN, OfPolicy(13));
    FindOne(RUN, OfPolicy(14));
    assert [RUN] == [] + [RUN];
    SumAppend([], RUN, MsOf(13));
    SumAppend([], RUN, BytesOf(13));
    SumAppend([], RUN, MsOf(14));
    SumAppend([], RUN, BytesOf(14));
  }

  lemma BorrowedRetained()
    ensures RetainedOk(BORROWED)
  {
    RunHolds();
    BorrowedJob();
    BorrowedBudgets();
  }

  lemma BorrowedHistory()
    ensures HistoryOk(BORROWED)
  {
    BeforeReached();
    Checked(BEFORE);
  }

  lemma Commits(t: Tables, r: Reservation, p: Policy, d: Definition, commit: nat)
    requires HistoryOk(t) && RetainedOk(t) && JobOk(r.snapshot, r.command.job, t)
    requires r.reservedAt <= commit && CurrentAt(p, d, t.policies, 9, 1, commit) && AllowanceMs(p) <= SaturatingSub(p.expiresAt, commit)
    ensures RunCommits(t, r, p, d, 9, 1, commit)
  {
  }

  lemma BorrowedCommits()
    ensures RunCommits(BORROWED, RUN, OTHER, SECOND, 9, 1, 1300)
  {
    BorrowedJob();
    BorrowedHistory();
    BorrowedRetained();
    CurrentHere(OTHER, SECOND, 1300);
    AllowanceHere(OTHER);
    Commits(BORROWED, RUN, OTHER, SECOND, 1300);
  }

  lemma BorrowedTables()
    ensures BORROWED == BEFORE.(jobs := BEFORE.jobs[COMMAND.job := RUN.snapshot], occurrences := BEFORE.occurrences + [RUN])
  {
    assert BEFORE.occurrences + [RUN] == [RUN];
  }

  lemma BorrowStages()
    ensures Stageable(BEFORE, COMMAND, OTHER, SECOND, UNRELATED, 1300, 0, RUN, BORROWED)
  {
    SnapshotValid();
    ReservableHere();
    NewRunHere();
    RunHolds();
    BorrowedTables();
  }

  lemma BeforeChecked()
    ensures OccurrencesOk(BEFORE) && JobsOk(BEFORE)
  {
    BeforeReached();
    ReachableInv(BEFORE);
  }

  /** The ledger commits the borrowing reservation. */
  lemma BorrowCommits()
    ensures ReserveRun(BEFORE, COMMAND, 9, 1, 1300, 1300, 1300, 0, true) == Done(BORROWED, (RUN, false))
  {
    BeforeChecked();
    BorrowStages();
    BorrowedCommits();
    ReserveFollows(BEFORE, COMMAND, OTHER, SECOND, UNRELATED, 1300, 0, RUN, BORROWED);
  }

  const BORROW := ReserveEvent(COMMAND, 9, 1, 1300, 1300, 1300, 0, true)

  lemma BorrowedReached()
    ensures Apply(BEFORE, BORROW) == BORROWED && Reachable(BORROWED)
  {
    BeforeReached();
    BorrowCommits();
    ReserveReached(BEFORE, COMMAND, 9, 1, 1300, 0, BORROWED, RUN);
  }

  // ------------------------------------------------------------------ the next claim

  const IDS := FreshIds(41, 42, 43, 44, 0)
  const NEXT := Trigger(41, 15, 2, 2200, 2200, At(42), 43, 44, 0)
  const AGAIN := ClaimedAt(WAITS, 41, 2200)
  const AFTER := BORROWED.(schedules := map[15 := AGAIN], triggers := [CLAIM] + [NEXT])

  lemma FindTwo<T>(x: T, y: T, hit: T -> bool)
    ensures Find([x] + [y], hit) == if hit(x) then Some(x) else if hit(y) then Some(y) else None
    ensures Count([x] + [y], hit) == (if hit(x) then 1 else 0) + (if hit(y) then 1 else 0)
  {
    FindOne(x, hit);
    FindAppend([x], y, hit);
    CountAppend([x], y, hit);
  }

  lemma UnnamedHere(id: Id)
    requires 41 <= id <= 44
    ensures id !in BORROWED.policies && id !in BORROWED.schedules && !Requested(BORROWED.jobs, id)
    ensures forall d | d in BORROWED.policies :: BORROWED.policies[d].scope.owner.request != id
  {
    assert TAKEN.context == Some(At(301));
  }

  lemma UnusedHere(id: Id)
    requires 41 <= id <= 44
    ensures Unused(BORROWED, id)
  {
    UnnamedHere(id);
    assert forall x | x in BORROWED.triggers :: x == CLAIM;
    assert forall r | r in BORROWED.occurrences :: r == RUN;
    assert TAKEN.context == Some(At(301));
  }

  lemma FreshHere()
    ensures Generated(BORROWED, IDS)
  {
    UnusedHere(41);
    UnusedHere(42);
    UnusedHere(43);
    UnusedHere(44);
  }

  lemma AfterSchedules()
    ensures ScheduleOk(AGAIN, 15, POLICIES, DEFINITIONS)
    ensures SchedulesOk(AFTER.schedules, AFTER.policies, AFTER.definitions) && OneActive(AFTER.schedules)
  {
  }

  lemma AfterTriggers()
    ensures TriggersOk(AFTER.triggers, AFTER.schedules, AFTER.policies)
  {
    assert forall x | x in AFTER.triggers :: x == CLAIM || x == NEXT;
  }

  lemma AfterIdentities()
    ensures IdentitiesOk(AFTER.triggers)
  {
    assert AFTER.triggers[0] == CLAIM && AFTER.triggers[1] == NEXT && |AFTER.triggers| == 2;
  }

  lemma AfterClaims()
    ensures ClaimsOk(AFTER.schedules, AFTER.triggers)
    ensures RefusalsOk(AFTER.schedules, AFTER.triggers, AFTER.occurrences, AFTER.jobs)
  {
    FindTwo(CLAIM, NEXT, OfSchedule(15));
    FindTwo(CLAIM, NEXT, IsClaim(15, 2));
  }

  lemma PoliciesHold()
    ensures PoliciesOk(POLICIES, DEFINITIONS) && GenerationsOk(POLICIES)
  {
    ApprovedReached();
    Checked(APPROVED);
  }

  lemma AfterHistory()
    ensures HistoryOk(AFTER)
  {
    PoliciesHold();
    AfterSchedules();
    AfterTriggers();
    AfterIdentities();
    AfterClaims();
  }

  lemma ClaimAllowance()
    ensures AllowanceAvailable(BORROWED.occurrences, POLICY) && DefinitionResolved(BORROWED, 11)
  {
    FindOne(RUN, OfPolicy(13));
    assert [RUN] == [] + [RUN];
    SumAppend([], RUN, MsOf(13));
    SumAppend([], RUN, BytesOf(13));
    AllowanceHere(POLICY);
  }

  lemma NextClaimable()
    ensures Claimable(BORROWED, WAITS, POLICY, IDS, 2200, NEXT, AFTER)
  {
    ClaimAllowance();
    AllowanceHere(POLICY);
    FreshHere();
    AfterSchedules();
    CurrentHere(POLICY, FIRST, 2200);
    assert BORROWED.schedules[15 := AGAIN] == AFTER.schedules;
  }

  lemma NextCommits()
    ensures ClaimDue(BORROWED, 15, 9, 1, 2200, 2200, IDS, true) == Done(AFTER, Some(NEXT)) && Reachable(AFTER)
  {
    BorrowedReached();
    AfterHistory();
    NextClaimable();
    ClaimReaches(BORROWED, WAITS, POLICY, IDS, 2200, NEXT, AFTER);
  }

  lemma BothUnresolved()
    ensures !ClaimResolved(AFTER, CLAIM) && !ClaimResolved(AFTER, NEXT)
  {
    FindOne(RUN, IsReservation(17));
    FindOne(RUN, IsReservation(43));
    BorrowedJob();
    assert SourceJobs(AFTER.jobs, NEXT.context) == {};
  }

  lemma BorrowGuarded()
    ensures Reopens(BEFORE, BORROW, CLAIM)
  {
    BeforeClaim();
    BeforeChecked();
    BorrowedReached();
    ReserveChanges(BEFORE, BORROW);
    assert BORROWED.occurrences != BEFORE.occurrences;
  }

  lemma BorrowIsDishonest()
    ensures ClaimResolved(BEFORE, CLAIM) && Reopens(BEFORE, BORROW, CLAIM) && !Honest(BEFORE, BORROW)
  {
    BeforeClaim();
    BorrowGuarded();
    assert CLAIM in BEFORE.triggers;
    assert Concerns(BEFORE.schedules, 15, CLAIM) && !BEFORE.schedules[15].Holds(16);
  }

  const NEXT_CHECK := ClaimEvent(15, 9, 1, 2200, 2200, IDS, true)

  lemma ReopenedHere()
    ensures Open(BORROWED, CLAIM) && Disturbs(BEFORE, BORROW)
  {
    BeforeReached();
    BorrowIsDishonest();
    BorrowedReached();
    StepReopens(BEFORE, BORROW, CLAIM);
    assert CLAIM in BORROWED.triggers && BEFORE.schedules[15].state == Waiting;
  }

  lemma AloneHere()
    ensures Alone(BORROWED)
  {
    assert forall x | x in BORROWED.triggers :: x == CLAIM;
  }

  lemma NextChecked()
    ensures Apply(BORROWED, NEXT_CHECK) == AFTER
  {
    NextCommits();
    LedgerCalls.ClaimApplies(BORROWED, NEXT_CHECK);
  }

  lemma NextCrowds()
    ensures Crowds(BORROWED, NEXT_CHECK)
  {
    BorrowedReached();
    NextCommits();
    DueOutcome(BORROWED, 15, 9, 1, 2200, 2200, IDS, true);
    ReopenedHere();
    assert OfDefinition(BORROWED.schedules, CLAIM, BORROWED.schedules[15].definition);
  }

  /** The borrowing reservation opens a claim that was over while its schedule waits; one claim is open then. */
  lemma BorrowReopens()
    ensures Reachable(BEFORE) && ClaimResolved(BEFORE, CLAIM) && Reopens(BEFORE, BORROW, CLAIM)
    ensures Apply(BEFORE, BORROW) == BORROWED && Disturbs(BEFORE, BORROW) && !Honest(BEFORE, BORROW)
    ensures Alone(BORROWED) && Open(BORROWED, CLAIM)
  {
    BeforeReached();
    BorrowIsDishonest();
    BorrowedReached();
    ReopenedHere();
    AloneHere();
  }

  lemma TwoClaims()
    ensures CLAIM in AFTER.triggers && NEXT in AFTER.triggers && CLAIM != NEXT && SameDefinition(AFTER.schedules, CLAIM, NEXT)
  {
    assert AFTER.triggers[0] == CLAIM && AFTER.triggers[1] == NEXT;
  }

  /** A reachable state in which one definition has two unresolved claims: after the borrowing reservation the
      due check claims beside the claim that is open again. */
  lemma TwoUnresolvedClaims()
    ensures Reachable(BORROWED) && Crowds(BORROWED, NEXT_CHECK) && Apply(BORROWED, NEXT_CHECK) == AFTER && Reachable(AFTER)
    ensures CLAIM in AFTER.triggers && NEXT in AFTER.triggers && CLAIM != NEXT
    ensures SameDefinition(AFTER.schedules, CLAIM, NEXT)
    ensures !ClaimResolved(AFTER, CLAIM) && !ClaimResolved(AFTER, NEXT)
  {
    BorrowedReached();
    NextChecked();
    NextCrowds();
    NextCommits();
    BothUnresolved();
    TwoClaims();
  }

  // ------------------------------------------------------------------ a second job for a held claim

  const SECOND_JOB := Submission(205, 303).(status := Pending)
  const INSERT := InsertEvent(SECOND_JOB, 1160, true)
  const DOUBLED := CLOSED.(jobs := CLOSED.jobs[205 := SECOND_JOB.(revision := 1, updatedAt := 1160)])

  lemma InsertCommits()
    ensures InsertJob(CLOSED, SECOND_JOB, 1160, true) == Done(DOUBLED, SECOND_JOB.(revision := 1, updatedAt := 1160))
  {
    AuthorityHere(CLOSED, 1160);
  }

  lemma DoubledSource()
    ensures SourceJob(DOUBLED, CLAIM).Ambiguous? && DOUBLED.schedules[15].Holds(16) && DOUBLED.schedules[15].launchedAt.None?
  {
    assert 203 in SourceJobs(DOUBLED.jobs, At(303)) && 205 in SourceJobs(DOUBLED.jobs, At(303));
  }

  /** A reachable state in which a held claim is resolved, and a direct insertion that opens it again; a
      launch that then fails keeps its claim. */
  lemma SecondJobReopens()
    ensures Reachable(CLOSED) && ClaimResolved(CLOSED, CLAIM) && Held(CLOSED, CLAIM)
    ensures Apply(CLOSED, INSERT) == DOUBLED && Reachable(DOUBLED) && Reopens(CLOSED, INSERT, CLAIM)
    ensures !ClaimResolved(DOUBLED, CLAIM)
    ensures forall now, sha, later :: !Released(FailLaunch(DOUBLED, 16, 9, now, sha, later), CLAIM)
  {
    ClosedReached();
    ClosedClaim();
    InsertCommits();
    InsertReached(CLOSED, SECOND_JOB, 1160);
    assert 205 in DOUBLED.jobs && 205 !in CLOSED.jobs;
    DoubledSource();
    assert CLAIM in DOUBLED.triggers;
    forall now, sha, later ensures !Released(FailLaunch(DOUBLED, 16, 9, now, sha, later), CLAIM) {
      FailedLaunchReleases(DOUBLED, CLAIM, now, sha, later);
    }
  }
}
