/** Whole runs of the ledger: what holds in every reachable state and across any later steps. */
module LedgerRuns {
  import opened Prelude
  import opened Records
  import opened Ledger
  import opened LedgerInvariant
  import opened LedgerSteps

  // ------------------------------------------------------------------ events and runs

  /** One checkpoint with every value it reads: clocks, generated identifiers, quota room. */
  datatype Event =
    | DefineEvent(define: Define, now: nat, sha: int, room: bool)
    | RemoveDefinitionEvent(id: Id, revision: nat, operation: Id)
    | ApproveEvent(candidate: Policy, runtime: Id, now: nat, room: bool)
    | RevokeEvent(id: Id, revision: nat, operation: Id, now: nat)
    | ArmEvent(arm: Arm, runtime: Id, issuer: int, now: nat, commit: nat, room: bool)
    | ClaimEvent(id: Id, runtime: Id, issuer: int, now: nat, commit: nat, ids: FreshIds, room: bool)
    | LaunchEvent(id: Id, runtime: Id, now: nat, commit: nat)
    | RefuseEvent(id: Id, runtime: Id, now: nat, sha: int)
    | ResolveEvent(id: Id, revision: nat, trigger: Id, hash: int, operation: Id, now: nat)
    | InterruptScheduleEvent(id: Id, reason: Reason, now: nat)
    | InterruptTriggerEvent(id: Id, reason: Reason, now: nat)
    | StopEvent(id: Id, revision: nat, operation: Id, now: nat)
    | SettleEvent(id: Id, runtime: Id, issuer: int, now: nat)
    | ReopenEvent(clock: Id -> nat)
    | InsertEvent(plan: Plan, now: nat, room: bool)
    | AdmitEvent(plan: Plan, same: bool, now: nat, room: bool)
    | EditEvent(id: Id, plan: Plan, gate: Option<Gate>, now: nat, room: bool)
    | RemoveJobEvent(id: Id)
    | ReserveEvent(reserve: Reserve, runtime: Id, issuer: int, now: nat, commit: nat, stamped: nat, sha: int, room: bool)
    | ArchiveEvent(archive: ArchiveCommand, runtime: Id, now: nat, commit: nat, room: bool)

  function After<T>(t: Tables, a: Attempt<T>): Tables {
    if a.Done? then a.tables else t
  }

  ghost function Apply(t: Tables, e: Event): Tables {
    match e
    case DefineEvent(c, now, sha, room) => After(t, DefineAutomation(t, c, now, sha, room))
    case RemoveDefinitionEvent(id, revision, op) => After(t, RemoveDefinition(t, id, revision, op))
    case ApproveEvent(p, runtime, now, room) => After(t, ApprovePolicy(t, p, runtime, now, room))
    case RevokeEvent(id, revision, op, now) => After(t, RevokePolicy(t, id, revision, op, now))
    case ArmEvent(c, runtime, issuer, now, commit, room) => After(t, ArmSchedule(t, c, runtime, issuer, now, commit, room))
    case ClaimEvent(id, runtime, issuer, now, commit, ids, room) => After(t, ClaimDue(t, id, runtime, issuer, now, commit, ids, room))
    case LaunchEvent(id, runtime, now, commit) => After(t, BeginLaunch(t, id, runtime, now, commit))
    case RefuseEvent(id, runtime, now, sha) => After(t, RecordRefusal(t, id, runtime, now, sha))
    case ResolveEvent(id, revision, x, hash, op, now) => After(t, ResolveRefusal(t, id, revision, x, hash, op, now))
    case InterruptScheduleEvent(id, reason, now) => After(t, InterruptSchedule(t, id, reason, now))
    case InterruptTriggerEvent(id, reason, now) => After(t, InterruptTrigger(t, id, reason, now))
    case StopEvent(id, revision, op, now) => After(t, StopSchedule(t, id, revision, op, now))
    case SettleEvent(id, runtime, issuer, now) => After(t, SettleSchedule(t, id, runtime, issuer, now))
    case ReopenEvent(clock) => After(t, Reopen(t, clock))
    case InsertEvent(p, now, room) => After(t, InsertJob(t, p, now, room))
    case AdmitEvent(p, same, now, room) => After(t, AdmitRequest(t, p, same, now, room))
    case EditEvent(id, p, gate, now, room) => After(t, EditJob(t, id, p, gate, now, room))
    case RemoveJobEvent(id) => After(t, RemoveFinished(t, id))
    case ReserveEvent(c, runtime, issuer, now, commit, stamped, sha, room) =>
      After(t, ReserveRun(t, c, runtime, issuer, now, commit, stamped, sha, room))
    case ArchiveEvent(c, runtime, now, commit, room) => After(t, ArchiveRun(t, c, runtime, now, commit, room))
  }

  ghost function Run(t: Tables, events: seq<Event>): Tables {
    if events == [] then t else Apply(Run(t, events[..|events| - 1]), events[|events| - 1])
  }

  // ------------------------------------------------------------------ moves

  /** The ten ways in which a checkpoint changes the tables. */
  datatype Move =
    | Idle
    | EditMove(id: Id) | ClaimMove(id: Id, x: Trigger) | ArmMove(s: Schedule) | RewriteMove
    | JobMove(plan: Plan) | DropMove(id: Id) | ReserveMove(r: Reservation) | ArchiveMove(a: Archive)
    | AuthorityMove

  ghost predicate ArmAt(t: Tables, t': Tables, s: Schedule) {
    && s.Id() !in t.schedules && t' == t.(schedules := t.schedules[s.Id() := s])
    && Fits(s, t) && NoOverlap(t, s.definition)
    && s.state == Waiting && s.claimed == 0
  }

  ghost predicate Moves(t: Tables, m: Move, t': Tables) {
    match m
    case Idle => t' == t
    case EditMove(id) => EditAt(t, t', id)
    case ClaimMove(id, x) => ClaimAt(t, t', id, x)
    case ArmMove(s) => ArmAt(t, t', s)
    case RewriteMove => RewriteAt(t, t')
    case JobMove(plan) => JobAt(t, t', plan)
    case DropMove(id) => DropAt(t, t', id)
    case ReserveMove(r) => ReserveAt(t, t', r)
    case ArchiveMove(a) => ArchiveAt(t, t', a)
    case AuthorityMove => AuthorityAt(t, t')
  }

  predicate EditsSchedule(e: Event) {
    || e.ClaimEvent? || e.LaunchEvent? || e.InterruptScheduleEvent? || e.InterruptTriggerEvent?
    || e.StopEvent? || e.SettleEvent?
  }

  /** New claims come from a due check, new jobs from an insertion or an admission, reservations from their own command. */
  ghost predicate Caused(t: Tables, e: Event, m: Move) {
    && (m.JobMove? && m.plan.id !in t.jobs ==>
          e.InsertEvent? || (e.AdmitEvent? && (m.plan.context.Some? ==> SameRequestJobs(t.jobs, m.plan.context.value) == {})))
    && (e.InsertEvent? ==> m.Idle? || (m.JobMove? && m.plan.id !in t.jobs && m.plan.context == e.plan.context))
    && (m.ClaimMove? ==> e.ClaimEvent?) && (m.ArmMove? ==> e.ArmEvent?) && (m.EditMove? ==> EditsSchedule(e))
    && (m.ReserveMove? ==> e.ReserveEvent? && m.r.command == e.reserve)
    && (e.ReserveEvent? ==> m.Idle? || m.ReserveMove?) && (m.ArchiveMove? ==> e.ArchiveEvent?)
    && (m.AuthorityMove? ==> (e.DefineEvent? || e.RemoveDefinitionEvent? || e.ApproveEvent? || e.RevokeEvent?) && Apply(t, e) != t)
  }

  lemma ArmShape(t: Tables, command: Arm, runtime: Id, issuer: int, now: nat, commit: nat, room: bool)
    requires Inv(t)
    ensures var a := ArmSchedule(t, command, runtime, issuer, now, commit, room);
            a.Done? ==> if a.value.1 then a.tables == t else ArmAt(t, a.tables, a.value.0)
  {
    var a := ArmSchedule(t, command, runtime, issuer, now, commit, room);
    if a.Done? && !a.value.1 {
      var p := t.policies[command.policy];
      ArmFits(t, command, p, t.definitions[p.creation.definition], runtime, issuer, now);
    }
  }

  // Which move each checkpoint makes, one family of checkpoints at a time.

  lemma MoveArming(t: Tables, e: Event) returns (m: Move)
    requires Inv(t) && e.ArmEvent?
    ensures Moves(t, m, Apply(t, e)) && Caused(t, e, m)
  {
    ArmShape(t, e.arm, e.runtime, e.issuer, e.now, e.commit, e.room);
    var a := ArmSchedule(t, e.arm, e.runtime, e.issuer, e.now, e.commit, e.room);
    m := if a.Done? && !a.value.1 then ArmMove(a.value.0) else Idle;
  }

  lemma ClaimMoves(t: Tables, id: Id, runtime: Id, issuer: int, now: nat, commit: nat, ids: FreshIds, room: bool) returns (m: Move)
    ensures Moves(t, m, After(t, ClaimDue(t, id, runtime, issuer, now, commit, ids, room)))
    ensures m.Idle? || m.EditMove? || m.ClaimMove?
  {
    ClaimShape(t, id, runtime, issuer, now, commit, ids, room);
    var a := ClaimDue(t, id, runtime, issuer, now, commit, ids, room);
    m := if a.Refused? || a.tables == t then Idle else if a.value.Some? then ClaimMove(id, a.value.value) else EditMove(id);
  }

  lemma LaunchMoves(t: Tables, id: Id, runtime: Id, now: nat, commit: nat) returns (m: Move)
    ensures Moves(t, m, After(t, BeginLaunch(t, id, runtime, now, commit)))
    ensures m.Idle? || m.EditMove?
  {
    LaunchShape(t, id, runtime, now, commit);
    var a := BeginLaunch(t, id, runtime, now, commit);
    m := if a.Refused? || a.tables == t then Idle else EditMove(TriggerById(t.triggers, id).value.schedule);
  }

  lemma MoveClaiming(t: Tables, e: Event) returns (m: Move)
    requires e.ClaimEvent? || e.LaunchEvent?
    ensures Moves(t, m, Apply(t, e)) && Caused(t, e, m)
  {
    match e
    case ClaimEvent(id, runtime, issuer, now, commit, ids, room) =>
      m := ClaimMoves(t, id, runtime, issuer, now, commit, ids, room);
    case LaunchEvent(id, runtime, now, commit) =>
      m := LaunchMoves(t, id, runtime, now, commit);
  }

  lemma RefusalMoves(t: Tables, id: Id, runtime: Id, now: nat, sha: int) returns (m: Move)
    ensures Moves(t, m, After(t, RecordRefusal(t, id, runtime, now, sha)))
    ensures m.Idle? || m.RewriteMove?
  {
    RefusalShape(t, id, runtime, now, sha);
    var a := RecordRefusal(t, id, runtime, now, sha);
    m := if a.Refused? || a.tables == t then Idle else RewriteMove;
  }

  lemma ResolveMoves(t: Tables, id: Id, revision: nat, x: Id, hash: int, op: Id, now: nat) returns (m: Move)
    ensures Moves(t, m, After(t, ResolveRefusal(t, id, revision, x, hash, op, now)))
    ensures m.Idle? || m.RewriteMove?
  {
    ResolveShape(t, id, revision, x, hash, op, now);
    var a := ResolveRefusal(t, id, revision, x, hash, op, now);
    m := if a.Refused? || a.tables == t then Idle else RewriteMove;
  }

  lemma MoveRetiring(t: Tables, e: Event) returns (m: Move)
    requires e.RefuseEvent? || e.ResolveEvent?
    ensures Moves(t, m, Apply(t, e)) && Caused(t, e, m)
  {
    match e
    case RefuseEvent(id, runtime, now, sha) => m := RefusalMoves(t, id, runtime, now, sha);
    case ResolveEvent(id, revision, x, hash, op, now) => m := ResolveMoves(t, id, revision, x, hash, op, now);
  }

  lemma MoveReopen(t: Tables, e: Event) returns (m: Move)
    requires e.ReopenEvent?
    ensures Moves(t, m, Apply(t, e)) && Caused(t, e, m)
  {
    ReopenShape(t, e.clock);
    m := if Reopen(t, e.clock).Done? then RewriteMove else Idle;
  }

  lemma MoveEditing(t: Tables, e: Event) returns (m: Move)
    requires e.InterruptScheduleEvent? || e.InterruptTriggerEvent? || e.StopEvent? || e.SettleEvent?
    ensures Moves(t, m, Apply(t, e)) && Caused(t, e, m)
  {
    m := Idle;
    if Apply(t, e) != t {
      match e
      case InterruptScheduleEvent(id, reason, now) =>
        InterruptScheduleShape(t, id, reason, now);
        m := EditMove(id);
      case InterruptTriggerEvent(id, reason, now) =>
        InterruptTriggerShape(t, id, reason, now);
        m := EditMove(TriggerById(t.triggers, id).value.schedule);
      case StopEvent(id, revision, op, now) =>
        StopShape(t, id, revision, op, now);
        m := EditMove(id);
      case SettleEvent(id, runtime, issuer, now) =>
        SettleShape(t, id, runtime, issuer, now);
        m := EditMove(id);
    }
  }

  lemma MoveGranting(t: Tables, e: Event) returns (m: Move)
    requires DefinitionsOk(t.definitions) && PoliciesOk(t.policies, t.definitions) && GenerationsOk(t.policies)
    requires e.DefineEvent? || e.RemoveDefinitionEvent? || e.ApproveEvent? || e.RevokeEvent?
    ensures Moves(t, m, Apply(t, e)) && Caused(t, e, m)
  {
    m := Idle;
    if Apply(t, e) != t {
      match e
      case DefineEvent(c, now, sha, room) =>
        DefineShape(t, c, now, sha, room);
        m := AuthorityMove;
      case RemoveDefinitionEvent(id, revision, op) =>
        RemoveDefinitionShape(t, id, revision, op);
        m := AuthorityMove;
      case ApproveEvent(p, runtime, now, room) =>
        ApproveShape(t, p, runtime, now, room);
        m := AuthorityMove;
      case RevokeEvent(id, revision, op, now) =>
        RevokeShape(t, id, revision, op, now);
        m := AuthorityMove;
    }
  }

  lemma MoveJobs(t: Tables, e: Event) returns (m: Move)
    requires RetainedOk(t) && ReceiptsDistinct(t.occurrences)
    requires e.InsertEvent? || e.AdmitEvent? || e.EditEvent? || e.RemoveJobEvent?
    ensures Moves(t, m, Apply(t, e)) && Caused(t, e, m)
  {
    m := Idle;
    if Apply(t, e) != t {
      match e
      case InsertEvent(p, now, room) =>
        InsertShape(t, p, now, room);
        m := JobMove(InsertJob(t, p, now, room).value);
      case AdmitEvent(p, same, now, room) =>
        AdmitShape(t, p, same, now, room);
        m := JobMove(AdmitRequest(t, p, same, now, room).value.0);
      case EditEvent(id, p, gate, now, room) =>
        EditShape(t, id, p, gate, now, room);
        m := JobMove(EditJob(t, id, p, gate, now, room).value);
      case RemoveJobEvent(id) =>
        RemoveShape(t, id);
        m := DropMove(id);
    }
  }

  lemma ReserveMoves(t: Tables, c: Reserve, runtime: Id, issuer: int, now: nat, commit: nat, stamped: nat, sha: int, room: bool)
    returns (m: Move)
    ensures Moves(t, m, After(t, ReserveRun(t, c, runtime, issuer, now, commit, stamped, sha, room)))
    ensures m.Idle? || (m.ReserveMove? && m.r.command == c)
  {
    ReserveShape(t, c, runtime, issuer, now, commit, stamped, sha, room);
    var a := ReserveRun(t, c, runtime, issuer, now, commit, stamped, sha, room);
    m := if a.Done? && !a.value.1 then ReserveMove(a.value.0) else Idle;
  }

  lemma ArchiveMoves(t: Tables, c: ArchiveCommand, runtime: Id, now: nat, commit: nat, room: bool) returns (m: Move)
    ensures Moves(t, m, After(t, ArchiveRun(t, c, runtime, now, commit, room)))
    ensures m.Idle? || m.ArchiveMove?
  {
    ArchiveShape(t, c, runtime, now, commit, room);
    var a := ArchiveRun(t, c, runtime, now, commit, room);
    m := if a.Done? && !a.value.1 then ArchiveMove(a.value.0) else Idle;
  }

  lemma MoveReserving(t: Tables, e: Event) returns (m: Move)
    requires e.ReserveEvent? || e.ArchiveEvent?
    ensures Moves(t, m, Apply(t, e)) && Caused(t, e, m)
  {
    match e
    case ReserveEvent(c, runtime, issuer, now, commit, stamped, sha, room) =>
      m := ReserveMoves(t, c, runtime, issuer, now, commit, stamped, sha, room);
    case ArchiveEvent(c, runtime, now, commit, room) =>
      m := ArchiveMoves(t, c, runtime, now, commit, room);
  }

  lemma Classify(t: Tables, e: Event) returns (m: Move)
    requires Inv(t)
    ensures Moves(t, m, Apply(t, e)) && Caused(t, e, m)
  {
    if e.ArmEvent? {
      m := MoveArming(t, e);
    } else if e.ClaimEvent? || e.LaunchEvent? {
      m := MoveClaiming(t, e);
    } else if e.RefuseEvent? || e.ResolveEvent? {
      m := MoveRetiring(t, e);
    } else if e.ReopenEvent? {
      m := MoveReopen(t, e);
    } else if e.InterruptScheduleEvent? || e.InterruptTriggerEvent? || e.StopEvent? || e.SettleEvent? {
      m := MoveEditing(t, e);
    } else if e.DefineEvent? || e.RemoveDefinitionEvent? || e.ApproveEvent? || e.RevokeEvent? {
      m := MoveGranting(t, e);
    } else if e.InsertEvent? || e.AdmitEvent? || e.EditEvent? || e.RemoveJobEvent? {
      m := MoveJobs(t, e);
    } else {
      m := MoveReserving(t, e);
    }
  }

  lemma ScheduleMoveKeeps(t: Tables, m: Move, t': Tables)
    requires Inv(t) && Moves(t, m, t') && (m.EditMove? || m.ClaimMove? || m.ArmMove? || m.RewriteMove?)
    ensures Inv(t')
  {
    match m
    case EditMove(id) => EditKeeps(t, t', id);
    case ClaimMove(id, x) => ClaimKeeps(t, t', id, x);
    case ArmMove(s) => PutSchedule(t, s);
    case RewriteMove => RewriteKeeps(t, t');
  }

  lemma RecordMoveKeeps(t: Tables, m: Move, t': Tables)
    requires Inv(t) && Moves(t, m, t')
    requires m.JobMove? || m.DropMove? || m.ReserveMove? || m.ArchiveMove? || m.AuthorityMove?
    ensures Inv(t')
  {
    match m
    case JobMove(plan) => JobKeeps(t, t', plan);
    case DropMove(id) => DropKeeps(t, t', id);
    case ReserveMove(r) => ReserveKeeps(t, t', r);
    case ArchiveMove(a) => ArchiveKeeps(t, t', a);
    case AuthorityMove => AuthorityKeeps(t, t');
  }

  lemma MoveKeeps(t: Tables, m: Move, t': Tables)
    requires Inv(t) && Moves(t, m, t')
    ensures Inv(t')
  {
    if m.EditMove? || m.ClaimMove? || m.ArmMove? || m.RewriteMove? {
      ScheduleMoveKeeps(t, m, t');
    } else if !m.Idle? {
      RecordMoveKeeps(t, m, t');
    }
  }

  lemma StepKeeps(t: Tables, e: Event)
    requires Inv(t)
    ensures Inv(Apply(t, e))
  {
    var m := Classify(t, e);
    MoveKeeps(t, m, Apply(t, e));
  }

  lemma {:induction false} RunKeeps(t: Tables, events: seq<Event>)
    requires Inv(t)
    ensures Inv(Run(t, events))
  {
    if events != [] {
      RunKeeps(t, events[..|events| - 1]);
      StepKeeps(Run(t, events[..|events| - 1]), events[|events| - 1]);
    }
  }

  /** From an empty ledger, every run keeps the whole history check and the occurrence check true. */
  lemma HistoryAlwaysOk(events: seq<Event>)
    ensures HistoryOk(Run(EMPTY, events)) && OccurrencesOk(Run(EMPTY, events))
  {
    EmptyInv();
    RunKeeps(EMPTY, events);
  }
}
