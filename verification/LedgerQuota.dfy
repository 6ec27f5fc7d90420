/**
 The ledger on its shared quota: which rows each checkpoint writes, and what the quota then promises of the
 ledger.  A checkpoint commits when the quota admits its rows, and the two stay in step for ever.
 */
module LedgerQuota {
  import opened Prelude
  import opened Records
  import opened Ledger
  import opened LedgerInvariant
  import opened LedgerSteps
  import opened LedgerRuns
  import opened LedgerTheorems
  import opened LedgerReceipts
  import S = Storage
  import StorageLaws

  // ------------------------------------------------------------------ rows and their keys

  ghost function Ids(rows: seq<S.Row>, table: S.Table): set<Id> {
    set r | r in rows && r.table == table :: r.id
  }

  lemma {:induction false} PutRows(rows: seq<S.Row>, row: S.Row, r: S.Row)
    requires S.Keyed(rows)
    ensures r in S.Put(rows, row) <==> r == row || (r in rows && !S.SameKey(r, row.table, row.id))
  {
    if rows != [] {
      assert rows == [rows[0]] + rows[1..];
      if S.SameKey(rows[0], row.table, row.id) {
        assert forall k | 0 < k < |rows| :: !S.SameKey(rows[0], rows[k].table, rows[k].id);
      } else {
        PutRows(rows[1..], row, r);
      }
    }
  }

  lemma {:induction false} DropRows(rows: seq<S.Row>, table: S.Table, id: Id, r: S.Row)
    requires S.Keyed(rows)
    ensures r in S.Drop(rows, table, id) <==> r in rows && !S.SameKey(r, table, id)
  {
    if rows != [] {
      assert rows == [rows[0]] + rows[1..];
      if S.SameKey(rows[0], table, id) {
        assert forall k | 0 < k < |rows| :: !S.SameKey(rows[0], rows[k].table, rows[k].id);
      } else {
        DropRows(rows[1..], table, id, r);
      }
    }
  }

  lemma PutIds(rows: seq<S.Row>, row: S.Row, table: S.Table)
    requires S.Keyed(rows)
    ensures Ids(S.Put(rows, row), table) == Ids(rows, table) + (if row.table == table then {row.id} else {})
  {
    forall r ensures r in S.Put(rows, row) <==> r == row || (r in rows && !S.SameKey(r, row.table, row.id)) {
      PutRows(rows, row, r);
    }
  }

  lemma DropIds(rows: seq<S.Row>, dropped: S.Table, id: Id, table: S.Table)
    requires S.Keyed(rows)
    ensures Ids(S.Drop(rows, dropped, id), table) == Ids(rows, table) - (if dropped == table then {id} else {})
  {
    forall r ensures r in S.Drop(rows, dropped, id) <==> r in rows && !S.SameKey(r, dropped, id) {
      DropRows(rows, dropped, id, r);
    }
  }

  /** The identifiers of the records that a table of the ledger holds. */
  function Held(t: Tables, table: S.Table): set<Id> {
    match table
    case Jobs => t.jobs.Keys
    case Definitions => t.definitions.Keys
    case Policies => t.policies.Keys
    case Schedules => t.schedules.Keys
    case Triggers => set i | 0 <= i < |t.triggers| :: t.triggers[i].id
    case Occurrences => set i | 0 <= i < |t.occurrences| :: t.occurrences[i].Id()
    case Archives => set i | 0 <= i < |t.archives| :: t.archives[i].Id()
    case _ => {}
  }

  predicate OfLedger(table: S.Table) { !table.Intents? && !table.Checks? }

  /** One row for every record of the ledger, and no other row in the ledger's tables. */
  ghost predicate Backed(t: Tables, rows: seq<S.Row>) {
    S.Keyed(rows) && forall table | OfLedger(table) :: Ids(rows, table) == Held(t, table)
  }

  // ------------------------------------------------------------------ what a checkpoint writes

  /** The sizes of the encoded records, and which schedules a bulk rewrite saves again. */
  datatype Sizes = Sizes(job: S.Size, record: S.Size, rewritten: seq<Id>)

  function ScheduleWrites(ids: seq<Id>): seq<S.Write> {
    if ids == [] then [] else ScheduleWrites(ids[..|ids| - 1]) + [S.ScheduleWrite(ids[|ids| - 1])]
  }

  function AuthorityWrite(e: Event, record: S.Size): seq<S.Write> {
    match e
    case DefineEvent(c, _, _, _) => [S.DefinitionWrite(c.operation, record)]
    case RemoveDefinitionEvent(id, _, _) => [S.DefinitionWrite(id, record)]
    case ApproveEvent(p, _, _, _) => [S.PolicyWrite(p.creation.operation, record)]
    case RevokeEvent(id, _, _, _) => [S.PolicyWrite(id, record)]
    case _ => []
  }

  function Writes(e: Event, m: Move, sizes: Sizes): seq<S.Write> {
    match m
    case Idle => []
    case EditMove(id) => [S.ScheduleWrite(id)]
    case ClaimMove(id, x) => [S.ScheduleWrite(id), S.TriggerWrite(x.id, sizes.record)]
    case ArmMove(s) => [S.ScheduleWrite(s.Id())]
    case RewriteMove => ScheduleWrites(sizes.rewritten)
    case JobMove(plan) => [S.JobWrite(plan.id, sizes.job)]
    case DropMove(id) => [S.JobRemoval(id)]
    case ReserveMove(r) => [S.ReservationWrite(r.command.job, sizes.job, r.Id(), sizes.record)]
    case ArchiveMove(a) => [S.ArchiveWrite(a.command.job, a.Id(), sizes.record)]
    case AuthorityMove => AuthorityWrite(e, sizes.record)
  }

  function Effects(rows: seq<S.Row>, writes: seq<S.Write>): seq<S.Row> {
    if writes == [] then rows else S.Effect(Effects(rows, writes[..|writes| - 1]), writes[|writes| - 1])
  }

  predicate AllAdmitted(rows: seq<S.Row>, limits: S.Limits, writes: seq<S.Write>) {
    writes != [] ==>
      && AllAdmitted(rows, limits, writes[..|writes| - 1])
      && S.Admits(Effects(rows, writes[..|writes| - 1]), limits, writes[|writes| - 1])
  }

  /** How one write changes the identifiers of a table. */
  function Written(w: S.Write, table: S.Table, ids: set<Id>): set<Id> {
    match w
    case JobWrite(id, _) => if table == S.Jobs then ids + {id} else ids
    case JobRemoval(id) => if table == S.Jobs then ids - {id} else ids
    case DefinitionWrite(id, _) => if table == S.Definitions then ids + {id} else ids
    case PolicyWrite(id, _) => if table == S.Policies then ids + {id} else ids
    case ScheduleWrite(id) => if table == S.Schedules then ids + {id} else ids
    case TriggerWrite(id, _) => if table == S.Triggers then ids + {id} else ids
    case ReservationWrite(job, _, id, _) => if table == S.Jobs then ids + {job} else if table == S.Occurrences then ids + {id} else ids
    case ArchiveWrite(job, id, _) => if table == S.Jobs then ids - {job} else if table == S.Archives then ids + {id} else ids
    case IntentWrite(id, _) => if table == S.Intents then ids + {id} else ids
    case CheckWrite(id) => if table == S.Checks then ids + {id} else ids
  }

  lemma EffectIds(rows: seq<S.Row>, w: S.Write, table: S.Table)
    requires S.Keyed(rows)
    ensures S.Keyed(S.Effect(rows, w)) && Ids(S.Effect(rows, w), table) == Written(w, table, Ids(rows, table))
  {
    StorageLaws.EffectKeyed(rows, w);
    match w
    case JobWrite(id, cost) => PutIds(rows, S.Row(S.Jobs, id, cost), table);
    case JobRemoval(id) => DropIds(rows, S.Jobs, id, table);
    case DefinitionWrite(id, cost) => PutIds(rows, S.Row(S.Definitions, id, cost), table);
    case PolicyWrite(id, cost) => PutIds(rows, S.Row(S.Policies, id, cost), table);
    case ScheduleWrite(id) => PutIds(rows, S.Row(S.Schedules, id, S.SCHEDULE_COST), table);
    case TriggerWrite(id, cost) => PutIds(rows, S.Row(S.Triggers, id, cost), table);
    case ReservationWrite(job, jobCost, id, cost) =>
      S.PutKeyed(rows, S.Row(S.Jobs, job, jobCost));
      PutIds(rows, S.Row(S.Jobs, job, jobCost), table);
      PutIds(S.Put(rows, S.Row(S.Jobs, job, jobCost)), S.Row(S.Occurrences, id, cost), table);
    case ArchiveWrite(job, id, cost) =>
      S.PutKeyed(rows, S.Row(S.Archives, id, cost));
      PutIds(rows, S.Row(S.Archives, id, cost), table);
      DropIds(S.Put(rows, S.Row(S.Archives, id, cost)), S.Jobs, job, table);
    case IntentWrite(id, cost) => PutIds(rows, S.Row(S.Intents, id, cost), table);
    case CheckWrite(id) => PutIds(rows, S.Row(S.Checks, id, S.CHECK_COST), table);
  }

  lemma OneWrite(rows: seq<S.Row>, w: S.Write)
    ensures Effects(rows, [w]) == S.Effect(rows, w)
  {
    assert [w][..0] == [];
  }

  lemma TwoWrites(rows: seq<S.Row>, v: S.Write, w: S.Write)
    ensures Effects(rows, [v, w]) == S.Effect(S.Effect(rows, v), w)
  {
    assert [v, w][..1] == [v];
    OneWrite(rows, v);
  }

  // ------------------------------------------------------------------ rows follow the ledger

  /** The write of a checkpoint changes each table's identifiers as the checkpoint changes the table. */
  ghost predicate Mirrors(t: Tables, t': Tables, w: S.Write) {
    forall table | OfLedger(table) :: Held(t', table) == Written(w, table, Held(t, table))
  }

  lemma MirroredBacked(t: Tables, t': Tables, rows: seq<S.Row>, w: S.Write)
    requires Backed(t, rows) && Mirrors(t, t', w)
    ensures Backed(t', S.Effect(rows, w))
  {
    forall table | OfLedger(table) ensures Ids(S.Effect(rows, w), table) == Held(t', table) {
      EffectIds(rows, w, table);
    }
    EffectIds(rows, w, S.Jobs);
  }

  lemma ScheduleMirrors(t: Tables, t': Tables, id: Id)
    requires t' == t.(schedules := t'.schedules) && t'.schedules.Keys == t.schedules.Keys + {id}
    ensures Mirrors(t, t', S.ScheduleWrite(id))
  {
  }

  lemma JobMirrors(t: Tables, t': Tables, id: Id, cost: S.Size)
    requires t' == t.(jobs := t'.jobs) && t'.jobs.Keys == t.jobs.Keys + {id}
    ensures Mirrors(t, t', S.JobWrite(id, cost))
  {
  }

  lemma RemovalMirrors(t: Tables, t': Tables, id: Id)
    requires t' == t.(jobs := t'.jobs) && t'.jobs.Keys == t.jobs.Keys - {id}
    ensures Mirrors(t, t', S.JobRemoval(id))
  {
  }

  lemma TriggerMirrors(t: Tables, t': Tables, x: Trigger, cost: S.Size)
    requires t' == t.(triggers := t.triggers + [x])
    ensures Mirrors(t, t', S.TriggerWrite(x.id, cost))
  {
    assert forall i | 0 <= i < |t.triggers| :: t'.triggers[i] == t.triggers[i];
    assert t'.triggers[|t.triggers|] == x;
    assert Held(t', S.Triggers) == Held(t, S.Triggers) + {x.id};
  }

  lemma ReservationMirrors(t: Tables, t': Tables, r: Reservation, jobCost: S.Size, cost: S.Size)
    requires t' == t.(jobs := t'.jobs, occurrences := t.occurrences + [r]) && t'.jobs.Keys == t.jobs.Keys + {r.command.job}
    ensures Mirrors(t, t', S.ReservationWrite(r.command.job, jobCost, r.Id(), cost))
  {
    assert forall i | 0 <= i < |t.occurrences| :: t'.occurrences[i] == t.occurrences[i];
    assert t'.occurrences[|t.occurrences|] == r;
    assert Held(t', S.Occurrences) == Held(t, S.Occurrences) + {r.Id()};
  }

  lemma ArchiveMirrors(t: Tables, t': Tables, a: Archive, cost: S.Size)
    requires t' == t.(jobs := t'.jobs, archives := t.archives + [a]) && t'.jobs.Keys == t.jobs.Keys - {a.command.job}
    ensures Mirrors(t, t', S.ArchiveWrite(a.command.job, a.Id(), cost))
  {
    assert forall i | 0 <= i < |t.archives| :: t'.archives[i] == t.archives[i];
    assert t'.archives[|t.archives|] == a;
    assert Held(t', S.Archives) == Held(t, S.Archives) + {a.Id()};
  }

  lemma DefinitionMirrors(t: Tables, t': Tables, id: Id, cost: S.Size)
    requires t' == t.(definitions := t'.definitions) && t'.definitions.Keys == t.definitions.Keys + {id}
    ensures Mirrors(t, t', S.DefinitionWrite(id, cost))
  {
  }

  lemma PolicyMirrors(t: Tables, t': Tables, id: Id, cost: S.Size)
    requires t' == t.(policies := t'.policies) && t'.policies.Keys == t.policies.Keys + {id}
    ensures Mirrors(t, t', S.PolicyWrite(id, cost))
  {
  }

  // ------------------------------------------------------------------ lifecycle updates

  lemma PreviousOf(rows: seq<S.Row>, table: S.Table, id: Id)
    requires id in Ids(rows, table)
    ensures S.Previous(rows, table, id).Some?
  {
    var r :| r in rows && r.table == table && r.id == id;
    assert S.SameKey(r, table, id);
  }

  lemma OneLifecycle(t: Tables, rows: seq<S.Row>, id: Id, limits: S.Limits)
    requires Backed(t, rows) && id in t.schedules
    ensures S.Admits(rows, limits, S.ScheduleWrite(id))
    ensures var after := S.Effect(rows, S.ScheduleWrite(id));
            Backed(t, after) && S.Bytes(after) == S.Bytes(rows) && |after| == |rows|
  {
    assert Ids(rows, S.Schedules) == Held(t, S.Schedules);
    PreviousOf(rows, S.Schedules, id);
    StorageLaws.ScheduleUpdateFree(rows, limits, id);
    ScheduleMirrors(t, t, id);
    MirroredBacked(t, t, rows, S.ScheduleWrite(id));
  }

  lemma LastScheduleWrite(ids: seq<Id>)
    requires ids != []
    ensures var writes := ScheduleWrites(ids);
            && writes != [] && writes[..|writes| - 1] == ScheduleWrites(ids[..|ids| - 1])
            && writes[|writes| - 1] == S.ScheduleWrite(ids[|ids| - 1])
  {
  }

  /** Saving schedules that the ledger already holds changes no total, no count and no identifier, and is
      admitted under any limits: a lifecycle checkpoint is never refused for space. */
  lemma {:induction false} LifecycleIsFree(t: Tables, rows: seq<S.Row>, ids: seq<Id>, limits: S.Limits)
    requires Backed(t, rows) && forall id | id in ids :: id in t.schedules
    ensures AllAdmitted(rows, limits, ScheduleWrites(ids))
    ensures var after := Effects(rows, ScheduleWrites(ids));
            Backed(t, after) && S.Bytes(after) == S.Bytes(rows) && |after| == |rows|
  {
    if ids != [] {
      var front, last := ids[..|ids| - 1], ids[|ids| - 1];
      LifecycleIsFree(t, rows, front, limits);
      assert last in ids;
      LastScheduleWrite(ids);
      OneLifecycle(t, Effects(rows, ScheduleWrites(front)), last, limits);
    }
  }

  // ------------------------------------------------------------------ one checkpoint

  lemma ScheduleMoveMirrors(t: Tables, e: Event, m: Move, t': Tables, sizes: Sizes)
    requires Moves(t, m, t') && (m.EditMove? || m.ArmMove?)
    ensures |Writes(e, m, sizes)| == 1 && Mirrors(t, t', Writes(e, m, sizes)[0])
  {
    ScheduleMirrors(t, t', if m.EditMove? then m.id else m.s.Id());
  }

  lemma JobMoveMirrors(t: Tables, e: Event, m: Move, t': Tables, sizes: Sizes)
    requires Moves(t, m, t') && (m.JobMove? || m.DropMove?)
    ensures |Writes(e, m, sizes)| == 1 && Mirrors(t, t', Writes(e, m, sizes)[0])
  {
    if m.JobMove? {
      JobMirrors(t, t', m.plan.id, sizes.job);
    } else {
      RemovalMirrors(t, t', m.id);
    }
  }

  lemma RunMoveMirrors(t: Tables, e: Event, m: Move, t': Tables, sizes: Sizes)
    requires Moves(t, m, t') && (m.ReserveMove? || m.ArchiveMove?)
    ensures |Writes(e, m, sizes)| == 1 && Mirrors(t, t', Writes(e, m, sizes)[0])
  {
    if m.ReserveMove? {
      ReservationMirrors(t, t', m.r, sizes.job, sizes.record);
    } else {
      ArchiveMirrors(t, t', m.a, sizes.record);
    }
  }

  lemma DefineMirrors(t: Tables, e: Event, record: S.Size)
    requires (e.DefineEvent? || e.RemoveDefinitionEvent?) && Apply(t, e) != t
    ensures |AuthorityWrite(e, record)| == 1 && Mirrors(t, Apply(t, e), AuthorityWrite(e, record)[0])
  {
    DefinitionMirrors(t, Apply(t, e), if e.DefineEvent? then e.define.operation else e.id, record);
  }

  lemma ApproveMirrors(t: Tables, e: Event, record: S.Size)
    requires (e.ApproveEvent? || e.RevokeEvent?) && Apply(t, e) != t
    ensures |AuthorityWrite(e, record)| == 1 && Mirrors(t, Apply(t, e), AuthorityWrite(e, record)[0])
  {
    PolicyMirrors(t, Apply(t, e), if e.ApproveEvent? then e.candidate.creation.operation else e.id, record);
  }

  lemma ClaimBacked(t: Tables, t': Tables, id: Id, x: Trigger, rows: seq<S.Row>, record: S.Size)
    requires ClaimAt(t, t', id, x) && Backed(t, rows)
    ensures Backed(t', Effects(rows, [S.ScheduleWrite(id), S.TriggerWrite(x.id, record)]))
  {
    var middle := t.(schedules := t'.schedules);
    ScheduleMirrors(t, middle, id);
    MirroredBacked(t, middle, rows, S.ScheduleWrite(id));
    TriggerMirrors(middle, t', x, record);
    MirroredBacked(middle, t', S.Effect(rows, S.ScheduleWrite(id)), S.TriggerWrite(x.id, record));
    TwoWrites(rows, S.ScheduleWrite(id), S.TriggerWrite(x.id, record));
  }

  lemma SameKeysBacked(t: Tables, t': Tables, rows: seq<S.Row>)
    requires Backed(t, rows) && t' == t.(schedules := t'.schedules) && t'.schedules.Keys == t.schedules.Keys
    ensures Backed(t', rows)
  {
    assert forall table | OfLedger(table) :: Held(t', table) == Held(t, table);
  }

  lemma RewriteBacked(t: Tables, t': Tables, rows: seq<S.Row>, ids: seq<Id>)
    requires Backed(t, rows) && t' == t.(schedules := t'.schedules) && t'.schedules.Keys == t.schedules.Keys
    requires forall id | id in ids :: id in t.schedules
    ensures Backed(t', Effects(rows, ScheduleWrites(ids)))
  {
    LifecycleIsFree(t, rows, ids, S.Limits(0, 0));
    SameKeysBacked(t, t', Effects(rows, ScheduleWrites(ids)));
  }

  lemma SingleBacked(t: Tables, t': Tables, rows: seq<S.Row>, writes: seq<S.Write>)
    requires Backed(t, rows) && |writes| == 1 && Mirrors(t, t', writes[0])
    ensures Backed(t', Effects(rows, writes))
  {
    assert writes == [writes[0]];
    OneWrite(rows, writes[0]);
    MirroredBacked(t, t', rows, writes[0]);
  }

  /** Whatever a checkpoint commits, the rows it writes keep one row per record. */
  lemma StepBacked(t: Tables, e: Event, m: Move, rows: seq<S.Row>, sizes: Sizes)
    requires Backed(t, rows) && Moves(t, m, Apply(t, e)) && Caused(t, e, m)
    requires m.RewriteMove? ==> forall id | id in sizes.rewritten :: id in t.schedules
    ensures Backed(Apply(t, e), Effects(rows, Writes(e, m, sizes)))
  {
    var t' := Apply(t, e);
    if m.RewriteMove? {
      RewriteBacked(t, t', rows, sizes.rewritten);
    } else if m.ClaimMove? {
      ClaimBacked(t, t', m.id, m.x, rows, sizes.record);
    } else if !m.Idle? {
      if m.EditMove? || m.ArmMove? {
        ScheduleMoveMirrors(t, e, m, t', sizes);
      } else if m.JobMove? || m.DropMove? {
        JobMoveMirrors(t, e, m, t', sizes);
      } else if m.ReserveMove? || m.ArchiveMove? {
        RunMoveMirrors(t, e, m, t', sizes);
      } else if e.DefineEvent? || e.RemoveDefinitionEvent? {
        DefineMirrors(t, e, sizes.record);
      } else {
        ApproveMirrors(t, e, sizes.record);
      }
      SingleBacked(t, t', rows, Writes(e, m, sizes));
    }
  }

  // ------------------------------------------------------------------ runs on a quota

  datatype Stored = Stored(t: Tables, rows: seq<S.Row>)

  /** A checkpoint whose rows the quota admitted, or a row that the ledger does not own. */
  datatype Round =
    | Checkpoint(e: Event, m: Move, sizes: Sizes, limits: S.Limits)
    | Aside(w: S.Write, limits: S.Limits)

  ghost predicate Possible(j: Stored, round: Round) {
    match round
    case Checkpoint(e, m, sizes, limits) =>
      && Moves(j.t, m, Apply(j.t, e)) && Caused(j.t, e, m)
      && (m.RewriteMove? ==> forall id | id in sizes.rewritten :: id in j.t.schedules)
      && AllAdmitted(j.rows, limits, Writes(e, m, sizes))
    case Aside(w, limits) => (w.IntentWrite? || w.CheckWrite?) && S.Admits(j.rows, limits, w)
  }

  ghost function Next(j: Stored, round: Round): Stored {
    match round
    case Checkpoint(e, m, sizes, limits) => Stored(Apply(j.t, e), Effects(j.rows, Writes(e, m, sizes)))
    case Aside(w, _) => j.(rows := S.Effect(j.rows, w))
  }

  ghost function Reached(rounds: seq<Round>): Stored {
    if rounds == [] then Stored(EMPTY, []) else Next(Reached(rounds[..|rounds| - 1]), rounds[|rounds| - 1])
  }

  ghost predicate PossibleRun(rounds: seq<Round>) {
    rounds != [] ==> PossibleRun(rounds[..|rounds| - 1]) && Possible(Reached(rounds[..|rounds| - 1]), rounds[|rounds| - 1])
  }

  predicate Within(rows: seq<S.Row>, ceiling: S.Limits) {
    S.Keyed(rows) && S.Bytes(rows) <= ceiling.bytes + S.BytesIn(rows, {S.Checks}) && |rows| <= ceiling.count
  }

  lemma WriteWithin(rows: seq<S.Row>, limits: S.Limits, w: S.Write, ceiling: S.Limits)
    requires Within(rows, ceiling) && S.Admits(rows, limits, w) && limits.bytes <= ceiling.bytes && limits.count <= ceiling.count
    ensures Within(S.Effect(rows, w), ceiling)
  {
    StorageLaws.EffectKeyed(rows, w);
    StorageLaws.WriteBounded(rows, limits, w);
    StorageLaws.ChecksKept(rows, w);
  }

  lemma {:induction false} WritesWithin(rows: seq<S.Row>, limits: S.Limits, writes: seq<S.Write>, ceiling: S.Limits)
    requires Within(rows, ceiling) && AllAdmitted(rows, limits, writes)
    requires limits.bytes <= ceiling.bytes && limits.count <= ceiling.count
    ensures Within(Effects(rows, writes), ceiling)
  {
    if writes != [] {
      WritesWithin(rows, limits, writes[..|writes| - 1], ceiling);
      WriteWithin(Effects(rows, writes[..|writes| - 1]), limits, writes[|writes| - 1], ceiling);
    }
  }

  lemma AsideBacked(t: Tables, rows: seq<S.Row>, w: S.Write)
    requires Backed(t, rows) && (w.IntentWrite? || w.CheckWrite?)
    ensures Backed(t, S.Effect(rows, w))
  {
    MirroredBacked(t, t, rows, w);
  }

  lemma NextBacked(j: Stored, round: Round)
    requires Backed(j.t, j.rows) && Possible(j, round)
    ensures Backed(Next(j, round).t, Next(j, round).rows)
  {
    match round
    case Checkpoint(e, m, sizes, _) => StepBacked(j.t, e, m, j.rows, sizes);
    case Aside(w, _) => AsideBacked(j.t, j.rows, w);
  }

  lemma NextWithin(j: Stored, round: Round, ceiling: S.Limits)
    requires Within(j.rows, ceiling) && Possible(j, round)
    requires round.limits.bytes <= ceiling.bytes && round.limits.count <= ceiling.count
    ensures Within(Next(j, round).rows, ceiling)
  {
    match round
    case Checkpoint(e, m, sizes, limits) => WritesWithin(j.rows, limits, Writes(e, m, sizes), ceiling);
    case Aside(w, limits) => WriteWithin(j.rows, limits, w, ceiling);
  }

  lemma NextReachable(j: Stored, round: Round)
    requires Reachable(j.t)
    ensures Reachable(Next(j, round).t)
  {
    if round.Checkpoint? {
      ReachableStep(j.t, round.e);
    }
  }

  /** Over any run of checkpoints on a quota whose limits may change below a ceiling, the ledger is one that its
      checkpoints reach, it holds exactly one row per record, and the rows stay within the ceiling but for the
      set-up checks that a policy's own total leaves out. */
  lemma {:induction false} LedgerWithinQuota(rounds: seq<Round>, ceiling: S.Limits)
    requires PossibleRun(rounds)
    requires forall round | round in rounds :: round.limits.bytes <= ceiling.bytes && round.limits.count <= ceiling.count
    ensures Reachable(Reached(rounds).t) && Backed(Reached(rounds).t, Reached(rounds).rows) && Within(Reached(rounds).rows, ceiling)
  {
    if rounds == [] {
      assert EMPTY == Run(EMPTY, []);
      assert forall table | OfLedger(table) :: Ids([], table) == Held(EMPTY, table);
    } else {
      var front, last := rounds[..|rounds| - 1], rounds[|rounds| - 1];
      LedgerWithinQuota(front, ceiling);
      NextReachable(Reached(front), last);
      NextBacked(Reached(front), last);
      NextWithin(Reached(front), last, ceiling);
    }
  }

  // ------------------------------------------------------------------ every checkpoint has its round

  lemma RoomFor(rows: seq<S.Row>, row: S.Row, limits: S.Limits)
    requires S.Keyed(rows) && |rows| < limits.count && S.Bytes(rows) + row.cost <= limits.bytes
    ensures S.Room(rows, row, limits.count, limits.bytes)
    ensures S.Bytes(S.Put(rows, row)) <= S.Bytes(rows) + row.cost
  {
    S.PutSum(rows, row);
    S.SplitOther(rows, row.table, row.id);
  }

  /** The largest number of bytes that one round may add. */
  function Demand(sizes: Sizes): nat { S.SCHEDULE_COST + sizes.job + sizes.record }

  /** Records of a permitted size, two free places, and bytes for them. */
  predicate Ample(rows: seq<S.Row>, limits: S.Limits, sizes: Sizes) {
    && sizes.job <= S.MAX_RECORD && sizes.record <= S.MAX_RECORD
    && |rows| + 1 < limits.count && S.Bytes(rows) + Demand(sizes) <= limits.bytes
  }

  lemma OneAdmitted(rows: seq<S.Row>, limits: S.Limits, w: S.Write)
    requires S.Admits(rows, limits, w)
    ensures AllAdmitted(rows, limits, [w])
  {
    assert [w][..0] == [];
  }

  lemma RecordFits(rows: seq<S.Row>, limits: S.Limits, sizes: Sizes, w: S.Write)
    requires S.Keyed(rows) && Ample(rows, limits, sizes)
    requires match w
             case JobWrite(_, cost) => cost == sizes.job
             case DefinitionWrite(_, cost) => cost == sizes.record
             case PolicyWrite(_, cost) => cost == sizes.record
             case ScheduleWrite(_) => true
             case JobRemoval(_) => true
             case _ => false
    ensures AllAdmitted(rows, limits, [w])
  {
    match w {
      case JobWrite(id, cost) => RoomFor(rows, S.Row(S.Jobs, id, cost), limits);
      case DefinitionWrite(id, cost) => RoomFor(rows, S.Row(S.Definitions, id, cost), limits);
      case PolicyWrite(id, cost) => RoomFor(rows, S.Row(S.Policies, id, cost), limits);
      case ScheduleWrite(id) => RoomFor(rows, S.Row(S.Schedules, id, S.SCHEDULE_COST), limits);
      case JobRemoval(_) =>
    }
    OneAdmitted(rows, limits, w);
  }

  lemma TwoAdmitted(rows: seq<S.Row>, limits: S.Limits, v: S.Write, w: S.Write)
    requires S.Admits(rows, limits, v) && S.Admits(S.Effect(rows, v), limits, w)
    ensures AllAdmitted(rows, limits, [v, w])
  {
    OneAdmitted(rows, limits, v);
    OneWrite(rows, v);
    assert [v, w][..1] == [v];
  }

  lemma ClaimFits(rows: seq<S.Row>, limits: S.Limits, sizes: Sizes, id: Id, x: Id)
    requires S.Keyed(rows) && Ample(rows, limits, sizes)
    ensures AllAdmitted(rows, limits, [S.ScheduleWrite(id), S.TriggerWrite(x, sizes.record)])
  {
    var row := S.Row(S.Schedules, id, S.SCHEDULE_COST);
    RoomFor(rows, row, limits);
    S.PutKeyed(rows, row);
    RoomFor(S.Put(rows, row), S.Row(S.Triggers, x, sizes.record), limits);
    TwoAdmitted(rows, limits, S.ScheduleWrite(id), S.TriggerWrite(x, sizes.record));
  }

  lemma Present(t: Tables, rows: seq<S.Row>, table: S.Table, id: Id)
    requires Backed(t, rows) && OfLedger(table)
    ensures S.Previous(rows, table, id).Some? <==> id in Held(t, table)
  {
    assert id in Ids(rows, table) <==> S.Previous(rows, table, id).Some?;
  }

  lemma RunRowsFit(rows: seq<S.Row>, limits: S.Limits, sizes: Sizes, job: Id, id: Id)
    requires S.Keyed(rows) && Ample(rows, limits, sizes) && S.Previous(rows, S.Jobs, job).Some? && S.Previous(rows, S.Occurrences, id).None?
    ensures AllAdmitted(rows, limits, [S.ReservationWrite(job, sizes.job, id, sizes.record)])
  {
    var row := S.Row(S.Jobs, job, sizes.job);
    RoomFor(rows, row, limits);
    S.PutKeyed(rows, row);
    RoomFor(S.Put(rows, row), S.Row(S.Occurrences, id, sizes.record), limits);
    OneAdmitted(rows, limits, S.ReservationWrite(job, sizes.job, id, sizes.record));
  }

  lemma RunFits(t: Tables, rows: seq<S.Row>, limits: S.Limits, sizes: Sizes, r: Reservation)
    requires Backed(t, rows) && Ample(rows, limits, sizes)
    requires r.command.job in t.jobs && OccurrenceById(t.occurrences, r.Id()).None?
    ensures AllAdmitted(rows, limits, [S.ReservationWrite(r.command.job, sizes.job, r.Id(), sizes.record)])
  {
    Present(t, rows, S.Jobs, r.command.job);
    Present(t, rows, S.Occurrences, r.Id());
    RunRowsFit(rows, limits, sizes, r.command.job, r.Id());
  }

  lemma ArchiveRowsFit(rows: seq<S.Row>, limits: S.Limits, sizes: Sizes, job: Id, id: Id)
    requires S.Keyed(rows) && Ample(rows, limits, sizes) && S.Previous(rows, S.Jobs, job).Some? && S.Previous(rows, S.Archives, id).None?
    ensures AllAdmitted(rows, limits, [S.ArchiveWrite(job, id, sizes.record)])
  {
    var row := S.Row(S.Archives, id, sizes.record);
    RoomFor(rows, row, limits);
    S.PutKeyed(rows, row);
    StorageLaws.DropExact(S.Put(rows, row), S.Jobs, job);
    OneAdmitted(rows, limits, S.ArchiveWrite(job, id, sizes.record));
  }

  lemma ArchiveFits(t: Tables, rows: seq<S.Row>, limits: S.Limits, sizes: Sizes, a: Archive)
    requires Backed(t, rows) && Ample(rows, limits, sizes)
    requires a.command.job in t.jobs && ArchiveById(t.archives, a.Id()).None?
    ensures AllAdmitted(rows, limits, [S.ArchiveWrite(a.command.job, a.Id(), sizes.record)])
  {
    Present(t, rows, S.Jobs, a.command.job);
    Present(t, rows, S.Archives, a.Id());
    ArchiveRowsFit(rows, limits, sizes, a.command.job, a.Id());
  }

  lemma MoveFits(t: Tables, e: Event, m: Move, t': Tables, rows: seq<S.Row>, limits: S.Limits, sizes: Sizes)
    requires Backed(t, rows) && Ample(rows, limits, sizes) && Moves(t, m, t')
    requires m.RewriteMove? ==> forall id | id in sizes.rewritten :: id in t.schedules
    ensures AllAdmitted(rows, limits, Writes(e, m, sizes))
  {
    match m
    case Idle =>
    case EditMove(id) => RecordFits(rows, limits, sizes, S.ScheduleWrite(id));
    case ClaimMove(id, x) => ClaimFits(rows, limits, sizes, id, x.id);
    case ArmMove(s) => RecordFits(rows, limits, sizes, S.ScheduleWrite(s.Id()));
    case RewriteMove => LifecycleIsFree(t, rows, sizes.rewritten, limits);
    case JobMove(plan) => RecordFits(rows, limits, sizes, S.JobWrite(plan.id, sizes.job));
    case DropMove(id) => RecordFits(rows, limits, sizes, S.JobRemoval(id));
    case ReserveMove(r) => RunFits(t, rows, limits, sizes, r);
    case ArchiveMove(a) => ArchiveFits(t, rows, limits, sizes, a);
    case AuthorityMove =>
      if Writes(e, m, sizes) != [] {
        RecordFits(rows, limits, sizes, Writes(e, m, sizes)[0]);
      }
  }

  /** Every checkpoint of a reachable, backed ledger, whatever kind of change it makes, is such a round as soon
      as its records are of a permitted size and the quota leaves two places and the bytes for them. */
  lemma CheckpointIsPossible(j: Stored, e: Event, sizes: Sizes, limits: S.Limits) returns (m: Move)
    requires Reachable(j.t) && Backed(j.t, j.rows) && Ample(j.rows, limits, sizes)
    requires forall id | id in sizes.rewritten :: id in j.t.schedules
    ensures Possible(j, Checkpoint(e, m, sizes, limits))
  {
    ReachableInv(j.t);
    m := Classify(j.t, e);
    MoveFits(j.t, e, m, Apply(j.t, e), j.rows, limits, sizes);
  }
}
