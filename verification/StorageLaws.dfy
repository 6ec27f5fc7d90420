/** The shared quota over single writes and over whole runs with changing limits. */
module StorageLaws {
  import opened Prelude
  import opened Storage

  lemma EffectKeyed(rows: seq<Row>, w: Write)
    requires Keyed(rows)
    ensures Keyed(Effect(rows, w))
  {
    match w
    case JobWrite(id, cost) => PutKeyed(rows, Row(Jobs, id, cost));
    case JobRemoval(id) => DropKeyed(rows, Jobs, id);
    case DefinitionWrite(id, cost) => PutKeyed(rows, Row(Definitions, id, cost));
    case PolicyWrite(id, cost) => PutKeyed(rows, Row(Policies, id, cost));
    case ScheduleWrite(id) => PutKeyed(rows, Row(Schedules, id, SCHEDULE_COST));
    case TriggerWrite(id, cost) => PutKeyed(rows, Row(Triggers, id, cost));
    case ReservationWrite(job, jobCost, id, cost) =>
      PutKeyed(rows, Row(Jobs, job, jobCost));
      PutKeyed(Put(rows, Row(Jobs, job, jobCost)), Row(Occurrences, id, cost));
    case ArchiveWrite(job, id, cost) =>
      PutKeyed(rows, Row(Archives, id, cost));
      DropKeyed(Put(rows, Row(Archives, id, cost)), Jobs, job);
    case IntentWrite(id, cost) => PutKeyed(rows, Row(Intents, id, cost));
    case CheckWrite(id) => PutKeyed(rows, Row(Checks, id, CHECK_COST));
  }

  lemma PutBounded(rows: seq<Row>, row: Row, count: nat, ceiling: nat)
    requires Keyed(rows) && Room(rows, row, count, ceiling)
    ensures Bytes(Put(rows, row)) <= Bytes(rows) || Bytes(Put(rows, row)) <= ceiling
    ensures |Put(rows, row)| <= |rows| || |Put(rows, row)| <= count
  {
    PutSum(rows, row);
    SplitOther(rows, row.table, row.id);
  }

  lemma {:induction false} PreviousAfterPut(rows: seq<Row>, row: Row, table: Table, id: nat)
    requires !SameKey(row, table, id)
    ensures Previous(Put(rows, row), table, id) == Previous(rows, table, id)
  {
    if rows != [] && !SameKey(rows[0], row.table, row.id) {
      PreviousAfterPut(rows[1..], row, table, id);
    }
  }

  lemma ArchiveStaged(rows: seq<Row>, row: Row, job: nat)
    requires Keyed(rows) && row.table == Archives && Previous(rows, Archives, row.id).None?
    ensures Keyed(Put(rows, row)) && Bytes(Put(rows, row)) == Bytes(rows) + row.cost
    ensures Previous(Put(rows, row), Jobs, job) == Previous(rows, Jobs, job)
  {
    PutSum(rows, row);
    SplitOther(rows, Archives, row.id);
    PutKeyed(rows, row);
    PreviousAfterPut(rows, row, Jobs, job);
  }

  lemma DropExact(rows: seq<Row>, table: Table, id: nat)
    requires Keyed(rows)
    ensures Bytes(Drop(rows, table, id)) + CostOf(rows, table, id) == Bytes(rows)
    ensures |Drop(rows, table, id)| == |rows| - if Previous(rows, table, id).Some? then 1 else 0
  {
    DropSum(rows, table, id);
    DropCounts(rows, table, id);
    SplitOther(rows, table, id);
  }

  lemma DropStaged(staged: seq<Row>, rows: seq<Row>, job: nat, cost: nat)
    requires Keyed(staged) && Bytes(staged) == Bytes(rows) + cost && |staged| == |rows| + 1
    requires Previous(staged, Jobs, job) == Previous(rows, Jobs, job) && Previous(rows, Jobs, job).Some?
    ensures Bytes(Drop(staged, Jobs, job)) + CostOf(rows, Jobs, job) == Bytes(rows) + cost
    ensures |Drop(staged, Jobs, job)| == |rows|
  {
    DropExact(staged, Jobs, job);
  }

  lemma ArchiveExchange(rows: seq<Row>, row: Row, staged: seq<Row>, job: nat)
    requires Keyed(rows) && row.table == Archives && Previous(rows, Archives, row.id).None? && Previous(rows, Jobs, job).Some?
    requires staged == Put(rows, row)
    ensures Bytes(Drop(staged, Jobs, job)) + CostOf(rows, Jobs, job) == Bytes(rows) + row.cost
    ensures |Drop(staged, Jobs, job)| == |rows|
  {
    ArchiveStaged(rows, row, job);
    DropStaged(staged, rows, job, row.cost);
  }

  lemma ArchiveEffect(rows: seq<Row>, job: nat, id: nat, cost: Size)
    requires Keyed(rows) && Previous(rows, Jobs, job).Some? && Previous(rows, Archives, id).None?
    ensures Bytes(Effect(rows, ArchiveWrite(job, id, cost))) + CostOf(rows, Jobs, job) == Bytes(rows) + cost
    ensures |Effect(rows, ArchiveWrite(job, id, cost))| == |rows|
  {
    ArchiveExchange(rows, Row(Archives, id, cost), Put(rows, Row(Archives, id, cost)), job);
  }

  /** Every committed write leaves the total no higher, or within the limit; a policy write only up to
      the set-up checks that its own total omits.  No write creates a record beyond the count limit. */
  lemma WriteBounded(rows: seq<Row>, limits: Limits, w: Write)
    requires Keyed(rows) && Admits(rows, limits, w)
    ensures Bytes(Effect(rows, w)) <= Bytes(rows) || Bytes(Effect(rows, w)) <= limits.bytes + Slack(rows, w)
    ensures |Effect(rows, w)| <= |rows| || |Effect(rows, w)| <= limits.count
  {
    match w
    case JobWrite(id, cost) => PutBounded(rows, Row(Jobs, id, cost), limits.count, limits.bytes);
    case JobRemoval(id) => DropExact(rows, Jobs, id);
    case DefinitionWrite(id, cost) => PutBounded(rows, Row(Definitions, id, cost), limits.count, limits.bytes);
    case PolicyWrite(id, cost) => PutBounded(rows, Row(Policies, id, cost), limits.count, limits.bytes + Slack(rows, w));
    case ScheduleWrite(id) => PutBounded(rows, Row(Schedules, id, SCHEDULE_COST), limits.count, limits.bytes);
    case TriggerWrite(id, cost) => PutBounded(rows, Row(Triggers, id, cost), limits.count, limits.bytes);
    case ReservationWrite(job, jobCost, id, cost) =>
    case ArchiveWrite(job, id, cost) => ArchiveEffect(rows, job, id, cost);
    case IntentWrite(id, cost) => PutBounded(rows, Row(Intents, id, cost), limits.count, limits.bytes);
    case CheckWrite(id) => PutBounded(rows, Row(Checks, id, CHECK_COST), limits.count, limits.bytes);
  }

  /** A lifecycle update of a retained schedule is never refused for space and changes no total,
      however far the limits were lowered. */
  lemma ScheduleUpdateFree(rows: seq<Row>, limits: Limits, id: nat)
    requires Keyed(rows) && Previous(rows, Schedules, id).Some?
    ensures Admits(rows, limits, ScheduleWrite(id))
    ensures Bytes(Effect(rows, ScheduleWrite(id))) == Bytes(rows)
    ensures |Effect(rows, ScheduleWrite(id))| == |rows|
  {
    PutSum(rows, Row(Schedules, id, SCHEDULE_COST));
    SplitOther(rows, Schedules, id);
  }

  /** Shrinking or equal rewrites, and archives no larger than the job they replace, also always fit. */
  lemma ShrinkingFits(rows: seq<Row>, limits: Limits, job: nat, id: nat, cost: Size)
    requires Keyed(rows) && Previous(rows, Jobs, job).Some? && cost <= CostOf(rows, Jobs, job)
    ensures Admits(rows, limits, JobWrite(job, cost))
    ensures Previous(rows, Archives, id).None? ==> Admits(rows, limits, ArchiveWrite(job, id, cost))
    ensures Bytes(Effect(rows, JobWrite(job, cost))) <= Bytes(rows)
  {
    PutSum(rows, Row(Jobs, job, cost));
    SplitOther(rows, Jobs, job);
  }

  // ------------------------------------------------------------------ the omitted term

  /** Exactly which policy writes are saved, raise the total and end above the limit: those of a size that
      any policy may have, with a slot if they are new, for which the bytes of the set-up checks are what
      carries the total over. */
  lemma PolicyOverrun(rows: seq<Row>, limits: Limits, id: nat, cost: Size)
    requires Keyed(rows)
    ensures var after := Bytes(Effect(rows, PolicyWrite(id, cost)));
            && Admits(rows, limits, PolicyWrite(id, cost)) && after > Bytes(rows) && after > limits.bytes
            <==>
            && CostOf(rows, Policies, id) < cost <= MAX_RECORD
            && (Previous(rows, Policies, id).None? ==> |rows| < limits.count)
            && limits.bytes < Bytes(rows) - CostOf(rows, Policies, id) + cost <= limits.bytes + BytesIn(rows, {Checks})
  {
    PutSum(rows, Row(Policies, id, cost));
    SplitOther(rows, Policies, id);
  }

  /** One retained set-up check and a limit of 5000 bytes: a 2000-byte policy is saved, 6096 bytes used. */
  lemma PolicyOverrunExample()
    ensures var rows := [Row(Checks, 1, CHECK_COST)];
            var limits := Limits(10, 5000);
            && Keyed(rows) && Bytes(rows) <= limits.bytes
            && Admits(rows, limits, PolicyWrite(2, 2000))
            && !Admits(rows, limits, DefinitionWrite(2, 2000))
            && Bytes(Effect(rows, PolicyWrite(2, 2000))) == 6096 > limits.bytes
  {
    var rows := [Row(Checks, 1, CHECK_COST)];
    SumHead(rows, Cost());
    SumHead(rows, CostIn({Checks}));
    PutSum(rows, Row(Policies, 2, 2000));
    PutSum(rows, Row(Definitions, 2, 2000));
    SplitOther(rows, Policies, 2);
    SplitOther(rows, Definitions, 2);
  }

  // ------------------------------------------------------------------ runs

  datatype Step = Step(write: Write, limits: Limits)

  /** A refused write leaves the records alone. */
  function After(rows: seq<Row>, step: Step): seq<Row> {
    if Admits(rows, step.limits, step.write) then Effect(rows, step.write) else rows
  }

  function RunWrites(steps: seq<Step>): seq<Row> {
    if steps == [] then [] else After(RunWrites(steps[..|steps| - 1]), steps[|steps| - 1])
  }

  lemma ChecksKept(rows: seq<Row>, w: Write)
    requires Keyed(rows) && (w.CheckWrite? ==> Previous(rows, Checks, w.id).None?)
    ensures BytesIn(Effect(rows, w), {Checks}) >= BytesIn(rows, {Checks})
  {
    match w
    case JobWrite(id, cost) => PutSum(rows, Row(Jobs, id, cost));
    case JobRemoval(id) => DropChecks(rows, Jobs, id);
    case DefinitionWrite(id, cost) => PutSum(rows, Row(Definitions, id, cost));
    case PolicyWrite(id, cost) => PutSum(rows, Row(Policies, id, cost));
    case ScheduleWrite(id) => PutSum(rows, Row(Schedules, id, SCHEDULE_COST));
    case TriggerWrite(id, cost) => PutSum(rows, Row(Triggers, id, cost));
    case ReservationWrite(job, jobCost, id, cost) =>
      PutKeyed(rows, Row(Jobs, job, jobCost));
      PutSum(rows, Row(Jobs, job, jobCost));
      PutSum(Put(rows, Row(Jobs, job, jobCost)), Row(Occurrences, id, cost));
    case ArchiveWrite(job, id, cost) =>
      PutKeyed(rows, Row(Archives, id, cost));
      PutSum(rows, Row(Archives, id, cost));
      DropChecks(Put(rows, Row(Archives, id, cost)), Jobs, job);
    case IntentWrite(id, cost) => PutSum(rows, Row(Intents, id, cost));
    case CheckWrite(id) => InsertChecks(rows, Row(Checks, id, CHECK_COST));
  }

  lemma {:induction false} InsertChecks(rows: seq<Row>, row: Row)
    requires Previous(rows, row.table, row.id).None?
    ensures BytesIn(Put(rows, row), {Checks}) >= BytesIn(rows, {Checks})
  {
    SumHead(Put(rows, row), CostIn({Checks}));
    if rows != [] {
      SumHead(rows, CostIn({Checks}));
      InsertChecks(rows[1..], row);
    }
  }

  /** Over any run of writes and refusals, with limits that may change between writes but stay under
      `ceiling`, the total never passes the ceiling by more than the set-up checks on record. */
  lemma {:induction false} RunBounded(steps: seq<Step>, ceiling: Limits)
    requires forall step | step in steps :: step.limits.bytes <= ceiling.bytes && step.limits.count <= ceiling.count
    ensures Keyed(RunWrites(steps))
    ensures Bytes(RunWrites(steps)) <= ceiling.bytes + BytesIn(RunWrites(steps), {Checks})
    ensures |RunWrites(steps)| <= ceiling.count
  {
    if steps != [] {
      var step := steps[|steps| - 1];
      var rows := RunWrites(steps[..|steps| - 1]);
      RunBounded(steps[..|steps| - 1], ceiling);
      if Admits(rows, step.limits, step.write) {
        EffectKeyed(rows, step.write);
        WriteBounded(rows, step.limits, step.write);
        ChecksKept(rows, step.write);
      }
    }
  }

  /** Without policy writes the limit itself holds throughout. */
  lemma {:induction false} RunWithinLimit(steps: seq<Step>, ceiling: Limits)
    requires forall step | step in steps :: step.limits.bytes <= ceiling.bytes && !step.write.PolicyWrite?
    ensures Keyed(RunWrites(steps)) && Bytes(RunWrites(steps)) <= ceiling.bytes
  {
    if steps != [] {
      var step := steps[|steps| - 1];
      var rows := RunWrites(steps[..|steps| - 1]);
      RunWithinLimit(steps[..|steps| - 1], ceiling);
      if Admits(rows, step.limits, step.write) {
        EffectKeyed(rows, step.write);
        WriteBounded(rows, step.limits, step.write);
      }
    }
  }
}
