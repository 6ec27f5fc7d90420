/** Each writer's quota check as it is computed, against what it amounts to. */
module StorageWriters {
  import opened Prelude
  import opened Storage

  /** What the ledger's own tables use beside jobs and definitions. */
  const RUN_TABLES: set<Table> := {Occurrences, Archives, Schedules, Triggers}

  lemma Fits(rows: seq<Row>, row: Row, used: nat, ceiling: nat)
    requires Keyed(rows) && row.cost > 0 && used == Other(rows, row.table, row.id)
    ensures row.cost <= SaturatingSub(ceiling, used) <==> Bytes(Put(rows, row)) <= ceiling
  {
    PutSum(rows, row);
  }

  lemma DefinitionUsed(rows: seq<Row>, id: nat)
    ensures Other(rows, Definitions, id)
            == BytesIn(rows, {Jobs}) + OtherIn(rows, Definitions, id) + BytesIn(rows, {Policies})
               + BytesIn(rows, RUN_TABLES) + BytesIn(rows, {Intents}) + BytesIn(rows, {Checks})
  {
    OtherSplit(rows, Definitions, id);
    AddTables(rows, {Intents}, {Checks});
    AddTables(rows, RUN_TABLES, {Intents} + {Checks});
    AddTables(rows, {Policies}, RUN_TABLES + ({Intents} + {Checks}));
    AddTables(rows, {Jobs}, {Policies} + (RUN_TABLES + ({Intents} + {Checks})));
    assert ALL - {Definitions} == {Jobs} + ({Policies} + (RUN_TABLES + ({Intents} + {Checks})));
  }

  lemma PolicyUsed(rows: seq<Row>, id: nat)
    ensures Other(rows, Policies, id)
            == BytesIn(rows, {Jobs}) + BytesIn(rows, {Definitions}) + OtherIn(rows, Policies, id)
               + BytesIn(rows, RUN_TABLES) + BytesIn(rows, {Intents}) + BytesIn(rows, {Checks})
  {
    OtherSplit(rows, Policies, id);
    AddTables(rows, {Intents}, {Checks});
    AddTables(rows, RUN_TABLES, {Intents} + {Checks});
    AddTables(rows, {Definitions}, RUN_TABLES + ({Intents} + {Checks}));
    AddTables(rows, {Jobs}, {Definitions} + (RUN_TABLES + ({Intents} + {Checks})));
    assert ALL - {Policies} == {Jobs} + ({Definitions} + (RUN_TABLES + ({Intents} + {Checks})));
  }

  lemma EverythingUsed(rows: seq<Row>, table: Table, id: nat)
    requires Keyed(rows)
    ensures BytesIn(rows, {Jobs}) + BytesIn(rows, ALL - {Jobs}) - CostOf(rows, table, id) == Other(rows, table, id)
  {
    WholeTotal(rows);
    SplitOther(rows, table, id);
  }

  lemma {:induction false} WholeTotal(rows: seq<Row>)
    ensures BytesIn(rows, {Jobs}) + BytesIn(rows, ALL - {Jobs}) == Bytes(rows)
  {
    if rows != [] {
      WholeTotal(rows[..|rows| - 1]);
      InAll(rows[|rows| - 1].table);
    }
  }

  lemma InAll(table: Table)
    ensures table in ALL
  {
    match table
    case Jobs => case Definitions => case Policies => case Occurrences => case Archives =>
    case Schedules => case Triggers => case Intents => case Checks =>
  }

  class Store {
    var rows: seq<Row>
    var limits: Limits

    constructor (limits: Limits)
      ensures rows == [] && this.limits == limits
    {
      rows, this.limits := [], limits;
    }

    /** The bytes of everything but jobs. */
    function DefinitionBytes(): nat
      reads this
    {
      BytesIn(rows, ALL - {Jobs})
    }

    method CheckSize(id: nat, cost: Size) returns (ok: bool)
      requires Keyed(rows)
      ensures ok <==> (Grows(rows, Row(Jobs, id, cost)) ==>
                         cost <= MAX_RECORD && Bytes(Put(rows, Row(Jobs, id, cost))) <= limits.bytes)
    {
      var previous := Previous(rows, Jobs, id);
      if previous.Some? && cost <= previous.value.cost {
        return true;
      }
      if cost > MAX_RECORD {
        return false;
      }
      var other := OtherIn(rows, Jobs, id) + DefinitionBytes();
      OtherSplit(rows, Jobs, id);
      Fits(rows, Row(Jobs, id, cost), other, limits.bytes);
      return cost <= SaturatingSub(limits.bytes, other);
    }

    method SaveJob(id: nat, cost: Size) returns (ok: bool)
      requires Keyed(rows)
      modifies this`rows
      ensures ok <==> Admits(old(rows), limits, JobWrite(id, cost))
      ensures rows == if ok then Effect(old(rows), JobWrite(id, cost)) else old(rows)
    {
      if Previous(rows, Jobs, id).None? && |rows| >= limits.count {
        return false;
      }
      ok := CheckSize(id, cost);
      if ok {
        rows := Put(rows, Row(Jobs, id, cost));
      }
    }

    method SaveDefinition(id: nat, cost: Size) returns (ok: bool)
      requires Keyed(rows)
      modifies this`rows
      ensures ok <==> Admits(old(rows), limits, DefinitionWrite(id, cost))
      ensures rows == if ok then Effect(old(rows), DefinitionWrite(id, cost)) else old(rows)
    {
      var previous := Previous(rows, Definitions, id);
      if previous.None? && |rows| >= limits.count {
        return false;
      }
      if !(previous.Some? && cost <= previous.value.cost) {
        var intents := BytesIn(rows, {Intents}) + BytesIn(rows, {Checks});
        var authority := BytesIn(rows, {Policies}) + BytesIn(rows, RUN_TABLES) + intents;
        var used := BytesIn(rows, {Jobs}) + OtherIn(rows, Definitions, id) + authority;
        DefinitionUsed(rows, id);
        Fits(rows, Row(Definitions, id, cost), used, limits.bytes);
        if cost > MAX_RECORD || cost > SaturatingSub(limits.bytes, used) {
          return false;
        }
      }
      rows := Put(rows, Row(Definitions, id, cost));
      return true;
    }

    /** The total computed here leaves out the set-up checks. */
    method SavePolicy(id: nat, cost: Size) returns (ok: bool)
      requires Keyed(rows)
      modifies this`rows
      ensures ok <==> Admits(old(rows), limits, PolicyWrite(id, cost))
      ensures rows == if ok then Effect(old(rows), PolicyWrite(id, cost)) else old(rows)
    {
      var previous := Previous(rows, Policies, id);
      if previous.None? && |rows| >= limits.count {
        return false;
      }
      if !(previous.Some? && cost <= previous.value.cost) {
        var used := BytesIn(rows, {Jobs}) + BytesIn(rows, {Definitions}) + OtherIn(rows, Policies, id);
        used := used + BytesIn(rows, RUN_TABLES) + BytesIn(rows, {Intents});
        PolicyUsed(rows, id);
        Fits(rows, Row(Policies, id, cost), used + BytesIn(rows, {Checks}), limits.bytes + BytesIn(rows, {Checks}));
        if cost > MAX_RECORD || cost > SaturatingSub(limits.bytes, used) {
          return false;
        }
      }
      rows := Put(rows, Row(Policies, id, cost));
      return true;
    }

    /** The check shared by schedules and triggers. */
    method Quota(table: Table, id: nat, cost: Size) returns (ok: bool)
      requires Keyed(rows)
      ensures ok <==> Room(rows, Row(table, id, cost), limits.count, limits.bytes)
    {
      var previous := Previous(rows, table, id);
      if previous.None? && |rows| >= limits.count {
        return false;
      }
      if previous.Some? && previous.value.cost >= cost {
        return true;
      }
      EverythingUsed(rows, table, id);
      var used := BytesIn(rows, {Jobs}) + DefinitionBytes() - CostOf(rows, table, id);
      Fits(rows, Row(table, id, cost), used, limits.bytes);
      return cost <= SaturatingSub(limits.bytes, used);
    }

    method SaveSchedule(id: nat) returns (ok: bool)
      requires Keyed(rows)
      modifies this`rows
      ensures ok <==> Admits(old(rows), limits, ScheduleWrite(id))
      ensures rows == if ok then Effect(old(rows), ScheduleWrite(id)) else old(rows)
    {
      ok := Quota(Schedules, id, SCHEDULE_COST);
      if ok {
        rows := Put(rows, Row(Schedules, id, SCHEDULE_COST));
      }
    }

    method SaveTrigger(id: nat, cost: Size) returns (ok: bool)
      requires Keyed(rows)
      modifies this`rows
      ensures ok <==> Admits(old(rows), limits, TriggerWrite(id, cost))
      ensures rows == if ok then Effect(old(rows), TriggerWrite(id, cost)) else old(rows)
    {
      ok := Quota(Triggers, id, cost);
      if ok {
        rows := Put(rows, Row(Triggers, id, cost));
      }
    }

    /** The approved job first, then the reservation, against the total with the job already written. */
    method SaveReservation(job: nat, jobCost: Size, id: nat, cost: Size) returns (ok: bool)
      requires Keyed(rows) && Previous(rows, Jobs, job).Some? && Previous(rows, Occurrences, id).None?
      modifies this`rows
      ensures ok <==> Admits(old(rows), limits, ReservationWrite(job, jobCost, id, cost))
      ensures rows == if ok then Effect(old(rows), ReservationWrite(job, jobCost, id, cost)) else old(rows)
    {
      ok := CheckSize(job, jobCost);
      if !ok {
        return;
      }
      var before := rows;
      rows := Put(rows, Row(Jobs, job, jobCost));
      PutKeyed(before, Row(Jobs, job, jobCost));
      PutNew(before, Row(Jobs, job, jobCost), Occurrences, id);
      InsertFits(rows, Row(Occurrences, id, cost), limits.bytes);
      var used := BytesIn(rows, {Jobs}) + DefinitionBytes();
      if |rows| >= limits.count || cost > SaturatingSub(limits.bytes, used) {
        rows := before;
        return false;
      }
      rows := Put(rows, Row(Occurrences, id, cost));
    }

    /** No new allowance: the archive takes the place of the job it removes. */
    method SaveArchive(job: nat, id: nat, cost: Size) returns (ok: bool)
      requires Keyed(rows) && Previous(rows, Jobs, job).Some? && Previous(rows, Archives, id).None?
      modifies this`rows
      ensures ok <==> Admits(old(rows), limits, ArchiveWrite(job, id, cost))
      ensures rows == if ok then Effect(old(rows), ArchiveWrite(job, id, cost)) else old(rows)
    {
      var before := rows;
      var replaced := CostOf(rows, Jobs, job);
      rows := Drop(Put(rows, Row(Archives, id, cost)), Jobs, job);
      if cost > replaced {
        WholeTotal(rows);
        if BytesIn(rows, {Jobs}) + DefinitionBytes() > limits.bytes {
          rows := before;
          return false;
        }
      }
      return true;
    }

    /** One winner per operation: an existing intent is kept and nothing is written. */
    method SaveIntent(id: nat, cost: Size) returns (ok: bool)
      requires Keyed(rows)
      modifies this`rows
      ensures ok <==> Admits(old(rows), limits, IntentWrite(id, cost))
      ensures rows == if ok then Effect(old(rows), IntentWrite(id, cost)) else old(rows)
    {
      if Previous(rows, Intents, id).Some? || cost > 4096 {
        return false;
      }
      ok := Quota(Intents, id, cost);
      if ok {
        rows := Put(rows, Row(Intents, id, cost));
      }
    }
  }

  lemma InsertFits(rows: seq<Row>, row: Row, ceiling: nat)
    requires Keyed(rows) && row.cost > 0 && Previous(rows, row.table, row.id).None?
    ensures row.cost <= SaturatingSub(ceiling, BytesIn(rows, {Jobs}) + BytesIn(rows, ALL - {Jobs}))
            <==> Bytes(Put(rows, row)) <= ceiling
  {
    EverythingUsed(rows, row.table, row.id);
    Fits(rows, row, BytesIn(rows, {Jobs}) + BytesIn(rows, ALL - {Jobs}), ceiling);
  }

  lemma {:induction false} PutNew(rows: seq<Row>, row: Row, table: Table, id: nat)
    requires !SameKey(row, table, id) && Previous(rows, table, id).None?
    ensures Previous(Put(rows, row), table, id).None?
  {
    if rows != [] && !SameKey(rows[0], row.table, row.id) {
      PutNew(rows[1..], row, table, id);
    }
  }
}
