/**
 The journal's shared quota.  Nine tables share one record count and one byte total; every writer
 computes its own "used" total before it inserts or grows a record.
 */
module Storage {
  import opened Prelude

  datatype Table = Jobs | Definitions | Policies | Occurrences | Archives | Schedules | Triggers | Intents | Checks

  /** A stored record; `cost` is its encoded length plus the bytes it reserves for its own growth. */
  datatype Row = Row(table: Table, id: nat, cost: nat)

  const MAX_RECORD := 8 * 1024 * 1024
  const SCHEDULE_COST := 4096
  const CHECK_COST := 4096

  predicate SameKey(a: Row, table: Table, id: nat) {
    a.table == table && a.id == id
  }

  predicate Keyed(rows: seq<Row>) {
    && (forall i, j | 0 <= i < j < |rows| :: !SameKey(rows[i], rows[j].table, rows[j].id))
    && (forall r | r in rows :: (r.table == Schedules ==> r.cost == SCHEDULE_COST) && (r.table == Checks ==> r.cost == CHECK_COST))
  }

  // ------------------------------------------------------------------ totals

  function Cost(): Row -> nat { (r: Row) => r.cost }
  function CostIn(tables: set<Table>): Row -> nat { (r: Row) => if r.table in tables then r.cost else 0 }
  function CostExcept(table: Table, id: nat): Row -> nat { (r: Row) => if SameKey(r, table, id) then 0 else r.cost }

  /** The shared byte total over all nine tables. */
  function Bytes(rows: seq<Row>): nat { Sum(rows, Cost()) }

  function BytesIn(rows: seq<Row>, tables: set<Table>): nat { Sum(rows, CostIn(tables)) }

  const ALL: set<Table> := {Jobs, Definitions, Policies, Occurrences, Archives, Schedules, Triggers, Intents, Checks}

  function CostInExcept(table: Table, id: nat): Row -> nat {
    (r: Row) => if r.table == table && r.id != id then r.cost else 0
  }

  /** One table but for one record. */
  function OtherIn(rows: seq<Row>, table: Table, id: nat): nat { Sum(rows, CostInExcept(table, id)) }

  /** Everything but one record. */
  function Other(rows: seq<Row>, table: Table, id: nat): nat { Sum(rows, CostExcept(table, id)) }

  function Previous(rows: seq<Row>, table: Table, id: nat): (r: Option<Row>)
    ensures r.Some? ==> r.value in rows && SameKey(r.value, table, id)
    ensures r.None? ==> forall x | x in rows :: !SameKey(x, table, id)
  {
    Find(rows, (r: Row) => SameKey(r, table, id))
  }

  function CostOf(rows: seq<Row>, table: Table, id: nat): nat {
    if Previous(rows, table, id).Some? then Previous(rows, table, id).value.cost else 0
  }

  /** Replace the record in place, or insert it. */
  function Put(rows: seq<Row>, row: Row): (r: seq<Row>)
    ensures |r| == |rows| + if Previous(rows, row.table, row.id).Some? then 0 else 1
  {
    if rows == [] then [row]
    else if SameKey(rows[0], row.table, row.id) then [row] + rows[1..]
    else [rows[0]] + Put(rows[1..], row)
  }

  function Drop(rows: seq<Row>, table: Table, id: nat): (r: seq<Row>)
  {
    if rows == [] then []
    else if SameKey(rows[0], table, id) then rows[1..]
    else [rows[0]] + Drop(rows[1..], table, id)
  }

  lemma {:induction false} SumHead<T>(log: seq<T>, weight: T -> nat)
    requires log != []
    ensures Sum(log, weight) == weight(log[0]) + Sum(log[1..], weight)
  {
    if |log| > 1 {
      SumHead(log[..|log| - 1], weight);
      assert log[..|log| - 1][1..] == log[1..][..|log| - 2];
    }
  }

  lemma {:induction false} SplitOther(rows: seq<Row>, table: Table, id: nat)
    requires Keyed(rows)
    ensures Bytes(rows) == Other(rows, table, id) + CostOf(rows, table, id)
  {
    if rows != [] {
      SumHead(rows, Cost());
      SumHead(rows, CostExcept(table, id));
      if SameKey(rows[0], table, id) {
        SameSum(rows[1..], table, id);
      } else {
        SplitOther(rows[1..], table, id);
      }
    }
  }

  lemma {:induction false} SameSum(rows: seq<Row>, table: Table, id: nat)
    requires forall r | r in rows :: !SameKey(r, table, id)
    ensures Other(rows, table, id) == Bytes(rows)
  {
    if rows != [] {
      SameSum(rows[..|rows| - 1], table, id);
    }
  }

  lemma {:induction false} PutSum(rows: seq<Row>, row: Row)
    requires Keyed(rows)
    ensures Bytes(Put(rows, row)) == Other(rows, row.table, row.id) + row.cost
    ensures BytesIn(Put(rows, row), {Checks}) >= BytesIn(rows, {Checks}) || row.table == Checks
  {
    SumHead(Put(rows, row), Cost());
    SumHead(Put(rows, row), CostIn({Checks}));
    if rows != [] {
      SumHead(rows, CostExcept(row.table, row.id));
      SumHead(rows, CostIn({Checks}));
      if SameKey(rows[0], row.table, row.id) {
        SameSum(rows[1..], row.table, row.id);
      } else {
        PutSum(rows[1..], row);
      }
    }
  }

  lemma {:induction false} DropSum(rows: seq<Row>, table: Table, id: nat)
    requires Keyed(rows)
    ensures Bytes(Drop(rows, table, id)) == Other(rows, table, id)
  {
    if rows != [] {
      SumHead(rows, CostExcept(table, id));
      if SameKey(rows[0], table, id) {
        SameSum(rows[1..], table, id);
      } else {
        DropSum(rows[1..], table, id);
        SumHead(Drop(rows, table, id), Cost());
        assert Drop(rows, table, id)[1..] == Drop(rows[1..], table, id);
      }
    }
  }

  lemma {:induction false} DropCounts(rows: seq<Row>, table: Table, id: nat)
    ensures |Drop(rows, table, id)| == |rows| - if Previous(rows, table, id).Some? then 1 else 0
  {
    if rows != [] && !SameKey(rows[0], table, id) {
      DropCounts(rows[1..], table, id);
    }
  }

  lemma {:induction false} DropChecks(rows: seq<Row>, table: Table, id: nat)
    requires table != Checks
    ensures BytesIn(Drop(rows, table, id), {Checks}) == BytesIn(rows, {Checks})
  {
    if rows != [] {
      SumHead(rows, CostIn({Checks}));
      if !SameKey(rows[0], table, id) {
        DropChecks(rows[1..], table, id);
        SumHead(Drop(rows, table, id), CostIn({Checks}));
        assert Drop(rows, table, id)[1..] == Drop(rows[1..], table, id);
      }
    }
  }

  lemma {:induction false} AddTables(rows: seq<Row>, a: set<Table>, b: set<Table>)
    requires a !! b
    ensures BytesIn(rows, a + b) == BytesIn(rows, a) + BytesIn(rows, b)
  {
    if rows != [] {
      AddTables(rows[..|rows| - 1], a, b);
    }
  }

  /** A writer that adds the rest of its own table to the other tables counts each record once. */
  lemma {:induction false} OtherSplit(rows: seq<Row>, table: Table, id: nat)
    ensures Other(rows, table, id) == OtherIn(rows, table, id) + BytesIn(rows, ALL - {table})
  {
    if rows != [] {
      OtherSplit(rows[..|rows| - 1], table, id);
    }
  }

  lemma {:induction false} PutKeyed(rows: seq<Row>, row: Row)
    requires Keyed(rows)
    requires (row.table == Schedules ==> row.cost == SCHEDULE_COST) && (row.table == Checks ==> row.cost == CHECK_COST)
    ensures Keyed(Put(rows, row))
    ensures forall r | r in Put(rows, row) :: r == row || r in rows
  {
    if rows != [] && !SameKey(rows[0], row.table, row.id) {
      PutKeyed(rows[1..], row);
      var rest := Put(rows[1..], row);
      forall i, j | 0 <= i < j < |rest| + 1 ensures !SameKey(([rows[0]] + rest)[i], ([rows[0]] + rest)[j].table, ([rows[0]] + rest)[j].id) {
        assert rest[j - 1] == row || rest[j - 1] in rows[1..];
      }
    }
  }

  lemma {:induction false} DropKeyed(rows: seq<Row>, table: Table, id: nat)
    requires Keyed(rows)
    ensures Keyed(Drop(rows, table, id))
    ensures forall r | r in Drop(rows, table, id) :: r in rows
  {
    if rows != [] && !SameKey(rows[0], table, id) {
      DropKeyed(rows[1..], table, id);
      var rest := Drop(rows[1..], table, id);
      forall i, j | 0 <= i < j < |rest| + 1 ensures !SameKey(([rows[0]] + rest)[i], ([rows[0]] + rest)[j].table, ([rows[0]] + rest)[j].id) {
        assert rest[j - 1] in rows[1..];
      }
    }
  }

  // ------------------------------------------------------------------ writes

  type Size = n: nat | n > 0 witness 1

  datatype Write =
    | JobWrite(id: nat, cost: Size)
    | JobRemoval(id: nat)
    | DefinitionWrite(id: nat, cost: Size)
    | PolicyWrite(id: nat, cost: Size)
    | ScheduleWrite(id: nat)
    | TriggerWrite(id: nat, cost: Size)
    | ReservationWrite(job: nat, jobCost: Size, id: nat, cost: Size)
    | ArchiveWrite(job: nat, id: nat, cost: Size)
    | IntentWrite(id: nat, cost: Size)
    | CheckWrite(id: nat)

  datatype Limits = Limits(count: nat, bytes: nat)

  function Effect(rows: seq<Row>, w: Write): seq<Row> {
    match w
    case JobWrite(id, cost) => Put(rows, Row(Jobs, id, cost))
    case JobRemoval(id) => Drop(rows, Jobs, id)
    case DefinitionWrite(id, cost) => Put(rows, Row(Definitions, id, cost))
    case PolicyWrite(id, cost) => Put(rows, Row(Policies, id, cost))
    case ScheduleWrite(id) => Put(rows, Row(Schedules, id, SCHEDULE_COST))
    case TriggerWrite(id, cost) => Put(rows, Row(Triggers, id, cost))
    case ReservationWrite(job, jobCost, id, cost) => Put(Put(rows, Row(Jobs, job, jobCost)), Row(Occurrences, id, cost))
    case ArchiveWrite(job, id, cost) => Drop(Put(rows, Row(Archives, id, cost)), Jobs, job)
    case IntentWrite(id, cost) => Put(rows, Row(Intents, id, cost))
    case CheckWrite(id) => Put(rows, Row(Checks, id, CHECK_COST))
  }

  predicate Grows(rows: seq<Row>, row: Row) {
    !(Previous(rows, row.table, row.id).Some? && row.cost <= Previous(rows, row.table, row.id).value.cost)
  }

  /** A new record needs a free slot, and a larger one must leave the total within `ceiling`. */
  predicate Room(rows: seq<Row>, row: Row, count: nat, ceiling: nat) {
    && (Previous(rows, row.table, row.id).None? ==> |rows| < count)
    && (Grows(rows, row) ==> Bytes(Put(rows, row)) <= ceiling)
  }

  /** What each writer's quota check amounts to, in terms of the total that the write would leave. */
  predicate Admits(rows: seq<Row>, limits: Limits, w: Write) {
    match w
    case JobWrite(id, cost) =>
      var row := Row(Jobs, id, cost);
      Room(rows, row, limits.count, limits.bytes) && (Grows(rows, row) ==> cost <= MAX_RECORD)
    case JobRemoval(_) => true
    case DefinitionWrite(id, cost) =>
      var row := Row(Definitions, id, cost);
      Room(rows, row, limits.count, limits.bytes) && (Grows(rows, row) ==> cost <= MAX_RECORD)
    case PolicyWrite(id, cost) =>
      var row := Row(Policies, id, cost);
      && Room(rows, row, limits.count, limits.bytes + BytesIn(rows, {Checks}))
      && (Grows(rows, row) ==> cost <= MAX_RECORD)
    case ScheduleWrite(id) => Room(rows, Row(Schedules, id, SCHEDULE_COST), limits.count, limits.bytes)
    case TriggerWrite(id, cost) => Room(rows, Row(Triggers, id, cost), limits.count, limits.bytes)
    case ReservationWrite(job, jobCost, id, cost) =>
      var approved := Row(Jobs, job, jobCost);
      && Previous(rows, Jobs, job).Some? && Previous(rows, Occurrences, id).None?
      && Room(rows, approved, limits.count, limits.bytes) && (Grows(rows, approved) ==> jobCost <= MAX_RECORD)
      && |rows| < limits.count && Bytes(Effect(rows, w)) <= limits.bytes
    case ArchiveWrite(job, id, cost) =>
      && Previous(rows, Jobs, job).Some? && Previous(rows, Archives, id).None?
      && (cost > CostOf(rows, Jobs, job) ==> Bytes(Effect(rows, w)) <= limits.bytes)
    case IntentWrite(id, cost) =>
      && Previous(rows, Intents, id).None? && cost <= 4096
      && Room(rows, Row(Intents, id, cost), limits.count, limits.bytes)
    case CheckWrite(id) =>
      Previous(rows, Checks, id).None? && Room(rows, Row(Checks, id, CHECK_COST), limits.count, limits.bytes)
  }

  /** The part of an admitted write that its own check forgot: set-up checks, for a policy alone. */
  function Slack(rows: seq<Row>, w: Write): nat {
    if w.PolicyWrite? then BytesIn(rows, {Checks}) else 0
  }
}
