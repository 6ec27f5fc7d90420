/** Point readers against the indexed view, and the joint admission gate against its two halves. */
module HistoryGates {
  import opened Prelude
  import opened Records
  import opened Ledger
  import opened Ordinals
  import opened HistoryReader

  // ------------------------------------------------------------------ row by row

  /** A read either fails, or finds a validated record or nothing. */
  datatype Read<+T> = Damaged | Absent | Present(record: T)

  function ReadDefinition(t: Tables, id: Id): Read<Definition> {
    if ReadableDefinition(t, id) then Present(t.definitions[id]) else Damaged
  }

  function ReadPolicy(t: Tables, id: Id): Read<Policy> {
    if id !in t.policies then Absent
    else if PolicyOk(t.policies[id], id, t.definitions) then Present(t.policies[id]) else Damaged
  }

  function ReadSchedule(t: Tables, id: Id): Read<Schedule> {
    if id !in t.schedules then Absent
    else
      var s := t.schedules[id];
      match ReadPolicy(t, s.creation.policy)
      case Present(p) =>
        if ScheduleOk(s, id, t.policies, t.definitions) then Present(s) else Damaged
      case _ => Damaged
  }

  function ReadTrigger(t: Tables, id: Id): Read<Trigger> {
    match TriggerById(t.triggers, id)
    case None => Absent
    case Some(x) =>
      match ReadSchedule(t, x.schedule)
      case Present(s) => if TriggerOk(x, t.schedules, t.policies) then Present(x) else Damaged
      case _ => Damaged
  }

  function Indexed<T>(table: map<Id, T>, id: Id): Read<T> {
    if id in table then Present(table[id]) else Absent
  }

  lemma UniqueTrigger(triggers: seq<Trigger>, x: Trigger, y: Trigger)
    requires IdentitiesOk(triggers) && x in triggers && y in triggers && x.id == y.id
    ensures x == y
  {
    var i :| 0 <= i < |triggers| && triggers[i] == x;
    var j :| 0 <= j < |triggers| && triggers[j] == y;
  }

  predicate ViewOf(view: HistoryView, t: Tables) {
    && view == HistoryView(t.schedules, t.triggers, t.policies, view.definitions)
    && Indexes(view.definitions, t, t.policies.Keys)
  }

  /** When the indexed read succeeds, every point read finds exactly the indexed record. */
  lemma PointReadsAgree(t: Tables, view: HistoryView, id: Id)
    requires HistoryOk(t) && ViewOf(view, t)
    ensures ReadPolicy(t, id) == Indexed(view.policies, id)
    ensures ReadSchedule(t, id) == Indexed(view.schedules, id)
    ensures id in view.definitions ==> ReadDefinition(t, id) == Present(view.definitions[id])
  {
    assert forall p | p in t.policies :: PolicyOk(t.policies[p], p, t.definitions);
    assert forall s | s in t.schedules :: ScheduleOk(t.schedules[s], s, t.policies, t.definitions);
  }

  lemma TriggerReadsAgree(t: Tables, view: HistoryView, x: Trigger)
    requires HistoryOk(t) && ViewOf(view, t)
    ensures x in view.triggers ==> ReadTrigger(t, x.id) == Present(x)
    ensures (forall y | y in view.triggers :: y.id != x.id) ==> ReadTrigger(t, x.id) == Absent
  {
    if x in view.triggers {
      UniqueTrigger(t.triggers, x, TriggerById(t.triggers, x.id).value);
      assert TriggerOk(x, t.schedules, t.policies);
      PointReadsAgree(t, view, x.schedule);
    }
  }

  // ------------------------------------------------------------------ currency

  /** The newest generation of a definition, zero when it has no policy. */
  method LatestGeneration(policies: map<Id, Policy>, definition: Id) returns (latest: nat)
    ensures Latest(policies, definition, latest)
  {
    latest := 0;
    var rest := policies.Keys;
    while rest != {}
      invariant rest <= policies.Keys
      invariant forall id | id in policies.Keys - rest :: policies[id].creation.definition == definition ==> policies[id].generation <= latest
      invariant latest == 0 || HasGeneration(policies, definition, latest)
      decreases rest
    {
      var id :| id in rest;
      if policies[id].creation.definition == definition && policies[id].generation > latest {
        latest := policies[id].generation;
      }
      rest := rest - {id};
    }
  }

  lemma LatestUnique(policies: map<Id, Policy>, definition: Id, a: nat, b: nat)
    requires Latest(policies, definition, a) && Latest(policies, definition, b)
    ensures a == b
  {
    assert a == 0 || HasGeneration(policies, definition, a);
    assert b == 0 || HasGeneration(policies, definition, b);
  }

  /** Whether a generation is the newest of its definition, by the scan for the newest one. */
  method IsLatest(policies: map<Id, Policy>, definition: Id, g: nat) returns (ok: bool)
    ensures ok == Latest(policies, definition, g)
  {
    var latest := LatestGeneration(policies, definition);
    assert latest == g || !Latest(policies, definition, g) by {
      if Latest(policies, definition, g) {
        LatestUnique(policies, definition, latest, g);
      }
    }
    return latest == g;
  }

  /** Eligibility of a policy once the newest generation is known. */
  predicate EligibleAt(p: Policy, d: Definition, latest: nat, runtime: Id, issuer: int, now: nat) {
    && ValidPolicy(p) && ValidDefinition(d)
    && p.revocation.None? && d.removal.None?
    && d.id == p.creation.definition && d.sha == p.creation.definitionSha
    && p.runtime == runtime && p.issuer == issuer
    && p.generation == latest
    && p.approvedAt <= now < p.expiresAt
  }

  lemma EligibleIsCurrent(p: Policy, d: Definition, policies: map<Id, Policy>, latest: nat, runtime: Id, issuer: int, now: nat)
    requires p.id in policies && policies[p.id] == p && Latest(policies, p.creation.definition, latest)
    ensures EligibleAt(p, d, latest, runtime, issuer, now) <==> CurrentAt(p, d, policies, runtime, issuer, now)
  {
    assert latest == 0 || HasGeneration(policies, p.creation.definition, latest);
  }

  /** Currency answered from the view alone is currency in the ledger. */
  method CurrentInView(t: Tables, view: HistoryView, id: Id, runtime: Id, issuer: int, now: nat) returns (current: bool)
    requires HistoryOk(t) && ViewOf(view, t) && id in view.schedules
    ensures current == Current(t.schedules[id], t.policies, t.definitions, runtime, issuer, now)
  {
    var s := view.schedules[id];
    assert ScheduleOk(s, id, t.policies, t.definitions);
    assert PolicyOk(t.policies[s.creation.policy], s.creation.policy, t.definitions);
    var p := view.policies[s.creation.policy];
    var d := view.definitions[s.definition];
    var latest := LatestGeneration(view.policies, s.definition);
    EligibleIsCurrent(p, d, t.policies, latest, runtime, issuer, now);
    current := s.runtime == runtime && s.issuer == issuer && EligibleAt(p, d, latest, runtime, issuer, now);
  }

  // ------------------------------------------------------------------ checked occurrences

  function RunOrdinals(occurrences: seq<Reservation>, policy: Id): seq<nat> {
    if occurrences == [] then []
    else
      var rest := RunOrdinals(occurrences[..|occurrences| - 1], policy);
      var last := occurrences[|occurrences| - 1];
      if last.delegation.policy == policy then rest + [last.ordinal] else rest
  }

  predicate RunsApart(occurrences: seq<Reservation>, policy: Id) {
    forall i, j | 0 <= i < j < |occurrences| ::
      occurrences[i].delegation.policy == policy && occurrences[j].delegation.policy == policy ==>
        occurrences[i].ordinal != occurrences[j].ordinal
  }

  lemma {:induction false} RunMembers(occurrences: seq<Reservation>, policy: Id)
    ensures |RunOrdinals(occurrences, policy)| == Runs(occurrences, policy)
    ensures forall n :: n in RunOrdinals(occurrences, policy) <==>
              exists k | 0 <= k < |occurrences| :: occurrences[k].delegation.policy == policy && occurrences[k].ordinal == n
  {
    if occurrences != [] {
      RunMembers(occurrences[..|occurrences| - 1], policy);
    }
  }

  lemma {:induction false} RunsDistinct(occurrences: seq<Reservation>, policy: Id)
    ensures Distinct(RunOrdinals(occurrences, policy)) <==> RunsApart(occurrences, policy)
  {
    if occurrences != [] {
      var front, last := occurrences[..|occurrences| - 1], occurrences[|occurrences| - 1];
      RunsDistinct(front, policy);
      RunMembers(front, policy);
      DistinctAppend(RunOrdinals(front, policy), last.ordinal);
    }
  }

  lemma RunsNumbered(occurrences: seq<Reservation>, policy: Id)
    ensures Numbered(RunOrdinals(occurrences, policy)) <==>
            && RunsApart(occurrences, policy)
            && forall r | r in occurrences && r.delegation.policy == policy :: 1 <= r.ordinal <= Runs(occurrences, policy)
  {
    RunMembers(occurrences, policy);
    RunsDistinct(occurrences, policy);
    NumberedIsBounded(RunOrdinals(occurrences, policy));
    forall r | r in occurrences && r.delegation.policy == policy ensures r.ordinal in RunOrdinals(occurrences, policy) {
      var k :| 0 <= k < |occurrences| && occurrences[k] == r;
    }
  }

  /** One pass collects a policy's ordinals and both totals. */
  method ReadGroup(occurrences: seq<Reservation>, p: Policy) returns (ok: bool)
    ensures ok == (RunsApart(occurrences, p.id) && GroupOk(occurrences, p))
  {
    var ordinals: seq<nat>, ms, bytes := [], 0, 0;
    for i := 0 to |occurrences|
      invariant ordinals == RunOrdinals(occurrences[..i], p.id)
      invariant ms == UsedMs(occurrences[..i], p.id) && bytes == UsedBytes(occurrences[..i], p.id)
    {
      assert occurrences[..i + 1] == occurrences[..i] + [occurrences[i]];
      SumAppend(occurrences[..i], occurrences[i], MsOf(p.id));
      SumAppend(occurrences[..i], occurrences[i], BytesOf(p.id));
      if occurrences[i].delegation.policy == p.id {
        ordinals := ordinals + [occurrences[i].ordinal];
        ms, bytes := ms + occurrences[i].executionMs, bytes + occurrences[i].resultBytes;
      }
    }
    assert occurrences[..|occurrences|] == occurrences;
    RunsNumbered(occurrences, p.id);
    RunMembers(occurrences, p.id);
    return Numbered(ordinals) && |ordinals| <= p.creation.maxRuns
           && ms <= p.creation.maxExecutionMs && bytes <= p.creation.maxResultBytes;
  }

  method ReadBudgets(t: Tables) returns (ok: bool)
    requires forall id | id in t.policies :: t.policies[id].id == id
    requires forall r | r in t.occurrences :: r.delegation.policy in t.policies
    ensures ok == BudgetsOk(t.occurrences, t.policies)
  {
    var rest := t.policies.Keys;
    while rest != {}
      invariant rest <= t.policies.Keys
      invariant forall id | id in t.policies.Keys - rest :: RunsApart(t.occurrences, id) && GroupOk(t.occurrences, t.policies[id])
      decreases rest
    {
      var id :| id in rest;
      ok := ReadGroup(t.occurrences, t.policies[id]);
      if !ok {
        ApartRuns(t.occurrences, id);
        return;
      }
      rest := rest - {id};
    }
    forall i, j | 0 <= i < j < |t.occurrences| ensures !SameRun(t.occurrences[i], t.occurrences[j]) {
      assert t.occurrences[i].delegation.policy in t.policies;
    }
    return true;
  }

  lemma ApartRuns(occurrences: seq<Reservation>, policy: Id)
    ensures (forall i, j | 0 <= i < j < |occurrences| :: !SameRun(occurrences[i], occurrences[j])) ==> RunsApart(occurrences, policy)
  {
    if !RunsApart(occurrences, policy) {
      var i, j :| 0 <= i < j < |occurrences| && occurrences[i].delegation.policy == policy
                  && occurrences[j].delegation.policy == policy && occurrences[i].ordinal == occurrences[j].ordinal;
      assert SameRun(occurrences[i], occurrences[j]);
    }
  }

  /** Every reservation with its evidence, and the resolution bit of that evidence. */
  method ReadEvidence(t: Tables) returns (bits: Option<seq<bool>>)
    ensures bits.Some? <==> forall r | r in t.occurrences :: OccurrenceOk(r, t) && RetainedPlan(r, t.jobs, t.archives).Some?
    ensures bits.Some? ==> Bits(t, bits.value)
  {
    var resolved: seq<bool> := [];
    for i := 0 to |t.occurrences|
      invariant |resolved| == i
      invariant forall k | 0 <= k < i :: OccurrenceOk(t.occurrences[k], t) && RetainedPlan(t.occurrences[k], t.jobs, t.archives).Some?
      invariant forall k | 0 <= k < i :: resolved[k] == ReservationResolved(t.occurrences[k], t.jobs, t.archives)
    {
      var plan := RetainedPlan(t.occurrences[i], t.jobs, t.archives);
      if !OccurrenceOk(t.occurrences[i], t) || plan.None? {
        return None;
      }
      resolved := resolved + [Resolved(plan.value)];
    }
    return Some(resolved);
  }

  predicate Bits(t: Tables, bits: seq<bool>) {
    && |bits| == |t.occurrences|
    && forall i | 0 <= i < |t.occurrences| :: bits[i] == ReservationResolved(t.occurrences[i], t.jobs, t.archives)
  }

  lemma BudgetDomain(t: Tables)
    requires PoliciesOk(t.policies, t.definitions) && forall r | r in t.occurrences :: OccurrenceOk(r, t)
    ensures forall id | id in t.policies :: t.policies[id].id == id
    ensures forall r | r in t.occurrences :: r.delegation.policy in t.policies
  {
    assert forall id | id in t.policies :: PolicyOk(t.policies[id], id, t.definitions);
  }

  method CheckedRecords(t: Tables) returns (bits: Option<seq<bool>>)
    ensures bits.Some? <==> OccurrencesOk(t)
    ensures bits.Some? ==> Bits(t, bits.value)
  {
    var view := ValidatedHistory(t);
    if view.None? || !ArchivesOk(t) {
      return None;
    }
    bits := ReadEvidence(t);
    if bits.Some? {
      BudgetDomain(t);
      var ok := ReadBudgets(t);
      return if ok then bits else None;
    }
  }

  // ------------------------------------------------------------------ admission gates

  method AllResolved(t: Tables, definition: Id, bits: seq<bool>) returns (resolved: bool)
    requires Bits(t, bits)
    ensures resolved == DefinitionResolved(t, definition)
  {
    for i := 0 to |t.occurrences|
      invariant forall k | 0 <= k < i :: t.occurrences[k].delegation.definition == definition ==>
                  ReservationResolved(t.occurrences[k], t.jobs, t.archives)
    {
      if t.occurrences[i].delegation.definition == definition && !bits[i] {
        return false;
      }
    }
    return true;
  }

  method DefinitionGate(t: Tables, definition: Id) returns (open: Option<bool>)
    ensures open == if OccurrencesOk(t) then Some(DefinitionResolved(t, definition)) else None
  {
    var bits := CheckedRecords(t);
    if bits.None? {
      return None;
    }
    var resolved := AllResolved(t, definition, bits.value);
    return Some(resolved);
  }

  /** What a policy has already reserved, by one pass over the reservations. */
  method Totals(occurrences: seq<Reservation>, policy: Id) returns (runs: nat, ms: nat, bytes: nat)
    ensures runs == Runs(occurrences, policy)
    ensures ms == UsedMs(occurrences, policy)
    ensures bytes == UsedBytes(occurrences, policy)
  {
    runs, ms, bytes := 0, 0, 0;
    for i := 0 to |occurrences|
      invariant runs == Runs(occurrences[..i], policy)
      invariant ms == UsedMs(occurrences[..i], policy) && bytes == UsedBytes(occurrences[..i], policy)
    {
      assert occurrences[..i + 1] == occurrences[..i] + [occurrences[i]];
      CountAppend(occurrences[..i], occurrences[i], OfPolicy(policy));
      SumAppend(occurrences[..i], occurrences[i], MsOf(policy));
      SumAppend(occurrences[..i], occurrences[i], BytesOf(policy));
      if occurrences[i].delegation.policy == policy {
        runs, ms, bytes := runs + 1, ms + occurrences[i].executionMs, bytes + occurrences[i].resultBytes;
      }
    }
    assert occurrences[..|occurrences|] == occurrences;
  }

  method AllowanceFrom(occurrences: seq<Reservation>, p: Policy) returns (available: bool)
    ensures available == AllowanceAvailable(occurrences, p)
  {
    var runs, ms, bytes := Totals(occurrences, p.id);
    return runs < p.creation.maxRuns
           && AllowanceMs(p) <= SaturatingSub(p.creation.maxExecutionMs, ms)
           && AllowanceBytes(p) <= SaturatingSub(p.creation.maxResultBytes, bytes);
  }

  method AllowanceGate(t: Tables, p: Policy) returns (open: Option<bool>)
    ensures open == if OccurrencesOk(t) then Some(AllowanceAvailable(t.occurrences, p)) else None
  {
    var bits := CheckedRecords(t);
    if bits.None? {
      return None;
    }
    var available := AllowanceFrom(t.occurrences, p);
    return Some(available);
  }

  /** Both gates from one checked read: the same two answers as the separate gates, except that the
      budget is not asked for, and reads false, while the definition is unresolved. */
  method TriggerAdmission(t: Tables, definition: Id, p: Policy) returns (open: Option<(bool, bool)>)
    ensures open.Some? <==> OccurrencesOk(t)
    ensures open.Some? ==> open.value.0 == DefinitionResolved(t, definition)
    ensures open.Some? ==> open.value.1 == (DefinitionResolved(t, definition) && AllowanceAvailable(t.occurrences, p))
  {
    var bits := CheckedRecords(t);
    if bits.None? {
      return None;
    }
    var resolved := AllResolved(t, definition, bits.value);
    if !resolved {
      return Some((false, false));
    }
    var available := AllowanceFrom(t.occurrences, p);
    return Some((true, available));
  }
}
