/** The ledger invariant, stronger than the history check, and its preservation by each write. */
module LedgerInvariant {
  import opened Prelude
  import opened Records
  import opened Ledger

  // ------------------------------------------------------------------ the invariant

  predicate DefinitionsOk(definitions: map<Id, Definition>) {
    forall id | id in definitions :: definitions[id].id == id && ValidDefinition(definitions[id])
  }

  predicate JobsOk(t: Tables) {
    forall id | id in t.jobs :: JobOk(t.jobs[id], id, t)
  }

  predicate SameReceipt(a: Reservation, b: Reservation) {
    a.Id() == b.Id() || a.command.job == b.command.job
  }

  predicate ReceiptsDistinct(occurrences: seq<Reservation>) {
    forall i, j | 0 <= i < j < |occurrences| :: !SameReceipt(occurrences[i], occurrences[j])
  }

  /** The earliest moment at which the k-th claim of a schedule can happen. */
  function Pace(s: Schedule, k: nat): nat { s.armedAt + k * s.every }

  /** What the journal never states: fixed delay, and room left in the revision counter. */
  predicate Paced(s: Schedule, triggers: seq<Trigger>) {
    && s.armedAt + s.every < U64_LIMIT
    && (forall x | x in triggers :: x.schedule == s.Id() ==>
          Pace(s, x.ordinal) <= x.dueAt && (s.Active() ==> x.claimedAt <= s.observedAt))
    && (s.Active() ==> Pace(s, s.claimed) <= s.observedAt)
    && (s.state == Waiting ==>
          s.nextDue == Some(s.observedAt + s.every) && s.revision >= 2 * s.claimed + 1)
  }

  predicate AllPaced(schedules: map<Id, Schedule>, triggers: seq<Trigger>) {
    forall id | id in schedules :: Paced(schedules[id], triggers)
  }

  predicate Spaced(a: Trigger, b: Trigger, schedules: map<Id, Schedule>) {
    a.schedule == b.schedule && a.schedule in schedules ==>
      a.ordinal < b.ordinal && a.claimedAt + schedules[a.schedule].every <= b.dueAt
  }

  predicate AllSpaced(triggers: seq<Trigger>, schedules: map<Id, Schedule>) {
    forall i, j | 0 <= i < j < |triggers| :: Spaced(triggers[i], triggers[j], schedules)
  }

  /** Each claim and each reservation is numbered by how many its owner already had. */
  predicate NumberedClaims(triggers: seq<Trigger>) {
    forall i | 0 <= i < |triggers| :: triggers[i].ordinal == Claims(triggers[..i], triggers[i].schedule) + 1
  }

  predicate NumberedRuns(occurrences: seq<Reservation>) {
    forall i | 0 <= i < |occurrences| ::
      occurrences[i].ordinal == Runs(occurrences[..i], occurrences[i].delegation.policy) + 1
  }

  predicate Inv(t: Tables) {
    && DefinitionsOk(t.definitions)
    && HistoryOk(t) && RetainedOk(t) && JobsOk(t)
    && ReceiptsDistinct(t.occurrences)
    && AllPaced(t.schedules, t.triggers)
    && AllSpaced(t.triggers, t.schedules)
    && NumberedClaims(t.triggers) && NumberedRuns(t.occurrences)
  }

  lemma EmptyInv()
    ensures Inv(EMPTY)
  {
  }

  // ------------------------------------------------------------------ what every write keeps

  predicate Lineage(a: Schedule, b: Schedule) {
    && b.creation == a.creation && b.definition == a.definition && b.runtime == a.runtime
    && b.issuer == a.issuer && b.generation == a.generation && b.armedAt == a.armedAt
    && b.expiresAt == a.expiresAt && b.every == a.every && b.claimed >= a.claimed
  }

  predicate SchedulesKept(a: map<Id, Schedule>, b: map<Id, Schedule>) {
    forall id | id in a :: id in b && Lineage(a[id], b[id])
  }

  predicate PoliciesKept(a: map<Id, Policy>, b: map<Id, Policy>) {
    forall id | id in a :: id in b && b[id] == a[id].(revocation := b[id].revocation)
  }

  predicate DefinitionsKept(a: map<Id, Definition>, b: map<Id, Definition>) {
    forall id | id in a :: id in b && b[id] == a[id].(removal := b[id].removal)
  }

  lemma DelegationFrame(plan: Plan, triggers: seq<Trigger>, a: map<Id, Schedule>, b: map<Id, Schedule>)
    requires DelegationValid(plan, triggers, a) && SchedulesKept(a, b)
    ensures DelegationValid(plan, triggers, b)
  {
  }

  lemma OccurrenceFrame(r: Reservation, t: Tables, t': Tables)
    requires OccurrenceOk(r, t)
    requires PoliciesKept(t.policies, t'.policies) && DefinitionsKept(t.definitions, t'.definitions)
    requires DelegationValid(r.snapshot, t'.triggers, t'.schedules)
    ensures OccurrenceOk(r, t')
  {
  }

  /** Reservations, archives and live jobs survive any write that only adds or advances authority. */
  lemma AuthorityFrame(t: Tables, t': Tables)
    requires RetainedOk(t) && JobsOk(t) && BudgetsOk(t'.occurrences, t'.policies)
    requires t'.jobs == t.jobs && t'.occurrences == t.occurrences && t'.archives == t.archives
    requires forall id | id in t.jobs :: DelegationValid(t.jobs[id], t'.triggers, t'.schedules)
    requires forall r | r in t.occurrences :: DelegationValid(r.snapshot, t'.triggers, t'.schedules)
    requires PoliciesKept(t.policies, t'.policies) && DefinitionsKept(t.definitions, t'.definitions)
    ensures RetainedOk(t') && JobsOk(t')
  {
    forall r | r in t.occurrences ensures OccurrenceOk(r, t') {
      OccurrenceFrame(r, t, t');
    }
    forall a | a in t.archives ensures ArchiveOk(a, t') {
      assert ArchiveOk(a, t);
    }
    forall id | id in t.jobs ensures JobOk(t.jobs[id], id, t') {
      assert JobOk(t.jobs[id], id, t);
    }
  }

  lemma DelegationsFrame(t: Tables, schedules: map<Id, Schedule>)
    requires RetainedOk(t) && JobsOk(t) && SchedulesKept(t.schedules, schedules)
    ensures forall id | id in t.jobs :: DelegationValid(t.jobs[id], t.triggers, schedules)
    ensures forall r | r in t.occurrences :: DelegationValid(r.snapshot, t.triggers, schedules)
  {
    forall id | id in t.jobs ensures DelegationValid(t.jobs[id], t.triggers, schedules) {
      assert JobOk(t.jobs[id], id, t);
      DelegationFrame(t.jobs[id], t.triggers, t.schedules, schedules);
    }
    forall r | r in t.occurrences ensures DelegationValid(r.snapshot, t.triggers, schedules) {
      assert OccurrenceOk(r, t);
      DelegationFrame(r.snapshot, t.triggers, t.schedules, schedules);
    }
  }

  // ------------------------------------------------------------------ schedule writes

  lemma TriggerFrame(x: Trigger, schedules: map<Id, Schedule>, schedules': map<Id, Schedule>, policies: map<Id, Policy>)
    requires TriggerOk(x, schedules, policies) && SchedulesKept(schedules, schedules')
    ensures TriggerOk(x, schedules', policies)
  {
  }

  /** What a saved schedule must agree with to replace or join the others. */
  predicate Fits(s: Schedule, t: Tables) {
    && (s.Id() in t.schedules ==> Lineage(t.schedules[s.Id()], s))
    && ScheduleOk(s, s.Id(), t.policies, t.definitions)
    && (forall id | id in t.schedules && id != s.Id() :: !Rival(t.schedules[id], s))
    && ClaimsMatch(s, t.triggers)
    && RefusalMatches(s, t.triggers, t.occurrences, t.jobs)
    && Paced(s, t.triggers)
  }

  lemma PutSchedules(m: map<Id, Schedule>, s: Schedule, policies: map<Id, Policy>, definitions: map<Id, Definition>)
    requires SchedulesOk(m, policies, definitions) && ScheduleOk(s, s.Id(), policies, definitions)
    ensures SchedulesOk(m[s.Id() := s], policies, definitions)
  {
  }

  lemma PutTriggers(triggers: seq<Trigger>, m: map<Id, Schedule>, s: Schedule, policies: map<Id, Policy>)
    requires TriggersOk(triggers, m, policies)
    requires s.Id() in m ==> Lineage(m[s.Id()], s)
    ensures TriggersOk(triggers, m[s.Id() := s], policies)
  {
    forall x | x in triggers ensures TriggerOk(x, m[s.Id() := s], policies) {
      TriggerFrame(x, m, m[s.Id() := s], policies);
    }
  }

  lemma PutOneActive(m: map<Id, Schedule>, s: Schedule)
    requires OneActive(m) && forall id | id in m && id != s.Id() :: !Rival(m[id], s)
    ensures OneActive(m[s.Id() := s])
  {
  }

  lemma PutClaims(m: map<Id, Schedule>, s: Schedule, triggers: seq<Trigger>)
    requires ClaimsOk(m, triggers) && ClaimsMatch(s, triggers)
    ensures ClaimsOk(m[s.Id() := s], triggers)
  {
  }

  lemma PutRefusals(m: map<Id, Schedule>, s: Schedule, triggers: seq<Trigger>, occurrences: seq<Reservation>, jobs: map<Id, Plan>)
    requires RefusalsOk(m, triggers, occurrences, jobs) && RefusalMatches(s, triggers, occurrences, jobs)
    ensures RefusalsOk(m[s.Id() := s], triggers, occurrences, jobs)
  {
  }

  lemma PutHistory(t: Tables, s: Schedule)
    requires HistoryOk(t) && Fits(s, t)
    ensures HistoryOk(t.(schedules := t.schedules[s.Id() := s]))
  {
    PutSchedules(t.schedules, s, t.policies, t.definitions);
    PutTriggers(t.triggers, t.schedules, s, t.policies);
    PutOneActive(t.schedules, s);
    PutClaims(t.schedules, s, t.triggers);
    PutRefusals(t.schedules, s, t.triggers, t.occurrences, t.jobs);
  }

  lemma SpacedFrame(t: Tables, schedules: map<Id, Schedule>)
    requires TriggersOk(t.triggers, t.schedules, t.policies)
    requires AllSpaced(t.triggers, t.schedules) && SchedulesKept(t.schedules, schedules)
    ensures AllSpaced(t.triggers, schedules)
  {
    forall i, j | 0 <= i < j < |t.triggers| ensures Spaced(t.triggers[i], t.triggers[j], schedules) {
      assert Spaced(t.triggers[i], t.triggers[j], t.schedules);
      assert TriggerOk(t.triggers[i], t.schedules, t.policies);
    }
  }

  lemma PutPaced(m: map<Id, Schedule>, s: Schedule, triggers: seq<Trigger>)
    requires AllPaced(m, triggers) && Paced(s, triggers)
    ensures AllPaced(m[s.Id() := s], triggers)
  {
  }

  lemma PutSchedule(t: Tables, s: Schedule)
    requires Inv(t) && Fits(s, t)
    ensures Inv(t.(schedules := t.schedules[s.Id() := s]))
  {
    var schedules := t.schedules[s.Id() := s];
    assert SchedulesKept(t.schedules, schedules);
    SpacedFrame(t, schedules);
    PutPaced(t.schedules, s, t.triggers);
    DelegationsFrame(t, schedules);
    PutHistory(t, s);
    AuthorityFrame(t, t.(schedules := schedules));
  }

  /** An edit of one schedule that claims nothing and never gains activity. */
  predicate Edits(s: Schedule, s': Schedule) {
    && Lineage(s, s') && s'.claimed == s.claimed
    && (s'.Active() ==> s.Active() && s.observedAt <= s'.observedAt)
    && (s'.active == s.active || s'.active.None?)
    && (s'.state == InFlight ==>
          && s.state == InFlight && s.launchedAt.None?
          && s'.launchedAt == Some(s'.observedAt) && s'.observedAt < s.expiresAt)
    && s'.refusal == s.refusal && s'.resolution == s.resolution
    && (s.stop.Some? ==> s'.stop == s.stop)
    && (s'.state == Waiting ==>
          && s.state == InFlight && s'.revision == s.revision + 1
          && s'.nextDue == Some(s'.observedAt + s.every))
  }

  lemma EditClaims(s: Schedule, s': Schedule, triggers: seq<Trigger>)
    requires Edits(s, s') && ClaimsMatch(s, triggers)
    ensures ClaimsMatch(s', triggers)
  {
    assert LastClaim(triggers, s') == LastClaim(triggers, s);
  }

  lemma EditPace(s: Schedule, s': Schedule, triggers: seq<Trigger>)
    requires Edits(s, s') && Paced(s, triggers) && ValidLifecycle(s)
    ensures Paced(s', triggers)
  {
    assert forall k: nat :: Pace(s', k) == Pace(s, k);
  }

  lemma EditSchedule(t: Tables, s: Schedule, s': Schedule)
    requires Inv(t) && s'.Id() in t.schedules && s == t.schedules[s'.Id()] && Edits(s, s')
    requires ScheduleOk(s', s'.Id(), t.policies, t.definitions)
    ensures Inv(t.(schedules := t.schedules[s'.Id() := s']))
  {
    assert ScheduleOk(s, s.Id(), t.policies, t.definitions);
    EditClaims(s, s', t.triggers);
    EditPace(s, s', t.triggers);
    assert RefusalMatches(s, t.triggers, t.occurrences, t.jobs);
    assert LastClaim(t.triggers, s') == LastClaim(t.triggers, s);
    forall id | id in t.schedules && id != s.Id() ensures !Rival(t.schedules[id], s') {
      assert !Rival(t.schedules[id], s);
    }
    PutSchedule(t, s');
  }

  /** Rewriting schedules in place, when the history check is run again on the result. */
  lemma RewriteSchedules(t: Tables, schedules: map<Id, Schedule>)
    requires Inv(t) && HistoryOk(t.(schedules := schedules))
    requires SchedulesKept(t.schedules, schedules) && schedules.Keys == t.schedules.Keys
    requires forall id | id in schedules ::
               schedules[id] == t.schedules[id] || !schedules[id].Active()
    ensures Inv(t.(schedules := schedules))
  {
    SpacedFrame(t, schedules);
    forall id | id in schedules ensures Paced(schedules[id], t.triggers) {
      assert Paced(t.schedules[id], t.triggers);
      assert schedules[id].Id() == t.schedules[id].Id();
      assert forall k: nat :: Pace(schedules[id], k) == Pace(t.schedules[id], k);
    }
    DelegationsFrame(t, schedules);
    AuthorityFrame(t, t.(schedules := schedules));
  }

  // ------------------------------------------------------------------ job writes

  lemma UniqueOwner(triggers: seq<Trigger>, x: Trigger, y: Trigger, id: Id)
    requires IdentitiesOk(triggers) && x in triggers && y in triggers
    requires Owns(x, id) && Owns(y, id)
    ensures x == y
  {
    var i :| 0 <= i < |triggers| && triggers[i] == x;
    var j :| 0 <= j < |triggers| && triggers[j] == y;
  }

  lemma UniqueReceipt(occurrences: seq<Reservation>, a: Reservation, b: Reservation)
    requires ReceiptsDistinct(occurrences) && a in occurrences && b in occurrences && SameReceipt(a, b)
    ensures a == b
  {
    var i :| 0 <= i < |occurrences| && occurrences[i] == a;
    var j :| 0 <= j < |occurrences| && occurrences[j] == b;
  }

  /** No refused claim's request gains a job. */
  predicate Harmless(t: Tables, plan: Plan) {
    plan.context.Some? ==>
      forall id | id in t.schedules && t.schedules[id].refusal.Some? && LastClaim(t.triggers, t.schedules[id]).Some? ::
        LastClaim(t.triggers, t.schedules[id]).value.context.request != plan.context.value.request
  }

  lemma PutJobHistory(t: Tables, plan: Plan)
    requires HistoryOk(t) && Harmless(t, plan)
    ensures HistoryOk(t.(jobs := t.jobs[plan.id := plan]))
  {
    var jobs := t.jobs[plan.id := plan];
    forall id | id in t.schedules
      ensures RefusalMatches(t.schedules[id], t.triggers, t.occurrences, jobs)
    {
      assert RefusalMatches(t.schedules[id], t.triggers, t.occurrences, t.jobs);
    }
  }

  lemma PutJobRetained(t: Tables, plan: Plan)
    requires RetainedOk(t) && ReceiptsDistinct(t.occurrences)
    requires JobOk(plan, plan.id, t)
    requires plan.id !in t.jobs ==> OccurrenceByJob(t.occurrences, plan.id).None?
    ensures RetainedOk(t.(jobs := t.jobs[plan.id := plan]))
  {
    var t' := t.(jobs := t.jobs[plan.id := plan]);
    forall r | r in t.occurrences
      ensures OccurrenceOk(r, t') && RetainedPlan(r, t'.jobs, t'.archives).Some?
    {
      assert OccurrenceOk(r, t) && RetainedPlan(r, t.jobs, t.archives).Some?;
      if r.command.job == plan.id {
        UniqueReceipt(t.occurrences, r, OccurrenceByJob(t.occurrences, plan.id).value);
      }
    }
    forall a | a in t.archives ensures ArchiveOk(a, t') {
      assert ArchiveOk(a, t);
    }
  }

  lemma PutJobs(t: Tables, plan: Plan)
    requires JobsOk(t) && JobOk(plan, plan.id, t)
    ensures JobsOk(t.(jobs := t.jobs[plan.id := plan]))
  {
    var t' := t.(jobs := t.jobs[plan.id := plan]);
    forall id | id in t'.jobs ensures JobOk(t'.jobs[id], id, t') {
      assert id != plan.id ==> JobOk(t.jobs[id], id, t);
    }
  }

  lemma PutJob(t: Tables, plan: Plan)
    requires Inv(t) && JobOk(plan, plan.id, t) && Harmless(t, plan)
    requires plan.id !in t.jobs ==> OccurrenceByJob(t.occurrences, plan.id).None?
    ensures Inv(t.(jobs := t.jobs[plan.id := plan]))
  {
    PutJobs(t, plan);
    PutJobRetained(t, plan);
    PutJobHistory(t, plan);
  }

  lemma DropJobHistory(t: Tables, id: Id)
    requires HistoryOk(t)
    ensures HistoryOk(t.(jobs := t.jobs - {id}))
  {
    forall s | s in t.schedules
      ensures RefusalMatches(t.schedules[s], t.triggers, t.occurrences, t.jobs - {id})
    {
      assert RefusalMatches(t.schedules[s], t.triggers, t.occurrences, t.jobs);
    }
  }

  lemma DropJobRetained(t: Tables, id: Id)
    requires RetainedOk(t) && OccurrenceByJob(t.occurrences, id).None?
    ensures RetainedOk(t.(jobs := t.jobs - {id}))
  {
    var t' := t.(jobs := t.jobs - {id});
    forall r | r in t.occurrences ensures OccurrenceOk(r, t') && RetainedPlan(r, t'.jobs, t'.archives).Some? {
      assert OccurrenceOk(r, t) && RetainedPlan(r, t.jobs, t.archives).Some?;
    }
    forall a | a in t.archives ensures ArchiveOk(a, t') {
      assert ArchiveOk(a, t);
    }
  }

  lemma DropJobs(t: Tables, id: Id)
    requires JobsOk(t)
    ensures JobsOk(t.(jobs := t.jobs - {id}))
  {
    var t' := t.(jobs := t.jobs - {id});
    forall j | j in t'.jobs ensures JobOk(t'.jobs[j], j, t') {
      assert JobOk(t.jobs[j], j, t);
    }
  }

  lemma DropJob(t: Tables, id: Id)
    requires Inv(t) && OccurrenceByJob(t.occurrences, id).None?
    ensures Inv(t.(jobs := t.jobs - {id}))
  {
    DropJobRetained(t, id);
    DropJobs(t, id);
    DropJobHistory(t, id);
  }

  // ------------------------------------------------------------------ authority writes

  lemma ScheduleFrame(s: Schedule, id: Id, t: Tables, policies: map<Id, Policy>, definitions: map<Id, Definition>)
    requires ScheduleOk(s, id, t.policies, t.definitions)
    requires PoliciesKept(t.policies, policies) && DefinitionsKept(t.definitions, definitions)
    ensures ScheduleOk(s, id, policies, definitions)
  {
  }

  /** Adding or retiring authority keeps everything that was granted under it. */
  lemma PutAuthority(t: Tables, policies: map<Id, Policy>, definitions: map<Id, Definition>)
    requires Inv(t)
    requires PoliciesKept(t.policies, policies) && DefinitionsKept(t.definitions, definitions)
    requires DefinitionsOk(definitions) && PoliciesOk(policies, definitions) && GenerationsOk(policies)
    requires BudgetsOk(t.occurrences, policies)
    ensures Inv(t.(policies := policies, definitions := definitions))
  {
    var t' := t.(policies := policies, definitions := definitions);
    assert HistoryOk(t') by {
      forall id | id in t.schedules ensures ScheduleOk(t.schedules[id], id, policies, definitions) {
        ScheduleFrame(t.schedules[id], id, t, policies, definitions);
      }
      forall x | x in t.triggers ensures TriggerOk(x, t.schedules, policies) {
        assert TriggerOk(x, t.schedules, t.policies);
      }
    }
    assert SchedulesKept(t.schedules, t.schedules);
    DelegationsFrame(t, t.schedules);
    AuthorityFrame(t, t');
  }
}
