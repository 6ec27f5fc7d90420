/** What later steps never undo, and so what any later state still says about an earlier one. */
module LedgerEvolution {
  import opened Prelude
  import opened Records
  import opened Ledger
  import opened LedgerInvariant
  import opened LedgerSteps
  import opened LedgerRuns

  // ------------------------------------------------------------------ what later steps keep

  predicate ScheduleEvolves(s: Schedule, s': Schedule) {
    && Lineage(s, s')
    && (!s.Active() ==> !s'.Active() && s'.claimed == s.claimed)
    && (s.stop.Some? ==> s'.stop == s.stop)
    && (s.refusal.Some? ==> s'.refusal == s.refusal)
    && (s.resolution.Some? ==> s'.resolution == s.resolution)
  }

  /** A claim once given up is never held again, and a launch mark stays while it is held. */
  predicate ClaimEvolves(x: Trigger, s: Schedule, s': Schedule) {
    && (s'.Holds(x.id) ==> s.Holds(x.id))
    && (s'.Holds(x.id) && s.launchedAt.Some? ==> s'.launchedAt.Some?)
  }

  predicate SchedulesEvolve(t: Tables, t': Tables) {
    && (forall id | id in t.schedules :: id in t'.schedules && ScheduleEvolves(t.schedules[id], t'.schedules[id]))
    && (forall x | x in t.triggers && x.schedule in t.schedules && x.schedule in t'.schedules ::
          ClaimEvolves(x, t.schedules[x.schedule], t'.schedules[x.schedule]))
  }

  predicate LogsEvolve(t: Tables, t': Tables) {
    t.triggers <= t'.triggers && t.occurrences <= t'.occurrences && t.archives <= t'.archives
  }

  predicate AuthorityEvolves(t: Tables, t': Tables) {
    && PoliciesKept(t.policies, t'.policies) && DefinitionsKept(t.definitions, t'.definitions)
    && (forall id | id in t.policies && t.policies[id].revocation.Some? :: t'.policies[id] == t.policies[id])
    && (forall id | id in t.definitions && t.definitions[id].removal.Some? :: t'.definitions[id] == t.definitions[id])
  }

  /** A resolved reservation stays resolved. */
  predicate EvidenceEvolves(t: Tables, t': Tables) {
    forall r | r in t.occurrences && ReservationResolved(r, t.jobs, t.archives) ::
      ReservationResolved(r, t'.jobs, t'.archives)
  }

  predicate Evolves(t: Tables, t': Tables) {
    SchedulesEvolve(t, t') && LogsEvolve(t, t') && AuthorityEvolves(t, t') && EvidenceEvolves(t, t')
  }

  // ------------------------------------------------------------------ schedules

  lemma EditEvolves(t: Tables, t': Tables, id: Id)
    requires EditAt(t, t', id)
    ensures SchedulesEvolve(t, t')
  {
    assert Edits(t.schedules[id], t'.schedules[id]);
  }

  lemma ClaimEvolution(t: Tables, t': Tables, s: Schedule, x: Trigger)
    requires s.Id() in t.schedules && t.schedules[s.Id()] == s && ClaimOf(s, x) && ValidLifecycle(s)
    requires t'.schedules == t.schedules[s.Id() := ClaimedAt(s, x.id, x.claimedAt)]
    requires forall y | y in t.triggers :: y.id != x.id
    ensures SchedulesEvolve(t, t')
  {
  }

  lemma ClaimMoveEvolves(t: Tables, t': Tables, id: Id, x: Trigger)
    requires SchedulesOk(t.schedules, t.policies, t.definitions) && ClaimAt(t, t', id, x)
    ensures SchedulesEvolve(t, t')
  {
    assert ScheduleOk(t.schedules[id], id, t.policies, t.definitions);
    ClaimEvolution(t, t', t.schedules[id], x);
  }

  lemma RewriteEvolves(t: Tables, t': Tables)
    requires AllRetire(t.schedules, t'.schedules)
    ensures SchedulesEvolve(t, t')
  {
  }

  lemma GrowEvolves(t: Tables, t': Tables)
    requires forall id | id in t.schedules :: id in t'.schedules && t'.schedules[id] == t.schedules[id]
    ensures SchedulesEvolve(t, t')
  {
  }

  lemma OtherMoveGrows(t: Tables, m: Move, t': Tables)
    requires Moves(t, m, t') && !m.EditMove? && !m.ClaimMove? && !m.RewriteMove?
    ensures forall id | id in t.schedules :: id in t'.schedules && t'.schedules[id] == t.schedules[id]
  {
  }

  lemma MoveSchedulesEvolve(t: Tables, m: Move, t': Tables)
    requires SchedulesOk(t.schedules, t.policies, t.definitions) && Moves(t, m, t')
    ensures SchedulesEvolve(t, t')
  {
    match m
    case EditMove(id) => EditEvolves(t, t', id);
    case ClaimMove(id, x) => ClaimMoveEvolves(t, t', id, x);
    case RewriteMove => RewriteEvolves(t, t');
    case _ =>
      OtherMoveGrows(t, m, t');
      GrowEvolves(t, t');
  }

  // ------------------------------------------------------------------ evidence

  lemma JobEvidence(t: Tables, t': Tables, plan: Plan, r: Reservation)
    requires ReceiptsDistinct(t.occurrences) && JobAt(t, t', plan)
    requires r in t.occurrences && ReservationResolved(r, t.jobs, t.archives)
    ensures ReservationResolved(r, t'.jobs, t'.archives)
  {
    if r.command.job == plan.id {
      UniqueReceipt(t.occurrences, r, OccurrenceByJob(t.occurrences, plan.id).value);
    }
  }

  lemma ArchiveEvidence(t: Tables, t': Tables, a: Archive, r: Reservation)
    requires ReceiptsDistinct(t.occurrences) && ArchiveAt(t, t', a)
    requires r in t.occurrences && ReservationResolved(r, t.jobs, t.archives)
    ensures ReservationResolved(r, t'.jobs, t'.archives)
  {
    FindAppend(t.archives, a, Archives(r.Id()));
    if r.command.job == a.command.job {
      UniqueReceipt(t.occurrences, r, OccurrenceById(t.occurrences, a.command.reservation).value);
    }
  }

  lemma ReserveEvidence(t: Tables, t': Tables, reserved: Reservation, r: Reservation)
    requires ReserveAt(t, t', reserved)
    requires r in t.occurrences && ReservationResolved(r, t.jobs, t.archives)
    ensures ReservationResolved(r, t'.jobs, t'.archives)
  {
    assert r.command.job != reserved.command.job;
  }

  lemma DropEvidence(t: Tables, t': Tables, id: Id, r: Reservation)
    requires DropAt(t, t', id)
    requires r in t.occurrences && ReservationResolved(r, t.jobs, t.archives)
    ensures ReservationResolved(r, t'.jobs, t'.archives)
  {
    assert r.command.job != id;
  }

  lemma MoveEvidence(t: Tables, m: Move, t': Tables, r: Reservation)
    requires ReceiptsDistinct(t.occurrences) && Moves(t, m, t')
    requires r in t.occurrences && ReservationResolved(r, t.jobs, t.archives)
    ensures ReservationResolved(r, t'.jobs, t'.archives)
  {
    match m
    case JobMove(plan) => JobEvidence(t, t', plan, r);
    case DropMove(id) => DropEvidence(t, t', id, r);
    case ReserveMove(reserved) => ReserveEvidence(t, t', reserved, r);
    case ArchiveMove(a) => ArchiveEvidence(t, t', a, r);
    case _ => assert t'.jobs == t.jobs && t'.archives == t.archives;
  }

  // ------------------------------------------------------------------ runs

  lemma MoveLogs(t: Tables, m: Move, t': Tables)
    requires Moves(t, m, t')
    ensures LogsEvolve(t, t') && AuthorityEvolves(t, t')
  {
  }

  lemma MoveEvidences(t: Tables, m: Move, t': Tables)
    requires ReceiptsDistinct(t.occurrences) && Moves(t, m, t')
    ensures EvidenceEvolves(t, t')
  {
    forall r | r in t.occurrences && ReservationResolved(r, t.jobs, t.archives)
      ensures ReservationResolved(r, t'.jobs, t'.archives)
    {
      MoveEvidence(t, m, t', r);
    }
  }

  lemma MoveEvolves(t: Tables, m: Move, t': Tables)
    requires SchedulesOk(t.schedules, t.policies, t.definitions) && ReceiptsDistinct(t.occurrences)
    requires Moves(t, m, t')
    ensures Evolves(t, t')
  {
    MoveSchedulesEvolve(t, m, t');
    MoveLogs(t, m, t');
    MoveEvidences(t, m, t');
  }

  lemma StepEvolves(t: Tables, e: Event)
    requires Inv(t)
    ensures Evolves(t, Apply(t, e))
  {
    var m := Classify(t, e);
    MoveEvolves(t, m, Apply(t, e));
  }

  lemma EvolvesTransitive(a: Tables, b: Tables, c: Tables)
    requires Evolves(a, b) && Evolves(b, c)
    ensures Evolves(a, c)
  {
    forall x | x in a.triggers && x.schedule in a.schedules && x.schedule in c.schedules
      ensures ClaimEvolves(x, a.schedules[x.schedule], c.schedules[x.schedule])
    {
      assert x in b.triggers;
    }
    forall r | r in a.occurrences && ReservationResolved(r, a.jobs, a.archives)
      ensures ReservationResolved(r, c.jobs, c.archives)
    {
      assert r in b.occurrences;
    }
  }

  lemma StepExtends(t: Tables, before: Tables, e: Event)
    requires Inv(before) && Evolves(t, before)
    ensures Evolves(t, Apply(before, e))
  {
    StepEvolves(before, e);
    EvolvesTransitive(t, before, Apply(before, e));
  }

  lemma EvolvesReflexive(t: Tables)
    ensures Evolves(t, t)
  {
  }

  lemma {:induction false} RunEvolves(t: Tables, events: seq<Event>)
    requires Inv(t)
    ensures Evolves(t, Run(t, events))
  {
    if events == [] {
      EvolvesReflexive(t);
    } else {
      RunEvolves(t, events[..|events| - 1]);
      LastEvolves(t, events);
    }
  }

  lemma LastEvolves(t: Tables, events: seq<Event>)
    requires Inv(t) && events != [] && Evolves(t, Run(t, events[..|events| - 1]))
    ensures Evolves(t, Run(t, events))
  {
    RunKeeps(t, events[..|events| - 1]);
    StepExtends(t, Run(t, events[..|events| - 1]), events[|events| - 1]);
  }
}
