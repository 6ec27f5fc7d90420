/** Exhaustion is never premature: the reason on record is true when it is saved and stays true. */
module LedgerExhaustion {
  import opened Prelude
  import opened Records
  import opened Ledger
  import opened LedgerInvariant
  import opened LedgerSteps
  import opened LedgerRuns
  import opened LedgerEvolution
  import opened LedgerTheorems

  predicate AllSpent(t: Tables) {
    forall id | id in t.schedules :: Spent(t.schedules[id], t.policies, t.occurrences)
  }

  /** A budget that no longer fits another run never fits one again. */
  lemma NeverAvailableAgain(occurrences: seq<Reservation>, longer: seq<Reservation>, p: Policy)
    requires occurrences <= longer && !AllowanceAvailable(occurrences, p)
    ensures !AllowanceAvailable(longer, p)
  {
    CountPrefix(occurrences, longer, OfPolicy(p.id));
    SumPrefix(occurrences, longer, MsOf(p.id));
    SumPrefix(occurrences, longer, BytesOf(p.id));
  }

  lemma SpentStays(s: Schedule, t: Tables, t': Tables)
    requires Spent(s, t.policies, t.occurrences) && PoliciesKept(t.policies, t'.policies) && t.occurrences <= t'.occurrences
    ensures Spent(s, t'.policies, t'.occurrences)
  {
    if s.state == Exhausted && s.reason == Some(PolicyBudget) {
      var p, p' := t.policies[s.creation.policy], t'.policies[s.creation.policy];
      assert p' == p.(revocation := p'.revocation);
      NeverAvailableAgain(t.occurrences, t'.occurrences, p);
    }
  }

  /** Every schedule afterwards is an earlier one, one just edited truthfully, or not exhausted. */
  lemma MoveSchedules(t: Tables, m: Move, t': Tables, id: Id)
    requires Moves(t, m, t') && id in t'.schedules
    ensures || (id in t.schedules && t'.schedules[id] == t.schedules[id])
            || Spent(t'.schedules[id], t'.policies, t'.occurrences)
  {
  }

  lemma MoveSpent(t: Tables, m: Move, t': Tables)
    requires AllSpent(t) && Moves(t, m, t')
    ensures AllSpent(t')
  {
    MoveLogs(t, m, t');
    forall id | id in t'.schedules ensures Spent(t'.schedules[id], t'.policies, t'.occurrences) {
      MoveSchedules(t, m, t', id);
      if id in t.schedules && t'.schedules[id] == t.schedules[id] {
        SpentStays(t.schedules[id], t, t');
      }
    }
  }

  lemma {:induction false} RunSpent(events: seq<Event>)
    ensures Inv(Run(EMPTY, events)) && AllSpent(Run(EMPTY, events))
  {
    EmptyInv();
    RunKeeps(EMPTY, events);
    if events != [] {
      var before := Run(EMPTY, events[..|events| - 1]);
      RunSpent(events[..|events| - 1]);
      var m := Classify(before, events[|events| - 1]);
      MoveSpent(before, m, Run(EMPTY, events));
    }
  }

  /** In every reachable state an exhausted schedule used all its runs, or its policy's budgets cannot pay
      for another run, or the approved time could not hold one a period later. */
  lemma ExhaustionIsTrue(t: Tables, id: Id)
    requires Reachable(t) && id in t.schedules && t.schedules[id].state == Exhausted
    ensures t.schedules[id].creation.policy in t.policies && t.schedules[id].reason.Some?
    ensures var s := t.schedules[id];
            var p := t.policies[s.creation.policy];
            && (s.reason.value == RunBudget ==> s.claimed == p.creation.maxRuns)
            && (s.reason.value == PolicyBudget ==> !AllowanceAvailable(t.occurrences, p))
            && (s.reason.value == TimeBudget ==> AllowanceMs(p) > SaturatingSub(s.expiresAt, s.observedAt + s.every))
            && s.reason.value in {RunBudget, PolicyBudget, TimeBudget}
  {
    var events :| t == Run(EMPTY, events);
    RunSpent(events);
    SpentTruly(t, id);
  }

  lemma SpentTruly(t: Tables, id: Id)
    requires AllSpent(t) && SchedulesOk(t.schedules, t.policies, t.definitions)
    requires id in t.schedules && t.schedules[id].state == Exhausted
    ensures t.schedules[id].creation.policy in t.policies && t.schedules[id].reason.Some?
    ensures var s := t.schedules[id];
            var p := t.policies[s.creation.policy];
            && (s.reason.value == RunBudget ==> s.claimed == p.creation.maxRuns)
            && (s.reason.value == PolicyBudget ==> !AllowanceAvailable(t.occurrences, p))
            && (s.reason.value == TimeBudget ==> AllowanceMs(p) > SaturatingSub(s.expiresAt, s.observedAt + s.every))
            && s.reason.value in {RunBudget, PolicyBudget, TimeBudget}
  {
    assert Spent(t.schedules[id], t.policies, t.occurrences);
    assert ScheduleOk(t.schedules[id], id, t.policies, t.definitions);
  }
}
