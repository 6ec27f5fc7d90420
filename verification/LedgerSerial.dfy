/** No overlap of reservations: a definition has at most one unresolved reservation. */
module LedgerSerial {
  import opened Prelude
  import opened Records
  import opened Ledger
  import opened LedgerInvariant
  import opened LedgerSteps
  import opened LedgerRuns
  import opened LedgerEvolution
  import opened LedgerTheorems

  // ------------------------------------------------------------------ reservations

  predicate Succeeds(a: Reservation, b: Reservation, t: Tables) {
    a.delegation.definition == b.delegation.definition ==> ReservationResolved(a, t.jobs, t.archives)
  }

  /** Every reservation of a definition but the newest is resolved. */
  predicate RunsSerial(t: Tables) {
    forall i, j | 0 <= i < j < |t.occurrences| :: Succeeds(t.occurrences[i], t.occurrences[j], t)
  }

  lemma ReserveSerial(t: Tables, t': Tables, r: Reservation)
    requires ReserveAt(t, t', r) && RunsSerial(t) && EvidenceEvolves(t, t')
    ensures RunsSerial(t')
  {
    forall i, j | 0 <= i < j < |t'.occurrences| ensures Succeeds(t'.occurrences[i], t'.occurrences[j], t') {
      assert t'.occurrences[i] == t.occurrences[i] && t.occurrences[i] in t.occurrences;
      if j < |t.occurrences| {
        assert Succeeds(t.occurrences[i], t.occurrences[j], t);
      }
    }
  }

  lemma SameSerial(t: Tables, t': Tables)
    requires t'.occurrences == t.occurrences && RunsSerial(t) && EvidenceEvolves(t, t')
    ensures RunsSerial(t')
  {
    forall i, j | 0 <= i < j < |t.occurrences| ensures Succeeds(t.occurrences[i], t.occurrences[j], t') {
      assert Succeeds(t.occurrences[i], t.occurrences[j], t) && t.occurrences[i] in t.occurrences;
    }
  }

  lemma MoveSerial(t: Tables, m: Move, t': Tables)
    requires RunsSerial(t) && Moves(t, m, t') && EvidenceEvolves(t, t')
    ensures RunsSerial(t')
  {
    if m.ReserveMove? {
      ReserveSerial(t, t', m.r);
    } else {
      SameSerial(t, t');
    }
  }

  lemma StepSerial(t: Tables, e: Event)
    requires Inv(t) && RunsSerial(t)
    ensures RunsSerial(Apply(t, e))
  {
    var m := Classify(t, e);
    StepEvolves(t, e);
    MoveSerial(t, m, Apply(t, e));
  }

  lemma {:induction false} RunSerial(events: seq<Event>)
    ensures Inv(Run(EMPTY, events)) && RunsSerial(Run(EMPTY, events))
  {
    EmptyInv();
    RunKeeps(EMPTY, events);
    if events != [] {
      RunSerial(events[..|events| - 1]);
      StepSerial(Run(EMPTY, events[..|events| - 1]), events[|events| - 1]);
    }
  }

  lemma SerialPair(t: Tables, a: Reservation, b: Reservation)
    requires RunsSerial(t) && a in t.occurrences && b in t.occurrences && a.delegation.definition == b.delegation.definition
    requires !ReservationResolved(a, t.jobs, t.archives) && !ReservationResolved(b, t.jobs, t.archives)
    ensures a == b
  {
    var i :| 0 <= i < |t.occurrences| && t.occurrences[i] == a;
    var j :| 0 <= j < |t.occurrences| && t.occurrences[j] == b;
    assert forall m, n | 0 <= m < n < |t.occurrences| :: Succeeds(t.occurrences[m], t.occurrences[n], t);
  }

  /** In every reachable state a definition has at most one unresolved reservation. */
  lemma OneUnresolvedReservation(t: Tables, a: Reservation, b: Reservation)
    requires Reachable(t) && a in t.occurrences && b in t.occurrences
    requires a.delegation.definition == b.delegation.definition
    requires !ReservationResolved(a, t.jobs, t.archives) && !ReservationResolved(b, t.jobs, t.archives)
    ensures a == b
  {
    var events :| t == Run(EMPTY, events);
    RunSerial(events);
    SerialPair(t, a, b);
  }
}
