/**
 Archiving replaces evidence and nothing else: one retained plan per reservation in every reachable state.
 The archived job's identity is never used again, and its request is never admitted again; whether a job
 inserted directly may carry that request is the subject of `LedgerRecreation`.
 */
module LedgerArchives {
  import opened Prelude
  import opened Records
  import opened Ledger
  import opened LedgerInvariant
  import opened LedgerSteps
  import opened LedgerRuns
  import opened LedgerEvolution
  import opened LedgerTheorems

  predicate SameEvidence(a: Archive, b: Archive) {
    a.Id() == b.Id() || a.command.reservation == b.command.reservation || a.command.job == b.command.job
  }

  predicate ArchivesDistinct(archives: seq<Archive>) {
    forall i, j | 0 <= i < j < |archives| :: !SameEvidence(archives[i], archives[j])
  }

  lemma ArchiveDistinct(archives: seq<Archive>, a: Archive)
    requires ArchivesDistinct(archives)
    requires ArchiveById(archives, a.Id()).None? && ArchiveOf(archives, a.command.reservation).None?
    requires !ArchivedJob(archives, a.command.job)
    ensures ArchivesDistinct(archives + [a])
  {
    forall i, j | 0 <= i < j < |archives + [a]| ensures !SameEvidence((archives + [a])[i], (archives + [a])[j]) {
      assert (archives + [a])[i] == archives[i] && archives[i] in archives;
    }
  }

  lemma {:induction false} RunDistinct(events: seq<Event>)
    ensures Inv(Run(EMPTY, events)) && ArchivesDistinct(Run(EMPTY, events).archives)
  {
    EmptyInv();
    RunKeeps(EMPTY, events);
    if events != [] {
      RunDistinct(events[..|events| - 1]);
      StepDistinct(Run(EMPTY, events[..|events| - 1]), events[|events| - 1]);
    }
  }

  lemma StepDistinct(t: Tables, e: Event)
    requires Inv(t) && ArchivesDistinct(t.archives)
    ensures ArchivesDistinct(Apply(t, e).archives)
  {
    var m := Classify(t, e);
    MoveDistinct(t, m, Apply(t, e));
  }

  lemma MoveDistinct(t: Tables, m: Move, t': Tables)
    requires JobsOk(t) && ArchivesDistinct(t.archives) && Moves(t, m, t')
    ensures ArchivesDistinct(t'.archives)
  {
    if m.ArchiveMove? {
      assert JobOk(t.jobs[m.a.command.job], m.a.command.job, t);
      ArchiveDistinct(t.archives, m.a);
    }
  }

  predicate LiveEvidence(t: Tables, r: Reservation) {
    r.command.job in t.jobs && LiveMatches(r, t.jobs[r.command.job])
  }

  predicate ArchivedEvidence(t: Tables, r: Reservation, a: Archive) {
    a in t.archives && a.command.reservation == r.Id() && Resolved(a.terminal) && LiveMatches(r, a.terminal)
  }

  lemma ArchivedMatches(t: Tables, r: Reservation, a: Archive)
    requires RetainedOk(t) && ReceiptsDistinct(t.occurrences) && r in t.occurrences
    requires a in t.archives && a.command.reservation == r.Id()
    ensures ArchivedEvidence(t, r, a) && r.command.job !in t.jobs
  {
    assert ArchiveOk(a, t);
    UniqueReceipt(t.occurrences, r, OccurrenceById(t.occurrences, r.Id()).value);
  }

  lemma BackedOnce(t: Tables, r: Reservation)
    requires RetainedOk(t) && ReceiptsDistinct(t.occurrences) && ArchivesDistinct(t.archives) && r in t.occurrences
    ensures LiveEvidence(t, r) <==> !exists a :: ArchivedEvidence(t, r, a)
    ensures r.command.job in t.jobs <==> LiveEvidence(t, r)
  {
    assert RetainedPlan(r, t.jobs, t.archives).Some?;
    if ArchiveOf(t.archives, r.Id()).Some? {
      ArchivedMatches(t, r, ArchiveOf(t.archives, r.Id()).value);
    }
  }

  /** Every reservation is backed by exactly one of its live job or one archive with the same authority. */
  lemma OneRetainedPlan(t: Tables, r: Reservation)
    requires Reachable(t) && r in t.occurrences
    ensures LiveEvidence(t, r) <==> !exists a :: ArchivedEvidence(t, r, a)
    ensures r.command.job in t.jobs <==> LiveEvidence(t, r)
    ensures forall a, b :: ArchivedEvidence(t, r, a) && ArchivedEvidence(t, r, b) ==> a == b
  {
    var events :| t == Run(EMPTY, events);
    RunDistinct(events);
    BackedOnce(t, r);
    forall a, b | ArchivedEvidence(t, r, a) && ArchivedEvidence(t, r, b) ensures a == b {
      UniqueArchive(t.archives, a, b);
    }
  }

  lemma UniqueArchive(archives: seq<Archive>, a: Archive, b: Archive)
    requires ArchivesDistinct(archives) && a in archives && b in archives && SameEvidence(a, b)
    ensures a == b
  {
    var i :| 0 <= i < |archives| && archives[i] == a;
    var j :| 0 <= j < |archives| && archives[j] == b;
  }

  /** The shared record count over the seven tables of the ledger. */
  function RecordCount(t: Tables): nat {
    |t.jobs| + |t.definitions| + |t.policies| + |t.schedules| + |t.triggers| + |t.occurrences| + |t.archives|
  }

  lemma ArchiveCounts(t: Tables, t': Tables, a: Archive)
    requires a.command.job in t.jobs
    requires t' == t.(jobs := t.jobs - {a.command.job}, archives := t.archives + [a])
    ensures RecordCount(t') == RecordCount(t)
  {
    assert t.jobs.Keys == t'.jobs.Keys + {a.command.job};
  }

  /** A committed archive moves one record and touches no reservation, budget or authority. */
  lemma ArchiveConserves(t: Tables, c: ArchiveCommand, runtime: Id, now: nat, commit: nat, room: bool)
    requires ArchiveRun(t, c, runtime, now, commit, room).Done?
    ensures var a := ArchiveRun(t, c, runtime, now, commit, room);
            && RecordCount(a.tables) == RecordCount(t)
            && a.tables == t.(jobs := a.tables.jobs, archives := a.tables.archives)
            && a.tables.jobs == (if a.value.1 then t.jobs else t.jobs - {c.job})
  {
    var a := ArchiveRun(t, c, runtime, now, commit, room);
    ArchiveShape(t, c, runtime, now, commit, room);
    if !a.value.1 {
      ArchiveCounts(t, a.tables, a.value.0);
    }
  }

  lemma ArchivedIsFinal(t: Tables, a: Archive, plan: Plan, same: bool, now: nat, room: bool)
    requires ArchivesOk(t) && a in t.archives
    ensures plan.context.Some? && SameRequest(a.terminal, plan.context.value) ==> AdmitRequest(t, plan, same, now, room).Refused?
    ensures plan.id == a.command.job ==> InsertJob(t, plan, now, room).Refused?
    ensures a.command.job !in t.jobs
  {
    assert ArchiveOk(a, t);
  }

  /** Once archived, the request is never admitted again and the job's identity is never inserted again. */
  lemma ArchivedForever(t: Tables, events: seq<Event>, a: Archive, plan: Plan, same: bool, now: nat, room: bool)
    requires Reachable(t) && a in t.archives
    ensures plan.context.Some? && SameRequest(a.terminal, plan.context.value) ==>
              AdmitRequest(Run(t, events), plan, same, now, room).Refused?
    ensures plan.id == a.command.job ==> InsertJob(Run(t, events), plan, now, room).Refused?
    ensures a.command.job !in Run(t, events).jobs
  {
    Later(t, events);
    ArchivedIsFinal(Run(t, events), a, plan, same, now, room);
  }
}
