/** A concrete run from the empty ledger in which an archived request gets a live job again. */
module LedgerRecreated {
  import opened Prelude
  import opened Records
  import opened Ledger
  import opened LedgerInvariant
  import opened LedgerSteps
  import opened LedgerRuns
  import opened LedgerTheorems
  import opened LedgerReceipts
  import opened LedgerOutcomes
  import opened LedgerRecreation
  import B = LedgerBorrow
  import LedgerCalls

  // ------------------------------------------------------------------ the reserved job is cancelled

  const ENDED := B.TAKEN.(status := Cancelled, revision := 4, updatedAt := 1400)
  const EDIT := EditEvent(201, ENDED, None, 1400, true)
  const EDITED := B.BORROWED.(jobs := B.BORROWED.jobs[201 := ENDED])

  lemma EndedMatches()
    ensures LiveMatches(B.RUN, ENDED) && Resolved(ENDED) && Editable(B.TAKEN, ENDED)
  {
  }

  lemma EndedDelegates()
    ensures DelegationValid(ENDED, [B.CLAIM], B.BEFORE.schedules)
  {
    B.FindOne(B.CLAIM, HasRequest(301));
  }

  lemma EndedJob(t: Tables)
    requires t == B.BORROWED || t == EDITED
    ensures JobOk(ENDED, 201, t)
  {
    EndedMatches();
    EndedDelegates();
    B.FindOne(B.RUN, ReservesJob(201));
  }

  lemma EditCommits()
    ensures EditJob(B.BORROWED, 201, ENDED, None, 1400, true) == Done(EDITED, ENDED)
  {
    B.BorrowedJob();
    EndedMatches();
    EndedJob(B.BORROWED);
    assert ENDED.(revision := B.TAKEN.revision + 1) == ENDED;
  }

  lemma EditedReached()
    ensures Reachable(EDITED)
  {
    B.BorrowedReached();
    EditCommits();
    LedgerCalls.EditApplies(B.BORROWED, EDIT);
    ReachedBy(B.BORROWED, EDIT, EditJob(B.BORROWED, 201, ENDED, None, 1400, true));
  }

  // ------------------------------------------------------------------ its occurrence is archived

  const ARCHIVE := ArchiveCommand(17, 0, 201, 4, 51)
  const EVIDENCE := Archive(ARCHIVE, 9, 1500, ENDED)
  const ARCHIVED := WithArchive(EDITED, EVIDENCE)
  const ARCHIVING := ArchiveEvent(ARCHIVE, 9, 1500, 1500, true)

  lemma ArchivableHere()
    ensures ArchiveGuard(EDITED, ARCHIVE, 9, 1500, 1500, true)
  {
    EndedMatches();
    EndedJob(EDITED);
    B.FindOne(B.RUN, IsReservation(51));
    B.FindOne(B.RUN, IsReservation(17));
  }

  lemma ArchivedReached()
    ensures Apply(EDITED, ARCHIVING) == ARCHIVED && Reachable(ARCHIVED)
  {
    EditedReached();
    ArchivableHere();
    ReachableInv(EDITED);
    ArchiveLeaves(EDITED, ARCHIVING);
    ReachableStep(EDITED, ARCHIVING);
  }

  lemma ArchivedGone()
    ensures ARCHIVED.archives == [EVIDENCE] && Gone(ARCHIVED)
  {
    assert forall id | id in ARCHIVED.jobs :: id == 202 || id == 203;
    assert ENDED.context == Some(B.At(301));
  }

  // ------------------------------------------------------------------ and its request is back

  const AGAIN := B.Submission(206, 301).(status := Pending)
  const INSERT := InsertEvent(AGAIN, 1600, true)

  lemma InsertableHere()
    ensures InsertGuard(ARCHIVED, AGAIN, 1600, true)
  {
    ArchivedGone();
    B.FindOne(B.CLAIM, HasRequest(301));
  }

  lemma RecreatesHere()
    ensures EVIDENCE in ARCHIVED.archives && Recreates(ARCHIVED, INSERT, EVIDENCE)
  {
    ArchivedGone();
    InsertableHere();
  }

  /** A reachable ledger whose one archived request has no live job, and a direct insertion after which it has. */
  lemma RequestReturns()
    ensures Reachable(ARCHIVED) && EVIDENCE in ARCHIVED.archives && Gone(ARCHIVED)
    ensures Recreates(ARCHIVED, INSERT, EVIDENCE) && Live(Apply(ARCHIVED, INSERT), EVIDENCE)
  {
    ArchivedReached();
    ArchivedGone();
    RecreatesHere();
    ReachableInv(ARCHIVED);
    StepLive(ARCHIVED, INSERT, EVIDENCE);
  }
}
