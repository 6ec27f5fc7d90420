/**
 Jobs for archived requests.  Admission refuses a request that was archived, but a direct insertion does not
 ask: it can give an archived request a live job again.  Here is exactly when.
 */
module LedgerRecreation {
  import opened Prelude
  import opened Records
  import opened Ledger
  import opened LedgerInvariant
  import opened LedgerSteps
  import opened LedgerRuns
  import opened LedgerCalls
  import opened LedgerEvolution
  import opened LedgerTheorems
  import opened LedgerOutcomes

  predicate CarriesRequest(plan: Plan, a: Archive) {
    plan.context.Some? && SameRequest(a.terminal, plan.context.value)
  }

  /** A live job carries the archived request. */
  predicate Live(t: Tables, a: Archive) {
    exists id | id in t.jobs :: CarriesRequest(t.jobs[id], a)
  }

  /** A new job carries it. */
  predicate Appears(t: Tables, t': Tables, a: Archive) {
    exists id | id in t'.jobs && id !in t.jobs :: CarriesRequest(t'.jobs[id], a)
  }

  /** A direct insertion that its guard lets commit names the archived request. */
  predicate Recreates(t: Tables, e: Event, a: Archive) {
    e.InsertEvent? && CarriesRequest(e.plan, a) && InsertGuard(t, e.plan, e.now, e.room)
  }

  // ------------------------------------------------------------------ which steps add such a job

  lemma MoveAddsJob(t: Tables, m: Move, t': Tables, a: Archive)
    requires Moves(t, m, t') && Appears(t, t', a)
    ensures m.JobMove? && m.plan.id !in t.jobs
  {
  }

  lemma InsertAppears(t: Tables, e: Event, a: Archive)
    requires e.InsertEvent?
    ensures Appears(t, Apply(t, e), a) <==> Recreates(t, e, a)
  {
    InsertApplies(t, e);
    InsertExact(t, e.plan, e.now, e.room);
    if Recreates(t, e, a) {
      assert e.plan.id in Apply(t, e).jobs && e.plan.id !in t.jobs;
    }
  }

  lemma AdmitStages(t: Tables, plan: Plan, same: bool, now: nat, room: bool)
    requires AdmitRequest(t, plan, same, now, room).Done?
    ensures plan.context.Some? && !ArchivedRequest(t.archives, plan.context.value)
    ensures var t' := AdmitRequest(t, plan, same, now, room).tables;
            forall id | id in t'.jobs && id !in t.jobs :: t'.jobs[id].context == plan.context
  {
  }

  lemma AdmitNeverAdds(t: Tables, e: Event, a: Archive)
    requires e.AdmitEvent? && a in t.archives
    ensures !Appears(t, Apply(t, e), a)
  {
    AdmitApplies(t, e);
    if AdmitRequest(t, e.plan, e.same, e.now, e.room).Done? {
      AdmitStages(t, e.plan, e.same, e.now, e.room);
    }
  }

  lemma OthersAddNone(t: Tables, e: Event, m: Move, a: Archive)
    requires Moves(t, m, Apply(t, e)) && Caused(t, e, m) && !e.InsertEvent? && !e.AdmitEvent?
    ensures !Appears(t, Apply(t, e), a)
  {
    if Appears(t, Apply(t, e), a) {
      MoveAddsJob(t, m, Apply(t, e), a);
    }
  }

  lemma StepAppears(t: Tables, e: Event, a: Archive)
    requires Inv(t) && a in t.archives
    ensures Appears(t, Apply(t, e), a) <==> Recreates(t, e, a)
  {
    if e.InsertEvent? {
      InsertAppears(t, e, a);
    } else if e.AdmitEvent? {
      AdmitNeverAdds(t, e, a);
    } else {
      var m := Classify(t, e);
      OthersAddNone(t, e, m, a);
    }
  }

  /** Over all twenty checkpoints, in every reachable state: a new job for an archived request appears if and
      only if the checkpoint is a direct insertion of a fresh plan for that request, under a new identity that
      was not archived itself, with room and with source authority where a claim names the request. */
  lemma StepRecreates(t: Tables, e: Event, a: Archive)
    requires Reachable(t) && a in t.archives
    ensures Appears(t, Apply(t, e), a) <==> Recreates(t, e, a)
  {
    ReachableInv(t);
    StepAppears(t, e, a);
  }

  // ------------------------------------------------------------------ later states

  /** A job that stays keeps its request. */
  lemma MoveContexts(t: Tables, m: Move, t': Tables)
    requires Moves(t, m, t')
    ensures forall id | id in t.jobs && id in t'.jobs :: t'.jobs[id].context == t.jobs[id].context
  {
  }

  lemma LiveAgain(t: Tables, m: Move, t': Tables, a: Archive)
    requires Moves(t, m, t') && !Live(t, a)
    ensures Live(t', a) <==> Appears(t, t', a)
  {
    MoveContexts(t, m, t');
    if Live(t', a) {
      var id :| id in t'.jobs && CarriesRequest(t'.jobs[id], a);
      assert id in t.jobs ==> CarriesRequest(t.jobs[id], a);
    }
  }

  lemma StepLive(t: Tables, e: Event, a: Archive)
    requires Inv(t) && a in t.archives && !Live(t, a)
    ensures Live(Apply(t, e), a) <==> Recreates(t, e, a)
  {
    var m := Classify(t, e);
    LiveAgain(t, m, Apply(t, e), a);
    StepAppears(t, e, a);
  }

  ghost predicate StaysGone(t: Tables, events: seq<Event>, a: Archive) {
    !Live(Run(t, events), a) && (events != [] ==> StaysGone(t, events[..|events| - 1], a))
  }

  ghost predicate NeverRecreates(t: Tables, events: seq<Event>, a: Archive) {
    events != [] ==>
      && NeverRecreates(t, events[..|events| - 1], a)
      && !Recreates(Run(t, events[..|events| - 1]), events[|events| - 1], a)
  }

  lemma LaterStep(t: Tables, events: seq<Event>, a: Archive)
    requires Reachable(t) && a in t.archives
    ensures Inv(Run(t, events)) && a in Run(t, events).archives
  {
    Later(t, events);
  }

  /** An archived request that has no live job has none in any later state of a run if and only if no step of
      the run recreates it. */
  lemma {:induction false} GoneExactly(t: Tables, events: seq<Event>, a: Archive)
    requires Reachable(t) && a in t.archives && !Live(t, a)
    ensures StaysGone(t, events, a) <==> NeverRecreates(t, events, a)
  {
    if events != [] {
      GoneExactly(t, events[..|events| - 1], a);
      if NeverRecreates(t, events[..|events| - 1], a) {
        LaterStep(t, events[..|events| - 1], a);
        StepLive(Run(t, events[..|events| - 1]), events[|events| - 1], a);
      }
    }
  }

  /** The archived request of a claim that was let go is never recreated, in any later state. */
  lemma ReleasedNeverRecreated(t: Tables, events: seq<Event>, x: Trigger, e: Event, a: Archive)
    requires Reachable(t) && Released(t, x) && a in Run(t, events).archives
    requires a.terminal.context.Some? && a.terminal.context.value.request == x.context.request
    ensures !Recreates(Run(t, events), e, a) && !Appears(Run(t, events), Apply(Run(t, events), e), a)
  {
    if Recreates(Run(t, events), e, a) {
      ReleasedForever(t, events, x, e.plan, e.now);
    }
    ReachableRun(t, events);
    StepRecreates(Run(t, events), e, a);
  }

  // ------------------------------------------------------------------ every archived request

  /** No archived request has a live job. */
  predicate Gone(t: Tables) {
    forall a | a in t.archives :: !Live(t, a)
  }

  /** An archive that its guard lets commit leaves another live job of the same request behind. */
  predicate LeavesTwin(t: Tables, e: Event) {
    && e.ArchiveEvent? && ArchiveGuard(t, e.archive, e.runtime, e.now, e.commit, e.room)
    && exists id | id in t.jobs && id != e.archive.job ::
         t.jobs[id].context.Some? && SameRequest(t.jobs[e.archive.job], t.jobs[id].context.value)
  }

  predicate Revives(t: Tables, e: Event) {
    LeavesTwin(t, e) || exists a | a in t.archives :: Recreates(t, e, a)
  }

  lemma ArchiveGone(t: Tables, a: Archive)
    requires Gone(t) && a.command.job in t.jobs && a.terminal == t.jobs[a.command.job]
    ensures Gone(WithArchive(t, a)) <==>
            !exists id | id in t.jobs && id != a.command.job ::
              t.jobs[id].context.Some? && SameRequest(a.terminal, t.jobs[id].context.value)
  {
    var t' := WithArchive(t, a);
    assert a in t'.archives;
    assert forall id | id in t'.jobs :: id in t.jobs && id != a.command.job && t'.jobs[id] == t.jobs[id];
    if Gone(t') {
      forall id | id in t.jobs && id != a.command.job
        ensures !(t.jobs[id].context.Some? && SameRequest(a.terminal, t.jobs[id].context.value))
      {
        assert id in t'.jobs && !Live(t', a);
      }
    } else {
      var k :| k in t'.archives && Live(t', k);
      var id :| id in t'.jobs && CarriesRequest(t'.jobs[id], k);
      assert k != a ==> k in t.archives && Live(t, k);
    }
  }

  /** What an archive command leaves. */
  lemma ArchiveLeaves(t: Tables, e: Event)
    requires HistoryOk(t) && RetainedOk(t) && ReceiptsDistinct(t.occurrences) && e.ArchiveEvent?
    ensures Apply(t, e) == if ArchiveGuard(t, e.archive, e.runtime, e.now, e.commit, e.room)
                           then WithArchive(t, Archive(e.archive, e.runtime, e.now, t.jobs[e.archive.job])) else t
  {
    ArchiveApplies(t, e);
    if ArchiveById(t.archives, e.archive.operation).None? {
      ArchiveExact(t, e.archive, e.runtime, e.now, e.commit, e.room);
    } else {
      ArchiveAgain(t, e.archive, e.runtime, e.now, e.commit, e.room);
    }
  }

  lemma ArchivingRevives(t: Tables, e: Event)
    requires e.ArchiveEvent?
    ensures Revives(t, e) <==> LeavesTwin(t, e)
  {
  }

  lemma CommittedGone(t: Tables, e: Event)
    requires Gone(t) && e.ArchiveEvent? && ArchiveGuard(t, e.archive, e.runtime, e.now, e.commit, e.room)
    ensures Gone(WithArchive(t, Archive(e.archive, e.runtime, e.now, t.jobs[e.archive.job]))) <==> !LeavesTwin(t, e)
  {
    ArchiveGone(t, Archive(e.archive, e.runtime, e.now, t.jobs[e.archive.job]));
  }

  lemma ArchivingGone(t: Tables, e: Event)
    requires HistoryOk(t) && RetainedOk(t) && ReceiptsDistinct(t.occurrences) && e.ArchiveEvent? && Gone(t)
    ensures Gone(Apply(t, e)) <==> !Revives(t, e)
  {
    ArchiveLeaves(t, e);
    ArchivingRevives(t, e);
    if ArchiveGuard(t, e.archive, e.runtime, e.now, e.commit, e.room) {
      CommittedGone(t, e);
    }
  }

  lemma OtherArchives(t: Tables, e: Event, m: Move)
    requires Moves(t, m, Apply(t, e)) && Caused(t, e, m) && !e.ArchiveEvent?
    ensures Apply(t, e).archives == t.archives
  {
  }

  lemma SameArchivesGone(t: Tables, t': Tables, e: Event)
    requires Gone(t) && t'.archives == t.archives && !e.ArchiveEvent?
    requires forall a | a in t.archives :: Live(t', a) <==> Recreates(t, e, a)
    ensures Gone(t') <==> !Revives(t, e)
  {
  }

  lemma OthersLive(t: Tables, e: Event)
    requires Inv(t) && Gone(t)
    ensures forall a | a in t.archives :: Live(Apply(t, e), a) <==> Recreates(t, e, a)
  {
    forall a | a in t.archives ensures Live(Apply(t, e), a) <==> Recreates(t, e, a) {
      StepLive(t, e, a);
    }
  }

  lemma OtherGone(t: Tables, e: Event)
    requires Inv(t) && Gone(t) && !e.ArchiveEvent?
    ensures Gone(Apply(t, e)) <==> !Revives(t, e)
  {
    var m := Classify(t, e);
    OtherArchives(t, e, m);
    OthersLive(t, e);
    SameArchivesGone(t, Apply(t, e), e);
  }

  lemma StepGone(t: Tables, e: Event)
    requires Inv(t) && Gone(t)
    ensures Gone(Apply(t, e)) <==> !Revives(t, e)
  {
    if e.ArchiveEvent? {
      ArchivingGone(t, e);
    } else {
      OtherGone(t, e);
    }
  }

  ghost predicate AlwaysGone(events: seq<Event>) {
    Gone(Run(EMPTY, events)) && (events != [] ==> AlwaysGone(events[..|events| - 1]))
  }

  ghost predicate NeverRevives(events: seq<Event>) {
    events != [] ==>
      && NeverRevives(events[..|events| - 1])
      && !Revives(Run(EMPTY, events[..|events| - 1]), events[|events| - 1])
  }

  lemma RunInv(events: seq<Event>)
    ensures Inv(Run(EMPTY, events))
  {
    EmptyInv();
    RunKeeps(EMPTY, events);
  }

  /** Throughout a run no archived request has a live job, if and only if no step recreates one and no archive
      leaves another job of its request behind. */
  lemma {:induction false} AlwaysGoneExactly(events: seq<Event>)
    ensures AlwaysGone(events) <==> NeverRevives(events)
  {
    if events != [] {
      AlwaysGoneExactly(events[..|events| - 1]);
      if NeverRevives(events[..|events| - 1]) {
        RunInv(events[..|events| - 1]);
        StepGone(Run(EMPTY, events[..|events| - 1]), events[|events| - 1]);
      }
    }
  }
}
