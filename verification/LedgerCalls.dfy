/** Which attempt each checkpoint event makes. */
module LedgerCalls {
  import opened Prelude
  import opened Records
  import opened Ledger
  import opened LedgerRuns

  lemma ArmApplies(t: Tables, e: Event)
    requires e.ArmEvent?
    ensures Apply(t, e) == After(t, ArmSchedule(t, e.arm, e.runtime, e.issuer, e.now, e.commit, e.room))
  {
  }

  lemma ClaimApplies(t: Tables, e: Event)
    requires e.ClaimEvent?
    ensures Apply(t, e) == After(t, ClaimDue(t, e.id, e.runtime, e.issuer, e.now, e.commit, e.ids, e.room))
  {
  }

  lemma LaunchApplies(t: Tables, e: Event)
    requires e.LaunchEvent?
    ensures Apply(t, e) == After(t, BeginLaunch(t, e.id, e.runtime, e.now, e.commit))
  {
  }

  lemma RefuseApplies(t: Tables, e: Event)
    requires e.RefuseEvent?
    ensures Apply(t, e) == After(t, RecordRefusal(t, e.id, e.runtime, e.now, e.sha))
  {
  }

  lemma SettleApplies(t: Tables, e: Event)
    requires e.SettleEvent?
    ensures Apply(t, e) == After(t, SettleSchedule(t, e.id, e.runtime, e.issuer, e.now))
  {
  }

  lemma ResolveApplies(t: Tables, e: Event)
    requires e.ResolveEvent?
    ensures Apply(t, e) == After(t, ResolveRefusal(t, e.id, e.revision, e.trigger, e.hash, e.operation, e.now))
  {
  }

  lemma InterruptScheduleApplies(t: Tables, e: Event)
    requires e.InterruptScheduleEvent?
    ensures Apply(t, e) == After(t, InterruptSchedule(t, e.id, e.reason, e.now))
  {
  }

  lemma InterruptTriggerApplies(t: Tables, e: Event)
    requires e.InterruptTriggerEvent?
    ensures Apply(t, e) == After(t, InterruptTrigger(t, e.id, e.reason, e.now))
  {
  }

  lemma StopApplies(t: Tables, e: Event)
    requires e.StopEvent?
    ensures Apply(t, e) == After(t, StopSchedule(t, e.id, e.revision, e.operation, e.now))
  {
  }

  lemma ReopenApplies(t: Tables, e: Event)
    requires e.ReopenEvent?
    ensures Apply(t, e) == After(t, Reopen(t, e.clock))
  {
  }

  lemma InsertApplies(t: Tables, e: Event)
    requires e.InsertEvent?
    ensures Apply(t, e) == After(t, InsertJob(t, e.plan, e.now, e.room))
  {
  }

  lemma AdmitApplies(t: Tables, e: Event)
    requires e.AdmitEvent?
    ensures Apply(t, e) == After(t, AdmitRequest(t, e.plan, e.same, e.now, e.room))
  {
  }

  lemma EditApplies(t: Tables, e: Event)
    requires e.EditEvent?
    ensures Apply(t, e) == After(t, EditJob(t, e.id, e.plan, e.gate, e.now, e.room))
  {
  }

  lemma RemoveJobApplies(t: Tables, e: Event)
    requires e.RemoveJobEvent?
    ensures Apply(t, e) == After(t, RemoveFinished(t, e.id))
  {
  }

  lemma ReserveApplies(t: Tables, e: Event)
    requires e.ReserveEvent?
    ensures Apply(t, e) == After(t, ReserveRun(t, e.reserve, e.runtime, e.issuer, e.now, e.commit, e.stamped, e.sha, e.room))
  {
  }

  lemma ArchiveApplies(t: Tables, e: Event)
    requires e.ArchiveEvent?
    ensures Apply(t, e) == After(t, ArchiveRun(t, e.archive, e.runtime, e.now, e.commit, e.room))
  {
  }

  lemma DefineApplies(t: Tables, e: Event)
    requires e.DefineEvent?
    ensures Apply(t, e) == After(t, DefineAutomation(t, e.define, e.now, e.sha, e.room))
  {
  }

  lemma RemoveDefinitionApplies(t: Tables, e: Event)
    requires e.RemoveDefinitionEvent?
    ensures Apply(t, e) == After(t, RemoveDefinition(t, e.id, e.revision, e.operation))
  {
  }

  lemma ApproveApplies(t: Tables, e: Event)
    requires e.ApproveEvent?
    ensures Apply(t, e) == After(t, ApprovePolicy(t, e.candidate, e.runtime, e.now, e.room))
  {
  }

  lemma RevokeApplies(t: Tables, e: Event)
    requires e.RevokeEvent?
    ensures Apply(t, e) == After(t, RevokePolicy(t, e.id, e.revision, e.operation, e.now))
  {
  }
}
