/**
 The journal as the coordinator runs it: one object whose tables are updated in place, one method
 per checkpoint.  Every method is proved to have exactly the effect that the ledger specifies, so
 every promise about runs of the ledger is a promise about calls on this object.
 */
module Journal {
  import opened Prelude
  import opened Records
  import L = Ledger
  import opened LedgerRuns
  import opened LedgerCalls
  import opened HistoryReader
  import opened HistoryGates

  type Tables = L.Tables

  /** What a caller sees of an attempt: no result and untouched tables, or the committed effect. */
  ghost predicate Outcome<T(!new)>(before: Tables, a: L.Attempt<T>, result: Option<T>, after: Tables) {
    match a
    case Refused => result == None && after == before
    case Done(tables, value) => result == Some(value) && after == tables
  }

  /** A call whose outcome is the attempt that its event makes is the event's step. */
  lemma Performed<T(!new)>(before: Tables, e: Event, a: L.Attempt<T>, result: Option<T>, after: Tables)
    requires Outcome(before, a, result, after) && Apply(before, e) == After(before, a)
    ensures after == Apply(before, e)
  {
  }

  // What the staged checkpoints return once their checks are made.

  lemma EditCommits(t: Tables, id: Id, edited: Plan, gate: Option<L.Gate>, now: nat, room: bool)
    requires id in t.jobs && L.JobOk(t.jobs[id], id, t) && L.Editable(t.jobs[id], edited) && t.jobs[id].revision + 1 < U64_LIMIT
    ensures var saved := edited.(revision := t.jobs[id].revision + 1);
            L.EditJob(t, id, edited, gate, now, room)
            == if L.EditAuthorised(t, t.jobs[id], edited, gate, now) && L.JobOk(saved, id, t) && room
               then L.Done(t.(jobs := t.jobs[id := saved]), saved) else L.Refused
  {
  }

  lemma StageCommits(t: Tables, s: Schedule, p: Policy, runtime: Id, issuer: int, now: nat, commit: nat, ids: L.FreshIds, room: bool)
    requires L.Generated(t, ids) && s.nextDue.Some?
    ensures var x := L.NewTrigger(s, p, ids, s.nextDue.value, now);
            var claimed := L.ClaimedAt(s, x.id, now);
            var t' := t.(schedules := t.schedules[s.Id() := claimed], triggers := t.triggers + [x]);
            L.StageClaim(t, s, p, runtime, issuer, now, commit, ids, room)
            == if && L.Save(t, claimed).Done? && room && L.HistoryOk(t')
                  && now <= commit < SaturatingAdd(s.nextDue.value, s.every)
                  && L.Current(claimed, t.policies, t.definitions, runtime, issuer, commit)
                  && AllowanceMs(p) <= SaturatingSub(s.expiresAt, commit)
               then L.Done(t', Some(x)) else L.Refused
  {
  }

  lemma DueSteps(t: Tables, id: Id, runtime: Id, issuer: int, now: nat, commit: nat, ids: L.FreshIds, room: bool)
    requires L.HistoryOk(t) && id in t.schedules && t.schedules[id].state == Waiting && t.schedules[id].nextDue.Some?
    ensures var s := t.schedules[id];
            var fault := L.DueFault(t, s, runtime, issuer, now, s.nextDue.value);
            L.ClaimDue(t, id, runtime, issuer, now, commit, ids, room)
            == if fault.Some? then L.Without(L.Save(t, L.InterruptedAt(s, fault.value, now)), None)
               else if now < s.nextDue.value then L.Done(t, None)
               else L.ClaimWithin(t, s, runtime, issuer, now, commit, ids, room)
  {
  }

  lemma RunStages(t: Tables, command: Reserve, p: Policy, d: Definition, plan: Plan,
                  runtime: Id, issuer: int, now: nat, commit: nat, stamped: nat, sha: int, room: bool, r: Reservation)
    requires L.ReservationLink(t, plan, p, command.operation, now).Some?
    requires r == L.NewRun(t, command, p, plan, runtime, issuer, now, stamped, sha)
    ensures var t' := t.(jobs := t.jobs[command.job := r.snapshot], occurrences := t.occurrences + [r]);
            L.StageRun(t, command, p, d, plan, runtime, issuer, now, commit, stamped, sha, room)
            == if L.OccurrenceOk(r, t) && room && L.RunCommits(t', r, p, d, runtime, issuer, commit)
               then L.Done(t', (r, false)) else L.Refused
  {
  }

  class JobStore {
    var jobs: map<Id, Plan>
    var definitions: map<Id, Definition>
    var policies: map<Id, Policy>
    var schedules: map<Id, Schedule>
    var triggers: seq<Trigger>
    var occurrences: seq<Reservation>
    var archives: seq<Archive>

    function View(): Tables
      reads this
    {
      L.Tables(jobs, definitions, policies, schedules, triggers, occurrences, archives)
    }

    constructor ()
      ensures View() == L.EMPTY
    {
      jobs, definitions, policies, schedules := map[], map[], map[], map[];
      triggers, occurrences, archives := [], [], [];
    }

    method Rollback(t: Tables)
      modifies this
      ensures View() == t
    {
      jobs, definitions, policies, schedules := t.jobs, t.definitions, t.policies, t.schedules;
      triggers, occurrences, archives := t.triggers, t.occurrences, t.archives;
    }

    // ---------------------------------------------------------------- reads

    /** The indexed read of the whole history. */
    method Validated() returns (ok: bool)
      ensures ok == L.HistoryOk(View())
    {
      var view := ValidatedHistory(View());
      return view.Some?;
    }

    /** The accumulating read of all reservations and their evidence. */
    method Checked() returns (ok: bool)
      ensures ok == L.OccurrencesOk(View())
    {
      var bits := CheckedRecords(View());
      return bits.Some?;
    }

    method PolicyCurrent(p: Policy, d: Definition, runtime: Id, issuer: int, now: nat) returns (current: bool)
      ensures current == L.CurrentAt(p, d, policies, runtime, issuer, now)
    {
      var latest := IsLatest(policies, p.creation.definition, p.generation);
      current := latest && EligibleAt(p, d, p.generation, runtime, issuer, now);
    }

    method IsCurrent(s: Schedule, runtime: Id, issuer: int, now: nat) returns (current: bool)
      ensures current == L.Current(s, policies, definitions, runtime, issuer, now)
    {
      if s.creation.policy !in policies || s.definition !in definitions || s.runtime != runtime || s.issuer != issuer {
        return false;
      }
      current := PolicyCurrent(policies[s.creation.policy], definitions[s.definition], runtime, issuer, now);
    }

    /** New source work for a claimed request is admitted only while the claim is in flight. */
    method MaySource(context: Context, now: nat) returns (ok: bool)
      ensures ok == L.SourceAuthority(View(), context, now)
    {
      var x := L.TriggerByRequest(triggers, context.request);
      if x.None? {
        return true;
      }
      if context != x.value.context || x.value.schedule !in schedules || !schedules[x.value.schedule].Holds(x.value.id) {
        return false;
      }
      var s := schedules[x.value.schedule];
      ok := IsCurrent(s, s.runtime, s.issuer, now);
    }

    /** The job of a claim, by its reservation or by a scan of the retained jobs. */
    method SourceJob(x: Trigger) returns (source: L.Source)
      ensures source == L.SourceJob(View(), x)
    {
      var reservation := L.OccurrenceById(occurrences, x.reservation);
      if reservation.Some? {
        var plan := L.RetainedPlan(reservation.value, jobs, archives);
        if plan.Some? && L.DelegationValid(plan.value, triggers, schedules) {
          return L.Found(plan.value);
        }
        return L.Ambiguous;
      }
      source := L.Missing;
      var rest := jobs.Keys;
      ghost var ids := L.SourceJobs(jobs, x.context);
      ghost var found: set<Id> := {};
      while rest != {}
        invariant rest <= jobs.Keys && found == ids - rest
        invariant source == if found == {} then L.Missing
                            else var id :| id in found; if found == {id} then L.Found(jobs[id]) else L.Ambiguous
        decreases rest
      {
        var id :| id in rest;
        rest := rest - {id};
        if jobs[id].context == Some(x.context) {
          if source != L.Missing {
            Several(ids, found, id);
            return L.Ambiguous;
          }
          source := L.Found(jobs[id]);
          found := found + {id};
        }
      }
      assert found == ids;
    }

    lemma Several(ids: set<Id>, found: set<Id>, id: Id)
      requires found != {} && id !in found && found + {id} <= ids
      ensures forall one :: ids != {one}
    {
    }

    method ResolvedClaim(x: Trigger) returns (over: bool)
      ensures over == L.ClaimResolved(View(), x)
    {
      if x.schedule !in schedules {
        return false;
      }
      var resolution := schedules[x.schedule].resolution;
      if resolution.Some? && resolution.value.trigger == x.id {
        return true;
      }
      var source := SourceJob(x);
      if !source.Found? {
        return false;
      }
      over := Resolved(source.plan)
              && (L.OccurrenceById(occurrences, x.reservation).Some? || (source.plan.approval.None? && source.plan.execution.None?));
    }

    /** No schedule of the definition is active and every claim under it is resolved. */
    method Unoccupied(definition: Id) returns (free: bool)
      ensures free == L.NoOverlap(View(), definition)
    {
      var rest := schedules.Keys;
      while rest != {}
        invariant rest <= schedules.Keys
        invariant forall id | id in schedules.Keys - rest :: schedules[id].definition == definition ==> !schedules[id].Active()
        decreases rest
      {
        var id :| id in rest;
        if schedules[id].definition == definition && schedules[id].Active() {
          return false;
        }
        rest := rest - {id};
      }
      for i := 0 to |triggers|
        invariant forall k | 0 <= k < i ::
          triggers[k].schedule in schedules && schedules[triggers[k].schedule].definition == definition ==>
            L.ClaimResolved(View(), triggers[k])
      {
        if triggers[i].schedule in schedules && schedules[triggers[i].schedule].definition == definition {
          var over := ResolvedClaim(triggers[i]);
          if !over {
            return false;
          }
        }
      }
      return true;
    }

    // ---------------------------------------------------------------- schedules

    /** Validates and writes one schedule; false, and no write, when it is not valid. */
    method Save(s: Schedule) returns (saved: bool)
      modifies this`schedules
      ensures saved == L.Save(old(View()), s).Done?
      ensures View() == if saved then L.Save(old(View()), s).tables else old(View())
    {
      saved := s.revision < U64_LIMIT && L.ScheduleOk(s, s.Id(), policies, definitions);
      if saved {
        schedules := schedules[s.Id() := s];
      }
    }

    method ArmSchedule(command: Arm, runtime: Id, issuer: int, now: nat, commit: nat, room: bool) returns (result: Option<(Schedule, bool)>)
      modifies this
      ensures Outcome(old(View()), L.ArmSchedule(old(View()), command, runtime, issuer, now, commit, room), result, View())
    {
      var valid := Validated();
      if command.operation == NIL || command.policy == NIL || runtime == NIL || command.operation == command.policy || !valid {
        return None;
      }
      if command.operation in schedules {
        var kept := schedules[command.operation];
        return if kept.creation == command then Some((kept, true)) else None;
      }
      if command.policy !in policies || policies[command.policy].creation.definition !in definitions {
        return None;
      }
      var p := policies[command.policy];
      result := ArmStage(command, p, definitions[p.creation.definition], runtime, issuer, now, commit, room);
    }

    method ArmStage(command: Arm, p: Policy, d: Definition, runtime: Id, issuer: int, now: nat, commit: nat, room: bool)
      returns (result: Option<(Schedule, bool)>)
      modifies this
      ensures Outcome(old(View()), L.ArmStage(old(View()), command, p, d, runtime, issuer, now, commit, room), result, View())
    {
      var due := now + d.creation.every;
      var s := L.NewSchedule(command, p, d, runtime, issuer, now);
      var current := IsCurrent(s, runtime, issuer, now);
      if due >= U64_LIMIT || command.policySha != p.sha || !current || AllowanceMs(p) > SaturatingSub(p.expiresAt, due) {
        return None;
      }
      var free := Unoccupied(p.creation.definition);
      var resolved := DefinitionGate(View(), p.creation.definition);
      if !free || resolved != Some(true) {
        return None;
      }
      var available := AllowanceFrom(occurrences, p);
      if !available || !room || !L.ScheduleOk(s, s.Id(), policies, definitions) {
        return None;
      }
      var armed := InsertFenced(s, runtime, issuer, now, commit, AllowanceMs(p) <= SaturatingSub(p.expiresAt, Max(due, commit)));
      return if armed then Some((s, false)) else None;
    }

    /** Inserts a schedule, fenced by a second clock reading under which authority and time must still hold. */
    method InsertFenced(s: Schedule, runtime: Id, issuer: int, now: nat, commit: nat, timely: bool) returns (ok: bool)
      modifies this
      ensures ok == (now <= commit && timely && L.Current(s, old(policies), old(definitions), runtime, issuer, commit))
      ensures View() == if ok then old(View()).(schedules := old(schedules)[s.Id() := s]) else old(View())
    {
      var before := View();
      schedules := schedules[s.Id() := s];
      var current := IsCurrent(s, runtime, issuer, commit);
      ok := now <= commit && timely && current;
      if !ok {
        Rollback(before);
      }
    }

    /** Interrupts or exhausts a due schedule, or claims its next run in one transaction. */
    method ClaimDue(id: Id, runtime: Id, issuer: int, now: nat, commit: nat, ids: L.FreshIds, room: bool)
      returns (result: Option<Option<Trigger>>)
      requires L.Generated(View(), ids)
      modifies this
      ensures Outcome(old(View()), L.ClaimDue(old(View()), id, runtime, issuer, now, commit, ids, room), result, View())
    {
      var valid := Validated();
      if !valid || id !in schedules {
        return None;
      }
      var s := schedules[id];
      if s.state != Waiting || s.nextDue.None? {
        return Some(None);
      }
      var due := s.nextDue.value;
      var current := IsCurrent(s, runtime, issuer, now);
      var fault := if now < s.observedAt then Some(BackwardClock)
                   else if !current then Some(PolicyChanged)
                   else if now >= SaturatingAdd(due, s.every) then Some(MissedTrigger) else None;
      DueSteps(View(), id, runtime, issuer, now, commit, ids, room);
      if fault.Some? {
        var saved := Save(L.InterruptedAt(s, fault.value, now));
        return if saved then Some(None) else None;
      }
      if now < due {
        return Some(None);
      }
      result := ClaimWithin(s, runtime, issuer, now, commit, ids, room);
    }

    method ClaimWithin(s: Schedule, runtime: Id, issuer: int, now: nat, commit: nat, ids: L.FreshIds, room: bool)
      returns (result: Option<Option<Trigger>>)
      requires L.Generated(View(), ids) && s.nextDue.Some?
      modifies this
      ensures Outcome(old(View()), L.ClaimWithin(old(View()), s, runtime, issuer, now, commit, ids, room), result, View())
    {
      if s.creation.policy !in policies {
        return None;
      }
      var p := policies[s.creation.policy];
      var admission := TriggerAdmission(View(), s.definition, p);
      if admission.None? || !admission.value.0 {
        return None;
      }
      var available := admission.value.1;
      if s.claimed >= p.creation.maxRuns || !available || AllowanceMs(p) > SaturatingSub(s.expiresAt, now) {
        var saved := Save(L.ExhaustedAt(s, p, available, now));
        return if saved then Some(None) else None;
      }
      result := StageClaim(s, p, runtime, issuer, now, commit, ids, room);
    }

    method StageClaim(s: Schedule, p: Policy, runtime: Id, issuer: int, now: nat, commit: nat, ids: L.FreshIds, room: bool)
      returns (result: Option<Option<Trigger>>)
      requires L.Generated(View(), ids) && s.nextDue.Some?
      modifies this
      ensures Outcome(old(View()), L.StageClaim(old(View()), s, p, runtime, issuer, now, commit, ids, room), result, View())
    {
      var before := View();
      StageCommits(before, s, p, runtime, issuer, now, commit, ids, room);
      var due := s.nextDue.value;
      var x := L.NewTrigger(s, p, ids, due, now);
      var claimed := L.ClaimedAt(s, x.id, now);
      var saved := Save(claimed);
      if !saved || !room {
        Rollback(before);
        return None;
      }
      triggers := triggers + [x];
      var valid := Validated();
      var current := IsCurrent(claimed, runtime, issuer, commit);
      if !valid || commit < now || commit >= SaturatingAdd(due, s.every) || !current
         || AllowanceMs(p) > SaturatingSub(s.expiresAt, commit) {
        Rollback(before);
        return None;
      }
      return Some(Some(x));
    }

    method BeginLaunch(id: Id, runtime: Id, now: nat, commit: nat) returns (result: Option<bool>)
      modifies this
      ensures Outcome(old(View()), L.BeginLaunch(old(View()), id, runtime, now, commit), result, View())
    {
      var valid := Validated();
      if !valid || L.TriggerById(triggers, id).None? {
        return None;
      }
      var x := L.TriggerById(triggers, id).value;
      var s := schedules[x.schedule];
      if s.runtime != runtime || !s.Holds(id) {
        return None;
      }
      if s.launchedAt.Some? {
        return Some(false);
      }
      var source := SourceJob(x);
      var current := IsCurrent(s, runtime, s.issuer, now);
      if source != L.Missing || now < s.observedAt || !current {
        return None;
      }
      var marked := SaveFenced(L.Advanced(s, now).(launchedAt := Some(now)), s, runtime, now, commit);
      return if marked then Some(true) else None;
    }

    /** Saves a schedule, and takes the save back unless authority still holds at a second clock reading. */
    method SaveFenced(s': Schedule, s: Schedule, runtime: Id, now: nat, commit: nat) returns (ok: bool)
      modifies this
      ensures ok == (L.Save(old(View()), s').Done? && now <= commit
                     && L.Current(s, old(policies), old(definitions), runtime, s.issuer, commit))
      ensures View() == if ok then L.Save(old(View()), s').tables else old(View())
    {
      var before := View();
      ok := Save(s');
      var current := IsCurrent(s, runtime, s.issuer, commit);
      if !ok || commit < now || !current {
        Rollback(before);
        return false;
      }
    }

    method RecordRefusal(id: Id, runtime: Id, now: nat, sha: int) returns (result: Option<bool>)
      modifies this
      ensures Outcome(old(View()), L.RecordRefusal(old(View()), id, runtime, now, sha), result, View())
    {
      var valid := Validated();
      if !valid || L.TriggerById(triggers, id).None? {
        return None;
      }
      var x := L.TriggerById(triggers, id).value;
      var s := schedules[x.schedule];
      if s.refusal.Some? {
        return Some(true);
      }
      if s.runtime != runtime || !s.Holds(id) || s.launchedAt.Some? {
        return Some(false);
      }
      var source := SourceJob(x);
      if source != L.Missing {
        return if source.Found? then Some(false) else None;
      }
      var before := View();
      var saved := Save(L.RefusedAt(s, x, now, sha));
      valid := Validated();
      if !saved || !valid {
        Rollback(before);
        return None;
      }
      return Some(true);
    }

    method ResolveRefusal(id: Id, revision: nat, trigger: Id, hash: int, operation: Id, now: nat)
      returns (result: Option<(Schedule, bool)>)
      modifies this
      ensures Outcome(old(View()), L.ResolveRefusal(old(View()), id, revision, trigger, hash, operation, now), result, View())
    {
      var valid := Validated();
      if operation == NIL || trigger == NIL || !valid || id !in schedules {
        return None;
      }
      var s := schedules[id];
      if s.resolution.Some? {
        var kept := s.resolution.value;
        return if kept == Resolution(operation, revision, trigger, hash, kept.resolvedAt) then Some((s, true)) else None;
      }
      if s.refusal.None? || s.revision != revision || s.state !in {Interrupted, Stopped}
         || s.refusal.value.trigger != trigger || s.refusal.value.sha != hash
         || operation == s.Id() || operation == s.creation.policy || L.TriggerOwns(triggers, operation) {
        return None;
      }
      var before := View();
      s := L.ResolvedBy(s, operation, trigger, hash, now);
      var saved := Save(s);
      valid := Validated();
      if !saved || !valid {
        Rollback(before);
        return None;
      }
      return Some((s, false));
    }

    method InterruptSchedule(id: Id, reason: Reason, now: nat) returns (result: Option<Schedule>)
      modifies this
      ensures Outcome(old(View()), L.InterruptSchedule(old(View()), id, reason, now), result, View())
    {
      var valid := Validated();
      if !valid || id !in schedules {
        return None;
      }
      var s := schedules[id];
      if s.Active() {
        s := L.InterruptedAt(s, reason, now);
        var saved := Save(s);
        return if saved then Some(s) else None;
      }
      return Some(s);
    }

    method InterruptTrigger(id: Id, reason: Reason, now: nat) returns (result: Option<Schedule>)
      modifies this
      ensures Outcome(old(View()), L.InterruptTrigger(old(View()), id, reason, now), result, View())
    {
      var valid := Validated();
      if !valid || L.TriggerById(triggers, id).None? {
        return None;
      }
      var s := schedules[L.TriggerById(triggers, id).value.schedule];
      if s.Holds(id) {
        s := L.InterruptedAt(s, reason, now);
        var saved := Save(s);
        return if saved then Some(s) else None;
      }
      return Some(s);
    }

    method StopSchedule(id: Id, revision: nat, operation: Id, now: nat) returns (result: Option<(Schedule, bool)>)
      modifies this
      ensures Outcome(old(View()), L.StopSchedule(old(View()), id, revision, operation, now), result, View())
    {
      var valid := Validated();
      if operation == NIL || !valid || id !in schedules {
        return None;
      }
      var s := schedules[id];
      var stop := Receipt(operation, revision);
      if s.stop.Some? {
        return if s.stop.value == stop then Some((s, true)) else None;
      }
      if revision != s.revision || operation == id || operation == s.creation.policy || L.TriggerOwns(triggers, operation) {
        return None;
      }
      s := L.StoppedBy(s, stop, now);
      var saved := Save(s);
      return if saved then Some((s, false)) else None;
    }

    method SettleSchedule(id: Id, runtime: Id, issuer: int, now: nat) returns (result: Option<Schedule>)
      modifies this
      ensures Outcome(old(View()), L.SettleSchedule(old(View()), id, runtime, issuer, now), result, View())
    {
      var valid := Validated();
      if !valid || id !in schedules || schedules[id].state != InFlight {
        return None;
      }
      var s := schedules[id];
      var x := L.TriggerById(triggers, s.active.value);
      if x.None? {
        return None;
      }
      var over := ResolvedClaim(x.value);
      if !over {
        return None;
      }
      var next := Settling(s, runtime, issuer, now);
      if next.None? {
        return None;
      }
      var saved := Save(next.value);
      return if saved then Some(next.value) else None;
    }

    method Settling(s: Schedule, runtime: Id, issuer: int, now: nat) returns (next: Option<Schedule>)
      ensures next == L.Settling(View(), s, runtime, issuer, now)
    {
      if now < s.observedAt {
        return Some(L.InterruptedAt(s, BackwardClock, now));
      }
      var current := IsCurrent(s, runtime, issuer, now);
      if !current {
        return Some(L.InterruptedAt(s, PolicyChanged, now));
      }
      var p := policies[s.creation.policy];
      var gate := AllowanceGate(View(), p);
      if now + s.every >= U64_LIMIT || gate.None? {
        return None;
      }
      var available := gate.value;
      if s.claimed >= p.creation.maxRuns || !available || AllowanceMs(p) > SaturatingSub(s.expiresAt, now + s.every) {
        return Some(L.ExhaustedAt(s.(active := None, launchedAt := None), p, available, now));
      }
      return Some(L.Rearmed(s, now));
    }

    /** Opening the journal: one pass interrupts what the previous process left active, all or none. */
    method Reopen(clock: Id -> nat) returns (result: Option<()>)
      modifies this
      ensures Outcome(old(View()), L.Reopen(old(View()), clock), result, View())
    {
      if !L.SchedulesOk(schedules, policies, definitions) {
        return None;
      }
      var before := View();
      var restarted := RestartAll(clock);
      if !restarted {
        return None;
      }
      var valid := Validated();
      if !valid {
        Rollback(before);
        return None;
      }
      return Some(());
    }

    method RestartAll(clock: Id -> nat) returns (ok: bool)
      modifies this
      ensures var t := old(View());
              && ok == (forall id | id in t.schedules && t.schedules[id].Active() :: t.schedules[id].revision + 1 < U64_LIMIT)
              && View() == if ok then t.(schedules := map id | id in t.schedules :: L.RestartedAt(t.schedules[id], clock(id))) else t
    {
      var t := View();
      var rest := t.schedules.Keys;
      while rest != {}
        invariant rest <= schedules.Keys == t.schedules.Keys
        invariant View() == t.(schedules := schedules)
        invariant forall id | id in schedules :: schedules[id] ==
                    if id in rest then t.schedules[id] else L.RestartedAt(t.schedules[id], clock(id))
        invariant forall id | id in schedules && id !in rest && t.schedules[id].Active() :: t.schedules[id].revision + 1 < U64_LIMIT
        decreases rest
      {
        var id :| id in rest;
        rest := rest - {id};
        if schedules[id].Active() {
          if schedules[id].revision + 1 >= U64_LIMIT {
            Rollback(t);
            return false;
          }
          schedules := schedules[id := L.InterruptedAt(schedules[id], Restart, clock(id))];
        }
      }
      assert schedules == map id | id in t.schedules :: L.RestartedAt(t.schedules[id], clock(id));
      return true;
    }

    // ---------------------------------------------------------------- jobs

    method InsertJob(plan: Plan, now: nat, room: bool) returns (result: Option<Plan>)
      modifies this
      ensures Outcome(old(View()), L.InsertJob(old(View()), plan, now, room), result, View())
    {
      if plan.context.Some? {
        var authority := MaySource(plan.context.value, now);
        if !authority {
          return None;
        }
      }
      if !FreshPlan(plan) || plan.id in jobs || L.ArchivedJob(archives, plan.id) || !room {
        return None;
      }
      var saved := plan.(revision := 1, updatedAt := now);
      jobs := jobs[plan.id := saved];
      return Some(saved);
    }

    /** A request is admitted once: a retained job is returned, an archived request refused. */
    method AdmitRequest(plan: Plan, same: bool, now: nat, room: bool) returns (result: Option<(Plan, bool)>)
      modifies this
      ensures Outcome(old(View()), L.AdmitRequest(old(View()), plan, same, now, room), result, View())
    {
      if !FreshPlan(plan) || plan.context.None? || !L.ArchivesOk(View())
         || L.ArchivedRequest(archives, plan.context.value) {
        return None;
      }
      ghost var ids := L.SameRequestJobs(jobs, plan.context.value);
      var found: set<Id> := {};
      var rest := jobs.Keys;
      while rest != {}
        invariant rest <= jobs.Keys && found == ids - rest
        decreases rest
      {
        var id :| id in rest;
        rest := rest - {id};
        if L.SameRequest(jobs[id], plan.context.value) {
          found := found + {id};
        }
      }
      assert found == ids;
      if found != {} {
        var id :| id in found;
        return if found == {id} && same then Some((jobs[id], true)) else None;
      }
      var inserted := InsertJob(plan, now, room);
      return if inserted.Some? then Some((inserted.value, false)) else None;
    }

    /** The fence on issuing a delegated job's work. */
    method MayIssue(plan: Plan, runtime: Id, issuer: int, now: nat) returns (ok: bool)
      ensures ok == L.FencePasses(View(), plan, runtime, issuer, now)
    {
      if DelegationOf(plan).None? {
        return true;
      }
      var d := DelegationOf(plan).value;
      var checked := Checked();
      if !checked || d.policy !in policies || d.definition !in definitions {
        return false;
      }
      var r := L.OccurrenceById(occurrences, d.reservation);
      var current := PolicyCurrent(policies[d.policy], definitions[d.definition], runtime, issuer, now);
      if !current || r.None? || !LiveMatches(r.value, plan) || !L.DelegationValid(plan, triggers, schedules) {
        return false;
      }
      if d.link.None? {
        return true;
      }
      if d.link.value.schedule !in schedules {
        return false;
      }
      var s := schedules[d.link.value.schedule];
      return s.Holds(d.link.value.trigger) && s.runtime == runtime && s.observedAt <= now < s.expiresAt;
    }

    method MayEdit(plan: Plan, edited: Plan, gate: Option<L.Gate>, now: nat) returns (ok: bool)
      ensures ok == L.EditAuthorised(View(), plan, edited, gate, now)
    {
      ok := true;
      if gate.Some? {
        ok := MayIssue(plan, gate.value.runtime, gate.value.issuer, now);
      }
      if ok && plan.planning.None? && edited.planning.Some? && edited.context.Some? {
        ok := MaySource(edited.context.value, now);
      }
    }

    method EditJob(id: Id, edited: Plan, gate: Option<L.Gate>, now: nat, room: bool) returns (result: Option<Plan>)
      modifies this
      ensures Outcome(old(View()), L.EditJob(old(View()), id, edited, gate, now, room), result, View())
    {
      var t := View();
      if id !in t.jobs || !L.JobOk(t.jobs[id], id, t) || !L.Editable(t.jobs[id], edited) || t.jobs[id].revision + 1 >= U64_LIMIT {
        return None;
      }
      var authorised := MayEdit(t.jobs[id], edited, gate, now);
      EditCommits(t, id, edited, gate, now, room);
      var saved := edited.(revision := t.jobs[id].revision + 1);
      if !authorised || !L.JobOk(saved, id, t) || !room {
        return None;
      }
      jobs := jobs[id := saved];
      return Some(saved);
    }

    method RemoveFinished(id: Id) returns (result: Option<()>)
      modifies this
      ensures Outcome(old(View()), L.RemoveFinished(old(View()), id), result, View())
    {
      if id !in jobs || !L.JobOk(jobs[id], id, View())
         || (jobs[id].context.Some? && L.TriggerByRequest(triggers, jobs[id].context.value.request).Some?)
         || L.OccurrenceByJob(occurrences, id).Some? || !Finished(jobs[id]) {
        return None;
      }
      jobs := jobs - {id};
      return Some(());
    }

    // ---------------------------------------------------------------- reservations and archives

    /** Approves the job and inserts its reservation in one transaction. */
    method ReserveRun(command: Reserve, runtime: Id, issuer: int, now: nat, commit: nat, stamped: nat, sha: int, room: bool)
      returns (result: Option<(Reservation, bool)>)
      modifies this
      ensures Outcome(old(View()), L.ReserveRun(old(View()), command, runtime, issuer, now, commit, stamped, sha, room), result, View())
    {
      var checked := Checked();
      if !ValidReserve(command) || runtime == NIL || !checked {
        return None;
      }
      var kept := L.OccurrenceById(occurrences, command.operation);
      if kept.Some? {
        return if kept.value.command == command then Some((kept.value, true)) else None;
      }
      if command.policy !in policies || command.job !in jobs
         || policies[command.policy].creation.definition !in definitions
         || !L.JobOk(jobs[command.job], command.job, View()) {
        return None;
      }
      var p := policies[command.policy];
      var d := definitions[p.creation.definition];
      var plan := jobs[command.job];
      var reservable := MayReserve(command, p, d, plan, runtime, issuer, now);
      if !reservable {
        return None;
      }
      result := StageRun(command, p, d, plan, runtime, issuer, now, commit, stamped, sha, room);
    }

    /** Everything a reservation checks before it stages its two writes. */
    method MayReserve(command: Reserve, p: Policy, d: Definition, plan: Plan, runtime: Id, issuer: int, now: nat) returns (ok: bool)
      requires L.OccurrencesOk(View())
      ensures ok == L.Reservable(View(), command, p, d, plan, runtime, issuer, now)
    {
      var current := PolicyCurrent(p, d, runtime, issuer, now);
      if !current || p.sha != command.policySha {
        return false;
      }
      var resolved := DefinitionGate(View(), p.creation.definition);
      var available := AllowanceFrom(occurrences, p);
      return resolved == Some(true) && available
             && plan.revision == command.revision && plan.status == AwaitingApproval
             && plan.approval.None? && plan.execution.None?
             && plan.planning.Some? && plan.planning.value.sha == command.planSha
             && MatchingScope(plan, p) && command.job != d.creation.job
             && L.OccurrenceByJob(occurrences, command.job).None?
             && AllowanceMs(p) <= p.expiresAt - now
             && L.ReservationLink(View(), plan, p, command.operation, now).Some?;
    }

    method StageRun(command: Reserve, p: Policy, d: Definition, plan: Plan,
                    runtime: Id, issuer: int, now: nat, commit: nat, stamped: nat, sha: int, room: bool)
      returns (result: Option<(Reservation, bool)>)
      requires L.ReservationLink(View(), plan, p, command.operation, now).Some?
      modifies this
      ensures Outcome(old(View()), L.StageRun(old(View()), command, p, d, plan, runtime, issuer, now, commit, stamped, sha, room), result, View())
    {
      var r := NewRun(command, p, plan, runtime, issuer, now, stamped, sha);
      RunStages(View(), command, p, d, plan, runtime, issuer, now, commit, stamped, sha, room, r);
      if !L.OccurrenceOk(r, View()) || !room {
        return None;
      }
      var committed := WriteRun(r, p, d, runtime, issuer, commit);
      return if committed then Some((r, false)) else None;
    }

    /** Approves the job and inserts its reservation, or neither. */
    method WriteRun(r: Reservation, p: Policy, d: Definition, runtime: Id, issuer: int, commit: nat) returns (ok: bool)
      modifies this
      ensures var t' := old(View()).(jobs := old(jobs)[r.command.job := r.snapshot], occurrences := old(occurrences) + [r]);
              && ok == L.RunCommits(t', r, p, d, runtime, issuer, commit)
              && View() == if ok then t' else old(View())
    {
      var before := View();
      jobs := jobs[r.command.job := r.snapshot];
      occurrences := occurrences + [r];
      ok := MayCommit(r, p, d, runtime, issuer, commit);
      if !ok {
        Rollback(before);
      }
    }

    /** The staged writes still fit the whole ledger, and authority still holds at commit. */
    method MayCommit(r: Reservation, p: Policy, d: Definition, runtime: Id, issuer: int, commit: nat) returns (ok: bool)
      ensures ok == L.RunCommits(View(), r, p, d, runtime, issuer, commit)
    {
      var checked := Checked();
      var current := PolicyCurrent(p, d, runtime, issuer, commit);
      return checked && current && L.JobOk(r.snapshot, r.command.job, View())
             && r.reservedAt <= commit && AllowanceMs(p) <= SaturatingSub(p.expiresAt, commit);
    }

    method NewRun(command: Reserve, p: Policy, plan: Plan, runtime: Id, issuer: int, now: nat, stamped: nat, sha: int)
      returns (r: Reservation)
      requires L.ReservationLink(View(), plan, p, command.operation, now).Some?
      ensures r == L.NewRun(View(), command, p, plan, runtime, issuer, now, stamped, sha)
    {
      var link := L.ReservationLink(View(), plan, p, command.operation, now).value;
      var approved := L.Reserved(plan, command, p, issuer, runtime, link, now, stamped);
      var runs, _, _ := Totals(occurrences, command.policy);
      r := Reservation(command, approved.approval.value.delegation.value, runs + 1, now,
                       AllowanceMs(p), AllowanceBytes(p), approved, sha);
    }

    /** Replaces a resolved live job by its archived evidence in one transaction. */
    method ArchiveRun(command: ArchiveCommand, runtime: Id, now: nat, commit: nat, room: bool)
      returns (result: Option<(Archive, bool)>)
      modifies this
      ensures Outcome(old(View()), L.ArchiveRun(old(View()), command, runtime, now, commit, room), result, View())
    {
      var checked := Checked();
      if !ValidArchiveCommand(command) || runtime == NIL || !checked {
        return None;
      }
      var kept := L.ArchiveById(archives, command.operation);
      if kept.Some? {
        return if kept.value.command == command then Some((kept.value, true)) else None;
      }
      if !L.Archivable(View(), command) {
        return None;
      }
      var a := Archive(command, runtime, now, jobs[command.job]);
      var replaced := ReplaceJob(a, room && now <= commit);
      return if replaced then Some((a, false)) else None;
    }

    /** Inserts the archive and deletes its job, and takes both back unless the whole ledger still checks. */
    method ReplaceJob(a: Archive, allowed: bool) returns (ok: bool)
      modifies this
      ensures var staged := old(View()).(jobs := old(jobs) - {a.command.job}, archives := old(archives) + [a]);
              && ok == (allowed && L.OccurrencesOk(staged))
              && View() == if ok then staged else old(View())
    {
      var before := View();
      archives := archives + [a];
      jobs := jobs - {a.command.job};
      var checked := Checked();
      ok := allowed && checked;
      if !ok {
        Rollback(before);
      }
    }

    // ---------------------------------------------------------------- definitions and policies

    method DefineAutomation(command: Define, now: nat, sha: int, room: bool) returns (result: Option<(Definition, bool)>)
      modifies this
      ensures Outcome(old(View()), L.DefineAutomation(old(View()), command, now, sha, room), result, View())
    {
      if !ValidDefine(command) {
        return None;
      }
      if command.operation in definitions {
        var kept := definitions[command.operation];
        return if L.ReadableDefinition(View(), command.operation) && kept.creation == command then Some((kept, true)) else None;
      }
      if command.job !in jobs || !L.JobOk(jobs[command.job], command.job, View()) {
        return None;
      }
      var plan := jobs[command.job];
      if plan.context.None? || !DefinableFrom(command, plan) || now == 0 || !room {
        return None;
      }
      var d := Definition(command.operation, plan.context.value, now, command, sha, plan, None);
      definitions := definitions[d.id := d];
      return Some((d, false));
    }

    method RemoveDefinition(id: Id, revision: nat, operation: Id) returns (result: Option<(Definition, bool)>)
      modifies this
      ensures Outcome(old(View()), L.RemoveDefinition(old(View()), id, revision, operation), result, View())
    {
      if !L.ReadableDefinition(View(), id) || operation == NIL {
        return None;
      }
      var d := definitions[id];
      if d.removal.Some? {
        return if d.removal.value == Receipt(operation, revision) then Some((d, true)) else None;
      }
      if revision != 1 || operation == id {
        return None;
      }
      d := d.(removal := Some(Receipt(operation, revision)));
      definitions := definitions[id := d];
      return Some((d, false));
    }

    method ApprovePolicy(candidate: Policy, runtime: Id, now: nat, room: bool) returns (result: Option<(Policy, bool)>)
      modifies this
      ensures Outcome(old(View()), L.ApprovePolicy(old(View()), candidate, runtime, now, room), result, View())
    {
      var command := candidate.creation;
      var index := ReadPolicies(View());
      if !ValidApprove(command) || runtime == NIL || index.None? {
        return None;
      }
      if command.operation in policies {
        var kept := policies[command.operation];
        return if kept.creation == command then Some((kept, true)) else None;
      }
      if command.definition !in definitions {
        return None;
      }
      var d := definitions[command.definition];
      var latest := IsLatest(policies, command.definition, command.generation);
      if !ValidDefinition(d) || d.id != command.definition || d.removal.Some? || !latest
         || candidate.runtime != runtime || candidate.revocation.Some?
         || !(candidate.approvedAt <= now < candidate.expiresAt)
         || !ValidPolicy(candidate) || !PolicyFits(candidate, d) || !room {
        return None;
      }
      policies := policies[candidate.id := candidate];
      return Some((candidate, false));
    }

    method RevokePolicy(id: Id, revision: nat, operation: Id, now: nat) returns (result: Option<(Policy, bool)>)
      modifies this
      ensures Outcome(old(View()), L.RevokePolicy(old(View()), id, revision, operation, now), result, View())
    {
      var index := ReadPolicies(View());
      if operation == NIL || index.None? || id !in policies {
        return None;
      }
      var p := policies[id];
      if p.revocation.Some? {
        return if p.revocation.value == Receipt(operation, revision) then Some((p, true)) else None;
      }
      if revision != 1 || operation == id || now == 0 {
        return None;
      }
      p := p.(revocation := Some(Receipt(operation, revision)));
      policies := policies[id := p];
      return Some((p, false));
    }

    // ---------------------------------------------------------------- one checkpoint of a run

    /** The checkpoints that admit, launch, refuse or settle a run. */
    method PerformTrigger(e: Event)
      requires e.ArmEvent? || e.ClaimEvent? || e.LaunchEvent? || e.RefuseEvent? || e.SettleEvent?
      requires e.ClaimEvent? ==> L.Generated(View(), e.ids)
      modifies this
      ensures View() == Apply(old(View()), e)
    {
      ghost var before := View();
      match e
      case ArmEvent(c, runtime, issuer, now, commit, room) =>
        var result := ArmSchedule(c, runtime, issuer, now, commit, room);
        ArmApplies(before, e);
        Performed(before, e, L.ArmSchedule(before, c, runtime, issuer, now, commit, room), result, View());
      case ClaimEvent(id, runtime, issuer, now, commit, ids, room) =>
        var result := ClaimDue(id, runtime, issuer, now, commit, ids, room);
        ClaimApplies(before, e);
        Performed(before, e, L.ClaimDue(before, id, runtime, issuer, now, commit, ids, room), result, View());
      case LaunchEvent(id, runtime, now, commit) =>
        var result := BeginLaunch(id, runtime, now, commit);
        LaunchApplies(before, e);
        Performed(before, e, L.BeginLaunch(before, id, runtime, now, commit), result, View());
      case RefuseEvent(id, runtime, now, sha) =>
        var result := RecordRefusal(id, runtime, now, sha);
        RefuseApplies(before, e);
        Performed(before, e, L.RecordRefusal(before, id, runtime, now, sha), result, View());
      case SettleEvent(id, runtime, issuer, now) =>
        var result := SettleSchedule(id, runtime, issuer, now);
        SettleApplies(before, e);
        Performed(before, e, L.SettleSchedule(before, id, runtime, issuer, now), result, View());
    }

    /** The checkpoints that stop, interrupt or resolve. */
    method PerformRelease(e: Event)
      requires e.ResolveEvent? || e.InterruptScheduleEvent? || e.InterruptTriggerEvent? || e.StopEvent? || e.ReopenEvent?
      modifies this
      ensures View() == Apply(old(View()), e)
    {
      ghost var before := View();
      match e
      case ResolveEvent(id, revision, x, hash, op, now) =>
        var result := ResolveRefusal(id, revision, x, hash, op, now);
        ResolveApplies(before, e);
        Performed(before, e, L.ResolveRefusal(before, id, revision, x, hash, op, now), result, View());
      case InterruptScheduleEvent(id, reason, now) =>
        var result := InterruptSchedule(id, reason, now);
        InterruptScheduleApplies(before, e);
        Performed(before, e, L.InterruptSchedule(before, id, reason, now), result, View());
      case InterruptTriggerEvent(id, reason, now) =>
        var result := InterruptTrigger(id, reason, now);
        InterruptTriggerApplies(before, e);
        Performed(before, e, L.InterruptTrigger(before, id, reason, now), result, View());
      case StopEvent(id, revision, op, now) =>
        var result := StopSchedule(id, revision, op, now);
        StopApplies(before, e);
        Performed(before, e, L.StopSchedule(before, id, revision, op, now), result, View());
      case ReopenEvent(clock) =>
        var result := Reopen(clock);
        ReopenApplies(before, e);
        Performed(before, e, L.Reopen(before, clock), result, View());
    }

    /** Every checkpoint of the journal is the step of the ledger that its event names. */
    method Perform(e: Event)
      requires e.ClaimEvent? ==> L.Generated(View(), e.ids)
      modifies this
      ensures View() == Apply(old(View()), e)
    {
      if e.ArmEvent? || e.ClaimEvent? || e.LaunchEvent? || e.RefuseEvent? || e.SettleEvent? {
        PerformTrigger(e);
      } else if e.ResolveEvent? || e.InterruptScheduleEvent? || e.InterruptTriggerEvent? || e.StopEvent? || e.ReopenEvent? {
        PerformRelease(e);
      } else if e.DefineEvent? || e.RemoveDefinitionEvent? || e.ApproveEvent? || e.RevokeEvent? {
        PerformGrant(e);
      } else if e.ReserveEvent? || e.ArchiveEvent? {
        PerformRun(e);
      } else {
        PerformJob(e);
      }
    }

    /** The checkpoints on jobs. */
    method PerformJob(e: Event)
      requires e.InsertEvent? || e.AdmitEvent? || e.EditEvent? || e.RemoveJobEvent?
      modifies this
      ensures View() == Apply(old(View()), e)
    {
      ghost var before := View();
      match e
      case InsertEvent(p, now, room) =>
        var result := InsertJob(p, now, room);
        InsertApplies(before, e);
        Performed(before, e, L.InsertJob(before, p, now, room), result, View());
      case AdmitEvent(p, same, now, room) =>
        var result := AdmitRequest(p, same, now, room);
        AdmitApplies(before, e);
        Performed(before, e, L.AdmitRequest(before, p, same, now, room), result, View());
      case EditEvent(id, p, gate, now, room) =>
        var result := EditJob(id, p, gate, now, room);
        EditApplies(before, e);
        Performed(before, e, L.EditJob(before, id, p, gate, now, room), result, View());
      case RemoveJobEvent(id) =>
        var result := RemoveFinished(id);
        RemoveJobApplies(before, e);
        Performed(before, e, L.RemoveFinished(before, id), result, View());
    }

    /** The checkpoints on reservations and their archives. */
    method PerformRun(e: Event)
      requires e.ReserveEvent? || e.ArchiveEvent?
      modifies this
      ensures View() == Apply(old(View()), e)
    {
      ghost var before := View();
      match e
      case ReserveEvent(c, runtime, issuer, now, commit, stamped, sha, room) =>
        var result := ReserveRun(c, runtime, issuer, now, commit, stamped, sha, room);
        ReserveApplies(before, e);
        Performed(before, e, L.ReserveRun(before, c, runtime, issuer, now, commit, stamped, sha, room), result, View());
      case ArchiveEvent(c, runtime, now, commit, room) =>
        var result := ArchiveRun(c, runtime, now, commit, room);
        ArchiveApplies(before, e);
        Performed(before, e, L.ArchiveRun(before, c, runtime, now, commit, room), result, View());
    }

    /** The checkpoints on definitions and policies. */
    method PerformGrant(e: Event)
      requires e.DefineEvent? || e.RemoveDefinitionEvent? || e.ApproveEvent? || e.RevokeEvent?
      modifies this
      ensures View() == Apply(old(View()), e)
    {
      ghost var before := View();
      match e
      case DefineEvent(c, now, sha, room) =>
        var result := DefineAutomation(c, now, sha, room);
        DefineApplies(before, e);
        Performed(before, e, L.DefineAutomation(before, c, now, sha, room), result, View());
      case RemoveDefinitionEvent(id, revision, op) =>
        var result := RemoveDefinition(id, revision, op);
        RemoveDefinitionApplies(before, e);
        Performed(before, e, L.RemoveDefinition(before, id, revision, op), result, View());
      case ApproveEvent(p, runtime, now, room) =>
        var result := ApprovePolicy(p, runtime, now, room);
        ApproveApplies(before, e);
        Performed(before, e, L.ApprovePolicy(before, p, runtime, now, room), result, View());
      case RevokeEvent(id, revision, op, now) =>
        var result := RevokePolicy(id, revision, op, now);
        RevokeApplies(before, e);
        Performed(before, e, L.RevokePolicy(before, id, revision, op, now), result, View());
    }
  }
}
