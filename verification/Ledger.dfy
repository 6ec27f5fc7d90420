/**
 The automation ledger: seven linked tables, the checks the journal runs over them, and the
 effect of every checkpoint as a function of the tables and the values the checkpoint reads.

 Jobs, definitions, policies and schedules are updated in place and are maps; triggers,
 reservations and archives are only ever inserted and are logs in insertion order.
 */
module Ledger {
  import opened Prelude
  import opened Records

  datatype Tables = Tables(
    jobs: map<Id, Plan>,
    definitions: map<Id, Definition>,
    policies: map<Id, Policy>,
    schedules: map<Id, Schedule>,
    triggers: seq<Trigger>,
    occurrences: seq<Reservation>,
    archives: seq<Archive>)

  const EMPTY := Tables(map[], map[], map[], map[], [], [], [])

  /** A checkpoint either is refused, leaving the tables alone, or commits new tables. */
  datatype Attempt<+T> = Refused | Done(tables: Tables, value: T)

  // ------------------------------------------------------------------ lookups

  function TriggerById(triggers: seq<Trigger>, id: Id): (r: Option<Trigger>)
    ensures r.Some? ==> r.value in triggers && r.value.id == id
    ensures r.None? ==> forall x | x in triggers :: x.id != id
  {
    Find(triggers, (x: Trigger) => x.id == id)
  }

  function HasRequest(request: Id): Trigger -> bool { (x: Trigger) => x.context.request == request }

  function TriggerByRequest(triggers: seq<Trigger>, request: Id): (r: Option<Trigger>)
    ensures r.Some? ==> r.value in triggers && r.value.context.request == request
    ensures r.None? ==> forall x | x in triggers :: x.context.request != request
  {
    Find(triggers, HasRequest(request))
  }

  function IsClaim(schedule: Id, ordinal: nat): Trigger -> bool {
    (x: Trigger) => x.schedule == schedule && x.ordinal == ordinal
  }

  function LastClaim(triggers: seq<Trigger>, s: Schedule): (r: Option<Trigger>)
    ensures r.Some? ==> r.value in triggers && r.value.schedule == s.Id() && r.value.ordinal == s.claimed
    ensures r.None? ==> forall x | x in triggers :: x.schedule == s.Id() ==> x.ordinal != s.claimed
  {
    Find(triggers, IsClaim(s.Id(), s.claimed))
  }

  function OfSchedule(schedule: Id): Trigger -> bool { (x: Trigger) => x.schedule == schedule }

  function Claims(triggers: seq<Trigger>, schedule: Id): nat {
    Count(triggers, OfSchedule(schedule))
  }

  function IsReservation(id: Id): Reservation -> bool { (r: Reservation) => r.Id() == id }

  function OccurrenceById(occurrences: seq<Reservation>, id: Id): (r: Option<Reservation>)
    ensures r.Some? ==> r.value in occurrences && r.value.Id() == id
    ensures r.None? ==> forall x | x in occurrences :: x.Id() != id
  {
    Find(occurrences, IsReservation(id))
  }

  function ReservesJob(job: Id): Reservation -> bool { (r: Reservation) => r.command.job == job }

  function OccurrenceByJob(occurrences: seq<Reservation>, job: Id): (r: Option<Reservation>)
    ensures r.Some? ==> r.value in occurrences && r.value.command.job == job
    ensures r.None? ==> forall x | x in occurrences :: x.command.job != job
  {
    Find(occurrences, ReservesJob(job))
  }

  function OfPolicy(policy: Id): Reservation -> bool { (r: Reservation) => r.delegation.policy == policy }

  function MsOf(policy: Id): Reservation -> nat {
    (r: Reservation) => if r.delegation.policy == policy then r.executionMs else 0
  }

  function BytesOf(policy: Id): Reservation -> nat {
    (r: Reservation) => if r.delegation.policy == policy then r.resultBytes else 0
  }

  function Runs(occurrences: seq<Reservation>, policy: Id): nat { Count(occurrences, OfPolicy(policy)) }
  function UsedMs(occurrences: seq<Reservation>, policy: Id): nat { Sum(occurrences, MsOf(policy)) }
  function UsedBytes(occurrences: seq<Reservation>, policy: Id): nat { Sum(occurrences, BytesOf(policy)) }

  function IsArchive(id: Id): Archive -> bool { (a: Archive) => a.Id() == id }

  function ArchiveById(archives: seq<Archive>, id: Id): (r: Option<Archive>)
    ensures r.Some? ==> r.value in archives && r.value.Id() == id
    ensures r.None? ==> forall a | a in archives :: a.Id() != id
  {
    Find(archives, IsArchive(id))
  }

  function Archives(reservation: Id): Archive -> bool {
    (a: Archive) => a.command.reservation == reservation
  }

  function ArchiveOf(archives: seq<Archive>, reservation: Id): (r: Option<Archive>)
    ensures r.Some? ==> r.value in archives && r.value.command.reservation == reservation
    ensures r.None? ==> forall a | a in archives :: a.command.reservation != reservation
  {
    Find(archives, Archives(reservation))
  }

  predicate ArchivedJob(archives: seq<Archive>, job: Id) {
    exists a | a in archives :: a.command.job == job
  }

  // ------------------------------------------------------------------ history check

  predicate PolicyOk(p: Policy, id: Id, definitions: map<Id, Definition>) {
    && p.id == id && ValidPolicy(p)
    && p.creation.definition in definitions
    && definitions[p.creation.definition].id == p.creation.definition
    && ValidDefinition(definitions[p.creation.definition])
    && PolicyFits(p, definitions[p.creation.definition])
  }

  predicate PoliciesOk(policies: map<Id, Policy>, definitions: map<Id, Definition>) {
    forall id | id in policies :: PolicyOk(policies[id], id, definitions)
  }

  predicate HasGeneration(policies: map<Id, Policy>, definition: Id, g: nat) {
    exists id | id in policies ::
      policies[id].creation.definition == definition && policies[id].generation == g
  }

  predicate SameGeneration(a: Policy, b: Policy) {
    a.creation.definition == b.creation.definition && a.generation == b.generation
  }

  /** The generations of each definition's policies are exactly 1..n. */
  predicate GenerationsOk(policies: map<Id, Policy>) {
    && (forall a, b | a in policies && b in policies && a != b ::
          !SameGeneration(policies[a], policies[b]))
    && (forall a | a in policies :: policies[a].generation >= 1)
    && (forall a, g | a in policies && 1 <= g < policies[a].generation ::
          HasGeneration(policies, policies[a].creation.definition, g))
  }

  predicate ScheduleOk(s: Schedule, id: Id, policies: map<Id, Policy>, definitions: map<Id, Definition>) {
    && s.Id() == id
    && s.creation.policy in policies
    && policies[s.creation.policy].creation.definition in definitions
    && ValidLineage(s, policies[s.creation.policy], definitions[policies[s.creation.policy].creation.definition])
    && ValidLifecycle(s)
  }

  predicate SchedulesOk(schedules: map<Id, Schedule>, policies: map<Id, Policy>, definitions: map<Id, Definition>) {
    forall id | id in schedules :: ScheduleOk(schedules[id], id, policies, definitions)
  }

  predicate TriggerOk(x: Trigger, schedules: map<Id, Schedule>, policies: map<Id, Policy>) {
    && x.schedule in schedules
    && schedules[x.schedule].creation.policy in policies
    && ValidTrigger(x, schedules[x.schedule], policies[schedules[x.schedule].creation.policy])
  }

  predicate TriggersOk(triggers: seq<Trigger>, schedules: map<Id, Schedule>, policies: map<Id, Policy>) {
    forall x | x in triggers :: TriggerOk(x, schedules, policies)
  }

  predicate Independent(a: Trigger, b: Trigger) {
    && !Owns(b, a.id) && !Owns(b, a.reservation) && !Owns(b, a.execution)
    && !Owns(b, a.context.request)
    && (a.schedule == b.schedule ==> a.ordinal != b.ordinal)
  }

  /** No two claims share an identity, nor an ordinal of one schedule. */
  predicate IdentitiesOk(triggers: seq<Trigger>) {
    forall i, j | 0 <= i < j < |triggers| :: Independent(triggers[i], triggers[j])
  }

  predicate Rival(a: Schedule, b: Schedule) {
    a.Active() && b.Active() && a.definition == b.definition
  }

  predicate OneActive(schedules: map<Id, Schedule>) {
    forall a, b | a in schedules && b in schedules && a != b ::
      !Rival(schedules[a], schedules[b])
  }

  /** Ordinals are distinct and at most `claimed`, so this count makes them exactly 1..claimed. */
  predicate ClaimsMatch(s: Schedule, triggers: seq<Trigger>) {
    && Claims(triggers, s.Id()) == s.claimed
    && (s.active.Some? ==>
          && LastClaim(triggers, s).Some?
          && LastClaim(triggers, s).value.id == s.active.value)
    && (s.state == InFlight ==> LastClaim(triggers, s).Some? && InFlightClock(s, LastClaim(triggers, s).value))
  }

  predicate InFlightClock(s: Schedule, x: Trigger) {
    && s.observedAt == (if s.launchedAt.Some? then s.launchedAt.value else x.claimedAt)
    && (s.launchedAt.Some? ==> x.claimedAt <= s.launchedAt.value < s.expiresAt)
  }

  predicate ClaimsOk(schedules: map<Id, Schedule>, triggers: seq<Trigger>) {
    forall id | id in schedules :: ClaimsMatch(schedules[id], triggers)
  }

  predicate Requested(jobs: map<Id, Plan>, request: Id) {
    exists id | id in jobs :: jobs[id].context.Some? && jobs[id].context.value.request == request
  }

  /** A recorded refusal names the last claim, and no work of that claim is retained. */
  predicate RefusalMatches(s: Schedule, triggers: seq<Trigger>, occurrences: seq<Reservation>, jobs: map<Id, Plan>) {
    s.refusal.Some? ==>
      && LastClaim(triggers, s).Some?
      && s.refusal.value.trigger == LastClaim(triggers, s).value.id
      && s.refusal.value.triggerSha == LastClaim(triggers, s).value.sha
      && OccurrenceById(occurrences, LastClaim(triggers, s).value.reservation).None?
      && !Requested(jobs, LastClaim(triggers, s).value.context.request)
  }

  predicate RefusalsOk(schedules: map<Id, Schedule>, triggers: seq<Trigger>, occurrences: seq<Reservation>, jobs: map<Id, Plan>) {
    forall id | id in schedules :: RefusalMatches(schedules[id], triggers, occurrences, jobs)
  }

  /** The whole history check that checkpoints run before, and some again after, a change. */
  predicate HistoryOk(t: Tables) {
    && PoliciesOk(t.policies, t.definitions)
    && GenerationsOk(t.policies)
    && SchedulesOk(t.schedules, t.policies, t.definitions)
    && TriggersOk(t.triggers, t.schedules, t.policies)
    && IdentitiesOk(t.triggers)
    && OneActive(t.schedules)
    && ClaimsOk(t.schedules, t.triggers)
    && RefusalsOk(t.schedules, t.triggers, t.occurrences, t.jobs)
  }

  // ------------------------------------------------------------------ jobs and occurrences

  predicate LinkMatches(x: Trigger, s: Schedule, plan: Plan, link: Link) {
    && DelegationOf(plan).Some?
    && link == Link(s.Id(), x.id)
    && DelegationOf(plan).value.policy == s.creation.policy
    && DelegationOf(plan).value.reservation == x.reservation
    && DelegationOf(plan).value.runtime == s.runtime
    && plan.context == Some(x.context)
    && (plan.execution.Some? ==> plan.execution.value.operation == x.execution)
  }

  /** A job of a claimed request carries that claim's authority, or no approval at all. */
  predicate DelegationValid(plan: Plan, triggers: seq<Trigger>, schedules: map<Id, Schedule>) {
    plan.context.Some? ==>
      match TriggerByRequest(triggers, plan.context.value.request)
      case None => LinkOf(plan).None?
      case Some(x) =>
        if LinkOf(plan).Some?
        then x.schedule in schedules && LinkMatches(x, schedules[x.schedule], plan, LinkOf(plan).value)
        else plan.approval.None?
  }

  predicate JobOk(plan: Plan, id: Id, t: Tables) {
    && plan.id == id
    && DelegationValid(plan, t.triggers, t.schedules)
    && !ArchivedJob(t.archives, id)
    && match OccurrenceByJob(t.occurrences, id)
       case Some(r) => LiveMatches(r, plan)
       case None => DelegationOf(plan).None?
  }

  predicate OccurrenceOk(r: Reservation, t: Tables) {
    && r.command.policy in t.policies
    && t.policies[r.command.policy].creation.definition in t.definitions
    && ValidReservation(r, t.policies[r.command.policy], t.definitions[t.policies[r.command.policy].creation.definition])
    && DelegationValid(r.snapshot, t.triggers, t.schedules)
  }

  predicate ArchiveOk(a: Archive, t: Tables) {
    && OccurrenceById(t.occurrences, a.command.reservation).Some?
    && OccurrenceOk(OccurrenceById(t.occurrences, a.command.reservation).value, t)
    && ValidArchive(a, OccurrenceById(t.occurrences, a.command.reservation).value)
    && a.command.job !in t.jobs
  }

  predicate ArchivesOk(t: Tables) {
    forall a | a in t.archives :: ArchiveOk(a, t)
  }

  /** The plan behind a reservation: the archived terminal evidence, or the matching live job. */
  function RetainedPlan(r: Reservation, jobs: map<Id, Plan>, archives: seq<Archive>): Option<Plan> {
    match ArchiveOf(archives, r.Id())
    case Some(a) => Some(a.terminal)
    case None =>
      if r.command.job in jobs && LiveMatches(r, jobs[r.command.job]) then Some(jobs[r.command.job]) else None
  }

  predicate ReservationResolved(r: Reservation, jobs: map<Id, Plan>, archives: seq<Archive>) {
    RetainedPlan(r, jobs, archives).Some? && Resolved(RetainedPlan(r, jobs, archives).value)
  }

  predicate SameRun(a: Reservation, b: Reservation) {
    a.delegation.policy == b.delegation.policy && a.ordinal == b.ordinal
  }

  /** Distinct ordinals between 1 and the group size, within every approved budget. */
  predicate GroupOk(occurrences: seq<Reservation>, p: Policy) {
    && (forall r | r in occurrences :: r.delegation.policy == p.id ==> 1 <= r.ordinal <= Runs(occurrences, p.id))
    && Runs(occurrences, p.id) <= p.creation.maxRuns
    && UsedMs(occurrences, p.id) <= p.creation.maxExecutionMs
    && UsedBytes(occurrences, p.id) <= p.creation.maxResultBytes
  }

  predicate BudgetsOk(occurrences: seq<Reservation>, policies: map<Id, Policy>) {
    && (forall i, j | 0 <= i < j < |occurrences| :: !SameRun(occurrences[i], occurrences[j]))
    && (forall id | id in policies :: GroupOk(occurrences, policies[id]))
  }

  predicate RetainedOk(t: Tables) {
    && ArchivesOk(t)
    && (forall r | r in t.occurrences ::
          OccurrenceOk(r, t) && RetainedPlan(r, t.jobs, t.archives).Some?)
    && BudgetsOk(t.occurrences, t.policies)
  }

  /** The check behind every budget or overlap decision. */
  predicate OccurrencesOk(t: Tables) {
    HistoryOk(t) && RetainedOk(t)
  }

  predicate DefinitionResolved(t: Tables, definition: Id) {
    forall r | r in t.occurrences && r.delegation.definition == definition ::
      ReservationResolved(r, t.jobs, t.archives)
  }

  predicate AllowanceAvailable(occurrences: seq<Reservation>, p: Policy) {
    && Runs(occurrences, p.id) < p.creation.maxRuns
    && AllowanceMs(p) <= SaturatingSub(p.creation.maxExecutionMs, UsedMs(occurrences, p.id))
    && AllowanceBytes(p) <= SaturatingSub(p.creation.maxResultBytes, UsedBytes(occurrences, p.id))
  }

  // ------------------------------------------------------------------ authority

  predicate Latest(policies: map<Id, Policy>, definition: Id, g: nat) {
    && (forall id | id in policies ::
          policies[id].creation.definition == definition ==> policies[id].generation <= g)
    && (g == 0 || HasGeneration(policies, definition, g))
  }

  /** Eligibility of a retained policy: unrevoked, latest, unremoved definition, inside its window. */
  predicate CurrentAt(p: Policy, d: Definition, policies: map<Id, Policy>, runtime: Id, issuer: int, now: nat) {
    && ValidPolicy(p) && ValidDefinition(d)
    && p.revocation.None? && d.removal.None?
    && d.id == p.creation.definition && d.sha == p.creation.definitionSha
    && p.runtime == runtime && p.issuer == issuer
    && Latest(policies, p.creation.definition, p.generation)
    && p.approvedAt <= now < p.expiresAt
  }

  predicate Current(s: Schedule, policies: map<Id, Policy>, definitions: map<Id, Definition>, runtime: Id, issuer: int, now: nat) {
    && s.creation.policy in policies && s.definition in definitions
    && s.runtime == runtime && s.issuer == issuer
    && CurrentAt(policies[s.creation.policy], definitions[s.definition], policies, runtime, issuer, now)
  }

  /** New source work for a claimed request is admitted only while the claim is in flight. */
  predicate SourceAuthority(t: Tables, context: Context, now: nat) {
    match TriggerByRequest(t.triggers, context.request)
    case None => true
    case Some(x) =>
      && context == x.context
      && x.schedule in t.schedules
      && t.schedules[x.schedule].Holds(x.id)
      && Current(t.schedules[x.schedule], t.policies, t.definitions,
                 t.schedules[x.schedule].runtime, t.schedules[x.schedule].issuer, now)
  }

  /** Fence on issuing a delegated job's work. */
  predicate FencePasses(t: Tables, plan: Plan, runtime: Id, issuer: int, now: nat) {
    DelegationOf(plan).Some? ==>
      var d := DelegationOf(plan).value;
      && OccurrencesOk(t)
      && OccurrenceById(t.occurrences, d.reservation).Some?
      && LiveMatches(OccurrenceById(t.occurrences, d.reservation).value, plan)
      && d.policy in t.policies && d.definition in t.definitions
      && CurrentAt(t.policies[d.policy], t.definitions[d.definition], t.policies, runtime, issuer, now)
      && DelegationValid(plan, t.triggers, t.schedules)
      && (d.link.Some? ==>
            && d.link.value.schedule in t.schedules
            && t.schedules[d.link.value.schedule].Holds(d.link.value.trigger)
            && t.schedules[d.link.value.schedule].runtime == runtime
            && t.schedules[d.link.value.schedule].observedAt <= now < t.schedules[d.link.value.schedule].expiresAt)
  }

  // ------------------------------------------------------------------ claims

  datatype Source = Missing | Found(plan: Plan) | Ambiguous

  ghost function SourceJobs(jobs: map<Id, Plan>, context: Context): set<Id> {
    set id | id in jobs && jobs[id].context == Some(context)
  }

  /** The job of a claim: the retained plan of its reservation, or the one job of its request. */
  ghost function SourceJob(t: Tables, x: Trigger): Source {
    match OccurrenceById(t.occurrences, x.reservation)
    case Some(r) =>
      var plan := RetainedPlan(r, t.jobs, t.archives);
      if plan.Some? && DelegationValid(plan.value, t.triggers, t.schedules) then Found(plan.value) else Ambiguous
    case None =>
      var ids := SourceJobs(t.jobs, x.context);
      if ids == {} then Missing
      else
        var id :| id in ids;
        if ids == {id} then Found(t.jobs[id]) else Ambiguous
  }

  /** A claim is over: its refusal was resolved, its reservation is resolved, or its only job
      was cancelled before any approval.  Absence of work is never proof. */
  ghost predicate ClaimResolved(t: Tables, x: Trigger) {
    && x.schedule in t.schedules
    && (|| (t.schedules[x.schedule].resolution.Some? && t.schedules[x.schedule].resolution.value.trigger == x.id)
        || (SourceJob(t, x).Found?
            && Resolved(SourceJob(t, x).plan)
            && (OccurrenceById(t.occurrences, x.reservation).None? ==>
                  SourceJob(t, x).plan.approval.None? && SourceJob(t, x).plan.execution.None?)))
  }

  // ------------------------------------------------------------------ schedule checkpoints

  function Advanced(s: Schedule, now: nat): Schedule {
    s.(revision := s.revision + 1, observedAt := now)
  }

  function InterruptedAt(s: Schedule, reason: Reason, now: nat): Schedule {
    Advanced(s, now).(state := Interrupted, reason := Some(reason), nextDue := None)
  }

  /** Saving an existing schedule validates it, and fails once its revision is exhausted. */
  function Save(t: Tables, s: Schedule): Attempt<Schedule> {
    if s.revision < U64_LIMIT && ScheduleOk(s, s.Id(), t.policies, t.definitions)
    then Done(t.(schedules := t.schedules[s.Id() := s]), s)
    else Refused
  }

  function NewSchedule(command: Arm, p: Policy, d: Definition, runtime: Id, issuer: int, now: nat): Schedule {
    Schedule(command, p.creation.definition, runtime, issuer, p.generation, now, p.expiresAt,
             d.creation.every, 1, Waiting, now, Some(now + d.creation.every), None, None, None, None, 0, None, None)
  }

  ghost predicate NoOverlap(t: Tables, definition: Id) {
    && (forall id | id in t.schedules ::
          t.schedules[id].definition == definition ==> !t.schedules[id].Active())
    && (forall x | x in t.triggers ::
          x.schedule in t.schedules && t.schedules[x.schedule].definition == definition ==> ClaimResolved(t, x))
  }

  ghost function ArmSchedule(t: Tables, command: Arm, runtime: Id, issuer: int, now: nat, commit: nat, room: bool)
    : Attempt<(Schedule, bool)>
  {
    if command.operation == NIL || command.policy == NIL || runtime == NIL
       || command.operation == command.policy || !HistoryOk(t) then Refused
    else if command.operation in t.schedules then
      if t.schedules[command.operation].creation == command
      then Done(t, (t.schedules[command.operation], true)) else Refused
    else if command.policy !in t.policies then Refused
    else
      var p := t.policies[command.policy];
      if p.creation.definition !in t.definitions then Refused
      else
        ArmStage(t, command, p, t.definitions[p.creation.definition], runtime, issuer, now, commit, room)
  }

  /** The new schedule, checked against authority, time, overlap and budget, and fenced by a second clock reading. */
  ghost function ArmStage(t: Tables, command: Arm, p: Policy, d: Definition, runtime: Id, issuer: int, now: nat, commit: nat, room: bool)
    : Attempt<(Schedule, bool)>
  {
    var due := now + d.creation.every;
    var s := NewSchedule(command, p, d, runtime, issuer, now);
    if due >= U64_LIMIT || command.policySha != p.sha
       || !Current(s, t.policies, t.definitions, runtime, issuer, now)
       || AllowanceMs(p) > SaturatingSub(p.expiresAt, due)
       || !NoOverlap(t, p.creation.definition)
       || !OccurrencesOk(t) || !DefinitionResolved(t, p.creation.definition)
       || !AllowanceAvailable(t.occurrences, p)
       || !room || !ScheduleOk(s, s.Id(), t.policies, t.definitions)
       || commit < now || !Current(s, t.policies, t.definitions, runtime, issuer, commit)
       || AllowanceMs(p) > SaturatingSub(p.expiresAt, Max(due, commit))
    then Refused
    else Done(t.(schedules := t.schedules[s.Id() := s]), (s, false))
  }

  datatype FreshIds = FreshIds(trigger: Id, request: Id, reservation: Id, execution: Id, sha: int)

  ghost predicate Unused(t: Tables, id: Id) {
    && id != NIL && id !in t.policies && id !in t.schedules
    && (forall x | x in t.triggers :: !Owns(x, id))
    && (forall r | r in t.occurrences :: r.Id() != id && (r.snapshot.context.Some? ==> r.snapshot.context.value.request != id))
    && !Requested(t.jobs, id)
    && (forall d | d in t.policies :: t.policies[d].scope.owner.request != id)
  }

  /** Generated identifiers never collide: with each other, or with anything retained. */
  ghost predicate Generated(t: Tables, ids: FreshIds) {
    && Unused(t, ids.trigger) && Unused(t, ids.request)
    && Unused(t, ids.reservation) && Unused(t, ids.execution)
    && ids.trigger !in {ids.request, ids.reservation, ids.execution}
    && ids.request !in {ids.reservation, ids.execution}
    && ids.reservation != ids.execution
  }

  function NewTrigger(s: Schedule, p: Policy, ids: FreshIds, due: nat, now: nat): Trigger {
    Trigger(ids.trigger, s.Id(), s.claimed + 1, due, now,
            Context(ids.request, p.scope.owner.node, p.scope.owner.area),
            ids.reservation, ids.execution, ids.sha)
  }

  function ClaimedAt(s: Schedule, trigger: Id, now: nat): Schedule {
    Advanced(s, now).(claimed := s.claimed + 1, state := InFlight, nextDue := None,
                      active := Some(trigger), launchedAt := None)
  }

  function ExhaustedAt(s: Schedule, p: Policy, available: bool, now: nat): Schedule {
    Advanced(s, now).(
      state := Exhausted, nextDue := None,
      reason := Some(if s.claimed >= p.creation.maxRuns then RunBudget
                     else if !available then PolicyBudget else TimeBudget))
  }

  /** Why a due check interrupts a waiting schedule instead of claiming. */
  function DueFault(t: Tables, s: Schedule, runtime: Id, issuer: int, now: nat, due: nat): Option<Reason> {
    if now < s.observedAt then Some(BackwardClock)
    else if !Current(s, t.policies, t.definitions, runtime, issuer, now) then Some(PolicyChanged)
    else if now >= SaturatingAdd(due, s.every) then Some(MissedTrigger)
    else None
  }

  function Without<T>(a: Attempt<Schedule>, value: T): Attempt<T> {
    match a case Refused => Refused case Done(t, _) => Done(t, value)
  }

  ghost function ClaimDue(t: Tables, id: Id, runtime: Id, issuer: int, now: nat, commit: nat, ids: FreshIds, room: bool)
    : Attempt<Option<Trigger>>
  {
    if !HistoryOk(t) || id !in t.schedules then Refused
    else
      var s := t.schedules[id];
      if s.state != Waiting || s.nextDue.None? then Done(t, None)
      else
        var due := s.nextDue.value;
        var fault := DueFault(t, s, runtime, issuer, now, due);
        if fault.Some? then Without(Save(t, InterruptedAt(s, fault.value, now)), None)
        else if now < due then Done(t, None)
        else ClaimWithin(t, s, runtime, issuer, now, commit, ids, room)
  }

  ghost function ClaimWithin(t: Tables, s: Schedule, runtime: Id, issuer: int, now: nat, commit: nat, ids: FreshIds, room: bool)
    : Attempt<Option<Trigger>>
    requires s.nextDue.Some?
  {
    if s.creation.policy !in t.policies || !OccurrencesOk(t) || !DefinitionResolved(t, s.definition) then Refused
    else
      var p := t.policies[s.creation.policy];
      var available := AllowanceAvailable(t.occurrences, p);
      if s.claimed >= p.creation.maxRuns || !available || AllowanceMs(p) > SaturatingSub(s.expiresAt, now)
      then Without(Save(t, ExhaustedAt(s, p, available, now)), None)
      else StageClaim(t, s, p, runtime, issuer, now, commit, ids, room)
  }

  /** The two writes of a claim, checked again as a whole and fenced by a second clock reading. */
  ghost function StageClaim(t: Tables, s: Schedule, p: Policy, runtime: Id, issuer: int, now: nat, commit: nat, ids: FreshIds, room: bool)
    : Attempt<Option<Trigger>>
    requires s.nextDue.Some?
  {
    var due := s.nextDue.value;
    var x := NewTrigger(s, p, ids, due, now);
    var s' := ClaimedAt(s, x.id, now);
    var t' := t.(schedules := t.schedules[s.Id() := s'], triggers := t.triggers + [x]);
    if !Generated(t, ids) || !room
       || s'.revision >= U64_LIMIT || !ScheduleOk(s', s.Id(), t.policies, t.definitions)
       || !HistoryOk(t')
       || commit < now || commit >= SaturatingAdd(due, s.every)
       || !Current(s', t.policies, t.definitions, runtime, issuer, commit)
       || AllowanceMs(p) > SaturatingSub(s.expiresAt, commit)
    then Refused
    else Done(t', Some(x))
  }

  ghost function BeginLaunch(t: Tables, id: Id, runtime: Id, now: nat, commit: nat): Attempt<bool> {
    if !HistoryOk(t) || TriggerById(t.triggers, id).None? then Refused
    else
      var x := TriggerById(t.triggers, id).value;
      var s := t.schedules[x.schedule];
      if s.runtime != runtime || !s.Holds(id) then Refused
      else if s.launchedAt.Some? then Done(t, false)
      else if SourceJob(t, x) != Missing || now < s.observedAt
              || !Current(s, t.policies, t.definitions, runtime, s.issuer, now)
              || commit < now || !Current(s, t.policies, t.definitions, runtime, s.issuer, commit)
      then Refused
      else Without(Save(t, Advanced(s, now).(launchedAt := Some(now))), true)
  }

  function RefusedAt(s: Schedule, x: Trigger, now: nat, sha: int): Schedule {
    InterruptedAt(s, PreflightRefused, now).(refusal := Some(Refusal(x.id, x.sha, s.runtime, now, sha)))
  }

  /** Records that the launch path refused before any launch; false when it cannot be proven. */
  ghost function RecordRefusal(t: Tables, id: Id, runtime: Id, now: nat, sha: int): Attempt<bool> {
    if !HistoryOk(t) || TriggerById(t.triggers, id).None? then Refused
    else
      var x := TriggerById(t.triggers, id).value;
      var s := t.schedules[x.schedule];
      if s.refusal.Some? then Done(t, true)
      else if s.runtime != runtime || !s.Holds(id) || s.launchedAt.Some? then Done(t, false)
      else if SourceJob(t, x).Ambiguous? then Refused
      else if SourceJob(t, x).Found? then Done(t, false)
      else
        var saved := Save(t, RefusedAt(s, x, now, sha));
        if saved.Done? && HistoryOk(saved.tables) then Without(saved, true) else Refused
  }

  function ResolvedBy(s: Schedule, operation: Id, trigger: Id, hash: int, now: nat): Schedule {
    Advanced(s, now).(state := Settled, nextDue := None, reason := Some(RefusalResolved),
                      resolution := Some(Resolution(operation, s.revision, trigger, hash, now)))
  }

  predicate TriggerOwns(triggers: seq<Trigger>, operation: Id) {
    exists x | x in triggers :: Owns(x, operation)
  }

  function ResolveRefusal(t: Tables, id: Id, revision: nat, trigger: Id, hash: int, operation: Id, now: nat)
    : Attempt<(Schedule, bool)>
  {
    if operation == NIL || trigger == NIL || !HistoryOk(t) || id !in t.schedules then Refused
    else
      var s := t.schedules[id];
      match s.resolution
      case Some(kept) =>
        if kept.revision == revision && kept.trigger == trigger && kept.refusalSha == hash && kept.operation == operation
        then Done(t, (s, true)) else Refused
      case None =>
        if s.refusal.None? || s.revision != revision || s.state !in {Interrupted, Stopped}
           || s.refusal.value.trigger != trigger || s.refusal.value.sha != hash
           || operation == s.Id() || operation == s.creation.policy || TriggerOwns(t.triggers, operation)
        then Refused
        else
          var saved := Save(t, ResolvedBy(s, operation, trigger, hash, now));
          if saved.Done? && HistoryOk(saved.tables) then Done(saved.tables, (saved.value, false)) else Refused
  }

  function InterruptSchedule(t: Tables, id: Id, reason: Reason, now: nat): Attempt<Schedule> {
    if !HistoryOk(t) || id !in t.schedules then Refused
    else if t.schedules[id].Active() then Save(t, InterruptedAt(t.schedules[id], reason, now))
    else Done(t, t.schedules[id])
  }

  function InterruptTrigger(t: Tables, id: Id, reason: Reason, now: nat): Attempt<Schedule> {
    if !HistoryOk(t) || TriggerById(t.triggers, id).None? then Refused
    else
      var s := t.schedules[TriggerById(t.triggers, id).value.schedule];
      if s.Holds(id) then Save(t, InterruptedAt(s, reason, now)) else Done(t, s)
  }

  function StoppedBy(s: Schedule, stop: Receipt, now: nat): Schedule {
    Advanced(s, now).(state := Stopped, stop := Some(stop), nextDue := None, reason := Some(OwnerStop))
  }

  function StopSchedule(t: Tables, id: Id, revision: nat, operation: Id, now: nat): Attempt<(Schedule, bool)> {
    if operation == NIL || !HistoryOk(t) || id !in t.schedules then Refused
    else
      var s := t.schedules[id];
      var stop := Receipt(operation, revision);
      if s.stop.Some? then
        if s.stop.value == stop then Done(t, (s, true)) else Refused
      else if revision != s.revision || operation == id || operation == s.creation.policy
              || TriggerOwns(t.triggers, operation) then Refused
      else
        match Save(t, StoppedBy(s, stop, now))
        case Refused => Refused
        case Done(t', s') => Done(t', (s', false))
  }

  function Rearmed(s: Schedule, now: nat): Schedule {
    Advanced(s, now).(active := None, launchedAt := None, state := Waiting, nextDue := Some(now + s.every))
  }

  /** What a schedule becomes once the claim it holds is over. */
  function Settling(t: Tables, s: Schedule, runtime: Id, issuer: int, now: nat): Option<Schedule> {
    if now < s.observedAt then Some(InterruptedAt(s, BackwardClock, now))
    else if !Current(s, t.policies, t.definitions, runtime, issuer, now) then Some(InterruptedAt(s, PolicyChanged, now))
    else if now + s.every >= U64_LIMIT || !OccurrencesOk(t) then None
    else
      var p := t.policies[s.creation.policy];
      var available := AllowanceAvailable(t.occurrences, p);
      if s.claimed >= p.creation.maxRuns || !available || AllowanceMs(p) > SaturatingSub(s.expiresAt, now + s.every)
      then Some(ExhaustedAt(s.(active := None, launchedAt := None), p, available, now))
      else Some(Rearmed(s, now))
  }

  ghost function SettleSchedule(t: Tables, id: Id, runtime: Id, issuer: int, now: nat): Attempt<Schedule> {
    if !HistoryOk(t) || id !in t.schedules || t.schedules[id].state != InFlight then Refused
    else
      var s := t.schedules[id];
      var x := TriggerById(t.triggers, s.active.value);
      if x.None? || !ClaimResolved(t, x.value) then Refused
      else
        var next := Settling(t, s, runtime, issuer, now);
        if next.None? then Refused else Save(t, next.value)
  }

  /** Opening the journal interrupts every schedule the previous process left active. */
  function RestartedAt(s: Schedule, now: nat): Schedule {
    if s.Active() then InterruptedAt(s, Restart, now) else s
  }

  function Reopen(t: Tables, clock: Id -> nat): Attempt<()> {
    if !SchedulesOk(t.schedules, t.policies, t.definitions) then Refused
    else
      var schedules := map id | id in t.schedules :: RestartedAt(t.schedules[id], clock(id));
      var t' := t.(schedules := schedules);
      if (forall id | id in t.schedules && t.schedules[id].Active() :: t.schedules[id].revision + 1 < U64_LIMIT) && HistoryOk(t')
      then Done(t', ()) else Refused
  }

  // ------------------------------------------------------------------ job checkpoints

  function SameRequest(plan: Plan, origin: Context): bool {
    plan.context.Some? && plan.context.value.node == origin.node && plan.context.value.request == origin.request
  }

  predicate ArchivedRequest(archives: seq<Archive>, origin: Context) {
    exists a | a in archives :: SameRequest(a.terminal, origin)
  }

  function InsertJob(t: Tables, plan: Plan, now: nat, room: bool): Attempt<Plan> {
    if !FreshPlan(plan) || plan.id in t.jobs
       || (plan.context.Some? && !SourceAuthority(t, plan.context.value, now))
       || ArchivedJob(t.archives, plan.id) || !room
    then Refused
    else
      var saved := plan.(revision := 1, updatedAt := now);
      Done(t.(jobs := t.jobs[plan.id := saved]), saved)
  }

  ghost function SameRequestJobs(jobs: map<Id, Plan>, origin: Context): set<Id> {
    set id | id in jobs && SameRequest(jobs[id], origin)
  }

  /** Node-origin admission: one retained job per request, and none for an archived request. */
  ghost function AdmitRequest(t: Tables, plan: Plan, same: bool, now: nat, room: bool): Attempt<(Plan, bool)> {
    if !FreshPlan(plan) || plan.context.None? || !ArchivesOk(t)
       || ArchivedRequest(t.archives, plan.context.value) then Refused
    else
      var ids := SameRequestJobs(t.jobs, plan.context.value);
      if ids != {} then
        var id :| id in ids;
        if ids == {id} && same then Done(t, (t.jobs[id], true)) else Refused
      else
        match InsertJob(t, plan, now, room)
        case Refused => Refused
        case Done(t', saved) => Done(t', (saved, false))
  }

  datatype Gate = Gate(runtime: Id, issuer: int)

  /** What the coordinator's edits never do: move a job to another identity or request, or
      reopen proven terminal evidence. */
  predicate Editable(before: Plan, after: Plan) {
    && after.id == before.id && after.context == before.context
    && (Resolved(before) ==> after == before.(revision := after.revision, updatedAt := after.updatedAt))
  }

  /** A fenced edit needs issuing authority, and an edit that compiles a request its source authority. */
  predicate EditAuthorised(t: Tables, plan: Plan, edited: Plan, gate: Option<Gate>, now: nat) {
    && (gate.Some? ==> FencePasses(t, plan, gate.value.runtime, gate.value.issuer, now))
    && (plan.planning.None? && edited.planning.Some? && edited.context.Some? ==> SourceAuthority(t, edited.context.value, now))
  }

  function EditJob(t: Tables, id: Id, edited: Plan, gate: Option<Gate>, now: nat, room: bool): Attempt<Plan> {
    if id !in t.jobs || !JobOk(t.jobs[id], id, t) || !Editable(t.jobs[id], edited)
       || t.jobs[id].revision + 1 >= U64_LIMIT
       || !EditAuthorised(t, t.jobs[id], edited, gate, now)
    then Refused
    else
      var saved := edited.(revision := t.jobs[id].revision + 1);
      if !JobOk(saved, id, t) || !room then Refused
      else Done(t.(jobs := t.jobs[id := saved]), saved)
  }

  function RemoveFinished(t: Tables, id: Id): Attempt<()> {
    if id !in t.jobs || !JobOk(t.jobs[id], id, t)
       || (t.jobs[id].context.Some? && TriggerByRequest(t.triggers, t.jobs[id].context.value.request).Some?)
       || OccurrenceByJob(t.occurrences, id).Some?
       || !Finished(t.jobs[id])
    then Refused
    else Done(t.(jobs := t.jobs - {id}), ())
  }

  // ------------------------------------------------------------------ reserve and archive

  /** The trigger link of a reservation, or None when the claim is not, or no longer, in flight. */
  function ReservationLink(t: Tables, plan: Plan, p: Policy, reservation: Id, now: nat): Option<Option<Link>> {
    if plan.context.None? || TriggerByRequest(t.triggers, plan.context.value.request).None? then Some(None)
    else
      var x := TriggerByRequest(t.triggers, plan.context.value.request).value;
      if x.schedule !in t.schedules then None
      else
        var s := t.schedules[x.schedule];
        if x.context != plan.context.value || x.reservation != reservation
           || s.creation.policy != p.id || !s.Holds(x.id) || now < s.observedAt
           || !Current(s, t.policies, t.definitions, p.runtime, p.issuer, now)
        then None
        else Some(Some(Link(s.Id(), x.id)))
  }

  function Reserved(plan: Plan, command: Reserve, p: Policy, issuer: int, runtime: Id, link: Option<Link>, now: nat, stamped: nat)
    : Plan
  {
    plan.(approval := Some(Approval(command.operation, issuer, now, p.expiresAt, p.creation.limits,
                                    Some(Delegation(command.operation, command.policy, command.policySha,
                                                    p.creation.definition, p.generation, runtime, link)))),
          status := Approved, revision := plan.revision + 1, updatedAt := stamped)
  }

  /** Everything a reservation checks before it stages its two writes. */
  predicate Reservable(t: Tables, command: Reserve, p: Policy, d: Definition, plan: Plan, runtime: Id, issuer: int, now: nat) {
    && p.sha == command.policySha
    && CurrentAt(p, d, t.policies, runtime, issuer, now)
    && plan.revision == command.revision && plan.status == AwaitingApproval
    && plan.approval.None? && plan.execution.None?
    && plan.planning.Some? && plan.planning.value.sha == command.planSha
    && MatchingScope(plan, p)
    && command.job != d.creation.job
    && OccurrenceByJob(t.occurrences, command.job).None?
    && DefinitionResolved(t, p.creation.definition)
    && AllowanceAvailable(t.occurrences, p)
    && AllowanceMs(p) <= p.expiresAt - now
    && ReservationLink(t, plan, p, command.operation, now).Some?
  }

  function ReserveRun(t: Tables, command: Reserve, runtime: Id, issuer: int, now: nat, commit: nat, stamped: nat, sha: int, room: bool)
    : Attempt<(Reservation, bool)>
  {
    if !ValidReserve(command) || runtime == NIL || !OccurrencesOk(t) then Refused
    else if OccurrenceById(t.occurrences, command.operation).Some? then
      var kept := OccurrenceById(t.occurrences, command.operation).value;
      if kept.command == command then Done(t, (kept, true)) else Refused
    else if command.policy !in t.policies || command.job !in t.jobs then Refused
    else
      var p := t.policies[command.policy];
      var plan := t.jobs[command.job];
      if p.creation.definition !in t.definitions || !JobOk(plan, command.job, t) then Refused
      else
        var d := t.definitions[p.creation.definition];
        if !Reservable(t, command, p, d, plan, runtime, issuer, now) then Refused
        else StageRun(t, command, p, d, plan, runtime, issuer, now, commit, stamped, sha, room)
  }

  /** The reservation, with the approved job it is about to write. */
  function NewRun(t: Tables, command: Reserve, p: Policy, plan: Plan, runtime: Id, issuer: int, now: nat, stamped: nat, sha: int)
    : Reservation
    requires ReservationLink(t, plan, p, command.operation, now).Some?
  {
    var link := ReservationLink(t, plan, p, command.operation, now).value;
    var approved := Reserved(plan, command, p, issuer, runtime, link, now, stamped);
    Reservation(command, approved.approval.value.delegation.value, Runs(t.occurrences, command.policy) + 1, now,
                AllowanceMs(p), AllowanceBytes(p), approved, sha)
  }

  /** The two staged writes still fit the whole ledger, and authority still holds at commit. */
  predicate RunCommits(t: Tables, r: Reservation, p: Policy, d: Definition, runtime: Id, issuer: int, commit: nat) {
    && JobOk(r.snapshot, r.command.job, t) && OccurrencesOk(t)
    && r.reservedAt <= commit && CurrentAt(p, d, t.policies, runtime, issuer, commit)
    && AllowanceMs(p) <= SaturatingSub(p.expiresAt, commit)
  }

  function StageRun(t: Tables, command: Reserve, p: Policy, d: Definition, plan: Plan,
                    runtime: Id, issuer: int, now: nat, commit: nat, stamped: nat, sha: int, room: bool)
    : Attempt<(Reservation, bool)>
    requires ReservationLink(t, plan, p, command.operation, now).Some?
  {
    var r := NewRun(t, command, p, plan, runtime, issuer, now, stamped, sha);
    var t' := t.(jobs := t.jobs[command.job := r.snapshot], occurrences := t.occurrences + [r]);
    if OccurrenceOk(r, t) && room && RunCommits(t', r, p, d, runtime, issuer, commit) then Done(t', (r, false)) else Refused
  }

  /** Everything an archive checks before it stages its two writes. */
  predicate Archivable(t: Tables, command: ArchiveCommand) {
    && OccurrenceById(t.occurrences, command.operation).None? && command.operation !in t.policies
    && OccurrenceById(t.occurrences, command.reservation).Some?
    && command.job in t.jobs && JobOk(t.jobs[command.job], command.job, t)
    && OccurrenceById(t.occurrences, command.reservation).value.sha == command.reservationSha
    && OccurrenceById(t.occurrences, command.reservation).value.command.job == command.job
    && t.jobs[command.job].revision == command.revision && Resolved(t.jobs[command.job])
    && ArchiveOf(t.archives, command.reservation).None? && !ArchivedJob(t.archives, command.job)
  }

  function ArchiveRun(t: Tables, command: ArchiveCommand, runtime: Id, now: nat, commit: nat, room: bool)
    : Attempt<(Archive, bool)>
  {
    if !ValidArchiveCommand(command) || runtime == NIL || !OccurrencesOk(t) then Refused
    else if ArchiveById(t.archives, command.operation).Some? then
      var kept := ArchiveById(t.archives, command.operation).value;
      if kept.command == command then Done(t, (kept, true)) else Refused
    else if !Archivable(t, command) then Refused
    else
      var a := Archive(command, runtime, now, t.jobs[command.job]);
      var t' := t.(jobs := t.jobs - {command.job}, archives := t.archives + [a]);
      if !room || !OccurrencesOk(t') || commit < now then Refused else Done(t', (a, false))
  }

  // ------------------------------------------------------------------ definitions and policies

  predicate ReadableDefinition(t: Tables, id: Id) {
    id in t.definitions && t.definitions[id].id == id && ValidDefinition(t.definitions[id])
  }

  function DefineAutomation(t: Tables, command: Define, now: nat, sha: int, room: bool): Attempt<(Definition, bool)> {
    if !ValidDefine(command) then Refused
    else if command.operation in t.definitions then
      if ReadableDefinition(t, command.operation) && t.definitions[command.operation].creation == command
      then Done(t, (t.definitions[command.operation], true)) else Refused
    else if command.job !in t.jobs || !JobOk(t.jobs[command.job], command.job, t) then Refused
    else
      var plan := t.jobs[command.job];
      if plan.context.None? || !DefinableFrom(command, plan) || now == 0 || !room then Refused
      else
        var d := Definition(command.operation, plan.context.value, now, command, sha, plan, None);
        Done(t.(definitions := t.definitions[d.id := d]), (d, false))
  }

  function RemoveDefinition(t: Tables, id: Id, revision: nat, operation: Id): Attempt<(Definition, bool)> {
    if !ReadableDefinition(t, id) || operation == NIL then Refused
    else
      var d := t.definitions[id];
      match d.removal
      case Some(r) => if r == Receipt(operation, revision) then Done(t, (d, true)) else Refused
      case None =>
        if revision != 1 || operation == id then Refused
        else
          var d' := d.(removal := Some(Receipt(operation, revision)));
          Done(t.(definitions := t.definitions[id := d']), (d', false))
  }

  /** `candidate` is the approval the owner service prepared from the current providers. */
  function ApprovePolicy(t: Tables, candidate: Policy, runtime: Id, now: nat, room: bool): Attempt<(Policy, bool)> {
    var command := candidate.creation;
    if !ValidApprove(command) || runtime == NIL || !PoliciesOk(t.policies, t.definitions) || !GenerationsOk(t.policies) then Refused
    else if command.operation in t.policies then
      if t.policies[command.operation].creation == command
      then Done(t, (t.policies[command.operation], true)) else Refused
    else if command.definition !in t.definitions then Refused
    else
      var d := t.definitions[command.definition];
      if !ValidDefinition(d) || d.id != command.definition || d.removal.Some?
         || !Latest(t.policies, command.definition, command.generation)
         || candidate.runtime != runtime || candidate.revocation.Some?
         || !(candidate.approvedAt <= now < candidate.expiresAt)
         || !ValidPolicy(candidate) || !PolicyFits(candidate, d) || !room
      then Refused
      else Done(t.(policies := t.policies[candidate.id := candidate]), (candidate, false))
  }

  function RevokePolicy(t: Tables, id: Id, revision: nat, operation: Id, now: nat): Attempt<(Policy, bool)> {
    if operation == NIL || !PoliciesOk(t.policies, t.definitions) || !GenerationsOk(t.policies) || id !in t.policies then Refused
    else
      var p := t.policies[id];
      match p.revocation
      case Some(r) => if r == Receipt(operation, revision) then Done(t, (p, true)) else Refused
      case None =>
        if revision != 1 || operation == id || now == 0 then Refused
        else
          var p' := p.(revocation := Some(Receipt(operation, revision)));
          Done(t.(policies := t.policies[id := p']), (p', false))
  }
}
