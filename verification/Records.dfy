/**
 The retained records of the coordinator's journal and the checks made on each one:
 plans, definitions, owner policies, schedules, triggers, reservations and archives.

 Identifiers are natural numbers, zero standing for the nil UUID.  Digests are opaque tags
 stored with the record they identify.
 */
module Records {
  import opened Prelude

  type Id = nat

  const NIL: Id := 0

  datatype Context = Context(request: Id, node: int, area: int)

  /** The fixed operations an approval covers: origin, input and number of operations. */
  datatype Scope = Scope(owner: Context, input: int, operations: nat)

  datatype Receipt = Receipt(operation: Id, revision: nat)

  // ------------------------------------------------------------------ plans

  datatype Status =
    | Pending | Review | AwaitingApproval | Approved | Running | Pausing | Paused
    | Stopping | JobInterrupted | Completed | Failed | Cancelled | Abandoned

  datatype TaskStatus = TaskPending | TaskRunning | TaskCompleted | TaskFailed | TaskCancelled | TaskInterrupted

  datatype Task = Task(status: TaskStatus, attempts: nat, bound: bool, hasResult: bool)

  datatype Planning = Planning(sha: int, input: int, operations: nat)

  datatype Limits = Limits(executionMs: nat, resultBytes: nat)

  datatype Link = Link(schedule: Id, trigger: Id)

  datatype Delegation = Delegation(
    reservation: Id, policy: Id, policySha: int, definition: Id,
    generation: nat, runtime: Id, link: Option<Link>)

  datatype Approval = Approval(
    operation: Id, issuer: int, approvedAt: nat, expiresAt: nat,
    limits: Limits, delegation: Option<Delegation>)

  datatype Execution = Execution(operation: Id, attempts: nat)

  datatype Plan = Plan(
    id: Id, context: Option<Context>, revision: nat, status: Status,
    planning: Option<Planning>, approval: Option<Approval>, execution: Option<Execution>,
    tasks: seq<Task>, results: bool, updatedAt: nat)

  /** Proven terminal evidence: all work completed and attempted, or nothing was ever issued. */
  predicate Resolved(p: Plan) {
    match p.status
    case Completed =>
      && p.tasks != []
      && (forall task | task in p.tasks :: task.status == TaskCompleted)
      && p.execution.Some? && p.execution.value.attempts == |p.tasks|
    case Cancelled =>
      && (p.execution.None? || p.execution.value.attempts == 0)
      && (forall task | task in p.tasks ::
            task == Task(TaskCancelled, 0, false, false))
      && !p.results
    case _ => false
  }

  predicate Finished(p: Plan) {
    p.status in {Completed, Failed, Cancelled, Abandoned}
  }

  function FixedScope(p: Plan): Option<Scope> {
    if p.context.Some? && p.planning.Some? && 1 <= p.planning.value.operations <= 128
    then Some(Scope(p.context.value, p.planning.value.input, p.planning.value.operations))
    else None
  }

  function DelegationOf(p: Plan): Option<Delegation> {
    if p.approval.Some? then p.approval.value.delegation else None
  }

  function LinkOf(p: Plan): Option<Link> {
    if DelegationOf(p).Some? then DelegationOf(p).value.link else None
  }

  /** A job may be inserted only in a fresh, unplanned, unapproved state. */
  predicate FreshPlan(p: Plan) {
    && p.status in {Pending, Review}
    && p.revision == 0 && !p.results
    && p.planning.None? && p.approval.None? && p.execution.None?
    && (forall task | task in p.tasks :: task == Task(TaskPending, 0, false, false))
    && (p.status == Review ==> p.tasks == [] && p.context.Some?)
  }

  // ------------------------------------------------------- definitions and policies

  datatype Define = Define(
    operation: Id, job: Id, revision: nat, planSha: int,
    every: nat, maxRuns: nat, validFor: nat)

  predicate ValidDefine(c: Define) {
    && c.operation != NIL && 0 < c.revision < U64_LIMIT - 1
    && 1000 <= c.every <= 86_400_000
    && 1 <= c.maxRuns <= 128
    && 1000 <= c.validFor <= 86_400_000
    && c.every <= c.validFor
  }

  /** `frozen` is the source plan; it is released, but still identified, once `removal` is set. */
  datatype Definition = Definition(
    id: Id, owner: Context, createdAt: nat, creation: Define,
    sha: int, frozen: Plan, removal: Option<Receipt>)

  predicate DefinableFrom(c: Define, plan: Plan) {
    && plan.id == c.job && plan.revision == c.revision
    && plan.status == AwaitingApproval && plan.approval.None? && plan.execution.None?
    && plan.planning.Some? && plan.planning.value.sha == c.planSha
  }

  predicate ValidDefinition(d: Definition) {
    && ValidDefine(d.creation)
    && d.id == d.creation.operation && d.createdAt != 0
    && match d.removal
       case None => DefinableFrom(d.creation, d.frozen) && d.frozen.context == Some(d.owner)
       case Some(r) => r.operation != d.id && r.revision == 1
  }

  datatype Approve = Approve(
    definition: Id, definitionSha: int, generation: nat, operation: Id, validFor: nat,
    maxRuns: nat, limits: Limits, maxExecutionMs: nat, maxResultBytes: nat)

  predicate ValidApprove(c: Approve) {
    && c.definition != NIL && c.operation != NIL
    && c.generation < U64_LIMIT - 1
    && 1000 <= c.validFor <= 86_400_000
    && 1 <= c.maxRuns <= 128
    && 1 <= c.limits.executionMs && 1024 <= c.limits.resultBytes <= 1024 * 1024
    && c.limits.executionMs <= c.validFor
    && 1 <= c.maxExecutionMs <= 86_400_000
    && 1024 <= c.maxResultBytes <= 128 * 1024 * 1024
  }

  datatype Policy = Policy(
    id: Id, creation: Approve, generation: nat, runtime: Id, issuer: int,
    approvedAt: nat, expiresAt: nat, scope: Scope, sha: int, revocation: Option<Receipt>)

  /** Worst-case time and result bytes that one run of a policy reserves. */
  function AllowanceMs(p: Policy): nat { p.scope.operations * p.creation.limits.executionMs }
  function AllowanceBytes(p: Policy): nat { p.scope.operations * p.creation.limits.resultBytes }

  predicate ValidPolicy(p: Policy) {
    && ValidApprove(p.creation)
    && 1 <= p.scope.operations <= 128
    && p.runtime != NIL
    && p.id == p.creation.operation
    && p.generation == p.creation.generation + 1
    && p.approvedAt != 0
    && p.expiresAt == p.approvedAt + p.creation.validFor < U64_LIMIT
    && AllowanceMs(p) <= p.creation.maxExecutionMs
    && AllowanceBytes(p) <= p.creation.maxResultBytes
    && (p.revocation.Some? ==>
          p.revocation.value.operation != p.id && p.revocation.value.revision == 1)
  }

  /** An approval never widens or substitutes the definition it was given for. */
  predicate PolicyFits(p: Policy, d: Definition) {
    && p.creation.definition == d.id
    && p.creation.definitionSha == d.sha
    && p.creation.validFor <= d.creation.validFor
    && p.creation.maxRuns <= d.creation.maxRuns
    && p.approvedAt >= d.createdAt
    && p.scope.owner == d.owner
    && (d.removal.None? ==> FixedScope(d.frozen) == Some(p.scope))
  }

  // ------------------------------------------------------------------ schedules

  datatype Arm = Arm(policy: Id, policySha: int, operation: Id)

  datatype State = Waiting | InFlight | Stopped | Interrupted | Exhausted | Settled

  datatype Reason =
    | Restart | BackwardClock | MissedTrigger | PolicyChanged | LaunchFailed | SourcePresent
    | Shutdown | ClockDiscontinuity | JobUnresolved | CheckpointFailed | PreflightRefused
    | OwnerStop | RunBudget | TimeBudget | PolicyBudget | RefusalResolved

  predicate Interruption(r: Reason) {
    r in {Restart, BackwardClock, MissedTrigger, PolicyChanged, LaunchFailed, SourcePresent,
          Shutdown, ClockDiscontinuity, JobUnresolved, CheckpointFailed, PreflightRefused}
  }

  predicate Exhaustion(r: Reason) {
    r in {RunBudget, TimeBudget, PolicyBudget}
  }

  datatype Refusal = Refusal(trigger: Id, triggerSha: int, runtime: Id, observedAt: nat, sha: int)

  datatype Resolution = Resolution(
    operation: Id, revision: nat, trigger: Id, refusalSha: int, resolvedAt: nat)

  /** State `Settled` is the journal's "resolved": an owner accepted the refusal evidence. */
  datatype Schedule = Schedule(
    creation: Arm, definition: Id, runtime: Id, issuer: int, generation: nat,
    armedAt: nat, expiresAt: nat, every: nat, revision: nat, state: State, observedAt: nat,
    nextDue: Option<nat>, active: Option<Id>, launchedAt: Option<nat>,
    refusal: Option<Refusal>, resolution: Option<Resolution>, claimed: nat,
    stop: Option<Receipt>, reason: Option<Reason>)
  {
    function Id(): Id { creation.operation }
    predicate Active() { state == Waiting || state == InFlight }
    predicate Holds(trigger: Id) { state == InFlight && active == Some(trigger) }
  }

  predicate ValidStop(s: Schedule) {
    s.stop.Some? ==>
      && s.stop.value.operation != NIL && s.stop.value.operation != s.Id()
      && (if s.resolution.None? then s.stop.value.revision + 1 == s.revision
          else SaturatingAdd(s.stop.value.revision, 1) < s.revision)
      && s.state in {Stopped, Settled}
  }

  predicate ValidRefusal(s: Schedule) {
    s.refusal.Some? ==>
      && s.refusal.value.trigger != NIL
      && s.refusal.value.runtime == s.runtime
      && s.refusal.value.observedAt != 0
      && s.active == Some(s.refusal.value.trigger)
      && s.launchedAt.None?
      && s.state in {Interrupted, Stopped, Settled}
  }

  predicate ValidResolution(s: Schedule) {
    match s.resolution
    case None => s.state != Settled
    case Some(r) =>
      && s.refusal.Some? && s.state == Settled
      && r.operation != NIL && r.operation != s.Id() && r.operation != s.refusal.value.trigger
      && r.revision + 1 == s.revision && r.resolvedAt != 0
      && r.refusalSha == s.refusal.value.sha && r.trigger == s.refusal.value.trigger
  }

  predicate ValidShape(s: Schedule) {
    match s.state
    case Waiting =>
      && s.stop.None? && s.reason.None? && s.active.None? && s.launchedAt.None?
      && s.armedAt <= s.observedAt
      && s.nextDue.Some? && s.observedAt < s.nextDue.value < s.expiresAt
    case InFlight =>
      && s.stop.None? && s.reason.None? && s.active.Some? && s.nextDue.None?
      && s.armedAt <= s.observedAt && s.claimed > 0
    case Stopped =>
      s.stop.Some? && s.nextDue.None? && s.reason == Some(OwnerStop)
    case Interrupted =>
      s.stop.None? && s.nextDue.None? && s.reason.Some? && Interruption(s.reason.value)
    case Exhausted =>
      && s.stop.None? && s.nextDue.None? && s.active.None? && s.launchedAt.None?
      && s.reason.Some? && Exhaustion(s.reason.value)
    case Settled =>
      && s.resolution.Some? && s.refusal.Some? && s.nextDue.None? && s.active.Some?
      && s.reason == Some(RefusalResolved)
  }

  /** The part of a schedule that no later checkpoint may change, against its authority. */
  predicate ValidLineage(s: Schedule, p: Policy, d: Definition) {
    && s.Id() != NIL && s.definition != NIL && s.runtime != NIL && s.creation.policy != NIL
    && s.creation.policySha == p.sha
    && s.Id() != p.id && s.Id() != s.definition && s.Id() != s.runtime
    && s.definition == p.creation.definition
    && s.runtime == p.runtime && s.issuer == p.issuer
    && s.generation == p.generation && s.expiresAt == p.expiresAt
    && p.approvedAt <= s.armedAt < s.expiresAt
    && s.every == d.creation.every
    && s.claimed <= p.creation.maxRuns
  }

  predicate ValidLifecycle(s: Schedule) {
    && 1 <= s.revision && 2 * s.claimed <= s.revision
    && s.observedAt != 0
    && (s.active.Some? ==> s.active.value != NIL)
    && ValidStop(s) && ValidRefusal(s) && ValidResolution(s) && ValidShape(s)
  }

  // ------------------------------------------------------------------ triggers

  datatype Trigger = Trigger(
    id: Id, schedule: Id, ordinal: nat, dueAt: nat, claimedAt: nat,
    context: Context, reservation: Id, execution: Id, sha: int)

  predicate Owns(x: Trigger, id: Id) {
    id == x.id || id == x.reservation || id == x.execution || id == x.context.request
  }

  predicate ValidTriggerIds(x: Trigger, policy: Id) {
    && x.id != NIL && x.schedule != NIL && x.reservation != NIL && x.execution != NIL
    && x.context.request != NIL
    && x.id !in {x.schedule, x.reservation, x.execution, x.context.request, policy}
    && x.schedule !in {x.reservation, x.execution, x.context.request, policy}
    && x.reservation !in {x.execution, x.context.request, policy}
    && x.execution !in {x.context.request, policy}
    && x.context.request != policy
  }

  predicate ValidTrigger(x: Trigger, s: Schedule, p: Policy) {
    && ValidTriggerIds(x, p.id)
    && x.schedule == s.Id()
    && 1 <= x.ordinal <= s.claimed
    && x.dueAt <= x.claimedAt < s.expiresAt
    && SaturatingAdd(s.armedAt, s.every) <= x.dueAt
    && x.claimedAt - x.dueAt < s.every
    && x.context.node == p.scope.owner.node
    && x.context.area == p.scope.owner.area
    && x.context.request != p.scope.owner.request
  }

  // ------------------------------------------------------- reservations and archives

  datatype Reserve = Reserve(
    policy: Id, policySha: int, job: Id, revision: nat, planSha: int, operation: Id)

  predicate ValidReserve(c: Reserve) {
    && c.policy != NIL && c.operation != NIL && c.policy != c.operation
    && 0 < c.revision < U64_LIMIT - 1
  }

  /** `snapshot` is the job exactly as it was approved by this reservation. */
  datatype Reservation = Reservation(
    command: Reserve, delegation: Delegation, ordinal: nat, reservedAt: nat,
    executionMs: nat, resultBytes: nat, snapshot: Plan, sha: int)
  {
    function Id(): Id { command.operation }
  }

  predicate ValidSnapshot(r: Reservation) {
    && r.snapshot.id == r.command.job
    && r.snapshot.revision == r.command.revision + 1
    && r.snapshot.status == Approved
    && r.snapshot.execution.None?
    && r.snapshot.planning.Some? && r.snapshot.planning.value.sha == r.command.planSha
    && r.snapshot.approval.Some?
    && r.snapshot.approval.value.operation == r.Id()
    && r.snapshot.approval.value.approvedAt == r.reservedAt
    && r.snapshot.approval.value.delegation == Some(r.delegation)
  }

  predicate ValidDelegationIds(d: Delegation) {
    && d.reservation != NIL && d.policy != NIL && d.definition != NIL && d.runtime != NIL
    && d.generation != 0 && d.reservation != d.policy
    && (d.link.Some? ==>
          && d.link.value.schedule != NIL && d.link.value.trigger != NIL
          && d.link.value.schedule != d.link.value.trigger
          && d.link.value.schedule != d.policy
          && d.link.value.trigger != d.reservation)
  }

  /** A fresh request from the exact approved origin, otherwise exactly the approved scope. */
  predicate MatchingScope(plan: Plan, p: Policy) {
    && FixedScope(plan).Some?
    && FixedScope(plan).value.owner.node == p.scope.owner.node
    && FixedScope(plan).value.owner.area == p.scope.owner.area
    && FixedScope(plan).value.owner.request != p.scope.owner.request
    && FixedScope(plan).value.(owner := p.scope.owner) == p.scope
  }

  predicate ValidReservation(r: Reservation, p: Policy, d: Definition) {
    && ValidReserve(r.command) && ValidDelegationIds(r.delegation) && ValidSnapshot(r)
    && r.delegation.reservation == r.Id()
    && r.delegation.policy == r.command.policy
    && r.delegation.policySha == r.command.policySha == p.sha
    && r.delegation.definition == p.creation.definition
    && r.delegation.generation == p.generation
    && r.delegation.runtime == p.runtime
    && MatchingScope(r.snapshot, p)
    && r.command.job != d.creation.job
    && 1 <= r.ordinal <= p.creation.maxRuns
    && r.snapshot.approval.value.issuer == p.issuer
    && r.snapshot.approval.value.limits == p.creation.limits
    && r.snapshot.approval.value.expiresAt == p.expiresAt
    && p.approvedAt <= r.reservedAt < p.expiresAt
    && r.executionMs == AllowanceMs(p) && r.resultBytes == AllowanceBytes(p)
    && r.executionMs <= p.expiresAt - r.reservedAt
  }

  /** The current job still carries the authority that the reservation gave it. */
  predicate LiveMatches(r: Reservation, plan: Plan) {
    && plan.id == r.snapshot.id
    && plan.revision >= r.snapshot.revision
    && plan.context == r.snapshot.context
    && plan.approval == r.snapshot.approval
    && FixedScope(plan).Some? && FixedScope(plan) == FixedScope(r.snapshot)
    && plan.planning.Some? && r.snapshot.planning.Some?
    && plan.planning.value.sha == r.snapshot.planning.value.sha
  }

  datatype ArchiveCommand = ArchiveCommand(
    reservation: Id, reservationSha: int, job: Id, revision: nat, operation: Id)

  predicate ValidArchiveCommand(c: ArchiveCommand) {
    && c.reservation != NIL && c.operation != NIL && c.reservation != c.operation
    && 0 < c.revision < U64_LIMIT - 1
  }

  datatype Archive = Archive(
    command: ArchiveCommand, runtime: Id, archivedAt: nat, terminal: Plan)
  {
    function Id(): Id { command.operation }
  }

  predicate ValidArchive(a: Archive, r: Reservation) {
    && ValidArchiveCommand(a.command)
    && a.command.reservation == r.Id()
    && a.command.reservationSha == r.sha
    && a.command.job == r.command.job
    && a.terminal.id == a.command.job && a.terminal.revision == a.command.revision
    && a.runtime != NIL && a.archivedAt != 0
    && a.archivedAt >= r.reservedAt && a.archivedAt >= a.terminal.updatedAt
    && Resolved(a.terminal)
    && LiveMatches(r, a.terminal)
  }
}
