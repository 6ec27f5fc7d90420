# Verified model of the eef coordinator's durable core

eef's coordinator lets an owner approve a fixed piece of work once and have it repeated by a timer. What
makes that safe is a durable ledger: definitions, owner policies with generations, schedules, triggers
(claims), occurrence reservations and terminal archives, all in one journal behind one lock. This project
models that ledger as a state machine over its checkpoints and proves what every run of it keeps. Around
it stand the other parts whose rules only make sense over whole runs: the shared storage quota, the
indexed history reader, the capability registry, the timer's shutdown, the reserved checkpoint queues,
stop delivery, the installer payload parser and the microphone stream.

`dafny verify dfyconfig.toml` checks everything.

## How it is laid out

| files | what they hold |
|---|---|
| `Prelude`, `Records` | optional values, 64-bit arithmetic, append-only logs; every retained record with the checks made on it |
| `Ledger` | the seven tables, the history check, and each checkpoint's effect as a function of the tables and of everything it reads (clocks, generated identifiers, quota room) |
| `LedgerInvariant`, `LedgerSteps`, `LedgerRuns` | the invariant, stronger than the history check; the shape of each checkpoint's change; preservation over every run |
| `LedgerCalls` | which attempt each checkpoint event makes |
| `LedgerEvolution`, `LedgerTheorems`, `LedgerReceipts`, `LedgerArchives`, `LedgerLaunch`, `LedgerExhaustion` | what no later step undoes, and the promises that follow |
| `LedgerDue`, `LedgerOutcomes` | exactly when each scheduling and reservation checkpoint commits, and that its check on the staged result fails for no other reason |
| `LedgerAuthority` | what stopping, interrupting, revoking, removing and superseding end for good |
| `LedgerSerial`, `LedgerClaims`, `LedgerOverlap`, `LedgerAlone` | no overlap of reservations, exactly which checkpoints can open a claim again, and exactly when claims do not overlap |
| `LedgerPlain`, `LedgerConditions`, `LedgerGates`, `LedgerGrants` | what every check means over the fields of the records alone, and for each of the twenty checkpoints exactly when it commits and what it leaves, in those terms |
| `LedgerRecreation` | exactly when an archived request gets a live job again |
| `LedgerWitness`, `LedgerBorrow`, `LedgerRecreated` | concrete runs from the empty ledger in which claims overlap and an archived request returns |
| `LedgerQuota` | the ledger's checkpoints on the shared quota |
| `Journal` | the journal as an object with mutable tables, one method per checkpoint, running on the indexed readers and gates and proved equal to its specification |
| `Ordinals`, `HistoryReader`, `HistoryGates` | the one-pass indexed reader and the admission gates against the declarative check |
| `Storage`, `StorageLaws`, `StorageWriters` | the shared count and byte quota |
| `Capacity`, `Registry`, `RegistryRuns` | the provider registry and its counters |
| `Timer`, `Checkpoints`, `StopDelivery` | shutdown, permit queues and write-once stops |
| `Payload`, `Stream` | installer framing; microphone producer and stream host |

A checkpoint either is refused and leaves the tables alone, or commits. Many checkpoints save one record
and never run the history check again (arm, begin-launch, interrupt, stop, settle), so the check's truth
afterwards is a theorem here. It needs facts the code never states: while a schedule waits its next due
time is its last observation plus its period, and its revision is at least twice its claims plus one.

What a check means is never left to its own definition. `LedgerPlain` spells out over record fields what it is
to be terminal evidence, in force, affordable, in scope or over, and proves that the checks say that in every
ledger that is `Sound`; `LedgerPlain.ReachableIsSound` makes every reachable ledger one. `LedgerConditions`,
`LedgerGates` and `LedgerGrants` then give each checkpoint's commit condition and effect in those terms.

Identifiers are numbers with zero for the nil UUID. Digests are opaque tags stored with the record they
identify. A clock is read as many times as the code reads it, and nothing is assumed about the values.

## Where the code does not do what is expected of it

* A reservation for a job that belongs to no claim is checked against no claim, so its receipt may equal
  the receipt that a claim was given (`crates/eef/src/automation_schedules.rs:712-721`). A claim that was
  over because its own job had been cancelled is then open again, while its schedule goes on.
  `LedgerBorrow.BorrowReopens` and `LedgerBorrow.TwoUnresolvedClaims` are a run from the empty ledger that
  ends with two unresolved claims of one definition.
* That run goes wrong at its last step. Arming asks `resolved_claim` about every claim of the definition
  (`crates/eef/src/automation_schedules.rs:1153-1168`), but neither the due check
  (`crates/eef/src/automation_schedules.rs:1185-1324`) nor re-arming after a claim
  (`crates/eef/src/automation_schedules.rs:1368-1420`, which asks only about the claim it holds) does.
  `LedgerDue.DueOutcome` gives the due check's exact guard, which has no such condition.
  `LedgerAlone.AloneExactly` proves that a run never has two open claims of one definition if and only if in
  none of its steps a due check claims, or a claim is reopened, while another claim of the definition is open;
  `LedgerAlone.CalmExactly` says when no claim is open beside a waiting schedule.
* Direct insertion makes no duplicate check (`crates/eef/src/jobs.rs:302-306`), unlike admission. While a
  claim is held and its only job is cancelled, inserting another job for its request makes the source
  ambiguous and opens the claim again, and a launch that then fails returns before it releases the claim
  (`crates/eef/src/automation_trigger.rs:34-38`). `LedgerBorrow.SecondJobReopens` is such a run;
  `LedgerLaunch.FailedLaunchReleases` says exactly when a failed launch releases its claim.
* Those two are all that reopen: `LedgerClaims.StepReopens` proves for every checkpoint and every reachable
  state that nothing else opens a resolved claim. Of the two only the borrowed receipt can start a disorder,
  since an insertion can only touch the claim that is held: `LedgerOverlap.QuietExactly` proves that the
  claims of each definition are served one after the other throughout a run if and only if no reservation in
  it takes the receipt of a resolved claim that a later claim or an active schedule of its definition relies
  on. Such runs never crowd (`LedgerAlone.HonestNeverCrowds`), but others may be free of crowding too, so the
  condition for one open claim is the one of `LedgerAlone.AloneExactly`. At most one unresolved reservation
  per definition holds without any condition.
* An archived request is refused by admission only (`crates/eef/src/jobs.rs:311-320`); direct insertion
  (`crates/eef/src/jobs.rs:302-306`, `crates/eef/src/jobs.rs:371-399`), which takes goals that carry a request
  too (`crates/eef/src/task.rs:696-707`), asks about the archived job identity but not about the request.
  `LedgerRecreation.StepRecreates` proves exactly when a new job for an archived request appears: on a direct
  insertion of a fresh plan under a new identity, with room, unless a claim that names the request is no
  longer held under current authority. `LedgerRecreated.RequestReturns` is such a run from the empty ledger;
  `LedgerRecreation.ReleasedNeverRecreated` proves that it cannot happen to a claim that was let go. An archive
  may likewise leave another live job of the same request behind; `LedgerRecreation.AlwaysGoneExactly` says
  exactly which runs keep every archived request without a live job.
* A reservation whose receipt is the one that a refused claim was given passes every early check and is then
  refused by the check on the staged history: `LedgerOutcomes.ReserveOutcome` shows that this is the only way
  in which that check can fail.
* The journal does not itself keep proven terminal evidence from being edited; its callers do. The model's
  edit checkpoint takes that discipline as given (`Ledger.Editable`).
* Saving a policy leaves the set-up model checks out of its byte total
  (`crates/eef/src/automation_authorizations.rs:150-164`), while every other writer counts them.
  `StorageLaws.PolicyOverrunExample` is a 2000-byte policy saved beyond a 5000-byte limit;
  `StorageLaws.PolicyOverrun` says exactly which writes do so, and `StorageLaws.RunBounded` bounds every run.

## Model

| member | source | states |
|---|---|---|
| `LedgerRuns.HistoryAlwaysOk` | crates/eef/src/automation_schedules.rs:402-539 | from an empty ledger every run of all twenty checkpoints keeps the whole history check and the occurrence check true, also after checkpoints that never re-run it |
| `LedgerRuns.StepKeeps` | crates/eef/src/automation_schedules.rs:566-594 | any checkpoint with any inputs keeps the strengthened ledger invariant |
| `LedgerRuns.Classify` | crates/eef/src/automation_schedules.rs:994-1054 | every checkpoint makes one of ten kinds of change, and new jobs and reservations come only from their own commands |
| `LedgerSteps.SettleShape` | crates/eef/src/automation_schedules.rs:1368-1420 | settling edits one schedule, and re-arms it only when the claim it held is over |
| `LedgerSteps.ClaimShape` | crates/eef/src/automation_schedules.rs:1185-1324 | a due check does nothing, retires the schedule, or appends exactly one claim at its due time under fresh identities |
| `LedgerSteps.ClaimKeeps` | crates/eef/src/automation_schedules.rs:1280-1324 | a claim keeps pacing, spacing, numbering, identities and the authority of all retained work |
| `LedgerSteps.ReserveKeeps` | crates/eef/src/automation_occurrences.rs:536-590 | approving a job and inserting its reservation together keep the invariant, with distinct receipts and consecutive ordinals |
| `LedgerSteps.ArchiveKeeps` | crates/eef/src/automation_occurrence_archives.rs:189-213 | replacing a job by its archive keeps the invariant |
| `LedgerSteps.ApproveShape` | crates/eef/src/automation_authorizations.rs:216-282 | an approval adds one policy whose generation is next, or returns the retained one |
| `LedgerSteps.NextGeneration` | crates/eef/src/automation_authorizations.rs:53-75 | appending the compare-and-swap generation keeps every definition's generations exactly 1..n |
| `LedgerEvolution.RunEvolves` | crates/eef/src/automation_schedules.rs:640-668 | over any run stop, refusal and resolution receipts stay, schedules keep their lineage, logs only grow, retired authority stays retired, a claim let go is never held again, resolved reservations stay resolved |
| `LedgerTheorems.BudgetsHold` | crates/eef/src/automation_occurrences.rs:146-201 | in every reachable state a policy's reservation ordinals are exactly 1..n, n is at most max_runs, and reserved time and bytes are within the approved budgets |
| `LedgerTheorems.NoRefund` | crates/eef/src/automation_occurrences.rs:475-568 | no run of any checkpoints ever lowers the used time or bytes of a policy or drops a reservation |
| `LedgerTheorems.ClaimsArePaced` | crates/eef/src/automation_schedules.rs:348-353 | the k-th claim is due no earlier than armed + k*every, happens within one period of its due time, and k*every is less than expires - armed |
| `LedgerTheorems.ClaimsAreSpaced` | crates/eef/src/automation_schedules.rs:1206-1226 | a later claim of the same schedule is due at least one whole period after the earlier was claimed; there is no catch-up claim |
| `LedgerTheorems.ClaimsAreNumbered` | crates/eef/src/automation_schedules.rs:475-508 | a schedule's claims are numbered exactly 1..claimed_runs and no two claims share any identity |
| `LedgerTheorems.ReleasedForever` | crates/eef/src/automation_schedules.rs:712-797 | once a schedule stopped holding a claim, no later state admits its source, links a reservation to it, begins its launch or passes its issuance fence |
| `LedgerTheorems.StaysReleased` | crates/eef/src/automation_schedules.rs:997-1054 | a claim let go is never held again |
| `LedgerTheorems.RefusalExcludesWork` | crates/eef/src/automation_schedules.rs:517-531 | a recorded refusal never coexists with a launch mark, a job or a reservation of its claim |
| `LedgerExhaustion.ExhaustionIsTrue` | crates/eef/src/automation_schedules.rs:1241-1263 | in every reachable state an exhausted schedule used all its runs, or its policy's budgets cannot pay for another run any more, or its approved time could not hold one a period later, as its reason says |
| `LedgerExhaustion.NeverAvailableAgain` | crates/eef/src/automation_occurrences.rs:230-261 | a budget that no longer fits another run never fits one again |
| `LedgerDue.DueOutcome` | crates/eef/src/automation_schedules.rs:1185-1324 | in every reachable state a due check claims if and only if its guard holds (waiting, inside its window and current at both clock readings, definition's reservations resolved, a run, budgets and time left, fresh identifiers, room, a revision left); otherwise it interrupts or exhausts for the first reason that holds, or changes nothing, each exactly when its verdict says; the staged history check never fails |
| `LedgerDue.SettleOutcome` | crates/eef/src/automation_schedules.rs:1368-1420 | in every reachable state settling commits if and only if the held claim is over, the schedule can be saved and no clock overflows; it interrupts for a backward clock or lost authority, exhausts for the first reason for which no run could start one period later, and waits for that time otherwise |
| `LedgerDue.OpeningCommits` | crates/eef/src/automation_schedules.rs:655-668 | opening a reachable ledger commits if and only if every active schedule can be saved; afterwards none is active and every other record is as it was |
| `LedgerDue.StagedIsValid` | crates/eef/src/automation_schedules.rs:1265-1300 | a due claim of a schedule with a run left passes every check that is run on what it stages |
| `LedgerOutcomes.ReserveOutcome` | crates/eef/src/automation_occurrences.rs:402-590 | in every reachable state a reservation under a new receipt commits if and only if its guard holds, leaving exactly the approved job and its reservation; the check on the staged ledger fails only for a receipt that a refused claim was given; a retained receipt returns its reservation to the same command alone |
| `LedgerOutcomes.ArchiveOutcome` | crates/eef/src/automation_occurrence_archives.rs:135-213 | in every reachable state an archive under a new receipt commits if and only if its guard holds; the check on the staged ledger fails only for a clock before the reservation or the job's last change |
| `LedgerOutcomes.ArmOutcome` | crates/eef/src/automation_schedules.rs:1087-1184 | in every reachable state arming under a new receipt commits if and only if its guard holds, and the schedule it saves is always valid |
| `LedgerOutcomes.ResolveOutcome` | crates/eef/src/automation_schedules.rs:840-902 | in every reachable state resolving a refusal commits if and only if its guard holds; the check on the staged history never fails |
| `LedgerOutcomes.StopOutcome` | crates/eef/src/automation_schedules.rs:1325-1367 | in every reachable state a first stop commits if and only if its guard holds, in any state of the schedule but one whose refusal was resolved |
| `LedgerOutcomes.LaunchOutcome` | crates/eef/src/automation_schedules.rs:997-1054 | in every reachable state a launch of a retained claim begins if and only if its guard holds, and reports reuse exactly for a held claim marked before |
| `LedgerPlain.ReachableIsSound` | crates/eef/src/automation_schedules.rs:402-539 | every reachable ledger satisfies what the rows below assume of a ledger |
| `LedgerPlain.ResolvedIsProven` | crates/eef/src/automation_occurrence_archives.rs:5-27 | evidence is terminal exactly when the job is Completed with at least one task, all of them completed and as many attempts as tasks, or Cancelled with no attempt, result or binding in any task and no results |
| `LedgerPlain.ClaimsEndProven` | crates/eef/src/automation_schedules.rs:1422-1470 | a claim is over exactly when an owner accepted its refusal, or the job of its reservation is proven in that sense, or it has no reservation and its only job was cancelled before any approval |
| `LedgerConditions.ArchivesAreProven` | crates/eef/src/automation_occurrence_archives.rs:135-213 | every archive holds proven evidence |
| `LedgerConditions.UnprovenStays` | crates/eef/src/automation_schedules.rs:1368-1420 | while the reserved job of a claim is live with any other evidence, failed and interrupted jobs included, the claim is not over and settling is refused |
| `LedgerPlain.ReservedInScope` | crates/eef/src/automation_occurrences.rs:15-28 | the approved job of every reservation, its live job and its archived evidence have the approved input and number of operations, the approved node and area, and another request |
| `LedgerPlain.WithinBudgets` | crates/eef/src/automation_occurrences.rs:230-261 | the number of a policy's reservations, and that number times the full time and result bytes of all its operations, stay within the three approved budgets |
| `LedgerConditions.ReserveWhen` | crates/eef/src/automation_occurrences.rs:402-590 | under a new receipt a reservation commits if and only if it names the policy and job as they are, the policy is in force at both clock readings with time for every operation, the plan is in scope, all runs of the definition are proven, one more run is affordable, and the claims allow it; it approves exactly that job with exactly the approved limits and expiry |
| `LedgerConditions.ArchiveWhen` | crates/eef/src/automation_occurrence_archives.rs:135-213 | under a new receipt an archive commits if and only if it names the reservation and job as they are, the job is proven and no clock lies before them |
| `LedgerConditions.ArmWhen` | crates/eef/src/automation_schedules.rs:1087-1184 | under a new receipt arming commits if and only if the policy is in force, affordable and leaves time at the due time and at commit, no run is unproven, no schedule active and no claim open; the fields of the new schedule |
| `LedgerConditions.ClaimWhen` | crates/eef/src/automation_schedules.rs:1185-1324 | a due check claims if and only if the schedule waits, both clock readings lie between one and two periods after its last observation, its policy is in force, and a run, the budgets and the time are left; the fields of the new claim |
| `LedgerConditions.DueWhen` | crates/eef/src/automation_schedules.rs:1206-1263 | a due check that does not claim interrupts for a backward clock, lost authority or a missed window, exhausts for the first reason for which no run is left, or changes nothing |
| `LedgerConditions.SettleWhen` | crates/eef/src/automation_schedules.rs:1368-1420 | settling commits if and only if the held claim is proven over, a revision is left and no clock overflows; it leaves exactly the interrupted, exhausted or waiting schedule that clock, authority and budgets call for |
| `LedgerGates.EditWhen` | crates/eef/src/automation_occurrences.rs:288-316 | an edit commits if and only if it keeps identity and request, leaves proven evidence as it is, keeps the authority of a reserved job or gains none, has source authority where it compiles a request, and, where it is gated, the policy it was delegated under is in force for this runtime and issuer and its claim is held |
| `LedgerGates.IssueNeedsForce` | crates/eef/src/automation_occurrences.rs:288-316 | no gated edit of a delegated job commits under another runtime or issuer, or outside the approved window |
| `LedgerGates.IssueEnds` | crates/eef/src/automation_occurrences.rs:288-316 | once a policy was revoked or superseded or its definition removed, no gated edit of a job delegated under it commits in any later state |
| `LedgerGates.InsertWhen` | crates/eef/src/jobs.rs:371-399 | a direct insertion commits if and only if the plan is untouched, its identity is neither live nor archived, and a claim that names its request is held in force |
| `LedgerGates.AdmitWhen` | crates/eef/src/jobs.rs:311-370 | admission inserts exactly then, and only for a request with neither a retained nor an archived job; otherwise it at most returns the one retained job |
| `LedgerGates.RemovalWhen` | crates/eef/src/jobs.rs:588-612 | a job is removed if and only if it is finished, was never reserved and its request never claimed |
| `LedgerGrants.LaunchWhen` | crates/eef/src/automation_schedules.rs:997-1033 | a launch begins if and only if the claim is held unmarked in this runtime, no work of it exists, and its policy is in force at both clock readings |
| `LedgerGrants.RefusalWhen` | crates/eef/src/automation_schedules.rs:803-839 | a refusal is recorded exactly for a held claim without launch or work, once |
| `LedgerGrants.ResolveWhen` | crates/eef/src/automation_schedules.rs:840-902 | a refusal is resolved if and only if the command names it as it is, under an identity that no claim was given |
| `LedgerGrants.StopWhen` | crates/eef/src/automation_schedules.rs:1325-1367 | a first stop commits if and only if it names the current revision under an identity that no claim was given and no refusal was resolved |
| `LedgerGrants.InterruptWhen` | crates/eef/src/automation_schedules.rs:1034-1054 | an interruption ends exactly an active schedule, with its reason |
| `LedgerGrants.InterruptTriggerWhen` | crates/eef/src/automation_schedules.rs:1034-1054 | interrupting a claim ends exactly the schedule that still holds it |
| `LedgerGrants.OpenWhen` | crates/eef/src/automation_schedules.rs:655-668 | opening ends exactly the active schedules as interrupted by a restart, all or none |
| `LedgerGrants.DefineWhen` | crates/eef/src/automations.rs:554-619 | a new definition is saved if and only if its numbers are in range and it names a compiled, unapproved job as it is; the saved record |
| `LedgerGrants.RemoveDefinitionWhen` | crates/eef/src/automations.rs:620-650 | a definition is removed, once, by a receipt of its own |
| `LedgerGrants.ApproveWhen` | crates/eef/src/automation_authorizations.rs:216-251 | a new approval is saved if and only if every number is in range, it covers exactly the definition's fixed plan within the definition's limits, and it names the newest generation |
| `LedgerGrants.RevokeWhen` | crates/eef/src/automation_authorizations.rs:252-282 | a policy is revoked, once, by a receipt of its own |
| `LedgerLaunch.FailedLaunchReleases` | crates/eef/src/automation_trigger.rs:26-45 | a failed launch gives its claim up if and only if it had been marked as launched or its source is not ambiguous, and the schedule can still be saved; it leaves refusal evidence exactly when nothing was launched and no source job exists, and touches no other record |
| `LedgerLaunch.RefusalCommits` | crates/eef/src/automation_schedules.rs:803-839 | recording such a refusal never fails the check that is run on the staged result |
| `LedgerReceipts.RetainsForever` | crates/eef/src/automation_schedules.rs:853-862 | whatever record a committed command left is still there, unchanged in what identifies it, after any run |
| `LedgerReceipts.DefineOnce` | crates/eef/src/automations.rs:554-619 | after a definition commits, the same command in any later state writes nothing and returns the retained record |
| `LedgerReceipts.RemoveOnce` | crates/eef/src/automations.rs:620-650 | the same for removals |
| `LedgerReceipts.ApproveOnce` | crates/eef/src/automation_authorizations.rs:216-251 | the same for approvals |
| `LedgerReceipts.RevokeOnce` | crates/eef/src/automation_authorizations.rs:252-282 | the same for revocations |
| `LedgerReceipts.ArmOnce` | crates/eef/src/automation_schedules.rs:1105-1110 | the same for arming |
| `LedgerReceipts.StopOnce` | crates/eef/src/automation_schedules.rs:1340-1345 | the same for stops |
| `LedgerReceipts.ResolveOnce` | crates/eef/src/automation_schedules.rs:840-902 | the same for resolving a refusal |
| `LedgerReceipts.ReserveOnce` | crates/eef/src/automation_occurrences.rs:410-415 | after a reservation commits, the same command in any later state writes nothing and returns that reservation |
| `LedgerReceipts.ArchiveOnce` | crates/eef/src/automation_occurrence_archives.rs:154-158 | the same for archives |
| `LedgerReceipts.LaunchOnce` | crates/eef/src/automation_schedules.rs:1013-1015 | begin-launch reports a start at most once per claim over any run |
| `LedgerSerial.OneUnresolvedReservation` | crates/eef/src/automation_occurrences.rs:464-474 | in every reachable state a definition has at most one unresolved reservation across all its policies |
| `LedgerClaims.StepReopens` | crates/eef/src/automation_schedules.rs:1422-1470 | in every reachable state and for all twenty checkpoints, a resolved claim is open afterwards if and only if the checkpoint is a reservation under the claim's receipt, or a direct insertion of another job for a claim closed by its cancelled job, whose guard holds, and no owner had accepted the claim's refusal |
| `LedgerClaims.ResolvedForever` | crates/eef/src/automation_occurrence_archives.rs:91-117 | a resolved claim stays resolved, archiving included, through every later run without such a step |
| `LedgerOverlap.QuietExactly` | crates/eef/src/automation_schedules.rs:1233-1238 | throughout a run every claim but the newest of its definition is resolved and let go, and an active schedule's definition has no other open claim, if and only if no reservation in the run takes the receipt of a resolved claim that a later claim or an active schedule relies on |
| `LedgerAlone.AloneExactly` | crates/eef/src/automation_schedules.rs:1185-1324 | throughout a run no definition has two unresolved claims, if and only if no due check in it claims, and no reservation or insertion reopens a claim, while another claim of the definition is open |
| `LedgerAlone.StepAlone` | crates/eef/src/automation_schedules.rs:1153-1168 | the same for every single checkpoint |
| `LedgerAlone.CalmExactly` | crates/eef/src/automation_schedules.rs:1368-1420 | throughout a run all claims of a definition are over while any of its schedules waits, if and only if no step reopens a claim of a definition that is waited for, and settling never re-arms a schedule while another claim of its definition is open |
| `LedgerAlone.HonestNeverCrowds` | crates/eef/src/automation_schedules.rs:1233-1238 | runs without a borrowed receipt that something relies on satisfy both conditions |
| `LedgerOverlap.InsertedWhileHeld` | crates/eef/src/jobs.rs:371-399 | a job for a claimed request is inserted or admitted only while its claim is held |
| `LedgerBorrow.BorrowReopens` | crates/eef/src/automation_occurrences.rs:402-540 | a reachable state in which a reservation for an unrelated job takes the receipt of a resolved claim and opens it again while its schedule waits, with one open claim in all |
| `LedgerBorrow.TwoUnresolvedClaims` | crates/eef/src/automation_schedules.rs:1185-1324 | from there the due check claims beside the open claim, a crowding step, and reaches a state in which one definition has two unresolved claims |
| `LedgerBorrow.SecondJobReopens` | crates/eef/src/jobs.rs:302-306 | a run from the empty ledger in which a direct insertion opens a resolved, held claim again, after which a failed launch keeps its claim |
| `LedgerArchives.OneRetainedPlan` | crates/eef/src/automation_occurrence_archives.rs:91-117 | every reservation is backed by exactly one of its live job or a single archive carrying the same authority |
| `LedgerArchives.ArchiveConserves` | crates/eef/src/automation_occurrence_archives.rs:189-207 | an archive leaves the shared record count, all reservations and all authority unchanged and removes just its job |
| `LedgerArchives.ArchivedForever` | crates/eef/src/automation_occurrence_archives.rs:118-134 | after an archive its request is never admitted again and its job is never live and its identity never inserted again, in any later state |
| `LedgerRecreation.StepRecreates` | crates/eef/src/jobs.rs:302-399 | in every reachable state and for all twenty checkpoints, a new job for an archived request appears if and only if the checkpoint directly inserts a fresh plan for it under a new, unarchived identity, with room and with source authority where a claim names the request |
| `LedgerRecreation.GoneExactly` | crates/eef/src/automation_occurrence_archives.rs:118-134 | an archived request without a live job has none in any later state of a run if and only if no step of the run recreates it |
| `LedgerRecreation.AlwaysGoneExactly` | crates/eef/src/automation_occurrence_archives.rs:135-213 | throughout a run no archived request has a live job if and only if no step recreates one and no archive leaves another job of its request behind |
| `LedgerRecreation.ReleasedNeverRecreated` | crates/eef/src/automation_schedules.rs:774-797 | the archived request of a claim that was let go is never recreated, in any later state |
| `LedgerRecreated.RequestReturns` | crates/eef/src/jobs.rs:371-399 | a reachable state whose archived request has no live job, and a direct insertion after which it has |
| `LedgerAuthority.EndedForever` | crates/eef/src/automation_schedules.rs:1185-1205 | a schedule that is not active never is again, in any later state: it claims nothing more and holds none of its claims |
| `LedgerAuthority.StoppedForever` | crates/eef/src/automation_schedules.rs:1325-1367 | a committed stop ends its schedule for good, keeps its receipt, and every claim under it stays released |
| `LedgerAuthority.InterruptEnds` | crates/eef/src/automation_schedules.rs:1034-1043 | an interruption is refused exactly when an active schedule cannot be saved; it ends that schedule, keeps its claim on record and changes no other record |
| `LedgerAuthority.InterruptTriggerOnly` | crates/eef/src/automation_schedules.rs:1044-1054 | interrupting a claim releases it, and leaves alone a schedule that has moved on to another claim or was stopped |
| `LedgerAuthority.WithdrawnForever` | crates/eef/src/automation_schedules.rs:552-565 | a policy that was revoked, superseded or lost its definition authorises no new schedule, claim or reservation in any later state |
| `LedgerAuthority.RevokedForever` | crates/eef/src/automation_authorizations.rs:252-282 | so does a committed revocation |
| `LedgerAuthority.RemovedForever` | crates/eef/src/automations.rs:620-650 | so does removing the definition, for every policy approved for it |
| `LedgerAuthority.SupersededForever` | crates/eef/src/automation_authorizations.rs:216-251 | so does a new approval, for every earlier one of its definition |
| `LedgerAuthority.DefinitionIsFrozen` | crates/eef/src/automations.rs:554-650 | after any run a definition still has its identity, owner, creation time, command and digest, and until it is removed exactly the plan it was made from |
| `LedgerAuthority.EditKeepsAuthority` | crates/eef/src/automation_occurrences.rs:97-138 | an edit never changes the approval, request or compiled scope of a reserved job |
| `LedgerAuthority.FencedEditsEnd` | crates/eef/src/jobs.rs:429-487 | once a claim was let go, no later fenced edit commits for a job delegated under it |
| `LedgerAuthority.RemovalIsSilent` | crates/eef/src/jobs.rs:588-612 | removing a finished job removes no evidence: every reservation keeps its plan and every claim its source and its resolution |
| `Journal.JobStore.Perform` | crates/eef/src/automation_schedules.rs:800-1420 | every checkpoint method of the journal object has exactly the effect of its step of the ledger |
| `Journal.JobStore.ArmSchedule` | crates/eef/src/automation_schedules.rs:1087-1184 | commits the specified waiting schedule or leaves all tables unchanged |
| `Journal.JobStore.ClaimDue` | crates/eef/src/automation_schedules.rs:1185-1324 | interrupts, exhausts or claims as specified, with both writes or none |
| `Journal.JobStore.BeginLaunch` | crates/eef/src/automation_schedules.rs:997-1033 | marks the launch as specified, fenced by a second clock reading |
| `Journal.JobStore.RecordRefusal` | crates/eef/src/automation_schedules.rs:803-839 | records the refusal as specified or rolls back |
| `Journal.JobStore.ResolveRefusal` | crates/eef/src/automation_schedules.rs:840-902 | settles the refused schedule as specified or rolls back |
| `Journal.JobStore.SettleSchedule` | crates/eef/src/automation_schedules.rs:1368-1420 | re-arms, exhausts or interrupts a schedule whose claim is over |
| `Journal.JobStore.Reopen` | crates/eef/src/automation_schedules.rs:655-668 | one pass interrupts every schedule left active, all or none |
| `Journal.JobStore.SourceJob` | crates/eef/src/automation_schedules.rs:1445-1470 | the scan finds the claim's retained plan, nothing, or reports ambiguity, as specified |
| `Journal.JobStore.ResolvedClaim` | crates/eef/src/automation_schedules.rs:1422-1444 | decides whether a claim is over |
| `Journal.JobStore.Unoccupied` | crates/eef/src/automation_schedules.rs:1153-1168 | decides whether a definition has no active schedule and no unresolved claim |
| `Journal.JobStore.MaySource` | crates/eef/src/automation_schedules.rs:774-797 | decides whether new work for a request is admitted |
| `Journal.JobStore.MayIssue` | crates/eef/src/automation_occurrences.rs:288-316 | decides the issuance fence on the checked reads |
| `Journal.JobStore.MayReserve` | crates/eef/src/automation_occurrences.rs:416-505 | decides everything a reservation needs before it stages its writes |
| `Journal.JobStore.AdmitRequest` | crates/eef/src/jobs.rs:311-370 | one retained job per request, none for an archived request |
| `Journal.JobStore.ReserveRun` | crates/eef/src/automation_occurrences.rs:402-590 | approval and reservation together or not at all, as specified |
| `Journal.JobStore.ArchiveRun` | crates/eef/src/automation_occurrence_archives.rs:135-213 | archive and deletion together or not at all, as specified |
| `Ordinals.NumberedIsBounded` | crates/eef/src/automation_occurrences.rs:180-186 | sorting a group and finding 1, 2, 3 ... accepts exactly the groups that are distinct and lie between 1 and their size |
| `Ordinals.NumberedIsClosed` | crates/eef/src/automation_authorizations.rs:64-73 | equally exactly the groups that are distinct, positive and closed downward |
| `HistoryReader.ValidGenerations` | crates/eef/src/automation_authorizations.rs:53-75 | grouping and sorting decides whether every definition's generations are exactly 1..n |
| `HistoryReader.ReadPolicies` | crates/eef/src/automation_authorizations.rs:84-117 | one pass with a definition index accepts exactly the valid policy tables and indexes each definition as retained |
| `HistoryReader.ReadIdentities` | crates/eef/src/automation_schedules.rs:475-486 | one growing set decides whether all claims' identities are pairwise disjoint |
| `HistoryReader.OwnNumbered` | crates/eef/src/automation_schedules.rs:493-508 | the sorted gap check on a schedule's claims is the count and the distinctness of its ordinals |
| `HistoryReader.ValidatedHistory` | crates/eef/src/automation_schedules.rs:402-539 | the indexed read succeeds if and only if the declarative history check holds, and returns the retained tables |
| `HistoryGates.PointReadsAgree` | crates/eef/src/automation_schedules.rs:273-301 | when it succeeds, every row-by-row read of a policy, schedule or definition finds exactly the indexed record |
| `HistoryGates.TriggerReadsAgree` | crates/eef/src/automation_schedules.rs:302-372 | the same for claims |
| `HistoryGates.LatestGeneration` | crates/eef/src/automation_schedules.rs:396 | finds the newest generation of a definition, zero when there is none |
| `HistoryGates.CurrentInView` | crates/eef/src/automation_schedules.rs:384-401 | currency answered from the view is currency answered row by row |
| `HistoryGates.CheckedRecords` | crates/eef/src/automation_occurrences.rs:146-201 | the accumulating read succeeds if and only if the occurrence check holds, with the right resolution bits |
| `HistoryGates.DefinitionGate` | crates/eef/src/automation_occurrences.rs:212-222 | fails on a damaged ledger, else says whether the definition is resolved |
| `HistoryGates.AllowanceGate` | crates/eef/src/automation_occurrences.rs:223-261 | fails on a damaged ledger, else says whether another run fits the budgets |
| `HistoryGates.TriggerAdmission` | crates/eef/src/automation_occurrences.rs:265-281 | the joint gate gives the two separate answers, the budget reading false while the definition is unresolved |
| `StorageLaws.WriteBounded` | crates/eef/src/automation_schedules.rs:595-639 | every committed write leaves the byte total no higher or within the limit, a policy only up to the omitted set-up checks, and adds no record beyond the count limit |
| `StorageLaws.ScheduleUpdateFree` | crates/eef/src/automation_schedules.rs:566-594 | a lifecycle update of a retained schedule is admitted under any limits and changes no total |
| `StorageLaws.ShrinkingFits` | crates/eef/src/jobs.rs:495-502 | a job rewrite that does not grow, and an archive no larger than its job, are admitted under any limits |
| `StorageLaws.ArchiveEffect` | crates/eef/src/automation_occurrence_archives.rs:189-207 | an archive exchanges its own cost for the job's and leaves the record count unchanged |
| `StorageLaws.PolicyOverrun` | crates/eef/src/automation_authorizations.rs:150-164 | exactly which policy writes are saved, raise the total and end above the limit |
| `StorageLaws.PolicyOverrunExample` | crates/eef/src/automation_authorizations.rs:150-164 | one concrete store on which it does, where a definition of the same size is refused |
| `StorageLaws.RunBounded` | crates/eef/src/automations.rs:425-436 | over any run with changing limits the total passes the highest limit by at most the set-up checks on record, and the count never does |
| `StorageLaws.RunWithinLimit` | crates/eef/src/automations.rs:463-480 | without policy writes the limit itself holds throughout |
| `LedgerQuota.LifecycleIsFree` | crates/eef/src/automation_schedules.rs:566-594 | on a ledger with one row per record, every checkpoint that only saves retained schedules is admitted under any limits and changes no total |
| `LedgerQuota.StepBacked` | crates/eef/src/automations.rs:417-436 | the rows that each checkpoint writes keep exactly one row per record of the ledger |
| `LedgerQuota.LedgerWithinQuota` | crates/eef/src/automations.rs:417-436 | over any run of checkpoints whose rows the quota admitted, under changing limits, the ledger is a reachable one, has one row per record, and stays within the highest limit but for the omitted term |
| `LedgerQuota.CheckpointIsPossible` | crates/eef/src/automations.rs:417-436 | every checkpoint of a reachable ledger, whatever change it makes, is such a step once its records are of a permitted size and the quota leaves two places and the bytes for them |
| `StorageWriters.Store.CheckSize` | crates/eef/src/jobs.rs:488-514 | the job check as computed is a bound on the total it would leave |
| `StorageWriters.Store.SaveDefinition` | crates/eef/src/automations.rs:450-494 | the same for definitions, each record counted once |
| `StorageWriters.Store.SavePolicy` | crates/eef/src/automation_authorizations.rs:127-172 | the same for policies, up to the omitted term |
| `StorageWriters.Store.Quota` | crates/eef/src/automation_schedules.rs:595-639 | the same for schedules and triggers |
| `StorageWriters.Store.SaveJob` | crates/eef/src/jobs.rs:371-399 | the same for inserting and rewriting jobs |
| `StorageWriters.Store.SaveSchedule` | crates/eef/src/automation_schedules.rs:566-594 | a schedule always occupies its 4096 bytes |
| `StorageWriters.Store.SaveTrigger` | crates/eef/src/automation_schedules.rs:1291-1302 | a claim's row fits the quota or is refused |
| `StorageWriters.Store.SaveReservation` | crates/eef/src/automation_occurrences.rs:551-568 | both writes within the quota or neither |
| `StorageWriters.Store.SaveArchive` | crates/eef/src/automation_occurrence_archives.rs:189-207 | refused only when it grows past the limit |
| `StorageWriters.Store.SaveIntent` | crates/eef/src/model_verification_intents.rs:77-125 | one winner per operation, within the shared quota |
| `Capacity.ReplaceSound` | crates/eef/src/capability.rs:247-322 | replacing, removing or refreshing registrations keeps every counter equal to its start plus the bundles bound to it, and every ceiling |
| `Capacity.ReserveSound` | crates/eef/src/capability.rs:462-501 | so does reserving a whole bundle |
| `Capacity.ReleaseSound` | crates/eef/src/capability.rs:164-182 | so does releasing, and no decrement saturates |
| `Capacity.Ceiling` | crates/eef/src/capability.rs:706-715 | a count is within the effective ceiling exactly when it is within both ceilings |
| `Registry.CapabilityRegistry.Register` | crates/eef/src/capability.rs:247-264 | a replacement starts with its own counter and nothing stays bound to it |
| `Registry.CapabilityRegistry.UnregisterNode` | crates/eef/src/capability.rs:265-280 | a node's providers go and their bundles are unbound |
| `Registry.CapabilityRegistry.RefreshNode` | crates/eef/src/capability.rs:283-322 | kept capabilities keep counter and limit, missing ones are unbound, other nodes are untouched |
| `Registry.RefreshedContents` | crates/eef/src/capability.rs:283-322 | the refreshed table holds exactly the named providers of the node, old ones with their old counters |
| `Registry.RefreshHolds` | crates/eef/src/capability.rs:283-322 | each named provider holds the health, heartbeat and profile of the last replacement listed for its key; a provider that was there keeps its counter, limit, load, latency and priority, and a new one is exactly that replacement |
| `Registry.CandidateIs` | crates/eef/src/capability.rs:216-246 | a candidate is registered for the capability and action, healthy, recently heard of unless local, with room of its own, on its node and in the registry, and suitable |
| `Registry.CapabilityRegistry.Select` | crates/eef/src/capability.rs:548-616 | the best eligible candidate, none only when there is none |
| `Registry.CapabilityRegistry.ReserveBundle` | crates/eef/src/capability.rs:425-501 | reserves the best root and, for every stage, its own best candidate with the exact resource on the root's node, counting one bundle for the node and one per distinct provider, or changes nothing |
| `Registry.CapabilityRegistry.Release` | crates/eef/src/capability.rs:164-182 | gives back one unit to each registration still bound and to no other; none was at zero |
| `Registry.CapabilityRegistry.ReservationCounts` | crates/eef/src/capability.rs:717-725 | each node's count is the number of bundles rooted there |
| `Registry.CounterIsExact` | crates/eef/src/capability.rs:462-501 | for a provider registered with a zero counter, in_flight is the number of live bundles bound to it and within both ceilings |
| `RegistryRuns.RunGood` | crates/eef/src/capability.rs:216-322 | exact counters, all ceilings and well-formed bundles through every history of the three kinds of step, which are exactly the effects that the registry's methods state |
| `RegistryRuns.LateReleaseIsHarmless` | crates/eef/src/capability.rs:164-182 | after a registration was replaced or removed, a release of an earlier reservation never touches its successor, however late |
| `Timer.TimerSafety` | crates/eef/src/automation_timer.rs:102-142 | under every interleaving at most one callback of each kind exists and no more schedules are managed than configured; once closing returned nothing is owned or managed, and a schedule is still active in the journal only if it was itself dropped because its one interruption failed or its worker was lost |
| `Timer.ClosedForever` | crates/eef/src/automation_timer.rs:102-142 | afterwards no event starts a callback or activates a schedule |
| `Timer.StepFlight` | crates/eef/src/automation_timer.rs:55-65 | a slot is owned exactly when one callback of its kind exists |
| `Timer.CallbackRuns` | crates/eef/src/automation_timer.rs:124-145 | while the timer is open and a slot is free a callback takes it, runs and gives it back |
| `Timer.EnablingManages` | crates/eef/src/automation_schedule.rs:297-311 | while it is open and has room, enabling a schedule makes it live and managed |
| `Timer.EnableManaged` | crates/eef/src/automation_schedule.rs:297-311 | enabling under the active lock keeps every armed schedule managed |
| `Checkpoints.PermitsConserved` | crates/eef/src/job_finalizations.rs:54-106 | in the report, ACK and read lanes free permits, held slots, queued and running work always add up to the capacity, and whoever holds or takes a permit finds room in the channel |
| `Checkpoints.ReportsEnd` | crates/eef/src/job_workload_completion.rs:31-90 | every admitted report that ran ended as Completed over an accepted ACK, as unknown, or by denying reporting, and no later step, other edits of the plan included, takes that ending or its receipts back, except that a completed job may be removed |
| `Checkpoints.FinalOutcome` | crates/eef/src/job_workload_completion.rs:31-90 | a report ends as the completion where it is valid and saved over an accepted attempt, else as unknown where that was or can be saved, else by denial |
| `Checkpoints.SlotOutcome` | crates/eef/src/job_finalizations.rs:64-106 | a slot is given exactly when reporting is not denied and a permit is free; unused it is given back, used it joins the queue |
| `Checkpoints.RemovalStep` | crates/eef/src/jobs.rs:588-612 | a removal takes exactly a completed job with both its receipts and changes nothing else |
| `Checkpoints.MarksKeep` | crates/eef/src/workload_jobs.rs:92-118 | the queues' own edits are among those that the preservation check admits: they keep every saved workload valid and take back no ending and no receipt |
| `Checkpoints.DenialIsPermanent` | crates/eef/src/job_finalizations.rs:98-119 | once denied, no slot is given and no ACK is saved |
| `Checkpoints.Drains` | crates/eef/src/job_finalizations.rs:120-152 | whatever its writes do, the worker settles every queued report and frees its permit |
| `Checkpoints.AckStep` | crates/eef/src/job_workload_acks.rs:31-92 | the ACK lane conserves permits, and saves exactly an acknowledgement of an issued, unacknowledged attempt whose caller still waits while reporting is not denied |
| `Checkpoints.ReadStep` | crates/eef/src/job_reads.rs:34-98 | the read lane conserves permits and changes nothing else |
| `Checkpoints.QueueCapacity` | crates/eef/src/job_finalizations.rs:54-63 | never more checkpoints than records, than 64, or than the reserved headroom pays for |
| `StopDelivery.PreservesTransitive` | crates/eef/src/execution_stop.rs:53-69 | preservation composes |
| `StopDelivery.StopEditsPreserve` | crates/eef/src/execution_stop.rs:84-155 | both edits of a stop satisfy the preservation check and leave a valid plan |
| `StopDelivery.MarkWhen` | crates/eef/src/execution_stop.rs:84-120 | a delivery is marked exactly for a requested stop and an attempt of this very grant without one |
| `StopDelivery.SaveWhen` | crates/eef/src/execution_stop.rs:121-155 | a report is saved exactly over a delivery of this very grant that has none |
| `StopDelivery.AtMostOneSend` | crates/eef/src/execution_stop.rs:84-155 | over any run each grant is sent at most one stop, and only after its delivery was saved |
| `StopDelivery.ReceiptsNeverChange` | crates/eef/src/execution_stop.rs:53-69 | the request time, every send time and every confirmed report never change again |
| `StopDelivery.Driver.StopOne` | crates/eef/src/execution_stop.rs:84-155 | sends exactly when the delivery was newly saved, repeats nothing, and records a confirming answer |
| `Payload.ReadTable` | shared/installer_payload.rs:61-77 | accepts a certificate table if and only if entries tile it exactly (Attribute Certificate Table section of the Microsoft PE Format specification) |
| `Payload.TilingUnique` | shared/installer_payload.rs:61-77 | that tiling is unique |
| `Payload.SplitUnique` | shared/installer_payload.rs:80-103 | content splits in at most one way into stub, ZIP payload, length, magic and zero padding |
| `Payload.ProbePadding` | shared/installer_payload.rs:86-101 | one padding is absent, refused or found exactly as its bytes say, every read in bounds |
| `Payload.PayloadRange` | shared/installer_payload.rs:80-103 | returns a range if and only if the bytes of the file put a payload there: an unsigned file ending with the footer, or a signed one with at most seven zeros before the certificates that fill its end |
| `Payload.HeaderIs` | shared/installer_payload.rs:26-60 | headers count as unsigned or as pointing to a table exactly as the bytes at the positions of the Optional Header and Attribute Certificate Table sections of the Microsoft PE Format specification say, for both kinds |
| `Payload.TableIs` | shared/installer_payload.rs:61-77 | a table is tiled exactly when a walk from entry to entry, each rounded up to eight bytes, ends with the file |
| `Payload.InstallerSplits` | shared/installer_payload.rs:80-103 | such a file splits into stub, ZIP payload, length, magic and padding at that range |
| `Payload.SplitInstalls` | shared/installer_payload.rs:80-103 | and every such split of an accepted file is that range |
| `Microphone.LevelBound` | python/streams/microphone_energy.py:50-52 | the integer root of the mean square of 16-bit samples is at most 32768 |
| `Microphone.LevelIs` | python/streams/microphone_energy.py:50-52 | the level is the integer root of the mean of the squares |
| `Microphone.ActiveIff` | python/streams/microphone_energy.py:47-56 | a block is active if and only if an earlier block reached the activation level and no gap or quiet block came since |
| `Microphone.InactiveIff` | python/streams/microphone_energy.py:47-56 | a block is inactive if and only if an earlier block was quiet enough and no gap or loud block came since |
| `Microphone.RecordIs` | python/streams/microphone_energy.py:39-60 | frame count, level, activity and gap of each record |
| `Microphone.Produce` | python/streams/microphone_energy.py:39-60 | one record per well-formed block in order, failing at the first malformed or missing one |
| `StreamHost.ProducerAccepted` | python/eef_stream_host.py:93-106 | every record the producer can yield passes the host's checks once the bounds cover max_blocks and max_blocks*block_frames |
| `StreamHost.Host.Emit` | python/eef_stream_host.py:55-62 | writes a message exactly when both byte budgets still hold |
| `StreamHost.Host.Stream` | python/eef_stream_host.py:85-111 | the output is a prefix of ready, observations 1..n and a matching end, within both budgets, and complete exactly when the whole stream is acceptable and fits |
| `StreamHost.DeliversIs` | python/eef_stream_host.py:85-111 | a stream is delivered exactly when it did not fail, is not empty, every record passes each bound after the one before it, and every message and their total fit |
| `StreamHost.FramesStrictlyRise` | python/eef_stream_host.py:96-107 | accepted records carry strictly rising frame counts |

## Left out

- JSON, SQLite, SHA-256, UUID text and TLS: records are values, digests are tags, and a freshly generated identifier is one that nothing retained uses (`Ledger.Generated`).
- Errors: every error of a checkpoint is the same refusal, so the model does not tell their messages apart.
- Record sizes: they are inputs; `room` says whether the shared quota admitted a checkpoint's rows, `LedgerQuota` says which rows those are, and `Storage` how the quota decides, without the overflow errors of 64-bit totals.
- Edits of jobs: an edit is a given new plan that keeps the job's identity and request and does not reopen proven terminal evidence; the callers' edit closures are not part of this model, and the journal does not enforce the last point.
- LedgerExhaustion.ExhaustionIsTrue: for the time reason it states the bound one period after the last observation, the weaker of the two that the due check and settling test; `LedgerDue.DueOutcome` and `LedgerDue.SettleOutcome` state each exactly.
- Journal.JobStore.ClaimDue: requires that the generated identifiers are unused, which the code takes from random UUIDs.
- Network preflight of a launch, provider sessions, request compilation and dispatch: any of them may succeed or fail between the modelled checkpoints.
- Policy compilation: the approved scope is an opaque origin, input and number of operations, compared for equality; the prepared approval is an input.
- Origin scoping of node commands, listing and paging: they read only.
- Timer.TimerSafety: the timer is a state machine over the steps its locks allow rather than an object, the launch set and the clock monitor are left out, and closing is called once.
- Checkpoints.ReportsEnd: the queues are a state machine over caller and worker steps; deadlines and panics are arbitrary failures of a step.
- Registry.CapabilityRegistry.Select: scoring and constraint matching are an arbitrary ranking and an arbitrary predicate; ties between equally ranked candidates are broken arbitrarily.
- Registry metrics and health updates: they do not touch a counter.
- Payload reads that fail for reasons of the file system.
- StreamHost.Host.Stream: message sizes are an arbitrary function of the message, and the plugin is the sequence of records it yields and whether it then fails.
- HTTP, dashboard, assistant, firmware, discovery, credentials, updates and Python device plugins.
