/**
 Admission-reserved checkpoint queues: a permit is taken before work is issued and is given back only
 when the queued checkpoint has run.  Steps of callers and workers interleave freely.
 */
module Checkpoints {
  import opened Prelude

  type Id = nat

  const MAX_FINALIZATIONS: nat := 64
  const COMPLETION_RESERVE: nat := 16 * 1024
  const READS: nat := 4

  function Min(a: nat, b: nat): nat { if a < b then a else b }

  /** As many checkpoints as there may be records and as the quota's completion headroom pays for, but at most 64. */
  function QueueCapacity(maxCount: nat, maxBytes: nat): (r: nat)
    ensures r <= maxCount && r <= MAX_FINALIZATIONS && r * COMPLETION_RESERVE <= maxBytes
    ensures r == maxCount || r == 64 || (r + 1) * (16 * 1024) > maxBytes
  {
    Min(Min(maxCount, maxBytes / COMPLETION_RESERVE), MAX_FINALIZATIONS)
  }

  // ------------------------------------------------------------------ one bounded lane

  /** Permits not taken, permits held by callers, and the permits that queued and running work owns. */
  datatype Lane<W> = Lane(capacity: nat, free: nat, held: set<Id>, queue: seq<(Id, W)>, running: Option<(Id, W)>)

  function Busy<W>(l: Lane<W>): nat { |l.queue| + if l.running.Some? then 1 else 0 }

  predicate LaneOk<W>(l: Lane<W>) {
    l.free + |l.held| + Busy(l) == l.capacity
  }

  /** Taking a permit; the slot name is fresh. */
  function Acquire<W>(l: Lane<W>, slot: Id): Lane<W>
    requires l.free > 0
  {
    l.(free := l.free - 1, held := l.held + {slot})
  }

  /** A slot dropped without being used. */
  function Abandon<W>(l: Lane<W>, slot: Id): Lane<W> {
    l.(free := l.free + 1, held := l.held - {slot})
  }

  predicate Full<W>(l: Lane<W>) { |l.queue| >= l.capacity }

  function Submit<W>(l: Lane<W>, slot: Id, work: W): Lane<W> {
    l.(held := l.held - {slot}, queue := l.queue + [(slot, work)])
  }

  function Take<W>(l: Lane<W>): Lane<W>
    requires l.queue != []
  {
    l.(queue := l.queue[1..], running := Some(l.queue[0]))
  }

  function Complete<W>(l: Lane<W>): Lane<W> {
    l.(running := None, free := l.free + 1)
  }

  lemma HeldCounts(held: set<Id>, slot: Id)
    ensures slot in held ==> |held - {slot}| == |held| - 1
    ensures slot !in held ==> |held + {slot}| == |held| + 1
  {
  }

  lemma AcquireOk<W>(l: Lane<W>, slot: Id)
    requires LaneOk(l) && l.free > 0 && slot !in l.held
    ensures LaneOk(Acquire(l, slot))
  {
    HeldCounts(l.held, slot);
  }

  lemma AbandonOk<W>(l: Lane<W>, slot: Id)
    requires LaneOk(l) && slot in l.held
    ensures LaneOk(Abandon(l, slot))
  {
    HeldCounts(l.held, slot);
  }

  /** The holder of a slot never finds the channel full. */
  lemma HolderFindsRoom<W>(l: Lane<W>, slot: Id)
    requires LaneOk(l) && slot in l.held
    ensures !Full(l)
  {
    HeldCounts(l.held, slot);
  }

  lemma SubmitOk<W>(l: Lane<W>, slot: Id, work: W)
    requires LaneOk(l) && slot in l.held
    ensures LaneOk(Submit(l, slot, work))
  {
    HeldCounts(l.held, slot);
  }

  lemma GrantOk<W>(l: Lane<W>, slot: Id, work: W)
    requires LaneOk(l) && l.free > 0 && slot !in l.held
    ensures LaneOk(Submit(Acquire(l, slot), slot, work))
  {
    AcquireOk(l, slot);
    SubmitOk(Acquire(l, slot), slot, work);
  }

  lemma TakeOk<W>(l: Lane<W>)
    requires LaneOk(l) && l.running.None? && l.queue != []
    ensures LaneOk(Take(l))
  {
  }

  lemma CompleteOk<W>(l: Lane<W>)
    requires LaneOk(l) && l.running.Some?
    ensures LaneOk(Complete(l))
  {
  }

  // ------------------------------------------------------------------ saved workloads

  datatype Attempt = Issued | Accepted | Completed | Unknown

  /** The saved workload of one job.  `active` means that its plan is still running; an acknowledgement and a
      completion are kept by their content. */
  datatype Workload = Workload(state: Attempt, active: bool, ack: Option<int>, completion: Option<int>)

  /** The lifecycle check on every saved workload. */
  predicate WorkloadOk(w: Workload) {
    match w.state
    case Issued => w.ack.None? && w.completion.None? && w.active
    case Accepted => w.ack.Some? && w.completion.None? && w.active
    case Unknown => w.completion.None? && !w.active
    case Completed => w.ack.Some? && w.completion.Some? && !w.active
  }

  /** The check that every edit of a plan must pass: receipts stay, and no state is taken back. */
  predicate Preserves(before: Workload, after: Workload) {
    && (before.ack.Some? ==> after.ack == before.ack)
    && (before.completion.Some? ==> after.completion == before.completion)
    && match before.state
       case Issued => after.state in {Issued, Accepted, Unknown}
       case Accepted => after.state in {Accepted, Completed, Unknown}
       case Unknown => after.state == Unknown
       case Completed => after.state == Completed
  }

  /** What any number of such edits leaves: endings stay, and receipts keep their content. */
  predicate Carries(before: Workload, after: Workload) {
    && (before.ack.Some? ==> after.ack == before.ack)
    && (before.completion.Some? ==> after.completion == before.completion)
    && (before.state == Unknown ==> after.state == Unknown)
    && (before.state == Completed ==> after == before)
  }

  lemma PreservesCarries(before: Workload, after: Workload)
    requires WorkloadOk(before) && WorkloadOk(after) && Preserves(before, after)
    ensures Carries(before, after)
  {
  }

  type Saved = map<Id, Workload>

  predicate SavedOk(saved: Saved) { forall job | job in saved :: WorkloadOk(saved[job]) }

  predicate SavedCarries(before: Saved, after: Saved) {
    forall job | job in before :: job in after && Carries(before[job], after[job])
  }

  /** One attempt to record that the effects are unknown: nothing when they already are. */
  function MarkUnknown(saved: Saved, job: Id, written: bool): Option<Saved> {
    if job !in saved then None
    else if saved[job].state == Unknown then Some(saved)
    else if saved[job].state in {Issued, Accepted} && saved[job].active && written
    then Some(saved[job := saved[job].(state := Unknown, active := false)])
    else None
  }

  function MarkCompleted(saved: Saved, job: Id, report: int, valid: bool, written: bool): Option<Saved> {
    if job in saved && saved[job].active && saved[job].state == Accepted && saved[job].completion.None?
       && saved[job].ack.Some? && valid && written
    then Some(saved[job := Workload(Completed, false, saved[job].ack, Some(report))])
    else None
  }

  function MarkAccepted(saved: Saved, job: Id, receipt: int, written: bool): Option<Saved> {
    if job in saved && saved[job].active && saved[job].state == Issued && saved[job].ack.None? && written
    then Some(saved[job := saved[job].(state := Accepted, ack := Some(receipt))])
    else None
  }

  /** Any other edit of the plan that passes both checks. */
  function EditWorkload(saved: Saved, job: Id, after: Workload): Saved {
    if job in saved && Preserves(saved[job], after) && WorkloadOk(after) then saved[job := after] else saved
  }

  /** Only a finished job can be removed; of the workload states that is the completed one alone. */
  predicate Removable(saved: Saved, job: Id) { job in saved && saved[job].state == Completed }

  predicate Keeps(before: Saved, after: Saved) {
    SavedOk(after) && SavedCarries(before, after)
  }

  lemma EditKeeps(saved: Saved, job: Id, after: Workload)
    requires SavedOk(saved) && job in saved && Preserves(saved[job], after) && WorkloadOk(after)
    ensures Keeps(saved, saved[job := after])
  {
    PreservesCarries(saved[job], after);
  }

  /** The queues' own edits pass the preservation check like any other. */
  lemma MarksKeep(saved: Saved, job: Id, content: int, valid: bool, written: bool)
    requires SavedOk(saved)
    ensures MarkUnknown(saved, job, written).Some? ==> Keeps(saved, MarkUnknown(saved, job, written).value)
    ensures MarkCompleted(saved, job, content, valid, written).Some? ==> Keeps(saved, MarkCompleted(saved, job, content, valid, written).value)
    ensures MarkAccepted(saved, job, content, written).Some? ==> Keeps(saved, MarkAccepted(saved, job, content, written).value)
  {
    if job in saved && saved[job].state in {Issued, Accepted} {
      EditKeeps(saved, job, saved[job].(state := Unknown, active := false));
    }
    if MarkCompleted(saved, job, content, valid, written).Some? {
      EditKeeps(saved, job, Workload(Completed, false, saved[job].ack, Some(content)));
    }
    if MarkAccepted(saved, job, content, written).Some? {
      EditKeeps(saved, job, saved[job].(state := Accepted, ack := Some(content)));
    }
  }

  // ------------------------------------------------------------------ steps

  /** A queued final report: an uncertain end, or a completion that may prove invalid. */
  datatype Final = Uncertain(job: Id) | Completion(job: Id, report: int, valid: bool)

  datatype Ack = Ack(job: Id, receipt: int)

  /** A report that has run: its job, and how often that job's identity had been removed by then. */
  datatype Report = Report(job: Id, life: nat)

  /** How often a job of this identity was removed. */
  function Life(removals: map<Id, nat>, job: Id): nat { if job in removals then removals[job] else 0 }

  /** `settled` remembers which admitted reports have run, and `removals` which jobs were removed. */
  datatype State = State(
    finals: Lane<Final>, acks: Lane<Ack>, queries: Lane<Id>, failed: bool, saved: Saved,
    issued: set<Id>, settled: map<Id, Report>, removals: map<Id, nat>)

  function Initial(maxCount: nat, maxBytes: nat): State {
    var n := QueueCapacity(maxCount, maxBytes);
    var a := QueueCapacity(Min(maxCount, 4), maxBytes);
    State(Lane(n, n, {}, [], None), Lane(a, a, {}, [], None), Lane(READS, READS, {}, [], None), false, map[], {}, map[], map[])
  }

  /** The checkpoint a worker runs: completion first, one uncertainty attempt if it fails, else none. */
  function Finalised(saved: Saved, work: Final, written: bool, fallback: bool): Option<Saved> {
    var done := if work.Completion? then MarkCompleted(saved, work.job, work.report, work.valid, written) else None;
    if done.Some? then done else MarkUnknown(saved, work.job, if work.Completion? then fallback else written)
  }

  datatype Event =
    | Reserve(slot: Id)
    | Release(slot: Id)
    | Issue(job: Id)
    | Edit(job: Id, after: Workload)                   // another journal edit of the plan
    | Remove(job: Id)                                  // an owner removes a finished job
    | Queue(slot: Id, work: Final, started: bool)      // `started`: the worker thread exists
    | Foreign(slot: Id)                                // the slot of another journal
    | Deny
    | TakeFinal | EndFinal(written: bool, fallback: bool)
    | Acknowledge(slot: Id, ack: Ack, started: bool)
    | TakeAck | EndAck(alive: bool, written: bool)
    | Read(slot: Id, job: Id, started: bool) | TakeRead | EndRead

  function Next(s: State, e: Event): State {
    match e
    case Reserve(slot) =>
      if s.failed || s.finals.free == 0 || slot in s.issued then s
      else s.(finals := Acquire(s.finals, slot), issued := s.issued + {slot})
    case Release(slot) => if slot in s.finals.held then s.(finals := Abandon(s.finals, slot)) else s
    case Issue(job) =>
      if job in s.saved then s else s.(saved := s.saved[job := Workload(Issued, true, None, None)])
    case Edit(job, after) => s.(saved := EditWorkload(s.saved, job, after))
    case Remove(job) =>
      if Removable(s.saved, job) then s.(saved := s.saved - {job}, removals := s.removals[job := Life(s.removals, job) + 1]) else s
    case Queue(slot, work, started) =>
      if slot !in s.finals.held then s
      else if started && !Full(s.finals) then s.(finals := Submit(s.finals, slot, work))
      else s.(finals := Abandon(s.finals, slot), failed := true, settled := s.settled[slot := Report(work.job, Life(s.removals, work.job))])
    case Foreign(slot) => s.(failed := true)
    case Deny => s.(failed := true)
    case TakeFinal => if s.finals.running.None? && s.finals.queue != [] then s.(finals := Take(s.finals)) else s
    case EndFinal(written, fallback) =>
      if s.finals.running.None? then s
      else
        var (slot, work) := s.finals.running.value;
        var saved := Finalised(s.saved, work, written, fallback);
        s.(finals := Complete(s.finals), settled := s.settled[slot := Report(work.job, Life(s.removals, work.job))],
           saved := if saved.Some? then saved.value else s.saved, failed := s.failed || saved.None?)
    case Acknowledge(slot, ack, started) =>
      if s.failed || s.acks.free == 0 || slot in s.issued then s
      else if started && !Full(Acquire(s.acks, slot))
      then s.(acks := Submit(Acquire(s.acks, slot), slot, ack), issued := s.issued + {slot})
      else s.(issued := s.issued + {slot})
    case TakeAck => if s.acks.running.None? && s.acks.queue != [] then s.(acks := Take(s.acks)) else s
    case EndAck(alive, written) =>
      if s.acks.running.None? then s
      else
        var ack := s.acks.running.value.1;
        var accepted := if alive && !s.failed then MarkAccepted(s.saved, ack.job, ack.receipt, written) else None;
        s.(acks := Complete(s.acks), saved := if accepted.Some? then accepted.value else s.saved)
    case Read(slot, job, started) =>
      if s.queries.free == 0 || slot in s.issued then s
      else if started && !Full(Acquire(s.queries, slot))
      then s.(queries := Submit(Acquire(s.queries, slot), slot, job), issued := s.issued + {slot})
      else s.(issued := s.issued + {slot})
    case TakeRead => if s.queries.running.None? && s.queries.queue != [] then s.(queries := Take(s.queries)) else s
    case EndRead => if s.queries.running.Some? then s.(queries := Complete(s.queries)) else s
  }

  // ------------------------------------------------------------------ the invariant

  predicate LanesOk(s: State) {
    && LaneOk(s.finals) && LaneOk(s.acks) && LaneOk(s.queries)
    && s.finals.held <= s.issued && s.acks.held <= s.issued && s.queries.held <= s.issued
  }

  predicate Ended(saved: Saved, job: Id) {
    job in saved && saved[job].state in {Completed, Unknown}
  }

  /** Each report that has run ended its job, which may have been removed since, or denied reporting. */
  predicate SettledOk(settled: map<Id, Report>, saved: Saved, failed: bool, removals: map<Id, nat>) {
    forall slot | slot in settled ::
      || failed || settled[slot].life < Life(removals, settled[slot].job)
      || (settled[slot].life == Life(removals, settled[slot].job) && Ended(saved, settled[slot].job))
  }

  predicate Inv(s: State) {
    LanesOk(s) && SavedOk(s.saved) && SettledOk(s.settled, s.saved, s.failed, s.removals)
  }

  /** What every step but a removal leaves alone: endings and receipts, denial, and which reports have run. */
  predicate Stays(s: State, s': State) {
    && (s.failed ==> s'.failed) && SavedCarries(s.saved, s'.saved) && s'.removals == s.removals
    && (forall slot | slot in s.settled :: slot in s'.settled)
  }

  /** What no later step takes back, except that a completed job may be removed. */
  ghost predicate Follows(s: State, s': State) {
    && (s.failed ==> s'.failed)
    && (forall slot | slot in s.settled :: slot in s'.settled)
    && (forall job :: Life(s.removals, job) <= Life(s'.removals, job))
    && (forall job | job in s.saved :: JobFollows(s, s', job))
  }

  predicate JobFollows(s: State, s': State, job: Id)
    requires job in s.saved
  {
    if Life(s'.removals, job) == Life(s.removals, job)
    then job in s'.saved && Carries(s.saved[job], s'.saved[job])
    else s.saved[job].state != Unknown
  }

  lemma StaysFollows(s: State, s': State)
    requires Stays(s, s')
    ensures Follows(s, s')
  {
  }

  lemma SettledStays(settled: map<Id, Report>, saved: Saved, failed: bool, saved': Saved, failed': bool, removals: map<Id, nat>)
    requires SettledOk(settled, saved, failed, removals) && SavedCarries(saved, saved') && (failed ==> failed')
    ensures SettledOk(settled, saved', failed', removals)
  {
    forall slot | slot in settled && Ended(saved, settled[slot].job) ensures Ended(saved', settled[slot].job) {
      assert Carries(saved[settled[slot].job], saved'[settled[slot].job]);
    }
  }

  lemma SameCarries(saved: Saved)
    ensures SavedCarries(saved, saved)
  {
  }

  // ------------------------------------------------------------------ lanes

  lemma LaneStep(s: State, e: Event)
    requires LanesOk(s) && (e.Reserve? || e.Release? || e.Queue? || e.TakeFinal?)
    ensures LanesOk(Next(s, e))
  {
    match e
    case Reserve(slot) =>
      if !(s.failed || s.finals.free == 0 || slot in s.issued) {
        AcquireOk(s.finals, slot);
      }
    case Release(slot) =>
      if slot in s.finals.held {
        AbandonOk(s.finals, slot);
      }
    case Queue(slot, work, started) =>
      if slot in s.finals.held {
        SubmitOk(s.finals, slot, work);
        AbandonOk(s.finals, slot);
      }
    case TakeFinal =>
      if s.finals.running.None? && s.finals.queue != [] {
        TakeOk(s.finals);
      }
  }

  lemma LaneRecords(s: State, e: Event)
    requires Inv(s) && (e.Reserve? || e.Release? || e.Queue? || e.TakeFinal?)
    ensures Inv(Next(s, e)) && Stays(s, Next(s, e))
  {
    LaneStep(s, e);
    SameCarries(s.saved);
  }

  /** An acknowledgement for this job can still be saved. */
  predicate Acceptable(s: State, job: Id) {
    !s.failed && job in s.saved && s.saved[job].active && s.saved[job].state == Issued && s.saved[job].ack.None?
  }

  lemma AckGrant(s: State, e: Event)
    requires LanesOk(s) && e.Acknowledge?
    ensures LanesOk(Next(s, e))
  {
    if !(s.failed || s.acks.free == 0 || e.slot in s.issued) {
      GrantOk(s.acks, e.slot, e.ack);
    }
  }

  lemma AckWork(s: State, e: Event)
    requires LanesOk(s) && (e.TakeAck? || e.EndAck?)
    ensures LanesOk(Next(s, e))
  {
    if e.TakeAck? && s.acks.running.None? && s.acks.queue != [] {
      TakeOk(s.acks);
    }
    if e.EndAck? && s.acks.running.Some? {
      CompleteOk(s.acks);
    }
  }

  lemma AckLane(s: State, e: Event)
    requires LanesOk(s) && (e.Acknowledge? || e.TakeAck? || e.EndAck?)
    ensures LanesOk(Next(s, e))
  {
    if e.Acknowledge? {
      AckGrant(s, e);
    } else {
      AckWork(s, e);
    }
  }

  lemma AckWrites(s: State, e: Event)
    requires SavedOk(s.saved) && (e.Acknowledge? || e.TakeAck? || e.EndAck?)
    ensures Keeps(s.saved, Next(s, e).saved)
  {
    SameCarries(s.saved);
    if e.EndAck? && s.acks.running.Some? {
      MarksKeep(s.saved, s.acks.running.value.1.job, s.acks.running.value.1.receipt, true, e.written);
    }
  }

  /** What the end of an acknowledgement makes of the saved workloads. */
  lemma AckEnds(s: State, alive: bool, written: bool)
    requires s.acks.running.Some?
    ensures var ack := s.acks.running.value.1;
            Next(s, EndAck(alive, written)).saved ==
            if alive && written && Acceptable(s, ack.job)
            then s.saved[ack.job := s.saved[ack.job].(state := Accepted, ack := Some(ack.receipt))]
            else s.saved
  {
  }

  lemma AckFrame(s: State, e: Event)
    requires e.Acknowledge? || e.TakeAck? || e.EndAck?
    ensures Next(s, e).failed == s.failed && Next(s, e).settled == s.settled && Next(s, e).finals == s.finals
    ensures Next(s, e).removals == s.removals
    ensures !(e.EndAck? && s.acks.running.Some?) ==> Next(s, e).saved == s.saved
  {
  }

  lemma AckInv(s: State, e: Event)
    requires Inv(s) && (e.Acknowledge? || e.TakeAck? || e.EndAck?)
    ensures Inv(Next(s, e)) && Stays(s, Next(s, e))
  {
    var s' := Next(s, e);
    AckLane(s, e);
    AckWrites(s, e);
    AckFrame(s, e);
    SettledStays(s.settled, s.saved, s.failed, s'.saved, s.failed, s.removals);
  }

  /** Permits are conserved, only the end of an acknowledgement writes, and it accepts exactly an issued,
      unacknowledged attempt of a caller still waiting while reporting is not denied. */
  lemma AckStep(s: State, e: Event)
    requires Inv(s) && (e.Acknowledge? || e.TakeAck? || e.EndAck?)
    ensures Inv(Next(s, e)) && Stays(s, Next(s, e))
    ensures Next(s, e).failed == s.failed && Next(s, e).settled == s.settled && Next(s, e).finals == s.finals
    ensures Next(s, e).saved != s.saved <==>
            e.EndAck? && e.alive && e.written && s.acks.running.Some? && Acceptable(s, s.acks.running.value.1.job)
    ensures Next(s, e).saved != s.saved ==>
              var ack := s.acks.running.value.1;
              Next(s, e).saved == s.saved[ack.job := s.saved[ack.job].(state := Accepted, ack := Some(ack.receipt))]
  {
    AckInv(s, e);
    AckFrame(s, e);
    if e.EndAck? && s.acks.running.Some? {
      var ack := s.acks.running.value.1;
      AckEnds(s, e.alive, e.written);
      assert Acceptable(s, ack.job) ==> s.saved[ack.job].state != Accepted;
    }
  }

  lemma ReadFrame(s: State, e: Event)
    requires e.Read? || e.TakeRead? || e.EndRead?
    ensures Next(s, e) == s.(queries := Next(s, e).queries, issued := Next(s, e).issued)
  {
  }

  lemma ReadGrant(s: State, e: Event)
    requires LanesOk(s) && e.Read?
    ensures LanesOk(Next(s, e))
  {
    ReadFrame(s, e);
    if !(s.queries.free == 0 || e.slot in s.issued) {
      GrantOk(s.queries, e.slot, e.job);
      assert Next(s, e).queries == Submit(Acquire(s.queries, e.slot), e.slot, e.job) || Next(s, e).queries == s.queries;
    }
  }

  lemma ReadWork(s: State, e: Event)
    requires LanesOk(s) && (e.TakeRead? || e.EndRead?)
    ensures LanesOk(Next(s, e))
  {
    if e.TakeRead? && s.queries.running.None? && s.queries.queue != [] {
      TakeOk(s.queries);
    }
    if e.EndRead? && s.queries.running.Some? {
      CompleteOk(s.queries);
    }
  }

  lemma ReadLane(s: State, e: Event)
    requires LanesOk(s) && (e.Read? || e.TakeRead? || e.EndRead?)
    ensures LanesOk(Next(s, e))
  {
    if e.Read? {
      ReadGrant(s, e);
    } else {
      ReadWork(s, e);
    }
  }

  /** A read conserves its permits and changes nothing else. */
  lemma ReadStep(s: State, e: Event)
    requires Inv(s) && (e.Read? || e.TakeRead? || e.EndRead?)
    ensures Inv(Next(s, e)) && Stays(s, Next(s, e))
    ensures Next(s, e) == s.(queries := Next(s, e).queries, issued := Next(s, e).issued)
  {
    SameCarries(s.saved);
    ReadLane(s, e);
    ReadFrame(s, e);
  }

  // ------------------------------------------------------------------ reports

  /** A report that ran ended its job, or nothing could be saved. */
  lemma FinalisedEnds(saved: Saved, work: Final, written: bool, fallback: bool)
    requires SavedOk(saved)
    ensures var after := Finalised(saved, work, written, fallback);
            after.Some? ==> Keeps(saved, after.value) && Ended(after.value, work.job)
  {
    if work.Completion? {
      MarksKeep(saved, work.job, work.report, work.valid, written);
    }
    MarksKeep(saved, work.job, 0, true, if work.Completion? then fallback else written);
  }

  lemma FinalSettles(settled: map<Id, Report>, slot: Id, job: Id, saved: Saved, failed: bool, removals: map<Id, nat>)
    requires SettledOk(settled, saved, failed, removals) && (Ended(saved, job) || failed)
    ensures SettledOk(settled[slot := Report(job, Life(removals, job))], saved, failed, removals)
  {
  }

  lemma FinalStep(s: State, written: bool, fallback: bool)
    requires Inv(s) && s.finals.running.Some?
    ensures Inv(Next(s, EndFinal(written, fallback))) && Stays(s, Next(s, EndFinal(written, fallback)))
  {
    var (slot, work) := s.finals.running.value;
    var s' := Next(s, EndFinal(written, fallback));
    CompleteOk(s.finals);
    SameCarries(s.saved);
    FinalisedEnds(s.saved, work, written, fallback);
    assert SavedCarries(s.saved, s'.saved) && SavedOk(s'.saved);
    SettledStays(s.settled, s.saved, s.failed, s'.saved, s'.failed, s.removals);
    FinalSettles(s.settled, slot, work.job, s'.saved, s'.failed, s.removals);
  }

  lemma EditStep(s: State, job: Id, after: Workload)
    requires Inv(s)
    ensures Inv(Next(s, Edit(job, after))) && Stays(s, Next(s, Edit(job, after)))
  {
    SameCarries(s.saved);
    if job in s.saved && Preserves(s.saved[job], after) && WorkloadOk(after) {
      EditKeeps(s.saved, job, after);
    }
    SettledStays(s.settled, s.saved, s.failed, Next(s, Edit(job, after)).saved, s.failed, s.removals);
  }

  lemma IssueStep(s: State, e: Event)
    requires Inv(s) && (e.Issue? || e.Foreign? || e.Deny?)
    ensures Inv(Next(s, e)) && Stays(s, Next(s, e))
  {
    SameCarries(s.saved);
    assert SavedCarries(s.saved, Next(s, e).saved);
    SettledStays(s.settled, s.saved, s.failed, Next(s, e).saved, Next(s, e).failed, s.removals);
  }

  lemma ReportStep(s: State, e: Event)
    requires Inv(s) && (e.Issue? || e.Edit? || e.Foreign? || e.Deny? || e.EndFinal?)
    ensures Inv(Next(s, e)) && Stays(s, Next(s, e))
  {
    if e.EndFinal? {
      if s.finals.running.Some? {
        FinalStep(s, e.written, e.fallback);
      } else {
        SameCarries(s.saved);
      }
    } else if e.Edit? {
      EditStep(s, e.job, e.after);
    } else {
      IssueStep(s, e);
    }
  }

  lemma RemovalSettled(settled: map<Id, Report>, saved: Saved, failed: bool, removals: map<Id, nat>, job: Id)
    requires SettledOk(settled, saved, failed, removals) && job in saved
    ensures SettledOk(settled, saved - {job}, failed, removals[job := Life(removals, job) + 1])
  {
  }

  /** A removal takes exactly a completed job with both its receipts, and nothing else. */
  lemma RemovalStep(s: State, job: Id)
    requires Inv(s)
    ensures var s' := Next(s, Remove(job));
            && Inv(s') && Follows(s, s')
            && (s' != s <==> Removable(s.saved, job))
            && (s' != s ==> && s.saved[job].ack.Some? && s.saved[job].completion.Some?
                            && s' == s.(saved := s.saved - {job}, removals := s.removals[job := Life(s.removals, job) + 1]))
  {
    SameCarries(s.saved);
    StaysFollows(s, s);
    if Removable(s.saved, job) {
      assert WorkloadOk(s.saved[job]);
      assert Next(s, Remove(job)).saved != s.saved;
      RemovalSettled(s.settled, s.saved, s.failed, s.removals, job);
      forall k | k in s.saved ensures JobFollows(s, Next(s, Remove(job)), k) {
        assert Carries(s.saved[k], s.saved[k]);
      }
    }
  }

  lemma OtherStep(s: State, e: Event)
    requires Inv(s) && !e.Remove?
    ensures Inv(Next(s, e)) && Stays(s, Next(s, e))
  {
    if e.Reserve? || e.Release? || e.Queue? || e.TakeFinal? {
      LaneRecords(s, e);
    } else if e.Acknowledge? || e.TakeAck? || e.EndAck? {
      AckStep(s, e);
    } else if e.Read? || e.TakeRead? || e.EndRead? {
      ReadStep(s, e);
    } else {
      ReportStep(s, e);
    }
  }

  lemma StepOk(s: State, e: Event)
    requires Inv(s)
    ensures Inv(Next(s, e)) && Follows(s, Next(s, e))
  {
    if e.Remove? {
      RemovalStep(s, e.job);
    } else {
      OtherStep(s, e);
      StaysFollows(s, Next(s, e));
    }
  }

  function Run(s: State, events: seq<Event>): State {
    if events == [] then s else Next(Run(s, events[..|events| - 1]), events[|events| - 1])
  }

  lemma JobFollowsOn(a: State, b: State, c: State, job: Id)
    requires Follows(a, b) && Follows(b, c) && job in a.saved
    ensures JobFollows(a, c, job)
  {
    assert JobFollows(a, b, job);
    assert Life(a.removals, job) <= Life(b.removals, job) <= Life(c.removals, job);
    if Life(a.removals, job) == Life(b.removals, job) {
      assert JobFollows(b, c, job);
    }
  }

  lemma FollowsOn(a: State, b: State, c: State)
    requires Follows(a, b) && Follows(b, c)
    ensures Follows(a, c)
  {
    forall job | job in a.saved ensures JobFollows(a, c, job) {
      JobFollowsOn(a, b, c, job);
    }
    forall job ensures Life(a.removals, job) <= Life(c.removals, job) {
      assert Life(a.removals, job) <= Life(b.removals, job) <= Life(c.removals, job);
    }
  }

  lemma {:induction false} RunOk(s: State, events: seq<Event>)
    requires Inv(s)
    ensures Inv(Run(s, events)) && Follows(s, Run(s, events))
  {
    if events != [] {
      var before := Run(s, events[..|events| - 1]);
      RunOk(s, events[..|events| - 1]);
      StepOk(before, events[|events| - 1]);
      FollowsOn(s, before, Run(s, events));
    } else {
      SameCarries(s.saved);
      StaysFollows(s, s);
    }
  }

  // ------------------------------------------------------------------ promises

  /** Whoever holds a permit, or takes a free one, finds room in the channel. */
  ghost predicate RoomForAll<W>(l: Lane<W>) {
    (forall slot | slot in l.held :: !Full(l)) && (l.free > 0 ==> forall slot | slot !in l.held :: !Full(Acquire(l, slot)))
  }

  lemma PermitMeansRoom<W>(l: Lane<W>)
    requires LaneOk(l)
    ensures RoomForAll(l)
  {
    forall slot | slot in l.held ensures !Full(l) {
      HolderFindsRoom(l, slot);
    }
  }

  /** In every reachable state permits are conserved in all three lanes, and a submission under a permit can only
      fail to start. */
  lemma PermitsConserved(maxCount: nat, maxBytes: nat, events: seq<Event>)
    ensures var s := Run(Initial(maxCount, maxBytes), events);
            && s.finals.free + |s.finals.held| + Busy(s.finals) == s.finals.capacity
            && s.acks.free + |s.acks.held| + Busy(s.acks) == s.acks.capacity
            && s.queries.free + |s.queries.held| + Busy(s.queries) == s.queries.capacity
            && RoomForAll(s.finals) && RoomForAll(s.acks) && RoomForAll(s.queries)
  {
    var s := Run(Initial(maxCount, maxBytes), events);
    RunOk(Initial(maxCount, maxBytes), events);
    PermitMeansRoom(s.finals);
    PermitMeansRoom(s.acks);
    PermitMeansRoom(s.queries);
  }

  /** How a report that has run stands in a state, and in a later one. */
  predicate ReportStands(s: State, later: State, slot: Id)
    requires slot in s.settled
  {
    var Report(job, life) := s.settled[slot];
    || (s.failed && later.failed)
    || life < Life(s.removals, job)
    || (&& life == Life(s.removals, job) && job in s.saved
        && (|| (&& s.saved[job].state == Completed && s.saved[job].ack.Some? && s.saved[job].completion.Some?
                && (life < Life(later.removals, job) || (job in later.saved && later.saved[job] == s.saved[job])))
            || (&& s.saved[job].state == Unknown && life == Life(later.removals, job)
                && job in later.saved && later.saved[job].state == Unknown
                && (s.saved[job].ack.Some? ==> later.saved[job].ack == s.saved[job].ack))))
  }

  lemma EndingStands(s: State, later: State, slot: Id)
    requires Inv(s) && Follows(s, later) && slot in s.settled
    ensures ReportStands(s, later, slot)
  {
    var Report(job, life) := s.settled[slot];
    if !s.failed && life == Life(s.removals, job) {
      assert Ended(s.saved, job) && WorkloadOk(s.saved[job]) && JobFollows(s, later, job);
      assert Life(s.removals, job) <= Life(later.removals, job);
    }
  }

  /** Every admitted final report that has run ended as a saved completion over an accepted ACK, as a
      saved uncertainty, or by denying all further reporting.  No later step, other edits of the plan
      included, takes that ending or its receipts back; only a completed job can be removed altogether. */
  lemma ReportsEnd(maxCount: nat, maxBytes: nat, events: seq<Event>, more: seq<Event>, slot: Id)
    requires slot in Run(Initial(maxCount, maxBytes), events).settled
    ensures ReportStands(Run(Initial(maxCount, maxBytes), events), Run(Run(Initial(maxCount, maxBytes), events), more), slot)
  {
    var s := Run(Initial(maxCount, maxBytes), events);
    RunOk(Initial(maxCount, maxBytes), events);
    RunOk(s, more);
    EndingStands(s, Run(s, more), slot);
  }

  /** The end of a report, exactly: the completion where it is valid and saved over an accepted attempt, else the
      uncertainty where it was or can be saved, else denial. */
  lemma FinalOutcome(s: State, written: bool, fallback: bool)
    requires Inv(s) && s.finals.running.Some?
    ensures var (slot, work) := s.finals.running.value;
            var s' := Next(s, EndFinal(written, fallback));
            var known := work.job in s.saved;
            var completes := known && work.Completion? && work.valid && written && s.saved[work.job].state == Accepted;
            var unknown := known && s.saved[work.job].state == Unknown;
            var marks := known && (s.saved[work.job].state == Issued || s.saved[work.job].state == Accepted)
                         && (if work.Completion? then fallback else written);
            && s'.finals == s.finals.(running := None, free := s.finals.free + 1) && slot in s'.settled
            && s'.saved == (if completes then s.saved[work.job := Workload(Completed, false, s.saved[work.job].ack, Some(work.report))]
                            else if marks then s.saved[work.job := s.saved[work.job].(state := Unknown, active := false)] else s.saved)
            && (s'.failed <==> s.failed || !(completes || unknown || marks))
  {
    var (slot, work) := s.finals.running.value;
    if work.job in s.saved {
      assert WorkloadOk(s.saved[work.job]);
    }
  }

  /** A slot is given exactly when reporting is not denied, a permit is free and the slot is new; given back unused
      it leaves the lane as it was, and used it joins the end of the queue. */
  lemma SlotOutcome(s: State, slot: Id, work: Final)
    requires Inv(s)
    ensures var s' := Next(s, Reserve(slot));
            && (slot in s'.finals.held && slot !in s.finals.held <==> !s.failed && s.finals.free > 0 && slot !in s.issued)
            && (slot in s'.finals.held && slot !in s.finals.held ==>
                  && s'.finals.free == s.finals.free - 1 && Next(s', Release(slot)).finals == s.finals
                  && Next(s', Queue(slot, work, true)).finals == s.finals.(free := s.finals.free - 1, queue := s.finals.queue + [(slot, work)]))
  {
    if !s.failed && s.finals.free > 0 && slot !in s.issued {
      AcquireOk(s.finals, slot);
      HolderFindsRoom(Acquire(s.finals, slot), slot);
      assert s.finals.held + {slot} - {slot} == s.finals.held;
    }
  }

  /** At the start every permit of each lane is free. */
  lemma StartsFree(maxCount: nat, maxBytes: nat)
    ensures var s := Initial(maxCount, maxBytes);
            && s.finals == Lane(QueueCapacity(maxCount, maxBytes), QueueCapacity(maxCount, maxBytes), {}, [], None)
            && s.acks.free == s.acks.capacity == QueueCapacity(if maxCount < 4 then maxCount else 4, maxBytes)
            && s.queries.free == s.queries.capacity == 4
            && !s.failed && s.saved == map[] && s.settled == map[]
  {
  }

  /** Once denied, no step admits new work, and no acknowledgement is saved by its queue any more. */
  lemma {:induction false} DenialIsPermanent(s: State, events: seq<Event>, slot: Id, ack: Ack, started: bool, alive: bool, written: bool)
    requires Inv(s) && s.failed
    ensures var later := Run(s, events);
            && later.failed
            && Next(later, Reserve(slot)) == later && Next(later, Acknowledge(slot, ack, started)) == later
            && Next(later, EndAck(alive, written)).saved == later.saved
  {
    RunOk(s, events);
  }

  /** One report taken and run by the worker. */
  function Round(s: State, written: bool, fallback: bool): State {
    Next(Next(s, TakeFinal), EndFinal(written, fallback))
  }

  lemma RoundEffect(s: State, written: bool, fallback: bool)
    requires s.finals.running.None? && s.finals.queue != []
    ensures var s' := Round(s, written, fallback);
            && s'.finals == s.finals.(queue := s.finals.queue[1..], free := s.finals.free + 1)
            && s'.settled.Keys == s.settled.Keys + {s.finals.queue[0].0}
  {
  }

  function Rounds(s: State, writes: seq<(bool, bool)>): State
    decreases |writes|
  {
    if writes == [] then s else Rounds(Round(s, writes[0].0, writes[0].1), writes[1..])
  }

  /** Whatever its writes do, the worker alone settles every queued report and frees its permit. */
  lemma {:induction false} Drains(s: State, writes: seq<(bool, bool)>)
    requires s.finals.running.None? && |writes| == |s.finals.queue|
    ensures var done := Rounds(s, writes);
            && done.finals == s.finals.(queue := [], free := s.finals.free + |s.finals.queue|)
            && (forall slot | slot in s.settled :: slot in done.settled)
            && forall i | 0 <= i < |s.finals.queue| :: s.finals.queue[i].0 in done.settled
    decreases |writes|
  {
    if writes != [] {
      var after := Round(s, writes[0].0, writes[0].1);
      RoundEffect(s, writes[0].0, writes[0].1);
      Drains(after, writes[1..]);
      forall i | 0 <= i < |s.finals.queue| ensures s.finals.queue[i].0 in Rounds(s, writes).settled {
        if i == 0 {
          assert s.finals.queue[0].0 in after.settled;
        } else {
          assert after.finals.queue[i - 1] == s.finals.queue[i];
        }
      }
    }
  }
}
