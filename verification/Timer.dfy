/**
 The timer's single-flight and shutdown protocol, as the atomic steps that its locks allow: callbacks
 begin and end under the work lock, enabling holds the active lock from its check to its insertion, and
 closing raises its flag under no lock at all.
 */
module Timer {
  import opened Prelude

  type Id = nat

  datatype Kind = Periodic | Inspection

  datatype Callback = Callback(kind: Kind, running: bool)

  /** An activation that holds the active lock: admitted, then durably armed. */
  datatype Enabling = Unlocked | Admitted | Armed(id: Id)

  /** How far shutdown has come. */
  datatype Phase = Open | Waiting | Drained | Sweeping(left: set<Id>) | Closed | Broken

  /** `live` holds the schedules that the journal itself records as active; `lost` those that were dropped
      without proof, because their one interruption failed or their worker was lost. */
  datatype State = State(
    periodic: bool, inspection: bool, callbacks: map<Id, Callback>,
    active: set<Id>, enabling: Enabling, phase: Phase, live: set<Id>, lost: set<Id>)
  {
    predicate Closing() { phase != Open }
    predicate Slot(kind: Kind) { if kind == Periodic then periodic else inspection }
  }

  function SetSlot(s: State, kind: Kind, owned: bool): State {
    if kind == Periodic then s.(periodic := owned) else s.(inspection := owned)
  }

  const INITIAL := State(false, false, map[], {}, Unlocked, Open, {}, {})

  datatype Event =
    | Begin(callback: Id, kind: Kind)         // take the slot, queue the callback
    | Start(callback: Id)                     // the callback looks at the closing flag
    | Interrupt(callback: Id, id: Id, ok: bool) // a running checkpoint interrupts its schedule
    | Forget(callback: Id, id: Id)            // a running checkpoint drops an inactive schedule
    | GiveUp(callback: Id, id: Id, ok: bool)  // a failed checkpoint: one interruption, then drop
    | Finish(callback: Id)                    // the owned slot is released, waiter or no waiter
    | Lose(id: Id)                            // a worker was lost: drop without proof
    | Admit | Arm(id: Id, ok: bool) | Insert  // enabling, under the active lock
    | Retire(id: Id)                          // stop, settle, refuse: the journal ends the schedule
    | Remove(id: Id)                          // and the owner command drops it
    | CloseBegin | CloseDrained | CloseSweep | CloseInterrupt(id: Id, ok: bool) | CloseClear

  /** A running periodic checkpoint of a schedule it manages. */
  predicate Managing(s: State, callback: Id, id: Id) {
    callback in s.callbacks && s.callbacks[callback] == Callback(Periodic, true) && id in s.active
  }

  function End(s: State, callback: Id): State
    requires callback in s.callbacks
  {
    SetSlot(s, s.callbacks[callback].kind, false).(callbacks := s.callbacks - {callback})
  }

  /** A journal interruption: the schedule ends, or stays as it was. */
  function Interrupted(s: State, id: Id, ok: bool): State {
    if ok then s.(live := s.live - {id}) else s
  }

  function Next(s: State, max: nat, e: Event): State {
    match e
    case Begin(callback, kind) =>
      if s.Closing() || s.Slot(kind) || callback in s.callbacks then s
      else SetSlot(s, kind, true).(callbacks := s.callbacks[callback := Callback(kind, false)])
    case Start(callback) =>
      if callback !in s.callbacks || s.callbacks[callback].running then s
      else if s.Closing() then End(s, callback)
      else s.(callbacks := s.callbacks[callback := s.callbacks[callback].(running := true)])
    case Interrupt(callback, id, ok) =>
      if Managing(s, callback, id) then Interrupted(s, id, ok) else s
    case Forget(callback, id) =>
      if Managing(s, callback, id) && s.enabling.Unlocked? && id !in s.live then s.(active := s.active - {id}) else s
    case GiveUp(callback, id, ok) =>
      if Managing(s, callback, id) && s.enabling.Unlocked?
      then Interrupted(s, id, ok).(active := s.active - {id}, lost := if ok then s.lost else s.lost + {id}) else s
    case Finish(callback) => if callback in s.callbacks then End(s, callback) else s
    case Lose(id) =>
      if s.enabling.Unlocked? then s.(active := s.active - {id}, lost := s.lost + {id}) else s
    case Admit =>
      if s.enabling.Unlocked? && !s.Closing() && |s.active| < max then s.(enabling := Admitted) else s
    case Arm(id, ok) =>
      if !s.enabling.Admitted? then s
      else if ok then s.(live := s.live + {id}, enabling := Armed(id)) else s.(enabling := Unlocked)
    case Insert => if s.enabling.Armed? then s.(active := s.active + {s.enabling.id}, enabling := Unlocked) else s
    case Retire(id) => s.(live := s.live - {id})
    case Remove(id) => if s.enabling.Unlocked? && id !in s.live then s.(active := s.active - {id}) else s
    case CloseBegin => if s.phase.Open? then s.(phase := Waiting) else s
    case CloseDrained => if s.phase.Waiting? && !s.periodic && !s.inspection then s.(phase := Drained) else s
    case CloseSweep => if s.phase.Drained? && s.enabling.Unlocked? then s.(phase := Sweeping(s.active)) else s
    case CloseInterrupt(id, ok) =>
      if !s.phase.Sweeping? || id !in s.phase.left then s
      else if ok then s.(live := s.live - {id}, phase := Sweeping(s.phase.left - {id}))
      else s.(phase := Broken)
    case CloseClear =>
      if s.phase == Sweeping({}) && s.enabling.Unlocked? then s.(active := {}, phase := Closed) else s
  }

  // ------------------------------------------------------------------ single flight

  ghost function Flying(s: State, kind: Kind): set<Id> {
    set c | c in s.callbacks && s.callbacks[c].kind == kind
  }

  /** A slot is owned exactly when one callback of its kind exists, and never more than one does. */
  predicate SingleFlight(s: State) {
    && (forall a, b | a in s.callbacks && b in s.callbacks && s.callbacks[a].kind == s.callbacks[b].kind :: a == b)
    && (forall a | a in s.callbacks :: s.Slot(s.callbacks[a].kind))
    && (s.periodic ==> exists a | a in s.callbacks :: s.callbacks[a].kind == Periodic)
    && (s.inspection ==> exists a | a in s.callbacks :: s.callbacks[a].kind == Inspection)
  }

  lemma EndFlight(s: State, callback: Id)
    requires SingleFlight(s) && callback in s.callbacks
    ensures SingleFlight(End(s, callback))
  {
    var s' := End(s, callback);
    var kind := s.callbacks[callback].kind;
    forall k | k != kind && s.Slot(k) ensures exists a | a in s'.callbacks :: s'.callbacks[a].kind == k {
      var a :| a in s.callbacks && s.callbacks[a].kind == k;
      assert a in s'.callbacks;
    }
  }

  lemma BeginFlight(s: State, callback: Id, kind: Kind)
    requires SingleFlight(s) && !s.Slot(kind) && callback !in s.callbacks
    ensures SingleFlight(SetSlot(s, kind, true).(callbacks := s.callbacks[callback := Callback(kind, false)]))
  {
    var s' := SetSlot(s, kind, true).(callbacks := s.callbacks[callback := Callback(kind, false)]);
    assert s'.callbacks[callback].kind == kind;
    forall k | k != kind && s.Slot(k) ensures exists a | a in s'.callbacks :: s'.callbacks[a].kind == k {
      var a :| a in s.callbacks && s.callbacks[a].kind == k;
      assert a in s'.callbacks && s'.callbacks[a].kind == k;
    }
  }

  lemma StartFlight(s: State, callback: Id)
    requires SingleFlight(s) && callback in s.callbacks
    ensures SingleFlight(s.(callbacks := s.callbacks[callback := s.callbacks[callback].(running := true)]))
  {
    var s' := s.(callbacks := s.callbacks[callback := s.callbacks[callback].(running := true)]);
    forall k | s.Slot(k) ensures exists a | a in s'.callbacks :: s'.callbacks[a].kind == k {
      var a :| a in s.callbacks && s.callbacks[a].kind == k;
      assert a in s'.callbacks && s'.callbacks[a].kind == k;
    }
  }

  lemma CallbackFlight(s: State, max: nat, e: Event)
    requires SingleFlight(s) && OfCallback(e)
    ensures SingleFlight(Next(s, max, e))
  {
    match e
    case Begin(callback, kind) =>
      if !(s.Closing() || s.Slot(kind) || callback in s.callbacks) {
        BeginFlight(s, callback, kind);
      }
    case Start(callback) =>
      if callback in s.callbacks {
        EndFlight(s, callback);
        StartFlight(s, callback);
      }
    case Finish(callback) =>
      if callback in s.callbacks {
        EndFlight(s, callback);
      }
  }

  lemma OtherKeepsCallbacks(s: State, max: nat, e: Event)
    requires !OfCallback(e)
    ensures var s' := Next(s, max, e);
            s'.callbacks == s.callbacks && s'.periodic == s.periodic && s'.inspection == s.inspection
  {
  }

  lemma StepFlight(s: State, max: nat, e: Event)
    requires SingleFlight(s)
    ensures SingleFlight(Next(s, max, e))
  {
    if OfCallback(e) {
      CallbackFlight(s, max, e);
    } else {
      OtherKeepsCallbacks(s, max, e);
      FlightFrame(s, Next(s, max, e));
    }
  }

  lemma FlightFrame(s: State, s': State)
    requires SingleFlight(s) && s'.callbacks == s.callbacks && s'.periodic == s.periodic && s'.inspection == s.inspection
    ensures SingleFlight(s')
  {
    assert forall kind :: s'.Slot(kind) == s.Slot(kind);
  }

  // ------------------------------------------------------------------ shutdown

  predicate Managed(s: State, max: nat) {
    && |s.active| <= max && (!s.enabling.Unlocked? ==> |s.active| < max)
    && (s.phase in {Drained, Closed} || s.phase.Sweeping? ==> s.callbacks == map[])
    && (s.phase.Closed? || s.phase.Sweeping? ==> s.enabling.Unlocked?)
    && (s.phase.Closed? ==> s.active == {})
    && s.live <= s.active + s.lost + (if s.enabling.Armed? then {s.enabling.id} else {})
    && (s.phase.Sweeping? ==> s.live <= s.phase.left + s.lost)
  }

  predicate Inv(s: State, max: nat) {
    SingleFlight(s) && Managed(s, max)
  }

  lemma NoCallbacks(s: State)
    requires SingleFlight(s) && !s.periodic && !s.inspection
    ensures s.callbacks == map[]
  {
    assert forall a | a in s.callbacks :: s.Slot(s.callbacks[a].kind);
    assert s.callbacks.Keys == {};
  }

  lemma Fewer(active: set<Id>, id: Id)
    ensures |active - {id}| <= |active|
    ensures |active + {id}| <= |active| + 1
  {
    if id in active {
      assert active + {id} == active;
    }
    assert active - {id} <= active;
  }

  predicate OfCallback(e: Event) { e.Begin? || e.Start? || e.Finish? }
  predicate OfClose(e: Event) { e.CloseBegin? || e.CloseDrained? || e.CloseSweep? || e.CloseInterrupt? || e.CloseClear? }
  predicate OfEnable(e: Event) { e.Admit? || e.Arm? || e.Insert? }

  lemma CallbackManaged(s: State, max: nat, e: Event)
    requires Inv(s, max) && OfCallback(e)
    ensures Managed(Next(s, max, e), max)
  {
    var s' := Next(s, max, e);
    assert s' == s.(callbacks := s'.callbacks, periodic := s'.periodic, inspection := s'.inspection);
    assert s.Closing() ==> s'.callbacks.Keys <= s.callbacks.Keys;
    assert s.callbacks == map[] && s.Closing() ==> s'.callbacks.Keys == {};
  }

  lemma EnableManaged(s: State, max: nat, e: Event)
    requires Inv(s, max) && OfEnable(e)
    ensures Managed(Next(s, max, e), max)
  {
    if s.enabling.Armed? {
      Fewer(s.active, s.enabling.id);
    }
  }

  lemma CloseManaged(s: State, max: nat, e: Event)
    requires Inv(s, max) && OfClose(e)
    ensures Managed(Next(s, max, e), max)
  {
    if !s.periodic && !s.inspection {
      NoCallbacks(s);
    }
  }

  /** A checkpoint only ends schedules, or drops one that has ended or is remembered as lost. */
  lemma WorkManaged(s: State, max: nat, e: Event)
    requires Inv(s, max) && (e.Interrupt? || e.Forget? || e.GiveUp?)
    ensures Managed(Next(s, max, e), max)
  {
    Fewer(s.active, e.id);
  }

  lemma OwnerManaged(s: State, max: nat, e: Event)
    requires Inv(s, max) && (e.Lose? || e.Retire? || e.Remove?)
    ensures Managed(Next(s, max, e), max)
  {
    Fewer(s.active, e.id);
  }

  lemma StepManaged(s: State, max: nat, e: Event)
    requires Inv(s, max)
    ensures Managed(Next(s, max, e), max)
  {
    if OfCallback(e) {
      CallbackManaged(s, max, e);
    } else if OfClose(e) {
      CloseManaged(s, max, e);
    } else if OfEnable(e) {
      EnableManaged(s, max, e);
    } else if e.Lose? || e.Retire? || e.Remove? {
      OwnerManaged(s, max, e);
    } else {
      WorkManaged(s, max, e);
    }
  }

  function Run(max: nat, events: seq<Event>): State {
    if events == [] then INITIAL else Next(Run(max, events[..|events| - 1]), max, events[|events| - 1])
  }

  lemma {:induction false} RunInv(max: nat, events: seq<Event>)
    ensures Inv(Run(max, events), max)
  {
    if events != [] {
      RunInv(max, events[..|events| - 1]);
      StepFlight(Run(max, events[..|events| - 1]), max, events[|events| - 1]);
      StepManaged(Run(max, events[..|events| - 1]), max, events[|events| - 1]);
    }
  }

  lemma AtMostOne(s: State, kind: Kind)
    requires SingleFlight(s)
    ensures |Flying(s, kind)| == if s.Slot(kind) then 1 else 0
  {
    if s.Slot(kind) {
      var a :| a in s.callbacks && s.callbacks[a].kind == kind;
      assert Flying(s, kind) == {a};
    } else {
      assert Flying(s, kind) == {};
    }
  }

  /** Under every interleaving at most one callback of each kind exists, no more schedules are managed
      than configured, and once closing has returned nothing is owned or managed, and a schedule is still
      active in the journal only if it was itself dropped without proof. */
  lemma TimerSafety(max: nat, events: seq<Event>)
    ensures var s := Run(max, events);
            && (forall kind :: |Flying(s, kind)| <= 1)
            && |s.active| <= max
            && (s.phase.Closed? ==>
                  && !s.periodic && !s.inspection && s.callbacks == map[] && s.active == {}
                  && s.live <= s.lost)
  {
    RunInv(max, events);
    var s := Run(max, events);
    AtMostOne(s, Periodic);
    AtMostOne(s, Inspection);
    forall kind ensures |Flying(s, kind)| <= 1 {
      AtMostOne(s, kind);
    }
  }

  function RunFrom(s: State, max: nat, events: seq<Event>): State {
    if events == [] then s else Next(RunFrom(s, max, events[..|events| - 1]), max, events[|events| - 1])
  }

  lemma ClosedStep(s: State, max: nat, e: Event)
    requires Managed(s, max) && s.phase.Closed?
    ensures Next(s, max, e).phase.Closed? && Next(s, max, e).live <= s.live
  {
  }

  /** After closing has returned, no event starts a callback or activates a schedule again. */
  lemma {:induction false} ClosedForever(s: State, max: nat, events: seq<Event>)
    requires Inv(s, max) && s.phase.Closed?
    ensures var s' := RunFrom(s, max, events);
            && Inv(s', max) && s'.phase.Closed? && s'.callbacks == map[] && s'.active == {} && s'.live <= s.live
  {
    if events != [] {
      ClosedForever(s, max, events[..|events| - 1]);
      var before := RunFrom(s, max, events[..|events| - 1]);
      StepFlight(before, max, events[|events| - 1]);
      StepManaged(before, max, events[|events| - 1]);
      ClosedStep(before, max, events[|events| - 1]);
    }
  }

  // ------------------------------------------------------------------ progress

  /** While the timer is open and a slot is free, a new callback takes it, runs, and gives it back. */
  lemma CallbackRuns(s: State, max: nat, c: Id, kind: Kind)
    requires SingleFlight(s) && s.phase.Open? && !s.Slot(kind) && c !in s.callbacks
    ensures var begun := Next(s, max, Begin(c, kind));
            var running := Next(begun, max, Start(c));
            && begun.Slot(kind) && c in begun.callbacks && begun.callbacks[c] == Callback(kind, false)
            && c in running.callbacks && running.callbacks[c] == Callback(kind, true)
            && Next(running, max, Finish(c)) == s
  {
    assert s.callbacks[c := Callback(kind, true)] - {c} == s.callbacks;
  }

  /** A callback that starts after closing began ends at once. */
  lemma ClosingStops(s: State, max: nat, c: Id)
    requires !s.phase.Open? && c in s.callbacks && !s.callbacks[c].running
    ensures c !in Next(s, max, Start(c)).callbacks && !Next(s, max, Start(c)).Slot(s.callbacks[c].kind)
  {
  }

  /** While it is open and has room, enabling a schedule makes it live and managed. */
  lemma EnablingManages(s: State, max: nat, id: Id)
    requires s.phase.Open? && s.enabling.Unlocked? && |s.active| < max
    ensures var done := Next(Next(Next(s, max, Admit), max, Arm(id, true)), max, Insert);
            done == s.(active := s.active + {id}, live := s.live + {id})
  {
  }
}
