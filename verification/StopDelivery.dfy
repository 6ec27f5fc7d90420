/** Write-once stop delivery: one saved intent and at most one network send per issued grant. */
module StopDelivery {
  import opened Prelude

  type Id = nat

  const I64_MAX: nat := 0x7fff_ffff_ffff_ffff

  /** `body` stands for everything else that identifies the issued grant. */
  datatype Grant = Grant(id: Id, body: int)

  /** A node's report names the grant it stops. */
  datatype Report = Report(grant: Grant, body: int)
  {
    predicate Confirms(g: Grant) { grant == g }
  }

  datatype Delivery = Delivery(sentAt: nat, report: Option<Report>, unknown: bool)
  datatype Attempt = Attempt(grant: Grant, stop: Option<Delivery>)
  datatype Execution = Execution(startedAt: nat, requestedAt: Option<nat>, attempts: seq<Attempt>)

  /** The stop-relevant part of a stored plan. */
  type Plan = Option<Execution>

  predicate DistinctGrants(attempts: seq<Attempt>) {
    forall i, j | 0 <= i < j < |attempts| :: attempts[i].grant.id != attempts[j].grant.id
  }

  predicate DeliveryOk(e: Execution, a: Attempt) {
    a.stop.Some? ==>
      && e.requestedAt.Some? && e.requestedAt.value <= a.stop.value.sentAt <= I64_MAX
      && a.stop.value.unknown == a.stop.value.report.None?
      && (a.stop.value.report.Some? ==> a.stop.value.report.value.Confirms(a.grant))
  }

  predicate Valid(p: Plan) {
    p.Some? ==>
      && (p.value.requestedAt.Some? ==> p.value.startedAt <= p.value.requestedAt.value <= I64_MAX)
      && (forall i | 0 <= i < |p.value.attempts| :: DeliveryOk(p.value, p.value.attempts[i]))
      && DistinctGrants(p.value.attempts)
  }

  // ------------------------------------------------------------------ what must be preserved

  datatype Snapshot = Snapshot(requestedAt: Option<nat>, deliveries: map<Id, Delivery>)

  /** The deliveries by grant, a later attempt of the same grant taking precedence. */
  function Deliveries(attempts: seq<Attempt>): map<Id, Delivery> {
    if attempts == [] then map[]
    else
      var rest := Deliveries(attempts[..|attempts| - 1]);
      var last := attempts[|attempts| - 1];
      if last.stop.Some? then rest[last.grant.id := last.stop.value] else rest
  }

  function Snap(p: Plan): Snapshot {
    if p.Some? then Snapshot(p.value.requestedAt, Deliveries(p.value.attempts)) else Snapshot(None, map[])
  }

  predicate KeepsDelivery(saved: Delivery, now: Delivery) {
    saved.sentAt == now.sentAt && (saved.report.Some? ==> saved == now)
  }

  predicate KeepsAll(before: Snapshot, now: Snapshot) {
    && (before.requestedAt.Some? ==> now.requestedAt == before.requestedAt)
    && (forall id | id in before.deliveries :: id in now.deliveries && KeepsDelivery(before.deliveries[id], now.deliveries[id]))
  }

  predicate Preserves(before: Snapshot, p: Plan) {
    KeepsAll(before, Snap(p))
  }

  /** The preservation check is a preorder on plans. */
  lemma PreservesReflexive(p: Plan)
    ensures Preserves(Snap(p), p)
  {
  }

  lemma PreservesTransitive(a: Plan, b: Plan, c: Plan)
    requires Preserves(Snap(a), b) && Preserves(Snap(b), c)
    ensures Preserves(Snap(a), c)
  {
  }

  lemma {:induction false} DeliveriesHave(attempts: seq<Attempt>, i: nat)
    requires DistinctGrants(attempts) && i < |attempts|
    ensures attempts[i].grant.id in Deliveries(attempts) <==> attempts[i].stop.Some?
    ensures attempts[i].stop.Some? ==> Deliveries(attempts)[attempts[i].grant.id] == attempts[i].stop.value
  {
    var n := |attempts| - 1;
    if i < n {
      DeliveriesHave(attempts[..n], i);
    } else {
      DeliveriesFrom(attempts[..n], attempts[n].grant.id);
    }
  }

  lemma {:induction false} DeliveriesFrom(attempts: seq<Attempt>, id: Id)
    ensures id in Deliveries(attempts) ==> exists i | 0 <= i < |attempts| :: attempts[i].grant.id == id
  {
    if attempts != [] {
      DeliveriesFrom(attempts[..|attempts| - 1], id);
      if id in Deliveries(attempts[..|attempts| - 1]) {
        var i :| 0 <= i < |attempts| - 1 && attempts[..|attempts| - 1][i].grant.id == id;
        assert attempts[i].grant.id == id;
      }
    }
  }

  // ------------------------------------------------------------------ the two edits of a stop

  /** The first attempt of a grant, by a scan. */
  method FindAttempt(attempts: seq<Attempt>, id: Id) returns (index: Option<nat>)
    ensures index == Position(attempts, id)
  {
    for i := 0 to |attempts|
      invariant forall k | 0 <= k < i :: attempts[k].grant.id != id
    {
      if attempts[i].grant.id == id {
        PositionAt(attempts, id, i);
        return Some(i);
      }
    }
    return None;
  }

  function Position(attempts: seq<Attempt>, id: Id): (r: Option<nat>)
    ensures r.Some? ==> r.value < |attempts| && attempts[r.value].grant.id == id
    ensures r.None? ==> forall k | 0 <= k < |attempts| :: attempts[k].grant.id != id
  {
    if attempts == [] then None
    else if attempts[0].grant.id == id then Some(0)
    else
      var r := Position(attempts[1..], id);
      if r.Some? then Some(r.value + 1)
      else assert forall k | 0 < k < |attempts| :: attempts[k] == attempts[1..][k - 1]; None
  }

  lemma {:induction false} PositionAt(attempts: seq<Attempt>, id: Id, i: nat)
    requires i < |attempts| && attempts[i].grant.id == id && forall k | 0 <= k < i :: attempts[k].grant.id != id
    ensures Position(attempts, id) == Some(i)
  {
    if i > 0 {
      PositionAt(attempts[1..], id, i - 1);
    }
  }

  datatype Edit = Failed | Unchanged | Edited(plan: Plan)

  function WithStop(e: Execution, i: nat, stop: Delivery): Plan
    requires i < |e.attempts|
  {
    Some(e.(attempts := e.attempts[i := e.attempts[i].(stop := Some(stop))]))
  }

  /** Saves the delivery before the one network attempt; `Edited` is what permits the send. */
  function MarkSent(p: Plan, g: Grant, now: nat): Edit {
    if p.None? then Failed
    else if p.value.requestedAt.None? then Unchanged
    else
      match Position(p.value.attempts, g.id)
      case None => Failed
      case Some(i) =>
        var a := p.value.attempts[i];
        if a.grant != g then Failed
        else if a.stop.Some? then Unchanged
        else Edited(WithStop(p.value, i, Delivery(Max(now, p.value.requestedAt.value), None, true)))
  }

  /** Saves the node's confirmation over the delivery, once. */
  function SaveReport(p: Plan, g: Grant, report: Report): Edit {
    if p.None? then Failed
    else
      match Position(p.value.attempts, g.id)
      case None => Failed
      case Some(i) =>
        var a := p.value.attempts[i];
        if a.grant != g || !report.Confirms(g) || a.stop.None? then Failed
        else if a.stop.value.report.Some? then (if a.stop.value.report.value == report then Unchanged else Failed)
        else Edited(WithStop(p.value, i, Delivery(a.stop.value.sentAt, Some(report), false)))
  }

  /** The attempt of exactly this grant. */
  predicate AttemptAt(p: Plan, g: Grant, i: nat) {
    p.Some? && i < |p.value.attempts| && p.value.attempts[i].grant == g
  }

  lemma PositionIs(p: Plan, g: Grant, i: nat)
    requires Valid(p) && AttemptAt(p, g, i)
    ensures Position(p.value.attempts, g.id) == Some(i)
  {
    PositionAt(p.value.attempts, g.id, i);
  }

  /** A delivery is marked exactly for a requested stop and an attempt of this very grant without one; it is then
      sent no earlier than requested, without report, and every other attempt is as it was. */
  lemma MarkWhen(p: Plan, g: Grant, now: nat)
    requires Valid(p)
    ensures MarkSent(p, g, now).Edited? <==>
            p.Some? && p.value.requestedAt.Some? && exists i | 0 <= i < |p.value.attempts| :: AttemptAt(p, g, i) && p.value.attempts[i].stop.None?
    ensures MarkSent(p, g, now).Edited? ==>
              forall i: nat | AttemptAt(p, g, i) ::
                MarkSent(p, g, now).plan
                == Some(p.value.(attempts := p.value.attempts[i := Attempt(g, Some(Delivery(Max(now, p.value.requestedAt.value), None, true)))]))
  {
    forall i: nat | AttemptAt(p, g, i) ensures Position(p.value.attempts, g.id) == Some(i) {
      PositionIs(p, g, i);
    }
  }

  /** A report is saved exactly over a delivery of this very grant that has none, and names the grant it stops. */
  lemma SaveWhen(p: Plan, g: Grant, report: Report)
    requires Valid(p)
    ensures SaveReport(p, g, report).Edited? <==>
            report.grant == g && exists i | 0 <= i < (if p.Some? then |p.value.attempts| else 0) ::
              AttemptAt(p, g, i) && p.value.attempts[i].stop.Some? && p.value.attempts[i].stop.value.report.None?
    ensures SaveReport(p, g, report).Edited? ==>
              forall i: nat | AttemptAt(p, g, i) ::
                && p.value.attempts[i].stop.Some?
                && SaveReport(p, g, report).plan
                   == Some(p.value.(attempts := p.value.attempts[i := Attempt(g, Some(Delivery(p.value.attempts[i].stop.value.sentAt, Some(report), false)))]))
  {
    forall i: nat | AttemptAt(p, g, i) ensures Position(p.value.attempts, g.id) == Some(i) {
      PositionIs(p, g, i);
    }
  }

  lemma {:induction false} DeliveriesUpdate(attempts: seq<Attempt>, i: nat, stop: Delivery)
    requires DistinctGrants(attempts) && i < |attempts|
    ensures Deliveries(attempts[i := attempts[i].(stop := Some(stop))]) == Deliveries(attempts)[attempts[i].grant.id := stop]
  {
    var n := |attempts| - 1;
    var updated := attempts[i := attempts[i].(stop := Some(stop))];
    if i < n {
      DeliveriesUpdate(attempts[..n], i, stop);
      assert updated[..n] == attempts[..n][i := attempts[i].(stop := Some(stop))];
      assert updated[n] == attempts[n];
    } else {
      assert updated[..n] == attempts[..n];
    }
  }

  /** Both edits satisfy the check that every edit must pass, and leave a valid plan. */
  lemma StopEditsPreserve(p: Plan, g: Grant, now: nat, report: Report)
    requires Valid(p) && now <= I64_MAX
    ensures MarkSent(p, g, now).Edited? ==> Preserves(Snap(p), MarkSent(p, g, now).plan) && Valid(MarkSent(p, g, now).plan)
    ensures SaveReport(p, g, report).Edited? ==> Preserves(Snap(p), SaveReport(p, g, report).plan) && Valid(SaveReport(p, g, report).plan)
    ensures MarkSent(p, g, now).Edited? ==>
              g.id !in Snap(p).deliveries && g.id in Snap(MarkSent(p, g, now).plan).deliveries
  {
    if p.Some? && Position(p.value.attempts, g.id).Some? {
      var i := Position(p.value.attempts, g.id).value;
      DeliveriesHave(p.value.attempts, i);
      if MarkSent(p, g, now).Edited? {
        DeliveriesUpdate(p.value.attempts, i, Delivery(Max(now, p.value.requestedAt.value), None, true));
      }
      if SaveReport(p, g, report).Edited? {
        DeliveriesUpdate(p.value.attempts, i, Delivery(p.value.attempts[i].stop.value.sentAt, Some(report), false));
      }
    }
  }

  lemma MarkedAttempt(p: Plan, g: Grant, now: nat)
    requires Valid(p) && MarkSent(p, g, now).Edited?
    ensures var q := MarkSent(p, g, now).plan;
            && q.Some? && Position(q.value.attempts, g.id).Some?
            && q.value.attempts[Position(q.value.attempts, g.id).value].grant == g
            && q.value.attempts[Position(q.value.attempts, g.id).value].stop.Some?
            && q.value.attempts[Position(q.value.attempts, g.id).value].stop.value.report.None?
  {
    var q := MarkSent(p, g, now).plan;
    var i := Position(p.value.attempts, g.id).value;
    assert q.value.attempts[i].grant == g;
    forall k | 0 <= k < |p.value.attempts| && k != i ensures q.value.attempts[k].grant.id != g.id {
      assert q.value.attempts[k].grant == p.value.attempts[k].grant;
    }
  }

  /** One uninterrupted stop call: save the delivery, send once, save what came back. */
  class Driver {
    var plan: Plan
    var sends: seq<Id>

    constructor (plan: Plan)
      ensures this.plan == plan && sends == []
    {
      this.plan, sends := plan, [];
    }

    method MarkBeforeSend(g: Grant, now: nat) returns (send: bool)
      modifies this`plan
      ensures send == MarkSent(old(plan), g, now).Edited?
      ensures plan == if send then MarkSent(old(plan), g, now).plan else old(plan)
    {
      if plan.None? || plan.value.requestedAt.None? {
        return false;
      }
      var index := FindAttempt(plan.value.attempts, g.id);
      if index.None? || plan.value.attempts[index.value].grant != g || plan.value.attempts[index.value].stop.Some? {
        return false;
      }
      plan := WithStop(plan.value, index.value, Delivery(Max(now, plan.value.requestedAt.value), None, true));
      return true;
    }

    method StopOne(g: Grant, now: nat, answer: Option<Report>)
      requires Valid(plan) && now <= I64_MAX
      modifies this
      ensures Valid(plan) && Preserves(Snap(old(plan)), plan)
      ensures sends == old(sends) + if MarkSent(old(plan), g, now).Edited? then [g.id] else []
      ensures g.id in Snap(old(plan)).deliveries ==> sends == old(sends) && plan == old(plan)
      ensures sends != old(sends) && answer.Some? && answer.value.Confirms(g) ==>
                g.id in Snap(plan).deliveries && Snap(plan).deliveries[g.id].report == answer
    {
      StopEditsPreserve(plan, g, now, Report(g, 0));
      var send := MarkBeforeSend(g, now);
      if !send {
        return;
      }
      sends := sends + [g.id];
      if answer.Some? && answer.value.Confirms(g) {
        ghost var marked := plan;
        MarkedAttempt(old(plan), g, now);
        StopEditsPreserve(plan, g, now, answer.value);
        var index := FindAttempt(plan.value.attempts, g.id);
        var a := plan.value.attempts[index.value];
        DeliveriesUpdate(plan.value.attempts, index.value, Delivery(a.stop.value.sentAt, answer, false));
        plan := WithStop(plan.value, index.value, Delivery(a.stop.value.sentAt, answer, false));
        PreservesTransitive(old(plan), marked, plan);
      }
    }
  }

  // ------------------------------------------------------------------ runs

  /** The stored plan, the calls about to send, and every send made so far. */
  datatype World = World(plan: Plan, pending: map<Id, Grant>, sends: seq<Id>)

  datatype Step =
    | Mark(call: Id, grant: Grant, now: nat)   // the first edit of one stop call
    | Send(call: Id)                           // its network attempt
    | Drop(call: Id)                           // the call ends before it
    | Save(grant: Grant, report: Report)       // the second edit
    | Other(plan: Plan)                        // any other edit of the plan

  function Next(w: World, step: Step): World {
    match step
    case Mark(call, g, now) =>
      if call in w.pending || now > I64_MAX then w
      else
        var edit := MarkSent(w.plan, g, now);
        if edit.Edited? then w.(plan := edit.plan, pending := w.pending[call := g]) else w
    case Send(call) =>
      if call in w.pending then w.(pending := w.pending - {call}, sends := w.sends + [w.pending[call].id]) else w
    case Drop(call) => w.(pending := w.pending - {call})
    case Save(g, report) =>
      var edit := SaveReport(w.plan, g, report);
      if edit.Edited? then w.(plan := edit.plan) else w
    case Other(plan) => if Preserves(Snap(w.plan), plan) && Valid(plan) then w.(plan := plan) else w
  }

  function Run(w: World, steps: seq<Step>): World {
    if steps == [] then w else Next(Run(w, steps[..|steps| - 1]), steps[|steps| - 1])
  }

  /** Every grant sent or about to be sent has its delivery saved, and none is sent twice. */
  predicate Inv(w: World) {
    && Valid(w.plan)
    && (forall i, j | 0 <= i < j < |w.sends| :: w.sends[i] != w.sends[j])
    && (forall c | c in w.pending :: w.pending[c].id in Snap(w.plan).deliveries && w.pending[c].id !in w.sends)
    && (forall c, d | c in w.pending && d in w.pending && c != d :: w.pending[c].id != w.pending[d].id)
    && (forall id | id in w.sends :: id in Snap(w.plan).deliveries)
  }

  lemma StepInv(w: World, step: Step)
    requires Inv(w)
    ensures Inv(Next(w, step)) && Preserves(Snap(w.plan), Next(w, step).plan)
  {
    PreservesReflexive(w.plan);
    match step
    case Mark(_, g, now) =>
      if now <= I64_MAX {
        StopEditsPreserve(w.plan, g, now, Report(g, 0));
      }
    case Save(g, report) => StopEditsPreserve(w.plan, g, 0, report);
    case _ =>
  }

  lemma {:induction false} RunInv(w: World, steps: seq<Step>)
    requires Inv(w)
    ensures Inv(Run(w, steps)) && Preserves(Snap(w.plan), Run(w, steps).plan)
  {
    if steps != [] {
      var before := Run(w, steps[..|steps| - 1]);
      RunInv(w, steps[..|steps| - 1]);
      StepInv(before, steps[|steps| - 1]);
      PreservesTransitive(w.plan, before.plan, Run(w, steps).plan);
    } else {
      PreservesReflexive(w.plan);
    }
  }

  /** Over any run from a freshly issued plan each grant is sent at most one stop, only after its
      delivery was saved. */
  lemma AtMostOneSend(plan: Plan, steps: seq<Step>)
    requires Valid(plan)
    ensures var w := Run(World(plan, map[], []), steps);
            && (forall i, j | 0 <= i < j < |w.sends| :: w.sends[i] != w.sends[j])
            && forall id | id in w.sends :: id in Snap(w.plan).deliveries
  {
    RunInv(World(plan, map[], []), steps);
  }

  /** From then on the request time, each send time and each confirmed report never change. */
  lemma ReceiptsNeverChange(w: World, steps: seq<Step>, id: Id)
    requires Inv(w)
    ensures Snap(w.plan).requestedAt.Some? ==> Snap(Run(w, steps).plan).requestedAt == Snap(w.plan).requestedAt
    ensures id in Snap(w.plan).deliveries ==>
              && id in Snap(Run(w, steps).plan).deliveries
              && Snap(Run(w, steps).plan).deliveries[id].sentAt == Snap(w.plan).deliveries[id].sentAt
              && (Snap(w.plan).deliveries[id].report.Some? ==>
                    Snap(Run(w, steps).plan).deliveries[id] == Snap(w.plan).deliveries[id])
  {
    RunInv(w, steps);
  }
}
