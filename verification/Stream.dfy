/** The microphone-energy producer: one record per block, a level and an activity with hysteresis. */
module Microphone {
  import opened Prelude

  type Sample = v: int | -32768 <= v <= 32767

  /** One blocking read: the samples and whether the device reported a gap. */
  datatype Block = Block(samples: seq<Sample>, gap: bool)

  datatype Params = Params(channels: nat, blockFrames: nat, maxBlocks: nat, activate: nat, deactivate: nat)

  predicate ValidParams(p: Params) {
    && 1 <= p.channels <= 2 && 80 <= p.blockFrames <= 4096 && 1 <= p.maxBlocks <= 100_000
    && 1 <= p.activate <= 32768 && p.deactivate <= p.activate
  }

  datatype Record = Record(sourceFrames: nat, active: Option<bool>, level: Option<nat>, discontinuity: bool)

  // ------------------------------------------------------------------ level

  function Energy(samples: seq<Sample>): nat {
    if samples == [] then 0
    else Energy(samples[..|samples| - 1]) + Square(samples[|samples| - 1])
  }

  lemma Scale(a: nat, b: nat, c: nat)
    requires a <= b
    ensures a * c <= b * c
  {
  }

  function Square(v: Sample): (r: nat)
    ensures r <= 32768 * 32768
  {
    var n: int := v;
    var a: nat := if n < 0 then -n else n;
    Scale(a, 32768, a);
    a * a
  }

  predicate IsRoot(n: nat, r: nat) { r * r <= n < (r + 1) * (r + 1) }

  /** A root is at most any number whose successor squares past n; so roots are unique. */
  lemma RootAtMost(n: nat, r: nat, bound: nat)
    requires r * r <= n < (bound + 1) * (bound + 1)
    ensures r <= bound
  {
    if bound + 1 <= r {
      Scale(bound + 1, r, bound + 1);
      Scale(bound + 1, r, r);
    }
  }

  function RootFrom(n: nat, guess: nat): (r: nat)
    requires n < (guess + 1) * (guess + 1)
    ensures IsRoot(n, r)
  {
    if guess * guess <= n then guess else RootFrom(n, guess - 1)
  }

  /** The integer square root. */
  function Root(n: nat): (r: nat)
    ensures IsRoot(n, r)
  {
    assert (n + 1) * (n + 1) >= n + 1;
    RootFrom(n, n)
  }

  lemma {:induction false} EnergyBound(samples: seq<Sample>)
    ensures Energy(samples) <= |samples| * (32768 * 32768)
  {
    if samples != [] {
      EnergyBound(samples[..|samples| - 1]);
    }
  }

  function Times(v: int): int { v * v }

  lemma SquareIs(v: Sample)
    ensures Square(v) == Times(v)
  {
  }

  /** The sum of the squares, from the first sample on. */
  function SumOfSquares(samples: seq<Sample>): int {
    if samples == [] then 0 else Times(samples[0]) + SumOfSquares(samples[1..])
  }

  lemma {:induction false} SumOfSquaresLast(samples: seq<Sample>)
    requires samples != []
    ensures SumOfSquares(samples) == SumOfSquares(samples[..|samples| - 1]) + Times(samples[|samples| - 1])
  {
    if |samples| > 1 {
      SumOfSquaresLast(samples[1..]);
      assert samples[1..][..|samples| - 2] == samples[..|samples| - 1][1..];
    } else {
      assert samples[1..] == [] && samples[..0] == [];
    }
  }

  lemma {:induction false} EnergyIs(samples: seq<Sample>)
    ensures Energy(samples) == SumOfSquares(samples)
  {
    if samples != [] {
      EnergyIs(samples[..|samples| - 1]);
      SquareIs(samples[|samples| - 1]);
      SumOfSquaresLast(samples);
    }
  }

  function Level(samples: seq<Sample>): nat
    requires samples != []
  {
    Root(Energy(samples) / |samples|)
  }

  /** The level is the integer root of the mean square, rounded down twice. */
  lemma LevelIs(samples: seq<Sample>)
    requires samples != []
    ensures SumOfSquares(samples) >= 0
    ensures var mean := SumOfSquares(samples) / |samples|;
            Level(samples) * Level(samples) <= mean < (Level(samples) + 1) * (Level(samples) + 1)
  {
    EnergyIs(samples);
  }

  /** The root of the mean square of 16-bit samples never passes 32768. */
  lemma LevelBound(samples: seq<Sample>)
    requires samples != []
    ensures Level(samples) <= 32768
  {
    EnergyBound(samples);
    MeanBound(Energy(samples), |samples|, 32768 * 32768);
    RootAtMost(Energy(samples) / |samples|, Level(samples), 32768);
  }

  lemma MeanBound(total: nat, n: nat, bound: nat)
    requires n > 0 && total <= n * bound
    ensures total / n <= bound
  {
    var q := total / n;
    assert q * n <= total;
    if bound + 1 <= q {
      Scale(bound + 1, q, n);
    }
  }

  method SumSquares(samples: seq<Sample>) returns (total: nat)
    ensures total == Energy(samples)
  {
    total := 0;
    for i := 0 to |samples|
      invariant total == Energy(samples[..i])
    {
      assert samples[..i + 1][..i] == samples[..i];
      total := total + Square(samples[i]);
    }
    assert samples[..|samples|] == samples;
  }

  // ------------------------------------------------------------------ activity

  /** Activity after one more block: a gap forgets it, a decisive level sets it, any other keeps it. */
  function Activity(p: Params, before: Option<bool>, b: Block): Option<bool> {
    if b.gap || b.samples == [] then None
    else if Level(b.samples) >= p.activate then Some(true)
    else if Level(b.samples) <= p.deactivate then Some(false)
    else before
  }

  function ActivityAfter(p: Params, blocks: seq<Block>): Option<bool> {
    if blocks == [] then None else Activity(p, ActivityAfter(p, blocks[..|blocks| - 1]), blocks[|blocks| - 1])
  }

  function RecordAt(p: Params, blocks: seq<Block>, i: nat): Record
    requires i < |blocks|
  {
    Record(Frames(p, i + 1), ActivityAfter(p, blocks[..i + 1]), LevelOf(blocks[i]), blocks[i].gap)
  }

  function Frames(p: Params, blocks: nat): nat { blocks * p.blockFrames }

  function LevelOf(b: Block): Option<nat> {
    if b.gap || b.samples == [] then None else Some(Level(b.samples))
  }

  /** No gap from block j to block i, and nothing after j quiet enough to end the activity. */
  predicate Sustained(p: Params, blocks: seq<Block>, j: nat, i: nat)
    requires j <= i < |blocks|
  {
    && (forall k | j <= k <= i :: !blocks[k].gap && blocks[k].samples != [])
    && Level(blocks[j].samples) >= p.activate
    && (forall k | j < k <= i :: Level(blocks[k].samples) > p.deactivate || Level(blocks[k].samples) >= p.activate)
  }

  predicate ActiveSince(p: Params, blocks: seq<Block>, i: nat)
    requires i < |blocks|
  {
    exists j | 0 <= j <= i :: Sustained(p, blocks, j, i)
  }

  /** Hysteresis over the whole stream: block i is active exactly when some earlier block reached the
      activation level and no gap or quiet block has come since. */
  lemma {:induction false} ActiveIff(p: Params, blocks: seq<Block>, i: nat)
    requires i < |blocks|
    ensures ActivityAfter(p, blocks[..i + 1]) == Some(true) <==> ActiveSince(p, blocks, i)
  {
    var b := blocks[i];
    assert blocks[..i + 1][..i] == blocks[..i];
    if i > 0 {
      ActiveIff(p, blocks, i - 1);
    }
    if b.gap || b.samples == [] {
    } else if Level(b.samples) >= p.activate {
      assert Sustained(p, blocks, i, i);
    } else if Level(b.samples) > p.deactivate && i > 0 {
      if ActiveSince(p, blocks, i - 1) {
        var j :| 0 <= j <= i - 1 && Sustained(p, blocks, j, i - 1);
        assert Sustained(p, blocks, j, i);
      }
      if ActiveSince(p, blocks, i) {
        var j :| 0 <= j <= i && Sustained(p, blocks, j, i);
        assert Sustained(p, blocks, j, i - 1);
      }
    }
  }

  /** No gap from block j to block i, a quiet block at j, and nothing after it loud enough to start activity. */
  predicate Quieted(p: Params, blocks: seq<Block>, j: nat, i: nat)
    requires j <= i < |blocks|
  {
    && (forall k | j <= k <= i :: !blocks[k].gap && blocks[k].samples != [])
    && Level(blocks[j].samples) <= p.deactivate
    && (forall k | j <= k <= i :: Level(blocks[k].samples) < p.activate)
  }

  predicate QuietSince(p: Params, blocks: seq<Block>, i: nat)
    requires i < |blocks|
  {
    exists j | 0 <= j <= i :: Quieted(p, blocks, j, i)
  }

  /** Block i is inactive exactly when some earlier block fell to the other level and nothing loud and no gap has
      come since; before any such block, or after a gap, its activity is unknown. */
  lemma {:induction false} InactiveIff(p: Params, blocks: seq<Block>, i: nat)
    requires i < |blocks|
    ensures ActivityAfter(p, blocks[..i + 1]) == Some(false) <==> QuietSince(p, blocks, i)
  {
    var b := blocks[i];
    assert blocks[..i + 1][..i] == blocks[..i];
    if i > 0 {
      InactiveIff(p, blocks, i - 1);
    }
    if b.gap || b.samples == [] {
    } else if Level(b.samples) >= p.activate {
    } else if Level(b.samples) <= p.deactivate {
      assert Quieted(p, blocks, i, i);
    } else if i > 0 {
      if QuietSince(p, blocks, i - 1) {
        var j :| 0 <= j <= i - 1 && Quieted(p, blocks, j, i - 1);
        assert Quieted(p, blocks, j, i);
      }
      if QuietSince(p, blocks, i) {
        var j :| 0 <= j <= i && Quieted(p, blocks, j, i);
        assert Quieted(p, blocks, j, i - 1);
      }
    }
  }

  /** What the record of a block says. */
  lemma RecordIs(p: Params, blocks: seq<Block>, i: nat)
    requires i < |blocks|
    ensures var r := RecordAt(p, blocks, i);
            && r.sourceFrames == (i + 1) * p.blockFrames && r.discontinuity == blocks[i].gap
            && (r.level.Some? <==> !blocks[i].gap && blocks[i].samples != [])
            && (r.level.Some? ==> r.level.value == Level(blocks[i].samples))
            && (r.active == Some(true) <==> ActiveSince(p, blocks, i)) && (r.active == Some(false) <==> QuietSince(p, blocks, i))
  {
    ActiveIff(p, blocks, i);
    InactiveIff(p, blocks, i);
  }

  // ------------------------------------------------------------------ the stream

  predicate WellFormed(p: Params, b: Block) { |b.samples| == p.blockFrames * p.channels }

  lemma NotEmpty(p: Params, b: Block)
    requires ValidParams(p) && WellFormed(p, b)
    ensures b.samples != []
  {
    Scale(1, p.channels, p.blockFrames);
  }

  method MeasureLevel(samples: seq<Sample>) returns (level: nat)
    requires samples != []
    ensures level == Level(samples)
  {
    var total := SumSquares(samples);
    level := Root(total / |samples|);
  }

  method ReadBlock(p: Params, before: Option<bool>, b: Block) returns (active: Option<bool>, level: Option<nat>)
    requires ValidParams(p) && WellFormed(p, b)
    ensures active == Activity(p, before, b) && level == LevelOf(b)
  {
    NotEmpty(p, b);
    active, level := before, None;
    if b.gap {
      active := None;
    } else {
      var value := MeasureLevel(b.samples);
      level := Some(value);
      if value >= p.activate {
        active := Some(true);
      } else if value <= p.deactivate {
        active := Some(false);
      }
    }
  }

  /** One record per read until the last block or the first malformed or missing one, which fails. */
  method Produce(p: Params, blocks: seq<Block>) returns (records: seq<Record>, failed: bool)
    requires ValidParams(p)
    ensures |records| <= p.maxBlocks && |records| <= |blocks|
    ensures failed <==> |records| < p.maxBlocks
    ensures failed ==> |records| == |blocks| || |blocks[|records|].samples| != p.blockFrames * p.channels
    ensures forall i | 0 <= i < |records| :: |blocks[i].samples| == p.blockFrames * p.channels && records[i] == RecordAt(p, blocks, i)
  {
    records := [];
    var active: Option<bool> := None;
    for index := 0 to p.maxBlocks
      invariant index == |records| <= |blocks|
      invariant active == ActivityAfter(p, blocks[..index])
      invariant forall i | 0 <= i < index :: WellFormed(p, blocks[i]) && records[i] == RecordAt(p, blocks, i)
    {
      if index == |blocks| || !WellFormed(p, blocks[index]) {
        return records, true;
      }
      assert blocks[..index + 1][..index] == blocks[..index];
      var level;
      active, level := ReadBlock(p, active, blocks[index]);
      records := records + [Record((index + 1) * p.blockFrames, active, level, blocks[index].gap)];
    }
    failed := false;
  }
}

/** The stream host: checks each record, numbers it, and writes within both byte budgets. */
module StreamHost {
  import opened Prelude
  import opened Microphone

  datatype Bounds = Bounds(maxFrameBytes: nat, maxStdoutBytes: nat, maxObservations: nat, maxSourceFrames: nat)

  datatype Message = Ready | Observation(sequence: nat, record: Record) | End(observations: nat, sourceFrames: nat)

  /** The check on one record, after the frames already seen. */
  predicate Acceptable(r: Record, frames: nat, bounds: Bounds) {
    && frames < r.sourceFrames <= bounds.maxSourceFrames
    && (r.level.Some? ==> r.level.value <= 32768)
    && (r.discontinuity ==> r.active.None?)
    && (r.active.Some? ==> r.level.Some?)
  }

  function FramesAfter(records: seq<Record>): nat {
    if records == [] then 0 else records[|records| - 1].sourceFrames
  }

  predicate AllAcceptable(records: seq<Record>, bounds: Bounds) {
    forall i | 0 <= i < |records| :: Acceptable(records[i], FramesAfter(records[..i]), bounds)
  }

  /** Ready, then the first n records numbered from one. */
  function Observed(records: seq<Record>): seq<Message> {
    if records == [] then [Ready]
    else Observed(records[..|records| - 1]) + [Observation(|records|, records[|records| - 1])]
  }

  function Complete(records: seq<Record>): seq<Message> {
    Observed(records) + [End(|records|, FramesAfter(records))]
  }

  function Bytes(messages: seq<Message>, size: Message -> nat): nat {
    Sum(messages, size)
  }

  /** Every message fits its frame and the whole output its total. */
  predicate WithinBudget(messages: seq<Message>, size: Message -> nat, bounds: Bounds) {
    && (forall m | m in messages :: size(m) <= bounds.maxFrameBytes)
    && Bytes(messages, size) <= bounds.maxStdoutBytes
  }

  lemma {:induction false} ObservedShape(records: seq<Record>, i: nat)
    requires i < |records|
    ensures |Observed(records)| == |records| + 1 && Observed(records)[0] == Ready
    ensures Observed(records)[i + 1] == Observation(i + 1, records[i])
  {
    if i < |records| - 1 {
      ObservedShape(records[..|records| - 1], i);
    } else if |records| > 1 {
      ObservedShape(records[..|records| - 1], 0);
    }
  }

  /** Accepted records carry strictly rising frame counts. */
  lemma {:induction false} FramesStrictlyRise(records: seq<Record>, bounds: Bounds, i: nat, j: nat)
    requires AllAcceptable(records, bounds) && i < j < |records|
    ensures records[i].sourceFrames < records[j].sourceFrames
  {
    assert Acceptable(records[j], FramesAfter(records[..j]), bounds);
    assert records[..j][j - 1] == records[j - 1];
    if i < j - 1 {
      FramesStrictlyRise(records, bounds, i, j - 1);
    }
  }

  /** Writing one more message keeps the output within budget exactly when its own check passes. */
  lemma BudgetAppend(messages: seq<Message>, m: Message, size: Message -> nat, bounds: Bounds)
    requires WithinBudget(messages, size, bounds)
    ensures WithinBudget(messages + [m], size, bounds) <==>
            size(m) <= bounds.maxFrameBytes && Bytes(messages, size) + size(m) <= bounds.maxStdoutBytes
  {
    SumAppend(messages, m, size);
    assert m in messages + [m];
  }

  lemma {:induction false} BudgetPrefix(messages: seq<Message>, n: nat, size: Message -> nat, bounds: Bounds)
    requires n <= |messages| && WithinBudget(messages, size, bounds)
    ensures WithinBudget(messages[..n], size, bounds)
  {
    SumPrefix(messages[..n], messages, size);
  }

  lemma {:induction false} ObservedPrefix(records: seq<Record>, n: nat)
    requires n <= |records|
    ensures Observed(records[..n]) <= Observed(records)
  {
    if n < |records| {
      ObservedPrefix(records[..|records| - 1], n);
      assert records[..|records| - 1][..n] == records[..n];
    } else {
      assert records[..n] == records;
    }
  }

  /** The whole stream is accepted and written. */
  predicate Delivers(records: seq<Record>, failed: bool, size: Message -> nat, bounds: Bounds) {
    && !failed && records != [] && AllAcceptable(records, bounds) && |records| <= bounds.maxObservations
    && WithinBudget(Complete(records), size, bounds)
  }

  /** Each record against the one before it. */
  predicate InOrder(records: seq<Record>, bounds: Bounds) {
    forall i | 0 <= i < |records| ::
      && (if i == 0 then 0 else records[i - 1].sourceFrames) < records[i].sourceFrames <= bounds.maxSourceFrames
      && (records[i].level.Some? ==> records[i].level.value <= 32768)
      && (records[i].discontinuity ==> records[i].active.None?)
      && (records[i].active.Some? ==> records[i].level.Some?)
  }

  lemma InOrderIs(records: seq<Record>, bounds: Bounds)
    ensures AllAcceptable(records, bounds) <==> InOrder(records, bounds)
  {
    forall i | 0 <= i < |records|
      ensures FramesAfter(records[..i]) == if i == 0 then 0 else records[i - 1].sourceFrames
    {
    }
  }

  /** Ready, every record numbered from one, and the end with their number and the last frame count. */
  function Transcript(records: seq<Record>): seq<Message> {
    [Ready] + seq(|records|, i requires 0 <= i < |records| => Observation(i + 1, records[i]))
    + [End(|records|, if records == [] then 0 else records[|records| - 1].sourceFrames)]
  }

  lemma CompleteIs(records: seq<Record>)
    ensures Complete(records) == Transcript(records)
  {
    forall i | 0 <= i < |records|
      ensures |Observed(records)| == |records| + 1 && Observed(records)[0] == Ready
      ensures Observed(records)[i + 1] == Observation(i + 1, records[i])
    {
      ObservedShape(records, i);
    }
    assert Observed(records) == [Ready] + seq(|records|, i requires 0 <= i < |records| => Observation(i + 1, records[i]));
  }

  /** The whole stream is delivered exactly when it did not fail, is not empty, keeps every bound record by record,
      and every message and their total fit. */
  lemma DeliversIs(records: seq<Record>, failed: bool, size: Message -> nat, bounds: Bounds)
    ensures Delivers(records, failed, size, bounds) <==>
            && !failed && |records| >= 1 && InOrder(records, bounds) && |records| <= bounds.maxObservations
            && (forall m | m in Transcript(records) :: size(m) <= bounds.maxFrameBytes)
            && Sum(Transcript(records), size) <= bounds.maxStdoutBytes
  {
    InOrderIs(records, bounds);
    CompleteIs(records);
  }

  class Host {
    const bounds: Bounds
    const size: Message -> nat
    var written: seq<Message>
    var total: nat

    constructor (bounds: Bounds, size: Message -> nat)
      ensures this.bounds == bounds && this.size == size && written == [] && total == 0
    {
      this.bounds, this.size := bounds, size;
      written, total := [], 0;
    }

    predicate Valid()
      reads this
    {
      WithinBudget(written, size, bounds) && total == Bytes(written, size)
    }

    /** Counts the message first, and writes it only within both budgets. */
    method Emit(m: Message) returns (ok: bool)
      requires Valid()
      modifies this
      ensures ok <==> WithinBudget(old(written) + [m], size, bounds)
      ensures ok ==> Valid() && written == old(written) + [m]
      ensures !ok ==> written == old(written)
    {
      BudgetAppend(written, m, size, bounds);
      SumAppend(written, m, size);
      total := total + size(m);
      if size(m) > bounds.maxFrameBytes || total > bounds.maxStdoutBytes {
        return false;
      }
      written := written + [m];
      return true;
    }

    /** The record loop.  The output is always ready, then records 1..n in order, then possibly the end;
        it ends exactly when the whole stream is acceptable and fits. */
    method Stream(records: seq<Record>, failed: bool) returns (ok: bool)
      requires Valid() && written == []
      modifies this
      ensures ok <==> Delivers(records, failed, size, bounds)
      ensures ok ==> written == Complete(records)
      ensures !ok ==> written == [] || exists n | 0 <= n <= |records| && AllAcceptable(records[..n], bounds) :: written == Observed(records[..n])
      ensures WithinBudget(written, size, bounds)
    {
      Prefixes(records, size, bounds);
      ok := Emit(Ready);
      if !ok {
        return;
      }
      ok := Observe(records);
      if !ok || failed || records == [] {
        assert records[..|records|] == records;
        return false;
      }
      ok := Emit(End(|records|, FramesAfter(records)));
      assert records[..|records|] == records;
    }

    method Observe(records: seq<Record>) returns (ok: bool)
      requires Valid() && written == [Ready]
      modifies this
      ensures ok <==> AllAcceptable(records, bounds) && |records| <= bounds.maxObservations && WithinBudget(Observed(records), size, bounds)
      ensures ok ==> Valid() && written == Observed(records)
      ensures exists n | 0 <= n <= |records| && AllAcceptable(records[..n], bounds) :: written == Observed(records[..n])
      ensures WithinBudget(written, size, bounds)
    {
      var sequence, frames := 0, 0;
      assert written == Observed(records[..0]);
      for i := 0 to |records|
        invariant sequence == i <= bounds.maxObservations && frames == FramesAfter(records[..i])
        invariant AllAcceptable(records[..i], bounds)
        invariant Valid() && written == Observed(records[..i])
      {
        assert records[..i + 1][..i] == records[..i];
        if !Acceptable(records[i], frames, bounds) {
          return false;
        }
        sequence := sequence + 1;
        if sequence > bounds.maxObservations {
          return false;
        }
        frames := records[i].sourceFrames;
        AcceptableAppend(records, i, bounds);
        ok := Emit(Observation(sequence, records[i]));
        if !ok {
          NotWithin(records, i + 1, size, bounds);
          return;
        }
      }
      assert records[..|records|] == records;
      return true;
    }
  }

  lemma AcceptableAppend(records: seq<Record>, i: nat, bounds: Bounds)
    requires i < |records| && AllAcceptable(records[..i], bounds) && Acceptable(records[i], FramesAfter(records[..i]), bounds)
    ensures AllAcceptable(records[..i + 1], bounds)
  {
    var longer := records[..i + 1];
    forall k | 0 <= k < |longer| ensures Acceptable(longer[k], FramesAfter(longer[..k]), bounds) {
      assert longer[..k] == records[..k];
      if k < i {
        assert records[..i][..k] == records[..k] && records[..i][k] == records[k];
      }
    }
  }

  lemma NotWithin(records: seq<Record>, n: nat, size: Message -> nat, bounds: Bounds)
    requires n <= |records| && !WithinBudget(Observed(records[..n]), size, bounds)
    ensures !WithinBudget(Observed(records), size, bounds)
  {
    ObservedPrefix(records, n);
    assert Observed(records)[..|Observed(records[..n])|] == Observed(records[..n]);
    if WithinBudget(Observed(records), size, bounds) {
      BudgetPrefix(Observed(records), |Observed(records[..n])|, size, bounds);
    }
  }

  lemma Prefixes(records: seq<Record>, size: Message -> nat, bounds: Bounds)
    ensures WithinBudget(Complete(records), size, bounds) ==> WithinBudget(Observed(records), size, bounds)
    ensures WithinBudget(Observed(records), size, bounds) ==> WithinBudget([Ready], size, bounds)
  {
    if WithinBudget(Complete(records), size, bounds) {
      BudgetPrefix(Complete(records), |Observed(records)|, size, bounds);
      assert Complete(records)[..|Observed(records)|] == Observed(records);
    }
    ObservedPrefix(records, 0);
    if WithinBudget(Observed(records), size, bounds) {
      BudgetPrefix(Observed(records), 1, size, bounds);
      assert Observed(records)[..1] == [Ready];
    }
  }

  // ------------------------------------------------------------------ producer and host together

  lemma ActivityHasLevel(p: Params, blocks: seq<Block>, i: nat)
    requires i < |blocks|
    ensures RecordAt(p, blocks, i).active.Some? ==> RecordAt(p, blocks, i).level.Some?
    ensures RecordAt(p, blocks, i).discontinuity ==> RecordAt(p, blocks, i).active.None?
    ensures RecordAt(p, blocks, i).level.Some? ==> RecordAt(p, blocks, i).level.value <= 32768
  {
    if blocks[i].samples != [] {
      LevelBound(blocks[i].samples);
    }
  }

  lemma FramesRise(p: Params, i: nat)
    requires ValidParams(p) && i < p.maxBlocks
    ensures Frames(p, i) < Frames(p, i + 1) <= Frames(p, p.maxBlocks)
  {
    Scale(i + 1, p.maxBlocks, p.blockFrames);
  }

  /** Everything the producer can yield passes the host's checks, once the host's bounds cover the
      requested number of blocks and their frames. */
  lemma ProducerAccepted(p: Params, blocks: seq<Block>, records: seq<Record>, bounds: Bounds)
    requires ValidParams(p) && |records| <= p.maxBlocks && |records| <= |blocks|
    requires forall i | 0 <= i < |records| :: records[i] == RecordAt(p, blocks, i)
    requires p.maxBlocks <= bounds.maxObservations && Frames(p, p.maxBlocks) <= bounds.maxSourceFrames
    ensures AllAcceptable(records, bounds) && |records| <= bounds.maxObservations
  {
    forall i | 0 <= i < |records| ensures Acceptable(records[i], FramesAfter(records[..i]), bounds) {
      ActivityHasLevel(p, blocks, i);
      FramesRise(p, i);
      if i > 0 {
        assert records[..i][i - 1] == RecordAt(p, blocks, i - 1);
      }
    }
  }
}
