/** Shared vocabulary: optional values, 64-bit clock arithmetic, and append-only logs. */
module Prelude {

  datatype Option<+T> = None | Some(value: T)

  /** One past the largest value of the coordinator's unsigned 64-bit counters and clocks. */
  const U64_LIMIT: nat := 0x1_0000_0000_0000_0000

  function SaturatingSub(a: nat, b: nat): (r: nat)
    ensures r + b >= a && (r > 0 ==> r + b == a)
  {
    if a < b then 0 else a - b
  }

  function SaturatingAdd(a: nat, b: nat): (r: nat)
    ensures r <= a + b && (a + b < U64_LIMIT ==> r == a + b)
  {
    if a + b < U64_LIMIT then a + b else U64_LIMIT - 1
  }

  function Max(a: nat, b: nat): nat {
    if a < b then b else a
  }

  /** The first row of an append-only log that a lookup hits. */
  function Find<T>(log: seq<T>, hit: T -> bool): (r: Option<T>)
    ensures r.Some? ==> r.value in log && hit(r.value)
    ensures r.None? ==> forall x | x in log :: !hit(x)
  {
    if log == [] then None
    else if hit(log[0]) then Some(log[0])
    else Find(log[1..], hit)
  }

  lemma {:induction false} FindAppend<T>(log: seq<T>, x: T, hit: T -> bool)
    ensures Find(log + [x], hit) ==
            if Find(log, hit).Some? then Find(log, hit)
            else if hit(x) then Some(x) else None
  {
    if log != [] {
      assert (log + [x])[1..] == log[1..] + [x];
      FindAppend(log[1..], x, hit);
    }
  }

  /** How many rows of a log a lookup hits. */
  function Count<T>(log: seq<T>, hit: T -> bool): nat {
    if log == [] then 0
    else Count(log[..|log| - 1], hit) + if hit(log[|log| - 1]) then 1 else 0
  }

  /** The total weight of the rows a lookup hits. */
  function Sum<T>(log: seq<T>, weight: T -> nat): nat {
    if log == [] then 0
    else Sum(log[..|log| - 1], weight) + weight(log[|log| - 1])
  }

  lemma CountAppend<T>(log: seq<T>, x: T, hit: T -> bool)
    ensures Count(log + [x], hit) == Count(log, hit) + if hit(x) then 1 else 0
  {
    assert (log + [x])[..|log|] == log;
  }

  lemma SumAppend<T>(log: seq<T>, x: T, weight: T -> nat)
    ensures Sum(log + [x], weight) == Sum(log, weight) + weight(x)
  {
    assert (log + [x])[..|log|] == log;
  }

  lemma {:induction false} CountNone<T>(log: seq<T>, hit: T -> bool)
    requires forall x | x in log :: !hit(x)
    ensures Count(log, hit) == 0
  {
    if log != [] {
      CountNone(log[..|log| - 1], hit);
    }
  }

  lemma {:induction false} SumNone<T>(log: seq<T>, weight: T -> nat)
    requires forall x | x in log :: weight(x) == 0
    ensures Sum(log, weight) == 0
  {
    if log != [] {
      SumNone(log[..|log| - 1], weight);
    }
  }

  /** The k-th hit of a log exists, with exactly k - 1 hits before it. */
  lemma {:induction false} NthHit<T>(log: seq<T>, hit: T -> bool, k: nat) returns (i: nat)
    requires 1 <= k <= Count(log, hit)
    ensures i < |log| && hit(log[i]) && Count(log[..i], hit) == k - 1
  {
    var n := |log| - 1;
    if hit(log[n]) && Count(log[..n], hit) == k - 1 {
      i := n;
    } else {
      i := NthHit(log[..n], hit, k);
      assert log[..n][..i] == log[..i];
    }
  }

  lemma {:induction false} CountPrefix<T>(log: seq<T>, longer: seq<T>, hit: T -> bool)
    requires log <= longer
    ensures Count(log, hit) <= Count(longer, hit)
  {
    if |longer| > |log| {
      CountPrefix(log, longer[..|longer| - 1], hit);
    } else {
      assert log == longer;
    }
  }

  lemma {:induction false} SumPrefix<T>(log: seq<T>, longer: seq<T>, weight: T -> nat)
    requires log <= longer
    ensures Sum(log, weight) <= Sum(longer, weight)
  {
    if |longer| > |log| {
      SumPrefix(log, longer[..|longer| - 1], weight);
    } else {
      assert log == longer;
    }
  }

  lemma {:induction false} FindPrefix<T>(log: seq<T>, longer: seq<T>, hit: T -> bool)
    requires log <= longer && Find(log, hit).Some?
    ensures Find(longer, hit) == Find(log, hit)
  {
    if !hit(log[0]) {
      FindPrefix(log[1..], longer[1..], hit);
    }
  }
}
