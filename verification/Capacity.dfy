/** The capacity allocator's state: registered providers, reservations, and what binds the two. */
module Capacity {
  import opened Prelude

  type Id = nat

  datatype Key = Key(node: int, capability: int, action: int)

  const ANY_ACTION := 0
  const LOCAL := 0
  const MAX_STEPS := 16
  const U32_LIMIT: nat := 0x1_0000_0000

  /** `profile` stands for what the node reports of a provider, `standing` for what the scheduler keeps about it:
      load, latency and priority.  Ranking and constraints look at both. */
  datatype Provider = Provider(healthy: bool, inFlight: nat, maxConcurrent: nat, heartbeat: nat, profile: int, standing: int)

  /** A reserved registration; not current once that registration was replaced or removed. */
  datatype Member = Member(key: Key, current: bool)

  datatype Policy = Policy(freshnessMs: nat, maxInFlight: nat, perProvider: nat, nodeLimits: map<int, nat>)

  function NodeLimit(policy: Policy, node: int): nat {
    if node in policy.nodeLimits then policy.nodeLimits[node] else 0
  }

  predicate Within(n: nat, ceiling: nat) {
    ceiling == 0 || n <= ceiling
  }

  /** The tighter of the two ceilings, zero meaning none. */
  function Ceiling(p: Provider, policy: Policy): (r: nat)
    ensures r == 0 <==> p.maxConcurrent == 0 && policy.perProvider == 0
    ensures forall n: nat :: Within(n, r) <==> Within(n, p.maxConcurrent) && Within(n, policy.perProvider)
  {
    if p.maxConcurrent == 0 then policy.perProvider
    else if policy.perProvider == 0 then p.maxConcurrent
    else if p.maxConcurrent < policy.perProvider then p.maxConcurrent else policy.perProvider
  }

  // ------------------------------------------------------------------ reservations

  type Reservations = map<Id, seq<Member>>

  predicate Bound(members: seq<Member>, k: Key) {
    exists i | 0 <= i < |members| :: members[i] == Member(k, true)
  }

  /** The live reservations that still hold the current registration of a provider. */
  function Live(reservations: Reservations, k: Key): set<Id> {
    set id | id in reservations && Bound(reservations[id], k)
  }

  /** A bundle counts once, for the node of its root. */
  function OnNode(reservations: Reservations, node: int): set<Id> {
    set id | id in reservations && reservations[id] != [] && reservations[id][0].key.node == node
  }

  /** Each provider once, all on the root's node. */
  predicate BundleOk(members: seq<Member>) {
    && members != []
    && (forall i, j | 0 <= i < j < |members| :: members[i].key != members[j].key)
    && (forall i | 0 <= i < |members| :: members[i].key.node == members[0].key.node)
  }

  predicate BundlesOk(reservations: Reservations) {
    forall id | id in reservations :: BundleOk(reservations[id])
  }

  function Retired(members: seq<Member>, stale: Key -> bool): (r: seq<Member>)
    ensures |r| == |members|
    ensures forall i | 0 <= i < |members| :: r[i] == Member(members[i].key, members[i].current && !stale(members[i].key))
  {
    seq(|members|, i requires 0 <= i < |members| => Member(members[i].key, members[i].current && !stale(members[i].key)))
  }

  /** Unbinds every member whose registration is being replaced or removed. */
  function Retire(reservations: Reservations, stale: Key -> bool): Reservations {
    map id | id in reservations :: Retired(reservations[id], stale)
  }

  lemma RetiredBound(members: seq<Member>, stale: Key -> bool, k: Key)
    ensures Bound(Retired(members, stale), k) <==> Bound(members, k) && !stale(k)
    ensures BundleOk(members) ==> BundleOk(Retired(members, stale))
  {
    if Bound(members, k) && !stale(k) {
      var i :| 0 <= i < |members| && members[i] == Member(k, true);
      assert Retired(members, stale)[i] == Member(k, true);
    }
  }

  lemma RetireLive(reservations: Reservations, stale: Key -> bool, k: Key)
    ensures Live(Retire(reservations, stale), k) == if stale(k) then {} else Live(reservations, k)
  {
    forall id | id in reservations
      ensures Bound(Retire(reservations, stale)[id], k) <==> Bound(reservations[id], k) && !stale(k)
    {
      RetiredBound(reservations[id], stale, k);
    }
  }

  lemma RetireNodes(reservations: Reservations, stale: Key -> bool, node: int)
    ensures OnNode(Retire(reservations, stale), node) == OnNode(reservations, node)
  {
  }

  lemma RetireBundles(reservations: Reservations, stale: Key -> bool)
    requires BundlesOk(reservations)
    ensures BundlesOk(Retire(reservations, stale))
  {
    forall id | id in reservations ensures BundleOk(Retire(reservations, stale)[id]) {
      RetiredBound(reservations[id], stale, Key(0, 0, 0));
    }
  }

  // ------------------------------------------------------------------ the counter invariant

  /** Every counter is what its registration started with plus the reservations bound to it. */
  ghost predicate Counted(entries: map<Key, Provider>, base: map<Key, nat>, reservations: Reservations) {
    && base.Keys == entries.Keys
    && (forall k | k in entries :: entries[k].inFlight == base[k] + |Live(reservations, k)|)
    && (forall k | k !in entries :: Live(reservations, k) == {})
  }

  /** No ceiling is passed, except by what a registration itself claimed when it was made. */
  predicate Capped(entries: map<Key, Provider>, base: map<Key, nat>, reservations: Reservations, policy: Policy) {
    && (policy.maxInFlight > 0 ==> |reservations| <= policy.maxInFlight)
    && (forall node | node in policy.nodeLimits :: policy.nodeLimits[node] > 0 ==> |OnNode(reservations, node)| <= policy.nodeLimits[node])
    && (forall k | k in entries && k in base :: Ceiling(entries[k], policy) > 0 ==>
          entries[k].inFlight <= Max(Ceiling(entries[k], policy), base[k]))
  }

  ghost predicate Sound(entries: map<Key, Provider>, base: map<Key, nat>, reservations: Reservations, policy: Policy) {
    Counted(entries, base, reservations) && Capped(entries, base, reservations, policy) && BundlesOk(reservations)
  }

  /** What survives a replacement: every registration that is not stale, with its counter and limit. */
  predicate Replaces(entries: map<Key, Provider>, base: map<Key, nat>, stale: Key -> bool,
                     entries': map<Key, Provider>, base': map<Key, nat>)
  {
    && base.Keys == entries.Keys && base'.Keys == entries'.Keys
    && (forall k | k in entries && !stale(k) ::
          && k in entries' && base'[k] == base[k] && entries'[k].inFlight == entries[k].inFlight
          && entries'[k].maxConcurrent == entries[k].maxConcurrent)
    && (forall k | k in entries' && (k !in entries || stale(k)) :: entries'[k].inFlight == base'[k])
  }

  lemma ReplaceCounted(entries: map<Key, Provider>, base: map<Key, nat>, reservations: Reservations,
                       stale: Key -> bool, entries': map<Key, Provider>, base': map<Key, nat>)
    requires Counted(entries, base, reservations) && Replaces(entries, base, stale, entries', base')
    ensures Counted(entries', base', Retire(reservations, stale))
  {
    forall k | k in entries' ensures entries'[k].inFlight == base'[k] + |Live(Retire(reservations, stale), k)| {
      RetireLive(reservations, stale, k);
    }
    forall k | k !in entries' ensures Live(Retire(reservations, stale), k) == {} {
      RetireLive(reservations, stale, k);
    }
  }

  lemma ReplaceCapped(entries: map<Key, Provider>, base: map<Key, nat>, reservations: Reservations, policy: Policy,
                      stale: Key -> bool, entries': map<Key, Provider>, base': map<Key, nat>)
    requires Capped(entries, base, reservations, policy) && Replaces(entries, base, stale, entries', base')
    ensures Capped(entries', base', Retire(reservations, stale), policy)
  {
    assert Retire(reservations, stale).Keys == reservations.Keys;
    assert |Retire(reservations, stale).Keys| == |reservations.Keys|;
    forall node | node in policy.nodeLimits
      ensures OnNode(Retire(reservations, stale), node) == OnNode(reservations, node)
    {
      RetireNodes(reservations, stale, node);
    }
  }

  lemma ReplaceSound(entries: map<Key, Provider>, base: map<Key, nat>, reservations: Reservations, policy: Policy,
                     stale: Key -> bool, entries': map<Key, Provider>, base': map<Key, nat>)
    requires Sound(entries, base, reservations, policy) && Replaces(entries, base, stale, entries', base')
    ensures Sound(entries', base', Retire(reservations, stale), policy)
  {
    RetireBundles(reservations, stale);
    ReplaceCounted(entries, base, reservations, stale, entries', base');
    ReplaceCapped(entries, base, reservations, policy, stale, entries', base');
  }

  // ------------------------------------------------------------------ reserving and releasing

  ghost predicate Reserves(keys: set<Key>, members: seq<Member>) {
    && BundleOk(members) && (forall i | 0 <= i < |members| :: members[i].current)
    && (forall k :: Bound(members, k) <==> k in keys)
  }

  function Increment(entries: map<Key, Provider>, keys: set<Key>): map<Key, Provider> {
    map k | k in entries :: if k in keys then entries[k].(inFlight := entries[k].inFlight + 1) else entries[k]
  }

  lemma InsertLive(reservations: Reservations, id: Id, members: seq<Member>, k: Key)
    requires id !in reservations
    ensures Live(reservations[id := members], k) == Live(reservations, k) + (if Bound(members, k) then {id} else {})
    ensures |Live(reservations[id := members], k)| == |Live(reservations, k)| + if Bound(members, k) then 1 else 0
  {
    assert id !in Live(reservations, k);
    assert Live(reservations[id := members], k) == Live(reservations, k) + (if Bound(members, k) then {id} else {});
  }

  lemma InsertNodes(reservations: Reservations, id: Id, members: seq<Member>, node: int)
    requires id !in reservations && members != []
    ensures |OnNode(reservations[id := members], node)| == |OnNode(reservations, node)| + if members[0].key.node == node then 1 else 0
  {
    assert OnNode(reservations[id := members], node) == OnNode(reservations, node) + (if members[0].key.node == node then {id} else {});
  }

  /** There is room for one more bundle, and for one more user of a provider. */
  predicate BundleFree(reservations: Reservations, policy: Policy, node: int) {
    && (policy.maxInFlight > 0 ==> |reservations| < policy.maxInFlight)
    && (NodeLimit(policy, node) > 0 ==> |OnNode(reservations, node)| < NodeLimit(policy, node))
  }

  predicate ProviderFree(p: Provider, policy: Policy) {
    Ceiling(p, policy) == 0 || p.inFlight < Ceiling(p, policy)
  }

  lemma ReserveCounted(entries: map<Key, Provider>, base: map<Key, nat>, reservations: Reservations,
                       id: Id, members: seq<Member>, keys: set<Key>)
    requires Counted(entries, base, reservations) && id !in reservations && keys <= entries.Keys && Reserves(keys, members)
    ensures Counted(Increment(entries, keys), base, reservations[id := members])
  {
    forall k ensures |Live(reservations[id := members], k)| == |Live(reservations, k)| + if k in keys then 1 else 0 {
      InsertLive(reservations, id, members, k);
    }
    forall k | k !in entries ensures Live(reservations[id := members], k) == {} {
      InsertLive(reservations, id, members, k);
    }
  }

  lemma ReserveCapped(entries: map<Key, Provider>, base: map<Key, nat>, reservations: Reservations, policy: Policy,
                      id: Id, members: seq<Member>, keys: set<Key>)
    requires Capped(entries, base, reservations, policy) && id !in reservations && Reserves(keys, members)
    requires BundleFree(reservations, policy, members[0].key.node)
    requires forall k | k in keys && k in entries :: ProviderFree(entries[k], policy)
    ensures Capped(Increment(entries, keys), base, reservations[id := members], policy)
  {
    assert reservations[id := members].Keys == reservations.Keys + {id};
    assert |reservations[id := members].Keys| == |reservations.Keys| + 1;
    forall node | node in policy.nodeLimits && policy.nodeLimits[node] > 0
      ensures |OnNode(reservations[id := members], node)| <= policy.nodeLimits[node]
    {
      InsertNodes(reservations, id, members, node);
    }
  }

  /** A whole bundle admitted at once keeps every counter exact and every ceiling. */
  lemma ReserveSound(entries: map<Key, Provider>, base: map<Key, nat>, reservations: Reservations, policy: Policy,
                     id: Id, members: seq<Member>, keys: set<Key>)
    requires Sound(entries, base, reservations, policy) && id !in reservations && keys <= entries.Keys && Reserves(keys, members)
    requires BundleFree(reservations, policy, members[0].key.node)
    requires forall k | k in keys :: ProviderFree(entries[k], policy)
    ensures Sound(Increment(entries, keys), base, reservations[id := members], policy)
  {
    ReserveCounted(entries, base, reservations, id, members, keys);
    ReserveCapped(entries, base, reservations, policy, id, members, keys);
  }

  function Decrement(entries: map<Key, Provider>, members: seq<Member>): map<Key, Provider> {
    map k | k in entries ::
      if Bound(members, k) then entries[k].(inFlight := SaturatingSub(entries[k].inFlight, 1)) else entries[k]
  }

  lemma RemoveLive(reservations: Reservations, id: Id, k: Key)
    requires id in reservations
    ensures |Live(reservations - {id}, k)| + (if Bound(reservations[id], k) then 1 else 0) == |Live(reservations, k)|
    ensures Live(reservations - {id}, k) <= Live(reservations, k)
  {
    assert Live(reservations, k) == Live(reservations - {id}, k) + (if Bound(reservations[id], k) then {id} else {});
  }

  lemma RemoveNodes(reservations: Reservations, id: Id, node: int)
    requires id in reservations
    ensures |OnNode(reservations - {id}, node)| <= |OnNode(reservations, node)|
  {
    assert OnNode(reservations, node) == OnNode(reservations - {id}, node) + (if id in OnNode(reservations, node) then {id} else {});
  }

  lemma ReleaseCounted(entries: map<Key, Provider>, base: map<Key, nat>, reservations: Reservations, id: Id)
    requires Counted(entries, base, reservations) && id in reservations
    ensures Counted(Decrement(entries, reservations[id]), base, reservations - {id})
    ensures forall k | Bound(reservations[id], k) :: k in entries && entries[k].inFlight >= 1
  {
    forall k | Bound(reservations[id], k) ensures k in entries && entries[k].inFlight >= 1 {
      assert id in Live(reservations, k);
      RemoveLive(reservations, id, k);
    }
    forall k | k in entries
      ensures Decrement(entries, reservations[id])[k].inFlight == base[k] + |Live(reservations - {id}, k)|
    {
      RemoveLive(reservations, id, k);
    }
    forall k | k !in entries ensures Live(reservations - {id}, k) == {} {
      RemoveLive(reservations, id, k);
    }
  }

  lemma ReleaseCapped(entries: map<Key, Provider>, base: map<Key, nat>, reservations: Reservations, policy: Policy, id: Id)
    requires Capped(entries, base, reservations, policy) && id in reservations
    ensures Capped(Decrement(entries, reservations[id]), base, reservations - {id}, policy)
  {
    assert (reservations - {id}).Keys == reservations.Keys - {id};
    assert |(reservations - {id}).Keys| <= |reservations.Keys|;
    forall node | node in policy.nodeLimits ensures |OnNode(reservations - {id}, node)| <= |OnNode(reservations, node)| {
      RemoveNodes(reservations, id, node);
    }
  }

  /** Releasing keeps every counter exact, and no decrement saturates. */
  lemma ReleaseSound(entries: map<Key, Provider>, base: map<Key, nat>, reservations: Reservations, policy: Policy, id: Id)
    requires Sound(entries, base, reservations, policy) && id in reservations
    ensures Sound(Decrement(entries, reservations[id]), base, reservations - {id}, policy)
    ensures forall k | Bound(reservations[id], k) :: k in entries && entries[k].inFlight >= 1
  {
    ReleaseCounted(entries, base, reservations, id);
    ReleaseCapped(entries, base, reservations, policy, id);
  }
}
