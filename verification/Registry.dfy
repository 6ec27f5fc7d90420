/** The capability registry: providers come and go, bundles are reserved and released. */
module Registry {
  import opened Prelude
  import opened Capacity
  import opened RegistryRuns

  function Is(key: Key): Key -> bool { (k: Key) => k == key }
  function AtNode(node: int): Key -> bool { (k: Key) => k.node == node }
  function Omitted(node: int, retained: set<Key>): Key -> bool { (k: Key) => k.node == node && k !in retained }

  /** What is asked for.  `suits` and `rank` stand for constraint matching and the scoring order. */
  datatype Request = Request(capability: int, action: int, suits: Key -> bool, rank: Key -> int)

  /** A further stage, pinned to a node, whose exact resource must be the one selected. */
  datatype Dependency = Dependency(request: Request, node: Option<int>, exact: Key -> bool)

  predicate Accepts(key: Key, action: int) {
    key.action == ANY_ACTION || action == ANY_ACTION || key.action == action
  }

  predicate Fresh(key: Key, p: Provider, policy: Policy, now: nat) {
    key.node == LOCAL || SaturatingSub(now, p.heartbeat) <= policy.freshnessMs
  }

  predicate Candidate(entries: map<Key, Provider>, reservations: Reservations, policy: Policy, request: Request, now: nat, k: Key) {
    && k in entries && k.capability == request.capability && Accepts(k, request.action)
    && entries[k].healthy && BundleFree(reservations, policy, k.node)
    && Fresh(k, entries[k], policy, now) && ProviderFree(entries[k], policy) && request.suits(k)
  }

  /** Below both ceilings of the provider, zero meaning none. */
  predicate Room(p: Provider, policy: Policy) {
    (p.maxConcurrent == 0 || p.inFlight < p.maxConcurrent) && (policy.perProvider == 0 || p.inFlight < policy.perProvider)
  }

  /** Below the ceiling of the node and that of the whole registry, zero or absence meaning none. */
  predicate BundleRoom(reservations: Reservations, policy: Policy, node: int) {
    && (node in policy.nodeLimits && policy.nodeLimits[node] != 0 ==>
          |set id | id in reservations && |reservations[id]| >= 1 && reservations[id][0].key.node == node| < policy.nodeLimits[node])
    && (policy.maxInFlight != 0 ==> |reservations| < policy.maxInFlight)
  }

  /** What a candidate is: registered for the capability and action, healthy, recently heard of unless local, with
      room of its own, on its node and in the registry, and suitable. */
  lemma CandidateIs(entries: map<Key, Provider>, reservations: Reservations, policy: Policy, request: Request, now: nat, k: Key)
    ensures Candidate(entries, reservations, policy, request, now, k) <==>
            && k in entries && k.capability == request.capability
            && (k.action == 0 || request.action == 0 || k.action == request.action)
            && entries[k].healthy && (k.node == 0 || now <= entries[k].heartbeat + policy.freshnessMs)
            && Room(entries[k], policy) && BundleRoom(reservations, policy, k.node) && request.suits(k)
  {
    assert OnNode(reservations, k.node) == set id | id in reservations && |reservations[id]| >= 1 && reservations[id][0].key.node == k.node;
  }

  /** A candidate that no other candidate ranks before. */
  predicate Best(entries: map<Key, Provider>, reservations: Reservations, policy: Policy, request: Request, now: nat, k: Key) {
    && Candidate(entries, reservations, policy, request, now, k)
    && forall other | other in entries && Candidate(entries, reservations, policy, request, now, other) :: request.rank(k) <= request.rank(other)
  }

  /** A stage is served on the root's node by its own best candidate with the exact resource. */
  predicate Serves(entries: map<Key, Provider>, reservations: Reservations, policy: Policy, now: nat, root: Key, stage: Dependency, k: Key) {
    && stage.node == Some(root.node) && k.node == root.node && stage.exact(k)
    && Best(entries, reservations, policy, stage.request, now, k)
  }

  predicate Served(entries: map<Key, Provider>, reservations: Reservations, policy: Policy, now: nat, root: Key, stage: Dependency, keys: set<Key>) {
    exists k | k in keys :: Serves(entries, reservations, policy, now, root, stage, k)
  }

  predicate NoCandidate(entries: map<Key, Provider>, reservations: Reservations, policy: Policy, request: Request, now: nat) {
    forall k | k in entries :: !Candidate(entries, reservations, policy, request, now, k)
  }

  /** A stage is not pinned to the root's node, has no candidate, or has a best one elsewhere or with another resource. */
  predicate StageFails(entries: map<Key, Provider>, reservations: Reservations, policy: Policy, now: nat, root: Key, stage: Dependency) {
    || stage.node != Some(root.node)
    || NoCandidate(entries, reservations, policy, stage.request, now)
    || exists k | k in entries :: Best(entries, reservations, policy, stage.request, now, k) && (k.node != root.node || !stage.exact(k))
  }

  /** Why no bundle is selected: too many stages, no root, or a best root with a stage that fails. */
  predicate Unselectable(entries: map<Key, Provider>, reservations: Reservations, policy: Policy, request: Request,
                         stages: seq<Dependency>, now: nat) {
    || |stages| > 16 || NoCandidate(entries, reservations, policy, request, now)
    || exists root, i | root in entries && 0 <= i < |stages| ::
         Best(entries, reservations, policy, request, now, root) && StageFails(entries, reservations, policy, now, root, stages[i])
  }

  lemma ServedKept(entries: map<Key, Provider>, reservations: Reservations, policy: Policy, now: nat, root: Key,
                   stages: seq<Dependency>, n: nat, keys: set<Key>, k: Key)
    requires n < |stages| && Serves(entries, reservations, policy, now, root, stages[n], k)
    requires forall i | 0 <= i < n :: Served(entries, reservations, policy, now, root, stages[i], keys)
    ensures forall i | 0 <= i < n + 1 :: Served(entries, reservations, policy, now, root, stages[i], keys + {k})
  {
    forall i | 0 <= i < n + 1 ensures Served(entries, reservations, policy, now, root, stages[i], keys + {k}) {
      if i < n {
        assert Served(entries, reservations, policy, now, root, stages[i], keys);
        var other :| other in keys && Serves(entries, reservations, policy, now, root, stages[i], other);
        assert other in keys + {k};
      } else {
        assert k in keys + {k};
      }
    }
  }

  lemma ReservesExtend(keys: set<Key>, members: seq<Member>, k: Key)
    requires Reserves(keys, members) && k !in keys && k.node == members[0].key.node
    ensures Reserves(keys + {k}, members + [Member(k, true)])
  {
    var longer := members + [Member(k, true)];
    forall i | 0 <= i < |members| ensures members[i].key != k {
      assert Bound(members, members[i].key);
    }
    forall x ensures Bound(longer, x) <==> x in keys + {k} {
      if x in keys {
        var i :| 0 <= i < |members| && members[i] == Member(x, true);
        assert longer[i] == Member(x, true);
      } else if x == k {
        assert longer[|members|] == Member(x, true);
      } else {
        assert !Bound(members, x);
      }
    }
  }

  lemma BoundAppend(members: seq<Member>, i: nat, k: Key)
    requires i < |members|
    ensures Bound(members[..i + 1], k) <==> Bound(members[..i], k) || members[i] == Member(k, true)
  {
    if Bound(members[..i], k) {
      var j :| 0 <= j < i && members[..i][j] == Member(k, true);
      assert members[..i + 1][j] == Member(k, true);
    } else if members[i] == Member(k, true) {
      assert members[..i + 1][i] == Member(k, true);
    } else {
      assert forall j | 0 <= j < i :: members[..i][j] == members[..i + 1][j];
    }
  }

  /** One more member of a bundle released. */
  lemma DecrementStep(entries: map<Key, Provider>, members: seq<Member>, i: nat)
    requires BundleOk(members) && i < |members|
    ensures var done := Decrement(entries, members[..i]);
            var m := members[i];
            Decrement(entries, members[..i + 1])
            == if m.current && m.key in done
               then done[m.key := done[m.key].(inFlight := SaturatingSub(done[m.key].inFlight, 1))] else done
  {
    forall k ensures Bound(members[..i + 1], k) <==> Bound(members[..i], k) || members[i] == Member(k, true) {
      BoundAppend(members, i, k);
    }
    assert !Bound(members[..i], members[i].key);
  }

  // ------------------------------------------------------------------ a node's new snapshot

  function Named(node: int, replacements: seq<(Key, Provider)>): set<Key> {
    set i | 0 <= i < |replacements| && replacements[i].0.node == node :: replacements[i].0
  }

  /** The providers after the listed replacements of one node, each keeping its old counter and limit. */
  function Refreshed(previous: map<Key, Provider>, node: int, replacements: seq<(Key, Provider)>): map<Key, Provider> {
    if replacements == [] then map k | k in previous && k.node != node :: previous[k]
    else
      var rest := Refreshed(previous, node, replacements[..|replacements| - 1]);
      var (key, provider) := replacements[|replacements| - 1];
      if key.node != node then rest
      else if key in previous
      then rest[key := provider.(inFlight := previous[key].inFlight, maxConcurrent := previous[key].maxConcurrent, standing := previous[key].standing)]
      else rest[key := provider]
  }

  ghost function RefreshedBase(previous: map<Key, Provider>, base: map<Key, nat>, node: int, replacements: seq<(Key, Provider)>): map<Key, nat> {
    map k | k in Refreshed(previous, node, replacements) :: if k in base then base[k] else Refreshed(previous, node, replacements)[k].inFlight
  }

  /** Other nodes are untouched; this node has exactly the named providers, the old ones with their counters. */
  lemma {:induction false} RefreshedContents(previous: map<Key, Provider>, node: int, replacements: seq<(Key, Provider)>, k: Key)
    ensures k in Refreshed(previous, node, replacements) <==>
            if k.node == node then k in Named(node, replacements) else k in previous
    ensures k in Refreshed(previous, node, replacements) && k.node != node ==> Refreshed(previous, node, replacements)[k] == previous[k]
    ensures k in Refreshed(previous, node, replacements) && k in previous ==>
              && Refreshed(previous, node, replacements)[k].inFlight == previous[k].inFlight
              && Refreshed(previous, node, replacements)[k].maxConcurrent == previous[k].maxConcurrent
  {
    if replacements != [] {
      RefreshedContents(previous, node, replacements[..|replacements| - 1], k);
      NamedAppend(node, replacements, k);
    }
  }

  /** Each named provider holds what the last replacement listed for its key reports; a key that was registered
      before keeps what the scheduler owns, and a new key holds that replacement exactly. */
  lemma {:induction false} RefreshHolds(previous: map<Key, Provider>, node: int, replacements: seq<(Key, Provider)>, i: nat)
    requires i < |replacements| && replacements[i].0.node == node
    requires forall j | i < j < |replacements| :: replacements[j].0 != replacements[i].0
    ensures var (k, p) := replacements[i];
            && k in Refreshed(previous, node, replacements)
            && var now := Refreshed(previous, node, replacements)[k];
               if k in previous
               then && now.healthy == p.healthy && now.heartbeat == p.heartbeat && now.profile == p.profile
                    && now.inFlight == previous[k].inFlight && now.maxConcurrent == previous[k].maxConcurrent
                    && now.standing == previous[k].standing
               else now == p
  {
    if i < |replacements| - 1 {
      RefreshHolds(previous, node, replacements[..|replacements| - 1], i);
    }
  }

  lemma NamedAppend(node: int, replacements: seq<(Key, Provider)>, k: Key)
    requires replacements != []
    ensures k in Named(node, replacements) <==>
            || k in Named(node, replacements[..|replacements| - 1])
            || (k.node == node && replacements[|replacements| - 1].0 == k)
  {
    var n := |replacements| - 1;
    if k in Named(node, replacements[..n]) {
      var i :| 0 <= i < n && replacements[..n][i].0.node == node && replacements[..n][i].0 == k;
      assert replacements[i].0 == k;
    }
    if k in Named(node, replacements) && replacements[n].0 != k {
      var i :| 0 <= i < |replacements| && replacements[i].0.node == node && replacements[i].0 == k;
      assert replacements[..n][i].0 == k;
    }
  }

  lemma RefreshReplaces(previous: map<Key, Provider>, base: map<Key, nat>, node: int, replacements: seq<(Key, Provider)>)
    requires base.Keys == previous.Keys
    ensures Replaces(previous, base, Omitted(node, Named(node, replacements)),
                     Refreshed(previous, node, replacements), RefreshedBase(previous, base, node, replacements))
  {
    forall k
      ensures k in Refreshed(previous, node, replacements) <==> if k.node == node then k in Named(node, replacements) else k in previous
      ensures k in Refreshed(previous, node, replacements) && k in previous ==>
                && Refreshed(previous, node, replacements)[k].inFlight == previous[k].inFlight
                && Refreshed(previous, node, replacements)[k].maxConcurrent == previous[k].maxConcurrent
    {
      RefreshedContents(previous, node, replacements, k);
    }
  }

  /** Unregistering a node is a refresh with nothing. */
  lemma NodeReplaces(previous: map<Key, Provider>, base: map<Key, nat>, node: int)
    requires base.Keys == previous.Keys
    ensures Replaces(previous, base, AtNode(node), Refreshed(previous, node, []), RefreshedBase(previous, base, node, []))
  {
  }

  /** One registration replaces whatever stood under its key. */
  lemma KeyReplaces(previous: map<Key, Provider>, base: map<Key, nat>, key: Key, provider: Provider)
    requires base.Keys == previous.Keys
    ensures Replaces(previous, base, Is(key), previous[key := provider], base[key := provider.inFlight])
  {
  }

  class CapabilityRegistry {
    const policy: Policy
    var entries: map<Key, Provider>
    var reservations: Reservations
    /** What each registration counted when it was made. */
    ghost var base: map<Key, nat>
    /** Every reservation identifier ever generated. */
    ghost var issued: set<Id>

    ghost function View(): State
      reads this
    {
      State(entries, base, reservations, issued)
    }

    ghost predicate Valid()
      reads this
    {
      Good(View(), policy)
    }

    constructor (policy: Policy)
      ensures Valid() && this.policy == policy && entries == map[] && reservations == map[]
    {
      this.policy := policy;
      entries, reservations, base, issued := map[], map[], map[], {};
    }

    // ---------------------------------------------------------------- registrations

    /** A replacement is a new registration: nothing reserved before stays bound to it. */
    method Register(key: Key, provider: Provider)
      requires Valid()
      modifies this
      ensures Valid() && Allowed(old(View()), ReplaceStep(Is(key), entries, base), policy)
      ensures View() == After(old(View()), ReplaceStep(Is(key), entries, base))
      ensures entries == old(entries)[key := provider] && base == old(base)[key := provider.inFlight]
      ensures reservations == Retire(old(reservations), Is(key))
    {
      var next := entries[key := provider];
      ghost var nextBase := base[key := provider.inFlight];
      KeyReplaces(entries, base, key, provider);
      StepGood(View(), ReplaceStep(Is(key), next, nextBase), policy);
      reservations := Retire(reservations, Is(key));
      entries, base := next, nextBase;
    }

    method UnregisterNode(node: int)
      requires Valid()
      modifies this
      ensures Valid() && Allowed(old(View()), ReplaceStep(AtNode(node), entries, base), policy)
      ensures View() == After(old(View()), ReplaceStep(AtNode(node), entries, base))
      ensures entries == map k | k in old(entries) && k.node != node :: old(entries)[k]
      ensures reservations == Retire(old(reservations), AtNode(node))
    {
      var kept := Refreshed(entries, node, []);
      ghost var keptBase := RefreshedBase(entries, base, node, []);
      NodeReplaces(entries, base, node);
      StepGood(View(), ReplaceStep(AtNode(node), kept, keptBase), policy);
      reservations := Retire(reservations, AtNode(node));
      entries, base := kept, keptBase;
    }

    /** One lock across the whole replacement: missing capabilities are unbound, kept ones carry over. */
    method RefreshNode(node: int, replacements: seq<(Key, Provider)>)
      requires Valid()
      modifies this
      ensures Valid()
      ensures Allowed(old(View()), ReplaceStep(Omitted(node, Named(node, replacements)), entries, base), policy)
      ensures View() == After(old(View()), ReplaceStep(Omitted(node, Named(node, replacements)), entries, base))
      ensures entries == Refreshed(old(entries), node, replacements)
      ensures reservations == Retire(old(reservations), Omitted(node, Named(node, replacements)))
    {
      RefreshReplaces(entries, base, node, replacements);
      StepGood(View(), ReplaceStep(Omitted(node, Named(node, replacements)), Refreshed(entries, node, replacements),
                                   RefreshedBase(entries, base, node, replacements)), policy);
      base := RefreshedBase(entries, base, node, replacements);
      reservations := Retire(reservations, Omitted(node, Named(node, replacements)));
      Replace(node, replacements);
    }

    method Replace(node: int, replacements: seq<(Key, Provider)>)
      modifies this`entries
      ensures entries == Refreshed(old(entries), node, replacements)
    {
      var previous := entries;
      entries := map k | k in entries && k.node != node :: entries[k];
      for i := 0 to |replacements|
        invariant entries == Refreshed(previous, node, replacements[..i])
      {
        assert replacements[..i + 1][..i] == replacements[..i];
        var (key, provider) := replacements[i];
        if key.node == node {
          if key in previous {
            provider := provider.(inFlight := previous[key].inFlight, maxConcurrent := previous[key].maxConcurrent, standing := previous[key].standing);
          }
          entries := entries[key := provider];
        }
      }
      assert replacements[..|replacements|] == replacements;
    }

    // ---------------------------------------------------------------- selection

    /** The best candidate in the ranking order, none only when there is no candidate. */
    method Select(request: Request, now: nat) returns (best: Option<Key>)
      ensures best.None? <==> forall k | k in entries :: !Candidate(entries, reservations, policy, request, now, k)
      ensures best.Some? ==> Best(entries, reservations, policy, request, now, best.value)
    {
      best := None;
      var rest := entries.Keys;
      while rest != {}
        invariant rest <= entries.Keys
        invariant best.None? ==> forall k | k in entries.Keys - rest :: !Candidate(entries, reservations, policy, request, now, k)
        invariant best.Some? ==> Candidate(entries, reservations, policy, request, now, best.value)
        invariant best.Some? ==> forall k | k in entries.Keys - rest && Candidate(entries, reservations, policy, request, now, k) ::
                                   request.rank(best.value) <= request.rank(k)
        decreases rest
      {
        var k :| k in rest;
        rest := rest - {k};
        if Candidate(entries, reservations, policy, request, now, k)
           && (best.None? || request.rank(k) < request.rank(best.value)) {
          best := Some(k);
        }
      }
    }

    /** The root and every distinct stage provider, all on the root's node, or nothing. */
    method SelectBundle(request: Request, dependencies: seq<Dependency>, now: nat) returns (root: Option<Key>, keys: set<Key>)
      ensures root.Some? ==> Best(entries, reservations, policy, request, now, root.value) && root.value in keys
      ensures root.Some? ==> forall i | 0 <= i < |dependencies| ::
                               Served(entries, reservations, policy, now, root.value, dependencies[i], keys)
      ensures root.Some? ==> forall k | k in keys :: k in entries && k.node == root.value.node && ProviderFree(entries[k], policy)
      ensures root.Some? ==> |keys| <= |dependencies| + 1 && |dependencies| <= MAX_STEPS
      ensures root.None? ==> Unselectable(entries, reservations, policy, request, dependencies, now)
    {
      keys := {};
      root := Select(request, now);
      if |dependencies| > MAX_STEPS || root.None? {
        return None, {};
      }
      keys := {root.value};
      for i := 0 to |dependencies|
        invariant root.Some? && root.value in keys && Best(entries, reservations, policy, request, now, root.value)
        invariant forall n | 0 <= n < i :: Served(entries, reservations, policy, now, root.value, dependencies[n], keys)
        invariant forall k | k in keys :: k in entries && k.node == root.value.node && ProviderFree(entries[k], policy)
        invariant |keys| <= i + 1
      {
        if dependencies[i].node != Some(root.value.node) {
          assert StageFails(entries, reservations, policy, now, root.value, dependencies[i]);
          return None, {};
        }
        var stage := Select(dependencies[i].request, now);
        if stage.None? || stage.value.node != root.value.node || !dependencies[i].exact(stage.value) {
          assert StageFails(entries, reservations, policy, now, root.value, dependencies[i]);
          return None, {};
        }
        ServedKept(entries, reservations, policy, now, root.value, dependencies, i, keys, stage.value);
        keys := keys + {stage.value};
      }
    }

    // ---------------------------------------------------------------- reservations

    /** The members of a bundle, its root first. */
    method Assemble(root: Key, keys: set<Key>) returns (members: seq<Member>)
      requires root in keys && forall k | k in keys :: k.node == root.node
      ensures Reserves(keys, members) && members[0].key == root
    {
      members := [Member(root, true)];
      assert forall k :: Bound(members, k) <==> k in {root} by {
        assert members[0] == Member(root, true);
      }
      var rest := keys - {root};
      while rest != {}
        invariant rest <= keys - {root} && Reserves(keys - rest, members) && members[0].key == root
        decreases rest
      {
        var k :| k in rest;
        ReservesExtend(keys - rest, members, k);
        assert keys - rest + {k} == keys - (rest - {k});
        members := members + [Member(k, true)];
        rest := rest - {k};
      }
      assert keys - {} == keys;
    }

    method CountUp(keys: set<Key>)
      requires keys <= entries.Keys
      modifies this`entries
      ensures entries == Increment(old(entries), keys)
    {
      var rest := keys;
      while rest != {}
        invariant rest <= keys && entries == Increment(old(entries), keys - rest)
        decreases rest
      {
        var k :| k in rest;
        entries := entries[k := entries[k].(inFlight := entries[k].inFlight + 1)];
        rest := rest - {k};
      }
      assert keys - {} == keys;
    }

    /** Reserves a whole bundle under one fresh identifier, or changes nothing at all. */
    method ReserveBundle(request: Request, dependencies: seq<Dependency>, now: nat, id: Id)
      returns (root: Option<Key>, ghost keys: set<Key>)
      requires Valid() && id !in issued
      modifies this
      ensures Valid()
      ensures root.None? ==> View() == old(View())
      ensures root.None? ==> || Unselectable(old(entries), old(reservations), policy, request, dependencies, now)
                             || exists k | k in old(entries) :: old(entries)[k].inFlight + 1 >= U32_LIMIT
      ensures root.Some? ==>
                && id in reservations && Allowed(old(View()), ReserveStep(id, reservations[id], keys), policy)
                && View() == After(old(View()), ReserveStep(id, reservations[id], keys))
      ensures root.Some? ==>
                && Best(old(entries), old(reservations), policy, request, now, root.value)
                && (forall i | 0 <= i < |dependencies| ::
                      Served(old(entries), old(reservations), policy, now, root.value, dependencies[i], keys))
                && |keys| <= |dependencies| + 1 && keys <= old(entries).Keys && entries == Increment(old(entries), keys)
                && id in reservations && reservations == old(reservations)[id := reservations[id]]
                && Reserves(keys, reservations[id]) && reservations[id][0].key == root.value
    {
      var chosen;
      root, chosen := SelectBundle(request, dependencies, now);
      keys := chosen;
      if root.None? || !(forall k | k in chosen :: entries[k].inFlight + 1 < U32_LIMIT) {
        root := None;
        return;
      }
      var members := Assemble(root.value, chosen);
      HoldBundle(id, members, chosen);
    }

    /** Takes one unit of every member and records the bundle under its identifier. */
    method HoldBundle(id: Id, members: seq<Member>, keys: set<Key>)
      requires Valid() && Allowed(View(), ReserveStep(id, members, keys), policy)
      modifies this
      ensures Valid()
      ensures View() == After(old(View()), ReserveStep(id, members, keys))
    {
      ReserveSound(entries, base, reservations, policy, id, members, keys);
      CountUp(keys);
      reservations := reservations[id := members];
      issued := issued + {id};
    }

    /** Dropping a reservation gives back one unit to each registration it is still bound to, and to
        no other; no counter was at zero. */
    method Release(id: Id)
      requires Valid()
      modifies this
      ensures Valid() && View() == After(old(View()), ReleaseStep(id))
      ensures reservations == old(reservations) - {id}
      ensures entries == if id in old(reservations) then Decrement(old(entries), old(reservations)[id]) else old(entries)
      ensures id in old(reservations) ==>
                forall k | Bound(old(reservations)[id], k) :: k in old(entries) && old(entries)[k].inFlight >= 1
    {
      if id !in reservations {
        return;
      }
      var members := reservations[id];
      ReleaseSound(entries, base, reservations, policy, id);
      reservations := reservations - {id};
      ReleaseMembers(members);
    }

    method ReleaseMembers(members: seq<Member>)
      requires BundleOk(members)
      modifies this`entries
      ensures entries == Decrement(old(entries), members)
    {
      for i := 0 to |members|
        invariant entries == Decrement(old(entries), members[..i])
      {
        DecrementStep(old(entries), members, i);
        var m := members[i];
        if m.current && m.key in entries {
          entries := entries[m.key := entries[m.key].(inFlight := SaturatingSub(entries[m.key].inFlight, 1))];
        }
      }
      assert members[..|members|] == members;
    }

    /** How many bundles each node carries, each counted once for its root. */
    method ReservationCounts() returns (counts: map<int, nat>)
      requires Valid()
      ensures forall node :: (if node in counts then counts[node] else 0) == |OnNode(reservations, node)|
    {
      counts := map[];
      var rest := reservations.Keys;
      ghost var seen: Reservations := map[];
      while rest != {}
        invariant rest <= reservations.Keys && seen == map id | id in reservations && id !in rest :: reservations[id]
        invariant forall node :: (if node in counts then counts[node] else 0) == |OnNode(seen, node)|
        decreases rest
      {
        var id :| id in rest;
        assert BundleOk(reservations[id]);
        var node := reservations[id][0].key.node;
        forall n ensures |OnNode(seen[id := reservations[id]], n)| == |OnNode(seen, n)| + if node == n then 1 else 0 {
          InsertNodes(seen, id, reservations[id], n);
        }
        counts := counts[node := (if node in counts then counts[node] else 0) + 1];
        seen := seen[id := reservations[id]];
        rest := rest - {id};
      }
      assert seen == reservations;
    }
  }

  /** For a provider registered with a zero counter, the counter is the number of live bundles bound to it. */
  lemma CounterIsExact(entries: map<Key, Provider>, base: map<Key, nat>, reservations: Reservations, policy: Policy, k: Key)
    requires Sound(entries, base, reservations, policy) && k in entries && base[k] == 0
    ensures entries[k].inFlight == |Live(reservations, k)|
    ensures Within(entries[k].inFlight, entries[k].maxConcurrent) && Within(entries[k].inFlight, policy.perProvider)
  {
    assert Within(entries[k].inFlight, Ceiling(entries[k], policy));
  }
}
