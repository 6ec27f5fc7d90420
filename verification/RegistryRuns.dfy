/** Whole histories of the registry: exact counters throughout, and harmless late releases. */
module RegistryRuns {
  import opened Prelude
  import opened Capacity

  /** `issued` holds every reservation identifier ever generated. */
  datatype State = State(entries: map<Key, Provider>, base: map<Key, nat>, reservations: Reservations, issued: set<Id>)

  /** The three kinds of change that the registry's methods make. */
  datatype Step =
    | ReplaceStep(stale: Key -> bool, entries: map<Key, Provider>, base: map<Key, nat>)
    | ReserveStep(id: Id, members: seq<Member>, keys: set<Key>)
    | ReleaseStep(id: Id)

  ghost predicate Allowed(s: State, step: Step, policy: Policy) {
    match step
    case ReplaceStep(stale, entries, base) => Replaces(s.entries, s.base, stale, entries, base)
    case ReserveStep(id, members, keys) =>
      && id !in s.issued && keys <= s.entries.Keys && Reserves(keys, members)
      && BundleFree(s.reservations, policy, members[0].key.node)
      && forall k | k in keys :: ProviderFree(s.entries[k], policy)
    case ReleaseStep(_) => true
  }

  function After(s: State, step: Step): State {
    match step
    case ReplaceStep(stale, entries, base) => State(entries, base, Retire(s.reservations, stale), s.issued)
    case ReserveStep(id, members, keys) =>
      State(Increment(s.entries, keys), s.base, s.reservations[id := members], s.issued + {id})
    case ReleaseStep(id) =>
      if id !in s.reservations then s
      else State(Decrement(s.entries, s.reservations[id]), s.base, s.reservations - {id}, s.issued)
  }

  function Run(s: State, steps: seq<Step>): State {
    if steps == [] then s else After(Run(s, steps[..|steps| - 1]), steps[|steps| - 1])
  }

  ghost predicate AllowedRun(s: State, steps: seq<Step>, policy: Policy) {
    steps != [] ==>
      && AllowedRun(s, steps[..|steps| - 1], policy)
      && Allowed(Run(s, steps[..|steps| - 1]), steps[|steps| - 1], policy)
  }

  ghost predicate Good(s: State, policy: Policy) {
    Sound(s.entries, s.base, s.reservations, policy) && s.reservations.Keys <= s.issued
  }

  lemma StepGood(s: State, step: Step, policy: Policy)
    requires Good(s, policy) && Allowed(s, step, policy)
    ensures Good(After(s, step), policy)
  {
    match step
    case ReplaceStep(stale, entries, base) =>
      ReplaceSound(s.entries, s.base, s.reservations, policy, stale, entries, base);
      assert Retire(s.reservations, stale).Keys == s.reservations.Keys;
    case ReserveStep(id, members, keys) =>
      ReserveSound(s.entries, s.base, s.reservations, policy, id, members, keys);
    case ReleaseStep(id) =>
      if id in s.reservations {
        ReleaseSound(s.entries, s.base, s.reservations, policy, id);
      }
  }

  /** Counters, ceilings and bundles stay right through every history from a good state. */
  lemma {:induction false} RunGood(s: State, steps: seq<Step>, policy: Policy)
    requires Good(s, policy) && AllowedRun(s, steps, policy)
    ensures Good(Run(s, steps), policy)
  {
    if steps != [] {
      RunGood(s, steps[..|steps| - 1], policy);
      StepGood(Run(s, steps[..|steps| - 1]), steps[|steps| - 1], policy);
    }
  }

  /** An issued reservation that holds nothing of the current registration of `k`. */
  predicate Unbound(s: State, id: Id, k: Key) {
    id in s.issued && (id in s.reservations ==> !Bound(s.reservations[id], k))
  }

  lemma StepUnbound(s: State, step: Step, policy: Policy, id: Id, k: Key)
    requires Allowed(s, step, policy) && Unbound(s, id, k)
    ensures Unbound(After(s, step), id, k)
  {
    if step.ReplaceStep? && id in s.reservations {
      RetiredBound(s.reservations[id], step.stale, k);
    }
  }

  lemma {:induction false} RunUnbound(s: State, steps: seq<Step>, policy: Policy, id: Id, k: Key)
    requires AllowedRun(s, steps, policy) && Unbound(s, id, k)
    ensures Unbound(Run(s, steps), id, k)
  {
    if steps != [] {
      RunUnbound(s, steps[..|steps| - 1], policy, id, k);
      StepUnbound(Run(s, steps[..|steps| - 1]), steps[|steps| - 1], policy, id, k);
    }
  }

  /** Once a registration was replaced, removed or left out of a refresh, releasing a reservation made
      before never touches its successor, however late the release comes. */
  lemma LateReleaseIsHarmless(s: State, stale: Key -> bool, entries: map<Key, Provider>, base: map<Key, nat>,
                              steps: seq<Step>, policy: Policy, id: Id, k: Key)
    requires Good(s, policy) && id in s.reservations && stale(k) && Replaces(s.entries, s.base, stale, entries, base)
    requires AllowedRun(After(s, ReplaceStep(stale, entries, base)), steps, policy)
    ensures var late := Run(After(s, ReplaceStep(stale, entries, base)), steps);
            k in late.entries ==> k in After(late, ReleaseStep(id)).entries
                                  && After(late, ReleaseStep(id)).entries[k] == late.entries[k]
  {
    RetiredBound(s.reservations[id], stale, k);
    RunUnbound(After(s, ReplaceStep(stale, entries, base)), steps, policy, id, k);
  }
}
