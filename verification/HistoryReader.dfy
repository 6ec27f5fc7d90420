/**
 The indexed history read: one pass over each table, each definition loaded once, sets for the
 uniqueness checks and a sort for the gap checks.  It accepts exactly the ledgers that satisfy the
 history check, and what it yields agrees with reading row by row.
 */
module HistoryReader {
  import opened Prelude
  import opened Records
  import opened Ledger
  import opened Ordinals

  // ------------------------------------------------------------------ generations

  ghost predicate CollideIn(policies: map<Id, Policy>, ids: set<Id>, definition: Id) {
    exists a, b | a in ids && b in ids && a != b && a in policies && b in policies ::
      policies[a].creation.definition == definition && SameGeneration(policies[a], policies[b])
  }

  ghost predicate GenerationIn(policies: map<Id, Policy>, ids: set<Id>, definition: Id, g: nat) {
    exists a | a in ids && a in policies :: policies[a].creation.definition == definition && policies[a].generation == g
  }

  /** The generations read so far, grouped by definition. */
  ghost predicate Grouped(groups: map<Id, seq<nat>>, policies: map<Id, Policy>, ids: set<Id>) {
    && (forall a | a in ids && a in policies :: policies[a].creation.definition in groups)
    && (forall d, g | d in groups :: g in groups[d] <==> GenerationIn(policies, ids, d, g))
    && (forall d | d in groups :: Distinct(groups[d]) <==> !CollideIn(policies, ids, d))
  }

  function Group(groups: map<Id, seq<nat>>, p: Policy): map<Id, seq<nat>> {
    var d := p.creation.definition;
    groups[d := (if d in groups then groups[d] else []) + [p.generation]]
  }

  lemma GroupDistinct(groups: map<Id, seq<nat>>, policies: map<Id, Policy>, ids: set<Id>, id: Id)
    requires ids <= policies.Keys && id in policies && id !in ids && Grouped(groups, policies, ids)
    ensures var d := policies[id].creation.definition;
            Distinct(Group(groups, policies[id])[d]) <==> !CollideIn(policies, ids + {id}, d)
  {
    var p := policies[id];
    var d := p.creation.definition;
    var before := if d in groups then groups[d] else [];
    DistinctAppend(before, p.generation);
    assert p.generation in before <==> GenerationIn(policies, ids, d, p.generation);
    if GenerationIn(policies, ids, d, p.generation) {
      var a :| a in ids && policies[a].creation.definition == d && policies[a].generation == p.generation;
      assert SameGeneration(policies[a], policies[id]);
      assert CollideIn(policies, ids + {id}, d);
    }
    if CollideIn(policies, ids, d) {
      var a, b :| a in ids && b in ids && a != b && policies[a].creation.definition == d && SameGeneration(policies[a], policies[b]);
      assert CollideIn(policies, ids + {id}, d);
    }
  }

  lemma GroupKept(policies: map<Id, Policy>, ids: set<Id>, id: Id, d: Id)
    requires ids <= policies.Keys && id in policies && policies[id].creation.definition != d
    ensures CollideIn(policies, ids + {id}, d) <==> CollideIn(policies, ids, d)
    ensures forall g :: GenerationIn(policies, ids + {id}, d, g) <==> GenerationIn(policies, ids, d, g)
  {
  }

  lemma GroupMembers(groups: map<Id, seq<nat>>, policies: map<Id, Policy>, ids: set<Id>, id: Id, g: nat)
    requires ids <= policies.Keys && id in policies && Grouped(groups, policies, ids)
    ensures var d := policies[id].creation.definition;
            g in Group(groups, policies[id])[d] <==> GenerationIn(policies, ids + {id}, d, g)
  {
    var d := policies[id].creation.definition;
    assert d !in groups ==> !GenerationIn(policies, ids, d, g);
    assert GenerationIn(policies, ids + {id}, d, g) <==> GenerationIn(policies, ids, d, g) || g == policies[id].generation;
  }

  lemma GroupStep(groups: map<Id, seq<nat>>, policies: map<Id, Policy>, ids: set<Id>, id: Id)
    requires ids <= policies.Keys && id in policies && id !in ids && Grouped(groups, policies, ids)
    ensures Grouped(Group(groups, policies[id]), policies, ids + {id})
  {
    var groups' := Group(groups, policies[id]);
    forall d, g | d in groups' ensures g in groups'[d] <==> GenerationIn(policies, ids + {id}, d, g) {
      if d == policies[id].creation.definition {
        GroupMembers(groups, policies, ids, id, g);
      } else {
        GroupKept(policies, ids, id, d);
      }
    }
    forall d | d in groups' ensures Distinct(groups'[d]) <==> !CollideIn(policies, ids + {id}, d) {
      if d == policies[id].creation.definition {
        GroupDistinct(groups, policies, ids, id);
      } else {
        GroupKept(policies, ids, id, d);
      }
    }
  }

  /** Every group passes the gap check exactly when all generations are as the ledger demands. */
  lemma GroupsNumbered(groups: map<Id, seq<nat>>, policies: map<Id, Policy>)
    requires Grouped(groups, policies, policies.Keys)
    ensures (forall d | d in groups :: Numbered(groups[d])) <==> GenerationsOk(policies)
  {
    if forall d | d in groups :: Numbered(groups[d]) {
      forall a, b | a in policies && b in policies && a != b ensures !SameGeneration(policies[a], policies[b]) {
        var d := policies[a].creation.definition;
        NumberedIsClosed(groups[d]);
        assert !CollideIn(policies, policies.Keys, d);
      }
      forall a | a in policies ensures policies[a].generation >= 1 {
        var d := policies[a].creation.definition;
        NumberedIsClosed(groups[d]);
        assert GenerationIn(policies, policies.Keys, d, policies[a].generation);
      }
      forall a, g | a in policies && 1 <= g < policies[a].generation
        ensures HasGeneration(policies, policies[a].creation.definition, g)
      {
        var d := policies[a].creation.definition;
        NumberedIsClosed(groups[d]);
        assert GenerationIn(policies, policies.Keys, d, policies[a].generation);
        assert GenerationIn(policies, policies.Keys, d, g);
      }
    }
    if GenerationsOk(policies) {
      forall d | d in groups ensures Numbered(groups[d]) {
        NumberedIsClosed(groups[d]);
        forall x, y: nat | x in groups[d] && 1 <= y < x ensures y in groups[d] {
          assert GenerationIn(policies, policies.Keys, d, x);
          assert HasGeneration(policies, d, y);
          assert GenerationIn(policies, policies.Keys, d, y);
        }
      }
    }
  }

  method GroupGenerations(policies: map<Id, Policy>) returns (groups: map<Id, seq<nat>>)
    ensures Grouped(groups, policies, policies.Keys)
  {
    groups := map[];
    var rest := policies.Keys;
    ghost var seen: set<Id> := {};
    while rest != {}
      invariant rest !! seen && rest + seen == policies.Keys && Grouped(groups, policies, seen)
      decreases rest
    {
      var id :| id in rest;
      GroupStep(groups, policies, seen, id);
      groups, rest, seen := Group(groups, policies[id]), rest - {id}, seen + {id};
    }
    assert seen == policies.Keys;
  }

  /** Sort each definition's generations and require 1, 2, 3 and so on. */
  method ValidGenerations(policies: map<Id, Policy>) returns (ok: bool)
    ensures ok == GenerationsOk(policies)
  {
    var groups := GroupGenerations(policies);
    GroupsNumbered(groups, policies);
    var keys := groups.Keys;
    while keys != {}
      invariant keys <= groups.Keys && forall d | d in groups.Keys - keys :: Numbered(groups[d])
      decreases keys
    {
      var d :| d in keys;
      if !Numbered(groups[d]) {
        return false;
      }
      keys := keys - {d};
    }
    return true;
  }

  // ------------------------------------------------------------------ policies and their definitions

  /** The index holds exactly the definitions of the policies read so far, each as retained. */
  predicate Indexes(index: map<Id, Definition>, t: Tables, seen: set<Id>) {
    && (forall d | d in index :: ReadableDefinition(t, d) && index[d] == t.definitions[d])
    && (forall id | id in seen && id in t.policies :: t.policies[id].creation.definition in index)
  }

  /** Reads every policy in one pass, loading each definition the first time it is named. */
  method ReadPolicies(t: Tables) returns (index: Option<map<Id, Definition>>)
    ensures index.Some? <==> PoliciesOk(t.policies, t.definitions) && GenerationsOk(t.policies)
    ensures index.Some? ==> Indexes(index.value, t, t.policies.Keys)
  {
    var loaded: map<Id, Definition> := map[];
    var rest := t.policies.Keys;
    while rest != {}
      invariant rest <= t.policies.Keys && Indexes(loaded, t, t.policies.Keys - rest)
      invariant forall id | id in t.policies.Keys - rest :: PolicyOk(t.policies[id], id, t.definitions)
      decreases rest
    {
      var id :| id in rest;
      var p := t.policies[id];
      if p.creation.definition !in loaded {
        if !ReadableDefinition(t, p.creation.definition) {
          return None;
        }
        loaded := loaded[p.creation.definition := t.definitions[p.creation.definition]];
      }
      if p.id != id || !ValidPolicy(p) || !PolicyFits(p, loaded[p.creation.definition]) {
        return None;
      }
      rest := rest - {id};
    }
    var ok := ValidGenerations(t.policies);
    return if ok then Some(loaded) else None;
  }

  // ------------------------------------------------------------------ schedules and triggers

  method ReadSchedules(t: Tables, index: map<Id, Definition>) returns (ok: bool)
    requires Indexes(index, t, t.policies.Keys)
    ensures ok == SchedulesOk(t.schedules, t.policies, t.definitions)
  {
    var rest := t.schedules.Keys;
    while rest != {}
      invariant rest <= t.schedules.Keys
      invariant forall id | id in t.schedules.Keys - rest :: ScheduleOk(t.schedules[id], id, t.policies, t.definitions)
      decreases rest
    {
      var id :| id in rest;
      if !ScheduleOk(t.schedules[id], id, t.policies, index) {
        return false;
      }
      rest := rest - {id};
    }
    return true;
  }

  method ReadTriggers(t: Tables) returns (ok: bool)
    ensures ok == TriggersOk(t.triggers, t.schedules, t.policies)
  {
    for i := 0 to |t.triggers|
      invariant forall k | 0 <= k < i :: TriggerOk(t.triggers[k], t.schedules, t.policies)
    {
      if !TriggerOk(t.triggers[i], t.schedules, t.policies) {
        return false;
      }
    }
    return true;
  }

  function Identities(x: Trigger): set<Id> {
    {x.id, x.reservation, x.execution, x.context.request}
  }

  predicate IdentitiesApart(triggers: seq<Trigger>) {
    forall i, j | 0 <= i < j < |triggers| :: Identities(triggers[i]) !! Identities(triggers[j])
  }

  function AllIdentities(triggers: seq<Trigger>): set<Id> {
    if triggers == [] then {} else AllIdentities(triggers[..|triggers| - 1]) + Identities(triggers[|triggers| - 1])
  }

  lemma {:induction false} IdentityOwner(triggers: seq<Trigger>, id: Id)
    ensures id in AllIdentities(triggers) <==> exists k | 0 <= k < |triggers| :: id in Identities(triggers[k])
  {
    if triggers != [] {
      IdentityOwner(triggers[..|triggers| - 1], id);
    }
  }

  lemma ApartAppend(triggers: seq<Trigger>, x: Trigger)
    ensures IdentitiesApart(triggers + [x]) <==> IdentitiesApart(triggers) && Identities(x) !! AllIdentities(triggers)
  {
    var log := triggers + [x];
    assert log[|triggers|] == x && forall k | 0 <= k < |triggers| :: log[k] == triggers[k];
    if IdentitiesApart(log) {
      forall id | id in AllIdentities(triggers) ensures id !in Identities(x) {
        IdentityOwner(triggers, id);
        var k :| 0 <= k < |triggers| && id in Identities(triggers[k]);
        assert Identities(log[k]) !! Identities(log[|triggers|]);
      }
      assert forall i, j | 0 <= i < j < |triggers| :: Identities(log[i]) !! Identities(log[j]);
    } else if Identities(x) !! AllIdentities(triggers) {
      var i, j :| 0 <= i < j < |log| && !(Identities(log[i]) !! Identities(log[j]));
      var id :| id in Identities(log[i]) && id in Identities(log[j]);
      IdentityOwner(triggers, id);
    }
  }

  lemma ApartPrefix(triggers: seq<Trigger>, n: nat)
    requires n <= |triggers| && !IdentitiesApart(triggers[..n])
    ensures !IdentitiesApart(triggers)
  {
    var i, j :| 0 <= i < j < n && !(Identities(triggers[..n][i]) !! Identities(triggers[..n][j]));
    assert triggers[..n][i] == triggers[i] && triggers[..n][j] == triggers[j];
  }

  /** One set collects all identities; the first one already present ends the read. */
  method ReadIdentities(triggers: seq<Trigger>) returns (ok: bool)
    ensures ok == IdentitiesApart(triggers)
  {
    var seen: set<Id> := {};
    for i := 0 to |triggers|
      invariant seen == AllIdentities(triggers[..i]) && IdentitiesApart(triggers[..i])
    {
      assert triggers[..i + 1] == triggers[..i] + [triggers[i]];
      ApartAppend(triggers[..i], triggers[i]);
      if !(Identities(triggers[i]) !! seen) {
        ApartPrefix(triggers, i + 1);
        return false;
      }
      seen := seen + Identities(triggers[i]);
    }
    assert triggers[..|triggers|] == triggers;
    return true;
  }

  method ReadActive(schedules: map<Id, Schedule>) returns (ok: bool)
    ensures ok == OneActive(schedules)
  {
    var definitions: set<Id> := {};
    var rest := schedules.Keys;
    while rest != {}
      invariant rest <= schedules.Keys
      invariant forall d :: d in definitions <==> exists a | a in schedules.Keys - rest :: schedules[a].Active() && schedules[a].definition == d
      invariant forall a, b | a in schedules.Keys - rest && b in schedules.Keys - rest && a != b :: !Rival(schedules[a], schedules[b])
      decreases rest
    {
      var id :| id in rest;
      var s := schedules[id];
      if s.Active() {
        if s.definition in definitions {
          ghost var a :| a in schedules.Keys - rest && schedules[a].Active() && schedules[a].definition == s.definition;
          assert Rival(schedules[a], schedules[id]);
          return false;
        }
        definitions := definitions + {s.definition};
      }
      rest := rest - {id};
    }
    return true;
  }

  // ------------------------------------------------------------------ claims of one schedule

  function OwnOrdinals(triggers: seq<Trigger>, schedule: Id): seq<nat> {
    if triggers == [] then []
    else
      var rest := OwnOrdinals(triggers[..|triggers| - 1], schedule);
      if triggers[|triggers| - 1].schedule == schedule then rest + [triggers[|triggers| - 1].ordinal] else rest
  }

  predicate OrdinalsApart(triggers: seq<Trigger>, schedule: Id) {
    forall i, j | 0 <= i < j < |triggers| ::
      triggers[i].schedule == schedule && triggers[j].schedule == schedule ==> triggers[i].ordinal != triggers[j].ordinal
  }

  lemma {:induction false} OwnMembers(triggers: seq<Trigger>, schedule: Id)
    ensures |OwnOrdinals(triggers, schedule)| == Claims(triggers, schedule)
    ensures forall n :: n in OwnOrdinals(triggers, schedule) <==>
              exists k | 0 <= k < |triggers| :: triggers[k].schedule == schedule && triggers[k].ordinal == n
  {
    if triggers != [] {
      OwnMembers(triggers[..|triggers| - 1], schedule);
    }
  }

  lemma {:induction false} OwnDistinct(triggers: seq<Trigger>, schedule: Id)
    ensures Distinct(OwnOrdinals(triggers, schedule)) <==> OrdinalsApart(triggers, schedule)
  {
    if triggers != [] {
      var front, x := triggers[..|triggers| - 1], triggers[|triggers| - 1];
      OwnDistinct(front, schedule);
      OwnMembers(front, schedule);
      DistinctAppend(OwnOrdinals(front, schedule), x.ordinal);
    }
  }

  /** The gap check on a schedule's sorted claims is the count and the distinctness of ordinals. */
  lemma OwnNumbered(triggers: seq<Trigger>, s: Schedule)
    requires forall x | x in triggers && x.schedule == s.Id() :: 1 <= x.ordinal <= s.claimed
    ensures |OwnOrdinals(triggers, s.Id())| == s.claimed && Numbered(OwnOrdinals(triggers, s.Id()))
            <==> Claims(triggers, s.Id()) == s.claimed && OrdinalsApart(triggers, s.Id())
  {
    OwnMembers(triggers, s.Id());
    OwnDistinct(triggers, s.Id());
    NumberedIsBounded(OwnOrdinals(triggers, s.Id()));
  }

  method ReadOwn(triggers: seq<Trigger>, schedule: Id) returns (own: seq<nat>)
    ensures own == OwnOrdinals(triggers, schedule)
  {
    own := [];
    for i := 0 to |triggers|
      invariant own == OwnOrdinals(triggers[..i], schedule)
    {
      assert triggers[..i + 1][..i] == triggers[..i];
      if triggers[i].schedule == schedule {
        own := own + [triggers[i].ordinal];
      }
    }
    assert triggers[..|triggers|] == triggers;
  }

  /** What one schedule's claims must satisfy. */
  predicate OwnOk(t: Tables, s: Schedule) {
    && OrdinalsApart(t.triggers, s.Id()) && ClaimsMatch(s, t.triggers)
    && RefusalMatches(s, t.triggers, t.occurrences, t.jobs)
  }

  method ReadClaims(t: Tables, s: Schedule) returns (ok: bool)
    requires forall x | x in t.triggers && x.schedule == s.Id() :: 1 <= x.ordinal <= s.claimed
    ensures ok == OwnOk(t, s)
  {
    var own := ReadOwn(t.triggers, s.Id());
    OwnNumbered(t.triggers, s);
    if |own| != s.claimed || !Numbered(own) {
      return false;
    }
    var last := LastClaim(t.triggers, s);
    if s.active.Some? && (last.None? || last.value.id != s.active.value) {
      return false;
    }
    if s.state == InFlight && (last.None? || !InFlightClock(s, last.value)) {
      return false;
    }
    return RefusalMatches(s, t.triggers, t.occurrences, t.jobs);
  }

  method ReadAllClaims(t: Tables) returns (ok: bool)
    requires SchedulesOk(t.schedules, t.policies, t.definitions) && TriggersOk(t.triggers, t.schedules, t.policies)
    ensures ok == forall id | id in t.schedules :: OwnOk(t, t.schedules[id])
  {
    var rest := t.schedules.Keys;
    while rest != {}
      invariant rest <= t.schedules.Keys && forall id | id in t.schedules.Keys - rest :: OwnOk(t, t.schedules[id])
      decreases rest
    {
      var id :| id in rest;
      assert ScheduleOk(t.schedules[id], id, t.policies, t.definitions);
      forall x | x in t.triggers && x.schedule == t.schedules[id].Id() ensures 1 <= x.ordinal <= t.schedules[id].claimed {
        assert TriggerOk(x, t.schedules, t.policies);
      }
      ok := ReadClaims(t, t.schedules[id]);
      if !ok {
        return;
      }
      rest := rest - {id};
    }
    return true;
  }

  // ------------------------------------------------------------------ the whole read

  datatype HistoryView = HistoryView(
    schedules: map<Id, Schedule>, triggers: seq<Trigger>,
    policies: map<Id, Policy>, definitions: map<Id, Definition>)

  lemma ApartIsIndependent(t: Tables)
    requires TriggersOk(t.triggers, t.schedules, t.policies) && forall id | id in t.schedules :: t.schedules[id].Id() == id
    ensures IdentitiesApart(t.triggers) && (forall id | id in t.schedules :: OrdinalsApart(t.triggers, t.schedules[id].Id()))
            <==> IdentitiesOk(t.triggers)
  {
    forall i, j | 0 <= i < j < |t.triggers|
      ensures Independent(t.triggers[i], t.triggers[j]) <==>
              && Identities(t.triggers[i]) !! Identities(t.triggers[j])
              && (t.triggers[i].schedule == t.triggers[j].schedule ==> t.triggers[i].ordinal != t.triggers[j].ordinal)
    {
    }
    forall i | 0 <= i < |t.triggers| ensures t.triggers[i].schedule in t.schedules {
      assert TriggerOk(t.triggers[i], t.schedules, t.policies);
    }
  }

  /** The indexed read succeeds exactly on the ledgers that pass the history check. */
  method ValidatedHistory(t: Tables) returns (view: Option<HistoryView>)
    ensures view.Some? <==> HistoryOk(t)
    ensures view.Some? ==>
              && view.value == HistoryView(t.schedules, t.triggers, t.policies, view.value.definitions)
              && Indexes(view.value.definitions, t, t.policies.Keys)
  {
    var index := ReadPolicies(t);
    if index.None? {
      return None;
    }
    var ok := ReadSchedules(t, index.value);
    if !ok {
      return None;
    }
    ok := ReadTriggers(t);
    if !ok {
      return None;
    }
    ok := ReadRest(t);
    return if ok then Some(HistoryView(t.schedules, t.triggers, t.policies, index.value)) else None;
  }

  method ReadRest(t: Tables) returns (ok: bool)
    requires SchedulesOk(t.schedules, t.policies, t.definitions) && TriggersOk(t.triggers, t.schedules, t.policies)
    ensures ok == (&& IdentitiesOk(t.triggers) && OneActive(t.schedules)
                   && ClaimsOk(t.schedules, t.triggers) && RefusalsOk(t.schedules, t.triggers, t.occurrences, t.jobs))
  {
    assert forall id | id in t.schedules :: ScheduleOk(t.schedules[id], id, t.policies, t.definitions);
    ApartIsIndependent(t);
    ok := ReadIdentities(t.triggers);
    if !ok {
      return;
    }
    ok := ReadActive(t.schedules);
    if !ok {
      return;
    }
    ok := ReadAllClaims(t);
  }
}
