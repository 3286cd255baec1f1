/**
 A projection composed of independent models under one apply barrier (pkg/events/component_projection.go):
 every event steps all models or none, and a restore installs all models or none.
 */
module Components {
  import opened EventStream
  import Projections
  import Subjects

  const STATE_PART_KEY := "state"

  /** A restore's answer: either way a state is left behind, and a refused restore may have changed it. */
  type Restored<+S> = Projections.Applied<S>

  /** A reducer's answer: it failed, it has nothing to do, or it holds an infallible change. */
  datatype Prepared<!S> = Rejected | Nothing | Change(commit: S -> S)

  datatype Component<!S, !E, !P> = Component(
    key: string,
    contract: string,
    filters: seq<string>,
    prepare: (S, E, nat) -> Prepared<S>,
    snapshot: S -> Option<P>,
    restore: (S, P) -> Restored<S>)

  datatype Delivery<+E> = Delivery(event: E, subject: string, sequence: nat)

  datatype Part<+P> = Part(key: string, payload: P)

  datatype StoredComponent<+P> = StoredComponent(key: string, contract: string, parts: seq<Part<P>>)

  // ------------------------------------------------------------------ one model alone

  /** Without a subject every reducer sees the event. */
  predicate Sees<S, E, P>(c: Component<S, E, P>, d: Delivery<E>) {
    d.subject == "" || Subjects.MatchesAny(c.filters, d.subject)
  }

  function Step<S, E, P>(c: Component<S, E, P>, s: S, d: Delivery<E>): Option<S> {
    match c.prepare(s, d.event, d.sequence)
    case Rejected => None
    case Nothing => Some(s)
    case Change(commit) => Some(commit(s))
  }

  /** The model run alone over the events it is subscribed to. */
  function Alone<S, E, P>(c: Component<S, E, P>, s: S, ds: seq<Delivery<E>>): Option<S> {
    if ds == [] then Some(s)
    else
      var before := Alone(c, s, ds[..|ds| - 1]);
      if before.None? then None else Step(c, before.value, ds[|ds| - 1])
  }

  function SeenBy<S, E, P>(c: Component<S, E, P>, ds: seq<Delivery<E>>): seq<Delivery<E>> {
    if ds == [] then []
    else SeenBy(c, ds[..|ds| - 1]) + if Sees(c, ds[|ds| - 1]) then [ds[|ds| - 1]] else []
  }

  // ------------------------------------------------------------------ all models together

  /** `after` is what one delivery makes of `before`: every model that sees it has stepped, the others have not. */
  ghost predicate Steps<S, E, P>(cs: seq<Component<S, E, P>>, before: seq<S>, d: Delivery<E>, after: seq<S>) {
    && |before| == |after| == |cs|
    && forall i :: 0 <= i < |cs| ==> Some(after[i]) == if Sees(cs[i], d) then Step(cs[i], before[i], d)
         else Some(before[i])
  }

  ghost predicate Refused<S, E, P>(cs: seq<Component<S, E, P>>, before: seq<S>, d: Delivery<E>)
    requires |before| == |cs|
  {
    exists i :: 0 <= i < |cs| && Sees(cs[i], d) && cs[i].prepare(before[i], d.event, d.sequence).Rejected?
  }

  // ------------------------------------------------------------------ snapshots

  predicate WellFormed<S, E, P>(c: Component<S, E, P>, stored: StoredComponent<P>) {
    && stored.key == c.key && stored.contract == c.contract
    && |stored.parts| == 1 && stored.parts[0].key == STATE_PART_KEY
  }

  /** statePartPayload. */
  function StatePartPayload<S, E, P>(c: Component<S, E, P>, stored: StoredComponent<P>): (payload: Option<P>)
    ensures payload.Some? <==> WellFormed(c, stored)
    ensures payload.Some? ==> payload.value == stored.parts[0].payload
  {
    if stored.key != c.key || stored.contract != c.contract then None
    else if |stored.parts| != 1 || stored.parts[0].key != STATE_PART_KEY then None
    else Some(stored.parts[0].payload)
  }

  /**
   What a model saves under its key; StatePartPayload hands back this payload, and nothing else has one to hand back.
   */
  function StatePart<S, E, P>(c: Component<S, E, P>, payload: P): StoredComponent<P> {
    StoredComponent(c.key, c.contract, [Part(STATE_PART_KEY, payload)])
  }

  lemma StatePartPayloadInverts<S, E, P>(c: Component<S, E, P>, stored: StoredComponent<P>, payload: P)
    ensures StatePartPayload(c, stored) == Some(payload) <==> stored == StatePart(c, payload)
  {
    if StatePartPayload(c, stored) == Some(payload) {
      assert stored.parts == [stored.parts[0]];
    }
  }

  ghost predicate DistinctKeys<P>(stored: seq<StoredComponent<P>>) {
    forall i, j :: 0 <= i < j < |stored| ==> stored[i].key != stored[j].key
  }

  /** The stored component under this model's key is one that the model can take over from state `s`. */
  ghost predicate Takes<S, E, P>(c: Component<S, E, P>, s: S, stored: seq<StoredComponent<P>>) {
    && c.snapshot(s).Some?
    && exists sc :: sc in stored && WellFormed(c, sc) && c.restore(s, sc.parts[0].payload).Applied?
  }

  /** What a stored component set must be for the restore to be accepted. */
  ghost predicate Acceptable<S, E, P>(cs: seq<Component<S, E, P>>, before: seq<S>, stored: seq<StoredComponent<P>>)
    requires |before| == |cs|
  {
    && |stored| == |cs| && DistinctKeys(stored)
    && forall i :: 0 <= i < |cs| ==> Takes(cs[i], before[i], stored)
  }

  ghost predicate Installs<S, E, P>(c: Component<S, E, P>, s: S, stored: seq<StoredComponent<P>>, t: S) {
    exists sc :: sc in stored && WellFormed(c, sc) && c.restore(s, sc.parts[0].payload) == Projections.Applied(t)
  }

  /** A snapshot restores the state it was taken of, whatever the model holds, a refused restore included. */
  ghost predicate RestoreUndoesSnapshot<S(!new), E, P>(c: Component<S, E, P>) {
    forall s, t :: c.snapshot(s).Some? ==> c.restore(t, c.snapshot(s).value) == Projections.Applied(s)
  }

  ghost predicate FaithfulModels<S(!new), E, P>(cs: seq<Component<S, E, P>>) {
    forall i :: 0 <= i < |cs| ==> RestoreUndoesSnapshot(cs[i])
  }

  ghost predicate DistinctComponents<S, E, P>(cs: seq<Component<S, E, P>>) {
    forall i, j :: 0 <= i < j < |cs| ==> cs[i].key != cs[j].key
  }

  ghost predicate Planned<S>(changes: seq<(nat, S -> S)>, i: nat) {
    exists j :: 0 <= j < |changes| && changes[j].0 == i
  }

  /** `changes` are the pending changes of the first `n` models, at most one each, in order. */
  ghost predicate Plan<S, E, P>(cs: seq<Component<S, E, P>>, states: seq<S>, d: Delivery<E>,
                                changes: seq<(nat, S -> S)>, n: nat)
    requires n <= |cs| == |states|
  {
    && (forall j :: 0 <= j < |changes| ==> changes[j].0 < n)
    && (forall j, k :: 0 <= j < k < |changes| ==> changes[j].0 < changes[k].0)
    && (forall j :: 0 <= j < |changes| ==>
          && Sees(cs[changes[j].0], d)
          && cs[changes[j].0].prepare(states[changes[j].0], d.event, d.sequence) == Change(changes[j].1))
    && (forall i :: 0 <= i < n && Sees(cs[i], d) && cs[i].prepare(states[i], d.event, d.sequence).Change? ==>
                      Planned(changes, i))
  }

  lemma PlanStarts<S, E, P>(cs: seq<Component<S, E, P>>, states: seq<S>, d: Delivery<E>)
    requires |cs| == |states|
    ensures Plan(cs, states, d, [], 0)
  {
  }

  lemma PlanSkips<S, E, P>(cs: seq<Component<S, E, P>>, states: seq<S>, d: Delivery<E>,
                           changes: seq<(nat, S -> S)>, n: nat)
    requires n < |cs| == |states| && Plan(cs, states, d, changes, n)
    requires Sees(cs[n], d) ==> !cs[n].prepare(states[n], d.event, d.sequence).Change?
    ensures Plan(cs, states, d, changes, n + 1)
  {
    hide Sees;
  }

  lemma PlanGrows<S, E, P>(cs: seq<Component<S, E, P>>, states: seq<S>, d: Delivery<E>,
                           changes: seq<(nat, S -> S)>, n: nat, commit: S -> S)
    requires n < |cs| == |states| && Plan(cs, states, d, changes, n)
    requires Sees(cs[n], d) && cs[n].prepare(states[n], d.event, d.sequence) == Change(commit)
    ensures Plan(cs, states, d, changes + [(n, commit)], n + 1)
  {
    hide Sees;
    var more := changes + [(n, commit)];
    assert more[|changes|].0 == n;
    forall i | 0 <= i < n && Sees(cs[i], d) && cs[i].prepare(states[i], d.event, d.sequence).Change?
      ensures Planned(more, i)
    {
      var j :| 0 <= j < |changes| && changes[j].0 == i;
      assert more[j].0 == i;
    }
  }

  class Componentized<S(!new), E, P> {
    const components: seq<Component<S, E, P>>
    const models: array<S>

    constructor (registered: seq<Component<S, E, P>>, initial: array<S>)
      requires initial.Length == |registered|
      ensures components == registered && models == initial
    {
      components, models := registered, initial;
    }

    ghost predicate Valid() {
      models.Length == |components|
    }

    /** prepareComponents: nothing is changed; the mutation holds, in order, the changes to commit. */
    method PrepareComponents(d: Delivery<E>) returns (mutation: Option<seq<(nat, S -> S)>>)
      requires Valid()
      ensures mutation.None? <==> Refused(components, models[..], d)
      ensures mutation.Some? ==> Plan(components, models[..], d, mutation.value, |components|)
    {
      hide Plan, Sees;
      var changes: seq<(nat, S -> S)> := [];
      PlanStarts(components, models[..], d);
      for i := 0 to |components|
        invariant Plan(components, models[..], d, changes, i)
        invariant forall k :: 0 <= k < i && Sees(components[k], d) ==>
                                !components[k].prepare(models[..][k], d.event, d.sequence).Rejected?
      {
        var c := components[i];
        assert models[i] == models[..][i];
        if !Sees(c, d) {
          PlanSkips(components, models[..], d, changes, i);
        } else {
          match c.prepare(models[i], d.event, d.sequence)
          case Rejected =>
            return None;
          case Nothing =>
            PlanSkips(components, models[..], d, changes, i);
          case Change(commit) =>
            PlanGrows(components, models[..], d, changes, i, commit);
            changes := changes + [(i, commit)];
        }
      }
      return Some(changes);
    }

    /** Prepare every model, then commit every model: all of them step or none does. */
    method Apply(d: Delivery<E>) returns (ok: bool)
      requires Valid()
      modifies models
      ensures ok <==> !Refused(components, old(models[..]), d)
      ensures ok ==> Steps(components, old(models[..]), d, models[..])
      ensures ok && d.subject == "" ==> forall i :: 0 <= i < |components| ==>
                                Some(models[i]) == Step(components[i], old(models[i]), d)
      ensures !ok ==> models[..] == old(models[..])
    {
      var mutation := PrepareComponents(d);
      if mutation.None? {
        return false;
      }
      var changes := mutation.value;
      ghost var before := models[..];
      for j := 0 to |changes|
        invariant forall k :: 0 <= k < j ==> models[changes[k].0] == changes[k].1(before[changes[k].0])
        invariant forall i :: 0 <= i < |components| && (forall k :: 0 <= k < j ==> changes[k].0 != i) ==>
                    models[i] == before[i]
      {
        var (i, commit) := changes[j];
        models[i] := commit(models[i]);
      }
      return true;
    }

    /** SnapshotComponents: one component per model, in registration order. */
    method SnapshotComponents() returns (stored: Option<seq<StoredComponent<P>>>)
      requires Valid()
      ensures stored.Some? <==> forall i :: 0 <= i < |components| ==> components[i].snapshot(models[i]).Some?
      ensures stored.Some? ==> SnapshotOf(components, models[..], stored.value)
    {
      var taken: seq<StoredComponent<P>> := [];
      for i := 0 to |components|
        invariant |taken| == i
        invariant forall k :: 0 <= k < i ==>
                                && WellFormed(components[k], taken[k])
                                && components[k].snapshot(models[k]) == Some(taken[k].parts[0].payload)
      {
        var c := components[i];
        var payload := c.snapshot(models[i]);
        if payload.None? {
          return None;
        }
        taken := taken + [StoredComponent(c.key, c.contract, [Part(STATE_PART_KEY, payload.value)])];
      }
      return Some(taken);
    }

    /** The stored components by key, unless two share one. */
    method ByKey(stored: seq<StoredComponent<P>>) returns (byKey: Option<map<string, StoredComponent<P>>>)
      ensures byKey.Some? <==> DistinctKeys(stored)
      ensures byKey.Some? ==> Indexes(byKey.value, stored)
    {
      var seen: map<string, StoredComponent<P>> := map[];
      for i := 0 to |stored|
        invariant Indexes(seen, stored[..i])
        invariant DistinctKeys(stored[..i])
      {
        if stored[i].key in seen {
          assert seen[stored[i].key] in stored[..i];
          return None;
        }
        assert forall k :: 0 <= k < i ==> stored[..i][k] in stored[..i];
        assert stored[..i + 1] == stored[..i] + [stored[i]];
        seen := seen[stored[i].key := stored[i]];
      }
      assert stored[..|stored|] == stored;
      return Some(seen);
    }

    /** What RestoreComponents collects before it touches any model. */
    ghost predicate Collected(stored: seq<StoredComponent<P>>, payloads: seq<P>, previous: seq<P>, n: nat)
      requires Valid() && n <= |components|
      reads models
    {
      && |payloads| == |previous| == n
      && forall i :: 0 <= i < n ==>
           && components[i].snapshot(models[i]) == Some(previous[i])
           && Offers(components[i], stored, payloads[i])
    }

    method CollectPayloads(stored: seq<StoredComponent<P>>)
      returns (payloads: seq<P>, previous: seq<P>, ok: bool)
      requires Valid()
      ensures ok ==>
                |stored| == |components| && DistinctKeys(stored) && Collected(stored, payloads, previous, |components|)
      ensures !ok ==> !Acceptable(components, models[..], stored)
    {
      payloads, previous := [], [];
      if |stored| != |components| {
        return payloads, previous, false;
      }
      var byKey := ByKey(stored);
      if byKey.None? {
        return payloads, previous, false;
      }
      for i := 0 to |components|
        invariant Collected(stored, payloads, previous, i)
      {
        var c := components[i];
        var payload := if c.key in byKey.value then StatePartPayload(c, byKey.value[c.key]) else None;
        var current := c.snapshot(models[i]);
        if payload.None? || current.None? {
          assert !Takes(c, models[..][i], stored);
          return payloads, previous, false;
        }
        payloads, previous := payloads + [payload.value], previous + [current.value];
      }
      return payloads, previous, true;
    }

    /** RestoreComponents: all models take over their stored state, or all are put back. */
    method RestoreComponents(stored: seq<StoredComponent<P>>) returns (ok: bool)
      requires Valid() && FaithfulModels(components)
      modifies models
      ensures ok <==> Acceptable(components, old(models[..]), stored)
      ensures ok ==> forall i :: 0 <= i < |components| ==> Installs(components[i], old(models[i]), stored, models[i])
      ensures !ok ==> models[..] == old(models[..])
    {
      var payloads, previous;
      payloads, previous, ok := CollectPayloads(stored);
      if !ok {
        return;
      }
      ghost var before := models[..];
      for i := 0 to |components|
        invariant forall k :: 0 <= k < i ==>
                                components[k].restore(before[k], payloads[k]) == Projections.Applied(models[k])
        invariant forall k :: i <= k < |components| ==> models[k] == before[k]
      {
        var restored := components[i].restore(models[i], payloads[i]);
        models[i] := restored.state;
        if restored.Rejected? {
          RefusedRestore(components[i], before[i], stored, payloads[i]);
          RollBack(previous, i, before);
          return false;
        }
      }
    }

    /** Put the first models, the one that refused included, back to what they held. */
    method RollBack(previous: seq<P>, last: nat, ghost before: seq<S>)
      requires Valid() && FaithfulModels(components) && last < |components| == |previous| == |before|
      requires forall k :: 0 <= k < |components| ==> components[k].snapshot(before[k]) == Some(previous[k])
      requires forall k :: last < k < |components| ==> models[k] == before[k]
      modifies models
      ensures models[..] == before
    {
      for r := 0 to last + 1
        invariant forall k :: 0 <= k < r ==> models[k] == before[k]
        invariant forall k :: last < k < |components| ==> models[k] == before[k]
      {
        assert RestoreUndoesSnapshot(components[r]);
        models[r] := components[r].restore(models[r], previous[r]).state;
      }
    }

    /** ResetComponents: the canonical empty state of every model, as one transaction. */
    method ResetComponents(empty: P) returns (ok: bool)
      requires Valid() && FaithfulModels(components) && DistinctComponents(components)
      modifies models
      ensures ok <==> forall i :: 0 <= i < |components| ==>
                        components[i].snapshot(old(models[i])).Some?
                          && components[i].restore(old(models[i]), empty).Applied?
      ensures ok ==>
                forall i :: 0 <= i < |components| ==>
                  components[i].restore(old(models[i]), empty) == Projections.Applied(models[i])
      ensures !ok ==> models[..] == old(models[..])
    {
      var stored: seq<StoredComponent<P>> := [];
      for i := 0 to |components|
        invariant EmptyStates(components[..i], stored, empty)
      {
        stored := stored + [StoredComponent(components[i].key, components[i].contract, [Part(STATE_PART_KEY, empty)])];
      }
      assert components[..|components|] == components;
      forall i | 0 <= i < |components|
        ensures DistinctKeys(stored)
        ensures Takes(components[i], models[i], stored) <==>
                components[i].snapshot(models[i]).Some? && components[i].restore(models[i], empty).Applied?
        ensures forall t :: Installs(components[i], models[i], stored, t) <==>
                  components[i].restore(models[i], empty) == Projections.Applied(t)
      {
        EmptySet(components, models[i], stored, empty, i);
      }
      ok := RestoreComponents(stored);
    }
  }

  /** `payload` is what `stored` holds under this model's key. */
  ghost predicate Offers<S, E, P>(c: Component<S, E, P>, stored: seq<StoredComponent<P>>, payload: P) {
    exists sc :: sc in stored && WellFormed(c, sc) && sc.parts[0].payload == payload
  }

  ghost predicate Indexes<P>(byKey: map<string, StoredComponent<P>>, stored: seq<StoredComponent<P>>) {
    && (forall key :: key in byKey ==> byKey[key] in stored && byKey[key].key == key)
    && (forall sc :: sc in stored ==> sc.key in byKey && byKey[sc.key] == sc)
  }

  ghost predicate SnapshotOf<S, E, P>(cs: seq<Component<S, E, P>>, states: seq<S>, stored: seq<StoredComponent<P>>) {
    && |stored| == |cs| == |states|
    && forall i :: 0 <= i < |cs| ==>
         WellFormed(cs[i], stored[i]) && cs[i].snapshot(states[i]) == Some(stored[i].parts[0].payload)
  }

  /** With distinct keys only one stored component can answer to a model. */
  lemma SameStored<P>(stored: seq<StoredComponent<P>>, a: StoredComponent<P>, b: StoredComponent<P>)
    requires DistinctKeys(stored) && a in stored && b in stored && a.key == b.key
    ensures a == b
  {
    var i :| 0 <= i < |stored| && stored[i] == a;
    var j :| 0 <= j < |stored| && stored[j] == b;
    assert !(i < j) && !(j < i);
  }

  lemma RefusedRestore<S, E, P>(c: Component<S, E, P>, s: S, stored: seq<StoredComponent<P>>, payload: P)
    requires DistinctKeys(stored) && Offers(c, stored, payload) && c.restore(s, payload).Rejected?
    ensures !Takes(c, s, stored)
  {
    var a :| a in stored && WellFormed(c, a) && a.parts[0].payload == payload;
    forall b | b in stored && WellFormed(c, b) ensures b == a {
      SameStored(stored, b, a);
    }
  }

  ghost predicate EmptyStates<S, E, P>(cs: seq<Component<S, E, P>>, stored: seq<StoredComponent<P>>, empty: P) {
    && |stored| == |cs|
    && forall k :: 0 <= k < |cs| ==>
         stored[k] == StoredComponent(cs[k].key, cs[k].contract, [Part(STATE_PART_KEY, empty)])
  }

  lemma EmptySet<S, E, P>(cs: seq<Component<S, E, P>>, s: S, stored: seq<StoredComponent<P>>, empty: P, i: nat)
    requires EmptyStates(cs, stored, empty) && DistinctComponents(cs) && i < |cs|
    ensures DistinctKeys(stored)
    ensures Takes(cs[i], s, stored) <==> cs[i].snapshot(s).Some? && cs[i].restore(s, empty).Applied?
    ensures forall t :: Installs(cs[i], s, stored, t) <==> cs[i].restore(s, empty) == Projections.Applied(t)
  {
    assert stored[i] in stored && WellFormed(cs[i], stored[i]);
  }

  // ------------------------------------------------------------------ the stored order does not matter

  lemma RepeatedIsTwoPlaces<T>(s: seq<T>, x: T) returns (i: nat, j: nat)
    requires multiset(s)[x] >= 2
    ensures i < j < |s| && s[i] == x && s[j] == x
  {
    i :| 0 <= i < |s| && s[i] == x;
    var rest := s[..i] + s[i + 1..];
    assert s == s[..i] + [x] + s[i + 1..];
    assert x in multiset(rest);
    j :| 0 <= j < |rest| && rest[j] == x;
    if j < i {
      i, j := j, i;
    } else {
      j := j + 1;
    }
  }

  lemma TwoPlacesRepeat<T>(s: seq<T>, i: nat, j: nat)
    requires i < j < |s| && s[i] == s[j]
    ensures multiset(s)[s[i]] >= 2
  {
    assert s == s[..j] + [s[j]] + s[j + 1..];
    assert s[..j][i] in multiset(s[..j]);
  }

  lemma SameMembers<T>(s: seq<T>, t: seq<T>)
    requires multiset(s) == multiset(t)
    ensures |s| == |t| && forall x :: x in s <==> x in t
  {
    assert |multiset(s)| == |s| && |multiset(t)| == |t|;
    forall x ensures x in s <==> x in t {
      assert x in s <==> x in multiset(s);
      assert x in t <==> x in multiset(t);
    }
  }

  lemma DistinctInAnyOrder<P>(s: seq<StoredComponent<P>>, t: seq<StoredComponent<P>>)
    requires multiset(s) == multiset(t) && DistinctKeys(s)
    ensures DistinctKeys(t)
  {
    SameMembers(s, t);
    forall i, j | 0 <= i < j < |t| ensures t[i].key != t[j].key {
      if t[i].key == t[j].key {
        SameStored(s, t[i], t[j]);
        TwoPlacesRepeat(t, i, j);
        var a, b := RepeatedIsTwoPlaces(s, t[i]);
      }
    }
  }

  /** Whether a stored set is accepted, and what it installs, does not depend on the order it comes in. */
  lemma OrderDoesNotMatter<S, E, P>(cs: seq<Component<S, E, P>>, before: seq<S>, s: seq<StoredComponent<P>>,
                                    t: seq<StoredComponent<P>>)
    requires |before| == |cs| && multiset(s) == multiset(t)
    ensures Acceptable(cs, before, s) <==> Acceptable(cs, before, t)
    ensures forall i, x :: 0 <= i < |cs| ==> (Installs(cs[i], before[i], s, x) <==> Installs(cs[i], before[i], t, x))
  {
    SameMembers(s, t);
    if DistinctKeys(s) {
      DistinctInAnyOrder(s, t);
    }
    if DistinctKeys(t) {
      DistinctInAnyOrder(t, s);
    }
    forall i | 0 <= i < |cs| ensures Takes(cs[i], before[i], s) <==> Takes(cs[i], before[i], t) {
    }
  }

  /** A snapshot of the whole set is accepted by the same set in any state, and installs what it was taken of. */
  lemma SnapshotRestoresAnywhere<S(!new), E, P>(cs: seq<Component<S, E, P>>, taken: seq<S>, held: seq<S>,
                                                stored: seq<StoredComponent<P>>)
    requires DistinctComponents(cs) && FaithfulModels(cs) && |held| == |cs|
    requires SnapshotOf(cs, taken, stored)
    requires forall i :: 0 <= i < |cs| ==> cs[i].snapshot(held[i]).Some?
    ensures Acceptable(cs, held, stored)
    ensures forall i, x :: 0 <= i < |cs| ==> (Installs(cs[i], held[i], stored, x) <==> x == taken[i])
  {
    forall i | 0 <= i < |cs|
      ensures Takes(cs[i], held[i], stored)
      ensures forall x :: Installs(cs[i], held[i], stored, x) <==> x == taken[i]
    {
      assert RestoreUndoesSnapshot(cs[i]);
      assert stored[i] in stored && WellFormed(cs[i], stored[i]);
      forall b | b in stored && WellFormed(cs[i], b) ensures b == stored[i] {
        SameStored(stored, b, stored[i]);
      }
    }
  }

  // ------------------------------------------------------------------ whole runs

  /** The states between the deliveries `ds`, none of which was refused. */
  ghost predicate Run<S, E, P>(cs: seq<Component<S, E, P>>, ds: seq<Delivery<E>>, states: seq<seq<S>>) {
    && |states| == |ds| + 1 && |states[0]| == |cs|
    && forall k :: 0 <= k < |ds| ==> Steps(cs, states[k], ds[k], states[k + 1])
  }

  lemma AloneOneMore<S, E, P>(c: Component<S, E, P>, s: S, ds: seq<Delivery<E>>, d: Delivery<E>)
    ensures Alone(c, s, SeenBy(c, ds + [d])) ==
            var before := Alone(c, s, SeenBy(c, ds));
            if before.None? || !Sees(c, d) then before else Step(c, before.value, d)
  {
    var seen := SeenBy(c, ds);
    assert (ds + [d])[..|ds|] == ds;
    assert seen + [] == seen;
    assert (seen + [d])[..|seen|] == seen;
  }

  /** In the set every model is where it would be alone, on its own subjects. */
  lemma {:induction false} EachAsIfAlone<S, E, P>(cs: seq<Component<S, E, P>>, ds: seq<Delivery<E>>,
                                                  states: seq<seq<S>>, i: nat)
    requires Run(cs, ds, states) && i < |cs|
    ensures |states[|ds|]| == |cs|
    ensures Alone(cs[i], states[0][i], SeenBy(cs[i], ds)) == Some(states[|ds|][i])
  {
    hide Alone, SeenBy, Step, Sees;
    if ds == [] {
      AloneAtFirst(cs[i], states[0][i]);
    } else {
      var n := |ds| - 1;
      EachAsIfAlone(cs, ds[..n], states[..n + 1], i);
      AloneOneMore(cs[i], states[0][i], ds[..n], ds[n]);
      assert ds == ds[..n] + [ds[n]];
      StepsOne(cs, states[n], ds[n], states[n + 1], i);
    }
  }

  lemma AloneAtFirst<S, E, P>(c: Component<S, E, P>, s: S)
    ensures Alone(c, s, SeenBy(c, [])) == Some(s)
  {
  }

  lemma StepsOne<S, E, P>(cs: seq<Component<S, E, P>>, before: seq<S>, d: Delivery<E>, after: seq<S>, i: nat)
    requires Steps(cs, before, d, after) && i < |cs|
    ensures |before| == |after| == |cs|
    ensures if Sees(cs[i], d) then Step(cs[i], before[i], d) == Some(after[i]) else after[i] == before[i]
  {
  }

  /** The set stops at a delivery exactly when some model alone would stop there. */
  lemma SetStopsWhenOneStops<S, E, P>(cs: seq<Component<S, E, P>>, ds: seq<Delivery<E>>, states: seq<seq<S>>,
                                      d: Delivery<E>)
    requires Run(cs, ds, states) && |states[|ds|]| == |cs|
    ensures Refused(cs, states[|ds|], d) <==>
            exists i :: 0 <= i < |cs| && Alone(cs[i], states[0][i], SeenBy(cs[i], ds + [d])).None?
  {
    forall i | 0 <= i < |cs|
      ensures Alone(cs[i], states[0][i], SeenBy(cs[i], ds + [d])).None? <==>
              Sees(cs[i], d) && cs[i].prepare(states[|ds|][i], d.event, d.sequence).Rejected?
    {
      EachAsIfAlone(cs, ds, states, i);
      AloneOneMore(cs[i], states[0][i], ds, d);
    }
  }
}
