/**
 The callers blocked in waitForSeq (pkg/events/projector.go): a sorted list from which advance
 releases a prefix, fail releases everything, and a cancelled caller removes itself.
 */
module Waiters {
  datatype Waiter = Waiter(id: nat, sequence: nat)

  /** The end of the waiters, from `from` on, that `last` has reached. */
  function Reached(waiters: seq<Waiter>, from: nat, last: nat): (n: nat)
    requires from <= |waiters|
    ensures from <= n <= |waiters|
    ensures forall k :: from <= k < n ==> waiters[k].sequence <= last
    ensures n < |waiters| ==> waiters[n].sequence > last
    decreases |waiters| - from
  {
    if from == |waiters| || waiters[from].sequence > last then from else Reached(waiters, from + 1, last)
  }

  /** The first waiter that does not wait for less than `q`. */
  function InsertionPoint(waiters: seq<Waiter>, from: nat, q: nat): (i: nat)
    requires from <= |waiters|
    ensures from <= i <= |waiters|
    ensures forall k :: from <= k < i ==> waiters[k].sequence < q
    ensures i < |waiters| ==> waiters[i].sequence >= q
    decreases |waiters| - from
  {
    if from == |waiters| || waiters[from].sequence >= q then from else InsertionPoint(waiters, from + 1, q)
  }

  /** The index of waiter `id`, or the length when it is not there. */
  function Find(waiters: seq<Waiter>, from: nat, id: nat): (i: nat)
    requires from <= |waiters|
    ensures from <= i <= |waiters|
    ensures forall k :: from <= k < i ==> waiters[k].id != id
    ensures i < |waiters| ==> waiters[i].id == id
    decreases |waiters| - from
  {
    if from == |waiters| || waiters[from].id == id then from else Find(waiters, from + 1, id)
  }

  /** Every waiter that did not cancel: first the `released` ones, then the blocked ones by sequence. */
  datatype Roster = Roster(all: seq<Waiter>, released: nat, nextId: nat) {
    predicate Shaped() {
      released <= |all|
    }

    function Blocked(): seq<Waiter>
      requires Shaped()
    {
      all[released..]
    }

    /** advance */
    function Release(last: nat): (r: Roster)
      requires Shaped()
      ensures r.Shaped()
    {
      Roster(all, Reached(all, released, last), nextId)
    }

    /** fail */
    function ReleaseAll(): (r: Roster)
      ensures r.Shaped()
    {
      Roster(all, |all|, nextId)
    }

    /** The blocking part of waitForSeq. */
    function Join(q: nat): (r: Roster)
      requires Shaped()
      ensures r.Shaped()
    {
      var i := InsertionPoint(all, released, q);
      Roster(all[..i] + [Waiter(nextId, q)] + all[i..], released, nextId + 1)
    }

    /** A cancelled caller drops its waiter unless it was released before. */
    function Drop(id: nat): (r: Roster)
      requires Shaped()
      ensures r.Shaped()
    {
      var i := Find(all, released, id);
      if i == |all| then this else Roster(all[..i] + all[i + 1..], released, nextId)
    }
  }

  /**
   Blocked waiters are sorted and not reached yet, a released waiter was reached or released by a
   failure, and no waiter is listed twice.
   */
  ghost predicate RosterOk(r: Roster, last: nat, failed: bool) {
    && r.Shaped()
    && (forall i, j {:trigger r.all[i].sequence, r.all[j].sequence} :: r.released <= i < j < |r.all| ==>
         r.all[i].sequence <= r.all[j].sequence)
    && (forall i :: r.released <= i < |r.all| ==> r.all[i].sequence > last)
    && (forall i :: 0 <= i < r.released ==> r.all[i].sequence <= last || failed)
    && (forall i :: 0 <= i < |r.all| ==> r.all[i].id < r.nextId)
    && (forall i, j {:trigger r.all[i].id, r.all[j].id} :: 0 <= i < j < |r.all| ==> r.all[i].id != r.all[j].id)
  }

  /** Waiters are only ever released: nobody joins, leaves or is blocked again. */
  ghost predicate OnlyReleases(a: Roster, b: Roster) {
    a.all == b.all && a.released <= b.released && a.nextId == b.nextId
  }

  lemma ReleaseKeeps(r: Roster, last: nat, failed: bool, newLast: nat)
    requires RosterOk(r, last, failed) && last <= newLast
    ensures RosterOk(r.Release(newLast), newLast, failed) && OnlyReleases(r, r.Release(newLast))
  {
  }

  lemma ReleaseAllKeeps(r: Roster, last: nat, failed: bool)
    requires RosterOk(r, last, failed)
    ensures RosterOk(r.ReleaseAll(), last, true) && OnlyReleases(r, r.ReleaseAll())
  {
  }

  lemma JoinAt(r: Roster, q: nat)
    requires r.Shaped()
    ensures var i := InsertionPoint(r.all, r.released, q);
            var joined := r.Join(q).all;
            && |joined| == |r.all| + 1
            && joined[i] == Waiter(r.nextId, q)
            && (forall k :: 0 <= k < i ==> joined[k] == r.all[k])
            && (forall k :: i < k < |joined| ==> joined[k] == r.all[k - 1])
  {
  }

  lemma InsertedSorted(r: Roster, last: nat, failed: bool, q: nat, i: nat, joined: seq<Waiter>, a: nat, b: nat)
    requires RosterOk(r, last, failed) && q > last && r.released <= i <= |r.all| && |joined| == |r.all| + 1
    requires joined[i] == Waiter(r.nextId, q)
    requires forall k :: 0 <= k < i ==> joined[k] == r.all[k]
    requires forall k :: i < k < |joined| ==> joined[k] == r.all[k - 1]
    requires forall k :: r.released <= k < i ==> r.all[k].sequence < q
    requires i < |r.all| ==> r.all[i].sequence >= q
    requires r.released <= a < b < |joined|
    ensures joined[a].sequence <= joined[b].sequence
  {
  }

  lemma InsertedDistinct(r: Roster, last: nat, failed: bool, q: nat, i: nat, joined: seq<Waiter>, a: nat, b: nat)
    requires RosterOk(r, last, failed) && q > last && r.released <= i <= |r.all| && |joined| == |r.all| + 1
    requires joined[i] == Waiter(r.nextId, q)
    requires forall k :: 0 <= k < i ==> joined[k] == r.all[k]
    requires forall k :: i < k < |joined| ==> joined[k] == r.all[k - 1]
    requires forall k :: r.released <= k < i ==> r.all[k].sequence < q
    requires i < |r.all| ==> r.all[i].sequence >= q
    requires a < b < |joined|
    ensures joined[a].id != joined[b].id
  {
  }

  lemma InsertedOk(r: Roster, last: nat, failed: bool, q: nat, i: nat, joined: seq<Waiter>)
    requires RosterOk(r, last, failed) && q > last && r.released <= i <= |r.all| && |joined| == |r.all| + 1
    requires joined[i] == Waiter(r.nextId, q)
    requires forall k :: 0 <= k < i ==> joined[k] == r.all[k]
    requires forall k :: i < k < |joined| ==> joined[k] == r.all[k - 1]
    requires forall k :: r.released <= k < i ==> r.all[k].sequence < q
    requires i < |r.all| ==> r.all[i].sequence >= q
    ensures RosterOk(Roster(joined, r.released, r.nextId + 1), last, failed)
  {
    forall a, b | r.released <= a < b < |joined| ensures joined[a].sequence <= joined[b].sequence {
      InsertedSorted(r, last, failed, q, i, joined, a, b);
    }
    forall a, b | 0 <= a < b < |joined| ensures joined[a].id != joined[b].id {
      InsertedDistinct(r, last, failed, q, i, joined, a, b);
    }
  }

  lemma JoinKeeps(r: Roster, last: nat, failed: bool, q: nat)
    requires RosterOk(r, last, failed) && q > last
    ensures RosterOk(r.Join(q), last, failed) && r.Join(q).released == r.released
    ensures Waiter(r.nextId, q) in r.Join(q).Blocked()
  {
    var i := InsertionPoint(r.all, r.released, q);
    JoinAt(r, q);
    InsertedOk(r, last, failed, q, i, r.Join(q).all);
    assert r.Join(q).Blocked()[i - r.released] == Waiter(r.nextId, q);
  }

  lemma DropAt(r: Roster, id: nat)
    requires r.Shaped() && Find(r.all, r.released, id) < |r.all|
    ensures var i := Find(r.all, r.released, id);
            var left := r.Drop(id).all;
            && |left| == |r.all| - 1
            && (forall k :: 0 <= k < i ==> left[k] == r.all[k])
            && (forall k :: i <= k < |left| ==> left[k] == r.all[k + 1])
  {
  }

  lemma RemovedOk(r: Roster, last: nat, failed: bool, i: nat, left: seq<Waiter>)
    requires RosterOk(r, last, failed) && r.released <= i < |r.all| && |left| == |r.all| - 1
    requires forall k :: 0 <= k < i ==> left[k] == r.all[k]
    requires forall k :: i <= k < |left| ==> left[k] == r.all[k + 1]
    ensures RosterOk(Roster(left, r.released, r.nextId), last, failed)
    ensures forall k :: 0 <= k < |left| ==> left[k].id != r.all[i].id
  {
  }

  lemma DropKeeps(r: Roster, last: nat, failed: bool, id: nat)
    requires RosterOk(r, last, failed)
    ensures RosterOk(r.Drop(id), last, failed) && r.Drop(id).released == r.released
    ensures forall k :: r.released <= k < |r.Drop(id).all| ==> r.Drop(id).all[k].id != id
  {
    var i := Find(r.all, r.released, id);
    if i < |r.all| {
      DropAt(r, id);
      RemovedOk(r, last, failed, i, r.Drop(id).all);
    }
  }
}
