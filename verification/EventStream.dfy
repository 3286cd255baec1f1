/**
 The broker's stream, reduced to what the event framework relies on: sequence numbers are dense
 and never reused, records are appended at the tail, and deletion only hides a record.
 */
module EventStream {
  import Subjects

  datatype Option<+T> = None | Some(value: T)

  datatype Message<+D> = Message(subject: string, id: string, data: D)

  /** `log[i]` was stored with sequence `i + 1`; `deleted` holds the sequences no longer retained. */
  datatype Stream<+D> = Stream(log: seq<Message<D>>, deleted: set<nat>) {
    function LastSeq(): nat {
      |log|
    }

    predicate Stored(q: nat) {
      1 <= q <= |log|
    }

    predicate Retained(q: nat) {
      Stored(q) && q !in deleted
    }

    function At(q: nat): Message<D>
      requires Stored(q)
    {
      log[q - 1]
    }

    /** Sequence `q` is retained and its subject is selected by one of `filters`. */
    predicate Selected(filters: seq<string>, q: nat) {
      Retained(q) && Subjects.MatchesAny(filters, At(q).subject)
    }

    /** GetLastMsgForSubject: the highest retained sequence that `filter` selects, or 0. */
    function LastMatch(filter: string): (q: nat)
      ensures q == 0 || (Retained(q) && Subjects.Matches(filter, At(q).subject))
      ensures forall r: nat :: q < r && Retained(r) ==> !Subjects.Matches(filter, At(r).subject)
    {
      LastMatchUpTo(filter, |log|)
    }

    function LastMatchUpTo(filter: string, n: nat): (q: nat)
      requires n <= |log|
      ensures q <= n
      ensures q == 0 || (Retained(q) && Subjects.Matches(filter, At(q).subject))
      ensures forall r: nat :: q < r <= n && Retained(r) ==> !Subjects.Matches(filter, At(r).subject)
    {
      if n == 0 then 0
      else if Retained(n) && Subjects.Matches(filter, At(n).subject) then n
      else LastMatchUpTo(filter, n - 1)
    }
  }

  /** `newer` is `older` after some appends and deletions. */
  predicate Extends<D(==)>(older: Stream<D>, newer: Stream<D>) {
    older.log <= newer.log && older.deleted <= newer.deleted
  }

  /**
   `target` is a correct answer to "last record selected by `filters`" when the lookups ran while
   the stream grew from `first` to `last`: nothing that was there from beginning to end is above it.
   */
  predicate TargetBetween<D>(first: nat, last: Stream<D>, filters: seq<string>, target: nat) {
    forall q: nat :: q <= first && last.Selected(filters, q) ==> q <= target
  }

  /** One lookup, on the stream as it is at its moment. */
  function Found<D>(filters: seq<string>, views: seq<Stream<D>>, i: nat): nat
    requires i < |views| == |filters|
  {
    views[i].LastMatch(filters[i])
  }

  /**
   targetForSubjects: one lookup for every filter, each at its own moment, `views[i]` being the
   stream that lookup `i` saw; the answer is the maximum.
   */
  method TargetForSubjects<D(==)>(filters: seq<string>, views: seq<Stream<D>>, ghost first: nat, ghost last: Stream<D>)
    returns (target: nat)
    requires |views| == |filters|
    requires forall i :: 0 <= i < |views| ==> first <= |views[i].log| && Extends(views[i], last)
    ensures TargetBetween(first, last, filters, target)
    ensures target != 0 ==> exists i :: 0 <= i < |views| && views[i].Selected(filters, target)
  {
    hide Extends, TargetBetween, Stream.Selected, Found;
    target := 0;
    ghost var seen := 0;
    for i := 0 to |filters|
      invariant forall k :: 0 <= k < i ==> Found(filters, views, k) <= target
      invariant target != 0 ==> 0 <= seen < i && target == Found(filters, views, seen)
    {
      var found := Found(filters, views, i);
      if found > target {
        target := found;
        seen := i;
      }
    }
    if target != 0 {
      FoundIsSelected(filters, views, seen);
    }
    LookupsBound(filters, views, first, last, target);
  }

  lemma FoundIsSelected<D>(filters: seq<string>, views: seq<Stream<D>>, i: nat)
    requires i < |views| == |filters| && Found(filters, views, i) != 0
    ensures views[i].Selected(filters, Found(filters, views, i))
  {
    assert filters[i] in filters;
  }

  lemma LookupsBound<D>(filters: seq<string>, views: seq<Stream<D>>, first: nat, last: Stream<D>, target: nat)
    requires |views| == |filters|
    requires forall i :: 0 <= i < |views| ==> first <= |views[i].log| && Extends(views[i], last)
    requires forall i :: 0 <= i < |views| ==> Found(filters, views, i) <= target
    ensures TargetBetween(first, last, filters, target)
  {
    forall q: nat | q <= first && last.Selected(filters, q)
      ensures q <= target
    {
      var f :| f in filters && Subjects.Matches(f, last.At(q).subject);
      var i :| 0 <= i < |filters| && filters[i] == f;
      assert Extends(views[i], last);
      assert views[i].log[q - 1] == last.log[q - 1];
      assert views[i].Retained(q) && Found(filters, views, i) <= target;
    }
  }
}
