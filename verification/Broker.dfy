/**
 Guarded writes (pkg/events/expectation.go, pkg/events/encoded_event_log.go) and the broker that
 decides them: duplicates inside the de-duplication window are acknowledged without being stored,
 and every guard is checked against the committed stream.
 */
module Broker {
  import opened EventStream
  import Subjects

  datatype SubjectGuard = NoSubject | OwnSubject | Filter(filter: string)

  datatype WriteError =
    MissingOCC | InvalidOCC | InvalidRecord | Conflict | DuplicateBatchId | InvalidBoundary | Refused

  /** An optimistic-concurrency guard: a subject guard at `at`, a stream guard at `streamSeq`, or both. */
  datatype Expectation = Expectation(subject: SubjectGuard, at: nat, stream: bool, streamAt: nat) {
    predicate IsZero() {
      subject.NoSubject? && !stream
    }

    /** A filter guard on exactly the record's subject is sent as the shorter own-subject guard. */
    function ForSubject(recordSubject: string): Expectation {
      if subject == Filter(recordSubject) then this.(subject := OwnSubject) else this
    }

    function Validate(): Option<WriteError> {
      if IsZero() then Some(MissingOCC)
      else if subject == Filter("") then Some(InvalidOCC)
      else None
    }

    function Guards(): nat {
      (if subject.NoSubject? then 0 else 1) + (if stream then 1 else 0)
    }
  }

  const NoGuard := Expectation(NoSubject, 0, false, 0)

  function ExpectFilterSeq(filter: string, q: nat): Expectation {
    Expectation(Filter(filter), q, false, 0)
  }

  function ExpectStreamSeq(q: nat): Expectation {
    Expectation(NoSubject, 0, true, q)
  }

  datatype Entry<+D> = Entry(subject: string, id: string, data: D, ttl: int, guard: Expectation)

  /** validateEncodedRecord */
  predicate ValidRecord<D>(e: Entry<D>) {
    e.id != "" && e.ttl >= 0
  }

  /** The stream and the record IDs that are still inside the de-duplication window. */
  datatype Store<+D> = Store(stream: Stream<D>, window: map<string, nat>)

  /** Sequence of the last retained record on exactly `subject`. */
  function LastOn<D>(stream: Stream<D>, subject: string, n: nat): (q: nat)
    requires n <= stream.LastSeq()
    ensures q <= n && (q == 0 || (stream.Retained(q) && stream.At(q).subject == subject))
    ensures forall r: nat :: q < r <= n && stream.Retained(r) ==> stream.At(r).subject != subject
  {
    if n == 0 then 0
    else if stream.Retained(n) && stream.At(n).subject == subject then n
    else LastOn(stream, subject, n - 1)
  }

  /** The broker's decision on the guards of a record on `subject`. */
  predicate Passes<D>(stream: Stream<D>, subject: string, e: Expectation) {
    && (match e.subject
        case NoSubject => true
        case OwnSubject => LastOn(stream, subject, stream.LastSeq()) == e.at
        case Filter(filter) => stream.LastMatch(filter) == e.at)
    && (e.stream ==> stream.LastSeq() == e.streamAt)
  }

  /** Rewriting a filter guard on the record's own subject never changes the broker's decision. */
  lemma ForSubjectDecidesTheSame<D>(stream: Stream<D>, subject: string, e: Expectation)
    requires Subjects.Literal(subject)
    ensures Passes(stream, subject, e.ForSubject(subject)) == Passes(stream, subject, e)
  {
    if e.subject == Filter(subject) {
      var own, all := LastOn(stream, subject, stream.LastSeq()), stream.LastMatch(subject);
      forall q: nat | stream.Stored(q)
        ensures Subjects.Matches(subject, stream.At(q).subject) <==> stream.At(q).subject == subject
      {
        Subjects.LiteralMatchesOnlyItself(subject, stream.At(q).subject);
      }
      assert own <= all && all <= own;
    }
  }

  /** For a subject that is not literal the two guards can decide differently on some stream. */
  lemma RewriteNeedsLiteral(subject: string) returns (stream: Stream<int>, e: Expectation)
    requires subject != "" && !Subjects.Literal(subject)
    ensures Passes(stream, subject, e.ForSubject(subject)) != Passes(stream, subject, e)
  {
    Subjects.LiteralIsExact(subject);
    var other :| Subjects.Matches(subject, other) != (subject == other);
    stream := Stream([Message(other, "id", 0)], {});
    e := ExpectFilterSeq(subject, if Subjects.Matches(subject, other) then 1 else 0);
    assert stream.LastMatchUpTo(subject, 0) == 0;
    assert LastOn(stream, subject, 0) == 0;
    assert LastOn(stream, subject, 1) == (if other == subject then 1 else 0);
  }

  // ------------------------------------------------------------------ writes

  function Stored<D>(entries: seq<Entry<D>>): (ms: seq<Message<D>>)
    ensures |ms| == |entries|
    ensures forall i :: 0 <= i < |entries| ==> ms[i] == Message(entries[i].subject, entries[i].id, entries[i].data)
  {
    seq(|entries|, i requires 0 <= i < |entries| => Message(entries[i].subject, entries[i].id, entries[i].data))
  }

  /** The window after the records `entries`, whose first sequence is `first`. */
  function Remember<D>(window: map<string, nat>, entries: seq<Entry<D>>, first: nat): (r: map<string, nat>)
    ensures forall id :: id in r <==> id in window || exists i :: 0 <= i < |entries| && entries[i].id == id
  {
    if entries == [] then window
    else Remember(window, entries[..|entries| - 1], first)[entries[|entries| - 1].id := first + |entries| - 1]
  }

  /** The store after `entries` landed adjacently at the tail. */
  function Append<D>(store: Store<D>, entries: seq<Entry<D>>): (r: Store<D>)
    ensures r.stream.log == store.stream.log + Stored(entries) && r.stream.deleted == store.stream.deleted
    ensures forall id :: id in r.window <==> id in store.window || exists i :: 0 <= i < |entries| && entries[i].id == id
  {
    Store(Stream(store.stream.log + Stored(entries), store.stream.deleted),
          Remember(store.window, entries, store.stream.LastSeq() + 1))
  }

  datatype Ack<+T> = Acked(value: T) | Failed(error: WriteError)

  datatype Receipt = Receipt(sequence: nat, duplicate: bool)

  /** What the broker does with one record. */
  function Publish<D>(store: Store<D>, e: Entry<D>, guard: Expectation): (Store<D>, Ack<Receipt>) {
    if e.id in store.window then (store, Acked(Receipt(store.window[e.id], true)))
    else if !Passes(store.stream, e.subject, guard) then (store, Failed(Conflict))
    else (Append(store, [e]), Acked(Receipt(store.stream.LastSeq() + 1, false)))
  }

  predicate FreshIds<D>(store: Store<D>, entries: seq<Entry<D>>) {
    && (forall i :: 0 <= i < |entries| ==> entries[i].id !in store.window)
    && (forall i, j :: 0 <= i < j < |entries| ==> entries[i].id != entries[j].id)
  }

  predicate AllPass<D>(stream: Stream<D>, entries: seq<Entry<D>>) {
    forall i :: 0 <= i < |entries| ==>
      Passes(stream, entries[i].subject, entries[i].guard.ForSubject(entries[i].subject))
  }

  /** What the broker does with an atomic batch; guards are evaluated against the state before the batch. */
  function PublishBatch<D>(store: Store<D>, entries: seq<Entry<D>>): (Store<D>, Ack<nat>) {
    if !FreshIds(store, entries) then (store, Failed(DuplicateBatchId))
    else if !AllPass(store.stream, entries) then (store, Failed(Conflict))
    else (Append(store, entries), Acked(store.stream.LastSeq() + |entries|))
  }

  /** Why appendBatch refuses a batch before it is sent. */
  predicate BatchRefused<D>(entries: seq<Entry<D>>, requireGuard: bool) {
    || (exists i :: 0 <= i < |entries| && !ValidRecord(entries[i]))
    || (exists i :: 0 <= i < |entries| && entries[i].guard.subject == Filter(""))
    || (exists i :: 0 < i < |entries| && entries[i].guard.stream)
    || (requireGuard && forall i :: 0 <= i < |entries| ==> entries[i].guard.IsZero())
  }

  class EventLog<D> {
    var store: Store<D>

    constructor (initial: Store<D>)
      ensures store == initial
    {
      store := initial;
    }

    /** publish */
    method PublishOne(e: Entry<D>, guard: Expectation) returns (ack: Ack<Receipt>)
      modifies this
      ensures (store, ack) == Publish(old(store), e, guard.ForSubject(e.subject))
    {
      var (next, answer) := Publish(store, e, guard.ForSubject(e.subject));
      store, ack := next, answer;
    }

    /** AppendAt: a write without a guard is refused. */
    method AppendAt(e: Entry<D>, guard: Expectation) returns (ack: Ack<Receipt>)
      modifies this
      ensures (!ValidRecord(e) || guard.Validate().Some?) <==> ack.Failed? && ack.error != Conflict
      ensures e.id == "" || e.ttl < 0 || (guard.subject.NoSubject? && !guard.stream) ==> ack.Failed?
      ensures ack.Failed? ==> store == old(store)
      ensures ValidRecord(e) && guard.Validate().None? ==>
                (store, ack) == Publish(old(store), e, guard.ForSubject(e.subject))
    {
      if !ValidRecord(e) {
        return Failed(InvalidRecord);
      }
      match guard.Validate()
      case Some(error) => return Failed(error);
      case None => ack := PublishOne(e, guard);
    }

    /** The checks appendBatch makes before anything is sent. */
    method CheckBatch(entries: seq<Entry<D>>, requireGuard: bool) returns (refusal: Option<WriteError>)
      ensures refusal.Some? <==> BatchRefused(entries, requireGuard)
      ensures refusal.Some? ==> refusal.value in {InvalidRecord, InvalidOCC, MissingOCC}
      ensures (exists i :: 0 <= i < |entries| && (entries[i].id == "" || entries[i].ttl < 0)) ==> refusal.Some?
    {
      var guards := 0;
      for i := 0 to |entries|
        invariant forall k :: 0 <= k < i ==> ValidRecord(entries[k]) && entries[k].guard.subject != Filter("")
        invariant forall k :: 0 < k < i ==> !entries[k].guard.stream
        invariant guards == 0 <==> forall k :: 0 <= k < i ==> entries[k].guard.IsZero()
        invariant guards >= 0
      {
        if !ValidRecord(entries[i]) {
          return Some(InvalidRecord);
        }
        if !entries[i].guard.IsZero() {
          match entries[i].guard.Validate()
          case Some(error) => return Some(error);
          case None =>
          if entries[i].guard.stream && i != 0 {
            return Some(InvalidOCC);
          }
          guards := guards + entries[i].guard.Guards();
        }
      }
      if guards == 0 && requireGuard {
        return Some(MissingOCC);
      }
      return None;
    }

    /** The sequences of a batch, counted back from the sequence of its commit message. */
    method BatchSequences(commitSeq: nat, n: nat) returns (seqs: seq<nat>)
      requires n <= commitSeq
      ensures |seqs| == n && forall k :: 0 <= k < n ==> seqs[k] == commitSeq - n + k + 1
    {
      seqs := [];
      for i := 0 to n
        invariant |seqs| == i
        invariant forall k :: 0 <= k < i ==> seqs[k] == commitSeq - n + k + 1
      {
        seqs := seqs + [commitSeq - (n - 1 - i)];
      }
    }

    /**
     appendBatch: everything lands adjacently or nothing does, and the returned sequences are the
     ones the records have in the stream.
     */
    method AppendBatch(entries: seq<Entry<D>>, requireGuard: bool) returns (ack: Ack<seq<nat>>)
      requires |entries| > 0
      modifies this
      ensures BatchRefused(entries, requireGuard) ==>
                store == old(store) && ack.Failed? && ack.error in {InvalidRecord, InvalidOCC, MissingOCC}
      ensures !BatchRefused(entries, requireGuard) ==>
                match PublishBatch(old(store), entries).1
                case Failed(error) => store == old(store) && ack == Failed(error)
                case Acked(_) => ack.Acked? && store == Append(old(store), entries)
      ensures ack.Acked? ==> |ack.value| == |entries| <= store.stream.LastSeq() && forall i :: 0 <= i < |entries| ==>
                && ack.value[i] == store.stream.LastSeq() - |entries| + i + 1
                && store.stream.log[ack.value[i] - 1] == Message(entries[i].subject, entries[i].id, entries[i].data)
    {
      var refusal := CheckBatch(entries, requireGuard);
      if refusal.Some? {
        return Failed(refusal.value);
      }
      var (next, answer) := PublishBatch(store, entries);
      match answer
      case Failed(error) => return Failed(error);
      case Acked(commitSeq) =>
        store := next;
        var seqs := BatchSequences(commitSeq, |entries|);
        return Acked(seqs);
    }
  }
}
