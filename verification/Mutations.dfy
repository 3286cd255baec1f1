/**
 The mutation loop (pkg/events/mutation.go): capture a tail, decide, publish guarded by that tail,
 and start over when somebody else got in between.
 */
module Mutations {
  import opened EventStream
  import opened Broker
  import Subjects

  /** `NoBoundary` is the zero value that callers must not use. */
  datatype Boundary = AtSubject(filter: string) | AtStreamTail | Unguarded | NoBoundary

  /** White space as strings.TrimSpace understands it. */
  predicate IsSpace(c: char) {
    || '\t' <= c <= '\r' || c == ' ' || c == '\U{0085}' || c == '\U{00A0}' || c == '\U{1680}'
    || '\U{2000}' <= c <= '\U{200A}' || c == '\U{2028}' || c == '\U{2029}' || c == '\U{202F}' || c == '\U{205F}'
         || c == '\U{3000}'
  }

  predicate ValidBoundary(b: Boundary) {
    match b
    case AtSubject(filter) => exists i :: 0 <= i < |filter| && !IsSpace(filter[i])
    case AtStreamTail => true
    case Unguarded => true
    case NoBoundary => false
  }

  /** The records whose commit must not slip in between a decision and its own commit. */
  predicate Covers(b: Boundary, subject: string) {
    match b
    case AtSubject(filter) => Subjects.Matches(filter, subject)
    case AtStreamTail => true
    case _ => false
  }

  /** mutationBoundarySeq */
  function Tail<D>(b: Boundary, stream: Stream<D>): nat {
    match b
    case AtSubject(filter) => stream.LastMatch(filter)
    case AtStreamTail => stream.LastSeq()
    case _ => 0
  }

  /** MutationBoundary.expectation */
  function Guard(b: Boundary, tail: nat): Expectation {
    match b
    case AtStreamTail => ExpectStreamSeq(tail)
    case AtSubject(filter) => ExpectFilterSeq(filter, tail)
    case _ => NoGuard
  }

  /** A record must be published on a literal subject. */
  predicate LiteralSubjects<D>(entries: seq<Entry<D>>) {
    forall i :: 0 <= i < |entries| ==> Subjects.Literal(entries[i].subject)
  }

  datatype Decision<+D> = Entries(entries: seq<Entry<D>>) | Abort

  datatype Commit = Commit(sequences: seq<nat>, committed: bool)

  /** The entries of a decision as they are sent: only the first carries the boundary's guard. */
  function Guarded<D>(entries: seq<Entry<D>>, b: Boundary, tail: nat): (r: seq<Entry<D>>)
    requires |entries| > 0
    ensures |r| == |entries| && Stored(r) == Stored(entries)
    ensures forall i :: 0 <= i < |entries| ==>
              r[i] == entries[i].(guard := if i == 0 then Guard(b, tail) else NoGuard)
  {
    seq(|entries|, i requires 0 <= i < |entries| =>
      entries[i].(guard := if i == 0 then Guard(b, tail) else NoGuard))
  }

  /** The guard of a boundary passes exactly when the boundary's tail has not moved. */
  lemma GuardIsTail<D>(stream: Stream<D>, subject: string, b: Boundary, tail: nat)
    requires Subjects.Literal(subject)
    ensures Passes(stream, subject, Guard(b, tail).ForSubject(subject)) <==>
              b.Unguarded? || b.NoBoundary? || Tail(b, stream) == tail
  {
    ForSubjectDecidesTheSame(stream, subject, Guard(b, tail));
  }

  /** Exactly when a decision made against `tail` becomes part of the stream. */
  predicate Commits<D>(store: Store<D>, b: Boundary, tail: nat, entries: seq<Entry<D>>) {
    && |entries| > 0
    && (forall i :: 0 <= i < |entries| ==> ValidRecord(entries[i]))
    && FreshIds(store, entries)
    && (b.Unguarded? || Tail(b, store.stream) == tail)
  }

  /** What the broker makes of a decision that is one record. */
  lemma SingleCommits<D>(store: Store<D>, b: Boundary, tail: nat, entry: Entry<D>)
    requires Subjects.Literal(entry.subject) && ValidBoundary(b) && ValidRecord(entry)
    ensures var published := Publish(store, entry, Guard(b, tail).ForSubject(entry.subject));
            if entry.id in store.window then published == (store, Acked(Receipt(store.window[entry.id], true)))
              && !Commits(store, b, tail, [entry])
            else if Commits(store, b, tail, [entry])
              then published == (Append(store, [entry]), Acked(Receipt(store.stream.LastSeq() + 1, false)))
            else published == (store, Failed(Conflict)) && !b.Unguarded? && Tail(b, store.stream) != tail
  {
    hide Passes, Guard, Append, Tail, ValidRecord;
    GuardIsTail(store.stream, entry.subject, b, tail);
    assert [entry][0] == entry;
  }

  /** The broker would never store this, whatever the boundary's tail. */
  predicate Unfit<D>(store: Store<D>, entries: seq<Entry<D>>) {
    (exists i :: 0 <= i < |entries| && !ValidRecord(entries[i])) || (|entries| > 1 && !FreshIds(store, entries))
  }

  /** The boundary's tail is no longer the captured one. */
  predicate Moved<D>(store: Store<D>, b: Boundary, tail: nat) {
    !b.Unguarded? && Tail(b, store.stream) != tail
  }

  method PublishSingle<D>(log: EventLog<D>, b: Boundary, tail: nat, entry: Entry<D>) returns (ack: Ack<Commit>)
    requires Subjects.Literal(entry.subject) && ValidBoundary(b)
    modifies log
    ensures ack.Acked? && ack.value.committed <==> Commits(old(log.store), b, tail, [entry])
    ensures log.store == if Commits(old(log.store), b, tail, [entry]) then Append(old(log.store), [entry])
              else old(log.store)
    ensures ack.Acked? && ack.value.committed ==> ack.value.sequences == [log.store.stream.LastSeq()]
    ensures ack == Failed(Conflict) <==>
              ValidRecord(entry) && entry.id !in old(log.store.window) && Moved(old(log.store), b, tail)
    ensures ack.Acked? && !ack.value.committed <==> ValidRecord(entry) && entry.id in old(log.store.window)
    ensures ack.Acked? && !ack.value.committed ==> ack.value.sequences == [old(log.store.window)[entry.id]]
    ensures ack == Failed(InvalidRecord) <==> !ValidRecord(entry)
  {
    hide Publish, Guard, Tail;
    assert [entry][0] == entry;
    if !ValidRecord(entry) {
      return Failed(InvalidRecord);
    }
    SingleCommits(log.store, b, tail, entry);
    var published := log.PublishOne(entry, Guard(b, tail));
    match published
    case Failed(error) => return Failed(error);
    case Acked(receipt) => return Acked(Commit([receipt.sequence], !receipt.duplicate));
  }

  method PublishSeveral<D>(log: EventLog<D>, b: Boundary, tail: nat, entries: seq<Entry<D>>) returns (ack: Ack<Commit>)
    requires |entries| > 1 && LiteralSubjects(entries) && ValidBoundary(b)
    modifies log
    ensures ack.Acked? <==> Commits(old(log.store), b, tail, entries)
    ensures log.store == if Commits(old(log.store), b, tail, entries) then Append(old(log.store), entries)
              else old(log.store)
    ensures ack.Acked? ==> ack.value.committed && Landed(log.store, ack.value.sequences, entries)
    ensures ack == Failed(Conflict) <==> !Unfit(old(log.store), entries) && Moved(old(log.store), b, tail)
    ensures ack.Failed? ==> ack.error !in {Refused, InvalidBoundary}
  {
    hide Commits, Guarded, FreshIds, AllPass, Tail, BatchRefused, PublishBatch, Append, LiteralSubjects;
    var batch := Guarded(entries, b, tail);
    BatchCommits(log.store, entries, b, tail);
    var appended := log.AppendBatch(batch, !b.Unguarded?);
    match appended
    case Failed(error) => return Failed(error);
    case Acked(sequences) =>
      SentIsLanded(log.store, sequences, batch, entries);
      return Acked(Commit(sequences, true));
  }

  lemma SentIsLanded<D>(store: Store<D>, sequences: seq<nat>, batch: seq<Entry<D>>, entries: seq<Entry<D>>)
    requires Landed(store, sequences, batch) && |batch| == |entries|
    requires forall i :: 0 <= i < |batch| ==>
               batch[i].subject == entries[i].subject && batch[i].id == entries[i].id
                 && batch[i].data == entries[i].data
    ensures Landed(store, sequences, entries)
  {
  }

  /** The batch that is sent is stored exactly when the decision commits, and stores the same. */
  lemma BatchCommits<D>(store: Store<D>, entries: seq<Entry<D>>, b: Boundary, tail: nat)
    requires |entries| > 1 && LiteralSubjects(entries) && ValidBoundary(b)
    ensures var batch := Guarded(entries, b, tail);
            && (Commits(store, b, tail, entries) <==>
                 !BatchRefused(batch, !b.Unguarded?) && PublishBatch(store, batch).1.Acked?)
            && Append(store, batch) == Append(store, entries)
            && (!BatchRefused(batch, !b.Unguarded?) && PublishBatch(store, batch).1 == Failed(Conflict) <==>
                 !Unfit(store, entries) && Moved(store, b, tail))
            && (PublishBatch(store, batch).1.Failed? ==>
                  PublishBatch(store, batch).1.error in {DuplicateBatchId, Conflict})
            && |batch| == |entries|
            && forall i :: 0 <= i < |batch| ==>
                 batch[i].subject == entries[i].subject && batch[i].id == entries[i].id
                   && batch[i].data == entries[i].data
  {
    BatchDecision(store, entries, b, tail);
    SameIds(store, entries, Guarded(entries, b, tail));
  }

  /** publishMutation: one record goes out singly, several as an atomic batch. */
  method PublishMutation<D>(log: EventLog<D>, b: Boundary, tail: nat, entries: seq<Entry<D>>) returns (ack: Ack<Commit>)
    requires |entries| > 0 && LiteralSubjects(entries) && ValidBoundary(b)
    modifies log
    ensures ack.Acked? && ack.value.committed <==> Commits(old(log.store), b, tail, entries)
    ensures log.store == if Commits(old(log.store), b, tail, entries) then Append(old(log.store), entries)
              else old(log.store)
    ensures ack.Acked? && ack.value.committed ==> Landed(log.store, ack.value.sequences, entries)
    ensures ack == Failed(Conflict) <==>
              !Unfit(old(log.store), entries) && FreshIds(old(log.store), entries) && Moved(old(log.store), b, tail)
    ensures ack.Failed? && ack.error != Conflict <==> Unfit(old(log.store), entries)
    ensures ack.Failed? ==> ack.error !in {Refused, InvalidBoundary}
    ensures ack.Acked? && !ack.value.committed <==>
              !Unfit(old(log.store), entries) && !FreshIds(old(log.store), entries)
    ensures ack.Acked? && !ack.value.committed ==> Known(old(log.store), entries, ack.value.sequences)
    ensures (exists i :: 0 <= i < |entries| && (entries[i].id == "" || entries[i].ttl < 0)) ==> ack.Failed?
  {
    if |entries| == 1 {
      assert entries == [entries[0]];
      ack := PublishSingle(log, b, tail, entries[0]);
    } else {
      ack := PublishSeveral(log, b, tail, entries);
    }
  }

  lemma BatchDecision<D>(store: Store<D>, entries: seq<Entry<D>>, b: Boundary, tail: nat)
    requires |entries| > 1 && LiteralSubjects(entries) && ValidBoundary(b)
    ensures var batch := Guarded(entries, b, tail);
            && (BatchRefused(batch, !b.Unguarded?) <==> exists i :: 0 <= i < |entries| && !ValidRecord(entries[i]))
            && FreshIds(store, batch) == FreshIds(store, entries)
            && (AllPass(store.stream, batch) <==> b.Unguarded? || Tail(b, store.stream) == tail)
  {
    var batch := Guarded(entries, b, tail);
    GuardIsTail(store.stream, entries[0].subject, b, tail);
    OnlyFirstGuards(store.stream, entries, b, tail);
    assert forall i :: 0 <= i < |entries| ==>
             ValidRecord(batch[i]) == ValidRecord(entries[i]) && batch[i].id == entries[i].id;
    assert b.Unguarded? || !batch[0].guard.IsZero();
  }

  /** The decided records are stored at `sequences`, adjacently and at the tail. */
  predicate Landed<D(==)>(store: Store<D>, sequences: seq<nat>, entries: seq<Entry<D>>) {
    && |sequences| == |entries| <= store.stream.LastSeq()
    && forall i :: 0 <= i < |entries| ==>
         && sequences[i] == store.stream.LastSeq() - |entries| + i + 1
         && store.stream.log[sequences[i] - 1] == Message(entries[i].subject, entries[i].id, entries[i].data)
  }

  lemma OnlyFirstGuards<D>(stream: Stream<D>, entries: seq<Entry<D>>, b: Boundary, tail: nat)
    requires |entries| > 0 && LiteralSubjects(entries) && ValidBoundary(b)
    ensures AllPass(stream, Guarded(entries, b, tail)) <==>
              Passes(stream, entries[0].subject, Guard(b, tail).ForSubject(entries[0].subject))
  {
    var batch := Guarded(entries, b, tail);
    assert batch[0].guard == Guard(b, tail) && batch[0].subject == entries[0].subject;
    assert forall i :: 0 < i < |batch| ==> batch[i].guard.ForSubject(batch[i].subject) == NoGuard;
  }

  lemma {:induction false} SameWindow<D>(window: map<string, nat>, a: seq<Entry<D>>, b: seq<Entry<D>>, first: nat)
    requires |a| == |b| && forall i :: 0 <= i < |a| ==> a[i].id == b[i].id
    ensures Remember(window, a, first) == Remember(window, b, first)
  {
    if a != [] {
      SameWindow(window, a[..|a| - 1], b[..|b| - 1], first);
    }
  }

  lemma SameIds<D>(store: Store<D>, a: seq<Entry<D>>, b: seq<Entry<D>>)
    requires |a| == |b| && Stored(a) == Stored(b)
    requires forall i :: 0 <= i < |a| ==> a[i].id == b[i].id
    ensures Append(store, a) == Append(store, b)
  {
    SameWindow(store.window, a, b, store.stream.LastSeq() + 1);
  }

  // ------------------------------------------------------------------ the retry loop

  const MAX_ATTEMPTS := 5

  datatype MutationResult = MutationResult(sequences: seq<nat>, attempts: nat, conflicts: nat, committed: bool)

  /** What other writers append around attempt `k`: before its tail is read, and before it publishes. */
  datatype Schedule<!D> = Schedule(before: nat -> seq<Entry<D>>, during: nat -> seq<Entry<D>>, cancelled: nat -> bool)

  /** One of `entries` falls under the boundary. */
  predicate Interferes<D>(b: Boundary, entries: seq<Entry<D>>) {
    exists i :: 0 <= i < |entries| && Covers(b, entries[i].subject)
  }

  /** Deletion only ever concerns stored records. */
  predicate WellFormed<D>(stream: Stream<D>) {
    forall q :: q in stream.deleted ==> q <= stream.LastSeq()
  }

  /** Appending moves the tail of a boundary exactly when it appends something the boundary covers. */
  lemma AppendMovesTail<D>(b: Boundary, store: Store<D>, entries: seq<Entry<D>>)
    requires WellFormed(store.stream) && !b.Unguarded? && !b.NoBoundary?
    ensures Tail(b, Append(store, entries).stream) == Tail(b, store.stream) <==> !Interferes(b, entries)
  {
    hide Subjects.Matches;
    var longer := Append(store, entries).stream;
    if b.AtSubject? {
      AppendMovesMatch(store.stream, longer, b.filter);
      NewRecords(b, store, entries);
    } else if entries != [] {
      assert Covers(b, entries[0].subject);
    }
  }

  /** A record behind `n` that the filter selects. */
  predicate MatchBehind<D>(stream: Stream<D>, filter: string, n: nat) {
    exists q: nat :: n < q <= stream.LastSeq() && stream.Retained(q) && Subjects.Matches(filter, stream.At(q).subject)
  }

  lemma {:induction false} SameMatchUpTo<D>(old_: Stream<D>, longer: Stream<D>, filter: string, m: nat)
    requires m <= old_.LastSeq() && old_.log <= longer.log && old_.deleted == longer.deleted
    ensures old_.LastMatchUpTo(filter, m) == longer.LastMatchUpTo(filter, m)
  {
    if m > 0 {
      SameMatchUpTo(old_, longer, filter, m - 1);
      assert old_.At(m) == longer.At(m);
    }
  }

  lemma {:induction false} MatchFrom<D>(stream: Stream<D>, filter: string, n: nat, m: nat)
    requires n <= m <= stream.LastSeq()
    requires forall q: nat :: n < q <= m && stream.Retained(q) ==> !Subjects.Matches(filter, stream.At(q).subject)
    ensures stream.LastMatchUpTo(filter, m) == stream.LastMatchUpTo(filter, n)
  {
    if n < m {
      MatchFrom(stream, filter, n, m - 1);
    }
  }

  lemma AppendMovesMatch<D>(old_: Stream<D>, longer: Stream<D>, filter: string)
    requires old_.log <= longer.log && old_.deleted == longer.deleted
    ensures longer.LastMatch(filter) == old_.LastMatch(filter) <==> !MatchBehind(longer, filter, old_.LastSeq())
  {
    SameMatchUpTo(old_, longer, filter, old_.LastSeq());
    if !MatchBehind(longer, filter, old_.LastSeq()) {
      MatchFrom(longer, filter, old_.LastSeq(), longer.LastSeq());
    }
  }

  lemma NewRecords<D>(b: Boundary, store: Store<D>, entries: seq<Entry<D>>)
    requires WellFormed(store.stream) && b.AtSubject?
    ensures MatchBehind(Append(store, entries).stream, b.filter, store.stream.LastSeq()) <==> Interferes(b, entries)
  {
    var longer, n := Append(store, entries).stream, store.stream.LastSeq();
    forall q: nat | n < q <= longer.LastSeq() ensures longer.Retained(q)
      && longer.At(q).subject == entries[q - n - 1].subject {
    }
    if Interferes(b, entries) {
      var i :| 0 <= i < |entries| && Covers(b, entries[i].subject);
      assert longer.Retained(n + i + 1);
    }
  }

  // ------------------------------------------------------------------ how an attempt goes

  /** The store after the others have written around attempt `k`. */
  function Through<D>(store: Store<D>, env: Schedule<D>, k: nat): Store<D> {
    Append(Append(store, env.before(k)), env.during(k))
  }

  /** What is decided in attempt `k`, on the tail that the boundary has after the first of those writes. */
  function DecidedAt<D>(store: Store<D>, b: Boundary, decide: (nat, nat) -> Decision<D>, env: Schedule<D>, k: nat)
    : Decision<D>
  {
    decide(k, Tail(b, Append(store, env.before(k)).stream))
  }

  /**
   How attempt `k` goes when it begins at `store`: it aborts, has nothing to do, asks for what is never stored, or
   repeats a single record; otherwise it loses if and only if somebody wrote under the boundary.
   */
  datatype Turn = Aborts | Idle | Breaks | Repeats | Loses | Wins

  function TurnOf<D>(store: Store<D>, b: Boundary, decide: (nat, nat) -> Decision<D>, env: Schedule<D>, k: nat): Turn {
    var decision := DecidedAt(store, b, decide, env, k);
    if decision.Abort? then Aborts
    else if decision.entries == [] then Idle
    else if Unfit(Through(store, env, k), decision.entries) then Breaks
    else if !FreshIds(Through(store, env, k), decision.entries) then Repeats
    else if Interferes(b, env.during(k)) then Loses
    else Wins
  }

  /** The records that are decided on in attempt `k`. */
  function ChosenAt<D>(store: Store<D>, b: Boundary, decide: (nat, nat) -> Decision<D>, env: Schedule<D>, k: nat)
    : seq<Entry<D>>
  {
    match DecidedAt(store, b, decide, env, k)
    case Entries(entries) => entries
    case Abort => []
  }

  /** One record, which was stored before, at this sequence. */
  predicate Known<D>(store: Store<D>, entries: seq<Entry<D>>, sequences: seq<nat>) {
    |entries| == 1 && entries[0].id in store.window && sequences == [store.window[entries[0].id]]
  }

  /** The attempt's answer is that of its turn. */
  ghost predicate Answers<D>(store: Store<D>, b: Boundary, decide: (nat, nat) -> Decision<D>, env: Schedule<D>, k: nat,
                             r: Attempt) {
    match TurnOf(store, b, decide, env, k)
    case Aborts => r == Stopped(Refused)
    case Idle => r.NothingToDo?
    case Breaks => r.Stopped? && r.error !in {Conflict, Refused, InvalidBoundary}
    case Repeats =>
      && r.Published? && !r.commit.committed
      && Known(Through(store, env, k), ChosenAt(store, b, decide, env, k), r.commit.sequences)
    case Loses => r.Lost?
    case Wins => r.Published? && r.commit.committed
  }

  datatype Attempt = NothingToDo | Stopped(error: WriteError) | Lost | Published(commit: Commit)

  /** Read the boundary's tail, and let the others write before anything is published. */
  method CaptureTail<D>(log: EventLog<D>, b: Boundary, env: Schedule<D>, k: nat) returns (tail: nat)
    requires WellFormed(log.store.stream) && ValidBoundary(b)
    modifies log
    ensures tail == Tail(b, Append(old(log.store), env.before(k)).stream)
    ensures log.store == Append(Append(old(log.store), env.before(k)), env.during(k))
    ensures Moved(log.store, b, tail) <==> Interferes(b, env.during(k))
  {
    log.store := Append(log.store, env.before(k));
    tail := Tail(b, log.store.stream);
    if !b.Unguarded? {
      AppendMovesTail(b, log.store, env.during(k));
    }
    log.store := Append(log.store, env.during(k));
  }

  /** Publish what was decided against `tail`. */
  method Land<D>(log: EventLog<D>, b: Boundary, decide: (nat, nat) -> Decision<D>, k: nat, tail: nat,
                 entries: seq<Entry<D>>)
    returns (r: Attempt)
    requires |entries| > 0 && LiteralSubjects(entries) && ValidBoundary(b)
    requires decide(k, tail) == Entries(entries) && (b.Unguarded? ==> tail == 0)
    modifies log
    ensures !r.NothingToDo? && (r.Stopped? <==> Unfit(old(log.store), entries))
    ensures r.Stopped? ==> r.error !in {Conflict, Refused, InvalidBoundary}
    ensures r.Lost? <==>
              !Unfit(old(log.store), entries) && FreshIds(old(log.store), entries) && Moved(old(log.store), b, tail)
    ensures r.Published? && r.commit.committed <==>
              !Unfit(old(log.store), entries) && FreshIds(old(log.store), entries) && !Moved(old(log.store), b, tail)
    ensures log.store == if r.Published? && r.commit.committed then Append(old(log.store), entries) else old(log.store)
    ensures r.Published? && !r.commit.committed ==> Known(old(log.store), entries, r.commit.sequences)
    ensures r.Published? && r.commit.committed ==> CommittedAgainst(log.store, b, decide, k, r.commit.sequences)
  {
    hide Append, FreshIds, Landed, LiteralSubjects;
    ghost var before := log.store;
    var ack := PublishMutation(log, b, tail, entries);
    if ack.Failed? {
      return if ack.error == Conflict then Lost else Stopped(ack.error);
    }
    if ack.value.committed {
      assert Tail(b, before.stream) == tail;
      LandedBehind(before, log.store, b, decide, k, ack.value.sequences, entries);
    }
    r := Published(ack.value);
  }

  /** One turn of the loop: capture the tail, decide, publish. */
  method TryOnce<D>(log: EventLog<D>, b: Boundary, decide: (nat, nat) -> Decision<D>, env: Schedule<D>, k: nat)
    returns (r: Attempt)
    requires forall j, tail :: decide(j, tail).Entries? ==> LiteralSubjects(decide(j, tail).entries)
    requires WellFormed(log.store.stream) && ValidBoundary(b)
    modifies log
    ensures Answers(old(log.store), b, decide, env, k, r)
    ensures log.store ==
            if r.Published? && r.commit.committed
            then Append(Through(old(log.store), env, k), ChosenAt(old(log.store), b, decide, env, k))
            else Through(old(log.store), env, k)
    ensures r.Published? && r.commit.committed ==> CommittedAgainst(log.store, b, decide, k, r.commit.sequences)
  {
    hide Append, FreshIds, Unfit, Interferes, CommittedAgainst, Known, TurnOf, ChosenAt, DecidedAt, Through;
    ghost var before := log.store;
    var tail := CaptureTail(log, b, env, k);
    var decision := decide(k, tail);
    TurnIs(before, b, decide, env, k, decision);
    if decision.Abort? {
      return Stopped(Refused);
    }
    if |decision.entries| == 0 {
      return NothingToDo;
    }
    r := Land(log, b, decide, k, tail, decision.entries);
  }

  lemma TurnIs<D>(store: Store<D>, b: Boundary, decide: (nat, nat) -> Decision<D>, env: Schedule<D>, k: nat,
                  decision: Decision<D>)
    requires decision == decide(k, Tail(b, Append(store, env.before(k)).stream))
    ensures Through(store, env, k) == Append(Append(store, env.before(k)), env.during(k))
    ensures decision.Abort? ==> TurnOf(store, b, decide, env, k).Aborts? && ChosenAt(store, b, decide, env, k) == []
    ensures decision.Entries? ==>
              && ChosenAt(store, b, decide, env, k) == decision.entries
              && TurnOf(store, b, decide, env, k) ==
                   if |decision.entries| == 0 then Idle
                   else if Unfit(Through(store, env, k), decision.entries) then Breaks
                   else if !FreshIds(Through(store, env, k), decision.entries) then Repeats
                   else if Interferes(b, env.during(k)) then Loses
                   else Wins
  {
    hide Append, FreshIds, Unfit, Interferes;
  }

  lemma BlankBoundary(b: Boundary)
    ensures !ValidBoundary(b) <==>
            b.NoBoundary? || (b.AtSubject? && forall i :: 0 <= i < |b.filter| ==> IsSpace(b.filter[i]))
  {
  }

  lemma TurnTells<D>(store: Store<D>, b: Boundary, decide: (nat, nat) -> Decision<D>, env: Schedule<D>, k: nat)
    ensures TurnOf(store, b, decide, env, k).Loses? ==> Interferes(b, env.during(k))
    ensures TurnOf(store, b, decide, env, k).Wins? ==> !Interferes(b, env.during(k))
    ensures forall entries :: store.stream.log <= Append(store, entries).stream.log
                                && Append(store, entries).stream.deleted == store.stream.deleted
  {
  }

  lemma {:induction false} ForeignGrows<D>(store: Store<D>, env: Schedule<D>, k: nat)
    requires WellFormed(store.stream)
    ensures WellFormed(Foreign(store, env, k).stream)
    ensures store.stream.log <= Foreign(store, env, k).stream.log
    ensures Foreign(store, env, k).stream.deleted == store.stream.deleted
    ensures forall entries :: store.stream.log <= Append(Foreign(store, env, k), entries).stream.log
                                && Append(Foreign(store, env, k), entries).stream.deleted == store.stream.deleted
  {
    if k > 0 {
      ForeignGrows(store, env, k - 1);
    }
  }

  /** The store when attempt `k + 1` begins, if the first `k` stored nothing. */
  function Foreign<D>(store: Store<D>, env: Schedule<D>, k: nat): Store<D> {
    if k == 0 then store else Through(Foreign(store, env, k - 1), env, k)
  }

  /** How attempt `k` goes if it is made and nothing was stored before. */
  function TurnAt<D>(store: Store<D>, b: Boundary, decide: (nat, nat) -> Decision<D>, env: Schedule<D>, k: nat): Turn
    requires k > 0
  {
    TurnOf(Foreign(store, env, k - 1), b, decide, env, k)
  }

  /**
   What the loop makes of the attempts: it goes on behind a lost one, unless it was the fifth or the caller is gone,
   and any other ends it.
   */
  ghost predicate Ends<D>(store: Store<D>, b: Boundary, decide: (nat, nat) -> Decision<D>, env: Schedule<D>,
                          result: MutationResult, error: Option<WriteError>, after: Store<D>) {
    var k := result.attempts;
    && 1 <= k <= MAX_ATTEMPTS
    && (forall j :: 1 <= j < k ==> TurnAt(store, b, decide, env, j).Loses? && !env.cancelled(j))
    && match TurnAt(store, b, decide, env, k)
       case Wins =>
         && error.None? && result.committed && result.conflicts == k - 1
         && after == Append(Foreign(store, env, k), ChosenAt(Foreign(store, env, k - 1), b, decide, env, k))
       case Loses =>
         && !result.committed && result.conflicts == k && after == Foreign(store, env, k)
         && if k == MAX_ATTEMPTS then error == Some(Conflict) else env.cancelled(k) && error == Some(Refused)
       case turn =>
         && !result.committed && result.conflicts == k - 1 && after == Foreign(store, env, k)
         && (turn.Aborts? ==> error == Some(Refused))
         && (turn.Idle? ==> error.None? && result.sequences == [])
         && (turn.Breaks? ==> error.Some? && error.value !in {Conflict, Refused, InvalidBoundary})
         && (turn.Repeats? ==>
               error.None?
               && Known(Foreign(store, env, k), ChosenAt(Foreign(store, env, k - 1), b, decide, env, k),
                 result.sequences))
  }

  /**
   ExecuteMutation: at most five attempts; success has one conflict fewer than attempts; every
   conflict is paid for by a foreign record under the boundary; and what commits was decided against
   the tail that the boundary still had when it committed.
   */
  method ExecuteMutation<D>(log: EventLog<D>, b: Boundary, decide: (nat, nat) -> Decision<D>, env: Schedule<D>)
    returns (result: MutationResult, error: Option<WriteError>)
    requires forall k, tail :: decide(k, tail).Entries? ==> LiteralSubjects(decide(k, tail).entries)
    requires WellFormed(log.store.stream)
    modifies log
    ensures !ValidBoundary(b) ==> error == Some(InvalidBoundary) && result.attempts == 0 && log.store == old(log.store)
    ensures error == Some(InvalidBoundary) <==>
              b.NoBoundary? || (b.AtSubject? && forall i :: 0 <= i < |b.filter| ==> IsSpace(b.filter[i]))
    ensures ValidBoundary(b) ==> 1 <= result.attempts <= MAX_ATTEMPTS
    ensures result.conflicts <= result.attempts
    ensures error.None? ==> result.conflicts + 1 == result.attempts
    ensures error == Some(Conflict) ==> result.conflicts == result.attempts == MAX_ATTEMPTS
    ensures ValidBoundary(b) ==> Ends(old(log.store), b, decide, env, result, error, log.store)
    ensures forall k :: 1 <= k <= result.conflicts ==> Interferes(b, env.during(k))
    ensures result.committed ==>
              && error.None? && !Interferes(b, env.during(result.attempts))
              && CommittedAgainst(log.store, b, decide, result.attempts, result.sequences)
    ensures old(log.store.stream.log) <= log.store.stream.log
    ensures log.store.stream.deleted == old(log.store.stream.deleted)
  {
    hide TurnOf, ChosenAt, Known, IsSpace, Append, Through, Interferes, CommittedAgainst, ValidBoundary;
    BlankBoundary(b);
    if !ValidBoundary(b) {
      return MutationResult([], 0, 0, false), Some(InvalidBoundary);
    }
    result := MutationResult([], 0, 0, false);
    ghost var first := log.store;
    var attempt := 1;
    while attempt <= MAX_ATTEMPTS
      invariant 1 <= attempt <= MAX_ATTEMPTS
      invariant result == MutationResult([], attempt - 1, attempt - 1, false)
      invariant forall k :: 1 <= k < attempt ==> TurnAt(first, b, decide, env, k).Loses? && !env.cancelled(k)
      invariant forall k :: 1 <= k < attempt ==> Interferes(b, env.during(k))
      invariant log.store == Foreign(first, env, attempt - 1)
    {
      ForeignGrows(first, env, attempt - 1);
      ForeignGrows(first, env, attempt);
      TurnTells(Foreign(first, env, attempt - 1), b, decide, env, attempt);
      var outcome := TryOnce(log, b, decide, env, attempt);
      result := result.(attempts := attempt);
      match outcome
      case NothingToDo => return result, None;
      case Stopped(problem) => return result, Some(problem);
      case Published(commit) =>
        result := result.(sequences := commit.sequences, committed := commit.committed);
        return result, None;
      case Lost =>
      result := result.(conflicts := result.conflicts + 1);
      if attempt == MAX_ATTEMPTS {
        break;
      }
      if env.cancelled(attempt) {
        return result, Some(Refused);
      }
      attempt := attempt + 1;
    }
    error := Some(Conflict);
  }

  /** In attempt `k` something is decided that can be stored and has not been stored. */
  ghost predicate Decides<D>(store: Store<D>, b: Boundary, decide: (nat, nat) -> Decision<D>, env: Schedule<D>, k: nat)
    requires k > 0
  {
    var decision := DecidedAt(Foreign(store, env, k - 1), b, decide, env, k);
    && decision.Entries? && decision.entries != []
    && (forall i :: 0 <= i < |decision.entries| ==> ValidRecord(decision.entries[i]))
    && FreshIds(Foreign(store, env, k), decision.entries)
  }

  /** Conflicts are survived: the first attempt that nobody disturbs commits, if the caller waits for it. */
  lemma UndisturbedCommits<D>(store: Store<D>, b: Boundary, decide: (nat, nat) -> Decision<D>, env: Schedule<D>,
                              result: MutationResult, error: Option<WriteError>, after: Store<D>, k: nat)
    requires Ends(store, b, decide, env, result, error, after) && 1 <= k <= MAX_ATTEMPTS
    requires forall j :: 1 <= j <= k ==> Decides(store, b, decide, env, j)
    requires forall j :: 1 <= j < k ==> Interferes(b, env.during(j)) && !env.cancelled(j)
    requires !Interferes(b, env.during(k))
    ensures result.committed && result.attempts == k && result.conflicts == k - 1 && error.None?
  {
    hide DecidedAt, ChosenAt, Interferes, Append, Ends;
    forall j | 1 <= j <= k ensures TurnAt(store, b, decide, env, j) == if j == k then Wins else Loses {
      assert Decides(store, b, decide, env, j);
    }
    EndsAt(store, b, decide, env, result, error, after, k);
  }

  lemma EndsAt<D>(store: Store<D>, b: Boundary, decide: (nat, nat) -> Decision<D>, env: Schedule<D>,
                  result: MutationResult, error: Option<WriteError>, after: Store<D>, k: nat)
    requires Ends(store, b, decide, env, result, error, after) && 1 <= k <= MAX_ATTEMPTS
    requires forall j :: 1 <= j < k ==> TurnAt(store, b, decide, env, j).Loses? && !env.cancelled(j)
    requires TurnAt(store, b, decide, env, k).Wins?
    ensures result.committed && result.attempts == k && result.conflicts == k - 1 && error.None?
  {
    hide TurnAt, Append, Foreign, ChosenAt;
  }

  /**
   The committed records are what `decide` returned for exactly the tail that the boundary had in the
   stream in front of them.
   */
  ghost predicate CommittedAgainst<D>(store: Store<D>, b: Boundary, decide: (nat, nat) -> Decision<D>, attempt: nat,
                                      sequences: seq<nat>) {
    && |sequences| > 0 && 1 <= sequences[0] <= store.stream.LastSeq()
    && var inFront := Stream(store.stream.log[..sequences[0] - 1], store.stream.deleted);
       var decision := decide(attempt, Tail(b, inFront));
       decision.Entries? && Landed(store, sequences, decision.entries)
  }

  lemma LandedBehind<D>(before: Store<D>, after: Store<D>, b: Boundary, decide: (nat, nat) -> Decision<D>, attempt: nat,
                        sequences: seq<nat>, entries: seq<Entry<D>>)
    requires |entries| > 0 && after == Append(before, entries) && Landed(after, sequences, entries)
    requires decide(attempt, Tail(b, before.stream)) == Entries(entries)
    ensures CommittedAgainst(after, b, decide, attempt, sequences)
  {
    assert after.stream.log[..sequences[0] - 1] == before.stream.log;
  }
}
