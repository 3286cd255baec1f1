/**
 Every interleaving of writers, deletions and de-duplication expiry over one stream.  A writer's
 capture and decision are local to it, so one step is its publication: it carries the tail that the
 writer read at any earlier time, current or stale, and the decision it makes from what it had seen.
 */
module MutationRuns {
  import opened EventStream
  import opened Broker
  import opened Mutations
  import Subjects

  /** The records under boundary `b` among the first `n`, which is all a decision depends on. */
  function Seen<D>(b: Boundary, log: seq<Message<D>>, n: nat): seq<Message<D>>
    requires n <= |log|
  {
    if n == 0 then []
    else Seen(b, log, n - 1) + if Covers(b, log[n - 1].subject) then [log[n - 1]] else []
  }

  type Decide<!D> = seq<Message<D>> -> seq<Entry<D>>

  /**
   A committed mutation: its records are `log[first - 1 .. first - 1 + count]`, and `deceived` says whether a record
   that its decision should have seen had been deleted when it committed.
   */
  datatype Record<!D> = Record(b: Boundary, tail: nat, decide: Decide<D>, first: nat, count: nat, deceived: bool)

  datatype World<!D> = World(store: Store<D>, records: seq<Record<D>>, expired: set<string>)

  datatype Step<!D> =
    | Write(b: Boundary, tail: nat, decide: Decide<D>)
    | Delete(gone: nat)
    | Expire(id: string)

  ghost predicate Enabled<D>(w: World<D>, step: Step<D>) {
    match step
    case Write(b, tail, _) => ValidBoundary(b) && tail <= w.store.stream.LastSeq()
    case Delete(q) => w.store.stream.Stored(q)
    case Expire(_) => true
  }

  /** What the writer decides: it has seen everything under its boundary up to its tail. */
  function Decided<D>(w: World<D>, b: Boundary, tail: nat, decide: Decide<D>): seq<Entry<D>>
    requires tail <= w.store.stream.LastSeq()
  {
    decide(Seen(b, w.store.stream.log, tail))
  }

  /** Sequence `q` holds a record under boundary `b`. */
  predicate Under<D>(b: Boundary, log: seq<Message<D>>, q: nat) {
    1 <= q <= |log| && Covers(b, log[q - 1].subject)
  }

  /** A record under the boundary behind the tail has been deleted. */
  predicate Deceived<D>(stream: Stream<D>, b: Boundary, tail: nat) {
    exists q :: q in stream.deleted && tail < q && Under(b, stream.log, q)
  }

  function Do<D>(w: World<D>, step: Step<D>): World<D>
    requires step.Write? ==> step.tail <= w.store.stream.LastSeq()
  {
    match step
    case Write(b, tail, decide) =>
      var entries := Decided(w, b, tail, decide);
      if Commits(w.store, b, tail, entries)
      then World(Append(w.store, entries), w.records +
        [Record(b, tail, decide, w.store.stream.LastSeq() + 1, |entries|, Deceived(w.store.stream, b, tail))],
        w.expired)
      else w
    case Delete(q) => w.(store := w.store.(stream := Stream(w.store.stream.log, w.store.stream.deleted + {q})))
    case Expire(id) => w.(store := w.store.(window := w.store.window - {id}), expired := w.expired + {id})
  }

  ghost predicate Run<D>(worlds: seq<World<D>>, steps: seq<Step<D>>) {
    && |worlds| == |steps| + 1
    && worlds[0] == World(Store(Stream([], {}), map[]), [], {})
    && forall i :: 0 <= i < |steps| ==> Enabled(worlds[i], steps[i]) && worlds[i + 1] == Do(worlds[i], steps[i])
  }

  // ------------------------------------------------------------------ what a record promises

  ghost predicate InStream<D>(w: World<D>, c: Record<D>) {
    1 <= c.first && c.tail < c.first && c.first - 1 + c.count <= w.store.stream.LastSeq()
  }

  /** Nothing under the record's boundary was committed between its tail and its own records. */
  ghost predicate Quiet<D>(log: seq<Message<D>>, c: Record<D>) {
    forall q: nat :: c.tail < q < c.first ==> !Under(c.b, log, q)
  }

  /** A record under the boundary, between the record's tail and the record itself, is no longer there. */
  ghost predicate LostBehind<D>(stream: Stream<D>, c: Record<D>) {
    exists q :: q in stream.deleted && c.tail < q < c.first && Under(c.b, stream.log, q)
  }

  /** The record is what its decision gives for everything under its boundary in front of it. */
  ghost predicate Serial<D>(log: seq<Message<D>>, c: Record<D>)
    requires 1 <= c.first && c.first - 1 + c.count <= |log|
  {
    var entries := c.decide(Seen(c.b, log, c.first - 1));
    |entries| == c.count && log[c.first - 1..c.first - 1 + c.count] == Stored(entries)
  }

  lemma {:induction false} SeenOfQuiet<D>(b: Boundary, log: seq<Message<D>>, tail: nat, n: nat)
    requires tail <= n <= |log|
    requires forall q: nat :: tail < q <= n ==> !Under(b, log, q)
    ensures Seen(b, log, n) == Seen(b, log, tail)
    decreases n
  {
    if tail < n {
      assert !Under(b, log, n);
      SeenOfQuiet(b, log, tail, n - 1);
    }
  }

  lemma {:induction false} SeenOfPrefix<D>(b: Boundary, older: seq<Message<D>>, newer: seq<Message<D>>, n: nat)
    requires n <= |older| <= |newer| && forall k :: 0 <= k < n ==> older[k] == newer[k]
    ensures Seen(b, older, n) == Seen(b, newer, n)
    decreases n
  {
    if n > 0 {
      SeenOfPrefix(b, older, newer, n - 1);
    }
  }

  /** What a passed guard means: the boundary is quiet if and only if no deletion has deceived it. */
  lemma GuardMeansQuiet<D>(stream: Stream<D>, b: Boundary, tail: nat)
    requires ValidBoundary(b) && (b.Unguarded? || Tail(b, stream) == tail)
    ensures Deceived(stream, b, tail) <==> !forall q: nat :: tail < q ==> !Under(b, stream.log, q)
    ensures Deceived(stream, b, tail) ==> b.AtSubject?
  {
    forall q: nat | tail < q && Under(b, stream.log, q) ensures b.AtSubject? && q in stream.deleted {
      assert b.AtSubject? && !stream.Retained(q);
    }
  }

  // ------------------------------------------------------------------ the invariant

  ghost predicate RecordOk<D>(w: World<D>, c: Record<D>) {
    && InStream(w, c)
    && (c.deceived <==> !Quiet(w.store.stream.log, c))
    && (c.deceived ==> c.b.AtSubject? && LostBehind(w.store.stream, c))
    && (!c.deceived ==> Serial(w.store.stream.log, c))
  }

  ghost predicate Inv<D>(w: World<D>) {
    && (forall k :: 0 <= k < |w.records| ==> RecordOk(w, w.records[k]))
    && (forall k, l :: 0 <= k < l < |w.records| ==> w.records[k].first + w.records[k].count <= w.records[l].first)
  }

  /** A record stays what it is when the stream grows. */
  lemma RecordStays<D>(w: World<D>, x: World<D>, c: Record<D>)
    requires RecordOk(w, c)
    requires |w.store.stream.log| <= |x.store.stream.log|
    requires forall k :: 0 <= k < |w.store.stream.log| ==> w.store.stream.log[k] == x.store.stream.log[k]
    requires w.store.stream.deleted <= x.store.stream.deleted
    ensures RecordOk(x, c)
  {
    var older, newer := w.store.stream.log, x.store.stream.log;
    SeenOfPrefix(c.b, older, newer, c.first - 1);
    QuietInPrefix(older, newer, c);
    if c.deceived {
      LostStays(w.store.stream, x.store.stream, c);
    }
    assert older[c.first - 1..c.first - 1 + c.count] == newer[c.first - 1..c.first - 1 + c.count];
  }

  lemma LostStays<D>(older: Stream<D>, newer: Stream<D>, c: Record<D>)
    requires LostBehind(older, c) && c.first <= |older.log| + 1 <= |newer.log| + 1 && older.deleted <= newer.deleted
    requires forall k :: 0 <= k < |older.log| ==> older.log[k] == newer.log[k]
    ensures LostBehind(newer, c)
  {
    var q :| q in older.deleted && c.tail < q < c.first && Under(c.b, older.log, q);
    assert Under(c.b, newer.log, q);
  }

  lemma QuietInPrefix<D>(older: seq<Message<D>>, newer: seq<Message<D>>, c: Record<D>)
    requires c.first <= |older| + 1 <= |newer| + 1 && forall k :: 0 <= k < |older| ==> older[k] == newer[k]
    ensures Quiet(older, c) <==> Quiet(newer, c)
  {
    forall q: nat | q < c.first ensures Under(c.b, older, q) == Under(c.b, newer, q) {
    }
  }

  /** The record of a write that has just committed. */
  lemma NewRecordOk<D>(w: World<D>, b: Boundary, tail: nat, decide: Decide<D>)
    requires ValidBoundary(b) && tail <= w.store.stream.LastSeq()
    requires Commits(w.store, b, tail, Decided(w, b, tail, decide))
    ensures var x := Do(w, Write(b, tail, decide)); RecordOk(x, x.records[|w.records|])
  {
    var x := Do(w, Write(b, tail, decide));
    var c := x.records[|w.records|];
    var older, newer := w.store.stream.log, x.store.stream.log;
    GuardMeansQuiet(w.store.stream, b, tail);
    QuietInPrefix(older, newer, c);
    if !c.deceived {
      SeenOfQuiet(b, older, tail, |older|);
      SeenOfPrefix(b, older, newer, |older|);
      Behind(older, Stored(Decided(w, b, tail, decide)));
    }
  }

  lemma Behind<T>(a: seq<T>, b: seq<T>)
    ensures (a + b)[|a|..|a| + |b|] == b && (a + b)[..|a|] == a
  {
  }

  lemma StepKeeps<D>(w: World<D>, step: Step<D>)
    requires Inv(w) && Enabled(w, step)
    ensures Inv(Do(w, step))
  {
    var x := Do(w, step);
    forall k | 0 <= k < |w.records| ensures RecordOk(x, w.records[k]) {
      RecordStays(w, x, w.records[k]);
    }
    if step.Write? && Commits(w.store, step.b, step.tail, Decided(w, step.b, step.tail, step.decide)) {
      NewRecordOk(w, step.b, step.tail, step.decide);
    }
  }

  lemma {:induction false} RunKeeps<D>(worlds: seq<World<D>>, steps: seq<Step<D>>, n: nat)
    requires Run(worlds, steps) && n <= |steps|
    ensures Inv(worlds[n])
    decreases n
  {
    if n > 0 {
      RunKeeps(worlds, steps, n - 1);
      assert worlds[n - 1 + 1] == Do(worlds[n - 1], steps[n - 1]);
      StepKeeps(worlds[n - 1], steps[n - 1]);
    }
  }

  /**
   Serializability over every interleaving: a committed mutation behaves as if it had decided and
   published in one atomic step.  Its records are what its decision gives for the history right in
   front of it, and no record under its boundary lies between its captured tail and itself, unless such a
   record was deleted before it committed.  That can only happen to a subject boundary.
   */
  lemma CommitsAreSerial<D>(worlds: seq<World<D>>, steps: seq<Step<D>>, n: nat, k: nat)
    requires Run(worlds, steps) && n <= |steps| && k < |worlds[n].records|
    ensures var w, c := worlds[n], worlds[n].records[k];
            && InStream(w, c)
            && (Quiet(w.store.stream.log, c) <==> !c.deceived)
            && (!c.deceived ==> Serial(w.store.stream.log, c))
            && (c.deceived ==> c.b.AtSubject? && LostBehind(w.store.stream, c))
  {
    RunKeeps(worlds, steps, n);
  }

  /**
   With deletions a subject boundary can be deceived: the guard passes exactly when every record
   under the boundary behind the tail has been deleted and the tail itself is still there.
   */
  lemma SubjectGuardExactly<D>(stream: Stream<D>, filter: string, tail: nat)
    requires tail == 0 || (stream.Retained(tail) && Subjects.Matches(filter, stream.At(tail).subject))
    ensures Tail(AtSubject(filter), stream) == tail <==>
            forall q: nat :: tail < q <= stream.LastSeq() && Subjects.Matches(filter, stream.At(q).subject) ==>
              q in stream.deleted
  {
    var found := stream.LastMatch(filter);
    if found > tail {
      assert stream.Retained(found);
    }
  }

  function OneRecord(id: string): Decide<int> {
    seen => [Entry("a", id, 0, 0, NoGuard)]
  }

  /**
   A deceived commit: the record that a second writer should have seen is deleted before its guard is checked, so
   that it commits behind a record it never saw.
   */
  lemma DeletionDeceivesSubjectGuard() returns (worlds: seq<World<int>>, steps: seq<Step<int>>)
    ensures Run(worlds, steps)
    ensures var w := worlds[|steps|];
            |w.records| == 2 && w.records[1].deceived && !Quiet(w.store.stream.log, w.records[1])
  {
    hide Commits, Append, Decided;
    Subjects.OneToken("a");
    var b := AtSubject("a");
    steps := [Write(b, 0, OneRecord("x")), Delete(1), Write(b, 0, OneRecord("y"))];
    var w0: World<int> := World(Store(Stream([], {}), map[]), [], {});
    var w1 := Do(w0, steps[0]);
    var w2 := Do(w1, steps[1]);
    var w3 := Do(w2, steps[2]);
    worlds := [w0, w1, w2, w3];
    WritesOne(w0, "x");
    WritesOne(w2, "y");
    assert !IsSpace("a"[0]);
    assert Under(b, w3.store.stream.log, 1);
  }

  lemma WritesOne(w: World<int>, id: string)
    requires id != "" && id !in w.store.window && Subjects.Matches("a", "a")
    requires forall q :: !w.store.stream.Retained(q)
    ensures var x := Do(w, Write(AtSubject("a"), 0, OneRecord(id)));
            && x.store.stream.log == w.store.stream.log + [Message("a", id, 0)]
            && x.store.stream.deleted == w.store.stream.deleted
            && (forall other :: other in x.store.window <==> other in w.store.window || other == id)
            && x.records == w.records + [Record(AtSubject("a"), 0, OneRecord(id), w.store.stream.LastSeq() + 1, 1,
              Deceived(w.store.stream, AtSubject("a"), 0))]
  {
    hide Remember;
    var entry := Entry("a", id, 0, 0, NoGuard);
    assert w.store.stream.LastMatch("a") == 0;
    assert Decided(w, AtSubject("a"), 0, OneRecord(id)) == [entry] && [entry][0] == entry;
  }

  // ------------------------------------------------------------------ record IDs

  /** Inside the de-duplication window no ID is stored twice. */
  ghost predicate IdsOk<D>(w: World<D>) {
    && (forall i :: 0 <= i < |w.store.stream.log| ==>
          w.store.stream.log[i].id in w.store.window || w.store.stream.log[i].id in w.expired)
    && (forall i, j :: 0 <= i < j < |w.store.stream.log| && w.store.stream.log[i].id == w.store.stream.log[j].id ==>
          w.store.stream.log[i].id in w.expired)
  }

  lemma WriteKeepsIds<D>(w: World<D>, entries: seq<Entry<D>>)
    requires IdsOk(w) && FreshIds(w.store, entries)
    ensures IdsOk(w.(store := Append(w.store, entries)))
  {
    hide Remember;
    var x := w.(store := Append(w.store, entries));
    var n, log := w.store.stream.LastSeq(), x.store.stream.log;
    assert forall i :: 0 <= i < n ==> log[i] == w.store.stream.log[i];
    assert forall i :: n <= i < |log| ==> log[i].id == entries[i - n].id;
  }

  lemma StepKeepsIds<D>(w: World<D>, step: Step<D>)
    requires IdsOk(w) && Enabled(w, step)
    ensures IdsOk(Do(w, step))
  {
    if step.Write? && Commits(w.store, step.b, step.tail, Decided(w, step.b, step.tail, step.decide)) {
      WriteKeepsIds(w, Decided(w, step.b, step.tail, step.decide));
    }
  }

  lemma {:induction false} RunKeepsIds<D>(worlds: seq<World<D>>, steps: seq<Step<D>>, n: nat)
    requires Run(worlds, steps) && n <= |steps|
    ensures IdsOk(worlds[n])
    decreases n
  {
    if n > 0 {
      RunKeepsIds(worlds, steps, n - 1);
      assert worlds[n - 1 + 1] == Do(worlds[n - 1], steps[n - 1]);
      StepKeepsIds(worlds[n - 1], steps[n - 1]);
    }
  }

  /** What the window says about an ID is where a record with that ID is stored. */
  ghost predicate WindowOk<D>(w: World<D>) {
    forall id :: id in w.store.window ==> NamesRecord(w.store, id, w.store.window[id])
  }

  predicate NamesRecord<D>(store: Store<D>, id: string, q: nat) {
    store.stream.Stored(q) && store.stream.At(q).id == id
  }

  lemma {:induction false} RememberedAt<D>(window: map<string, nat>, entries: seq<Entry<D>>, first: nat, id: string)
    requires id in Remember(window, entries, first)
    ensures var q := Remember(window, entries, first)[id];
            || (id in window && q == window[id])
            || (first <= q < first + |entries| && entries[q - first].id == id)
  {
    hide Remember;
    if entries == [] {
      NothingRemembered(window, entries, first);
    }
    if entries != [] {
      var n := |entries| - 1;
      RememberedLast(window, entries, first, id);
      if entries[n].id != id {
        RememberedAt(window, entries[..n], first, id);
      }
    }
  }

  lemma RememberedLast<D>(window: map<string, nat>, entries: seq<Entry<D>>, first: nat, id: string)
    requires entries != [] && id in Remember(window, entries, first)
    ensures var n := |entries| - 1;
            var before := Remember(window, entries[..n], first);
            if entries[n].id == id then Remember(window, entries, first)[id] == first + n
            else id in before && Remember(window, entries, first)[id] == before[id]
  {
  }

  lemma NothingRemembered<D>(window: map<string, nat>, entries: seq<Entry<D>>, first: nat)
    requires entries == []
    ensures Remember(window, entries, first) == window
  {
  }

  lemma WriteKeepsWindow<D>(w: World<D>, entries: seq<Entry<D>>)
    requires WindowOk(w)
    ensures WindowOk(w.(store := Append(w.store, entries)))
  {
    hide Remember;
    var x := Append(w.store, entries);
    forall id | id in x.window ensures NamesRecord(x, id, x.window[id]) {
      var first := w.store.stream.LastSeq() + 1;
      assert x.window == Remember(w.store.window, entries, first);
      RememberedAt(w.store.window, entries, first, id);
      assert id in w.store.window ==> NamesRecord(w.store, id, w.store.window[id]);
    }
  }

  /** A repeated record is answered with the sequence at which it was stored. */
  lemma {:induction false} RepeatsAreNamed<D>(worlds: seq<World<D>>, steps: seq<Step<D>>, n: nat)
    requires Run(worlds, steps) && n <= |steps|
    ensures WindowOk(worlds[n])
    decreases n
  {
    hide WindowOk, Commits, Append;
    if n > 0 {
      RepeatsAreNamed(worlds, steps, n - 1);
      assert worlds[n - 1 + 1] == Do(worlds[n - 1], steps[n - 1]);
      StepKeepsWindow(worlds[n - 1], steps[n - 1]);
    } else {
      EmptyWindow(worlds[0]);
    }
  }

  lemma EmptyWindow<D>(w: World<D>)
    requires w.store.window == map[]
    ensures WindowOk(w)
  {
  }

  lemma StepKeepsWindow<D>(w: World<D>, step: Step<D>)
    requires WindowOk(w) && Enabled(w, step)
    ensures WindowOk(Do(w, step))
  {
    hide Append;
    match step
    case Write(b, tail, decide) =>
      WriteKeepsWindow(w, Decided(w, b, tail, decide));
    case Delete(q) =>
      forall id | id in w.store.window ensures NamesRecord(Do(w, step).store, id, w.store.window[id]) {
        assert NamesRecord(w.store, id, w.store.window[id]);
      }
    case Expire(_) =>
      var x := Do(w, step);
      forall id | id in x.store.window ensures NamesRecord(x.store, id, x.store.window[id]) {
        assert NamesRecord(w.store, id, w.store.window[id]);
      }
  }

  /** Committed mutation `c` stored a record with this ID. */
  ghost predicate Reports<D>(w: World<D>, c: Record<D>, id: string) {
    exists i: nat ::
      c.first - 1 <= i < c.first - 1 + c.count && i < |w.store.stream.log| && w.store.stream.log[i].id == id
  }

  /**
   While an ID stays inside the window, any number of callers that use it store it once, and at most
   one of them reports that it committed.
   */
  lemma StoredOnce<D>(worlds: seq<World<D>>, steps: seq<Step<D>>, n: nat, id: string)
    requires Run(worlds, steps) && n <= |steps| && id !in worlds[n].expired
    ensures var log := worlds[n].store.stream.log;
            forall i, j :: 0 <= i < j < |log| && log[i].id == id ==> log[j].id != id
    ensures var w := worlds[n];
            forall k, l :: 0 <= k < l < |w.records| && Reports(w, w.records[k], id) ==> !Reports(w, w.records[l], id)
  {
    RunKeeps(worlds, steps, n);
    RunKeepsIds(worlds, steps, n);
  }
}
