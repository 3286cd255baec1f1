/**
 Whole runs of a projector against a stream that other parties keep publishing to and deleting
 from.  The invariant below holds in every reachable world; the theorems at the end are what it
 means for the readers of the projection.
 */
module ProjectorRuns {
  import opened EventStream
  import Subjects
  import opened Waiters
  import opened Projections
  import opened ProjectorInvariants

  /**
   `position` is how far the ordered consumer has delivered, `captured` the startup target that Run
   read first, `handledBefore` the frontier at the last startup check, and `reading` the stream
   length when a check began to read the stream.
   */
  datatype World<+S, +E, +D> = World(
    stream: Stream<D>,
    view: View<S, E>,
    position: nat,
    captured: nat,
    handledBefore: Option<nat>,
    reading: Option<nat>)

  datatype Step<+S, +D> =
    | Publish(message: Message<D>)
    | Delete(gone: nat)
    | Begin(base: S, cutoff: nat, target: nat)
    | Deliver(at: nat)
    | BreakDown                        // metadata failure, failed restore, or any other run error
    | Tick
    | CheckStartup                     // the completion check right after the consumer started
    | ReconcileStart
    | ReconcileFinish(current: nat)
    | Wait(until: nat)
    | Cancel(id: nat)

  ghost predicate Initial<S, E, D>(w: World<S, E, D>) {
    && w.stream.log == [] && w.stream.deleted == {}
    && w.position == 0 && w.captured == 0 && w.handledBefore.None? && w.reading.None?
    && w.view.log == [] && w.view.committed == 0 && w.view.restored == 0 && w.view.base == w.view.state
    && !w.view.started && w.view.target == 0 && !w.view.ended && w.view.hooks == 0 && w.view.failed.None?
    && w.view.roster == Roster([], 0, 0)
  }

  /**
   What the environment is allowed to do.  The consumer delivers in stream order: it never skips a
   record that is still retained, but it may deliver one that was deleted after it was sent.
   */
  ghost predicate Enabled<S, E, D>(cfg: Config<S, E, D>, w: World<S, E, D>, step: Step<S, D>) {
    match step
    case Publish(_) => true
    case Delete(q) => w.stream.Stored(q)
    case Begin(_, cutoff, target) => !w.view.started && cutoff <= w.stream.LastSeq() && target <= w.stream.LastSeq()
    case Deliver(q) =>
      && w.view.started
      && w.position < q <= w.stream.LastSeq()
      && forall r: nat :: w.position < r < q ==> !w.stream.Selected(cfg.replaySubjects, r)
    case BreakDown => w.view.started
    case Tick => w.view.started
    case CheckStartup => w.view.started
    case ReconcileStart => w.view.started && w.reading.None?
    case ReconcileFinish(current) => w.reading.Some? && TargetBetween(w.reading.value, w.stream, cfg.subjects, current)
    case Wait(_) => true
    case Cancel(_) => true
  }

  /** startupProgress */
  predicate StartupPending<S, E>(v: View<S, E>) {
    !v.ended && v.failed.None?
  }

  function Do<S, E, D>(cfg: Config<S, E, D>, w: World<S, E, D>, step: Step<S, D>): World<S, E, D>
    requires w.view.Shaped()
    requires step.Begin? ==> w.view.log == []
    requires step.Deliver? ==> w.stream.Stored(step.at)
  {
    var v := w.view;
    match step
    case Publish(m) => w.(stream := Stream(w.stream.log + [m], w.stream.deleted))
    case Delete(q) => w.(stream := Stream(w.stream.log, w.stream.deleted + {q}))
    case Begin(base, cutoff, target) => w.(view := OnBegin(v, base, cutoff, target), position := cutoff,
      captured := target)
    case Deliver(q) => w.(view := OnMessage(cfg, v, q, w.stream.At(q)), position := q)
    case BreakDown => w.(view := Fail(v, 0))
    case Tick => w.(view := OnTick(cfg, v))
    case CheckStartup => w.(view := Finish(v))
    case ReconcileStart =>
      if StartupPending(v) && w.handledBefore == Some(v.Handled()) then w.(reading := Some(w.stream.LastSeq()))
      else w.(handledBefore := Some(v.Handled()))
    case ReconcileFinish(current) =>
      w.(view := OnReconcile(cfg, v, current), handledBefore := Some(v.Handled()), reading := None)
    case Wait(q) => w.(view := OnWait(v, q))
    case Cancel(id) => w.(view := OnCancel(v, id))
  }

  // ------------------------------------------------------------------ the invariant

  /** Sequence `q` is among the first `n` accepted events. */
  ghost predicate Among<E>(log: seq<Item<E>>, n: nat, q: nat)
    requires n <= |log|
  {
    exists i :: 0 <= i < n && log[i].sequence == q
  }

  /** Record `q` was accepted by the projector, or the restored state covers it. */
  ghost predicate Covered<S, E>(v: View<S, E>, q: nat) {
    q <= v.restored || Among(v.log, |v.log|, q)
  }

  /** Record `q` is reflected in the projection. */
  ghost predicate Reflected<S, E>(v: View<S, E>, q: nat)
    requires v.Shaped()
  {
    q <= v.restored || Among(v.log, v.committed, q)
  }

  /** Every accepted event is a record of the stream, decoded. */
  ghost predicate LogIsStream<S, E, D>(cfg: Config<S, E, D>, w: World<S, E, D>) {
    forall i :: 0 <= i < |w.view.log| ==>
      var item := w.view.log[i];
      && w.stream.Stored(item.sequence) && item.sequence <= w.position
      && item.subject == w.stream.At(item.sequence).subject && cfg.Consumes(item.subject)
      && cfg.decode(w.stream.At(item.sequence).data) == Some(item.event)
  }

  ghost predicate NoneSkipped<S, E, D>(cfg: Config<S, E, D>, w: World<S, E, D>) {
    forall q: nat :: q <= w.position && w.stream.Selected(cfg.subjects, q) ==> Covered(w.view, q)
  }

  /** No retained matching record lies strictly between the frontier and a failed sequence. */
  ghost predicate NoGapBeforeFailure<S, E, D>(cfg: Config<S, E, D>, w: World<S, E, D>)
    requires w.view.Shaped()
  {
    w.view.failed.Some? ==> forall q: nat :: w.view.Last() < q < w.view.failed.value ==>
      !w.stream.Selected(cfg.subjects, q)
  }

  /** Everything retained up to the frontier is in the projection. */
  ghost predicate FrontierReflected<S, E, D>(cfg: Config<S, E, D>, w: World<S, E, D>)
    requires w.view.Shaped()
  {
    forall q: nat :: q <= w.view.Last() && w.stream.Selected(cfg.subjects, q) ==> Reflected(w.view, q)
  }

  /** Once the hook ran, everything retained up to the captured target is in the projection. */
  ghost predicate StartupCovered<S, E, D>(cfg: Config<S, E, D>, w: World<S, E, D>)
    requires w.view.Shaped()
  {
    w.view.hooks > 0 ==> forall q: nat :: q <= w.captured && w.stream.Selected(cfg.subjects, q) ==> Reflected(w.view, q)
  }

  ghost predicate Bounds<S, E, D>(w: World<S, E, D>) {
    && w.view.restored <= w.position <= w.stream.LastSeq()
    && w.captured <= w.stream.LastSeq()
    && (w.view.failed.Some? ==> w.view.failed.value <= w.stream.LastSeq())
    && (w.view.started && !w.view.ended ==> w.view.target == w.captured)
    && (w.reading.Some? ==> w.captured <= w.reading.value && w.view.started)
  }

  ghost predicate Inv<S, E, D>(cfg: Config<S, E, D>, w: World<S, E, D>) {
    && ViewOk(cfg, w.view)
    && WaitersOk(w.view)
    && Bounds(w)
    && LogIsStream(cfg, w)
    && (w.view.failed.None? ==> NoneSkipped(cfg, w))
    && NoGapBeforeFailure(cfg, w)
    && FrontierReflected(cfg, w)
    && StartupCovered(cfg, w)
  }

  /** Every consumed subject is among the delivered ones. */
  ghost predicate Replayed<S, E, D>(cfg: Config<S, E, D>) {
    forall subject :: cfg.Consumes(subject) ==> Subjects.MatchesAny(cfg.replaySubjects, subject)
  }

  // ------------------------------------------------------------------ single steps

  /** Below the frontier, covered and reflected are the same. */
  lemma ReachedIsReflected<S, E>(v: View<S, E>, q: nat)
    requires v.Shaped() && Ascending(v) && Covered(v, q)
    requires q <= v.Last() || v.committed == |v.log|
    ensures Reflected(v, q)
  {
    if q > v.restored {
      var i :| 0 <= i < |v.log| && v.log[i].sequence == q;
      assert i < v.committed;
    }
  }

  lemma HandledIsDelivered<S, E, D>(cfg: Config<S, E, D>, w: World<S, E, D>)
    requires w.view.Shaped() && Ascending(w.view) && LogIsStream(cfg, w) && w.view.restored <= w.position
    ensures w.view.Last() <= w.view.Handled() <= w.position
  {
  }

  lemma FrontierFromCovered<S, E, D>(cfg: Config<S, E, D>, w: World<S, E, D>)
    requires w.view.Shaped() && Ascending(w.view)
    requires forall q: nat :: q <= w.view.Last() && w.stream.Selected(cfg.subjects, q) ==> Covered(w.view, q)
    ensures FrontierReflected(cfg, w)
  {
    forall q: nat | q <= w.view.Last() && w.stream.Selected(cfg.subjects, q) ensures Reflected(w.view, q) {
      ReachedIsReflected(w.view, q);
    }
  }

  /** A failure at the first pending event leaves no matching record between it and the frontier. */
  lemma FailureAtPending<S, E, D>(cfg: Config<S, E, D>, w: World<S, E, D>, f: nat)
    requires w.view.Shaped() && Ascending(w.view)
    requires if w.view.Waiting() > 0 then f == w.view.log[w.view.committed].sequence else true
    requires forall q: nat :: q < f && w.stream.Selected(cfg.subjects, q) ==> Covered(w.view, q)
    ensures forall q: nat :: w.view.Last() < q < f ==> !w.stream.Selected(cfg.subjects, q)
  {
    var v := w.view;
    hide Stream.Selected;
    forall q: nat | v.Last() < q < f && w.stream.Selected(cfg.subjects, q) ensures false {
      assert Covered(v, q);
      assert v.Last() >= v.restored;
      var i :| 0 <= i < |v.log| && v.log[i].sequence == q;
    }
  }

  /** What a step that accepts no event has to show. */
  ghost predicate Settles<S, E>(v: View<S, E>, r: View<S, E>) {
    && Grows(v, r) && r.log == v.log && r.started
    && (v.failed.Some? ==> r.committed == v.committed)
    && (r.failed.Some? && v.failed.None? ==>
          r.failed.value == 0 || (r.committed < |r.log| && r.failed.value == r.log[r.committed].sequence))
    && (!r.ended ==> r.target == v.target)
  }

  lemma SettledGap<S, E, D>(cfg: Config<S, E, D>, w: World<S, E, D>, r: View<S, E>)
    requires Inv(cfg, w) && w.view.started && Settles(w.view, r) && ViewOk(cfg, r)
    ensures NoGapBeforeFailure(cfg, w.(view := r))
  {
    var v := w.view;
    LastMonotone(v, r);
    if r.failed.Some? && v.failed.None? && r.failed.value != 0 {
      forall q: nat | q < r.failed.value && w.stream.Selected(cfg.subjects, q) ensures Covered(r, q) {
        assert q <= w.position;
        assert Covered(v, q);
      }
      FailureAtPending(cfg, w.(view := r), r.failed.value);
    }
  }

  lemma AdvancedFrontier<S, E, D>(cfg: Config<S, E, D>, w: World<S, E, D>, r: View<S, E>)
    requires w.view.Shaped() && NoneSkipped(cfg, w) && LogIsStream(cfg, w) && w.view.restored <= w.position
    requires Grows(w.view, r) && r.log == w.view.log && Ascending(r)
    ensures FrontierReflected(cfg, w.(view := r))
  {
    var x := w.(view := r);
    HandledIsDelivered(cfg, x);
    forall q: nat | q <= r.Last() && w.stream.Selected(cfg.subjects, q) ensures Covered(r, q) {
      assert Covered(w.view, q);
    }
    FrontierFromCovered(cfg, x);
  }

  lemma SettledFrontier<S, E, D>(cfg: Config<S, E, D>, w: World<S, E, D>, r: View<S, E>)
    requires Inv(cfg, w) && Grows(w.view, r) && r.log == w.view.log && Ascending(r)
    requires w.view.failed.Some? ==> r.committed == w.view.committed
    ensures FrontierReflected(cfg, w.(view := r))
  {
    hide StartupCovered, PendingOk, PhaseOk, TargetOk, StateOk, NoGapBeforeFailure, LogIsStream, RosterOk;
    if w.view.failed.None? {
      AdvancedFrontier(cfg, w, r);
    } else {
      forall q: nat | q <= r.Last() && w.stream.Selected(cfg.subjects, q) ensures Reflected(r, q) {
        assert Reflected(w.view, q);
      }
    }
  }

  lemma SettledStartup<S, E, D>(cfg: Config<S, E, D>, w: World<S, E, D>, r: View<S, E>)
    requires Inv(cfg, w) && Grows(w.view, r) && r.log == w.view.log && r.hooks == w.view.hooks
    ensures StartupCovered(cfg, w.(view := r))
  {
    forall q: nat | r.hooks > 0 && q <= w.captured && w.stream.Selected(cfg.subjects, q) ensures Reflected(r, q) {
      assert Reflected(w.view, q);
    }
  }

  lemma Settled<S, E, D>(cfg: Config<S, E, D>, w: World<S, E, D>, r: View<S, E>)
    requires Inv(cfg, w) && w.view.started && Settles(w.view, r) && ViewOk(cfg, r) && WaitersOk(r)
    requires r.hooks > w.view.hooks ==> StartupCovered(cfg, w.(view := r))
    ensures Inv(cfg, w.(view := r))
  {
    SettledGap(cfg, w, r);
    SettledFrontier(cfg, w, r);
    if r.hooks == w.view.hooks {
      SettledStartup(cfg, w, r);
    }
    forall q: nat | r.failed.None? && q <= w.position && w.stream.Selected(cfg.subjects, q) ensures Covered(r, q) {
      assert Covered(w.view, q);
    }
  }

  /** Startup ended because the frontier reached the captured target. */
  lemma TargetReached<S, E, D>(cfg: Config<S, E, D>, w: World<S, E, D>, r: View<S, E>)
    requires Inv(cfg, w) && w.view.started && Settles(w.view, r) && ViewOk(cfg, r)
    requires w.view.failed.None? && !w.view.ended && r.Last() >= w.view.target
    ensures StartupCovered(cfg, w.(view := r))
  {
    HandledIsDelivered(cfg, w.(view := r));
    forall q: nat | q <= w.captured && w.stream.Selected(cfg.subjects, q) ensures Reflected(r, q) {
      assert Covered(w.view, q);
      assert Covered(r, q);
      ReachedIsReflected(r, q);
    }
  }

  lemma TickKeeps<S, E, D>(cfg: Config<S, E, D>, w: World<S, E, D>)
    requires Inv(cfg, w) && w.view.started
    ensures Inv(cfg, w.(view := OnTick(cfg, w.view)))
  {
    var v, r := w.view, OnTick(cfg, w.view);
    TickEffect(cfg, v);
    TickReleases(cfg, v);
    if r.hooks > v.hooks {
      TargetReached(cfg, w, r);
    }
    Settled(cfg, w, r);
  }

  lemma CheckKeeps<S, E, D>(cfg: Config<S, E, D>, w: World<S, E, D>)
    requires Inv(cfg, w) && w.view.started
    ensures Inv(cfg, w.(view := Finish(w.view)))
  {
    var v, r := w.view, Finish(w.view);
    FinishEffect(cfg, v);
    ThenPhase(v, v);
    if r.hooks > v.hooks {
      TargetReached(cfg, w, r);
    }
    Settled(cfg, w, r);
  }

  /** Nothing retained is above the frontier any more, so a lost target does not hold startup back. */
  lemma LostTarget<S, E, D>(cfg: Config<S, E, D>, w: World<S, E, D>, current: nat, r: View<S, E>)
    requires Inv(cfg, w) && w.view.started && w.view.failed.None? && Settles(w.view, r) && ViewOk(cfg, r)
    requires w.reading.Some? && TargetBetween(w.reading.value, w.stream, cfg.subjects, current)
    requires current <= w.view.Handled() && r.committed == |r.log|
    ensures StartupCovered(cfg, w.(view := r))
  {
    HandledIsDelivered(cfg, w);
    forall q: nat | q <= w.captured && w.stream.Selected(cfg.subjects, q) ensures Reflected(r, q) {
      assert q <= current;
      assert Covered(w.view, q);
      assert Covered(r, q);
      ReachedIsReflected(r, q);
    }
  }

  lemma ReconcileKeeps<S, E, D>(cfg: Config<S, E, D>, w: World<S, E, D>, current: nat)
    requires Inv(cfg, w) && Enabled(cfg, w, ReconcileFinish(current))
    ensures Inv(cfg, w.(view := OnReconcile(cfg, w.view, current)))
  {
    var v, r := w.view, OnReconcile(cfg, w.view, current);
    ReconcileEffect(cfg, v, current);
    ReconcileReleases(cfg, v, current);
    if r.hooks > v.hooks {
      LostTarget(cfg, w, current, r);
    }
    Settled(cfg, w, r);
  }

  lemma BreakDownKeeps<S, E, D>(cfg: Config<S, E, D>, w: World<S, E, D>)
    requires Inv(cfg, w) && w.view.started
    ensures Inv(cfg, w.(view := Fail(w.view, 0)))
  {
    FailEffect(cfg, w.view, 0);
    FailReleases(w.view, 0);
    Settled(cfg, w, Fail(w.view, 0));
  }

  lemma PublishKeeps<S, E, D>(cfg: Config<S, E, D>, w: World<S, E, D>, m: Message<D>)
    requires Inv(cfg, w)
    ensures Inv(cfg, w.(stream := Stream(w.stream.log + [m], w.stream.deleted)))
  {
    var n := Stream(w.stream.log + [m], w.stream.deleted);
    assert forall q: nat :: q <= w.stream.LastSeq() ==>
             w.stream.Selected(cfg.subjects, q) == n.Selected(cfg.subjects, q);
  }

  lemma DeleteKeeps<S, E, D>(cfg: Config<S, E, D>, w: World<S, E, D>, gone: nat)
    requires Inv(cfg, w)
    ensures Inv(cfg, w.(stream := Stream(w.stream.log, w.stream.deleted + {gone})))
  {
    var n := Stream(w.stream.log, w.stream.deleted + {gone});
    assert forall q: nat :: n.Selected(cfg.subjects, q) ==> w.stream.Selected(cfg.subjects, q);
  }

  lemma BeginKeeps<S, E, D>(cfg: Config<S, E, D>, w: World<S, E, D>, base: S, cutoff: nat, target: nat)
    requires Inv(cfg, w) && Enabled(cfg, w, Begin(base, cutoff, target)) && w.reading.None?
    ensures Inv(cfg, Do(cfg, w, Begin(base, cutoff, target)))
  {
    ReleaseKeeps(w.view.roster, w.view.Last(), false, cutoff);
  }

  // ------------------------------------------------------------------ delivery

  /** Once `q` is delivered, every matching record below `q` that is still retained was accepted. */
  lemma DeliveredInOrder<S, E, D>(cfg: Config<S, E, D>, w: World<S, E, D>, q: nat)
    requires Inv(cfg, w) && Enabled(cfg, w, Deliver(q)) && Replayed(cfg) && w.view.failed.None?
    ensures forall p: nat :: p < q && w.stream.Selected(cfg.subjects, p) ==> Covered(w.view, p)
  {
    forall p: nat | p < q && w.stream.Selected(cfg.subjects, p) ensures Covered(w.view, p) {
      assert cfg.Consumes(w.stream.At(p).subject);
      assert w.stream.Selected(cfg.replaySubjects, p);
    }
  }

  lemma IgnoredNoneSkipped<S, E, D>(cfg: Config<S, E, D>, w: World<S, E, D>, q: nat)
    requires Inv(cfg, w) && Enabled(cfg, w, Deliver(q)) && Replayed(cfg) && w.view.failed.None?
    requires !cfg.Consumes(w.stream.At(q).subject) || q <= w.view.restored
    ensures NoneSkipped(cfg, w.(position := q))
  {
    hide LogIsStream, NoGapBeforeFailure, FrontierReflected, StartupCovered, RosterOk, StateOk, PendingOk, TargetOk,
      PhaseOk, Ascending;
    DeliveredInOrder(cfg, w, q);
  }

  lemma IgnoredKeeps<S, E, D>(cfg: Config<S, E, D>, w: World<S, E, D>, q: nat)
    requires Inv(cfg, w) && Enabled(cfg, w, Deliver(q)) && Replayed(cfg)
    requires w.view.failed.None? ==> !cfg.Consumes(w.stream.At(q).subject) || q <= w.view.restored
    ensures Inv(cfg, w.(position := q))
  {
    var x := w.(position := q);
    if w.view.failed.None? {
      IgnoredNoneSkipped(cfg, w, q);
    }
    assert LogIsStream(cfg, x);
    assert StartupCovered(cfg, x);
    assert NoGapBeforeFailure(cfg, x);
  }

  lemma FailGap<S, E, D>(cfg: Config<S, E, D>, w: World<S, E, D>, f: nat)
    requires w.view.Shaped() && w.view.failed.None?
    requires forall q: nat :: w.view.Last() < q < f ==> !w.stream.Selected(cfg.subjects, q)
    ensures NoGapBeforeFailure(cfg, w.(view := Fail(w.view, f)))
  {
  }

  lemma UndecodableGap<S, E, D>(cfg: Config<S, E, D>, w: World<S, E, D>, q: nat, f: nat)
    requires Inv(cfg, w) && Enabled(cfg, w, Deliver(q)) && Replayed(cfg) && w.view.failed.None?
    requires f == if w.view.Waiting() > 0 then w.view.log[w.view.committed].sequence else q
    requires f <= q
    ensures forall p: nat :: w.view.Last() < p < f ==> !w.stream.Selected(cfg.subjects, p)
  {
    DeliveredInOrder(cfg, w, q);
    FailureAtPending(cfg, w, f);
  }

  lemma UndecodableKeeps<S, E, D>(cfg: Config<S, E, D>, w: World<S, E, D>, q: nat, f: nat)
    requires Inv(cfg, w) && Enabled(cfg, w, Deliver(q)) && Replayed(cfg) && w.view.failed.None?
    requires f == if w.view.Waiting() > 0 then w.view.log[w.view.committed].sequence else q
    ensures Inv(cfg, w.(view := Fail(w.view, f), position := q))
  {
    HandledIsDelivered(cfg, w);
    assert f <= q;
    UndecodableGap(cfg, w, q, f);
    FailGap(cfg, w, f);
    FailEffect(cfg, w.view, f);
    FailReleases(w.view, f);
    FailedKeeps(cfg, w, q, Fail(w.view, f));
  }

  lemma FailedKeeps<S, E, D>(cfg: Config<S, E, D>, w: World<S, E, D>, q: nat, r: View<S, E>)
    requires Inv(cfg, w) && Enabled(cfg, w, Deliver(q)) && w.view.failed.None?
    requires ViewOk(cfg, r) && WaitersOk(r) && Grows(w.view, r) && r.log == w.view.log && r.started
    requires r.failed.Some? && r.failed.value <= q && r.ended && r.hooks == w.view.hooks
    requires NoGapBeforeFailure(cfg, w.(view := r, position := q))
    ensures Inv(cfg, w.(view := r, position := q))
  {
    SettledFrontier(cfg, w, r);
    SettledStartup(cfg, w, r);
    assert LogIsStream(cfg, w.(view := r, position := q));
  }

  /** What the world must show after event `item` was accepted, beyond what the view shows. */
  lemma EventNoneSkipped<S, E, D>(cfg: Config<S, E, D>, w: World<S, E, D>, item: Item<E>, r: View<S, E>)
    requires Inv(cfg, w) && Enabled(cfg, w, Deliver(item.sequence)) && Replayed(cfg) && w.view.failed.None?
    requires EventOutcome(cfg, w.view, item, r)
    ensures r.failed.None? ==> NoneSkipped(cfg, w.(view := r, position := item.sequence))
    ensures forall p: nat :: p < item.sequence && w.stream.Selected(cfg.subjects, p) ==> Covered(r, p)
  {
    DeliveredInOrder(cfg, w, item.sequence);
    forall p: nat | p < item.sequence && w.stream.Selected(cfg.subjects, p) ensures Covered(r, p) {
      assert Covered(w.view, p);
      if p > r.restored {
        var i :| 0 <= i < |w.view.log| && w.view.log[i].sequence == p;
        assert r.log[i].sequence == p;
      }
    }
    if r.failed.None? {
      assert r.log[|r.log| - 1] == item;
    }
  }

  lemma EventGap<S, E, D>(cfg: Config<S, E, D>, w: World<S, E, D>, item: Item<E>, r: View<S, E>)
    requires Inv(cfg, w) && Enabled(cfg, w, Deliver(item.sequence)) && Replayed(cfg) && w.view.failed.None?
    requires EventOutcome(cfg, w.view, item, r) && item.sequence > w.view.Handled()
    ensures NoGapBeforeFailure(cfg, w.(view := r, position := item.sequence))
    ensures r.failed.Some? ==> r.failed.value <= item.sequence
  {
    if r.failed.Some? {
      EventNoneSkipped(cfg, w, item, r);
      assert r.log[r.committed].sequence <= item.sequence;
      FailureAtPending(cfg, w.(view := r), r.failed.value);
    }
  }

  /** The hook ran while this event was handled. */
  lemma EventEndsStartup<S, E, D>(cfg: Config<S, E, D>, w: World<S, E, D>, item: Item<E>, r: View<S, E>)
    requires Inv(cfg, w) && Enabled(cfg, w, Deliver(item.sequence)) && Replayed(cfg) && w.view.failed.None?
    requires EventOutcome(cfg, w.view, item, r) && r.hooks > w.view.hooks
    ensures StartupCovered(cfg, w.(view := r, position := item.sequence))
  {
    hide FrontierReflected, NoGapBeforeFailure, LogIsStream, WaitersOk;
    var v := w.view;
    EventNoneSkipped(cfg, w, item, r);
    DeliveredInOrder(cfg, w, item.sequence);
    forall p: nat | p <= w.captured && w.stream.Selected(cfg.subjects, p) ensures Reflected(r, p) {
      if r.failed.None? && r.Last() >= v.target {
        LastMonotone(r, r);
        assert Covered(r, p);
        ReachedIsReflected(r, p);
      } else if p > r.restored {
        assert Covered(v, p);
        var i :| 0 <= i < |v.log| && v.log[i].sequence == p;
        assert r.log[i].sequence == p && i < r.committed;
      }
    }
  }

  lemma EventStartup<S, E, D>(cfg: Config<S, E, D>, w: World<S, E, D>, item: Item<E>, r: View<S, E>)
    requires Inv(cfg, w) && Enabled(cfg, w, Deliver(item.sequence)) && Replayed(cfg) && w.view.failed.None?
    requires EventOutcome(cfg, w.view, item, r)
    ensures StartupCovered(cfg, w.(view := r, position := item.sequence))
  {
    if r.hooks > w.view.hooks {
      EventEndsStartup(cfg, w, item, r);
    } else {
      forall p: nat | r.hooks > 0 && p <= w.captured && w.stream.Selected(cfg.subjects, p) ensures Reflected(r, p) {
        assert Reflected(w.view, p);
        StaysReflected(w.view, r, p);
      }
    }
  }

  lemma StaysReflected<S, E>(v: View<S, E>, r: View<S, E>, p: nat)
    requires Grows(v, r) && Reflected(v, p)
    ensures Reflected(r, p)
  {
    if p > r.restored {
      var i :| 0 <= i < v.committed && v.log[i].sequence == p;
      assert r.log[i].sequence == p;
    }
  }

  lemma EventFrontier<S, E, D>(cfg: Config<S, E, D>, w: World<S, E, D>, item: Item<E>, r: View<S, E>)
    requires Inv(cfg, w) && Enabled(cfg, w, Deliver(item.sequence)) && Replayed(cfg) && w.view.failed.None?
    requires EventOutcome(cfg, w.view, item, r) && item.sequence > w.view.Handled()
    ensures FrontierReflected(cfg, w.(view := r, position := item.sequence))
  {
    EventNoneSkipped(cfg, w, item, r);
    var x := w.(view := r, position := item.sequence);
    assert r.Last() <= item.sequence && (r.failed.Some? ==> r.Last() < item.sequence);
    FrontierFromCovered(cfg, x);
  }

  lemma EventLog<S, E, D>(cfg: Config<S, E, D>, w: World<S, E, D>, item: Item<E>, r: View<S, E>)
    requires Inv(cfg, w) && Enabled(cfg, w, Deliver(item.sequence))
    requires item.subject == w.stream.At(item.sequence).subject && cfg.Consumes(item.subject)
    requires cfg.decode(w.stream.At(item.sequence).data) == Some(item.event)
    requires EventOutcome(cfg, w.view, item, r)
    ensures LogIsStream(cfg, w.(view := r, position := item.sequence))
  {
  }

  lemma EventKeeps<S, E, D>(cfg: Config<S, E, D>, w: World<S, E, D>, item: Item<E>)
    requires Inv(cfg, w) && Enabled(cfg, w, Deliver(item.sequence)) && Replayed(cfg) && w.view.failed.None?
    requires item.subject == w.stream.At(item.sequence).subject && cfg.Consumes(item.subject)
    requires cfg.decode(w.stream.At(item.sequence).data) == Some(item.event)
    ensures Inv(cfg, w.(view := Finish(OnEvent(cfg, w.view, item)), position := item.sequence))
  {
    var v := w.view;
    HandledIsDelivered(cfg, w);
    EventEffect(cfg, v, item);
    EventReleases(cfg, v, item);
    ThenPhase(v, OnEvent(cfg, v, item));
    AcceptedKeeps(cfg, w, item, Finish(OnEvent(cfg, v, item)));
  }

  lemma AcceptedKeeps<S, E, D>(cfg: Config<S, E, D>, w: World<S, E, D>, item: Item<E>, r: View<S, E>)
    requires Inv(cfg, w) && Enabled(cfg, w, Deliver(item.sequence)) && Replayed(cfg) && w.view.failed.None?
    requires item.subject == w.stream.At(item.sequence).subject && cfg.Consumes(item.subject)
    requires cfg.decode(w.stream.At(item.sequence).data) == Some(item.event)
    requires EventOutcome(cfg, w.view, item, r) && WaitersOk(r) && item.sequence > w.view.Handled()
    ensures Inv(cfg, w.(view := r, position := item.sequence))
  {
    EventLog(cfg, w, item, r);
    EventNoneSkipped(cfg, w, item, r);
    EventGap(cfg, w, item, r);
    EventFrontier(cfg, w, item, r);
    EventStartup(cfg, w, item, r);
  }

  lemma DeliverKeeps<S, E, D>(cfg: Config<S, E, D>, w: World<S, E, D>, q: nat)
    requires Inv(cfg, w) && Enabled(cfg, w, Deliver(q)) && Replayed(cfg)
    ensures Inv(cfg, Do(cfg, w, Deliver(q)))
  {
    var v, m := w.view, w.stream.At(q);
    if v.failed.Some? || !cfg.Consumes(m.subject) || (v.restored > 0 && q <= v.restored) {
      IgnoredKeeps(cfg, w, q);
    } else {
      match cfg.decode(m.data)
      case None => UndecodableKeeps(cfg, w, q, if v.Waiting() > 0 then v.log[v.committed].sequence else q);
      case Some(event) => EventKeeps(cfg, w, Item(event, m.subject, q));
    }
  }

  lemma CallerViewOk<S, E, D>(cfg: Config<S, E, D>, v: View<S, E>, r: View<S, E>)
    requires ViewOk(cfg, v) && r.Shaped() && r == v.(roster := r.roster)
    ensures ViewOk(cfg, r) && r.Last() == v.Last() && r.Handled() == v.Handled()
  {
  }

  lemma CallerLeavesLog<S, E, D>(cfg: Config<S, E, D>, w: World<S, E, D>, r: View<S, E>)
    requires r.Shaped() && w.view.Shaped() && LogIsStream(cfg, w) && NoGapBeforeFailure(cfg, w)
    requires r == w.view.(roster := r.roster)
    ensures LogIsStream(cfg, w.(view := r)) && NoGapBeforeFailure(cfg, w.(view := r))
  {
  }

  lemma CallerKeeps<S, E, D>(cfg: Config<S, E, D>, w: World<S, E, D>, r: View<S, E>)
    requires Inv(cfg, w) && r.Shaped() && WaitersOk(r)
    requires r == w.view.(roster := r.roster)
    ensures Inv(cfg, w.(view := r))
  {
    hide FrontierReflected, StartupCovered, NoneSkipped, RosterOk, LogIsStream, NoGapBeforeFailure, PendingOk, PhaseOk,
      TargetOk, StateOk;
    SettledStartup(cfg, w, r);
    SettledFrontier(cfg, w, r);
    CallerViewOk(cfg, w.view, r);
    CallerLeavesLog(cfg, w, r);
    if r.failed.None? {
      CallerNoneSkipped(cfg, w, r);
    }
  }

  lemma CallerNoneSkipped<S, E, D>(cfg: Config<S, E, D>, w: World<S, E, D>, r: View<S, E>)
    requires NoneSkipped(cfg, w) && r == w.view.(roster := r.roster)
    ensures NoneSkipped(cfg, w.(view := r))
  {
    forall q: nat | q <= w.position && w.stream.Selected(cfg.subjects, q) ensures Covered(r, q) {
      assert Covered(w.view, q);
    }
  }

  // ------------------------------------------------------------------ runs

  lemma ReconcileStartKeeps<S, E, D>(cfg: Config<S, E, D>, w: World<S, E, D>)
    requires Inv(cfg, w) && Enabled(cfg, w, ReconcileStart)
    ensures Inv(cfg, Do(cfg, w, ReconcileStart))
  {
  }

  lemma ReconcileFinishKeeps<S, E, D>(cfg: Config<S, E, D>, w: World<S, E, D>, current: nat)
    requires Inv(cfg, w) && Enabled(cfg, w, ReconcileFinish(current)) && Replayed(cfg)
    ensures Inv(cfg, Do(cfg, w, ReconcileFinish(current)))
  {
    ReconcileKeeps(cfg, w, current);
  }

  lemma WaitStepKeeps<S, E, D>(cfg: Config<S, E, D>, w: World<S, E, D>, q: nat)
    requires Inv(cfg, w)
    ensures Inv(cfg, Do(cfg, w, Wait(q)))
  {
    hide Config.Fold, RosterOk, LogIsStream, NoneSkipped, NoGapBeforeFailure, FrontierReflected, StartupCovered, Bounds;
    WaitKeeps(w.view, q);
    CallerKeeps(cfg, w, OnWait(w.view, q));
  }

  lemma CancelStepKeeps<S, E, D>(cfg: Config<S, E, D>, w: World<S, E, D>, id: nat)
    requires Inv(cfg, w)
    ensures Inv(cfg, Do(cfg, w, Cancel(id)))
  {
    hide Config.Fold, RosterOk, LogIsStream, NoneSkipped, NoGapBeforeFailure, FrontierReflected, StartupCovered, Bounds;
    CancelKeeps(w.view, id);
    CallerKeeps(cfg, w, OnCancel(w.view, id));
  }

  /** Every step the environment can take keeps the invariant. */
  lemma StepKeeps<S, E, D>(cfg: Config<S, E, D>, w: World<S, E, D>, step: Step<S, D>)
    requires Inv(cfg, w) && Enabled(cfg, w, step) && Replayed(cfg)
    ensures Inv(cfg, Do(cfg, w, step))
  {
    hide LogIsStream, NoneSkipped, NoGapBeforeFailure, FrontierReflected, StartupCovered, RosterOk, StateOk, PendingOk;
    match step
    case Publish(m) => PublishKeeps(cfg, w, m);
    case Delete(q) => DeleteKeeps(cfg, w, q);
    case Begin(base, cutoff, target) => BeginKeeps(cfg, w, base, cutoff, target);
    case Deliver(q) => DeliverKeeps(cfg, w, q);
    case BreakDown => BreakDownKeeps(cfg, w);
    case Tick => TickKeeps(cfg, w);
    case CheckStartup => CheckKeeps(cfg, w);
    case ReconcileStart => ReconcileStartKeeps(cfg, w);
    case ReconcileFinish(current) => ReconcileFinishKeeps(cfg, w, current);
    case Wait(q) => WaitStepKeeps(cfg, w, q);
    case Cancel(id) => CancelStepKeeps(cfg, w, id);
  }

  ghost predicate Next<S, E, D>(cfg: Config<S, E, D>, w: World<S, E, D>, step: Step<S, D>, x: World<S, E, D>) {
    && w.view.Shaped() && Enabled(cfg, w, step)
    && (step.Begin? ==> w.view.log == [])
    && x == Do(cfg, w, step)
  }

  /** `worlds` is a run: `steps[i]` leads from `worlds[i]` to `worlds[i + 1]`. */
  ghost predicate Run<S, E, D>(cfg: Config<S, E, D>, worlds: seq<World<S, E, D>>, steps: seq<Step<S, D>>) {
    && |worlds| == |steps| + 1
    && Initial(worlds[0])
    && forall i :: 0 <= i < |steps| ==> Next(cfg, worlds[i], steps[i], worlds[i + 1])
  }

  lemma {:induction false} RunKeeps<S, E, D>(cfg: Config<S, E, D>, worlds: seq<World<S, E, D>>, steps: seq<Step<S, D>>,
                                             n: nat)
    requires Replayed(cfg) && Run(cfg, worlds, steps) && n <= |steps|
    ensures Inv(cfg, worlds[n])
    decreases n
  {
    if n > 0 {
      RunKeeps(cfg, worlds, steps, n - 1);
      NthStep(cfg, worlds, steps, n - 1);
      StepKeeps(cfg, worlds[n - 1], steps[n - 1]);
    } else {
      InitialInv(cfg, worlds[0]);
    }
  }

  lemma NthStep<S, E, D>(cfg: Config<S, E, D>, worlds: seq<World<S, E, D>>, steps: seq<Step<S, D>>, n: nat)
    requires Run(cfg, worlds, steps) && n < |steps|
    ensures Next(cfg, worlds[n], steps[n], worlds[n + 1])
  {
  }

  lemma InitialInv<S, E, D>(cfg: Config<S, E, D>, w: World<S, E, D>)
    requires Initial(w)
    ensures Inv(cfg, w)
  {
    assert cfg.Fold(w.view.base, w.view.log, 0, 0) == Applied(w.view.base);
  }
}
