/**
 The projector object (pkg/events/projector.go): its fields, its batches and its entry points.
 Every entry point is proved to be the step of the same name on the `View` of Projections.dfy, so
 the theorems about runs of views are theorems about this object.
 */
module ProjectorObject {
  import opened EventStream
  import Subjects
  import opened Waiters
  import opened Projections
  import opened ProjectorInvariants

  // ------------------------------------------------------------------ waiters as a shrinking list

  lemma {:induction false} ReachedShift(all: seq<Waiter>, released: nat, from: nat, last: nat)
    requires released <= |all| && from <= |all| - released
    ensures Reached(all, released + from, last) == released + Reached(all[released..], from, last)
    decreases |all| - released - from
  {
    if from < |all| - released {
      assert all[released..][from] == all[released + from];
      if all[released + from].sequence <= last {
        ReachedShift(all, released, from + 1, last);
      }
    }
  }

  lemma {:induction false} InsertionShift(all: seq<Waiter>, released: nat, from: nat, q: nat)
    requires released <= |all| && from <= |all| - released
    ensures InsertionPoint(all, released + from, q) == released + InsertionPoint(all[released..], from, q)
    decreases |all| - released - from
  {
    if from < |all| - released {
      assert all[released..][from] == all[released + from];
      if all[released + from].sequence < q {
        InsertionShift(all, released, from + 1, q);
      }
    }
  }

  lemma {:induction false} FindShift(all: seq<Waiter>, released: nat, from: nat, id: nat)
    requires released <= |all| && from <= |all| - released
    ensures Find(all, released + from, id) == released + Find(all[released..], from, id)
    decreases |all| - released - from
  {
    if from < |all| - released {
      assert all[released..][from] == all[released + from];
      if all[released + from].id != id {
        FindShift(all, released, from + 1, id);
      }
    }
  }

  lemma ReleaseDrops(r: Roster, last: nat)
    requires r.Shaped()
    ensures r.Release(last).Blocked() == r.Blocked()[Reached(r.Blocked(), 0, last)..]
  {
    ReachedShift(r.all, r.released, 0, last);
  }

  lemma JoinInserts(r: Roster, q: nat)
    requires r.Shaped()
    ensures var i := InsertionPoint(r.Blocked(), 0, q);
            r.Join(q).Blocked() == r.Blocked()[..i] + [Waiter(r.nextId, q)] + r.Blocked()[i..]
  {
    InsertionShift(r.all, r.released, 0, q);
  }

  lemma DropRemoves(r: Roster, id: nat)
    requires r.Shaped()
    ensures var i := Find(r.Blocked(), 0, id);
            r.Drop(id).Blocked() == if i == |r.Blocked()| then r.Blocked() else r.Blocked()[..i] + r.Blocked()[i + 1..]
  {
    FindShift(r.all, r.released, 0, id);
  }

  // ------------------------------------------------------------------ flushing a batch

  /** A batch that was applied commits everything pending. */
  lemma BatchApplied<S, E, D>(cfg: Config<S, E, D>, v: View<S, E>, batch: seq<Item<E>>, next: S)
    requires v.Shaped() && Ascending(v) && batch == v.log[v.committed..] && batch != []
    requires cfg.Fold(v.state, batch, 0, |batch|) == Applied(next)
    ensures var last := batch[|batch| - 1].sequence;
            && last > v.Last()
            && Commit(cfg, v, true) == v.(state := next, committed := |v.log|, roster := v.roster.Release(last))
            && Commit(cfg, v, true).Last() == last
  {
    hide Config.Fold;
    FoldSame(cfg, v.state, v.log, v.committed, batch, |batch|);
  }

  /** A batch that was rejected fails the projector at its first event. */
  lemma BatchRejected<S, E, D>(cfg: Config<S, E, D>, v: View<S, E>, batch: seq<Item<E>>)
    requires v.Shaped() && batch == v.log[v.committed..] && batch != []
    requires cfg.Fold(v.state, batch, 0, |batch|).Rejected?
    ensures Commit(cfg, v, true) == Fail(v, batch[0].sequence)
  {
    FoldSame(cfg, v.state, v.log, v.committed, batch, |batch|);
  }

  lemma SingleApply<S, E, D>(cfg: Config<S, E, D>, v: View<S, E>, item: Item<E>)
    requires v.Shaped() && v.Waiting() == 0
    ensures var appended := v.(log := v.log + [item]);
            appended.Last() == v.Last() &&
            Commit(cfg, appended, false) ==
              match cfg.prepare(v.state, item)
              case Rejected(left) => Fail(appended.(state := left), item.sequence)
              case Applied(next) =>
                appended.(state := next, committed := |v.log| + 1, roster := v.roster.Release(item.sequence))
  {
    var appended := v.(log := v.log + [item]);
    assert cfg.Fold(v.state, appended.log, v.committed, v.committed) == Applied(v.state);
    assert appended.log[appended.committed] == item;
  }

  lemma FailTwice<S, E>(v: View<S, E>, q: nat, r: nat)
    requires v.Shaped()
    ensures Fail(Fail(v, q), r) == Fail(v, q)
  {
  }

  /** Startup cannot end while startup events are pending. */
  lemma StillPending<S, E, D>(cfg: Config<S, E, D>, v: View<S, E>, item: Item<E>)
    requires ViewOk(cfg, v) && v.started && v.failed.None? && item.sequence > v.Handled()
    ensures var r := OnEvent(cfg, v, item);
            r.failed.None? && !r.ended && r.Waiting() > 0 ==> r.Last() < r.target
  {
    if cfg.startupSize > 1 && !v.ended && item.sequence <= v.target {
      Appended(cfg, v, item);
      LastMonotone(v, v);
      CommitEffect(cfg, v.(log := v.log + [item]), true);
    } else if v.ended {
      PastStartupCommits(cfg, v, item);
    } else {
      CommitEffect(cfg, v, true);
      var v0 := Commit(cfg, v, true);
      if v0.failed.None? {
        PastStartupCommits(cfg, v0, item);
      }
    }
  }

  lemma PastStartupCommits<S, E, D>(cfg: Config<S, E, D>, v: View<S, E>, item: Item<E>)
    requires v.Shaped() && v.started && v.failed.None? && (v.ended || v.Waiting() == 0)
    ensures var r := PastStartup(cfg, v, item);
            r.failed.None? && !r.ended ==> r.Waiting() == 0
  {
  }

  lemma FailedCommitEnds<S, E, D>(cfg: Config<S, E, D>, v: View<S, E>, batched: bool)
    requires v.Shaped() && v.started && v.failed.None?
    ensures var r := Commit(cfg, v, batched); r.started && (r.failed.Some? ==> r.ended)
  {
    hide Config.Fold;
  }

  lemma PastStartupEnds<S, E, D>(cfg: Config<S, E, D>, v: View<S, E>, item: Item<E>)
    requires v.Shaped() && v.started && v.failed.None?
    ensures PastStartup(cfg, v, item).failed.Some? ==> PastStartup(cfg, v, item).ended
  {
    hide Commit;
    var v2 := Finish(LowerTarget(v));
    FailedCommitEnds(cfg, v2.(log := v2.log + [item]), true);
    FailedCommitEnds(cfg, v.(log := v.log + [item]), false);
  }

  lemma FailureEndsStartup<S, E, D>(cfg: Config<S, E, D>, v: View<S, E>, item: Item<E>)
    requires v.Shaped() && v.started && v.failed.None?
    ensures OnEvent(cfg, v, item).failed.Some? ==> OnEvent(cfg, v, item).ended
  {
    hide Commit, PastStartup;
    if cfg.startupSize > 1 && !v.ended && item.sequence <= v.target {
      FailedCommitEnds(cfg, v.(log := v.log + [item]), true);
    } else {
      var v0 := if v.ended then v else Commit(cfg, v, true);
      FailedCommitEnds(cfg, v, true);
      if v0.failed.None? {
        PastStartupEnds(cfg, v0, item);
      }
    }
  }

  /** What the projector object needs to know about an accepted event. */
  lemma AcceptFacts<S, E, D>(cfg: Config<S, E, D>, v: View<S, E>, item: Item<E>)
    requires ViewOk(cfg, v) && v.started && v.failed.None? && item.sequence > v.Handled()
    ensures var r := OnEvent(cfg, v, item);
            && ViewOk(cfg, Finish(r))
            && (r.failed.Some? ==> Finish(r) == r)
            && (r.failed.None? && !r.ended && r.Waiting() > 0 ==> r.Last() < r.target)
  {
    EventEffect(cfg, v, item);
    StillPending(cfg, v, item);
    FailureEndsStartup(cfg, v, item);
  }

  lemma TickFacts<S, E, D>(cfg: Config<S, E, D>, v: View<S, E>)
    requires ViewOk(cfg, v) && v.started
    ensures v.failed.None? && !v.ended && v.Waiting() > 0 ==> v.Last() < v.target
    ensures v.Waiting() == 0 ==> Commit(cfg, v, true) == v
    ensures var r := OnTick(cfg, v);
            v.failed.None? && v.ended ==>
              r.log == v.log && r.ended && (r.failed.None? ==> r.committed == |r.log| && r.Last() == v.Handled())
  {
    LastMonotone(v, v);
    if v.failed.None? && v.ended {
      CommitEffect(cfg, v, true);
    }
  }

  lemma BeginOk<S, E, D>(cfg: Config<S, E, D>, v: View<S, E>, base: S, cutoff: nat, target: nat)
    requires ViewOk(cfg, v) && !v.started
    ensures ViewOk(cfg, OnBegin(v, base, cutoff, target)) && v.Last() == 0 && v.log == []
  {
    assert cfg.Fold(base, v.log, 0, 0) == Applied(base);
  }

  lemma CallersLeaveView<S, E, D>(cfg: Config<S, E, D>, v: View<S, E>, r: View<S, E>)
    requires ViewOk(cfg, v) && r.Shaped() && r == v.(roster := r.roster)
    ensures ViewOk(cfg, r) && r.Last() == v.Last()
  {
    assert r.Handled() == v.Handled();
  }

  // ------------------------------------------------------------------ the object

  class Projector<S(!new), E(!new), D> {
    const cfg: Config<S, E, D>
    var state: S
    var lastSeq: nat
    var waiters: seq<Waiter>
    var nextWaiter: nat
    var hasFailed: bool
    var failedSeq: nat
    var started: bool
    var startupEnded: bool
    var startupCompleted: bool
    var startupTargetSeq: nat
    var startupBatch: seq<Item<E>>
    var liveBatch: seq<Item<E>>
    var timerArmed: bool
    var restoredSeq: nat
    ghost var view: View<S, E>

    /** The fields show `view`. */
    ghost predicate Shows()
      reads this
    {
      && view.Shaped()
      && state == view.state && lastSeq == view.Last() && restoredSeq == view.restored
      && started == view.started && startupEnded == view.ended && startupTargetSeq == view.target
      && (startupCompleted <==> view.hooks > 0)
      && hasFailed == view.failed.Some? && (hasFailed ==> failedSeq == view.failed.value)
      && waiters == view.roster.Blocked() && nextWaiter == view.roster.nextId
      && (timerArmed ==> liveBatch != [])
    }

    /** The two batches are the pending events; which one is used tells the startup phase. */
    ghost predicate Batches()
      requires view.Shaped()
      reads this
    {
      !hasFailed ==>
        if startupEnded
          then startupBatch == [] && liveBatch == view.log[view.committed..] && (liveBatch != [] ==> timerArmed)
        else liveBatch == [] && startupBatch == view.log[view.committed..]
    }

    ghost predicate Valid()
      reads this
    {
      BatchesFold(cfg) && Shows() && Batches() && ViewOk(cfg, view)
    }

    constructor (config: Config<S, E, D>, empty: S)
      requires BatchesFold(config)
      ensures Valid() && cfg == config && !started && view.log == [] && view.roster == Roster([], 0, 0)
      ensures view.hooks == 0
    {
      cfg := config;
      state, lastSeq, waiters, nextWaiter := empty, 0, [], 0;
      hasFailed, failedSeq := false, 0;
      started, startupEnded, startupCompleted, startupTargetSeq := false, false, false, 0;
      startupBatch, liveBatch, timerArmed, restoredSeq := [], [], false, 0;
      view := View(empty, 0, empty, [], 0, false, 0, false, 0, None, Roster([], 0, 0));
    }

    // ---------------------------------------------------------------- the frontier and its waiters

    /** advance: raise lastSeq and pop the waiters it reaches. */
    method Advance(q: nat, ghost roster: Roster)
      requires roster.Shaped() && waiters == roster.Blocked()
      modifies `lastSeq, `waiters
      ensures lastSeq == if q > old(lastSeq) then q else old(lastSeq)
      ensures waiters == roster.Release(lastSeq).Blocked()
    {
      if q > lastSeq {
        lastSeq := q;
      }
      var i := 0;
      while i < |waiters| && waiters[i].sequence <= lastSeq
        invariant 0 <= i <= |waiters|
        invariant Reached(waiters, i, lastSeq) == Reached(waiters, 0, lastSeq)
      {
        i := i + 1;
      }
      ReleaseDrops(roster, lastSeq);
      if i > 0 {
        waiters := waiters[i..];
      }
    }

    /** fail: record the first failure and release everyone. */
    method Fail(q: nat)
      requires Shows()
      modifies this
      ensures Shows() && Batches() && view == Projections.Fail(old(view), q)
    {
      if !hasFailed {
        hasFailed, failedSeq := true, q;
        if started {
          startupEnded := true;
        }
      }
      waiters := [];
      view := Projections.Fail(view, q);
    }

    // ---------------------------------------------------------------- batches

    /** The batch `batch` of pending events was applied with result `next`. */
    method Settle(next: S, last: nat, ghost batch: seq<Item<E>>)
      requires Shows() && Ascending(view)
      requires batch == view.log[view.committed..] && batch != [] && last == batch[|batch| - 1].sequence
      requires cfg.Fold(state, batch, 0, |batch|) == Applied(next)
      modifies `state, `lastSeq, `waiters, `view
      ensures Shows() && view == Commit(cfg, old(view), true)
      ensures view.failed == old(view.failed) && view.committed == |view.log| && view.log == old(view.log)
      ensures view.ended == old(view.ended)
    {
      BatchApplied(cfg, view, batch, next);
      Advance(last, view.roster);
      state := next;
      view := view.(state := next, committed := |view.log|, roster := view.roster.Release(last));
    }

    /** flushStartupBatch: on failure nothing was applied and the first batched sequence is reported. */
    method FlushStartupBatch() returns (failureSeq: nat, ok: bool)
      requires BatchesFold(cfg) && Shows() && Batches() && Ascending(view) && !hasFailed && !startupEnded
      modifies this
      ensures Shows() && Batches() && !hasFailed && !startupEnded
      ensures ok ==> view == Commit(cfg, old(view), true)
      ensures !ok ==> view == old(view) && Commit(cfg, view, true) == Projections.Fail(view, failureSeq)
    {
      if |startupBatch| == 0 {
        return 0, true;
      }
      var first := startupBatch[0].sequence;
      var last := startupBatch[|startupBatch| - 1].sequence;
      match cfg.applyStartup(state, startupBatch)
      case Rejected(_) =>
        BatchRejected(cfg, view, startupBatch);
        return first, false;
      case Applied(next) =>
        Settle(next, last, startupBatch);
        startupBatch := [];
        return 0, true;
    }

    /** flushLiveBatch: a failed batch is recorded at once so that nothing applies it again. */
    method FlushLiveBatch() returns (failureSeq: nat, ok: bool)
      requires BatchesFold(cfg) && Shows() && Batches() && Ascending(view)
      modifies this
      ensures Shows() && Batches()
      ensures view == if old(liveBatch) == [] || old(hasFailed) then old(view) else Commit(cfg, old(view), true)
      ensures ok <==> (old(hasFailed) || !hasFailed)
      ensures !ok ==> Projections.Fail(view, failureSeq) == view
    {
      if |liveBatch| == 0 || hasFailed {
        return 0, true;
      }
      var first := liveBatch[0].sequence;
      timerArmed := false;
      var last := liveBatch[|liveBatch| - 1].sequence;
      match cfg.applyLive(state, liveBatch)
      case Rejected(_) =>
        BatchRejected(cfg, view, liveBatch);
        FailTwice(view, first, first);
        Fail(first);
        return first, false;
      case Applied(next) =>
        Settle(next, last, liveBatch);
        liveBatch := [];
        return 0, true;
    }

    // ---------------------------------------------------------------- startup

    /** completeStartupLocked: end startup, run the hook and report completion. */
    method CompleteStartupLocked() returns (completed: bool)
      requires Shows() && Batches()
      requires !hasFailed && !startupEnded && startupBatch != [] ==> lastSeq < startupTargetSeq
      modifies this
      ensures Shows() && Batches() && view == Finish(old(view))
      ensures completed <==> view.hooks > old(view.hooks)
      ensures liveBatch == old(liveBatch) && startupBatch == old(startupBatch)
    {
      if !started || startupEnded || lastSeq < startupTargetSeq {
        return false;
      }
      startupEnded := true;
      startupCompleted := true;
      view := Finish(view);
      return true;
    }

    // ---------------------------------------------------------------- events

    /** Advance past the single event that was just appended to the view and applied. */
    method SettleOne(next: S, item: Item<E>)
      requires Shows() && view.committed + 1 == |view.log| && view.log[view.committed] == item
      requires item.sequence > view.Last()
      modifies `state, `lastSeq, `waiters, `view
      ensures Shows()
      ensures view == old(view).(state := next, committed := |old(view).log|,
                roster := old(view).roster.Release(item.sequence))
    {
      Advance(item.sequence, view.roster);
      state := next;
      view := view.(state := next, committed := |view.log|, roster := view.roster.Release(item.sequence));
    }

    /** The single apply of applyEvent: on failure the projection keeps whatever the apply left. */
    method ApplyOne(item: Item<E>) returns (failureSeq: nat, ok: bool)
      requires Shows() && Batches() && !hasFailed && view.Waiting() == 0
      requires item.sequence > view.Last()
      modifies `state, `lastSeq, `waiters, `view
      ensures Shows() && !hasFailed
      ensures ok ==> Batches() && view == Commit(cfg, old(view).(log := old(view).log + [item]), false)
      ensures !ok ==>
                Projections.Fail(view, failureSeq) == Commit(cfg, old(view).(log := old(view).log + [item]), false)
    {
      SingleApply(cfg, view, item);
      match cfg.prepare(state, item)
      case Rejected(left) =>
        state := left;
        view := view.(log := view.log + [item], state := left);
        return item.sequence, false;
      case Applied(next) =>
        view := view.(log := view.log + [item]);
        SettleOne(next, item);
        return 0, true;
    }

    /** Startup must be over before a live event is buffered: finish at the applied frontier. */
    method EndStartupForLive()
      requires Shows() && Batches() && !hasFailed && started && (startupEnded || startupBatch == [])
      modifies this
      ensures Shows() && Batches() && !hasFailed && startupEnded
      ensures view == Finish(LowerTarget(old(view)))
    {
      if !startupEnded && lastSeq < startupTargetSeq {
        startupTargetSeq := lastSeq;
      }
      view := LowerTarget(view);
      var _ := CompleteStartupLocked();
    }

    method AppendLive(item: Item<E>)
      requires Shows() && Batches() && startupEnded && !hasFailed
      modifies `liveBatch, `timerArmed, `view
      ensures Shows() && Batches() && view == old(view).(log := old(view).log + [item])
      ensures liveBatch == old(liveBatch) + [item]
    {
      liveBatch := liveBatch + [item];
      timerArmed := true;
      view := view.(log := view.log + [item]);
    }

    method FlushFullLive() returns (failureSeq: nat, ok: bool)
      requires BatchesFold(cfg) && Shows() && Batches() && Ascending(view) && startupEnded && !hasFailed
      requires cfg.liveSize > 0
      modifies this
      ensures Shows() && Batches()
      ensures view == if old(view).Waiting() >= cfg.liveSize then Commit(cfg, old(view), true) else old(view)
      ensures ok <==> !hasFailed
      ensures !ok ==> Projections.Fail(view, failureSeq) == view
    {
      assert |liveBatch| == view.Waiting();
      if |liveBatch| >= cfg.liveSize {
        failureSeq, ok := FlushLiveBatch();
      } else {
        failureSeq, ok := 0, true;
      }
    }

    /** The live branch of applyEvent: end startup first, then buffer, and flush a full batch. */
    method BufferLive(item: Item<E>) returns (failureSeq: nat, ok: bool)
      requires BatchesFold(cfg) && Shows() && Batches() && Ascending(view) && !hasFailed && started
      requires startupEnded || startupBatch == []
      requires item.sequence > view.Handled() && cfg.liveSize > 0 && item.sequence > startupTargetSeq
      modifies this
      ensures Shows() && Batches() && view == PastStartup(cfg, old(view), item)
      ensures ok <==> !hasFailed
      ensures !ok ==> Projections.Fail(view, failureSeq) == view
    {
      ghost var v := view;
      ghost var v1 := Finish(LowerTarget(v));
      PhaseChange(v);
      AppendAscends(v1, item);
      EndStartupForLive();
      AppendLive(item);
      assert view == v1.(log := v1.log + [item]);
      failureSeq, ok := FlushFullLive();
    }

    /** The startup branch of applyEvent: buffer, and flush at the batch size or at the target. */
    method BufferStartup(item: Item<E>) returns (failureSeq: nat, ok: bool)
      requires BatchesFold(cfg) && Shows() && Batches() && Ascending(view) && !hasFailed && !startupEnded
      requires item.sequence > view.Handled()
      modifies this
      ensures Shows() && (ok ==> Batches() && !hasFailed)
      ensures var v1 := old(view).(log := old(view).log + [item]);
              var next := if v1.Waiting() < cfg.startupSize && item.sequence < old(startupTargetSeq) then v1
                else Commit(cfg, v1, true);
              if ok then view == next else Projections.Fail(view, failureSeq) == next
    {
      AppendAscends(view, item);
      startupBatch := startupBatch + [item];
      view := view.(log := view.log + [item]);
      assert |startupBatch| == view.Waiting();
      if |startupBatch| < cfg.startupSize && item.sequence < startupTargetSeq {
        return 0, true;
      }
      failureSeq, ok := FlushStartupBatch();
    }

    /** What applyEvent does with an event that is not part of the startup batch. */
    method ApplyPastStartup(item: Item<E>) returns (failureSeq: nat, ok: bool)
      requires BatchesFold(cfg) && Shows() && Batches() && Ascending(view) && !hasFailed && started
      requires startupEnded || startupBatch == []
      requires view.Waiting() == 0 || (cfg.liveSize > 0 && item.sequence > startupTargetSeq)
      requires item.sequence > view.Handled()
      modifies this
      ensures Shows() && (ok ==> Batches() && !hasFailed)
      ensures var next := PastStartup(cfg, old(view), item);
              if ok then view == next else Projections.Fail(view, failureSeq) == next
    {
      if cfg.liveSize > 0 && item.sequence > startupTargetSeq {
        failureSeq, ok := BufferLive(item);
      } else {
        failureSeq, ok := ApplyOne(item);
      }
    }

    /** applyEvent */
    method ApplyEvent(item: Item<E>) returns (failureSeq: nat, ok: bool)
      requires Valid() && started && item.sequence > view.Handled()
      modifies this
      ensures Shows()
      ensures old(hasFailed) ==> ok && view == old(view)
      ensures !old(hasFailed) ==>
                if ok then Batches() && !hasFailed && view == OnEvent(cfg, old(view), item)
                else Projections.Fail(view, failureSeq) == OnEvent(cfg, old(view), item)
    {
      if hasFailed {
        return 0, true;
      }
      if cfg.startupSize > 1 && started && !startupEnded && item.sequence <= startupTargetSeq {
        failureSeq, ok := BufferStartup(item);
        return;
      }
      ghost var v := view;
      if !startupEnded {
        CommitEffect(cfg, v, true);
        failureSeq, ok := FlushStartupBatch();
        if !ok {
          return;
        }
      }
      failureSeq, ok := ApplyPastStartup(item);
    }

    /** failPendingBatch: a record that cannot be decoded fails at the first pending event. */
    method FailPendingBatch(fallback: nat)
      requires Valid() && started && !hasFailed
      modifies this
      ensures Valid()
      ensures view == Projections.Fail(old(view), if old(view).Waiting() > 0
                then old(view).log[old(view).committed].sequence else fallback)
    {
      var failure := fallback;
      if |startupBatch| > 0 {
        failure := startupBatch[0].sequence;
      } else if |liveBatch| > 0 {
        failure := liveBatch[0].sequence;
      }
      FailEffect(cfg, view, failure);
      Fail(failure);
    }

    /** The rest of handleMessage once the event is decoded. */
    method Accept(item: Item<E>)
      requires Valid() && started && !hasFailed && item.sequence > view.Handled()
      modifies this
      ensures Valid() && view == Finish(OnEvent(cfg, old(view), item))
    {
      AcceptFacts(cfg, view, item);
      var failureSeq, ok := ApplyEvent(item);
      if ok {
        assert startupBatch != [] && !startupEnded ==> view.Waiting() > 0;
        var _ := CompleteStartupLocked();
      } else {
        Fail(failureSeq);
      }
    }

    /** handleMessage for a message with valid metadata. */
    method HandleMessage(q: nat, msg: Message<D>)
      requires Valid() && started && q > view.Handled()
      modifies this
      ensures Valid() && view == OnMessage(cfg, old(view), q, msg)
    {
      if hasFailed {
        return;
      }
      var consumes := Subjects.ScanMatchesAny(cfg.subjects, msg.subject);
      if !consumes || (restoredSeq > 0 && q <= restoredSeq) {
        return;
      }
      match cfg.decode(msg.data)
      case None => FailPendingBatch(q);
      case Some(event) => Accept(Item(event, msg.subject, q));
    }

    // ---------------------------------------------------------------- the Run loop

    /** Run after a successful restore: the projection holds `base`, which covers the stream to `cutoff`. */
    method BeginRun(base: S, cutoff: nat, target: nat)
      requires Valid() && !started
      modifies this
      ensures Valid() && started && view == OnBegin(old(view), base, cutoff, target)
      ensures state == base && restoredSeq == lastSeq == cutoff && startupTargetSeq == target
    {
      BeginOk(cfg, view, base, cutoff, target);
      Advance(cutoff, view.roster);
      started := true;
      state, restoredSeq, startupTargetSeq := base, cutoff, target;
      view := OnBegin(view, base, cutoff, target);
    }

    /** maybeCompleteStartup */
    method MaybeCompleteStartup()
      requires Valid() && started
      modifies this
      ensures Valid() && view == Finish(old(view))
    {
      FinishEffect(cfg, view);
      LastMonotone(view, view);
      if startupCompleted {
        return;
      }
      var _ := CompleteStartupLocked();
    }

    /** The live timer fired: the batch is applied, or the projector fails at its first event. */
    method LiveTick()
      requires Valid() && started
      modifies this
      ensures Valid() && view == OnTick(cfg, old(view))
      ensures !old(hasFailed) && old(startupEnded) && !hasFailed ==>
                liveBatch == [] && lastSeq == old(view).Handled() && view.log == old(view).log
    {
      TickEffect(cfg, view);
      TickFacts(cfg, view);
      var _, _ := FlushLiveBatch();
      var _ := CompleteStartupLocked();
    }

    /** startupProgress */
    method StartupProgress() returns (handledSeq: nat, pending: bool)
      requires Valid()
      ensures pending <==> !view.ended && view.failed.None?
      ensures pending ==> handledSeq == view.Handled()
    {
      handledSeq := lastSeq;
      pending := !startupEnded && !hasFailed;
      if |startupBatch| > 0 {
        handledSeq := startupBatch[|startupBatch| - 1].sequence;
      }
    }

    /** The second half of reconcileStartup: `current` is the newest matching record that was found. */
    method ReconcileStartup(current: nat)
      requires Valid() && started
      modifies this
      ensures Valid() && view == OnReconcile(cfg, old(view), current)
    {
      var handledSeq, pending := StartupProgress();
      if !pending || current > handledSeq {
        return;
      }
      ReconcileEffect(cfg, view, current);
      CommitEffect(cfg, view, true);
      var failureSeq, ok := FlushStartupBatch();
      if !ok {
        Fail(failureSeq);
        return;
      }
      EndStartupHere();
    }

    method EndStartupHere()
      requires Shows() && Batches() && !hasFailed && started && !startupEnded && startupBatch == []
      modifies this
      ensures Shows() && Batches() && view == Finish(LowerTarget(old(view)))
    {
      if startupTargetSeq > lastSeq {
        startupTargetSeq := lastSeq;
      }
      view := LowerTarget(view);
      var _ := CompleteStartupLocked();
    }

    // ---------------------------------------------------------------- callers

    /** The first half of waitForSeq; a blocked caller keeps the list of waiters sorted. */
    method WaitForSeq(q: nat) returns (start: WaitStart)
      requires Valid()
      modifies this
      ensures Valid() && start == StartWait(old(view), q) && view == OnWait(old(view), q)
    {
      if hasFailed && q >= failedSeq {
        return WaitFails;
      }
      if lastSeq >= q {
        return WaitSucceeds;
      }
      CallersLeaveView(cfg, view, OnWait(view, q));
      InsertWaiter(Waiter(nextWaiter, q), view.roster);
      nextWaiter := nextWaiter + 1;
      view := OnWait(view, q);
      return WaitBlocks(nextWaiter - 1);
    }

    method InsertWaiter(w: Waiter, ghost roster: Roster)
      requires roster.Shaped() && waiters == roster.Blocked() && w.id == roster.nextId
      modifies `waiters
      ensures waiters == roster.Join(w.sequence).Blocked()
    {
      var i := 0;
      while i < |waiters| && waiters[i].sequence < w.sequence
        invariant 0 <= i <= |waiters|
        invariant InsertionPoint(waiters, i, w.sequence) == InsertionPoint(waiters, 0, w.sequence)
      {
        i := i + 1;
      }
      JoinInserts(roster, w.sequence);
      waiters := waiters[..i] + [w] + waiters[i..];
    }

    method DeleteWaiter(id: nat, ghost roster: Roster)
      requires roster.Shaped() && waiters == roster.Blocked()
      modifies `waiters
      ensures waiters == roster.Drop(id).Blocked()
    {
      var i := 0;
      while i < |waiters| && waiters[i].id != id
        invariant 0 <= i <= |waiters|
        invariant Find(waiters, i, id) == Find(waiters, 0, id)
      {
        i := i + 1;
      }
      DropRemoves(roster, id);
      if i < |waiters| {
        waiters := waiters[..i] + waiters[i + 1..];
      }
    }

    /** The context of a caller ended. */
    method CancelWait(id: nat)
      requires Valid()
      modifies `waiters, `view
      ensures Valid() && view == OnCancel(old(view), id)
    {
      CallersLeaveView(cfg, view, OnCancel(view, id));
      DeleteWaiter(id, view.roster);
      view := OnCancel(view, id);
    }

    /**
     CaptureSnapshot: the state and the frontier under one barrier.  While nothing has failed the
     state is exactly the fold up to the cutoff, and buffered events are not part of it.
     */
    method CaptureSnapshot() returns (captured: S, cutoff: nat)
      requires Valid()
      ensures cutoff == view.Last() && captured == view.state
      ensures !hasFailed ==>
                && cfg.Fold(view.base, view.log, 0, view.committed) == Applied(captured)
                && (forall i :: 0 <= i < |view.log| ==> (view.log[i].sequence <= cutoff <==> i < view.committed))
    {
      captured, cutoff := state, lastSeq;
    }
  }
}
