/**
 What the projector must do, beside what it must not: the timer applies what is pending, startup ends when its
 target is reached, a failure has a cause and releases everybody, and waits are decided by frontier and failure.
 */
module ProjectorProgress {
  import opened EventStream
  import opened Waiters
  import opened Projections
  import opened ProjectorInvariants
  import opened ProjectorRuns

  // ------------------------------------------------------------------ the timer

  /** Nothing is pending, and the frontier has come to the last accepted event. */
  ghost predicate CaughtUp<S, E>(v: View<S, E>)
    requires v.Shaped()
  {
    v.committed == |v.log| && v.Last() == v.Handled()
  }

  lemma TickApplies<S, E, D>(cfg: Config<S, E, D>, v: View<S, E>)
    requires ViewOk(cfg, v) && v.started && v.ended && v.failed.None?
    ensures var r := OnTick(cfg, v); r.log == v.log && (r.failed.Some? || CaughtUp(r))
  {
    CommitEffect(cfg, v, true);
    TickEffect(cfg, v);
  }

  /** Every record up to `position` that is still retained is in the projection, and nobody waits for it. */
  ghost predicate UpToDate<S, E, D>(cfg: Config<S, E, D>, w: World<S, E, D>)
    requires w.view.Shaped()
  {
    forall q: nat :: q <= w.position && w.stream.Selected(cfg.subjects, q) ==>
      Reflected(w.view, q) && forall waiter :: waiter in w.view.roster.Blocked() ==> waiter.sequence > q
  }

  lemma CaughtUpIsUpToDate<S, E, D>(cfg: Config<S, E, D>, w: World<S, E, D>)
    requires Inv(cfg, w) && w.view.failed.None? && CaughtUp(w.view)
    ensures UpToDate(cfg, w)
  {
    hide StateOk, NoGapBeforeFailure, FrontierReflected, StartupCovered, LogIsStream, Stream.Selected, Reflected,
      Covered;
    forall q: nat | q <= w.position && w.stream.Selected(cfg.subjects, q)
      ensures Reflected(w.view, q) && q <= w.view.Last()
    {
      assert Covered(w.view, q);
      ReachedIsReflected(w.view, q);
      ReflectedIsReached(cfg, w.view, q);
    }
  }

  /**
   When the live timer fires on a projector that runs, either the pending batch fails, or everything that was
   delivered is applied and everybody who waited for it is released.
   */
  lemma TimerCatchesUp<S, E, D>(cfg: Config<S, E, D>, worlds: seq<World<S, E, D>>, steps: seq<Step<S, D>>, n: nat)
    requires Replayed(cfg) && Run(cfg, worlds, steps) && n < |steps| && steps[n].Tick?
    requires worlds[n].view.failed.None? && worlds[n].view.ended
    ensures var w := worlds[n + 1];
            w.view.Shaped() && (w.view.failed.Some? || (CaughtUp(w.view) && UpToDate(cfg, w)))
  {
    hide Replayed, NoneSkipped, StartupCovered, NoGapBeforeFailure, FrontierReflected, StateOk, OnTick, UpToDate;
    RunKeeps(cfg, worlds, steps, n);
    RunKeeps(cfg, worlds, steps, n + 1);
    NthStep(cfg, worlds, steps, n);
    TickApplies(cfg, worlds[n].view);
    if worlds[n + 1].view.failed.None? {
      CaughtUpIsUpToDate(cfg, worlds[n + 1]);
    }
  }

  // ------------------------------------------------------------------ deliveries

  /**
   An event that the projection consumes is accepted. It ends startup if it is at the target or behind it, and it
   only stays pending in a batch that is not full: at startup in front of the target, later in the live batch.
   */
  lemma DeliveryProgress<S, E, D>(cfg: Config<S, E, D>, w: World<S, E, D>, q: nat)
    requires Inv(cfg, w) && Enabled(cfg, w, Deliver(q)) && w.view.failed.None?
    requires cfg.Consumes(w.stream.At(q).subject) && q > w.view.restored
    ensures var v, r := w.view, Do(cfg, w, Deliver(q)).view;
            r.Shaped() && (r.failed.Some? ||
              (&& |r.log| == |v.log| + 1 && r.Handled() == q
               && cfg.decode(w.stream.At(q).data) == Some(r.log[|v.log|].event)
               && (q >= v.target ==> r.ended && r.hooks == 1)
               && (r.Waiting() == 0 ==> r.Last() == q)
               && (r.Waiting() > 0 ==>
                     if r.ended then r.Waiting() < cfg.liveSize
                     else r.Waiting() < cfg.startupSize && q < v.target)))
  {
    hide NoneSkipped, StartupCovered, NoGapBeforeFailure, FrontierReflected, StateOk, OnMessage;
    HandledIsDelivered(cfg, w);
    MessageProgress(cfg, w.view, q, w.stream.At(q));
  }

  lemma MessageProgress<S, E, D>(cfg: Config<S, E, D>, v: View<S, E>, q: nat, m: Message<D>)
    requires ViewOk(cfg, v) && v.started && v.failed.None? && q > v.Handled() && q > v.restored
    requires cfg.Consumes(m.subject)
    ensures var r := OnMessage(cfg, v, q, m);
            ViewOk(cfg, r) && (r.failed.Some? ||
              (&& cfg.decode(m.data).Some?
               && r.log == v.log + [Item(cfg.decode(m.data).value, m.subject, q)]
               && (q >= v.target ==> r.ended)
               && (!r.ended ==> r.target == v.target)))
  {
    hide StateOk, OnEvent;
    match cfg.decode(m.data)
    case None => FailEffect(cfg, v, if v.Waiting() > 0 then v.log[v.committed].sequence else q);
    case Some(event) =>
      EventEffect(cfg, v, Item(event, m.subject, q));
      if q >= v.target {
        EventReachesTarget(cfg, v, Item(event, m.subject, q));
      }
  }

  lemma EventReachesTarget<S, E, D>(cfg: Config<S, E, D>, v: View<S, E>, item: Item<E>)
    requires ViewOk(cfg, v) && v.started && v.failed.None? && item.sequence > v.Handled()
    requires item.sequence >= v.target
    ensures var r := Finish(OnEvent(cfg, v, item)); r.failed.None? ==> r.ended
  {
    hide StateOk;
    EventEffect(cfg, v, item);
  }

  /** Startup is over as soon as a delivery, a check or the timer finds the target reached. */
  lemma StartupEndsAtTarget<S, E, D>(cfg: Config<S, E, D>, w: World<S, E, D>, step: Step<S, D>)
    requires Inv(cfg, w) && Enabled(cfg, w, step) && w.view.started && (step.CheckStartup? || step.Tick?)
    ensures var r := Do(cfg, w, step).view;
            r.Shaped() && (r.failed.None? && r.Last() >= r.target ==> r.ended && r.hooks == 1)
  {
    hide NoneSkipped, StartupCovered, NoGapBeforeFailure, FrontierReflected, StateOk, OnTick;
    if step.Tick? {
      TickEnds(cfg, w.view);
    } else {
      FinishEffect(cfg, w.view);
    }
  }

  lemma TickEnds<S, E, D>(cfg: Config<S, E, D>, v: View<S, E>)
    requires ViewOk(cfg, v) && v.started
    ensures var r := OnTick(cfg, v);
            r.Shaped() && (r.failed.None? && r.Last() >= r.target ==> r.ended && r.hooks == 1)
  {
    hide StateOk;
    TickEffect(cfg, v);
  }

  // ------------------------------------------------------------------ failures

  /** The delivered record is consumed, not covered by the restored state, and cannot be decoded. */
  ghost predicate Undecodable<S, E, D>(cfg: Config<S, E, D>, w: World<S, E, D>, step: Step<S, D>) {
    && step.Deliver? && w.stream.Stored(step.at) && cfg.Consumes(w.stream.At(step.at).subject)
    && !(w.view.restored > 0 && step.at <= w.view.restored)
    && cfg.decode(w.stream.At(step.at).data).None?
  }

  /** Applying everything that has been accepted one by one is rejected somewhere. */
  ghost predicate Rejects<S, E, D>(cfg: Config<S, E, D>, v: View<S, E>) {
    cfg.Fold(v.base, v.log, 0, |v.log|).Rejected?
  }

  /** A failure is recorded at the first event that is not applied, or at the record itself; a break-down at 0. */
  ghost function FailsAt<S, E, D>(cfg: Config<S, E, D>, w: World<S, E, D>, step: Step<S, D>, r: View<S, E>): nat {
    if step.BreakDown? then 0
    else if r.committed < |r.log| then r.log[r.committed].sequence
    else if step.Deliver? then step.at
    else 0
  }

  /**
   A projector fails because its run broke down, because a record could not be decoded, or because an accepted
   event was rejected. The first two always fail it, and from then on nobody is blocked who was.
   */
  lemma FailureHasCause<S, E, D>(cfg: Config<S, E, D>, w: World<S, E, D>, step: Step<S, D>)
    requires Inv(cfg, w) && Enabled(cfg, w, step) && w.view.failed.None?
    ensures var r := Do(cfg, w, step).view;
            r.Shaped()
            && (r.failed.Some? ==> step.BreakDown? || Undecodable(cfg, w, step) || Rejects(cfg, r))
            && (step.BreakDown? || Undecodable(cfg, w, step) ==> r.failed.Some?)
            && (r.failed.Some? ==> r.roster.Blocked() == [])
            && (r.failed.Some? ==> r.failed.value == FailsAt(cfg, w, step, r))
  {
    hide NoneSkipped, StartupCovered, NoGapBeforeFailure, FrontierReflected, LogIsStream, OnMessage, OnTick,
      OnReconcile, TargetBetween, StateOk, RosterOk;
    match step
    case Deliver(q) =>
      DeliverCause(cfg, w, q);
    case Tick => TickCause(cfg, w.view);
    case ReconcileFinish(current) => ReconcileCause(cfg, w.view, current);
    case _ =>
  }

  lemma DeliverCause<S, E, D>(cfg: Config<S, E, D>, w: World<S, E, D>, q: nat)
    requires Inv(cfg, w) && Enabled(cfg, w, Deliver(q)) && w.view.failed.None?
    ensures var r := Do(cfg, w, Deliver(q)).view;
            r.Shaped()
            && (r.failed.Some? ==> Undecodable(cfg, w, Deliver(q)) || Rejects(cfg, r))
            && (Undecodable(cfg, w, Deliver(q)) ==> r.failed.Some?)
            && (r.failed.Some? ==> r.roster.Blocked() == [])
            && (r.failed.Some? ==> r.failed.value == FailsAt(cfg, w, Deliver(q), r))
  {
    hide NoneSkipped, StartupCovered, NoGapBeforeFailure, FrontierReflected, StateOk, OnEvent, Rejects;
    HandledIsDelivered(cfg, w);
    var v, m := w.view, w.stream.At(q);
    if cfg.decode(m.data).Some? {
      EventCause(cfg, v, Item(cfg.decode(m.data).value, m.subject, q));
    }
  }

  /** The failure is at the first event that is not applied, and nobody is blocked. */
  ghost predicate FailedFirst<S, E>(r: View<S, E>) {
    && r.Shaped() && r.roster.Blocked() == []
    && r.failed.Some? && r.committed < |r.log| && r.failed.value == r.log[r.committed].sequence
  }

  lemma CommitCause<S, E, D>(cfg: Config<S, E, D>, v: View<S, E>, batch: bool)
    requires v.Shaped() && v.failed.None? && StateOk(cfg, v)
    ensures var r := Commit(cfg, v, batch);
            r.log == v.log && r.base == v.base
            && (r.failed.Some? <==> Rejects(cfg, r)) && (r.failed.Some? ==> FailedFirst(r))
            && (r.failed.None? ==> StateOk(cfg, r))
  {
    FoldSplit(cfg, v.base, v.log, 0, v.committed, |v.log|);
    if v.committed == |v.log| {
      assert cfg.Fold(v.state, v.log, v.committed, |v.log|) == Applied(v.state);
    }
  }

  lemma PastStartupCause<S, E, D>(cfg: Config<S, E, D>, v: View<S, E>, item: Item<E>)
    requires v.Shaped() && v.failed.None? && StateOk(cfg, v)
    ensures var r := PastStartup(cfg, v, item);
            r.failed.Some? ==> Rejects(cfg, r) && FailedFirst(r)
  {
    hide Commit, Rejects;
    var v1 := Finish(LowerTarget(v));
    AppendFolds(cfg, v, item);
    AppendFolds(cfg, v1, item);
    CommitCause(cfg, v1.(log := v1.log + [item]), true);
    CommitCause(cfg, v.(log := v.log + [item]), false);
  }

  lemma EventCause<S, E, D>(cfg: Config<S, E, D>, v: View<S, E>, item: Item<E>)
    requires ViewOk(cfg, v) && v.started && v.failed.None? && item.sequence > v.Handled()
    ensures var r := Finish(OnEvent(cfg, v, item));
            r.failed.Some? ==> Rejects(cfg, r) && FailedFirst(r)
  {
    hide Commit, PastStartup;
    AppendFolds(cfg, v, item);
    CommitCause(cfg, v.(log := v.log + [item]), true);
    CommitCause(cfg, v, true);
    var v0 := if v.ended then v else Commit(cfg, v, true);
    if v0.failed.None? {
      PastStartupCause(cfg, v0, item);
    }
  }

  lemma TickCause<S, E, D>(cfg: Config<S, E, D>, v: View<S, E>)
    requires ViewOk(cfg, v) && v.failed.None?
    ensures var r := OnTick(cfg, v); r.failed.Some? ==> Rejects(cfg, r) && FailedFirst(r)
  {
    hide Commit;
    CommitCause(cfg, v, true);
  }

  lemma ReconcileCause<S, E, D>(cfg: Config<S, E, D>, v: View<S, E>, current: nat)
    requires ViewOk(cfg, v) && v.failed.None?
    ensures var r := OnReconcile(cfg, v, current); r.failed.Some? ==> Rejects(cfg, r) && FailedFirst(r)
  {
    hide Commit;
    CommitCause(cfg, v, true);
  }

  /** A run in which nothing breaks, every record decodes and no event is rejected never fails. */
  lemma {:induction false} NeverFailsWithoutCause<S(!new), E(!new), D(!new)>(
      cfg: Config<S, E, D>, worlds: seq<World<S, E, D>>, steps: seq<Step<S, D>>, n: nat)
    requires Replayed(cfg) && Run(cfg, worlds, steps) && n <= |steps|
    requires forall i :: 0 <= i < n ==> !steps[i].BreakDown?
    requires (forall data :: cfg.decode(data).Some?) && (forall s, item :: cfg.prepare(s, item).Applied?)
    ensures worlds[n].view.failed.None?
    decreases n
  {
    hide Do, Enabled, Inv, Replayed;
    if n > 0 {
      NeverFailsWithoutCause(cfg, worlds, steps, n - 1);
      RunKeeps(cfg, worlds, steps, n - 1);
      NthStep(cfg, worlds, steps, n - 1);
      FailureHasCause(cfg, worlds[n - 1], steps[n - 1]);
      var v := worlds[n].view;
      FoldApplies(cfg, v.base, v.log, |v.log|);
    } else {
      assert Initial(worlds[0]);
    }
  }

  lemma {:induction false} FoldApplies<S(!new), E(!new), D>(cfg: Config<S, E, D>, s: S, items: seq<Item<E>>, n: nat)
    requires n <= |items| && forall s, item :: cfg.prepare(s, item).Applied?
    ensures cfg.Fold(s, items, 0, n).Applied?
  {
    if n > 0 {
      FoldApplies(cfg, s, items, n - 1);
    }
  }

  // ------------------------------------------------------------------ waits

  /** A caller that cancels is not blocked any more. */
  lemma CancelledIsGone<S, E, D>(cfg: Config<S, E, D>, worlds: seq<World<S, E, D>>, steps: seq<Step<S, D>>, n: nat)
    requires Replayed(cfg) && Run(cfg, worlds, steps) && n < |steps| && steps[n].Cancel?
    ensures worlds[n + 1].view.Shaped()
    ensures forall waiter :: waiter in worlds[n + 1].view.roster.Blocked() ==> waiter.id != steps[n].id
  {
    hide NoneSkipped, StartupCovered, NoGapBeforeFailure, FrontierReflected, StateOk, Replayed;
    RunKeeps(cfg, worlds, steps, n);
    NthStep(cfg, worlds, steps, n);
    DroppedIsGone(worlds[n].view.roster, worlds[n].view.Last(), worlds[n].view.failed.Some?, steps[n].id);
  }

  lemma DroppedIsGone(r: Roster, last: nat, failed: bool, id: nat)
    requires RosterOk(r, last, failed)
    ensures forall waiter :: waiter in r.Drop(id).Blocked() ==> waiter.id != id
  {
    var i := Find(r.all, r.released, id);
    if i < |r.all| {
      DropAt(r, id);
    }
  }

  /**
   How a wait is decided in a reachable world: it fails exactly from the failure on, it succeeds for whatever is in
   the projection below the failure, and for every retained record below it. Whoever blocks is put where the
   frontier will find him; after a failure that can only be for a sequence at which nothing is retained.
   */
  lemma WaitIsDecided<S, E, D>(cfg: Config<S, E, D>, worlds: seq<World<S, E, D>>, steps: seq<Step<S, D>>, n: nat,
                               q: nat)
    requires Replayed(cfg) && Run(cfg, worlds, steps) && n <= |steps|
    ensures worlds[n].view.Shaped()
    ensures var w := worlds[n]; var v := w.view; var start := StartWait(v, q);
            && (start.WaitFails? <==> v.failed.Some? && v.failed.value <= q)
            && (Reflected(v, q) && !start.WaitFails? ==> start.WaitSucceeds?)
            && (w.stream.Selected(cfg.subjects, q) && v.failed.Some? && q < v.failed.value ==> start.WaitSucceeds?)
            && (start.WaitBlocks? ==>
                  Waiter(start.id, q) in OnWait(v, q).roster.Blocked() && v.Last() < q
                  && (v.failed.Some? ==> !w.stream.Selected(cfg.subjects, q)))
  {
    hide NoneSkipped, StartupCovered, StateOk, Replayed;
    RunKeeps(cfg, worlds, steps, n);
    var v := worlds[n].view;
    if Reflected(v, q) {
      ReflectedIsReached(cfg, v, q);
    }
    if StartWait(v, q).WaitBlocks? {
      JoinAt(v.roster, q);
      var i := InsertionPoint(v.roster.all, v.roster.released, q);
      assert OnWait(v, q).roster.Blocked()[i - v.roster.released] == Waiter(v.roster.nextId, q);
    }
  }

  lemma ReflectedIsReached<S, E, D>(cfg: Config<S, E, D>, v: View<S, E>, q: nat)
    requires ViewOk(cfg, v) && Reflected(v, q)
    ensures q <= v.Last()
  {
    if q > v.restored {
      var i :| 0 <= i < v.committed && v.log[i].sequence == q;
    }
  }
}
