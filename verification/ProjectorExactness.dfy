/**
 Two promises of the projector that do not hold without condition, and exactly when they hold: that a snapshot is
 the state at its cutoff after a failure, and that a successful wait means the record was applied.
 */
module ProjectorExactness {
  import opened EventStream
  import Subjects
  import opened Waiters
  import opened Projections
  import opened ProjectorInvariants
  import opened ProjectorRuns
  import opened ProjectorTheorems

  // ------------------------------------------------------------------ which rejections spoil a snapshot

  /** The view behind the flush that ends the startup batch. */
  function Flushed<S, E, D>(cfg: Config<S, E, D>, v: View<S, E>): (r: View<S, E>)
    requires v.Shaped()
    ensures r.Shaped()
  {
    if v.ended then v else Commit(cfg, v, true)
  }

  /** The event goes neither into the startup batch nor into the live batch. */
  predicate AppliedSingly<S, E, D>(cfg: Config<S, E, D>, v: View<S, E>, item: Item<E>)
    requires v.Shaped()
  {
    && !(cfg.startupSize > 1 && v.started && !v.ended && item.sequence <= v.target)
    && Flushed(cfg, v).failed.None?
    && !(cfg.liveSize > 0 && item.sequence > Flushed(cfg, v).target)
  }

  /** The event is applied singly, and the apply that rejects it has changed the state. */
  ghost predicate Dirties<S, E, D>(cfg: Config<S, E, D>, v: View<S, E>, item: Item<E>)
    requires v.Shaped()
  {
    && AppliedSingly(cfg, v, item)
    && cfg.prepare(Flushed(cfg, v).state, item).Rejected?
    && cfg.prepare(Flushed(cfg, v).state, item).state != Flushed(cfg, v).state
  }

  /** The step delivers such an event to a projector that has not failed. */
  ghost predicate Spoils<S, E, D>(cfg: Config<S, E, D>, w: World<S, E, D>, step: Step<S, D>) {
    && step.Deliver? && w.view.Shaped() && w.view.failed.None? && w.stream.Stored(step.at)
    && var m := w.stream.At(step.at);
       && cfg.Consumes(m.subject) && !(w.view.restored > 0 && step.at <= w.view.restored)
       && cfg.decode(m.data).Some? && Dirties(cfg, w.view, Item(cfg.decode(m.data).value, m.subject, step.at))
  }

  /** A batch that is rejected leaves the state as it was. */
  lemma BatchIsExact<S, E, D>(cfg: Config<S, E, D>, v: View<S, E>)
    requires v.Shaped() && StateOk(cfg, v)
    ensures StateOk(cfg, Commit(cfg, v, true))
  {
    FoldSplit(cfg, v.base, v.log, 0, v.committed, |v.log|);
  }

  /** A single apply is exact unless it rejects and changes the state all the same. */
  lemma SingleIsExact<S, E, D>(cfg: Config<S, E, D>, v: View<S, E>, item: Item<E>)
    requires v.Shaped() && StateOk(cfg, v) && v.Waiting() == 0
    ensures StateOk(cfg, Commit(cfg, v.(log := v.log + [item]), false)) <==>
              cfg.prepare(v.state, item).Applied? || cfg.prepare(v.state, item).state == v.state
  {
    var v1 := v.(log := v.log + [item]);
    AppendFolds(cfg, v, item);
    FoldSplit(cfg, v1.base, v1.log, 0, v1.committed, |v1.log|);
    assert cfg.Fold(v1.state, v1.log, v1.committed, v1.committed) == Applied(v1.state);
  }

  lemma PastStartupIsExact<S, E, D>(cfg: Config<S, E, D>, v: View<S, E>, item: Item<E>)
    requires v.Shaped() && StateOk(cfg, v)
    requires v.Waiting() == 0 || (cfg.liveSize > 0 && item.sequence > v.target)
    ensures StateOk(cfg, PastStartup(cfg, v, item)) <==>
              || (cfg.liveSize > 0 && item.sequence > v.target)
              || cfg.prepare(v.state, item).Applied? || cfg.prepare(v.state, item).state == v.state
  {
    if cfg.liveSize > 0 && item.sequence > v.target {
      var v1 := Finish(LowerTarget(v));
      AppendFolds(cfg, v1, item);
      BatchIsExact(cfg, v1.(log := v1.log + [item]));
    } else {
      SingleIsExact(cfg, v, item);
    }
  }

  lemma EventIsExact<S, E, D>(cfg: Config<S, E, D>, v: View<S, E>, item: Item<E>)
    requires ViewOk(cfg, v) && v.started && v.failed.None? && item.sequence > v.Handled()
    ensures StateOk(cfg, OnEvent(cfg, v, item)) <==> !Dirties(cfg, v, item)
  {
    if cfg.startupSize > 1 && !v.ended && item.sequence <= v.target {
      AppendFolds(cfg, v, item);
      BatchIsExact(cfg, v.(log := v.log + [item]));
    } else if v.ended {
      LastMonotone(v, v);
      PastStartupIsExact(cfg, v, item);
    } else {
      BatchIsExact(cfg, v);
      CommitEffect(cfg, v, true);
      if Commit(cfg, v, true).failed.None? {
        PastStartupIsExact(cfg, Commit(cfg, v, true), item);
      }
    }
  }

  lemma StepIsExact<S, E, D>(cfg: Config<S, E, D>, w: World<S, E, D>, step: Step<S, D>)
    requires Inv(cfg, w) && Enabled(cfg, w, step) && w.view.failed.None?
    ensures StateOk(cfg, Do(cfg, w, step).view) <==> !Spoils(cfg, w, step)
  {
    hide NoneSkipped, StartupCovered, NoGapBeforeFailure, FrontierReflected, OnMessage, OnTick, OnReconcile, Dirties,
      TargetBetween;
    match step
    case Begin(base, cutoff, target) =>
      assert cfg.Fold(base, w.view.log, 0, 0) == Applied(base);
    case Deliver(q) => DeliverStepIsExact(cfg, w, q);
    case Tick => TickIsExact(cfg, w.view);
    case ReconcileFinish(current) => ReconcileIsExact(cfg, w.view, current);
    case _ =>
  }

  lemma TickIsExact<S, E, D>(cfg: Config<S, E, D>, v: View<S, E>)
    requires ViewOk(cfg, v) && v.started && v.failed.None?
    ensures OnTick(cfg, v).Shaped() && StateOk(cfg, OnTick(cfg, v))
  {
    BatchIsExact(cfg, v);
  }

  lemma ReconcileIsExact<S, E, D>(cfg: Config<S, E, D>, v: View<S, E>, current: nat)
    requires ViewOk(cfg, v) && v.started && v.failed.None?
    ensures OnReconcile(cfg, v, current).Shaped() && StateOk(cfg, OnReconcile(cfg, v, current))
  {
    BatchIsExact(cfg, v);
  }

  lemma DeliverStepIsExact<S, E, D>(cfg: Config<S, E, D>, w: World<S, E, D>, q: nat)
    requires Inv(cfg, w) && Enabled(cfg, w, Deliver(q)) && w.view.failed.None?
    ensures StateOk(cfg, Do(cfg, w, Deliver(q)).view) <==> !Spoils(cfg, w, Deliver(q))
  {
    hide NoneSkipped, StartupCovered, NoGapBeforeFailure, FrontierReflected, OnMessage, Dirties, StateOk;
    HandledIsDelivered(cfg, w);
    DeliveryIsExact(cfg, w.view, q, w.stream.At(q));
  }

  lemma DeliveryIsExact<S, E, D>(cfg: Config<S, E, D>, v: View<S, E>, q: nat, m: Message<D>)
    requires ViewOk(cfg, v) && v.started && v.failed.None? && q > v.Handled()
    ensures StateOk(cfg, OnMessage(cfg, v, q, m)) <==>
              !(cfg.Consumes(m.subject) && !(v.restored > 0 && q <= v.restored)
                && cfg.decode(m.data).Some? && Dirties(cfg, v, Item(cfg.decode(m.data).value, m.subject, q)))
  {
    hide Dirties;
    if cfg.decode(m.data).Some? {
      EventIsExact(cfg, v, Item(cfg.decode(m.data).value, m.subject, q));
    }
  }

  /** Some delivery among the first `n` steps spoiled the projection. */
  ghost predicate Spoiled<S, E, D>(cfg: Config<S, E, D>, worlds: seq<World<S, E, D>>, steps: seq<Step<S, D>>, n: nat)
    requires n <= |steps| && |worlds| == |steps| + 1
  {
    exists i :: 0 <= i < n && Spoils(cfg, worlds[i], steps[i])
  }

  /**
   A snapshot is captured without a look at the failure. In every reachable world, failed or not and however
   events are batched, it is the fold up to its cutoff if and only if the failure did not come from a single
   apply that rejected its event and changed the state all the same.
   */
  lemma {:induction false} SnapshotIsExactIff<S, E, D>(
      cfg: Config<S, E, D>, worlds: seq<World<S, E, D>>, steps: seq<Step<S, D>>, n: nat)
    requires Replayed(cfg) && Run(cfg, worlds, steps) && n <= |steps|
    ensures worlds[n].view.Shaped() && (StateOk(cfg, worlds[n].view) <==> !Spoiled(cfg, worlds, steps, n))
    decreases n
  {
    hide Do, Enabled, Inv, Replayed, Spoils, StateOk;
    RunShaped(cfg, worlds, steps, n);
    if n == 0 {
      RunStartsExact(cfg, worlds, steps);
    } else {
      SnapshotIsExactIff(cfg, worlds, steps, n - 1);
      RunKeeps(cfg, worlds, steps, n - 1);
      NthStep(cfg, worlds, steps, n - 1);
      if worlds[n - 1].view.failed.None? {
        RunShaped(cfg, worlds, steps, n - 1);
        StepIsExact(cfg, worlds[n - 1], steps[n - 1]);
      } else {
        StepFreezes(cfg, worlds[n - 1], steps[n - 1]);
        FailedStaysExact(cfg, worlds[n - 1], steps[n - 1]);
      }
    }
  }

  lemma RunShaped<S, E, D>(cfg: Config<S, E, D>, worlds: seq<World<S, E, D>>, steps: seq<Step<S, D>>, n: nat)
    requires Replayed(cfg) && Run(cfg, worlds, steps) && n <= |steps|
    ensures worlds[n].view.Shaped() && (worlds[n].view.failed.None? ==> StateOk(cfg, worlds[n].view))
  {
    hide StateOk, Replayed;
    RunKeeps(cfg, worlds, steps, n);
  }

  lemma RunStartsExact<S, E, D>(cfg: Config<S, E, D>, worlds: seq<World<S, E, D>>, steps: seq<Step<S, D>>)
    requires Replayed(cfg) && Run(cfg, worlds, steps)
    ensures worlds[0].view.Shaped() && StateOk(cfg, worlds[0].view)
  {
    hide StateOk, Replayed;
    RunShaped(cfg, worlds, steps, 0);
  }

  lemma FailedStaysExact<S, E, D>(cfg: Config<S, E, D>, w: World<S, E, D>, step: Step<S, D>)
    requires Inv(cfg, w) && Enabled(cfg, w, step) && w.view.failed.Some?
    ensures Do(cfg, w, step).view.Shaped() && (StateOk(cfg, Do(cfg, w, step).view) <==> StateOk(cfg, w.view))
    ensures !Spoils(cfg, w, step)
  {
  }

  /** So a projection that leaves its state alone when it rejects an event always has exact snapshots. */
  lemma SnapshotExactAfterFailure<S(!new), E(!new), D>(
      cfg: Config<S, E, D>, worlds: seq<World<S, E, D>>, steps: seq<Step<S, D>>, n: nat)
    requires Replayed(cfg) && Run(cfg, worlds, steps) && n <= |steps| && RejectsCleanly(cfg)
    ensures worlds[n].view.Shaped() && StateOk(cfg, worlds[n].view)
  {
    hide Spoils, StateOk, RejectsCleanly;
    SnapshotIsExactIff(cfg, worlds, steps, n);
    forall i | 0 <= i < n ensures !Spoils(cfg, worlds[i], steps[i]) {
      CleanNeverSpoils(cfg, worlds[i], steps[i]);
    }
  }

  lemma CleanNeverSpoils<S(!new), E(!new), D>(cfg: Config<S, E, D>, w: World<S, E, D>, step: Step<S, D>)
    requires RejectsCleanly(cfg)
    ensures !Spoils(cfg, w, step)
  {
    hide Flushed, AppliedSingly;
  }

  // ------------------------------------------------------------------ which waits are met without the record

  ghost predicate DeliveredBy<S, D>(steps: seq<Step<S, D>>, n: nat, q: nat) {
    exists i :: 0 <= i < n && i < |steps| && steps[i] == Deliver(q)
  }

  ghost predicate DeletedBy<S, D>(steps: seq<Step<S, D>>, n: nat, q: nat) {
    exists i :: 0 <= i < n && i < |steps| && steps[i] == Delete(q)
  }

  /** A recorded failure is at or below everything pending, and at or below what has been delivered. */
  ghost predicate FailureFirst<S, E, D>(w: World<S, E, D>)
    requires w.view.Shaped()
  {
    w.view.failed.Some? ==>
      && w.view.failed.value <= w.position
      && (w.view.Waiting() > 0 ==> w.view.failed.value <= w.view.log[w.view.committed].sequence)
  }

  lemma DeliverFailsFirst<S, E, D>(cfg: Config<S, E, D>, w: World<S, E, D>, q: nat)
    requires Inv(cfg, w) && Enabled(cfg, w, Deliver(q)) && FailureFirst(w)
    ensures Do(cfg, w, Deliver(q)).view.Shaped() && FailureFirst(Do(cfg, w, Deliver(q)))
  {
    hide NoneSkipped, StartupCovered, NoGapBeforeFailure, FrontierReflected, StateOk, OnMessage;
    HandledIsDelivered(cfg, w);
    MessageFails(cfg, w.view, q, w.stream.At(q));
  }

  lemma MessageFails<S, E, D>(cfg: Config<S, E, D>, v: View<S, E>, q: nat, m: Message<D>)
    requires ViewOk(cfg, v) && v.started && q > v.Handled()
    ensures var r := OnMessage(cfg, v, q, m);
            && r.Shaped() && (v.failed.Some? ==> r == v)
            && (v.failed.None? && r.failed.Some? ==>
                 r.failed.value <= q && (r.Waiting() > 0 ==> r.failed.value <= r.log[r.committed].sequence))
  {
    hide StateOk, OnEvent;
    if v.failed.None? && cfg.decode(m.data).Some? {
      EventEffect(cfg, v, Item(cfg.decode(m.data).value, m.subject, q));
    }
  }

  lemma StepFailsFirst<S, E, D>(cfg: Config<S, E, D>, w: World<S, E, D>, step: Step<S, D>)
    requires Inv(cfg, w) && Enabled(cfg, w, step) && FailureFirst(w)
    ensures Do(cfg, w, step).view.Shaped() && FailureFirst(Do(cfg, w, step))
  {
    hide NoneSkipped, StartupCovered, NoGapBeforeFailure, FrontierReflected, StateOk;
    match step
    case Deliver(q) => DeliverFailsFirst(cfg, w, q);
    case Tick => TickEffect(cfg, w.view);
    case ReconcileFinish(current) => ReconcileEffect(cfg, w.view, current);
    case _ =>
  }

  lemma {:induction false} RunFailsFirst<S, E, D>(cfg: Config<S, E, D>, worlds: seq<World<S, E, D>>, steps: seq<Step<S,
                                                  D>>, n: nat)
    requires Replayed(cfg) && Run(cfg, worlds, steps) && n <= |steps|
    ensures worlds[n].view.Shaped() && FailureFirst(worlds[n])
    decreases n
  {
    hide Do, Enabled, Inv, Replayed;
    RunShaped(cfg, worlds, steps, n);
    if n > 0 {
      RunFailsFirst(cfg, worlds, steps, n - 1);
      RunKeeps(cfg, worlds, steps, n - 1);
      NthStep(cfg, worlds, steps, n - 1);
      StepFailsFirst(cfg, worlds[n - 1], steps[n - 1]);
    }
  }

  /** What one step adds to the accepted events and to the deleted records. */
  lemma StepAccepts<S, E, D>(cfg: Config<S, E, D>, w: World<S, E, D>, step: Step<S, D>, q: nat)
    requires Inv(cfg, w) && Enabled(cfg, w, step)
    ensures var v, r := w.view, Do(cfg, w, step).view;
            Among(r.log, |r.log|, q) ==> Among(v.log, |v.log|, q) || step == Deliver(q)
    ensures q in Do(cfg, w, step).stream.deleted ==> q in w.stream.deleted || step == Delete(q)
  {
    hide NoneSkipped, StartupCovered, NoGapBeforeFailure, FrontierReflected, StateOk;
    match step
    case Deliver(p) => DeliverAccepts(cfg, w, p, q);
    case Tick => TickEffect(cfg, w.view);
    case ReconcileFinish(current) => ReconcileEffect(cfg, w.view, current);
    case _ =>
  }

  lemma DeliverAccepts<S, E, D>(cfg: Config<S, E, D>, w: World<S, E, D>, p: nat, q: nat)
    requires Inv(cfg, w) && Enabled(cfg, w, Deliver(p))
    ensures var v, r := w.view, Do(cfg, w, Deliver(p)).view;
            Among(r.log, |r.log|, q) ==> Among(v.log, |v.log|, q) || p == q
  {
    hide NoneSkipped, StartupCovered, NoGapBeforeFailure, FrontierReflected, StateOk, OnMessage;
    HandledIsDelivered(cfg, w);
    MessageAccepts(cfg, w.view, p, w.stream.At(p));
    AmongAppended(w.view.log, OnMessage(cfg, w.view, p, w.stream.At(p)).log, p, q);
  }

  /** A message adds its own event, or nothing. */
  lemma MessageAccepts<S, E, D>(cfg: Config<S, E, D>, v: View<S, E>, p: nat, m: Message<D>)
    requires ViewOk(cfg, v) && v.started && p > v.Handled()
    ensures var r := OnMessage(cfg, v, p, m);
            && r.started && v.log <= r.log && v.restored == r.restored && (v.failed.Some? ==> r == v)
            && (r.log == v.log || (|r.log| == |v.log| + 1 && r.log[|v.log|].sequence == p))
            && (r.failed.None? && cfg.Consumes(m.subject) && p > v.restored ==> |r.log| > |v.log|)
            && (r.failed.Some? && v.failed.None? ==>
                  r.Shaped() && r.failed.value == (if r.Waiting() > 0 then r.log[r.committed].sequence else p))
  {
    hide StateOk;
    if v.failed.None? && cfg.decode(m.data).Some? {
      EventEffect(cfg, v, Item(cfg.decode(m.data).value, m.subject, p));
    }
  }

  lemma AmongAppended<E>(log: seq<Item<E>>, more: seq<Item<E>>, p: nat, q: nat)
    requires log <= more && (more == log || (|more| == |log| + 1 && more[|log|].sequence == p))
    ensures Among(more, |more|, q) <==> Among(log, |log|, q) || (p == q && more != log)
  {
    if Among(log, |log|, q) {
      var i :| 0 <= i < |log| && log[i].sequence == q;
      assert more[i].sequence == q;
    }
  }

  lemma {:induction false} AcceptedWasDelivered<S, E, D>(
      cfg: Config<S, E, D>, worlds: seq<World<S, E, D>>, steps: seq<Step<S, D>>, n: nat, q: nat)
    requires Replayed(cfg) && Run(cfg, worlds, steps) && n <= |steps|
    ensures var w := worlds[n]; Among(w.view.log, |w.view.log|, q) ==> DeliveredBy(steps, n, q)
    ensures q in worlds[n].stream.deleted ==> DeletedBy(steps, n, q)
    decreases n
  {
    hide Do, Enabled, Inv, Replayed;
    if n > 0 {
      AcceptedWasDelivered(cfg, worlds, steps, n - 1, q);
      RunKeeps(cfg, worlds, steps, n - 1);
      NthStep(cfg, worlds, steps, n - 1);
      StepAccepts(cfg, worlds[n - 1], steps[n - 1], q);
    }
  }

  /** A consumed record that was delivered is accepted, or the projector has failed at or below it. */
  ghost predicate Arrived<S, E>(v: View<S, E>, q: nat) {
    Covered(v, q) || (v.failed.Some? && v.failed.value <= q)
  }

  lemma DeliverArrives<S, E, D>(cfg: Config<S, E, D>, w: World<S, E, D>, q: nat)
    requires Inv(cfg, w) && Enabled(cfg, w, Deliver(q)) && FailureFirst(w) && cfg.Consumes(w.stream.At(q).subject)
    ensures Arrived(Do(cfg, w, Deliver(q)).view, q)
  {
    hide NoneSkipped, StartupCovered, NoGapBeforeFailure, FrontierReflected, StateOk, OnMessage, Among;
    HandledIsDelivered(cfg, w);
    MessageAccepts(cfg, w.view, q, w.stream.At(q));
    DeliverFailsFirst(cfg, w, q);
    AmongAppended(w.view.log, OnMessage(cfg, w.view, q, w.stream.At(q)).log, q, q);
  }

  lemma StepKeepsArrived<S, E, D>(cfg: Config<S, E, D>, w: World<S, E, D>, step: Step<S, D>, q: nat)
    requires Inv(cfg, w) && Enabled(cfg, w, step) && Arrived(w.view, q) && w.view.started
    ensures Arrived(Do(cfg, w, step).view, q)
  {
    hide Do, Arrived, NoneSkipped, StartupCovered, NoGapBeforeFailure, FrontierReflected, StateOk, TargetBetween;
    StepKeepsLog(cfg, w, step);
    ArrivedStays(w.view, Do(cfg, w, step).view, q);
  }

  /** The accepted events stay in front, and a failure stays. */
  ghost predicate KeepsLog<S, E>(v: View<S, E>, r: View<S, E>) {
    v.log <= r.log && v.restored == r.restored && (v.failed.Some? ==> r.failed == v.failed)
  }

  lemma StepKeepsLog<S, E, D>(cfg: Config<S, E, D>, w: World<S, E, D>, step: Step<S, D>)
    requires Inv(cfg, w) && Enabled(cfg, w, step) && w.view.started
    ensures KeepsLog(w.view, Do(cfg, w, step).view)
  {
    hide NoneSkipped, StartupCovered, NoGapBeforeFailure, FrontierReflected, StateOk, OnMessage, OnTick, OnReconcile,
      ViewOk, TargetBetween;
    match step
    case Deliver(q) => DeliverKeepsLog(cfg, w, q);
    case Tick => TickKeepsLog(cfg, w.view);
    case ReconcileFinish(current) => ReconcileKeepsLog(cfg, w.view, current);
    case _ =>
  }

  lemma TickKeepsLog<S, E, D>(cfg: Config<S, E, D>, v: View<S, E>)
    requires ViewOk(cfg, v) && v.started
    ensures KeepsLog(v, OnTick(cfg, v))
  {
    hide OnTick;
    TickEffect(cfg, v);
  }

  lemma ReconcileKeepsLog<S, E, D>(cfg: Config<S, E, D>, v: View<S, E>, current: nat)
    requires ViewOk(cfg, v) && v.started
    ensures KeepsLog(v, OnReconcile(cfg, v, current))
  {
    hide OnReconcile;
    ReconcileEffect(cfg, v, current);
  }

  lemma DeliverKeepsLog<S, E, D>(cfg: Config<S, E, D>, w: World<S, E, D>, q: nat)
    requires Inv(cfg, w) && Enabled(cfg, w, Deliver(q))
    ensures KeepsLog(w.view, Do(cfg, w, Deliver(q)).view)
  {
    hide NoneSkipped, StartupCovered, NoGapBeforeFailure, FrontierReflected, StateOk, OnMessage;
    HandledIsDelivered(cfg, w);
    MessageAccepts(cfg, w.view, q, w.stream.At(q));
  }

  lemma ArrivedStays<S, E>(v: View<S, E>, r: View<S, E>, q: nat)
    requires KeepsLog(v, r) && Arrived(v, q)
    ensures Arrived(r, q)
  {
    if Covered(v, q) && q > v.restored {
      var i :| 0 <= i < |v.log| && v.log[i].sequence == q;
      assert r.log[i].sequence == q;
    }
  }

  lemma {:induction false} DeliveredHasArrived<S, E, D>(
      cfg: Config<S, E, D>, worlds: seq<World<S, E, D>>, steps: seq<Step<S, D>>, n: nat, q: nat)
    requires Replayed(cfg) && Run(cfg, worlds, steps) && n <= |steps| && DeliveredBy(steps, n, q)
    requires worlds[n].stream.Stored(q) && cfg.Consumes(worlds[n].stream.At(q).subject)
    ensures worlds[n].view.started && Arrived(worlds[n].view, q)
    decreases n
  {
    hide Do, Enabled, Inv, Replayed, Arrived;
    if n > 0 {
      RunKeeps(cfg, worlds, steps, n - 1);
      NthStep(cfg, worlds, steps, n - 1);
      StepKeepsStarted(cfg, worlds[n - 1], steps[n - 1], q);
      if steps[n - 1] == Deliver(q) {
        RunFailsFirst(cfg, worlds, steps, n - 1);
        DeliverArrives(cfg, worlds[n - 1], q);
      } else {
        DeliveredWasStored(cfg, worlds, steps, n - 1, q);
        DeliveredHasArrived(cfg, worlds, steps, n - 1, q);
        StepKeepsArrived(cfg, worlds[n - 1], steps[n - 1], q);
      }
    }
  }

  lemma StepKeepsStarted<S, E, D>(cfg: Config<S, E, D>, w: World<S, E, D>, step: Step<S, D>, q: nat)
    requires Inv(cfg, w) && Enabled(cfg, w, step)
    ensures w.view.started || step == Deliver(q) ==> Do(cfg, w, step).view.started
    ensures w.stream.Stored(q) ==> Do(cfg, w, step).stream.Stored(q) && Do(cfg, w, step).stream.At(q) == w.stream.At(q)
    ensures step == Deliver(q) ==> w.stream.Stored(q)
  {
    hide NoneSkipped, StartupCovered, NoGapBeforeFailure, FrontierReflected, StateOk, LogIsStream, OnMessage, OnTick,
      OnReconcile;
    if step.Deliver? {
      DeliverKeepsStarted(cfg, w, step.at);
    } else if step.Tick? {
      TickEffect(cfg, w.view);
    } else if step.ReconcileFinish? {
      StillStarted(cfg, w.view, step.current);
    }
  }

  lemma DeliverKeepsStarted<S, E, D>(cfg: Config<S, E, D>, w: World<S, E, D>, p: nat)
    requires Inv(cfg, w) && Enabled(cfg, w, Deliver(p))
    ensures Do(cfg, w, Deliver(p)).view.started
  {
    hide NoneSkipped, StartupCovered, NoGapBeforeFailure, FrontierReflected, StateOk, OnMessage;
    HandledIsDelivered(cfg, w);
    MessageAccepts(cfg, w.view, p, w.stream.At(p));
  }

  lemma StillStarted<S, E, D>(cfg: Config<S, E, D>, v: View<S, E>, current: nat)
    requires v.Shaped()
    ensures OnReconcile(cfg, v, current).started == v.started
  {
  }

  lemma {:induction false} DeliveredWasStored<S, E, D>(
      cfg: Config<S, E, D>, worlds: seq<World<S, E, D>>, steps: seq<Step<S, D>>, n: nat, q: nat)
    requires Replayed(cfg) && Run(cfg, worlds, steps) && n <= |steps| && DeliveredBy(steps, n, q)
    ensures worlds[n].stream.Stored(q)
    decreases n
  {
    hide Do, Enabled, Inv, Replayed;
    if n > 0 {
      RunKeeps(cfg, worlds, steps, n - 1);
      NthStep(cfg, worlds, steps, n - 1);
      StepKeepsStarted(cfg, worlds[n - 1], steps[n - 1], q);
      if steps[n - 1] != Deliver(q) {
        DeliveredWasStored(cfg, worlds, steps, n - 1, q);
      }
    }
  }

  /** The caller of a wait for `q` is told that it succeeded, at once or after its release. */
  ghost predicate WaitMet<S, E>(v: View<S, E>, q: nat) {
    && v.Shaped()
    && (|| StartWait(v, q).WaitSucceeds?
        || (ResumeSucceeds(v, q) && exists k :: 0 <= k < v.roster.released && v.roster.all[k].sequence == q))
  }

  /** What has arrived is reflected when a wait for it is met. */
  lemma MetAndArrived<S, E, D>(cfg: Config<S, E, D>, w: World<S, E, D>, q: nat)
    requires Inv(cfg, w) && FailureFirst(w) && WaitMet(w.view, q) && Arrived(w.view, q)
    ensures Reflected(w.view, q)
  {
    hide NoneSkipped, StartupCovered, NoGapBeforeFailure, FrontierReflected, StateOk, LogIsStream;
    var v := w.view;
    if q <= v.Last() {
      ReachedIsReflected(v, q);
    } else {
      var i :| 0 <= i < |v.log| && v.log[i].sequence == q;
    }
  }

  /**
   A wait for a record that the projection consumes, met in any reachable world: the record is in the projection if
   and only if the restored state covers it or it was delivered, and it is not if and only if it was deleted and
   never delivered.
   */
  lemma MetWaitMissesExactly<S, E, D>(
      cfg: Config<S, E, D>, worlds: seq<World<S, E, D>>, steps: seq<Step<S, D>>, n: nat, q: nat)
    requires Replayed(cfg) && Run(cfg, worlds, steps) && n <= |steps|
    requires var w := worlds[n]; w.stream.Stored(q) && cfg.Consumes(w.stream.At(q).subject) && WaitMet(w.view, q)
    ensures Reflected(worlds[n].view, q) <==> q <= worlds[n].view.restored || DeliveredBy(steps, n, q)
    ensures !Reflected(worlds[n].view, q) <==>
              q > worlds[n].view.restored && DeletedBy(steps, n, q) && !DeliveredBy(steps, n, q)
  {
    hide Do, Enabled, Inv, Replayed, Run, Arrived, FailureFirst;
    MetRestored(cfg, worlds, steps, n, q);
    WaitSuccessMeansApplied(cfg, worlds, steps, n, q);
    AcceptedWasDelivered(cfg, worlds, steps, n, q);
  }

  lemma MetRestored<S, E, D>(
      cfg: Config<S, E, D>, worlds: seq<World<S, E, D>>, steps: seq<Step<S, D>>, n: nat, q: nat)
    requires Replayed(cfg) && Run(cfg, worlds, steps) && n <= |steps|
    requires var w := worlds[n]; w.stream.Stored(q) && cfg.Consumes(w.stream.At(q).subject) && WaitMet(w.view, q)
    ensures Reflected(worlds[n].view, q) ==>
              q <= worlds[n].view.restored || Among(worlds[n].view.log, |worlds[n].view.log|, q)
    ensures DeliveredBy(steps, n, q) ==> Reflected(worlds[n].view, q)
  {
    hide Do, Enabled, Inv, Replayed, Arrived, FailureFirst;
    if DeliveredBy(steps, n, q) {
      RunKeeps(cfg, worlds, steps, n);
      RunFailsFirst(cfg, worlds, steps, n);
      DeliveredHasArrived(cfg, worlds, steps, n, q);
      MetAndArrived(cfg, worlds[n], q);
    }
  }

  // ------------------------------------------------------------------ both conditions are met

  /** One subject, no batches; a negative event is rejected after the state has moved. */
  function Sample(): Config<int, int, int> {
    var apply := (s: int, item: Item<int>) => if item.event < 0 then Rejected(s + 1) else Applied(s + 1);
    Config(["a"], ["a"], d => Some(d), apply, 0, (s, items) => Rejected(s), 0, (s, items) => Rejected(s))
  }

  lemma SampleConsumes()
    ensures Sample().Consumes("a") && Subjects.MatchesAny(Sample().replaySubjects, "a") && Replayed(Sample())
  {
    Subjects.OneToken("a");
    assert Sample().subjects[0] == "a";
  }

  function Start(): World<int, int, int> {
    World(Stream([], {}), View(0, 0, 0, [], 0, false, 0, false, 0, None, Roster([], 0, 0)), 0, 0, None, None)
  }

  lemma SampleApplies(v: View<int, int>)
    requires v.Shaped() && |v.log| == 1 && v.committed == 0 && v.log[0].event >= 0
    ensures Commit(Sample(), v, false) == Release(v.(state := v.state + 1, committed := 1))
  {
    assert Sample().Fold(v.state, v.log, 0, 0) == Applied(v.state);
    assert Sample().Fold(v.state, v.log, 0, 1) == Sample().prepare(v.state, v.log[0]);
  }

  /** A rejected event that changed the state makes every later snapshot wrong. */
  lemma DirtyRejectionSpoilsSnapshot() returns (worlds: seq<World<int, int, int>>, steps: seq<Step<int, int>>)
    ensures Run(Sample(), worlds, steps) && worlds[|steps|].view.Shaped() && worlds[|steps|].view.failed.Some?
    ensures !StateOk(Sample(), worlds[|steps|].view)
  {
    SampleConsumes();
    var cfg := Sample();
    steps := [Publish(Message("a", "id", -1)), Begin(0, 0, 0), Deliver(1)];
    var w1 := Do(cfg, Start(), steps[0]);
    var w2 := Do(cfg, w1, steps[1]);
    var w3 := Do(cfg, w2, steps[2]);
    worlds := [Start(), w1, w2, w3];
    assert w1.stream.log == [Message("a", "id", -1)];
    assert Next(cfg, w1, steps[1], w2) && Next(cfg, w2, steps[2], w3);
    assert Spoils(cfg, worlds[2], steps[2]);
    SnapshotIsExactIff(cfg, worlds, steps, 3);
  }

  /** The first of two records is deleted before delivery: the second carries the frontier past it. */
  lemma DeletedRecordPassesWait() returns (worlds: seq<World<int, int, int>>, steps: seq<Step<int, int>>)
    ensures Run(Sample(), worlds, steps) && worlds[|steps|].view.failed.None?
    ensures WaitMet(worlds[|steps|].view, 1) && !Reflected(worlds[|steps|].view, 1)
  {
    hide Sample, OnBegin, OnMessage, Stream.Selected, WaitMet, Reflected;
    var cfg, m := Sample(), Message("a", "id", 1);
    steps := [Publish(m), Publish(m), Delete(1), Begin(0, 0, 0), Deliver(2)];
    var w0, w3 := Start(), Start().(stream := Stream([m, m], {1}));
    var w4 := w3.(view := Begun());
    var w5 := w4.(view := OnMessage(cfg, Begun(), 2, m), position := 2);
    worlds := [w0, w0.(stream := Stream([m], {})), w0.(stream := Stream([m, m], {})), w3, w4, w5];
    assert Next(cfg, w3, steps[3], w4) by {
      StartBegins();
    }
    SecondIsNext(cfg, w4.stream);
    SecondDelivered();
  }

  function Begun(): View<int, int> {
    Start().view.(started := true)
  }

  lemma StartBegins()
    ensures OnBegin(Start().view, 0, 0, 0) == Begun()
  {
  }

  lemma SecondIsNext(cfg: Config<int, int, int>, stream: Stream<int>)
    requires stream.deleted == {1}
    ensures forall r: nat :: 0 < r < 2 ==> !stream.Selected(cfg.replaySubjects, r)
  {
  }

  lemma NothingToCommit<S, E, D>(cfg: Config<S, E, D>, v: View<S, E>)
    requires v.Shaped() && v.Waiting() == 0
    ensures Commit(cfg, v, true) == v
  {
  }

  /** The second record is applied, and a wait for the first succeeds. */
  lemma SecondDelivered()
    ensures var r := OnMessage(Sample(), Begun(), 2, Message("a", "id", 1));
            r.failed.None? && WaitMet(r, 1) && !Reflected(r, 1)
  {
    hide Commit, Config.Fold, Config.Consumes;
    SampleConsumes();
    assert Commit(Sample(), Begun(), true) == Begun() by {
      NothingToCommit(Sample(), Begun());
    }
    assert Begun().log + [Item(1, "a", 2)] == [Item(1, "a", 2)];
    SampleApplies(Begun().(log := [Item(1, "a", 2)]));
    var r := OnMessage(Sample(), Begun(), 2, Message("a", "id", 1));
    assert r.log == [Item(1, "a", 2)];
  }
}
