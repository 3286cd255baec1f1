/** What the invariant of ProjectorRuns means over whole runs. */
module ProjectorTheorems {
  import opened EventStream
  import opened Waiters
  import opened Projections
  import opened ProjectorInvariants
  import opened ProjectorRuns

  // ------------------------------------------------------------------ the projection is a replay

  /** Records `lo + 1 .. hi` that the projection consumes and can decode, in stream order. */
  function Replay<S, E, D>(cfg: Config<S, E, D>, stream: Stream<D>, lo: nat, hi: nat): seq<Item<E>>
    requires lo <= hi <= stream.LastSeq()
  {
    if lo == hi then []
    else
      var m := stream.At(hi);
      var before := Replay(cfg, stream, lo, hi - 1);
      if cfg.Consumes(m.subject) && cfg.decode(m.data).Some?
      then before + [Item(cfg.decode(m.data).value, m.subject, hi)] else before
  }

  /** What the replay needs of a world on an append-only stream. */
  ghost predicate Gapless<S, E, D>(cfg: Config<S, E, D>, w: World<S, E, D>) {
    && w.view.Shaped() && Ascending(w.view) && w.stream.deleted == {}
    && w.view.restored <= w.position <= w.stream.LastSeq()
    && LogIsStream(cfg, w) && NoneSkipped(cfg, w)
  }

  /** The first `n` accepted events are the ones up to sequence `hi`. */
  ghost predicate SplitsAt<E>(log: seq<Item<E>>, n: nat, hi: int) {
    && n <= |log|
    && (forall i :: 0 <= i < n ==> log[i].sequence <= hi)
    && (forall i :: n <= i < |log| ==> log[i].sequence > hi)
  }

  /** On a stream without deletions the accepted events up to `hi` are exactly the replay. */
  lemma {:induction false} LogIsReplay<S, E, D>(cfg: Config<S, E, D>, w: World<S, E, D>, n: nat, hi: nat)
    requires Gapless(cfg, w)
    requires w.view.restored <= hi <= w.position
    requires SplitsAt(w.view.log, n, hi)
    ensures w.view.log[..n] == Replay(cfg, w.stream, w.view.restored, hi)
    decreases hi
  {
    var v := w.view;
    assert n > 0 ==> v.log[0].sequence > v.restored;
    if hi > v.restored {
      if cfg.Consumes(w.stream.At(hi).subject) {
        LastBelow(cfg, w, n, hi);
        BelowPredecessor(v, n, hi);
        LogIsReplay(cfg, w, n - 1, hi - 1);
        PrefixGrows(v.log, n);
      } else {
        NotAccepted(cfg, w, n, hi);
        LogIsReplay(cfg, w, n, hi - 1);
      }
    }
  }

  lemma PrefixGrows<T>(s: seq<T>, n: nat)
    requires 0 < n <= |s|
    ensures s[..n] == s[..n - 1] + [s[n - 1]]
  {
  }

  lemma NotAccepted<S, E, D>(cfg: Config<S, E, D>, w: World<S, E, D>, n: nat, hi: nat)
    requires Gapless(cfg, w) && w.view.restored < hi <= w.position && SplitsAt(w.view.log, n, hi)
    requires !cfg.Consumes(w.stream.At(hi).subject)
    ensures SplitsAt(w.view.log, n, hi - 1)
  {
    forall i | 0 <= i < n ensures w.view.log[i].sequence <= hi - 1 {
      var item := w.view.log[i];
      assert cfg.Consumes(item.subject) && item.subject == w.stream.At(item.sequence).subject;
    }
  }

  lemma BelowPredecessor<S, E>(v: View<S, E>, n: nat, hi: nat)
    requires Ascending(v) && 0 < n <= |v.log| && v.log[n - 1].sequence == hi
    requires SplitsAt(v.log, n, hi)
    ensures SplitsAt(v.log, n - 1, hi - 1)
  {
  }

  lemma LastBelow<S, E, D>(cfg: Config<S, E, D>, w: World<S, E, D>, n: nat, hi: nat)
    requires Gapless(cfg, w)
    requires w.view.restored < hi <= w.position
    requires SplitsAt(w.view.log, n, hi)
    requires cfg.Consumes(w.stream.At(hi).subject)
    ensures n > 0 && cfg.decode(w.stream.At(hi).data).Some?
    ensures w.view.log[n - 1] == Item(cfg.decode(w.stream.At(hi).data).value, w.stream.At(hi).subject, hi)
  {
    var v := w.view;
    assert w.stream.Selected(cfg.subjects, hi);
    assert Covered(v, hi);
    var i :| 0 <= i < |v.log| && v.log[i].sequence == hi;
    LastAt(v, n, hi, i);
  }

  lemma LastAt<S, E>(v: View<S, E>, n: nat, hi: nat, i: nat)
    requires Ascending(v) && SplitsAt(v.log, n, hi) && i < |v.log| && v.log[i].sequence == hi
    ensures i == n - 1
  {
    assert v.log[i].sequence <= hi;
    assert i < n;
    var last := v.log[n - 1];
    assert last.sequence <= hi;
  }

  /**
   However events were grouped into single applies, startup batches and live batches: while nothing
   failed, the projection is the fold of single applies over the first `committed` accepted events,
   the rest is pending, and on an append-only stream the accepted events are the plain replay of
   everything delivered since the restored sequence.
   */
  lemma ProjectionIsReplay<S, E, D>(cfg: Config<S, E, D>, worlds: seq<World<S, E, D>>, steps: seq<Step<S, D>>, n: nat)
    requires Replayed(cfg) && Run(cfg, worlds, steps) && n <= |steps|
    ensures var w := worlds[n]; var v := w.view;
            v.Shaped() &&
            (v.failed.None? ==>
               && cfg.Fold(v.base, v.log, 0, v.committed) == Applied(v.state)
               && (forall i, j :: 0 <= i < j < |v.log| ==> v.log[i].sequence < v.log[j].sequence)
               && (forall i :: v.committed <= i < |v.log| ==> v.log[i].sequence > v.Last())
               && (forall q: nat :: q <= w.position && w.stream.Selected(cfg.subjects, q) ==> Covered(v, q)))
    ensures var w := worlds[n]; var v := w.view;
            v.failed.None? && w.stream.deleted == {} ==>
              v.restored <= w.position <= w.stream.LastSeq() && v.log == Replay(cfg, w.stream, v.restored, w.position)
  {
    RunKeeps(cfg, worlds, steps, n);
    var w := worlds[n];
    if w.view.failed.None? && w.stream.deleted == {} {
      LogIsReplay(cfg, w, |w.view.log|, w.position);
      assert w.view.log[..|w.view.log|] == w.view.log;
    }
  }

  // ------------------------------------------------------------------ startup

  /** A step from a failed view changes at most its waiters. */
  ghost predicate Frozen<S, E>(v: View<S, E>, r: View<S, E>) {
    v.failed.Some? ==>
      r.failed == v.failed && r.state == v.state && r.log == v.log && r.committed == v.committed && r.hooks == v.hooks
  }

  lemma StepFreezes<S, E, D>(cfg: Config<S, E, D>, w: World<S, E, D>, step: Step<S, D>)
    requires Inv(cfg, w) && Enabled(cfg, w, step)
    ensures Frozen(w.view, Do(cfg, w, step).view)
  {
  }

  lemma {:induction false} FrozenAfterFailure<S, E, D>(cfg: Config<S, E, D>, worlds: seq<World<S, E, D>>,
                                                       steps: seq<Step<S, D>>, i: nat, j: nat)
    requires Replayed(cfg) && Run(cfg, worlds, steps) && i <= j <= |steps|
    ensures Frozen(worlds[i].view, worlds[j].view)
    decreases j
  {
    hide Do, Enabled, Inv, Replayed;
    if i < j {
      FrozenAfterFailure(cfg, worlds, steps, i, j - 1);
      RunKeeps(cfg, worlds, steps, j - 1);
      NthStep(cfg, worlds, steps, j - 1);
      StepFreezes(cfg, worlds[j - 1], steps[j - 1]);
    }
  }

  /**
   The completion hook runs at most once, never after a failure, and once it ran every record up to
   the captured target that is still retained is in the projection, even if the target is gone.
   */
  lemma StartupIsComplete<S, E, D>(cfg: Config<S, E, D>, worlds: seq<World<S, E, D>>, steps: seq<Step<S, D>>, i: nat,
                                   j: nat)
    requires Replayed(cfg) && Run(cfg, worlds, steps) && i <= j <= |steps|
    ensures worlds[j].view.hooks <= 1
    ensures worlds[i].view.failed.Some? ==>
              worlds[j].view.hooks == worlds[i].view.hooks && worlds[j].view.state == worlds[i].view.state
    ensures var w := worlds[j];
            w.view.Shaped() &&
            (w.view.hooks == 1 ==> forall q: nat :: q <= w.captured && w.stream.Selected(cfg.subjects, q) ==>
              Reflected(w.view, q))
  {
    RunKeeps(cfg, worlds, steps, j);
    FrozenAfterFailure(cfg, worlds, steps, i, j);
  }

  /** Two startup checks in a row without progress read the stream and end startup if nothing is left. */
  lemma LostTargetEndsStartup<S, E, D>(cfg: Config<S, E, D>, w: World<S, E, D>, current: nat)
    requires ViewOk(cfg, w.view) && w.view.started && StartupPending(w.view) && w.reading.None?
    requires current <= w.view.Handled()
    ensures var a := Do(cfg, w, ReconcileStart);
            var b := if a.reading.Some? then a else Do(cfg, a, ReconcileStart);
            b.reading == Some(w.stream.LastSeq()) && Do(cfg, b, ReconcileFinish(current)).view.ended
  {
    ReconcileEffect(cfg, w.view, current);
  }

  lemma LostTargetRunsHook<S, E, D>(cfg: Config<S, E, D>, v: View<S, E>, current: nat)
    requires ViewOk(cfg, v) && v.started && StartupPending(v) && current <= v.Handled()
    ensures var done := OnReconcile(cfg, v, current);
            done.failed.None? ==> done.hooks == 1 && done.committed == |v.log|
  {
    ReconcileEffect(cfg, v, current);
    CommitEffect(cfg, v, true);
  }

  // ------------------------------------------------------------------ waiting

  /** Everything retained below a recorded failure is in the projection. */
  lemma NothingLostBeforeFailure<S, E, D>(cfg: Config<S, E, D>, worlds: seq<World<S, E, D>>, steps: seq<Step<S, D>>,
                                          n: nat, q: nat)
    requires Replayed(cfg) && Run(cfg, worlds, steps) && n <= |steps|
    requires var w := worlds[n]; w.stream.Selected(cfg.subjects, q) && w.view.failed.Some? && q < w.view.failed.value
    ensures worlds[n].view.Shaped() && q <= worlds[n].view.Last() && Reflected(worlds[n].view, q)
  {
    RunKeeps(cfg, worlds, steps, n);
  }

  /**
   A wait for a matching record that reports success, at once or after its channel was closed, means
   that the record is in the projection, unless the record was deleted meanwhile.
   */
  lemma WaitSuccessMeansApplied<S, E, D>(cfg: Config<S, E, D>, worlds: seq<World<S, E, D>>, steps: seq<Step<S, D>>,
                                         n: nat, q: nat)
    requires Replayed(cfg) && Run(cfg, worlds, steps) && n <= |steps|
    requires var w := worlds[n];
             && w.stream.Stored(q) && cfg.Consumes(w.stream.At(q).subject) && w.view.Shaped()
             && (|| StartWait(w.view, q).WaitSucceeds?
                 || (ResumeSucceeds(w.view, q) && exists k ::
                      0 <= k < w.view.roster.released && w.view.roster.all[k].sequence == q))
    ensures worlds[n].view.Shaped() && (Reflected(worlds[n].view, q) || q in worlds[n].stream.deleted)
  {
    RunKeeps(cfg, worlds, steps, n);
    var w := worlds[n];
    if q !in w.stream.deleted {
      assert w.stream.Selected(cfg.subjects, q);
    }
  }

  /** Released callers stay released, in the order in which they were released. */
  ghost predicate KeepsReleased(a: Roster, b: Roster)
    requires a.Shaped() && b.Shaped()
  {
    a.released <= b.released && forall k :: 0 <= k < a.released ==> a.all[k] == b.all[k]
  }

  /** A blocked caller stays blocked, or was released, unless it is the one that cancelled. */
  ghost predicate KeepsBlocked(a: Roster, b: Roster, cancelled: Option<nat>)
    requires a.Shaped() && b.Shaped()
  {
    forall k :: a.released <= k < |a.all| && cancelled != Some(a.all[k].id) ==> a.all[k] in b.all
  }

  lemma RosterStep<S, E, D>(cfg: Config<S, E, D>, w: World<S, E, D>, step: Step<S, D>)
    requires Inv(cfg, w) && Enabled(cfg, w, step)
    ensures var a, b := w.view.roster, Do(cfg, w, step).view.roster;
            || OnlyReleases(a, b)
            || (step.Wait? && b == a.Join(step.until))
            || (step.Cancel? && b == a.Drop(step.id))
  {
    match step
    case Begin(base, cutoff, _) => ReleaseKeeps(w.view.roster, w.view.Last(), false, cutoff);
    case Deliver(q) =>
      HandledIsDelivered(cfg, w);
      MessageReleases(cfg, w.view, q, w.stream.At(q));
    case Tick => TickReleases(cfg, w.view);
    case ReconcileFinish(current) => ReconcileReleases(cfg, w.view, current);
    case _ =>
  }

  lemma StepKeepsRoster<S, E, D>(cfg: Config<S, E, D>, w: World<S, E, D>, step: Step<S, D>)
    requires Inv(cfg, w) && Enabled(cfg, w, step)
    ensures KeepsReleased(w.view.roster, Do(cfg, w, step).view.roster)
    ensures KeepsBlocked(w.view.roster, Do(cfg, w, step).view.roster, if step.Cancel? then Some(step.id) else None)
  {
    RosterStep(cfg, w, step);
    var a, b := w.view.roster, Do(cfg, w, step).view.roster;
    if step.Wait? && b == a.Join(step.until) {
      JoinStep(a, step.until);
    } else if step.Cancel? && b == a.Drop(step.id) {
      DropStep(a, step.id);
    }
  }

  lemma JoinStep(a: Roster, q: nat)
    requires a.Shaped()
    ensures KeepsReleased(a, a.Join(q)) && KeepsBlocked(a, a.Join(q), None)
  {
    JoinAt(a, q);
    var i, b := InsertionPoint(a.all, a.released, q), a.Join(q);
    forall k | a.released <= k < |a.all| ensures a.all[k] in b.all {
      assert b.all[if k < i then k else k + 1] == a.all[k];
    }
  }

  lemma DropStep(a: Roster, id: nat)
    requires a.Shaped()
    ensures KeepsReleased(a, a.Drop(id)) && KeepsBlocked(a, a.Drop(id), Some(id))
  {
    var i, b := Find(a.all, a.released, id), a.Drop(id);
    if i < |a.all| {
      DropAt(a, id);
      forall k | a.released <= k < |a.all| && a.all[k].id != id ensures a.all[k] in b.all {
        assert b.all[if k < i then k else k - 1] == a.all[k];
      }
    }
  }

  lemma {:induction false} RunReleases<S, E, D>(cfg: Config<S, E, D>, worlds: seq<World<S, E, D>>, steps: seq<Step<S,
                                                D>>, i: nat, j: nat)
    requires Replayed(cfg) && Run(cfg, worlds, steps) && i <= j <= |steps|
    ensures worlds[i].view.Shaped() && worlds[j].view.Shaped()
    ensures KeepsReleased(worlds[i].view.roster, worlds[j].view.roster)
    decreases j
  {
    hide Inv, Do, Enabled, RosterOk, WaitersOk;
    if i < j {
      RunReleases(cfg, worlds, steps, i, j - 1);
      RunRosterStep(cfg, worlds, steps, j - 1);
      ReleasedTwice(worlds[i].view.roster, worlds[j - 1].view.roster, worlds[j].view.roster);
    } else {
      RunWaiters(cfg, worlds, steps, i);
    }
  }

  /**
   Over a whole run a waiter is released at most once: released waiters stay where they are, no
   waiter is listed twice, and the blocked ones are sorted and above the frontier.
   */
  lemma ReleasedOnce<S, E, D>(cfg: Config<S, E, D>, worlds: seq<World<S, E, D>>, steps: seq<Step<S, D>>, i: nat, j: nat)
    requires Replayed(cfg) && Run(cfg, worlds, steps) && i <= j <= |steps|
    ensures worlds[i].view.Shaped() && worlds[j].view.Shaped()
    ensures KeepsReleased(worlds[i].view.roster, worlds[j].view.roster)
    ensures RosterOk(worlds[j].view.roster, worlds[j].view.Last(), worlds[j].view.failed.Some?)
  {
    RunReleases(cfg, worlds, steps, i, j);
    RunWaiters(cfg, worlds, steps, j);
  }

  lemma ReleasedTwice(a: Roster, b: Roster, c: Roster)
    requires a.Shaped() && b.Shaped() && c.Shaped() && KeepsReleased(a, b) && KeepsReleased(b, c)
    ensures KeepsReleased(a, c)
  {
  }

  lemma RunWaiters<S, E, D>(cfg: Config<S, E, D>, worlds: seq<World<S, E, D>>, steps: seq<Step<S, D>>, n: nat)
    requires Replayed(cfg) && Run(cfg, worlds, steps) && n <= |steps|
    ensures worlds[n].view.Shaped() && WaitersOk(worlds[n].view)
  {
    RunKeeps(cfg, worlds, steps, n);
  }

  lemma RunRosterStep<S, E, D>(cfg: Config<S, E, D>, worlds: seq<World<S, E, D>>, steps: seq<Step<S, D>>, n: nat)
    requires Replayed(cfg) && Run(cfg, worlds, steps) && n < |steps|
    ensures worlds[n].view.Shaped() && worlds[n + 1].view.Shaped()
    ensures KeepsReleased(worlds[n].view.roster, worlds[n + 1].view.roster)
    ensures KeepsBlocked(worlds[n].view.roster, worlds[n + 1].view.roster, if steps[n].Cancel? then Some(steps[n].id)
              else None)
  {
    RunKeeps(cfg, worlds, steps, n);
    NthStep(cfg, worlds, steps, n);
    StepKeepsRoster(cfg, worlds[n], steps[n]);
  }
}
