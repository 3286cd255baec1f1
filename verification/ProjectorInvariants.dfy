/** What every entry point of the projector keeps, before any stream is brought in. */
module ProjectorInvariants {
  import opened EventStream
  import opened Projections
  import opened Waiters

  // ------------------------------------------------------------------ the event log

  /** Accepted events are strictly ascending and all lie above the restored sequence. */
  ghost predicate Ascending<S, E>(v: View<S, E>) {
    && (forall i :: 0 <= i < |v.log| ==> v.log[i].sequence > v.restored)
    && (forall i, j :: 0 <= i < j < |v.log| ==> v.log[i].sequence < v.log[j].sequence)
  }

  /** One batch at most is pending, and it is shorter than the size that flushes it. */
  ghost predicate PendingOk<S, E, D>(cfg: Config<S, E, D>, v: View<S, E>)
    requires v.Shaped()
  {
    v.failed.None? && v.Waiting() > 0 ==>
      if v.ended then cfg.liveSize > 0 && v.Waiting() < cfg.liveSize
      else cfg.startupSize > 1 && v.Waiting() < cfg.startupSize && v.Handled() < v.target
  }

  ghost predicate PhaseOk<S, E>(v: View<S, E>) {
    && v.hooks <= 1
    && (!v.ended ==> v.hooks == 0)
    && (v.failed.Some? ==> v.ended)
    && (v.ended && v.failed.None? ==> v.hooks == 1)
    && (!v.started ==> !v.ended && v.log == [] && v.restored == 0)
  }

  /** Startup only ends once the frontier has reached the target. */
  ghost predicate TargetOk<S, E>(v: View<S, E>)
    requires v.Shaped()
  {
    v.ended && v.failed.None? ==> v.Last() >= v.target
  }

  /** The projection is the fold of single applies over everything committed. */
  ghost predicate StateOk<S, E, D>(cfg: Config<S, E, D>, v: View<S, E>)
    requires v.Shaped()
  {
    cfg.Fold(v.base, v.log, 0, v.committed) == Applied(v.state)
  }

  ghost predicate ViewOk<S, E, D>(cfg: Config<S, E, D>, v: View<S, E>) {
    && v.Shaped()
    && Ascending(v)
    && PendingOk(cfg, v)
    && PhaseOk(v)
    && TargetOk(v)
    && (v.failed.None? ==> StateOk(cfg, v))
  }

  /** What no step ever undoes. */
  ghost predicate Grows<S, E>(v: View<S, E>, r: View<S, E>) {
    && v.base == r.base && v.restored == r.restored
    && v.log <= r.log
    && v.Shaped() && r.Shaped()
    && v.committed <= r.committed
    && v.hooks <= r.hooks
    && (v.ended ==> r.ended)
    && (v.failed.Some? ==> r.failed == v.failed)
  }

  lemma LastMonotone<S, E>(v: View<S, E>, r: View<S, E>)
    requires Ascending(r) && Grows(v, r)
    ensures v.Last() <= r.Last() <= r.Handled()
  {
  }

  /** `r` is `v` after everything pending was applied or the first pending event failed. */
  ghost predicate CommitOutcome<S, E, D>(cfg: Config<S, E, D>, v: View<S, E>, r: View<S, E>) {
    && Grows(v, r) && r.log == v.log && r.target == v.target && r.started && r.hooks == v.hooks
    && Ascending(r) && PhaseOk(r)
    && (r.failed.None? ==> r.ended == v.ended && r.committed == |r.log| && StateOk(cfg, r))
    && (r.failed.Some? ==> r.committed == v.committed < |r.log| && r.failed.value == r.log[r.committed].sequence)
  }

  lemma CommitEffect<S, E, D>(cfg: Config<S, E, D>, v: View<S, E>, batch: bool)
    requires v.Shaped() && Ascending(v) && PhaseOk(v) && v.started && v.failed.None? && StateOk(cfg, v)
    ensures CommitOutcome(cfg, v, Commit(cfg, v, batch))
    ensures Commit(cfg, v, batch).failed.Some? && batch ==> Commit(cfg, v, batch).state == v.state
  {
    if v.committed < |v.log| {
      FoldSplit(cfg, v.base, v.log, 0, v.committed, |v.log|);
    }
  }

  /** What the view `r` after one accepted event owes to the view `v` before it. */
  ghost predicate EventOutcome<S, E, D>(cfg: Config<S, E, D>, v: View<S, E>, item: Item<E>, r: View<S, E>)
    requires v.Shaped()
  {
    && ViewOk(cfg, r) && Grows(v, r) && r.started
    && (r.log == v.log || r.log == v.log + [item])
    && (r.failed.None? ==> r.log == v.log + [item])
    && (r.failed.Some? ==> r.committed < |r.log| && r.failed.value == r.log[r.committed].sequence)
    && (!r.ended ==> r.target == v.target)
    && (r.hooks > v.hooks ==>
          || (r.failed.None? && r.Last() >= v.target)
          || (item.sequence > v.target && r.committed >= |v.log|))
  }

  lemma AppendAscends<S, E>(v: View<S, E>, item: Item<E>)
    requires v.Shaped() && Ascending(v) && item.sequence > v.Handled()
    ensures var r := v.(log := v.log + [item]); Ascending(r) && r.Handled() == item.sequence && r.Last() == v.Last()
  {
  }

  lemma AppendFolds<S, E, D>(cfg: Config<S, E, D>, v: View<S, E>, item: Item<E>)
    requires v.Shaped() && StateOk(cfg, v)
    ensures StateOk(cfg, v.(log := v.log + [item]))
  {
    FoldSame(cfg, v.base, v.log + [item], 0, v.log, v.committed);
  }

  lemma Appended<S, E, D>(cfg: Config<S, E, D>, v: View<S, E>, item: Item<E>)
    requires v.Shaped() && Ascending(v) && StateOk(cfg, v) && item.sequence > v.Handled()
    ensures var r := v.(log := v.log + [item]);
            Ascending(r) && StateOk(cfg, r) && r.Handled() == item.sequence && r.Last() == v.Last()
  {
    AppendAscends(v, item);
    AppendFolds(cfg, v, item);
  }

  lemma FinishEffect<S, E, D>(cfg: Config<S, E, D>, v: View<S, E>)
    requires v.Shaped() && Ascending(v) && PhaseOk(v) && v.started && TargetOk(v)
    requires v.failed.None? ==> StateOk(cfg, v)
    requires PendingOk(cfg, v)
    ensures var r := Finish(v);
            && ViewOk(cfg, r) && Grows(v, r) && r.log == v.log && r.committed == v.committed
            && r.started && r.failed == v.failed && r.target == v.target
            && (r.hooks > v.hooks ==> v.failed.None? && v.Last() >= v.target)
            && (!r.ended ==> v.Last() < v.target)
  {
    LastMonotone(v, v);
  }

  /** The event was appended to `v` as `v1`, and `r` is `v1` committed. */
  lemma CommittedEvent<S, E, D>(cfg: Config<S, E, D>, v: View<S, E>, item: Item<E>, v1: View<S, E>, r: View<S, E>)
    requires ViewOk(cfg, v) && v.started && v.failed.None?
    requires Grows(v, v1) && v1.log == v.log + [item] && v1.failed.None?
    requires v1.ended == v.ended
               || (v1.ended && (v.Last() >= v.target || (item.sequence > v.target && v.committed == |v.log|)))
    requires v1.ended ==> v1.Last() >= v1.target
    requires !v1.ended ==> v1.target == v.target && v1.hooks == v.hooks
    requires v1.ended && v.ended ==> v1.hooks == v.hooks
    requires CommitOutcome(cfg, v1, r)
    ensures EventOutcome(cfg, v, item, Finish(r))
  {
    LastMonotone(v, v1);
    LastMonotone(v1, r);
    FinishEffect(cfg, r);
  }

  /** The event was appended to `v` as `v1` and stays pending. */
  lemma BufferedEvent<S, E, D>(cfg: Config<S, E, D>, v: View<S, E>, item: Item<E>, v1: View<S, E>)
    requires ViewOk(cfg, v) && v.started && v.failed.None?
    requires Grows(v, v1) && v1.log == v.log + [item] && v1.failed.None? && v1.started
    requires ViewOk(cfg, v1)
    requires v1.ended ==> v.ended || (item.sequence > v.target && v.committed == |v.log|)
    requires !v1.ended ==> v1.target == v.target && v1.hooks == v.hooks && v1.Last() < v1.target
    requires v1.ended && v.ended ==> v1.hooks == v.hooks
    ensures EventOutcome(cfg, v, item, Finish(v1))
  {
    FinishEffect(cfg, v1);
  }

  lemma StartupEvent<S, E, D>(cfg: Config<S, E, D>, v: View<S, E>, item: Item<E>)
    requires ViewOk(cfg, v) && v.started && v.failed.None? && item.sequence > v.Handled()
    requires cfg.startupSize > 1 && !v.ended && item.sequence <= v.target
    ensures var v1 := v.(log := v.log + [item]);
            EventOutcome(cfg, v, item,
              Finish(if v1.Waiting() < cfg.startupSize && item.sequence < v.target then v1 else Commit(cfg, v1, true)))
  {
    Appended(cfg, v, item);
    var v1 := v.(log := v.log + [item]);
    if v1.Waiting() < cfg.startupSize && item.sequence < v.target {
      LastMonotone(v1, v1);
      BufferedEvent(cfg, v, item, v1);
    } else {
      CommitEffect(cfg, v1, true);
      CommittedEvent(cfg, v, item, v1, Commit(cfg, v1, true));
    }
  }

  /** Startup has ended before a live event is buffered. */
  lemma EndedBeforeLive<S, E, D>(cfg: Config<S, E, D>, v: View<S, E>)
    requires ViewOk(cfg, v) && v.started && v.failed.None?
    requires v.ended || v.Waiting() == 0
    ensures var v1 := Finish(LowerTarget(v));
            && ViewOk(cfg, v1) && Grows(v, v1) && v1.log == v.log && v1.committed == v.committed
            && v1.ended && v1.failed.None? && v1.started
            && (v.ended ==> v1.hooks == v.hooks)
            && v1.Last() >= v1.target && v1.Last() == v.Last()
  {
  }

  /** An event past the target while live batches are on: startup ends before the event is buffered. */
  lemma LiveEvent<S, E, D>(cfg: Config<S, E, D>, v: View<S, E>, item: Item<E>)
    requires ViewOk(cfg, v) && v.started && v.failed.None? && item.sequence > v.Handled()
    requires v.ended || v.Waiting() == 0
    requires cfg.liveSize > 0 && item.sequence > v.target
    ensures var v1 := Finish(LowerTarget(v));
            var v2 := v1.(log := v1.log + [item]);
            EventOutcome(cfg, v, item, Finish(if v2.Waiting() >= cfg.liveSize then Commit(cfg, v2, true) else v2))
  {
    EndedBeforeLive(cfg, v);
    var v1 := Finish(LowerTarget(v));
    Appended(cfg, v1, item);
    BufferLive(cfg, v, v1, item);
  }

  lemma BufferLive<S, E, D>(cfg: Config<S, E, D>, v: View<S, E>, v1: View<S, E>, item: Item<E>)
    requires ViewOk(cfg, v) && v.started && v.failed.None? && item.sequence > v.Handled()
    requires v.ended || v.Waiting() == 0
    requires cfg.liveSize > 0 && item.sequence > v.target
    requires ViewOk(cfg, v1) && Grows(v, v1) && v1.log == v.log && v1.committed == v.committed
    requires v1.ended && v1.failed.None? && v1.started && v1.Last() >= v1.target
    requires v.ended ==> v1.hooks == v.hooks
    ensures var v2 := v1.(log := v1.log + [item]);
            EventOutcome(cfg, v, item, Finish(if v2.Waiting() >= cfg.liveSize then Commit(cfg, v2, true) else v2))
  {
    Appended(cfg, v1, item);
    var v2 := v1.(log := v1.log + [item]);
    if v2.Waiting() >= cfg.liveSize {
      CommitEffect(cfg, v2, true);
      CommittedEvent(cfg, v, item, v2, Commit(cfg, v2, true));
    } else {
      BufferedEvent(cfg, v, item, v2);
    }
  }

  lemma SingleEvent<S, E, D>(cfg: Config<S, E, D>, v: View<S, E>, item: Item<E>)
    requires ViewOk(cfg, v) && v.started && v.failed.None? && item.sequence > v.Handled()
    requires v.Waiting() == 0
    ensures EventOutcome(cfg, v, item, Finish(Commit(cfg, v.(log := v.log + [item]), false)))
  {
    Appended(cfg, v, item);
    var v1 := v.(log := v.log + [item]);
    CommitEffect(cfg, v1, false);
    CommittedEvent(cfg, v, item, v1, Commit(cfg, v1, false));
  }

  /** The pending startup batch was flushed as `v0` before the event. */
  lemma AfterFlush<S, E, D>(cfg: Config<S, E, D>, v: View<S, E>, v0: View<S, E>, item: Item<E>, r: View<S, E>)
    requires ViewOk(cfg, v) && v.started && v.failed.None? && !v.ended
    requires CommitOutcome(cfg, v, v0) && v0.failed.None?
    requires EventOutcome(cfg, v0, item, r)
    ensures EventOutcome(cfg, v, item, r)
  {
  }

  lemma FlushFails<S, E, D>(cfg: Config<S, E, D>, v: View<S, E>, v0: View<S, E>, item: Item<E>)
    requires ViewOk(cfg, v) && v.started && v.failed.None? && !v.ended
    requires CommitOutcome(cfg, v, v0) && v0.failed.Some?
    ensures EventOutcome(cfg, v, item, Finish(v0))
  {
  }

  /** How one delivered event changes the view. */
  lemma EventEffect<S, E, D>(cfg: Config<S, E, D>, v: View<S, E>, item: Item<E>)
    requires ViewOk(cfg, v) && v.started && v.failed.None? && item.sequence > v.Handled()
    ensures EventOutcome(cfg, v, item, Finish(OnEvent(cfg, v, item)))
  {
    if cfg.startupSize > 1 && !v.ended && item.sequence <= v.target {
      StartupEvent(cfg, v, item);
    } else if v.ended {
      LastMonotone(v, v);
      EventPastStartup(cfg, v, item);
    } else {
      CommitEffect(cfg, v, true);
      var v0 := Commit(cfg, v, true);
      if v0.failed.None? {
        EventPastStartup(cfg, v0, item);
        AfterFlush(cfg, v, v0, item, Finish(PastStartup(cfg, v0, item)));
      } else {
        FlushFails(cfg, v, v0, item);
      }
    }
  }

  lemma EventPastStartup<S, E, D>(cfg: Config<S, E, D>, v: View<S, E>, item: Item<E>)
    requires ViewOk(cfg, v) && v.started && v.failed.None? && item.sequence > v.Handled()
    requires v.Waiting() == 0 || (v.ended && item.sequence > v.target)
    ensures EventOutcome(cfg, v, item, Finish(PastStartup(cfg, v, item)))
  {
    if cfg.liveSize > 0 && item.sequence > v.target {
      LiveEvent(cfg, v, item);
    } else {
      SingleEvent(cfg, v, item);
    }
  }

  // ------------------------------------------------------------------ the other entry points

  lemma FailEffect<S, E, D>(cfg: Config<S, E, D>, v: View<S, E>, q: nat)
    requires ViewOk(cfg, v) && v.started
    ensures var r := Fail(v, q);
            && ViewOk(cfg, r) && Grows(v, r) && r.log == v.log && r.committed == v.committed && r.started
            && r.hooks == v.hooks && r.failed == (if v.failed.None? then Some(q) else v.failed)
            && r.ended && r.target == v.target && r.state == v.state
  {
  }

  lemma TickEffect<S, E, D>(cfg: Config<S, E, D>, v: View<S, E>)
    requires ViewOk(cfg, v) && v.started
    ensures var r := OnTick(cfg, v);
            && ViewOk(cfg, r) && Grows(v, r) && r.log == v.log && r.started
            && (v.failed.Some? ==> r == v)
            && (r.failed.Some? && v.failed.None? ==>
                 r.committed < |r.log| && r.failed.value == r.log[r.committed].sequence)
            && (!r.ended ==> r.target == v.target)
            && (r.hooks > v.hooks ==> r.Last() >= v.target && r.failed.None?)
  {
    if v.failed.None? && v.ended {
      CommitEffect(cfg, v, true);
      var r := Commit(cfg, v, true);
      LastMonotone(v, r);
      FinishEffect(cfg, r);
    } else {
      FinishEffect(cfg, v);
    }
  }

  lemma ReconcileEffect<S, E, D>(cfg: Config<S, E, D>, v: View<S, E>, current: nat)
    requires ViewOk(cfg, v) && v.started
    ensures var r := OnReconcile(cfg, v, current);
            && ViewOk(cfg, r) && Grows(v, r) && r.log == v.log && r.started
            && (v.failed.Some? ==> r == v)
            && (r.failed.Some? && v.failed.None? ==>
                 r.committed < |r.log| && r.failed.value == r.log[r.committed].sequence)
            && (!r.ended ==> r == v)
            && (r.hooks > v.hooks ==> current <= v.Handled() && r.committed == |r.log| && r.failed.None?)
    ensures !v.ended && current <= v.Handled() ==> OnReconcile(cfg, v, current).ended
  {
    if !v.ended && current <= v.Handled() {
      CommitEffect(cfg, v, true);
      var v1 := Commit(cfg, v, true);
      if v1.failed.None? {
        FinishLowered(cfg, v1);
      }
    }
  }

  lemma FinishLowered<S, E, D>(cfg: Config<S, E, D>, v: View<S, E>)
    requires v.Shaped() && v.committed == |v.log| && Ascending(v) && PhaseOk(v) && StateOk(cfg, v)
    requires v.started && v.failed.None? && !v.ended
    ensures var r := Finish(LowerTarget(v));
            && ViewOk(cfg, r) && Grows(v, r) && r.log == v.log && r.committed == v.committed
            && r.started && r.ended && r.failed.None?
  {
  }

  // ------------------------------------------------------------------ waiters

  ghost predicate WaitersOk<S, E>(v: View<S, E>)
    requires v.Shaped()
  {
    RosterOk(v.roster, v.Last(), v.failed.Some?)
  }

  /** The step released waiters and did nothing else to them. */
  ghost predicate Releases<S, E>(v: View<S, E>, r: View<S, E>)
    requires r.Shaped()
  {
    WaitersOk(r) && OnlyReleases(v.roster, r.roster)
  }

  /** The frontier stayed, advanced, or the step failed; the waiters moved accordingly. */
  ghost predicate Moved<S, E>(v: View<S, E>, r: View<S, E>) {
    && v.Shaped() && r.Shaped()
    && (|| (r.roster == v.roster && r.Last() == v.Last() && r.failed == v.failed)
        || (r.roster == v.roster.Release(r.Last()) && r.Last() >= v.Last() && r.failed == v.failed)
        || (r.roster == v.roster.ReleaseAll() && r.Last() == v.Last() && r.failed.Some?))
  }

  lemma MovedKeeps<S, E>(v: View<S, E>, r: View<S, E>)
    requires Moved(v, r) && WaitersOk(v)
    ensures Releases(v, r)
  {
    if r.roster == v.roster.ReleaseAll() && r.Last() == v.Last() && r.failed.Some? {
      ReleaseAllKeeps(v.roster, v.Last(), v.failed.Some?);
    } else if r.roster != v.roster {
      ReleaseKeeps(v.roster, v.Last(), v.failed.Some?, r.Last());
    }
  }

  lemma CommitMoves<S, E, D>(cfg: Config<S, E, D>, v: View<S, E>, batch: bool)
    requires v.Shaped() && Ascending(v)
    ensures Moved(v, Commit(cfg, v, batch))
  {
  }

  lemma AppendMoves<S, E, D>(cfg: Config<S, E, D>, v: View<S, E>, item: Item<E>, batch: bool)
    requires v.Shaped() && Ascending(v) && item.sequence > v.Handled()
    ensures Moved(v, Commit(cfg, v.(log := v.log + [item]), batch))
  {
    AppendAscends(v, item);
    CommitMoves(cfg, v.(log := v.log + [item]), batch);
  }

  /** `v1` differs from `v` in the startup phase only. */
  ghost predicate SameFrontier<S, E>(v: View<S, E>, v1: View<S, E>) {
    && v.Shaped() && v1.Shaped()
    && v1.log == v.log && v1.committed == v.committed && v1.restored == v.restored
    && v1.roster == v.roster && v1.failed == v.failed
  }

  lemma PhaseChange<S, E>(v: View<S, E>)
    requires v.Shaped()
    ensures SameFrontier(v, Finish(v)) && SameFrontier(v, LowerTarget(v)) && SameFrontier(v, Finish(LowerTarget(v)))
  {
  }

  lemma LiveMoves<S, E, D>(cfg: Config<S, E, D>, v: View<S, E>, v1: View<S, E>, item: Item<E>)
    requires v.Shaped() && Ascending(v) && item.sequence > v.Handled()
    requires SameFrontier(v, v1)
    ensures var v2 := v1.(log := v1.log + [item]);
            Moved(v, v2) && Moved(v, Commit(cfg, v2, true))
  {
    AppendMoves(cfg, v1, item, true);
    AppendAscends(v1, item);
  }

  lemma PastStartupReleases<S, E, D>(cfg: Config<S, E, D>, v: View<S, E>, item: Item<E>)
    requires v.Shaped() && Ascending(v) && WaitersOk(v) && item.sequence > v.Handled()
    ensures Releases(v, PastStartup(cfg, v, item))
  {
    if cfg.liveSize > 0 && item.sequence > v.target {
      PhaseChange(v);
      LiveMoves(cfg, v, Finish(LowerTarget(v)), item);
    } else {
      AppendMoves(cfg, v, item, false);
    }
    MovedKeeps(v, PastStartup(cfg, v, item));
  }

  lemma StartupReleases<S, E, D>(cfg: Config<S, E, D>, v: View<S, E>, item: Item<E>)
    requires v.Shaped() && Ascending(v) && WaitersOk(v) && item.sequence > v.Handled()
    requires cfg.startupSize > 1 && v.started && !v.ended && item.sequence <= v.target
    ensures Releases(v, OnEvent(cfg, v, item))
  {
    AppendMoves(cfg, v, item, true);
    AppendAscends(v, item);
    MovedKeeps(v, OnEvent(cfg, v, item));
  }

  lemma CommitReleases<S, E, D>(cfg: Config<S, E, D>, v: View<S, E>, batch: bool)
    requires v.Shaped() && Ascending(v) && WaitersOk(v)
    ensures Releases(v, Commit(cfg, v, batch))
  {
    CommitMoves(cfg, v, batch);
    MovedKeeps(v, Commit(cfg, v, batch));
  }

  lemma ReleasesTwice<S, E>(v: View<S, E>, v1: View<S, E>, r: View<S, E>)
    requires v1.Shaped() && r.Shaped() && Releases(v, v1) && Releases(v1, r)
    ensures Releases(v, r)
  {
  }

  lemma EventReleases<S, E, D>(cfg: Config<S, E, D>, v: View<S, E>, item: Item<E>)
    requires v.Shaped() && Ascending(v) && WaitersOk(v) && item.sequence > v.Handled()
    ensures Releases(v, OnEvent(cfg, v, item))
  {
    hide PastStartup, Config.Fold, RosterOk;
    if cfg.startupSize > 1 && v.started && !v.ended && item.sequence <= v.target {
      StartupReleases(cfg, v, item);
    } else if v.ended {
      PastStartupReleases(cfg, v, item);
    } else {
      CommitReleases(cfg, v, true);
      var v0 := Commit(cfg, v, true);
      if v0.failed.None? {
        PastStartupReleases(cfg, v0, item);
        ReleasesTwice(v, v0, PastStartup(cfg, v0, item));
      }
    }
  }

  lemma FailReleases<S, E>(v: View<S, E>, q: nat)
    requires v.Shaped() && WaitersOk(v)
    ensures Releases(v, Fail(v, q))
  {
    MovedKeeps(v, Fail(v, q));
  }

  lemma ThenPhase<S, E>(v: View<S, E>, v1: View<S, E>)
    requires v1.Shaped() && Releases(v, v1)
    ensures Releases(v, Finish(v1)) && Releases(v, Finish(LowerTarget(v1)))
  {
    PhaseChange(v1);
  }

  /** A delivered message does nothing to the waiters but release them in order. */
  lemma MessageReleases<S, E, D>(cfg: Config<S, E, D>, v: View<S, E>, q: nat, msg: Message<D>)
    requires v.Shaped() && Ascending(v) && WaitersOk(v) && q > v.Handled()
    ensures Releases(v, OnMessage(cfg, v, q, msg))
  {
    match cfg.decode(msg.data)
    case None => FailReleases(v, if v.Waiting() > 0 then v.log[v.committed].sequence else q);
    case Some(event) =>
      var item := Item(event, msg.subject, q);
      EventReleases(cfg, v, item);
      ThenPhase(v, OnEvent(cfg, v, item));
  }

  lemma TickReleases<S, E, D>(cfg: Config<S, E, D>, v: View<S, E>)
    requires v.Shaped() && Ascending(v) && WaitersOk(v)
    ensures Releases(v, OnTick(cfg, v))
  {
    if v.ended && v.failed.None? {
      CommitReleases(cfg, v, true);
      ThenPhase(v, Commit(cfg, v, true));
    } else {
      ThenPhase(v, v);
    }
  }

  lemma ReconcileReleases<S, E, D>(cfg: Config<S, E, D>, v: View<S, E>, current: nat)
    requires v.Shaped() && Ascending(v) && WaitersOk(v)
    ensures Releases(v, OnReconcile(cfg, v, current))
  {
    if !v.ended && v.failed.None? && current <= v.Handled() {
      CommitReleases(cfg, v, true);
      ThenPhase(v, Commit(cfg, v, true));
    }
  }

  lemma WaitKeeps<S, E>(v: View<S, E>, q: nat)
    requires v.Shaped() && WaitersOk(v)
    ensures WaitersOk(OnWait(v, q))
  {
    hide RosterOk, InsertionPoint;
    if v.Last() < q {
      JoinKeeps(v.roster, v.Last(), v.failed.Some?, q);
    }
  }

  lemma CancelKeeps<S, E>(v: View<S, E>, id: nat)
    requires v.Shaped() && WaitersOk(v)
    ensures WaitersOk(OnCancel(v, id))
  {
    DropKeeps(v.roster, v.Last(), v.failed.Some?, id);
  }
}
