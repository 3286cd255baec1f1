/**
 The projector's state machine as a value: what one call of each entry point does to the
 projection, the replay frontier, the startup phase and the waiters (pkg/events/projector.go).

 A `View` keeps every event the projector accepted in one list, `log`, and how many of them are
 applied, `committed`.  The startup batch and the live batch of the implementation are the same
 suffix of that list, before and after startup ends.
 */
module Projections {
  import opened EventStream
  import opened Waiters
  import Subjects

  /** What a fallible apply leaves behind.  A rejected apply may leave a changed state. */
  datatype Applied<+S> = Applied(state: S) | Rejected(state: S)

  /** A decoded event with the subject and the stream sequence it was delivered with. */
  datatype Item<+E> = Item(event: E, subject: string, sequence: nat)

  /**
   The projection behind the projector.  `startupSize <= 1` means that startup events are not
   batched, `liveSize == 0` that the projection does not take live batches.
   */
  datatype Config<!S, !E, !D> = Config(
    subjects: seq<string>,
    replaySubjects: seq<string>,
    decode: D -> Option<E>,
    prepare: (S, Item<E>) -> Applied<S>,
    startupSize: nat,
    applyStartup: (S, seq<Item<E>>) -> Applied<S>,
    liveSize: nat,
    applyLive: (S, seq<Item<E>>) -> Applied<S>)
  {
    predicate Consumes(subject: string) {
      Subjects.MatchesAny(subjects, subject)
    }

    /** Applying `items[lo..hi]` one at a time, stopping at the first rejection. */
    function Fold(s: S, items: seq<Item<E>>, lo: nat, hi: nat): Applied<S>
      requires lo <= hi <= |items|
    {
      if lo == hi then Applied(s)
      else
        match Fold(s, items, lo, hi - 1)
        case Rejected(t) => Rejected(t)
        case Applied(t) => prepare(t, items[hi - 1])
    }
  }

  /** The contract of a batch: all of it or nothing, with the effect of the single applies. */
  ghost predicate BatchFolds<S(!new), E(!new), D>(cfg: Config<S, E, D>, batch: (S, seq<Item<E>>) -> Applied<S>) {
    forall s, items :: items != [] ==>
      match batch(s, items)
      case Applied(t) => cfg.Fold(s, items, 0, |items|) == Applied(t)
      case Rejected(t) => t == s && cfg.Fold(s, items, 0, |items|).Rejected?
  }

  ghost predicate BatchesFold<S(!new), E(!new), D>(cfg: Config<S, E, D>) {
    BatchFolds(cfg, cfg.applyStartup) && BatchFolds(cfg, cfg.applyLive)
  }

  /** The projection leaves its state alone when it rejects an event. */
  ghost predicate RejectsCleanly<S(!new), E(!new), D>(cfg: Config<S, E, D>) {
    forall s, item :: cfg.prepare(s, item).Rejected? ==> cfg.prepare(s, item).state == s
  }

  /** Folding in two parts. */
  lemma {:induction false} FoldSplit<S, E, D>(cfg: Config<S, E, D>, s: S, items: seq<Item<E>>, lo: nat, mid: nat,
                                              hi: nat)
    requires lo <= mid <= hi <= |items|
    ensures match cfg.Fold(s, items, lo, mid)
            case Applied(t) => cfg.Fold(s, items, lo, hi) == cfg.Fold(t, items, mid, hi)
            case Rejected(_) => cfg.Fold(s, items, lo, hi).Rejected?
    decreases hi
  {
    if mid < hi {
      FoldSplit(cfg, s, items, lo, mid, hi - 1);
    }
  }

  /** Folding depends on the folded items only, not on where they lie. */
  lemma {:induction false} FoldSame<S, E, D>(cfg: Config<S, E, D>, s: S, a: seq<Item<E>>, i: nat, b: seq<Item<E>>,
                                             n: nat)
    requires i + n <= |a| && n <= |b|
    requires forall k :: 0 <= k < n ==> b[k] == a[i + k]
    ensures cfg.Fold(s, a, i, i + n) == cfg.Fold(s, b, 0, n)
    decreases n
  {
    if n > 0 {
      FoldSame(cfg, s, a, i, b, n - 1);
      assert b[n - 1] == a[i + (n - 1)];
    }
  }

  datatype View<+S, +E> = View(
    base: S,                   // the state the run started from
    restored: nat,             // the sequence that `base` covers
    state: S,
    log: seq<Item<E>>,
    committed: nat,
    started: bool,
    target: nat,               // startupTargetSeq
    ended: bool,               // startupEndedAt is set
    hooks: nat,                // how often CompleteStartupReplay ran
    failed: Option<nat>,       // the failed sequence once a failure is recorded
    roster: Roster)            // the callers of waitForSeq
  {
    predicate Shaped() {
      committed <= |log| && roster.Shaped()
    }

    /** How many accepted events wait in a batch. */
    function Waiting(): nat
      requires committed <= |log|
    {
      |log| - committed
    }

    /** lastSeq */
    function Last(): nat
      requires committed <= |log|
    {
      if committed == 0 then restored else log[committed - 1].sequence
    }

    /** The highest sequence that is applied or waits in a batch. */
    function Handled(): nat
      requires committed <= |log|
    {
      if log == [] then restored else log[|log| - 1].sequence
    }
  }

  /** The waiter part of advance: close every leading waiter that is reached. */
  function Release<S, E>(v: View<S, E>): (r: View<S, E>)
    requires v.Shaped()
    ensures r.Shaped()
  {
    v.(roster := v.roster.Release(v.Last()))
  }

  /** fail: the first failure is kept, it ends startup, and every waiter is released. */
  function Fail<S, E>(v: View<S, E>, q: nat): (r: View<S, E>)
    requires v.Shaped()
    ensures r.Shaped()
  {
    v.(failed := if v.failed.None? then Some(q) else v.failed,
       ended := v.ended || (v.failed.None? && v.started),
       roster := v.roster.ReleaseAll())
  }

  /** Applies everything pending, as one batch or as one single event. */
  function Commit<S, E, D>(cfg: Config<S, E, D>, v: View<S, E>, batch: bool): (r: View<S, E>)
    requires v.Shaped()
    ensures r.Shaped()
  {
    if v.committed == |v.log| then v else
      match cfg.Fold(v.state, v.log, v.committed, |v.log|)
      case Applied(t) => Release(v.(state := t, committed := |v.log|))
      case Rejected(t) => Fail(v.(state := if batch then v.state else t), v.log[v.committed].sequence)
  }

  /** completeStartupLocked */
  function Finish<S, E>(v: View<S, E>): (r: View<S, E>)
    requires v.Shaped()
    ensures r.Shaped()
  {
    if !v.started || v.ended || v.Last() < v.target then v
    else v.(ended := true, hooks := v.hooks + 1)
  }

  /** The startup target is gone: startup may end at the last applied event. */
  function LowerTarget<S, E>(v: View<S, E>): (r: View<S, E>)
    requires v.Shaped()
    ensures r.Shaped()
  {
    if !v.ended && v.Last() < v.target then v.(target := v.Last()) else v
  }

  /** The part of applyEvent behind the startup batch: buffer a live event or apply it singly. */
  function PastStartup<S, E, D>(cfg: Config<S, E, D>, v: View<S, E>, item: Item<E>): (r: View<S, E>)
    requires v.Shaped()
    ensures r.Shaped()
  {
    if cfg.liveSize > 0 && item.sequence > v.target then
      var v1 := Finish(LowerTarget(v));
      var v2 := v1.(log := v1.log + [item]);
      if v2.Waiting() >= cfg.liveSize then Commit(cfg, v2, true) else v2
    else
      Commit(cfg, v.(log := v.log + [item]), false)
  }

  /** applyEvent */
  function OnEvent<S, E, D>(cfg: Config<S, E, D>, v: View<S, E>, item: Item<E>): (r: View<S, E>)
    requires v.Shaped()
    ensures r.Shaped()
  {
    if cfg.startupSize > 1 && v.started && !v.ended && item.sequence <= v.target then
      var v1 := v.(log := v.log + [item]);
      if v1.Waiting() < cfg.startupSize && item.sequence < v.target then v1 else Commit(cfg, v1, true)
    else
      var v0 := if v.ended then v else Commit(cfg, v, true);
      if v0.failed.Some? then v0 else PastStartup(cfg, v0, item)
  }

  /** handleMessage */
  function OnMessage<S, E, D>(cfg: Config<S, E, D>, v: View<S, E>, q: nat, msg: Message<D>): (r: View<S, E>)
    requires v.Shaped()
    ensures r.Shaped()
  {
    if v.failed.Some? || !cfg.Consumes(msg.subject) || (v.restored > 0 && q <= v.restored) then v
    else
      match cfg.decode(msg.data)
      case None => Fail(v, if v.Waiting() > 0 then v.log[v.committed].sequence else q)
      case Some(event) => Finish(OnEvent(cfg, v, Item(event, msg.subject, q)))
  }

  /** The live timer: flushLiveBatch and then maybeCompleteStartup. */
  function OnTick<S, E, D>(cfg: Config<S, E, D>, v: View<S, E>): (r: View<S, E>)
    requires v.Shaped()
    ensures r.Shaped()
  {
    Finish(if v.ended && v.failed.None? then Commit(cfg, v, true) else v)
  }

  /** The second half of reconcileStartup, after the stream was read as `current`. */
  function OnReconcile<S, E, D>(cfg: Config<S, E, D>, v: View<S, E>, current: nat): (r: View<S, E>)
    requires v.Shaped()
    ensures r.Shaped()
  {
    if v.ended || v.failed.Some? || current > v.Handled() then v
    else
      var v1 := Commit(cfg, v, true);
      if v1.failed.Some? then v1 else Finish(LowerTarget(v1))
  }

  /** Run after a successful restore: `base` covers the stream through `cutoff`. */
  function OnBegin<S, E>(v: View<S, E>, base: S, cutoff: nat, target: nat): (r: View<S, E>)
    requires v.Shaped() && v.log == []
    ensures r.Shaped()
  {
    Release(v.(base := base, state := base, restored := cutoff, started := true, target := target))
  }

  datatype WaitStart = WaitFails | WaitSucceeds | WaitBlocks(id: nat)

  /** The first half of waitForSeq. */
  function StartWait<S, E>(v: View<S, E>, q: nat): WaitStart
    requires v.Shaped()
  {
    if v.failed.Some? && q >= v.failed.value then WaitFails
    else if v.Last() >= q then WaitSucceeds
    else WaitBlocks(v.roster.nextId)
  }

  function OnWait<S, E>(v: View<S, E>, q: nat): (r: View<S, E>)
    requires v.Shaped()
    ensures r.Shaped()
  {
    if StartWait(v, q).WaitBlocks? then v.(roster := v.roster.Join(q)) else v
  }

  /** The context of a waiter ended before its channel was closed. */
  function OnCancel<S, E>(v: View<S, E>, id: nat): (r: View<S, E>)
    requires v.Shaped()
    ensures r.Shaped()
  {
    v.(roster := v.roster.Drop(id))
  }

  /** What a waiter for `q` reports after its channel was closed. */
  predicate ResumeSucceeds<S, E>(v: View<S, E>, q: nat) {
    !(v.failed.Some? && q >= v.failed.value)
  }
}
