/**
 What Run restores before it consumes events, and why it does not matter which way it went
 (pkg/events/projection_snapshot.go, pkg/events/projection_checkpoint.go).
 */
module Restore {
  import opened EventStream
  import opened Projections
  import opened ProjectorInvariants
  import opened ProjectorRuns
  import opened ProjectorTheorems

  /** The part of the stream's metadata that restore reads. */
  datatype StreamInfo = StreamInfo(name: string, first: nat, last: nat, identity: Option<string>)

  /** resolveProjectionStreamIdentity: an empty identity is no identity. */
  function Identity(info: Option<StreamInfo>): Option<string> {
    if info.None? || info.value.identity == Some("") then None else info.value.identity
  }

  datatype Snapshot<+P> = Snapshot(generation: string, contract: string, streamName: string, identity: string,
                                   cutoff: nat, payload: P)

  /** Expected absence and a failed load both end in a cold replay. */
  datatype Load<+P> = Loaded(snapshot: Snapshot<P>) | NotFound | LoadFailed

  datatype CheckpointLoad<+S> = Checkpoint(cutoff: nat, state: S) | Invalid | Unavailable

  /** The snapshot side of a projection; a refused restore or reset may leave a changed state behind. */
  datatype Storage<!S, !P> = Storage(
    contract: string,
    configuredIdentity: string,
    resettable: bool,
    restore: (S, P) -> Applied<S>,
    reset: S -> Applied<S>)

  /** What one restore sees from the outside: the stream twice, and what the source returned. */
  datatype SnapshotEnv<+P> = SnapshotEnv(info: Option<StreamInfo>, load: Load<P>, infoAgain: Option<StreamInfo>)

  /** What restoreSnapshotForRun demands of a snapshot before the components are installed. */
  predicate Bound<S, P>(storage: Storage<S, P>, env: SnapshotEnv<P>) {
    && Identity(env.info).Some? && env.load.Loaded?
    && env.load.snapshot.contract == storage.contract
    && env.load.snapshot.streamName == env.info.value.name
    && env.load.snapshot.identity == Identity(env.info).value
  }

  /** The snapshot is bound to this stream and is not newer than the target, so that the projection gets to see it. */
  predicate Tried<S, P>(storage: Storage<S, P>, env: SnapshotEnv<P>, target: nat) {
    && storage.resettable && Bound(storage, env)
    && Identity(env.infoAgain) == Identity(env.info)
    && env.load.snapshot.cutoff <= target
  }

  /** The stream has changed its identity while the snapshot was loaded. */
  predicate Rebound<S, P>(storage: Storage<S, P>, env: SnapshotEnv<P>) {
    Bound(storage, env) && Identity(env.infoAgain) != Identity(env.info)
  }

  /** Its state was accepted. */
  predicate Accepts<S, P>(storage: Storage<S, P>, env: SnapshotEnv<P>, target: nat, s: S) {
    Tried(storage, env, target) && storage.restore(s, env.load.snapshot.payload).Applied?
  }

  /** What the projection holds when its snapshot has been dealt with. */
  function Left<S, P>(storage: Storage<S, P>, env: SnapshotEnv<P>, target: nat, s: S): S {
    if Tried(storage, env, target) then storage.restore(s, env.load.snapshot.payload).state else s
  }

  /** The state a cold replay starts from: the reset one if the projection can be reset at all. */
  ghost predicate FellBack<S, P>(storage: Storage<S, P>, before: S, after: S) {
    if storage.resettable then storage.reset(before) == Applied(after) else after == before
  }

  class RestoredRun<S, P> {
    const storage: Storage<S, P>
    var state: S
    var lastSeq: nat
    var restoredSeq: nat
    var generation: string
    var snapshotRestored: bool
    var latestSnapshotSeq: nat
    var checkpointRestored: bool
    var checkpointCutoffSeq: nat
    var runIdentity: string

    constructor (config: Storage<S, P>, initial: S)
      ensures storage == config && state == initial && lastSeq == 0 && restoredSeq == 0
    {
      storage, state, lastSeq, restoredSeq := config, initial, 0, 0;
      generation, snapshotRestored, latestSnapshotSeq := "", false, 0;
      checkpointRestored, checkpointCutoffSeq, runIdentity := false, 0, "";
    }

    /** No trace of a restore is left. */
    predicate Cold()
      reads this
    {
      && lastSeq == 0 && restoredSeq == 0 && generation == "" && !snapshotRestored && latestSnapshotSeq == 0
      && !checkpointRestored && checkpointCutoffSeq == 0
    }

    method ResetRestoreState()
      modifies this
      ensures Cold() && state == old(state) && runIdentity == old(runIdentity)
    {
      lastSeq, restoredSeq, generation, snapshotRestored := 0, 0, "", false;
      latestSnapshotSeq, checkpointRestored, checkpointCutoffSeq := 0, false, 0;
    }

    method ResetForColdReplay() returns (ok: bool)
      modifies this
      ensures ok <==> !storage.resettable || storage.reset(old(state)).Applied?
      ensures ok ==> Cold() && FellBack(storage, old(state), state)
      ensures !ok ==>
                storage.reset(old(state)) == Rejected(state) && restoredSeq == old(restoredSeq)
                  && lastSeq == old(lastSeq)
      ensures runIdentity == old(runIdentity)
    {
      if storage.resettable {
        var reset := storage.reset(state);
        state := reset.state;
        if reset.Rejected? {
          return false;
        }
      }
      ResetRestoreState();
      return true;
    }

    /** restoreSnapshotForRun: install an acceptable snapshot, or fall back to an empty projection. */
    method RestoreSnapshotForRun(env: SnapshotEnv<P>, target: nat) returns (ok: bool)
      modifies this
      ensures ok && Accepts(storage, env, target, old(state)) ==>
                && Applied(state) == storage.restore(old(state), env.load.snapshot.payload)
                && restoredSeq == env.load.snapshot.cutoff <= target && snapshotRestored
                && lastSeq == (if restoredSeq > old(lastSeq) then restoredSeq else old(lastSeq))
      ensures ok && !Accepts(storage, env, target, old(state)) ==>
                Cold() && storage.resettable && FellBack(storage, Left(storage, env, target, old(state)), state)
      ensures ok <==>
                && storage.resettable
                && (|| Accepts(storage, env, target, old(state))
                    || (!Rebound(storage, env)
                        && storage.reset(Left(storage, env, target, old(state))).Applied?))
      ensures !storage.resettable ==> !ok && state == old(state)
      ensures ok ==>
                runIdentity == if Identity(env.info).Some? then Identity(env.info).value else storage.configuredIdentity
    {
      if !storage.resettable {
        return false;
      }
      var identity := Identity(env.info);
      if identity.None? {
        runIdentity := storage.configuredIdentity;
        ok := ResetForColdReplay();
        return;
      }
      runIdentity := identity.value;
      if !env.load.Loaded? {
        ok := ResetForColdReplay();
        return;
      }
      var snapshot := env.load.snapshot;
      if snapshot.contract != storage.contract || snapshot.streamName != env.info.value.name
        || snapshot.identity != identity.value {
        ok := ResetForColdReplay();
        return;
      }
      var current := Identity(env.infoAgain);
      if current.None? || current != identity {
        return false;
      }
      if snapshot.cutoff > target {
        ok := ResetForColdReplay();
        return;
      }
      var installed := storage.restore(state, snapshot.payload);
      state := installed.state;
      if installed.Rejected? {
        ok := ResetForColdReplay();
      } else {
        restoredSeq, generation, snapshotRestored, latestSnapshotSeq := snapshot.cutoff, snapshot.generation, true,
          snapshot.cutoff;
        if snapshot.cutoff > lastSeq {
          lastSeq := snapshot.cutoff;
        }
        ok := true;
      }
    }

    /**
     restoreCheckpointForRun: an accepted checkpoint is not newer than the stream tail and leaves no
     gap to the first retained record; an invalid one is reset; anything else ends the run.
     */
    method RestoreCheckpointForRun(info: Option<StreamInfo>, load: CheckpointLoad<S>, reset: Option<S>)
      returns (ok: bool)
      modifies this
      ensures ok ==> Identity(info).Some? && !load.Unavailable?
      ensures ok && CheckpointFits(info.value, load) ==>
                && restoredSeq == checkpointCutoffSeq == load.cutoff <= info.value.last
                && (load.cutoff > 0 ==> info.value.first <= load.cutoff + 1)
                && state == load.state && (checkpointRestored <==> load.cutoff > 0)
                && lastSeq == (if load.cutoff > old(lastSeq) then load.cutoff else old(lastSeq))
      ensures ok && !CheckpointFits(info.value, load) ==> Cold() && Some(state) == reset
      ensures ok <==>
                Identity(info).Some? && !load.Unavailable? && (CheckpointFits(info.value, load) || reset.Some?)
    {
      if info.None? || Identity(info).None? {
        return false;
      }
      var invalid := load.Invalid?;
      if load.Checkpoint? && load.cutoff > info.value.last {
        invalid := true;
      }
      if load.Checkpoint? && load.cutoff > 0 && info.value.first > load.cutoff + 1 {
        invalid := true;
      }
      if load.Unavailable? {
        return false;
      }
      if invalid {
        match reset
        case None => return false;
        case Some(empty) =>
          state := empty;
          ResetRestoreState();
          return true;
      }
      state := load.state;
      restoredSeq := load.cutoff;
      checkpointRestored := load.cutoff > 0;
      checkpointCutoffSeq := load.cutoff;
      if load.cutoff > 0 && load.cutoff > lastSeq {
        lastSeq := load.cutoff;
      }
      return true;
    }
  }

  predicate CheckpointFits<S>(info: StreamInfo, load: CheckpointLoad<S>) {
    load.Checkpoint? && load.cutoff <= info.last && (load.cutoff > 0 ==> info.first <= load.cutoff + 1)
  }

  // ------------------------------------------------------------------ restore equivalence

  /** `s` is what a cold replay of the stream up to `cutoff` computes from `empty`. */
  ghost predicate Honest<S, E, D>(cfg: Config<S, E, D>, empty: S, stream: Stream<D>, s: S, cutoff: nat)
    requires cutoff <= stream.LastSeq()
  {
    var all := Replay(cfg, stream, 0, cutoff);
    cfg.Fold(empty, all, 0, |all|) == Applied(s)
  }

  lemma {:induction false} ReplaySplits<S, E, D>(cfg: Config<S, E, D>, stream: Stream<D>, lo: nat, mid: nat, hi: nat)
    requires lo <= mid <= hi <= stream.LastSeq()
    ensures Replay(cfg, stream, lo, hi) == Replay(cfg, stream, lo, mid) + Replay(cfg, stream, mid, hi)
    decreases hi
  {
    hide Replay;
    if mid < hi {
      ReplaySplits(cfg, stream, lo, mid, hi - 1);
      ReplayLast(cfg, stream, lo, hi);
      ReplayLast(cfg, stream, mid, hi);
      Regroup(Replay(cfg, stream, lo, mid), Replay(cfg, stream, mid, hi - 1), LastOf(cfg, stream, hi));
    } else {
      ReplayNone(cfg, stream, mid);
      assert Replay(cfg, stream, lo, mid) + [] == Replay(cfg, stream, lo, mid);
    }
  }

  /** What record `q` contributes to a replay. */
  function LastOf<S, E, D>(cfg: Config<S, E, D>, stream: Stream<D>, q: nat): seq<Item<E>>
    requires stream.Stored(q)
  {
    var m := stream.At(q);
    if cfg.Consumes(m.subject) && cfg.decode(m.data).Some? then [Item(cfg.decode(m.data).value, m.subject, q)] else []
  }

  lemma ReplayLast<S, E, D>(cfg: Config<S, E, D>, stream: Stream<D>, lo: nat, hi: nat)
    requires lo < hi <= stream.LastSeq()
    ensures Replay(cfg, stream, lo, hi) == Replay(cfg, stream, lo, hi - 1) + LastOf(cfg, stream, hi)
  {
  }

  lemma ReplayNone<S, E, D>(cfg: Config<S, E, D>, stream: Stream<D>, at: nat)
    requires at <= stream.LastSeq()
    ensures Replay(cfg, stream, at, at) == []
  {
  }

  lemma Regroup<T>(a: seq<T>, b: seq<T>, c: seq<T>)
    ensures (a + b) + c == a + (b + c)
  {
  }

  /** A replay only depends on the records it reads, so a longer stream replays the same. */
  lemma {:induction false} ReplayOfPrefix<S, E, D>(cfg: Config<S, E, D>, older: Stream<D>, newer: Stream<D>, lo: nat,
                                                   hi: nat)
    requires lo <= hi <= older.LastSeq() && older.log <= newer.log
    ensures Replay(cfg, older, lo, hi) == Replay(cfg, newer, lo, hi)
    decreases hi
  {
    hide Subjects.MatchesAny;
    if lo < hi {
      ReplayOfPrefix(cfg, older, newer, lo, hi - 1);
    }
  }

  /**
   Restore equivalence: continuing from an honest state over the records behind its cutoff gives what
   a cold replay gives, including whether it is rejected.
   */
  lemma RestoreThenReplay<S, E, D>(cfg: Config<S, E, D>, empty: S, stream: Stream<D>, base: S, cutoff: nat, hi: nat)
    requires cutoff <= hi <= stream.LastSeq() && Honest(cfg, empty, stream, base, cutoff)
    ensures var tail, all := Replay(cfg, stream, cutoff, hi), Replay(cfg, stream, 0, hi);
            match cfg.Fold(base, tail, 0, |tail|)
            case Applied(s) => cfg.Fold(empty, all, 0, |all|) == Applied(s)
            case Rejected(_) => cfg.Fold(empty, all, 0, |all|).Rejected?
  {
    ReplaySplits(cfg, stream, 0, cutoff, hi);
    FoldOfConcat(cfg, empty, Replay(cfg, stream, 0, cutoff), Replay(cfg, stream, cutoff, hi), base);
  }

  lemma FoldOfConcat<S, E, D>(cfg: Config<S, E, D>, s: S, head: seq<Item<E>>, tail: seq<Item<E>>, mid: S)
    requires cfg.Fold(s, head, 0, |head|) == Applied(mid)
    ensures var all := head + tail;
            match cfg.Fold(mid, tail, 0, |tail|)
            case Applied(t) => cfg.Fold(s, all, 0, |all|) == Applied(t)
            case Rejected(_) => cfg.Fold(s, all, 0, |all|).Rejected?
  {
    hide Config.Fold;
    var all := head + tail;
    FoldSplit(cfg, s, all, 0, |head|, |all|);
    FoldSame(cfg, s, all, 0, head, |head|);
    FoldSame(cfg, mid, all, |head|, tail, |tail|);
  }

  /** In any reachable world without deletions, the committed events are the replay up to the frontier. */
  lemma CommittedIsReplay<S, E, D>(cfg: Config<S, E, D>, w: World<S, E, D>)
    requires Inv(cfg, w) && w.view.failed.None? && w.stream.deleted == {}
    ensures w.view.restored <= w.view.Last() <= w.stream.LastSeq()
    ensures w.view.log[..w.view.committed] == Replay(cfg, w.stream, w.view.restored, w.view.Last())
  {
    var v := w.view;
    HandledIsDelivered(cfg, w);
    LastMonotone(v, v);
    FrontierSplits(v);
    LogIsReplay(cfg, w, v.committed, v.Last());
  }

  lemma FrontierSplits<S, E>(v: View<S, E>)
    requires v.Shaped() && Ascending(v)
    ensures SplitsAt(v.log, v.committed, v.Last())
  {
  }

  /**
   A snapshot captured in any reachable world is honest at its cutoff if the run itself started from
   an honest state: a cold start, or a snapshot captured by an earlier run.
   */
  lemma SnapshotsStayHonest<S, E, D>(
      cfg: Config<S, E, D>, worlds: seq<World<S, E, D>>, steps: seq<Step<S, D>>, n: nat, empty: S)
    requires Replayed(cfg) && Run(cfg, worlds, steps) && n <= |steps|
    requires var w := worlds[n]; w.view.failed.None? && w.stream.deleted == {} && w.view.restored <= w.stream.LastSeq()
    requires var w := worlds[n]; Honest(cfg, empty, w.stream, w.view.base, w.view.restored)
    ensures var w := worlds[n];
            w.view.Shaped() && w.view.Last() <= w.stream.LastSeq()
              && Honest(cfg, empty, w.stream, w.view.state, w.view.Last())
  {
    RunKeeps(cfg, worlds, steps, n);
    StateIsHonest(cfg, worlds[n], empty);
  }

  lemma StateIsHonest<S, E, D>(cfg: Config<S, E, D>, w: World<S, E, D>, empty: S)
    requires Inv(cfg, w) && w.view.failed.None? && w.stream.deleted == {} && w.view.restored <= w.stream.LastSeq()
    requires Honest(cfg, empty, w.stream, w.view.base, w.view.restored)
    ensures w.view.Last() <= w.stream.LastSeq() && Honest(cfg, empty, w.stream, w.view.state, w.view.Last())
  {
    var v := w.view;
    CommittedIsReplay(cfg, w);
    CommittedFold(cfg, v, Replay(cfg, w.stream, v.restored, v.Last()));
    RestoreThenReplay(cfg, empty, w.stream, v.base, v.restored, v.Last());
  }

  lemma CommittedFold<S, E, D>(cfg: Config<S, E, D>, v: View<S, E>, tail: seq<Item<E>>)
    requires v.Shaped() && StateOk(cfg, v) && v.log[..v.committed] == tail
    ensures cfg.Fold(v.base, tail, 0, |tail|) == Applied(v.state)
  {
    FoldSame(cfg, v.base, v.log, 0, tail, v.committed);
  }

  /** An honest state stays honest for every later state of the same stream. */
  lemma HonestLater<S, E, D>(cfg: Config<S, E, D>, empty: S, older: Stream<D>, newer: Stream<D>, s: S, cutoff: nat)
    requires cutoff <= older.LastSeq() && older.log <= newer.log && Honest(cfg, empty, older, s, cutoff)
    ensures Honest(cfg, empty, newer, s, cutoff)
  {
    ReplayOfPrefix(cfg, older, newer, 0, cutoff);
  }

  /** The empty state is honest at 0, which is where every fallback branch of restore leaves the run. */
  lemma ColdStartIsHonest<S, E, D>(cfg: Config<S, E, D>, empty: S, stream: Stream<D>)
    ensures Honest(cfg, empty, stream, empty, 0)
  {
  }

  /** restoreForRun: from a checkpoint, from a snapshot, or an empty projection. */
  datatype Way<+S, +P> =
    | FromCheckpoint(info: Option<StreamInfo>, load: CheckpointLoad<S>, reset: Option<S>)
    | FromSnapshot(env: SnapshotEnv<P>)
    | ColdReplay

  /** The stored snapshot was written for this contract, and for the stream of this name that is there now. */
  predicate OfThisStream<S, P>(storage: Storage<S, P>, env: SnapshotEnv<P>) {
    && env.load.Loaded? && env.info.Some? && env.infoAgain.Some?
    && env.load.snapshot.contract == storage.contract
    && env.load.snapshot.streamName == env.info.value.name
    && env.load.snapshot.identity != "" && env.infoAgain.value.identity == Some(env.load.snapshot.identity)
  }

  /** Such a snapshot can be installed: the stream was the same before, and the projection takes the state. */
  predicate Usable<S, P>(storage: Storage<S, P>, env: SnapshotEnv<P>, target: nat, held: S) {
    && storage.resettable && OfThisStream(storage, env)
    && env.info.value.identity == env.infoAgain.value.identity
    && env.load.snapshot.cutoff <= target && storage.restore(held, env.load.snapshot.payload).Applied?
  }

  /** What is stored for this stream was captured from it, and resetting gives the empty projection. */
  ghost predicate Genuine<S(!new), E, D, P>(cfg: Config<S, E, D>, empty: S, stream: Stream<D>, storage: Storage<S, P>,
                                            held: S, way: Way<S, P>) {
    && (way.FromCheckpoint? ==>
          && (way.info.Some? ==> way.info.value.last <= stream.LastSeq())
          && (way.reset.Some? ==> way.reset.value == empty)
          && (way.load.Checkpoint? && way.load.cutoff <= stream.LastSeq() ==>
               Honest(cfg, empty, stream, way.load.state, way.load.cutoff)))
    && (way.FromSnapshot? && OfThisStream(storage, way.env) && way.env.load.snapshot.cutoff <= stream.LastSeq() ==>
          forall s :: storage.restore(held, way.env.load.snapshot.payload) == Applied(s) ==>
            Honest(cfg, empty, stream, s, way.env.load.snapshot.cutoff))
    && (!way.FromCheckpoint? ==> if storage.resettable
         then forall s :: storage.reset(s).Rejected? || storage.reset(s).state == empty else held == empty)
  }

  /**
   When a run starts at all: with a checkpoint if the stream is known and the checkpoint can be read, and it fits or
   can be reset; with a snapshot if it is accepted, or if the stream stays what it is and the projection can be reset.
   */
  predicate Starts<S, P>(storage: Storage<S, P>, way: Way<S, P>, target: nat, held: S) {
    match way
    case FromCheckpoint(info, load, reset) =>
      && info.Some? && info.value.identity.Some? && info.value.identity.value != "" && !load.Unavailable?
      && (|| reset.Some?
          || (load.Checkpoint? && load.cutoff <= info.value.last
              && (load.cutoff == 0 || info.value.first <= load.cutoff + 1)))
    case FromSnapshot(env) =>
      && storage.resettable
      && (|| Usable(storage, env, target, held)
          || (!Rebound(storage, env) && storage.reset(Left(storage, env, target, held)).Applied?))
    case ColdReplay => storage.resettable ==> storage.reset(held).Applied?
  }

  /** Which sequence it starts behind. */
  function StartsBehind<S, P>(storage: Storage<S, P>, way: Way<S, P>, target: nat, held: S): nat {
    match way
    case FromCheckpoint(info, load, _) => if info.Some? && CheckpointFits(info.value, load) then load.cutoff else 0
    case FromSnapshot(env) => if Usable(storage, env, target, held) then env.load.snapshot.cutoff else 0
    case ColdReplay => 0
  }

  /**
   Whichever branch restore takes, and whatever it refuses on the way, a run that starts at all starts from
   what a cold replay computes for the restored sequence.
   */
  method RestoreForRun<S(!new), E, D, P>(run: RestoredRun<S, P>, way: Way<S, P>, target: nat,
                                         ghost cfg: Config<S, E, D>, ghost empty: S,
                                           ghost stream: Stream<D>) returns (ok: bool)
    requires run.Cold() && target <= stream.LastSeq() && Genuine(cfg, empty, stream, run.storage, run.state, way)
    modifies run
    ensures ok ==> run.restoredSeq <= stream.LastSeq() && Honest(cfg, empty, stream, run.state, run.restoredSeq)
    ensures ok ==> run.lastSeq == run.restoredSeq
    ensures ok <==> Starts(run.storage, way, target, old(run.state))
    ensures ok ==> run.restoredSeq == StartsBehind(run.storage, way, target, old(run.state))
  {
    hide Replay;
    ColdStartIsHonest(cfg, empty, stream);
    match way
    case FromCheckpoint(info, load, reset) => ok := run.RestoreCheckpointForRun(info, load, reset);
    case FromSnapshot(env) => ok := run.RestoreSnapshotForRun(env, target);
    case ColdReplay => ok := run.ResetForColdReplay();
  }

  /** The two differ at most in how they group events. */
  ghost predicate SameReducer<S(!new), E(!new), D(!new)>(a: Config<S, E, D>, b: Config<S, E, D>) {
    && a.subjects == b.subjects
    && (forall data :: a.decode(data) == b.decode(data))
    && (forall s, item :: a.prepare(s, item) == b.prepare(s, item))
  }

  lemma {:induction false} SameFold<S(!new), E(!new), D(!new)>(a: Config<S, E, D>, b: Config<S, E, D>, s: S,
                                                               items: seq<Item<E>>, lo: nat, hi: nat)
    requires SameReducer(a, b) && lo <= hi <= |items|
    ensures a.Fold(s, items, lo, hi) == b.Fold(s, items, lo, hi)
    decreases hi
  {
    if lo < hi {
      SameFold(a, b, s, items, lo, hi - 1);
    }
  }

  lemma SameSubjects<S(!new), E(!new), D(!new)>(a: Config<S, E, D>, b: Config<S, E, D>, m: Message<D>)
    requires SameReducer(a, b)
    ensures a.subjects == b.subjects && a.decode(m.data) == b.decode(m.data)
  {
  }

  lemma {:induction false} SameReplay<S(!new), E(!new), D(!new)>(a: Config<S, E, D>, b: Config<S, E, D>,
                                                                 stream: Stream<D>, lo: nat, hi: nat)
    requires SameReducer(a, b) && lo <= hi <= stream.LastSeq()
    ensures Replay(a, stream, lo, hi) == Replay(b, stream, lo, hi)
    decreases hi
  {
    hide SameReducer;
    if lo < hi {
      SameSubjects(a, b, stream.At(hi));
      SameReplay(a, b, stream, lo, hi - 1);
    }
  }

  /**
   Two runs over one undeleted stream that have reached the same frontier without failing hold the same state,
   whatever each of them restored and whatever batches each of them made: their configurations may differ in sizes
   and batch applies.
   */
  lemma RunsAgree<S(!new), E(!new), D(!new)>(
      a: Config<S, E, D>, b: Config<S, E, D>, empty: S,
      worldsA: seq<World<S, E, D>>, stepsA: seq<Step<S, D>>, m: nat,
      worldsB: seq<World<S, E, D>>, stepsB: seq<Step<S, D>>, n: nat)
    requires SameReducer(a, b) && Replayed(a) && Replayed(b)
    requires Run(a, worldsA, stepsA) && m <= |stepsA| && Run(b, worldsB, stepsB) && n <= |stepsB|
    requires worldsA[m].view.failed.None? && worldsB[n].view.failed.None?
    requires worldsA[m].stream.deleted == {} && worldsB[n].stream == worldsA[m].stream
    requires var w := worldsA[m];
             && w.view.restored <= w.stream.LastSeq()
             && Honest(a, empty, w.stream, w.view.base, w.view.restored)
    requires var w := worldsB[n];
             && w.view.restored <= w.stream.LastSeq()
             && Honest(b, empty, w.stream, w.view.base, w.view.restored)
    ensures worldsA[m].view.Shaped() && worldsB[n].view.Shaped()
    ensures worldsA[m].view.Last() == worldsB[n].view.Last() ==> worldsA[m].view.state == worldsB[n].view.state
  {
    hide Replay, Config.Fold, SameReducer, Replayed;
    SnapshotsStayHonest(a, worldsA, stepsA, m, empty);
    SnapshotsStayHonest(b, worldsB, stepsB, n, empty);
    if worldsA[m].view.Last() == worldsB[n].view.Last() {
      var stream, last := worldsA[m].stream, worldsA[m].view.Last();
      SameReplay(a, b, stream, 0, last);
      SameFold(a, b, empty, Replay(a, stream, 0, last), 0, |Replay(a, stream, 0, last)|);
    }
  }
}
