/**
 Resumable observation (experimental/chatto-go/recovery.go): reconnects, durable checkpoints, and gaps that
 are reported instead of being passed over.
 */
module Recovery {
  import opened EventStream

  const MAX_SEEN := 1024

  /** One event of the server's feed; an invisible one is of no interest to this observer. */
  datatype FeedEvent = FeedEvent(id: string, visible: bool)

  /** What the observer keeps durably: an event, or the notice that events may be missing. */
  datatype Entry = Accepted(id: string) | Gap

  /** A cursor is a position in the feed; the empty cursor is None. */
  datatype Frame =
    | Invalid
    | Other
    | Close(code: nat, reconnect: bool)
    | CaughtUp(recovery: nat, cursor: Option<nat>, live: nat)
    | Heartbeat(cursor: Option<nat>)
    | Sent(index: nat, cursor: Option<nat>)

  /** Whether the caller's callbacks succeed, call by call. */
  datatype Callbacks = Callbacks(save: nat -> bool, handle: nat -> bool)

  datatype Outcome = Continue | Reconnect | Fatal

  /** A cursor from the server covers no more than what this connection has sent or resumed from. */
  predicate Covers(pos: Option<nat>, cursor: Option<nat>) {
    cursor.Some? ==> pos.Some? && cursor.value <= pos.value
  }

  function Further(pos: nat, index: nat): (r: nat)
    ensures pos <= r && index < r && r in {pos, index + 1}
  {
    if pos < index + 1 then index + 1 else pos
  }

  /**
   What the server promises about its next frame, when everything before `pos` was sent or resumed from:
   events come in order and may be repeated, replay is announced as complete only when it was, and nothing
   but that announcement comes before a fresh feed begins.
   */
  predicate Honest(events: seq<FeedEvent>, pos: Option<nat>, frame: Frame) {
    match frame
    case CaughtUp(recovery, cursor, live) =>
      if recovery == 1 then Covers(pos, cursor) && pos == Some(live) else Covers(Some(live), cursor)
    case Heartbeat(cursor) => Covers(pos, cursor)
    case Sent(index, cursor) =>
      pos.Some? && index <= pos.value && index < |events| && Covers(Some(Further(pos.value, index)), cursor)
    case _ => true
  }

  function Position(pos: Option<nat>, frame: Frame): Option<nat> {
    match frame
    case CaughtUp(_, _, live) => Some(live)
    case Sent(index, _) => if pos.Some? then Some(Further(pos.value, index)) else None
    case _ => pos
  }

  /** The latest accepted identifiers, oldest first. */
  function Recent(order: seq<string>, id: string): seq<string> {
    if |order| + 1 > MAX_SEEN then (order + [id])[1..] else order + [id]
  }

  predicate HonestFrom(events: seq<FeedEvent>, pos: Option<nat>, frames: seq<Frame>)
    decreases |frames|
  {
    frames == [] || (Honest(events, pos, frames[0]) && HonestFrom(events, Position(pos, frames[0]), frames[1..]))
  }

  // ------------------------------------------------------------------ what the frames of a connection bring

  /** The entries so far, the cursor, the latest accepted identifiers, and whether and how the connection is over. */
  datatype Told = Told(entries: seq<Entry>, cursor: Option<nat>, recent: seq<string>, caughtUp: bool, ending: Outcome)

  /**
   What one more frame brings: a catch-up without full replay a gap if there was a connection before, an event that
   is of interest and not among the latest its entry, a close that says the cursor has expired a gap and no cursor.
   */
  function Hear(events: seq<FeedEvent>, had: bool, told: Told, frame: Frame): Told {
    match frame
    case Invalid => told.(ending := Fatal)
    case Other => told
    case Heartbeat(next) => told.(cursor := if next.Some? then next else told.cursor)
    case Close(code, reconnect) =>
      if !reconnect then told.(ending := Fatal)
      else if code == 6 then told.(entries := told.entries + [Gap], cursor := None, ending := Reconnect)
      else told.(ending := Reconnect)
    case CaughtUp(recovery, next, _) =>
      if told.caughtUp || (recovery != 1 && recovery != 3) then told.(ending := Fatal)
      else told.(entries := told.entries +
        (if had && recovery != 1 then [Gap] else []), cursor := next, caughtUp := true)
    case Sent(index, next) =>
      if index >= |events| then told
      else
        var kept := told.(cursor := if next.Some? then next else told.cursor);
        var id := events[index].id;
        if !events[index].visible || id in told.recent then kept
        else kept.(entries := told.entries + [Accepted(id)], recent := Recent(told.recent, id))
  }

  /** What the first `n` frames bring to a connection that resumes at `at`; a closed connection hears nothing more. */
  function Heard(events: seq<FeedEvent>, had: bool, at: Option<nat>, frames: seq<Frame>, n: nat): Told
    requires n <= |frames|
  {
    if n == 0 then Told([], at, [], false, Continue)
    else
      var before := Heard(events, had, at, frames, n - 1);
      if before.ending != Continue then before else Hear(events, had, before, frames[n - 1])
  }

  lemma HeardNone(events: seq<FeedEvent>, had: bool, at: Option<nat>, frames: seq<Frame>)
    ensures Heard(events, had, at, frames, 0) == Told([], at, [], false, Continue)
  {
  }

  lemma HeardNext(events: seq<FeedEvent>, had: bool, at: Option<nat>, frames: seq<Frame>, n: nat)
    requires n < |frames| && Heard(events, had, at, frames, n).ending == Continue
    ensures Heard(events, had, at, frames, n + 1) == Hear(events, had, Heard(events, had, at, frames, n), frames[n])
  {
  }

  /** Every callback succeeds. */
  ghost predicate Willing(callbacks: Callbacks) {
    forall n :: callbacks.save(n) && callbacks.handle(n)
  }

  /** An ended connection stays as it is. */
  lemma {:induction false} HeardStays(events: seq<FeedEvent>, had: bool, at: Option<nat>, frames: seq<Frame>, n: nat,
                                      m: nat)
    requires n <= m <= |frames|
    ensures Heard(events, had, at, frames, n).entries <= Heard(events, had, at, frames, m).entries
    ensures Heard(events, had, at, frames, n).ending != Continue ==>
              Heard(events, had, at, frames, m) == Heard(events, had, at, frames, n)
    decreases m
  {
    if n < m {
      HeardStays(events, had, at, frames, n, m - 1);
    }
  }

  /** The latest identifiers are identifiers of entries. */
  lemma {:induction false} RecentIsHeard(events: seq<FeedEvent>, had: bool, at: Option<nat>, frames: seq<Frame>, n: nat,
                                         id: string)
    requires n <= |frames| && id in Heard(events, had, at, frames, n).recent
    ensures Accepted(id) in Heard(events, had, at, frames, n).entries
  {
    var before := Heard(events, had, at, frames, n - 1);
    if id in before.recent {
      RecentIsHeard(events, had, at, frames, n - 1, id);
    }
  }

  /** Frame `i` sends an event of interest before the connection is over. */
  ghost predicate Sends(events: seq<FeedEvent>, had: bool, at: Option<nat>, frames: seq<Frame>, i: nat) {
    && i < |frames| && frames[i].Sent? && frames[i].index < |events| && events[frames[i].index].visible
    && Heard(events, had, at, frames, i).ending == Continue
  }

  /** Every event of interest that is sent before the connection is over has its entry. */
  lemma SentIsHeard(events: seq<FeedEvent>, had: bool, at: Option<nat>, frames: seq<Frame>, i: nat)
    requires Sends(events, had, at, frames, i)
    ensures Accepted(events[frames[i].index].id) in Heard(events, had, at, frames, |frames|).entries
  {
    var id := events[frames[i].index].id;
    if id in Heard(events, had, at, frames, i).recent {
      RecentIsHeard(events, had, at, frames, i, id);
    }
    var next := Heard(events, had, at, frames, i + 1).entries;
    assert Accepted(id) in next;
    HeardStays(events, had, at, frames, i + 1, |frames|);
    InFront(next, Heard(events, had, at, frames, |frames|).entries, Accepted(id));
  }

  lemma InFront<T>(front: seq<T>, whole: seq<T>, x: T)
    requires front <= whole && x in front
    ensures x in whole
  {
    var i :| 0 <= i < |front| && front[i] == x;
    assert whole[i] == x;
  }

  class Observer {
    const events: seq<FeedEvent>
    const callbacks: Callbacks

    var cursor: Option<nat>
    var hadConnection: bool
    var saved: seq<Entry>
    var handled: seq<Entry>
    var calls: nat

    var seen: set<string>
    var order: seq<string>
    var caughtUp: bool
    var connected: bool

    /** The position of the first cursor, how far everything behind it is accounted for, and which gap covers what. */
    ghost var first: Option<nat>
    ghost var horizon: Option<nat>
    ghost var gaps: map<nat, nat>

    constructor (feed: seq<FeedEvent>, options: Callbacks, start: Option<nat>)
      ensures events == feed && callbacks == options && cursor == start && saved == [] && Accounted() && Remembers()
    {
      events, callbacks, cursor, hadConnection := feed, options, start, start.Some?;
      saved, handled, calls, seen, order, caughtUp, connected := [], [], 0, {}, [], false, false;
      first, horizon, gaps := start, start, map[];
    }

    /** Event `i` was durably kept, or a gap that covers it was. */
    ghost predicate Kept(i: nat)
      requires i < |events|
      reads this`saved, this`gaps
    {
      Accepted(events[i].id) in saved || i in gaps
    }

    /** Everything of interest from the first cursor up to `h` was kept or is covered by a gap that was. */
    ghost predicate AccountedTo(h: Option<nat>)
      reads this`saved, this`gaps, this`first
    {
      && (h.Some? ==> first.Some? && first.value <= h.value)
      && (forall i :: i in gaps ==> gaps[i] < |saved| && saved[gaps[i]] == Gap)
      && (forall i: nat :: h.Some? && first.value <= i < h.value && i < |events| && events[i].visible ==> Kept(i))
    }

    /** Nothing is lost silently, and nothing is handed on before it is kept. */
    ghost predicate Accounted()
      reads this`cursor, this`saved, this`handled, this`first, this`horizon, this`gaps
    {
      && handled <= saved && AccountedTo(horizon)
      && (cursor.Some? ==> horizon.Some? && cursor.value <= horizon.value)
    }

    /** A later fresh feed will be known to have something in front of it. */
    ghost predicate Remembers()
      reads this`hadConnection, this`horizon
    {
      horizon.Some? <==> hadConnection
    }

    /** `seen` are the latest accepted identifiers of this connection. */
    ghost predicate SeenOk()
      reads this`seen, this`order, this`saved
    {
      && |order| <= MAX_SEEN
      && (forall id :: id in seen <==> id in order)
      && (forall id :: id in seen ==> Accepted(id) in saved)
      && (forall i, j :: 0 <= i < j < |order| ==> order[i] != order[j])
    }

    /** What the connection at hand has got to; `had` is what it was told about earlier ones. */
    ghost predicate Serving(pos: Option<nat>, had: bool)
      reads this`cursor, this`saved, this`handled, this`first, this`horizon, this`gaps, this`seen, this`order
      reads this`connected, this`caughtUp
    {
      && Accounted() && SeenOk() && handled == saved && connected == caughtUp
      && (pos.Some? ==> horizon.Some? && pos.value <= horizon.value)
      && (horizon.Some? <==> had || connected)
    }

    /** The checkpoint callback, then the cursor. */
    method Checkpoint(next: Option<nat>, entry: Option<Entry>) returns (ok: bool)
      modifies this`cursor, this`saved, this`calls
      ensures ok == callbacks.save(old(calls)) && calls == old(calls) + 1
      ensures ok ==> cursor == next && saved == old(saved) + (if entry.Some? then [entry.value] else [])
      ensures !ok ==> cursor == old(cursor) && saved == old(saved)
    {
      ok := callbacks.save(calls);
      calls := calls + 1;
      if ok {
        cursor := next;
        if entry.Some? {
          saved := saved + [entry.value];
        }
      }
    }

    method Handle(entry: Entry) returns (ok: bool)
      requires handled + [entry] == saved
      modifies this`handled, this`calls
      ensures ok == callbacks.handle(old(calls)) && calls == old(calls) + 1
      ensures handled == if ok then saved else old(handled)
    {
      ok := callbacks.handle(calls);
      calls := calls + 1;
      if ok {
        handled := handled + [entry];
      }
    }

    /**
     Keep an entry and hand it on. The events up to `h` that nobody has accounted for are `covered`: by the
     gap, or by being the accepted event.
     */
    method Keep(next: Option<nat>, entry: Entry, ghost h: Option<nat>, ghost covered: set<nat>) returns (ok: bool)
      requires Accounted() && handled == saved && (covered != {} ==> entry == Gap)
      requires horizon.Some? ==> h.Some? && horizon.value <= h.value
      requires horizon.None? ==> h.None?
      requires next.Some? ==> h.Some? && next.value <= h.value
      requires h.Some? ==> forall i: nat :: horizon.value <= i < h.value && i < |events| && events[i].visible ==>
                                              i in covered || entry == Accepted(events[i].id)
      modifies this`cursor, this`saved, this`handled, this`calls, this`gaps, this`horizon
      ensures Accounted()
      ensures ok <==> callbacks.save(old(calls)) && callbacks.handle(old(calls) + 1)
      ensures ok ==> cursor == next && handled == saved && saved == old(saved) + [entry] && horizon == h
      ensures old(saved) <= saved <= old(saved) + [entry]
    {
      ok := Checkpoint(next, Some(entry));
      if ok {
        gaps := map i | i in gaps.Keys + covered :: if i in gaps then gaps[i] else |saved| - 1;
        horizon := h;
        KeptStays(events, old(saved), saved, entry);
        ok := Handle(entry);
      }
    }

    /** Only the cursor moves. */
    method Advance(next: Option<nat>, ghost h: Option<nat>) returns (ok: bool)
      requires Accounted() && handled == saved
      requires next.Some? ==> h.Some? && next.value <= h.value
      requires horizon.Some? ==> h.Some? && horizon.value <= h.value
      requires AccountedTo(h)
      modifies this`cursor, this`saved, this`calls, this`horizon
      ensures Accounted() && saved == old(saved)
      ensures ok == callbacks.save(old(calls)) && (ok ==> cursor == next && horizon == h)
    {
      ok := Checkpoint(next, None);
      assert saved == old(saved);
      if ok {
        horizon := h;
      }
    }

    /** A server close; one that says that the cursor has expired leaves a gap and no cursor. */
    method OnClose(code: nat, reconnect: bool, ghost pos: Option<nat>, ghost had: bool) returns (outcome: Outcome)
      requires Serving(pos, had)
      modifies this`cursor, this`saved, this`handled, this`calls, this`gaps, this`horizon
      ensures Accounted() && outcome != Continue
      ensures outcome == Reconnect ==> handled == saved && (horizon.Some? <==> had || connected)
      ensures !reconnect ==>
                outcome == Fatal && saved == old(saved) && cursor == old(cursor) && handled == old(handled)
      ensures outcome == Reconnect ==> saved == old(saved) + if code == 6 then [Gap] else []
      ensures outcome == Reconnect ==> cursor == if code == 6 then None else old(cursor)
      ensures reconnect && Willing(callbacks) ==> outcome == Reconnect
      ensures old(saved) <= saved <= old(saved) + if code == 6 && reconnect then [Gap] else []
    {
      if code == 6 && reconnect {
        var ok := Keep(None, Gap, horizon, {});
        if !ok {
          return Fatal;
        }
      }
      return if reconnect then Reconnect else Fatal;
    }

    /** The recovery boundary: without a full replay a gap stands for what was not sent. */
    method OnCaughtUp(recovery: nat, next: Option<nat>, ghost live: nat, ghost pos: Option<nat>, had: bool)
      returns (outcome: Outcome)
      requires Serving(pos, had) && Honest(events, pos, CaughtUp(recovery, next, live))
      modifies this`cursor, this`saved, this`handled, this`calls, this`gaps, this`horizon, this`first, this`caughtUp
      modifies this`connected
      ensures Accounted() && outcome != Reconnect
      ensures outcome == Continue ==> Serving(Some(live), had)
      ensures old(caughtUp) || (recovery != 1 && recovery != 3) ==>
                outcome == Fatal && saved == old(saved) && cursor == old(cursor) && handled == old(handled)
      ensures outcome == Continue ==> caughtUp && cursor == next
      ensures outcome == Continue ==> saved == old(saved) + if had && recovery != 1 then [Gap] else []
      ensures !old(caughtUp) && (recovery == 1 || recovery == 3) && Willing(callbacks) ==> outcome == Continue
      ensures old(saved) <= saved <= old(saved) + if had && recovery != 1 then [Gap] else []
    {
      hide Between;
      if caughtUp || (recovery != 1 && recovery != 3) {
        return Fatal;
      }
      var ok;
      if had && recovery != 1 {
        ghost var h := if horizon.value < live then live else horizon.value;
        ok := Keep(next, Gap, Some(h), Between(horizon.value, h));
      } else {
        ghost var h := if horizon.Some? then horizon else Some(live);
        if horizon.None? {
          first := Some(live);
        }
        ok := Advance(next, h);
      }
      if !ok {
        return Fatal;
      }
      caughtUp, connected := true, true;
      return Continue;
    }

    /** An event: keep it unless it is of no interest or was kept on this connection, then hand it on. */
    method OnSent(index: nat, sent: Option<nat>, ghost pos: Option<nat>, ghost had: bool) returns (outcome: Outcome)
      requires Serving(pos, had) && Honest(events, pos, Sent(index, sent))
      modifies this`cursor, this`saved, this`handled, this`calls, this`gaps, this`horizon, this`seen, this`order
      ensures Accounted() && outcome != Reconnect
      ensures outcome == Continue ==> Serving(Position(pos, Sent(index, sent)), had)
      ensures var news := events[index].visible && events[index].id !in old(seen);
              && (outcome == Continue <==> callbacks.save(old(calls)) && (news ==> callbacks.handle(old(calls) + 1)))
              && (outcome == Continue ==> saved == old(saved) + if news then [Accepted(events[index].id)] else [])
              && (outcome == Continue ==> order == if news then Recent(old(order), events[index].id) else old(order))
      ensures outcome == Continue ==> cursor == if sent.Some? then sent else old(cursor)
      ensures old(saved) <= saved <= old(saved) + if events[index].visible && events[index].id !in old(seen)
                then [Accepted(events[index].id)] else []
    {
      var event := events[index];
      var next := if sent.Some? then sent else cursor;
      ghost var reached := Further(pos.value, index);
      ghost var h := Some(if horizon.value < reached then reached else horizon.value);
      if event.visible && event.id !in seen {
        var ok := Keep(next, Accepted(event.id), h, {});
        if !ok {
          return Fatal;
        }
        Remember(event.id);
      } else {
        var ok := Advance(next, h);
        if !ok {
          return Fatal;
        }
      }
      return Continue;
    }

    /** Remember an accepted identifier, and forget the oldest of more than 1024. */
    method Remember(id: string)
      requires id !in seen && Accepted(id) in saved
      requires |order| <= MAX_SEEN && (forall x :: x in seen <==> x in order)
      requires (forall x :: x in seen ==> Accepted(x) in saved)
      requires forall i, j :: 0 <= i < j < |order| ==> order[i] != order[j]
      modifies this`seen, this`order
      ensures SeenOk() && order == Recent(old(order), id)
    {
      seen, order := seen + {id}, order + [id];
      if |order| > MAX_SEEN {
        assert forall x :: x in order <==> x == order[0] || x in order[1..];
        assert order[0] !in order[1..];
        seen, order := seen - {order[0]}, order[1..];
      }
    }

    method OnFrame(frame: Frame, ghost pos: Option<nat>, had: bool) returns (outcome: Outcome)
      requires Serving(pos, had) && Honest(events, pos, frame)
      modifies this
      ensures Accounted() && hadConnection == old(hadConnection)
      ensures outcome == Continue ==> Serving(Position(pos, frame), had)
      ensures outcome == Reconnect ==> handled == saved && (horizon.Some? <==> had || connected)
      ensures outcome == Reconnect ==> frame.Close? && frame.reconnect
      ensures frame.Invalid? ==> outcome == Fatal
      ensures frame.Other? || frame.Heartbeat? ==> saved == old(saved) && order == old(order)
      ensures frame.Heartbeat? && outcome == Continue ==>
                cursor == if frame.cursor.Some? then frame.cursor else old(cursor)
      ensures var told := Hear(events, had, Told([], old(cursor), old(order), old(caughtUp), Continue), frame);
              && old(saved) <= saved <= old(saved) + told.entries
              && (outcome != Fatal ==>
                    outcome == told.ending && saved == old(saved) + told.entries && cursor == told.cursor)
              && (outcome == Continue ==> order == told.recent && caughtUp == told.caughtUp)
              && (outcome == Reconnect ==> connected == old(connected))
              && (outcome == Fatal ==> told.ending == Fatal || !Willing(callbacks))
              && (told.ending == Fatal ==>
                    outcome == Fatal && saved == old(saved) && cursor == old(cursor) && handled == old(handled))
    {
      match frame
      case Invalid => outcome := Fatal;
      case Other => outcome := Continue;
      case Close(code, reconnect) => outcome := OnClose(code, reconnect, pos, had);
      case CaughtUp(recovery, next, live) => outcome := OnCaughtUp(recovery, next, live, pos, had);
      case Sent(index, sent) => outcome := OnSent(index, sent, pos, had);
      case Heartbeat(next) =>
        outcome := Continue;
        if next.Some? {
          var ok := Advance(next, horizon);
          outcome := if ok then Continue else Fatal;
        }
    }

    lemma ServingAtFirst(had: bool)
      requires Accounted() && handled == saved && (horizon.Some? <==> had)
      requires seen == {} && order == [] && !caughtUp && !connected
      ensures Serving(cursor, had)
    {
    }

    /** observeConnection, once the subscription is sent: frames until a close, a failure or a disconnect. */
    method ObserveConnection(frames: seq<Frame>, had: bool) returns (outcome: Outcome)
      requires Accounted() && handled == saved && (horizon.Some? <==> had) && HonestFrom(events, cursor, frames)
      modifies this
      ensures Accounted() && hadConnection == old(hadConnection) && outcome != Continue
      ensures outcome == Reconnect ==> handled == saved && (horizon.Some? <==> had || connected)
      ensures var heard := Heard(events, had, old(cursor), frames, |frames|);
              && old(saved) <= saved <= old(saved) + heard.entries
              && (outcome == Reconnect ==>
                    heard.ending != Fatal && saved == old(saved) + heard.entries && cursor == heard.cursor
                    && connected == heard.caughtUp)
              && (outcome == Fatal && Willing(callbacks) ==>
                    heard.ending == Fatal && saved == handled == old(saved) + heard.entries && cursor == heard.cursor)
    {
      hide Willing, Hear, Honest, HonestFrom, Heard, Position, SeenOk, AccountedTo;
      seen, order, caughtUp, connected := {}, [], false, false;
      ghost var pos := cursor;
      ghost var before, brought: seq<Entry>, at := saved, [], cursor;
      HeardNone(events, had, at, frames);
      ServingAtFirst(had);
      var i := 0;
      while i < |frames|
        invariant i <= |frames| && Serving(pos, had) && HonestFrom(events, pos, frames[i..])
        invariant hadConnection == old(hadConnection)
        invariant saved == before + brought
        invariant Heard(events, had, at, frames, i) == Told(brought, cursor, order, caughtUp, Continue)
      {
        HonestNext(events, pos, frames[i..]);
        HearAfter(events, had, brought, cursor, order, caughtUp, frames[i]);
        HeardNext(events, had, at, frames, i);
        HeardStays(events, had, at, frames, i + 1, |frames|);
        ghost var told := Hear(events, had, Told([], cursor, order, caughtUp, Continue), frames[i]);
        outcome := OnFrame(frames[i], pos, had);
        if outcome != Continue {
          Prefixes(before, brought, told.entries, Heard(events, had, at, frames, |frames|).entries, saved);
          return;
        }
        brought := brought + told.entries;
        pos := Position(pos, frames[i]);
        assert frames[i..][1..] == frames[i + 1..];
        i := i + 1;
      }
      return Reconnect;
    }

    /**
     ObserveResumable: over any number of connections nothing of interest behind the first cursor is lost
     without a gap that was durably kept, every entry is kept before it is handed on, and what the connections bring
     is kept, up to the first callback that fails.
     */
    method ObserveResumable(attempts: nat, serve: (nat, Option<nat>) -> Connection) returns (running: bool)
      requires Accounted() && handled == saved && Remembers()
      requires forall k, at :: HonestConnection(events, at, serve(k, at))
      modifies this
      ensures Accounted()
      ensures running ==> handled == saved && Remembers()
      ensures var life := Lived(events, serve, Life([], old(cursor), old(hadConnection), false), attempts);
              && old(saved) <= saved <= old(saved) + life.entries
              && (running ==> !life.over)
              && (running || Willing(callbacks) ==>
                    saved == handled == old(saved) + life.entries && cursor == life.cursor && running == !life.over)
    {
      hide Willing, Lived, HonestConnection;
      ghost var before, start := saved, Life([], cursor, hadConnection, false);
      ghost var life := start;
      LivedNone(events, serve, start);
      for k := 0 to attempts
        invariant Accounted() && handled == saved && Remembers()
        invariant life == Lived(events, serve, start, k) && !life.over
        invariant saved == before + life.entries && cursor == life.cursor && hadConnection == life.had
      {
        LivedStays(events, serve, start, k + 1, attempts);
        LivedNext(events, serve, start, k);
        var connection := serve(k, cursor);
        assert HonestConnection(events, cursor, connection);
        match connection
        case Refused(rejected) =>
          if rejected {
            return false;
          }
        case Established(frames) =>
          IsHonest(events, cursor, connection);
          ghost var heard := Heard(events, hadConnection || cursor.Some?, cursor, frames, |frames|);
          Prefixes(before, life.entries, heard.entries, Lived(events, serve, start, attempts).entries,
                   before + life.entries + heard.entries);
          var outcome := ObserveConnection(frames, hadConnection || cursor.Some?);
          if outcome == Fatal {
            Prefixes(before, life.entries, heard.entries, Lived(events, serve, start, attempts).entries, saved);
            return false;
          }
          if connected {
            hadConnection := true;
          }
        life := Lived(events, serve, start, k + 1);
      }
      return true;
    }
  }

  // ------------------------------------------------------------------ what all connections bring

  datatype Life = Life(entries: seq<Entry>, cursor: Option<nat>, had: bool, over: bool)

  /** What the first `n` connections bring, each resuming at the cursor that the one before has left. */
  function Lived(events: seq<FeedEvent>, serve: (nat, Option<nat>) -> Connection, start: Life, n: nat): Life {
    if n == 0 then start
    else
      var life := Lived(events, serve, start, n - 1);
      if life.over then life
      else
        match serve(n - 1, life.cursor)
        case Refused(rejected) => life.(over := rejected)
        case Established(frames) =>
          var heard := Heard(events, life.had || life.cursor.Some?, life.cursor, frames, |frames|);
          Life(life.entries + heard.entries, heard.cursor, life.had || heard.caughtUp, heard.ending == Fatal)
  }

  lemma LivedNone(events: seq<FeedEvent>, serve: (nat, Option<nat>) -> Connection, start: Life)
    ensures Lived(events, serve, start, 0) == start
  {
  }

  lemma LivedNext(events: seq<FeedEvent>, serve: (nat, Option<nat>) -> Connection, start: Life, n: nat)
    requires !Lived(events, serve, start, n).over
    ensures var life := Lived(events, serve, start, n);
            Lived(events, serve, start, n + 1) ==
              match serve(n, life.cursor)
              case Refused(rejected) => life.(over := rejected)
              case Established(frames) =>
                var heard := Heard(events, life.had || life.cursor.Some?, life.cursor, frames, |frames|);
                Life(life.entries + heard.entries, heard.cursor, life.had || heard.caughtUp, heard.ending == Fatal)
  {
  }

  lemma {:induction false} LivedStays(events: seq<FeedEvent>, serve: (nat, Option<nat>) -> Connection, start: Life,
                                      n: nat, m: nat)
    requires n <= m
    ensures Lived(events, serve, start, n).entries <= Lived(events, serve, start, m).entries
    ensures Lived(events, serve, start, n).over ==> Lived(events, serve, start, m) == Lived(events, serve, start, n)
    decreases m
  {
    if n < m {
      LivedStays(events, serve, start, n, m - 1);
    }
  }

  /** Every event of interest that any connection sends while the observer runs is among what is kept. */
  lemma EverySentIsKept(events: seq<FeedEvent>, serve: (nat, Option<nat>) -> Connection, start: Life, n: nat, m: nat,
                        i: nat)
    requires n < m && !Lived(events, serve, start, n).over
    requires var life := Lived(events, serve, start, n);
             var connection := serve(n, life.cursor);
             connection.Established?
             && Sends(events, life.had || life.cursor.Some?, life.cursor, connection.frames, i)
    ensures var connection := serve(n, Lived(events, serve, start, n).cursor);
            Accepted(events[connection.frames[i].index].id) in Lived(events, serve, start, m).entries
  {
    hide Lived, Heard, Hear;
    var life := Lived(events, serve, start, n);
    var frames := serve(n, life.cursor).frames;
    LivedNext(events, serve, start, n);
    SentIsHeard(events, life.had || life.cursor.Some?, life.cursor, frames, i);
    LivedStays(events, serve, start, n + 1, m);
    InFront(Lived(events, serve, start, n + 1).entries, Lived(events, serve, start, m).entries,
            Accepted(events[frames[i].index].id));
  }

  lemma IsHonest(events: seq<FeedEvent>, at: Option<nat>, connection: Connection)
    requires HonestConnection(events, at, connection) && connection.Established?
    ensures HonestFrom(events, at, connection.frames)
  {
  }

  lemma Prefixes<T>(before: seq<T>, brought: seq<T>, more: seq<T>, all: seq<T>, saved: seq<T>)
    requires brought + more <= all && before + brought <= saved <= before + brought + more
    ensures before <= saved <= before + all
    ensures before + brought + more == before + (brought + more)
  {
    assert before + all == before + (brought + more) + all[|brought + more|..];
  }

  lemma HonestNext(events: seq<FeedEvent>, pos: Option<nat>, frames: seq<Frame>)
    requires HonestFrom(events, pos, frames) && frames != []
    ensures Honest(events, pos, frames[0]) && HonestFrom(events, Position(pos, frames[0]), frames[1..])
  {
  }

  /** What a frame brings does not depend on what was brought before, apart from what is remembered. */
  lemma HearAfter(events: seq<FeedEvent>, had: bool, entries: seq<Entry>, cursor: Option<nat>, recent: seq<string>,
                  caughtUp: bool, frame: Frame)
    ensures var one := Hear(events, had, Told([], cursor, recent, caughtUp, Continue), frame);
            Hear(events, had, Told(entries, cursor, recent, caughtUp, Continue), frame) ==
              one.(entries := entries + one.entries)
    ensures var one := Hear(events, had, Told([], cursor, recent, caughtUp, Continue), frame);
            (one.ending == Fatal ==> one.entries == [] && one.cursor == cursor)
            && (one.ending != Continue ==> one.caughtUp == caughtUp)
  {
  }

  /** A dial that fails, for good or not, or a subscription that is served. */
  datatype Connection = Refused(rejected: bool) | Established(frames: seq<Frame>)

  predicate HonestConnection(events: seq<FeedEvent>, at: Option<nat>, connection: Connection) {
    connection.Established? ==> HonestFrom(events, at, connection.frames)
  }

  ghost function Between(lo: nat, hi: nat): (r: set<nat>)
    ensures forall i: nat :: i in r <==> lo <= i < hi
  {
    if hi <= lo then {} else Between(lo, hi - 1) + {hi - 1}
  }

  lemma KeptStays(events: seq<FeedEvent>, before: seq<Entry>, after: seq<Entry>, entry: Entry)
    requires after == before + [entry]
    ensures forall e :: e in before || e == entry <==> e in after
  {
  }
}
