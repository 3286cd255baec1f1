/**
 The store behind the Go SDK's Server (experimental/chatto-go/server.go, experimental/chatto-go/server_realtime.go):
 page
 reads begin and commit at any time between the steps of the realtime worker, and revisions and epochs fence
 the reads that were overtaken.
 */
module ReplicaStore {
  import opened EventStream
  import opened Timelines
  import opened ClientReplica

  const WINDOW := 2048

  const MAX_LIMIT := 500

  const MAX_ATTEMPTS := 4

  datatype Start = Refused | Cached(page: Page) | Sent(read: Read)

  datatype Outcome = Again | Merged(page: Page)

  datatype Next = Skipped | Resnapshot | Begun

  /**
   What a page joins with: the fetched page over the cached one, and the paging cursors of the side that was not read.
   */
  ghost predicate Joined(old_: Page, newer: Page, before: bool, after: bool, page: Page) {
    && InOrder(page.messages)
    && (forall m :: m in page.messages <==> m.id in Latest(old_, newer) && m == Latest(old_, newer)[m.id] && !m.deleted)
    && page.startCursor == (if after then old_ else newer).startCursor
    && page.hasOlder == (if after then old_ else newer).hasOlder
    && page.endCursor == (if before then old_ else newer).endCursor
    && page.hasNewer == (if before then old_ else newer).hasNewer
    && page.users == old_.users + newer.users
  }

  /** What the store keeps of a page that arrives: without tombstones, and joined with a page that is not replaced. */
  ghost predicate Arrived(cache: Cache, read: Read, raw: Page, page: Page) {
    var fetched := raw.(messages := Undeleted(raw.messages));
    if read.key in cache && !read.anchor
    then Joined(cache[read.key], fetched, read.before, read.after, page)
    else page == fetched
  }

  /** The latest identifiers, the newest last; only the oldest is forgotten, and only when there are too many. */
  function Remembered(order: seq<string>, id: string): (r: seq<string>)
    ensures r != [] && r[|r| - 1] == id && (|order| <= WINDOW ==> |r| <= WINDOW)
    ensures if |order| < WINDOW then order <= r else order[1..] <= r && |r| == |order|
  {
    if |order| + 1 > WINDOW then (order + [id])[1..] else order + [id]
  }

  // ------------------------------------------------------------------ replay on a private candidate

  /** The event is skipped: it has no identifier, or an earlier one had the same. */
  predicate Repeats(events: seq<Event>, k: nat)
    requires k < |events|
  {
    events[k].id == "" || exists i :: 0 <= i < k && events[i].id == events[k].id
  }

  /** How far the feed is applied after `n` events. */
  function Reached(from: nat, events: seq<Event>, n: nat): nat
    requires n <= |events|
  {
    if n == 0 then from
    else if Repeats(events, n - 1) then Reached(from, events, n - 1)
    else events[n - 1].position
  }

  /** The server's catch-up events, from one position to the boundary, and the reads made for them. */
  ghost predicate Feed(truth: Truth, from: nat, events: seq<Event>, http: nat -> Http, boundary: nat) {
    && (forall k :: 0 <= k < |events| && !Repeats(events, k) ==>
         FeedEvent(truth, Reached(from, events, k), events[k], http(k)))
    && Reached(from, events, |events|) <= boundary
    && Quiet(truth, Reached(from, events, |events|), boundary)
  }

  ghost predicate FeedEvent(truth: Truth, at: nat, e: Event, http: Http) {
    NextEvent(truth, at, e) && Answers(http)
  }

  /** Every event had its effect once, in order: `states[k]` is the cache before event `k`. */
  ghost predicate Replayed(cache: Cache, events: seq<Event>, http: nat -> Http, after: Cache) {
    exists states: seq<Cache> :: |states| == |events| + 1 && states[0] == cache && states[|events|] == after
      && Through(states, events, http, |events|)
  }

  ghost predicate Through(states: seq<Cache>, events: seq<Event>, http: nat -> Http, n: nat)
    requires n <= |events| && n < |states|
  {
    forall k :: 0 <= k < n ==> StepsTo(states[k], events, http, k, states[k + 1])
  }

  ghost predicate StepsTo(before: Cache, events: seq<Event>, http: nat -> Http, k: nat, after: Cache)
    requires k < |events|
  {
    if Repeats(events, k) then after == before else Effect(before, events[k], http(k), after)
  }

  lemma ThroughNone(cache: Cache, events: seq<Event>, http: nat -> Http)
    ensures Through([cache], events, http, 0)
  {
  }

  lemma ThroughMore(states: seq<Cache>, events: seq<Event>, http: nat -> Http, n: nat, after: Cache)
    requires n < |events| && |states| == n + 1 && Through(states, events, http, n)
    requires StepsTo(states[n], events, http, n, after)
    ensures Through(states + [after], events, http, n + 1)
  {
    hide StepsTo;
    var more := states + [after];
    forall k | 0 <= k < n + 1 ensures StepsTo(more[k], events, http, k, more[k + 1]) {
      if k < n {
        assert StepsTo(states[k], events, http, k, states[k + 1]);
      }
    }
  }

  /** The identifiers of the first `k` events. */
  predicate SeenBefore(events: seq<Event>, k: nat, seen: set<string>)
    requires k <= |events|
  {
    seen == set i | 0 <= i < k :: events[i].id
  }

  lemma NoneSeen(events: seq<Event>)
    ensures SeenBefore(events, 0, {})
  {
  }

  method SeenMore(events: seq<Event>, k: nat, seen: set<string>) returns (more: set<string>)
    requires k < |events| && SeenBefore(events, k, seen)
    ensures SeenBefore(events, k + 1, more)
  {
    more := seen + {events[k].id};
  }

  lemma RepeatsIff(events: seq<Event>, k: nat, seen: set<string>)
    requires k < |events| && SeenBefore(events, k, seen)
    ensures Repeats(events, k) <==> events[k].id in seen || events[k].id == ""
  {
  }

  /** One catch-up event on the candidate; a change of access ends the attempt. */
  method ApplyFeed(ghost truth: Truth, cache: Cache, e: Event, http: Http, ghost at: nat)
    returns (ok: bool, after: Cache)
    requires Coherent(truth, cache, at) && FeedEvent(truth, at, e, http)
    ensures ok ==> Coherent(truth, after, e.position) && after.Keys <= cache.Keys && Effect(cache, e, http, after)
    ensures Responds(http) && !e.kind.AccessChanged? ==> ok
  {
    hide Coherent, NextEvent, Answers, Effect, Responds;
    if e.kind.AccessChanged? {
      return false, cache;
    }
    ok, after := ApplyTo(truth, cache, e, http, at);
  }

  /** No call fails, and no event changes access. */
  ghost predicate AllRespond(events: seq<Event>, http: nat -> Http) {
    forall k :: 0 <= k < |events| ==> Repeats(events, k) || (Responds(http(k)) && !events[k].kind.AccessChanged?)
  }

  lemma FeedStart(truth: Truth, from: nat, events: seq<Event>, http: nat -> Http, boundary: nat)
    requires Feed(truth, from, events, http, boundary)
    ensures Reached(from, events, 0) == from
    ensures Quiet(truth, Reached(from, events, |events|), boundary)
  {
  }

  lemma FeedAt(truth: Truth, from: nat, events: seq<Event>, http: nat -> Http, boundary: nat, k: nat)
    requires k < |events| && Feed(truth, from, events, http, boundary)
    ensures !Repeats(events, k) ==> FeedEvent(truth, Reached(from, events, k), events[k], http(k))
    ensures Reached(from, events, k + 1) == if Repeats(events, k) then Reached(from, events, k) else events[k].position
  {
    hide FeedEvent, Repeats, Quiet;
  }

  /** The catch-up loop of commitRecovery. */
  method Replay(ghost truth: Truth, ghost from: nat, cache: Cache, events: seq<Event>, http: nat -> Http,
                ghost boundary: nat)
    returns (ok: bool, candidate: Cache)
    requires Coherent(truth, cache, from) && Feed(truth, from, events, http, boundary)
    ensures ok ==> Coherent(truth, candidate, boundary) && candidate.Keys <= cache.Keys
    ensures ok ==> Replayed(cache, events, http, candidate)
    ensures AllRespond(events, http) ==> ok
  {
    hide Coherent, Quiet, FeedEvent, StepsTo, Repeats, Through, SeenBefore, Feed, Reached;
    FeedStart(truth, from, events, http, boundary);
    ThroughNone(cache, events, http);
    candidate := cache;
    var seen: set<string> := {};
    NoneSeen(events);
    ghost var states := [cache];
    for k := 0 to |events|
      invariant SeenBefore(events, k, seen)
      invariant Coherent(truth, candidate, Reached(from, events, k)) && candidate.Keys <= cache.Keys
      invariant |states| == k + 1 && states[0] == cache && states[k] == candidate && Through(states, events, http, k)
    {
      FeedAt(truth, from, events, http, boundary, k);
      ok, candidate := ReplayOne(truth, candidate, events, http, k, seen, Reached(from, events, k));
      if !ok {
        return;
      }
      ThroughMore(states, events, http, k, candidate);
      states := states + [candidate];
      seen := SeenMore(events, k, seen);
    }
    QuietIsCoherent(truth, candidate, Reached(from, events, |events|), boundary);
    ok := true;
  }

  method ReplayOne(ghost truth: Truth, cache: Cache, events: seq<Event>, http: nat -> Http, k: nat, seen: set<string>,
                   ghost at: nat)
    returns (ok: bool, after: Cache)
    requires k < |events| && SeenBefore(events, k, seen)
    requires Coherent(truth, cache, at) && (!Repeats(events, k) ==> FeedEvent(truth, at, events[k], http(k)))
    ensures ok ==> StepsTo(cache, events, http, k, after) && after.Keys <= cache.Keys
    ensures ok ==> Coherent(truth, after, if Repeats(events, k) then at else events[k].position)
    ensures Repeats(events, k) || (Responds(http(k)) && !events[k].kind.AccessChanged?) ==> ok
  {
    hide Coherent, FeedEvent, Effect, Repeats;
    RepeatsIff(events, k, seen);
    if events[k].id == "" || events[k].id in seen {
      return true, cache;
    }
    ok, after := ApplyFeed(truth, cache, events[k], http(k), at);
  }

  // ------------------------------------------------------------------ the store

  /** The event takes a message away and does not say at which position. */
  ghost predicate Bare(truth: Truth, at: nat, e: Event) {
    !e.cursor && !Quiet(truth, at, e.position)
  }

  /** What is left of the truth for a store that may show retracted messages: where messages belong. */
  function Forgetful(truth: Truth): Truth {
    Truth(truth.room, id => None)
  }

  function Held(truth: Truth, exposed: bool): Truth {
    if exposed then Forgetful(truth) else truth
  }

  lemma StillRooms(truth: Truth, exposed: bool, more: bool, cache: Cache, at: nat)
    requires Coherent(Held(truth, exposed), cache, at) && (exposed ==> more)
    ensures Coherent(Held(truth, more), cache, at)
  {
    forall key, m | key in cache && m in cache[key].messages ensures Sound(Held(truth, more), key.room, at, m) {
      assert Sound(Held(truth, exposed), key.room, at, m);
    }
  }

  lemma HeldSound(truth: Truth, exposed: bool, room: string, at: nat, messages: seq<Timelines.Message>)
    requires SoundAll(truth, room, at, messages)
    ensures SoundAll(Held(truth, exposed), room, at, messages)
  {
    forall m | m in messages ensures Sound(Held(truth, exposed), room, at, m) {
      assert Sound(truth, room, at, m);
    }
  }

  lemma HeldFeed(truth: Truth, exposed: bool, at: nat, e: Event, http: Http)
    requires FeedEvent(truth, at, e, http)
    ensures FeedEvent(Held(truth, exposed), at, e, http)
  {
  }

  lemma HeldQuiet(truth: Truth, exposed: bool, at: nat, next: nat)
    requires Quiet(truth, at, next)
    ensures Quiet(Held(truth, exposed), at, next)
  {
  }

  class Replica {
    ghost const truth: Truth
    var ready: bool
    var closed: bool
    var generation: nat
    var revision: nat
    var cursor: Option<nat>
    var epochs: map<Key, nat>
    var cache: Cache
    // An event holds readMu: pages are not merged and timelines are not released meanwhile.
    var applying: bool
    // Identifiers applied on this connection, oldest first.
    var order: seq<string>
    // How far the feed has been applied.
    ghost var applied: nat
    // Every view of the store so far, the current one last.
    ghost var history: seq<View>
    // A retraction without cursor was applied.
    ghost var bare: bool
    // Since the last reset a page was merged whose read did not ask for what had been applied.
    ghost var exposed: bool

    ghost function Now(): View
      reads this`ready, this`closed, this`generation, this`revision, this`cursor, this`epochs, this`applied
    {
      View(ready, closed, generation, revision, cursor, epochs, applied)
    }

    /** The history is a run that ends now. */
    ghost predicate Recorded()
      reads this`ready, this`closed, this`generation, this`revision, this`cursor, this`epochs, this`applied
      reads this`history
    {
      |history| > 0 && history[|history| - 1] == Now() && Run(truth, history)
    }

    /**
     While every retraction came with a cursor, every read started at any time was covered, and nothing is exposed.
     */
    ghost predicate Guarded()
      reads this`bare, this`exposed, this`history
    {
      !bare ==> !exposed && AllCovered(truth, history)
    }

    /** Unless exposed, no timeline shows a message that was retracted by what has been applied. */
    ghost predicate Valid()
      reads this
    {
      Recorded() && Guarded() && Least(cursor) <= applied && Coherent(Held(truth, exposed), cache, applied)
    }

    constructor (ghost server: Truth)
      ensures Valid() && truth == server && Now() == View(false, false, 0, 0, None, map[], 0) && cache == map[]
      ensures !applying && !bare && !exposed && order == []
    {
      truth, ready, closed, generation, revision := server, false, false, 0, 0;
      cursor, epochs, cache, applying, order, applied := None, map[], map[], false, [], 0;
      history, bare, exposed := [View(false, false, 0, 0, None, map[], 0)], false, false;
    }

    /**
     Whatever has come in between, no timeline of a store that is not exposed shows a message retracted by what has
     been applied. While every retraction came with a cursor no store is exposed, and a reset or a snapshot ends it.
     */
    lemma NothingRetractedIsShown(key: Key, m: Timelines.Message)
      requires Valid() && !exposed && key in cache && m in cache[key].messages
      ensures truth.room(m.id) == key.room && !m.deleted && !RetractedBy(truth, m.id, applied)
    {
      assert Sound(truth, key.room, applied, m);
    }

    /** The store as it is now joins the history. */
    ghost method Note()
      requires |history| > 0 && Run(truth, history) && Guarded()
      requires Fences(truth, history[|history| - 1], Now()) && (!bare ==> Covered(truth, Now()))
      modifies `history
      ensures Recorded() && Guarded() && history == old(history) + [Now()]
    {
      hide Run, AllCovered, Covered, Fences;
      RunGrows(truth, history, Now());
      if !bare {
        AllCoveredGrows(truth, history, Now());
      }
      history := history + [Now()];
    }

    method Close()
      requires Valid()
      modifies `closed, `history
      ensures Valid() && closed && old(history) <= history && Now() == old(Now()).(closed := true)
    {
      hide Run, Coherent;
      if !bare {
        LastCovered();
      }
      closed := true;
      Note();
    }

    lemma LastCovered()
      requires Recorded() && Guarded() && !bare
      ensures Covered(truth, Now())
    {
      hide Run, Covered;
      assert Covered(truth, history[|history| - 1]);
    }

    method Reset()
      requires Valid()
      modifies `ready, `generation, `revision, `cursor, `cache, `applied, `exposed, `history
      ensures Valid() && cache == map[] && !exposed && old(history) <= history
      ensures Now() == View(false, closed, old(generation) + 1, old(revision) + 1, None, epochs, 0)
      ensures Covered(truth, Now())
    {
      hide Run, Fences, AllCovered;
      ready, generation, cache, cursor, revision, applied := false, generation + 1, map[], None, revision + 1, 0;
      exposed := false;
      NextRevision(truth, old(Now()), Now());
      Note();
    }

    // ---------------------------------------------------------------- pages

    /**
     One attempt of loadTimeline, up to the request; `epoch` is the timeline's epoch when the call came in, `tried`
     how many attempts it has made.
     */
    method BeginLoad(key: Key, before: bool, after: bool, anchor: bool, limit: int, epoch: nat, tried: nat)
      returns (start: Start, ghost since: nat)
      requires Valid()
      ensures since < |history| && history[since] == Now()
      ensures start.Refused? <==>
                (before && after) || limit < 0 || limit > MAX_LIMIT || tried >= MAX_ATTEMPTS || !ready || closed
                  || Epoch(Now(), key) != epoch
      ensures start.Cached? ==> !before && !after && !anchor && key in cache && start.page == cache[key]
      ensures start.Sent? ==> SentFrom(Now(), start.read) && start.read.key == key
      ensures start.Sent? ==> start.read.before == before && start.read.after == after && start.read.anchor == anchor
      ensures start.Sent? ==> key !in cache || before || after || anchor
    {
      hide SoundAll, Run, Coherent;
      since := |history| - 1;
      var current := if key in epochs then epochs[key] else 0;
      if (before && after) || limit < 0 || limit > MAX_LIMIT || tried >= MAX_ATTEMPTS || !ready || closed
        || current != epoch {
        return Refused, since;
      }
      if key in cache && !before && !after && !anchor {
        return Cached(cache[key]), since;
      }
      start := Sent(Read(key, before, after, anchor, epoch, revision, Least(cursor)));
    }

    /**
     The same attempt, when its page has arrived: it was sent at `since`, and any steps have come between. The
     server has answered with what holds at the position that was asked for, and no more is known of the page.
     */
    method CommitLoad(read: Read, ghost since: nat, raw: Page) returns (outcome: Outcome)
      requires Valid() && !applying
      requires since < |history| && SentFrom(history[since], read)
      requires Honest(truth, read.key.room, read.cursor, raw.messages)
      modifies `cache, `epochs, `exposed, `history
      ensures Valid() && old(history) <= history
      ensures outcome.Merged? <==> old(Accepts(Now(), read))
      ensures outcome.Again? ==> cache == old(cache) && Now() == old(Now()) && exposed == old(exposed)
      ensures exposed <==> old(exposed) || (outcome.Merged? && !Covered(truth, old(history)[since]))
      ensures outcome.Merged? ==> ready && !closed && cache == old(cache)[read.key := outcome.page]
      ensures outcome.Merged? ==>
                Now() == old(Now()).(epochs := if read.anchor then old(epochs)[read.key := read.epoch + 1]
                  else old(epochs))
      ensures outcome.Merged? ==> Arrived(old(cache), read, raw, outcome.page)
    {
      hide SoundAll, Latest, InOrder, Run, Honest, Quiet, Covered, Coherent, Undeleted, Fences, AllCovered, Joined;
      var current := if read.key in epochs then epochs[read.key] else 0;
      if read.revision != revision || read.epoch != current || closed {
        return Again;
      }
      var messages := ProjectMessages(raw.messages);
      var page := raw.(messages := messages);
      if read.key in cache && !read.anchor {
        page := Join(cache[read.key], page, read.before, read.after);
      }
      Merge(read, since, raw, page);
      outcome := Merged(page);
    }

    /** The accepted page enters the cache. */
    method Merge(read: Read, ghost since: nat, raw: Page, page: Page)
      requires Valid() && Accepts(Now(), read) && Arrived(cache, read, raw, page)
      requires since < |history| && SentFrom(history[since], read)
      requires Honest(truth, read.key.room, read.cursor, raw.messages)
      modifies `cache, `epochs, `exposed, `history
      ensures Valid() && ready && !closed && old(history) <= history && cache == old(cache)[read.key := page]
      ensures exposed <==> old(exposed) || !Covered(truth, old(history)[since])
      ensures Now() == old(Now()).(epochs := if read.anchor then old(epochs)[read.key := read.epoch + 1]
                else old(epochs))
    {
      hide SoundAll, Run, Honest, Quiet, Covered, Coherent, Fences, Arrived, AllCovered;
      if !bare {
        LastCovered();
        CoveredThen(since);
      }
      AcceptedSince(truth, history, since, read);
      ghost var more := exposed || !Covered(truth, history[since]);
      PageKeepsCoherence(truth, exposed, more, cache, read, raw, page, applied, Covered(truth, history[since]));
      exposed, cache := more, cache[read.key := page];
      if read.anchor {
        NextEpoch(truth, Now(), Now().(epochs := epochs[read.key := Epoch(Now(), read.key) + 1]), read.key);
        epochs := epochs[read.key := read.epoch + 1];
      } else {
        FencesReflexive(truth, Now());
      }
      Note();
    }

    lemma CoveredThen(since: nat)
      requires Guarded() && since < |history|
      ensures !bare ==> Covered(truth, history[since])
    {
      hide Covered;
    }

    /** ReleaseTimeline */
    method Release(key: Key)
      requires Valid() && !applying
      modifies `cache, `epochs, `history
      ensures Valid() && old(history) <= history
      ensures cache == old(cache) - {key} && Epoch(Now(), key) == old(Epoch(Now(), key)) + 1
      ensures forall other :: other != key ==> Epoch(Now(), other) == old(Epoch(Now(), other))
      ensures Now() == old(Now()).(epochs := epochs)
    {
      hide Run, Fences, Covered, Coherent, AllCovered;
      if !bare {
        LastCovered();
      }
      NextEpoch(truth, Now(), Now().(epochs := epochs[key := Epoch(Now(), key) + 1]), key);
      epochs := epochs[key := (if key in epochs then epochs[key] else 0) + 1];
      ReleasedIsCoherent(Held(truth, exposed), cache, key, applied);
      cache := cache - {key};
      Note();
    }

    // ---------------------------------------------------------------- the realtime worker

    method Heartbeat(position: nat)
      requires Valid() && applied <= position && Quiet(truth, applied, position)
      modifies `cursor, `applied, `history
      ensures Valid() && old(history) <= history && Covered(truth, Now())
      ensures Now() == old(Now()).(cursor := Some(position), applied := position)
    {
      hide Run, Coherent;
      HeldQuiet(truth, exposed, applied, position);
      QuietIsCoherent(Held(truth, exposed), cache, applied, position);
      cursor, applied := Some(position), position;
      Note();
    }

    /** The worker takes an event: repeated ones only move the cursor, changed access drops everything. */
    method StartEvent(e: Event) returns (next: Next)
      requires Valid() && !applying
      requires e.id == "" || e.id in order ==> applied <= e.position && Quiet(truth, applied, e.position)
      modifies this
      ensures Valid() && old(history) <= history && bare == old(bare)
      ensures next.Skipped? <==> e.id == "" || e.id in old(order)
      ensures next.Skipped? ==>
                Now() == if e.cursor then old(Now()).(cursor := Some(e.position), applied := e.position) else old(Now())
      ensures next.Resnapshot? ==> e.kind.AccessChanged? && cache == map[] && !exposed
      ensures next.Resnapshot? ==> Now() == View(false, closed, old(generation) + 1, old(revision) + 1, None, epochs, 0)
      ensures next.Begun? ==> !e.kind.AccessChanged? && applying && Now() == old(Now()).(revision := old(revision) + 1)
      ensures !next.Begun? ==> !applying
      ensures !next.Resnapshot? ==> cache == old(cache) && exposed == old(exposed)
      ensures order == if e.id == "" && e.id !in old(order) then Remembered(old(order), e.id) else old(order)
    {
      hide Coherent, Quiet, Run, Fences, Covered, AllCovered;
      if e.id == "" || e.id in order {
        if e.id !in order {
          order := Remembered(order, e.id);
        }
        if e.cursor {
          Heartbeat(e.position);
        }
        return Skipped;
      }
      if e.kind.AccessChanged? {
        Reset();
        return Resnapshot;
      }
      if !bare {
        LastCovered();
      }
      applying, revision := true, revision + 1;
      CoveredByCursor(truth, old(Now()), Now());
      NextRevision(truth, old(Now()), Now());
      Note();
      next := Begun;
    }

    /**
     The rest of applyEvent: the timelines change, and the revision moves again whatever happened. Pages read from
     then on are covered exactly when the event brought a cursor, or took nothing away where they were before.
     */
    method FinishEvent(e: Event, http: Http) returns (ok: bool)
      requires Valid() && applying && !e.kind.AccessChanged?
      requires FeedEvent(truth, applied, e, http)
      modifies this
      ensures Valid() && old(history) <= history && exposed == old(exposed)
      ensures !applying && cache.Keys <= old(cache).Keys && (Responds(http) ==> ok)
      ensures ok ==> Effect(old(cache), e, http, cache) && order == Remembered(old(order), e.id)
      ensures ok ==>
                Now() == old(Now()).(revision := old(revision) + 1, applied := e.position,
                                     cursor := if e.cursor then Some(e.position) else old(cursor))
      ensures !ok ==> Now() == old(Now()).(revision := old(revision) + 1) && order == old(order)
      ensures Covered(truth, Now()) <==>
                (ok && e.cursor) || (old(Covered(truth, Now())) && (ok ==> !Bare(truth, old(applied), e)))
      ensures bare <==> old(bare) || (ok && Bare(truth, old(applied), e))
    {
      hide Coherent, Effect, Run, Fences, AllCovered, Remembered, NextEvent, Quiet, Answers, Covered, Bare;
      var after;
      ok, after := Applied(e, http);
      if ok {
        Settle(e, after);
      } else {
        Abandon(after);
      }
    }

    method Applied(e: Event, http: Http) returns (ok: bool, after: Cache)
      requires Valid() && !e.kind.AccessChanged? && FeedEvent(truth, applied, e, http)
      ensures applied <= e.position && after.Keys <= cache.Keys && (ok ==> Effect(cache, e, http, after))
      ensures Responds(http) ==> ok
      ensures Coherent(Held(truth, exposed), after, e.position) && Coherent(Held(truth, exposed), after, applied)
    {
      hide Coherent, Effect, Answers, Run, AllCovered, Quiet;
      HeldFeed(truth, exposed, applied, e, http);
      ok, after := ApplyTo(Held(truth, exposed), cache, e, http, applied);
      CoherentEarlier(Held(truth, exposed), after, e.position, applied);
    }

    /** The event is applied. */
    method Settle(e: Event, after: Cache)
      requires Valid() && applied <= e.position && Coherent(Held(truth, exposed), after, e.position)
      modifies `applying, `revision, `cache, `cursor, `applied, `order, `bare, `history
      ensures Valid() && old(history) <= history && cache == after && order == Remembered(old(order), e.id) && !applying
      ensures Now() == old(Now()).(revision := old(revision) + 1, applied := e.position,
                                   cursor := if e.cursor then Some(e.position) else old(cursor))
      ensures Covered(truth, Now()) <==> e.cursor || (old(Covered(truth, Now())) && !Bare(truth, old(applied), e))
      ensures bare <==> old(bare) || Bare(truth, old(applied), e)
    {
      hide Coherent, Run, Fences, AllCovered, Remembered, RetractedBy;
      if !bare {
        LastCovered();
      }
      CoveredAfter(truth, cursor, applied, e.position);
      bare := bare || Bare(truth, applied, e);
      applying, revision, cache, applied, order := false, revision + 1, after, e.position, Remembered(order, e.id);
      if e.cursor {
        cursor := Some(e.position);
      }
      NextRevision(truth, old(Now()), Now());
      Note();
    }

    /** A call failed: what has changed so far stays until the worker resets the store. */
    method Abandon(after: Cache)
      requires Valid() && Coherent(Held(truth, exposed), after, applied)
      modifies `applying, `revision, `cache, `history
      ensures Valid() && old(history) <= history && cache == after && !applying
      ensures Now() == old(Now()).(revision := old(revision) + 1)
      ensures (Covered(truth, Now()) <==> old(Covered(truth, Now())))
    {
      hide Coherent, Run, Fences, AllCovered, Quiet;
      if !bare {
        LastCovered();
      }
      applying, revision, cache := false, revision + 1, after;
      NextRevision(truth, old(Now()), Now());
      Note();
    }

    /** commitRecovery: one replacement of the store, or none. */
    method CommitRecovery(staged: bool, events: seq<Event>, boundary: nat, http: nat -> Http, hydrated: bool,
                          ghost from: nat)
      returns (ok: bool)
      requires Valid() && !applying
      requires !staged ==> from == Least(cursor) && applied <= boundary
      requires Feed(truth, from, events, http, boundary)
      modifies this
      ensures Valid() && old(history) <= history && bare == old(bare) && !applying
      ensures !ok ==> Now() == old(Now()) && cache == old(cache) && exposed == old(exposed)
      ensures ok ==> hydrated
      ensures hydrated && AllRespond(events, http) ==> ok
      ensures ok ==> Now() == Recovered(old(Now()), staged, boundary)
      ensures ok ==> closed == old(closed) && epochs == old(epochs) && order == [] && Covered(truth, Now())
      ensures ok ==> Replayed(if staged then map[] else old(cache), events, http, cache)
      ensures ok ==> cache.Keys <= (if staged then {} else old(cache).Keys) && (exposed <==> old(exposed) && !staged)
    {
      hide Coherent, Effect, Feed, Replayed, Run, Fences, AllCovered, RetractedBy;
      ghost var held := Held(truth, exposed && !staged);
      NothingIsCoherent(held, from);
      if !staged {
        CoherentEarlier(held, cache, applied, from);
      }
      HeldCatchUp(truth, exposed && !staged, from, events, http, boundary);
      var candidate;
      ok, candidate := Replay(held, from, if staged then map[] else cache, events, http, boundary);
      ok := ok && hydrated;
      if !ok {
        return;
      }
      Replace(staged, candidate, boundary);
    }

    method Replace(staged: bool, candidate: Cache, boundary: nat)
      requires Valid() && !applying && Coherent(Held(truth, exposed && !staged), candidate, boundary)
      modifies `cache, `ready, `cursor, `revision, `applied, `order, `generation, `exposed, `history
      ensures Valid() && old(history) <= history && order == [] && cache == candidate && Covered(truth, Now())
      ensures Now() == Recovered(old(Now()), staged, boundary)
      ensures exposed <==> old(exposed) && !staged
    {
      hide Coherent, Run, Fences, AllCovered, RetractedBy;
      cache, ready, cursor, revision, applied, order := candidate, true, Some(boundary), revision + 1, boundary, [];
      if staged {
        generation, exposed := generation + 1, false;
      }
      NextRevision(truth, old(Now()), Now());
      Note();
    }
  }

  // ------------------------------------------------------------------ why cursors matter

  /**
   Wherever a read is not covered, its page can bring a retracted message back: `id` is one of those that were
   retracted since the position that reads ask for.
   */
  method UncoveredReadRevives(r: Replica, room: string, id: string)
    requires r.Valid() && r.ready && !r.closed && !r.applying && r.truth.room(id) == room
    requires RetractedBy(r.truth, id, r.applied) && !RetractedBy(r.truth, id, Least(r.cursor))
    modifies r
    ensures r.Valid() && r.exposed && r.applied == old(r.applied)
    ensures Key(room, "") in r.cache && Loaded(r.cache[Key(room, "")], id) && RetractedBy(r.truth, id, r.applied)
  {
    hide Run, Coherent, AllCovered;
    var key := Key(room, "");
    var epoch := if key in r.epochs then r.epochs[key] else 0;
    var start, since := r.BeginLoad(key, false, false, true, 0, epoch, 0);
    var m := Timelines.Message(id, 0, false, "", "", false, "");
    assert !Covered(r.truth, r.Now());
    var outcome := r.CommitLoad(start.read, since, Page([m], "", "", false, false, map[]));
    assert m in Undeleted([m]);
  }

  /** A retraction that comes without cursor is applied, and the next page shows the message again. */
  method BareRetractionRevives(server: Truth, e: Event, http: Http) returns (r: Replica)
    requires e.kind.Retracted? && !e.cursor && e.id != "" && FeedEvent(server, 0, e, http) && Responds(http)
    requires RetractedBy(server, e.kind.message, e.position) && !RetractedBy(server, e.kind.message, 0)
    ensures r.truth == server && r.applied == e.position && RetractedBy(server, e.kind.message, r.applied)
    ensures Key(e.kind.room, "") in r.cache && Loaded(r.cache[Key(e.kind.room, "")], e.kind.message)
  {
    hide Run, Coherent, AllCovered, Effect, Answers, Responds;
    r := new Replica(server);
    QuietReflexive(server, 0);
    var ok := r.CommitRecovery(true, [], 0, k => http, true, 0);
    var next := r.StartEvent(e);
    ok := r.FinishEvent(e, http);
    UncoveredReadRevives(r, e.kind.room, e.kind.message);
  }

  lemma QuietReflexive(truth: Truth, at: nat)
    ensures Quiet(truth, at, at)
  {
  }

  /** The store behind a recovery: it stands at the boundary, and a snapshot begins a new generation. */
  function Recovered(v: View, staged: bool, boundary: nat): View {
    View(true, v.closed, if staged then v.generation + 1
      else v.generation, v.revision + 1, Some(boundary), v.epochs, boundary)
  }

  lemma HeldCatchUp(truth: Truth, exposed: bool, from: nat, events: seq<Event>, http: nat -> Http, boundary: nat)
    requires Feed(truth, from, events, http, boundary)
    ensures Feed(Held(truth, exposed), from, events, http, boundary)
  {
    hide FeedEvent, Repeats, Reached, Quiet;
    HeldQuiet(truth, exposed, Reached(from, events, |events|), boundary);
    forall k | 0 <= k < |events| && !Repeats(events, k)
      ensures FeedEvent(Held(truth, exposed), Reached(from, events, k), events[k], http(k))
    {
      HeldFeed(truth, exposed, Reached(from, events, k), events[k], http(k));
    }
  }

  lemma ReleasedIsCoherent(truth: Truth, cache: Cache, key: Key, at: nat)
    requires Coherent(truth, cache, at)
    ensures Coherent(truth, cache - {key}, at)
  {
    hide SoundAll;
  }

  lemma CoveredByCursor(truth: Truth, a: View, b: View)
    requires a.cursor == b.cursor && a.applied == b.applied
    ensures Covered(truth, a) <==> Covered(truth, b)
  {
  }

  lemma NothingIsCoherent(truth: Truth, at: nat)
    ensures Coherent(truth, map[], at)
  {
  }

  /** Whether reads stay covered after an event without cursor. */
  lemma CoveredAfter(truth: Truth, cursor: Option<nat>, applied: nat, position: nat)
    requires Least(cursor) <= applied <= position
    ensures Quiet(truth, Least(cursor), position) <==>
              Quiet(truth, Least(cursor), applied) && Quiet(truth, applied, position)
  {
  }

  method Join(cached: Page, fetched: Page, before: bool, after: bool) returns (page: Page)
    ensures Joined(cached, fetched, before, after, page)
  {
    hide Latest, InOrder;
    page := MergeTimeline(cached, fetched, before);
    if after {
      page := page.(startCursor := cached.startCursor, hasOlder := cached.hasOlder);
    }
  }

  /** A page that arrives keeps the cache coherent, as far as its read was covered. */
  lemma PageKeepsCoherence(truth: Truth, exposed: bool, more: bool, cache: Cache, read: Read, raw: Page, page: Page,
                           at: nat, covered: bool)
    requires Coherent(Held(truth, exposed), cache, at) && Honest(truth, read.key.room, read.cursor, raw.messages)
    requires Arrived(cache, read, raw, page) && (more <==> exposed || !covered)
    requires covered ==>
               forall messages :: SoundAll(truth, read.key.room, read.cursor, messages) ==>
                 SoundAll(truth, read.key.room, at, messages)
    ensures Coherent(Held(truth, more), cache[read.key := page], at)
  {
    hide SoundAll, Latest, InOrder, Undeleted;
    var room, fetched := read.key.room, Undeleted(raw.messages);
    StillRooms(truth, exposed, more, cache, at);
    ProjectedIsSound(truth, room, read.cursor, raw.messages);
    assert SoundAll(Held(truth, more), room, at, fetched) by {
      if covered {
        HeldSound(truth, more, room, at, fetched);
      } else {
        RoomsAnyTime(truth, room, read.cursor, at, fetched);
      }
    }
    if read.key in cache && !read.anchor {
      MergeIsSound(Held(truth, more), room, at, cache[read.key], raw.(messages := fetched), page);
    }
  }

  lemma RoomsAnyTime(truth: Truth, room: string, at: nat, next: nat, messages: seq<Timelines.Message>)
    requires SoundAll(truth, room, at, messages)
    ensures SoundAll(Forgetful(truth), room, next, messages)
  {
    forall m | m in messages ensures Sound(Forgetful(truth), room, next, m) {
      assert Sound(truth, room, at, m);
    }
  }
}
