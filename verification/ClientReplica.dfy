/**
 The cache of the Go SDK under concurrent reads and realtime events (experimental/chatto-go/server.go,
 experimental/chatto-go/server_realtime.go): revisions and epochs fence reads that were overtaken.
 */
module ClientReplica {
  import opened EventStream
  import opened Timelines

  const BATCH := 100

  datatype Kind =
    | Posted(room: string, root: string)
    | Edited(room: string, message: string)
    | Retracted(room: string, message: string)
    | Touched(room: string, message: string)
    | RoomDeleted(room: string)
    | RoomChanged(room: string)
    | AccessChanged
    | Elsewhere

  /** A realtime event at one position of the feed; `cursor` says whether it carries that position. */
  datatype Event = Event(id: string, position: nat, cursor: bool, kind: Kind)

  /**
   What HTTP calls answer while an event is applied. None is a failed call; `get` answers with a message without
   identifier when there is none, `room` says whether the room still exists.
   */
  datatype Http = Http(
    get: (string, string) -> Option<Timelines.Message>,
    batch: (string, seq<string>) -> Option<seq<Timelines.Message>>,
    room: string -> Option<bool>,
    other: bool)

  // ------------------------------------------------------------------ what the server promises

  /** Nothing is retracted between the two positions. */
  ghost predicate Quiet(truth: Truth, at: nat, next: nat) {
    forall id :: RetractedBy(truth, id, next) ==> RetractedBy(truth, id, at)
  }

  /** The event is the next thing the feed has to say: a message is posted and edited before it is retracted. */
  ghost predicate NextEvent(truth: Truth, at: nat, e: Event) {
    && at <= e.position
    && match e.kind
       case Retracted(room, message) =>
         && truth.room(message) == room
         && forall other :: RetractedBy(truth, other, e.position) && !RetractedBy(truth, other, at) ==> other == message
       case Posted(room, _) => Quiet(truth, at, e.position) && Shown(truth, room, e.id, e.position)
       case Edited(room, message) => Quiet(truth, at, e.position) && Shown(truth, room, message, e.position)
       case _ => Quiet(truth, at, e.position)
  }

  predicate Shown(truth: Truth, room: string, id: string, at: nat) {
    truth.room(id) == room && !RetractedBy(truth, id, at)
  }

  /** Asked for a message, the server answers with that one or none. How old the answers are is left open. */
  ghost predicate Answers(http: Http) {
    forall room, id :: http.get(room, id).Some? ==> http.get(room, id).value.id in {"", id}
  }

  /**
   Why cursors matter: a page read at `at` or later is safe to show at `next`, whatever it holds, exactly when
   nothing was retracted between the two.
   */
  lemma ReadsAreSafeIff(truth: Truth, at: nat, next: nat)
    ensures Quiet(truth, at, next) <==>
              forall room, messages :: SoundAll(truth, room, at, messages) ==> SoundAll(truth, room, next, messages)
  {
    if Quiet(truth, at, next) {
      forall room, messages | SoundAll(truth, room, at, messages) ensures SoundAll(truth, room, next, messages) {
        forall m | m in messages ensures Sound(truth, room, next, m) {
          assert Sound(truth, room, at, m);
        }
      }
    } else {
      var id :| RetractedBy(truth, id, next) && !RetractedBy(truth, id, at);
      var m := Timelines.Message(id, 0, false, "", "", false, "");
      assert SoundAll(truth, truth.room(id), at, [m]);
      assert m in [m] && !Sound(truth, truth.room(id), next, m);
      assert !SoundAll(truth, truth.room(id), next, [m]);
    }
  }

  /** No call fails. */
  ghost predicate Responds(http: Http) {
    && (forall room, id :: http.get(room, id).Some?) && (forall room, ids :: http.batch(room, ids).Some?)
    && (forall room :: http.room(room).Some?) && http.other
  }

  // ------------------------------------------------------------------ one event, on a cache

  /** "*" stands for every message with a thread summary. */
  predicate Concerns(m: Timelines.Message, root: string) {
    m.id == root || (root == "*" && m.threaded)
  }

  function Among(ids: seq<string>): set<string> {
    set id | id in ids
  }

  predicate Distinct(ids: seq<string>) {
    forall i, j :: 0 <= i < j < |ids| ==> ids[i] != ids[j]
  }

  /** The loaded messages that a metadata event concerns. */
  ghost predicate Asked(cache: Cache, room: string, root: string, id: string) {
    exists key :: key in cache && key.room == room && AskedIn(cache[key].messages, root, id)
  }

  ghost predicate AskedFor(cache: Cache, room: string, root: string, done: set<string>) {
    forall id :: id in done <==> Asked(cache, room, root, id)
  }

  ghost predicate AskedIn(messages: seq<Timelines.Message>, root: string, id: string) {
    exists m :: m in messages && m.id == id && Concerns(m, root)
  }

  method LoadedIds(cache: Cache, room: string, root: string) returns (ids: seq<string>)
    ensures Distinct(ids) && forall id :: id in ids <==> Asked(cache, room, root, id)
  {
    ids := [];
    var rest := cache.Keys;
    while rest != {}
      invariant rest <= cache.Keys && Distinct(ids)
      invariant forall id :: id in ids <==>
          exists key :: key in cache && key !in rest && key.room == room && AskedIn(cache[key].messages, root, id)
    {
      hide AskedIn;
      var key :| key in rest;
      rest := rest - {key};
      if key.room == room {
        ids := AddIds(ids, cache[key].messages, root);
      }
    }
  }

  method AddIds(ids: seq<string>, messages: seq<Timelines.Message>, root: string) returns (more: seq<string>)
    requires Distinct(ids)
    ensures Distinct(more) && forall id :: id in more <==> id in ids || AskedIn(messages, root, id)
  {
    more := ids;
    for i := 0 to |messages|
      invariant Distinct(more) && forall id :: id in more <==> id in ids || AskedIn(messages[..i], root, id)
    {
      assert messages[..i + 1] == messages[..i] + [messages[i]];
      if Concerns(messages[i], root) && messages[i].id !in more {
        more := more + [messages[i].id];
      }
    }
    assert messages[..|messages|] == messages;
  }

  /** A bounded call was made for the message, and its version there replaces a loaded one. */
  ghost predicate AsReplied(http: Http, room: string, id: string, before: seq<Timelines.Message>,
                            after: seq<Timelines.Message>) {
    exists ids: seq<string> :: |ids| <= BATCH && id in ids && http.batch(room, ids).Some?
      && RepliedWith(http.batch(room, ids).value, id, before, after)
  }

  ghost predicate RepliedWith(reply: seq<Timelines.Message>, id: string, before: seq<Timelines.Message>,
                              after: seq<Timelines.Message>) {
    forall m: Timelines.Message | m.id == id ::
      m in after <==> (exists x :: x in before && x.id == id) && id in ById(reply) && m == ById(reply)[id] && !m.deleted
  }

  /** What a page becomes when the messages in `done` have been asked for. */
  ghost predicate PageAsked(http: Http, room: string, done: set<string>, before: seq<Timelines.Message>,
                            after: seq<Timelines.Message>) {
    && (forall m: Timelines.Message | m.id !in done :: m in after <==> m in before)
    && (forall id | id in done :: AsReplied(http, room, id, before, after))
  }

  ghost predicate RoomAsked(http: Http, room: string, done: set<string>, cache: Cache, after: Cache) {
    && after.Keys == cache.Keys
    && forall key :: key in cache ==>
         if key.room == room
         then after[key] == cache[key].(messages := after[key].messages)
           && PageAsked(http, room, done, cache[key].messages, after[key].messages)
         else after[key] == cache[key]
  }

  lemma PageAskedMore(http: Http, room: string, done: set<string>, before: seq<Timelines.Message>,
                      after: seq<Timelines.Message>, ids: seq<string>, next: seq<Timelines.Message>)
    requires PageAsked(http, room, done, before, after)
    requires |ids| <= BATCH && http.batch(room, ids).Some? && forall id :: id in ids ==> id !in done
    requires forall id :: id in ById(http.batch(room, ids).value) ==> ById(http.batch(room, ids).value)[id].id == id
    requires next == Updated(after, Among(ids), ById(http.batch(room, ids).value))
    ensures PageAsked(http, room, done + Among(ids), before, next)
  {
    hide Updated, ById, AsReplied;
    var reply := http.batch(room, ids).value;
    forall id | id in done ensures AsReplied(http, room, id, before, next) {
      StillReplied(http, room, id, before, after, next);
    }
    forall id | id in ids ensures AsReplied(http, room, id, before, next) {
      assert (exists x :: x in before && x.id == id) <==> exists x :: x in after && x.id == id;
      assert RepliedWith(reply, id, before, next);
      RepliedMeansAsReplied(http, room, id, before, next, ids);
    }
  }

  lemma RepliedMeansAsReplied(http: Http, room: string, id: string, before: seq<Timelines.Message>,
                              next: seq<Timelines.Message>, ids: seq<string>)
    requires |ids| <= BATCH && id in ids && http.batch(room, ids).Some?
    requires RepliedWith(http.batch(room, ids).value, id, before, next)
    ensures AsReplied(http, room, id, before, next)
  {
  }

  lemma StillReplied(http: Http, room: string, id: string, before: seq<Timelines.Message>,
                     after: seq<Timelines.Message>, next: seq<Timelines.Message>)
    requires AsReplied(http, room, id, before, after)
    requires forall m: Timelines.Message | m.id == id :: m in next <==> m in after
    ensures AsReplied(http, room, id, before, next)
  {
    var ids: seq<string> :| |ids| <= BATCH && id in ids && http.batch(room, ids).Some?
      && RepliedWith(http.batch(room, ids).value, id, before, after);
    assert RepliedWith(http.batch(room, ids).value, id, before, next);
  }

  lemma RoomAskedMore(http: Http, room: string, done: set<string>, cache: Cache, after: Cache, ids: seq<string>)
    requires RoomAsked(http, room, done, cache, after)
    requires |ids| <= BATCH && http.batch(room, ids).Some? && forall id :: id in ids ==> id !in done
    requires forall id :: id in ById(http.batch(room, ids).value) ==> ById(http.batch(room, ids).value)[id].id == id
    ensures RoomAsked(http, room, done +
              Among(ids), cache, Refreshed(after, room, Among(ids), ById(http.batch(room, ids).value)))
  {
    hide PageAsked, Updated, ById;
    var next := Refreshed(after, room, Among(ids), ById(http.batch(room, ids).value));
    forall key | key in cache && key.room == room
      ensures PageAsked(http, room, done + Among(ids), cache[key].messages, next[key].messages)
    {
      PageAskedMore(http, room, done, cache[key].messages, after[key].messages, ids, next[key].messages);
    }
  }

  /** refreshMessageMetadata: in bounded batches, every concerned message is as the server says, and none is added. */
  method RefreshMetadata(ghost truth: Truth, cache: Cache, room: string, root: string, http: Http, ghost q: nat)
    returns (ok: bool, after: Cache)
    requires Coherent(truth, cache, q)
    ensures Coherent(truth, after, q)
    ensures Responds(http) ==> ok
    ensures ok && root == "" ==> after == cache
    ensures ok && root != "" ==>
              exists done: set<string> :: AskedFor(cache, room, root, done) && RoomAsked(http, room, done, cache, after)
    ensures after.Keys == cache.Keys
  {
    hide Coherent, RoomAsked, Asked, ById, Updated, Refreshed;
    ok, after := true, cache;
    if root == "" {
      return;
    }
    var ids := LoadedIds(cache, room, root);
    ghost var all := Among(ids);
    ghost var done: set<string> := {};
    NothingAsked(http, room, cache);
    while ids != []
      invariant Coherent(truth, after, q) && RoomAsked(http, room, done, cache, after) && after.Keys == cache.Keys
      invariant Distinct(ids) && all == done + Among(ids) && forall id :: id in ids ==> id !in done
      decreases |ids|
    {
      var n := if |ids| < BATCH then |ids| else BATCH;
      var reply := http.batch(room, ids[..n]);
      if reply.None? {
        return false, after;
      }
      var requested := Among(ids[..n]);
      ByIdKeys(reply.value);
      RepliesHaveTheirKeys(reply.value);
      RefreshedIsCoherent(truth, after, room, requested, ById(reply.value), q);
      RoomAskedMore(http, room, done, cache, after, ids[..n]);
      RoomAskedKeys(http, room, done + requested, cache, Refreshed(after, room, requested, ById(reply.value)));
      after := ReplaceInRoom(after, room, requested, ById(reply.value));
      done := done + requested;
      assert ids == ids[..n] + ids[n..];
      ids := ids[n..];
    }
    assert AskedFor(cache, room, root, done);
  }

  lemma NothingAsked(http: Http, room: string, cache: Cache)
    ensures RoomAsked(http, room, {}, cache, cache)
  {
  }

  lemma RoomAskedKeys(http: Http, room: string, done: set<string>, cache: Cache, after: Cache)
    requires RoomAsked(http, room, done, cache, after)
    ensures after.Keys == cache.Keys
  {
  }

  lemma RepliesHaveTheirKeys(reply: seq<Timelines.Message>)
    ensures forall id :: id in ById(reply) ==> ById(reply)[id].id == id
  {
    ByIdKeys(reply);
  }

  lemma QuietIsCoherent(truth: Truth, cache: Cache, at: nat, next: nat)
    requires Coherent(truth, cache, at) && Quiet(truth, at, next)
    ensures Coherent(truth, cache, next)
  {
    forall key, m | key in cache && m in cache[key].messages ensures Sound(truth, key.room, next, m) {
      assert Sound(truth, key.room, at, m);
    }
  }

  /** The reply holds a message to show. */
  predicate Live(m: Timelines.Message) {
    m.id != "" && !m.deleted
  }

  /** A live reply is merged wherever it belongs; `before` is the cache before a removal. */
  ghost predicate Fetched(before: Cache, cache: Cache, room: string, m: Timelines.Message, after: Cache) {
    && after.Keys == cache.Keys <= before.Keys
    && forall key :: key in cache ==>
         if Live(m) && TakesUpdate(key, before[key], room, m) then MergedPage(cache[key], m, after[key])
           else after[key] == cache[key]
  }

  /** refreshMessage: an edited message leaves the cache before its new version is read and merged. */
  method RefreshMessage(ghost truth: Truth, cache: Cache, room: string, id: string, edited: bool, http: Http,
                        ghost q: nat)
    returns (ok: bool, after: Cache)
    requires Coherent(truth, cache, q)
    requires Shown(truth, room, id, q) && Answers(http)
    ensures Coherent(truth, after, q) && after.Keys == cache.Keys
    ensures ok <==> http.get(room, id).Some?
    ensures ok ==>
              Fetched(cache, if edited then Removed(cache, room, id) else cache, room, http.get(room, id).value, after)
  {
    hide Coherent, Removed, TakesUpdate, MergedPage;
    after := cache;
    if edited {
      RemovedIsCoherent(truth, cache, room, id, q);
      after := RemoveMessage(cache, room, id);
    }
    var reply := http.get(room, id);
    if reply.None? {
      return false, after;
    }
    var m := reply.value;
    if m.id == "" || m.deleted {
      return true, after;
    }
    assert Sound(truth, room, q, m);
    after := MergeReply(truth, cache, after, room, m, q);
    ok := true;
  }

  method MergeReply(ghost truth: Truth, before: Cache, cache: Cache, room: string, m: Timelines.Message, ghost q: nat)
    returns (after: Cache)
    requires before.Keys == cache.Keys && forall key :: key in cache ==> cache[key].hasNewer == before[key].hasNewer
    requires Coherent(truth, cache, q) && Sound(truth, room, q, m) && Live(m)
    ensures Coherent(truth, after, q) && Fetched(before, cache, room, m, after)
  {
    hide Coherent, MergedPage, Sound;
    after := MergeMessage(before, cache, room, m);
    MergedIsCoherent(truth, cache, after, room, m, q);
  }

  lemma RemovedIsCoherent(truth: Truth, cache: Cache, room: string, id: string, q: nat)
    requires Coherent(truth, cache, q)
    ensures Coherent(truth, Removed(cache, room, id), q)
    ensures Removed(cache, room, id).Keys == cache.Keys
    ensures forall key :: key in cache ==> Removed(cache, room, id)[key].hasNewer == cache[key].hasNewer
  {
    var after := Removed(cache, room, id);
    forall key, m | key in after && m in after[key].messages ensures Sound(truth, key.room, q, m) {
    }
  }

  function WithoutRoom(cache: Cache, room: string): Cache {
    map key | key in cache && key.room != room :: cache[key]
  }

  /** removeRoom: its timelines leave the cache. */
  method RemoveRoom(cache: Cache, room: string) returns (after: Cache)
    ensures after == WithoutRoom(cache, room)
  {
    after := cache;
    var rest := cache.Keys;
    while rest != {}
      invariant rest <= cache.Keys && after == map key | key in cache && (key in rest || key.room != room) :: cache[key]
    {
      var key :| key in rest;
      rest := rest - {key};
      if key.room == room {
        after := after - {key};
      }
    }
  }

  lemma WithoutRoomIsCoherent(truth: Truth, cache: Cache, room: string, q: nat)
    requires Coherent(truth, cache, q)
    ensures Coherent(truth, WithoutRoom(cache, room), q)
  {
  }

  // ------------------------------------------------------------------ what each event does

  ghost predicate MetadataIs(cache: Cache, after: Cache, room: string, root: string, http: Http) {
    if root == "" then after == cache
    else exists done: set<string> :: AskedFor(cache, room, root, done) && RoomAsked(http, room, done, cache, after)
  }

  /** What a completely applied event makes of the cached timelines. */
  ghost predicate Effect(cache: Cache, e: Event, http: Http, after: Cache) {
    match e.kind
    case Posted(room, root) =>
      http.get(room, e.id).Some? && exists mid: Cache ::
        Fetched(cache, cache, room, http.get(room, e.id).value, mid) && MetadataIs(mid, after, room, root, http)
    case Edited(room, id) =>
      http.get(room, id).Some? && Fetched(cache, Removed(cache, room, id), room, http.get(room, id).value, after)
    case Retracted(room, id) => MetadataIs(Removed(cache, room, id), after, room, "*", http)
    case Touched(room, id) => MetadataIs(cache, after, room, id, http)
    case RoomDeleted(room) => after == WithoutRoom(cache, room)
    case RoomChanged(room) => http.room(room).Some? && after == if http.room(room).value then cache
      else WithoutRoom(cache, room)
    case AccessChanged => false
    case Elsewhere => after == cache
  }

  /** applyEvent on the timelines. They are coherent at the event even when a call failed half way. */
  method ApplyTo(ghost truth: Truth, cache: Cache, e: Event, http: Http, ghost at: nat) returns (ok: bool, after: Cache)
    requires Coherent(truth, cache, at) && NextEvent(truth, at, e)
    requires Answers(http)
    requires !e.kind.AccessChanged?
    ensures Coherent(truth, after, e.position) && after.Keys <= cache.Keys
    ensures (ok ==> Effect(cache, e, http, after)) && (Responds(http) ==> ok)
  {
    hide Coherent, Quiet, Answers, Fetched, MetadataIs, Removed, RetractedBy, WithoutRoom;
    if !e.kind.Retracted? {
      QuietIsCoherent(truth, cache, at, e.position);
    }
    match e.kind
    case Posted(room, root) =>
      ok, after := RefreshMessage(truth, cache, room, e.id, false, http, e.position);
      if ok {
        ghost var mid := after;
        ok, after := Metadata(truth, after, room, root, http, e.position);
        assert Fetched(cache, cache, room, http.get(room, e.id).value, mid);
      }
    case Edited(room, id) =>
      ok, after := RefreshMessage(truth, cache, room, id, true, http, e.position);
    case Retracted(room, id) =>
      RemovalIsCoherent(truth, cache, room, id, at, e.position);
      RemovedKeys(cache, room, id);
      after := RemoveMessage(cache, room, id);
      ok, after := Metadata(truth, after, room, "*", http, e.position);
    case Touched(room, id) =>
      ok, after := Metadata(truth, cache, room, id, http, e.position);
    case RoomDeleted(room) =>
      WithoutRoomIsCoherent(truth, cache, room, e.position);
      after := RemoveRoom(cache, room);
      ok := true;
      FewerKeys(cache, room);
    case RoomChanged(room) =>
      ok, after := http.room(room).Some?, cache;
      if http.room(room) == Some(false) {
        WithoutRoomIsCoherent(truth, cache, room, e.position);
        after := RemoveRoom(cache, room);
        FewerKeys(cache, room);
      }
    case Elsewhere =>
      ok, after := http.other, cache;
  }

  method Metadata(ghost truth: Truth, cache: Cache, room: string, root: string, http: Http, ghost q: nat)
    returns (ok: bool, after: Cache)
    requires Coherent(truth, cache, q)
    ensures Coherent(truth, after, q) && after.Keys == cache.Keys
    ensures (ok ==> MetadataIs(cache, after, room, root, http)) && (Responds(http) ==> ok)
  {
    ok, after := RefreshMetadata(truth, cache, room, root, http, q);
  }

  lemma FewerKeys(cache: Cache, room: string)
    ensures WithoutRoom(cache, room).Keys <= cache.Keys
  {
  }

  lemma RemovedKeys(cache: Cache, room: string, id: string)
    ensures Removed(cache, room, id).Keys == cache.Keys
  {
  }

  /** A retraction that is completely applied leaves no trace of the message in any timeline of the room. */
  lemma RetractedIsGone(cache: Cache, e: Event, http: Http, after: Cache, key: Key)
    requires e.kind.Retracted? && Effect(cache, e, http, after)
    requires key in after && key.room == e.kind.room
    ensures !Loaded(after[key], e.kind.message)
  {
    var room, id := e.kind.room, e.kind.message;
    var cleared := Removed(cache, room, id);
    var done: set<string> :| AskedFor(cleared, room, "*", done) && RoomAsked(http, room, done, cleared, after);
    assert PageAsked(http, room, done, cleared[key].messages, after[key].messages);
  }

  /** After a complete edit a loaded version of the message is the one the server just answered with. */
  lemma EditedIsReplaced(cache: Cache, e: Event, http: Http, after: Cache, key: Key, m: Timelines.Message)
    requires e.kind.Edited? && Effect(cache, e, http, after)
    requires key in after && key.room == e.kind.room && m in after[key].messages && m.id == e.kind.message
    ensures m == http.get(e.kind.room, e.kind.message).value && !m.deleted
  {
    var reply := http.get(e.kind.room, e.kind.message).value;
    var cleared := Removed(cache, e.kind.room, e.kind.message);
    assert m !in cleared[key].messages;
    ByIdKeys(cleared[key].messages);
    ByIdKeys([reply]);
  }

  // ------------------------------------------------------------------ the store as others see it

  /** What fences and cursors say about the store at one moment; `applied` is how far the feed has been applied. */
  datatype View = View(ready: bool, closed: bool, generation: nat, revision: nat, cursor: Option<nat>, epochs: map<Key,
                       nat>, applied: nat)

  /** The position that a read started now asks for. */
  function Least(cursor: Option<nat>): nat {
    if cursor.Some? then cursor.value else 0
  }

  function Epoch(v: View, key: Key): nat {
    if key in v.epochs then v.epochs[key] else 0
  }

  /** A read that has been sent: what it asked for, and the fences as they were. */
  datatype Read = Read(key: Key, before: bool, after: bool, anchor: bool, epoch: nat, revision: nat, cursor: nat)

  /** A read started now would show nothing that is retracted. */
  ghost predicate Covered(truth: Truth, v: View) {
    Quiet(truth, Least(v.cursor), v.applied)
  }

  ghost predicate SentFrom(v: View, read: Read) {
    v.ready && !v.closed && read.epoch == Epoch(v, read.key) && read.revision == v.revision
      && read.cursor == Least(v.cursor)
  }

  predicate Accepts(v: View, read: Read) {
    read.revision == v.revision && read.epoch == Epoch(v, read.key) && !v.closed
  }

  /** What every step keeps: counters only grow, and between two revisions the feed says nothing about retractions. */
  ghost predicate Fences(truth: Truth, a: View, b: View) {
    && a.revision <= b.revision
    && (forall key :: Epoch(a, key) <= Epoch(b, key))
    && (a.closed ==> b.closed)
    && a.generation <= b.generation
    && (a.revision == b.revision ==>
          a.ready == b.ready && a.generation == b.generation && a.applied <= b.applied
            && Quiet(truth, a.applied, b.applied))
  }

  lemma FencesCompose(truth: Truth, a: View, b: View, c: View)
    requires Fences(truth, a, b) && Fences(truth, b, c)
    ensures Fences(truth, a, c)
  {
    hide Epoch, RetractedBy;
    assert forall key :: Epoch(a, key) <= Epoch(b, key) <= Epoch(c, key);
    if a.revision == c.revision {
      assert Quiet(truth, a.applied, c.applied);
    }
  }

  /** Any interleaving of steps. */
  ghost predicate Run(truth: Truth, views: seq<View>) {
    forall i :: 0 < i < |views| ==> Fences(truth, views[i - 1], views[i])
  }

  lemma {:induction false} RunKeepsFences(truth: Truth, views: seq<View>, i: nat, j: nat)
    requires Run(truth, views) && i <= j < |views|
    ensures Fences(truth, views[i], views[j])
    decreases j
  {
    hide Fences, Quiet;
    if i == j {
      FencesReflexive(truth, views[i]);
    } else {
      RunKeepsFences(truth, views, i, j - 1);
      assert Fences(truth, views[j - 1], views[j]);
      FencesCompose(truth, views[i], views[j - 1], views[j]);
    }
  }

  /** A step that moves the revision fences off every read. */
  lemma NextRevision(truth: Truth, a: View, b: View)
    requires a.revision < b.revision && a.generation <= b.generation && a.closed == b.closed && a.epochs == b.epochs
    ensures Fences(truth, a, b)
  {
  }

  /** A step that moves one epoch changes nothing else for reads. */
  lemma NextEpoch(truth: Truth, a: View, b: View, key: Key)
    requires b == a.(epochs := a.epochs[key := Epoch(a, key) + 1])
    ensures Fences(truth, a, b) && (Covered(truth, a) <==> Covered(truth, b))
    ensures forall other :: Epoch(b, other) == Epoch(a, other) + if other == key then 1 else 0
  {
    hide RetractedBy;
  }

  lemma FencesReflexive(truth: Truth, v: View)
    ensures Fences(truth, v, v)
  {
  }

  /**
   A read that is accepted at the end of a run was overtaken by nothing: no revision, epoch, reset or close in between.
   */
  lemma AcceptedWasNotOvertaken(truth: Truth, views: seq<View>, read: Read, k: nat)
    requires Run(truth, views) && k < |views| && SentFrom(views[0], read) && Accepts(views[|views| - 1], read)
    ensures views[k].revision == read.revision && Epoch(views[k], read.key) == read.epoch
    ensures views[k].ready && !views[k].closed && views[k].generation == views[0].generation
  {
    hide Quiet;
    RunKeepsFences(truth, views, 0, k);
    RunKeepsFences(truth, views, k, |views| - 1);
  }

  /** A page whose read began covered and is accepted at the end of a run shows nothing retracted by then. */
  lemma AcceptedPageIsSound(truth: Truth, views: seq<View>, read: Read, messages: seq<Timelines.Message>)
    requires Run(truth, views) && |views| > 0 && SentFrom(views[0], read) && Accepts(views[|views| - 1], read)
    requires Covered(truth, views[0])
    requires SoundAll(truth, read.key.room, read.cursor, messages)
    ensures SoundAll(truth, read.key.room, views[|views| - 1].applied, messages)
  {
    RunKeepsFences(truth, views, 0, |views| - 1);
    ReadsAreSafeIff(truth, read.cursor, views[0].applied);
    ReadsAreSafeIff(truth, views[0].applied, views[|views| - 1].applied);
  }

  /** The same, for a read that was sent at some point of a longer run, and whatever the page holds. */
  lemma AcceptedSince(truth: Truth, views: seq<View>, since: nat, read: Read)
    requires Run(truth, views) && since < |views| && SentFrom(views[since], read) && Accepts(views[|views| - 1], read)
    ensures views[|views| - 1].ready && !views[|views| - 1].closed
    ensures Covered(truth, views[since]) ==>
              forall messages :: SoundAll(truth, read.key.room, read.cursor, messages) ==>
                SoundAll(truth, read.key.room, views[|views| - 1].applied, messages)
  {
    hide Quiet, SoundAll;
    var tail := views[since..];
    assert Run(truth, tail) by {
      forall i | 0 < i < |tail| ensures Fences(truth, tail[i - 1], tail[i]) {
        assert Fences(truth, views[since + i - 1], views[since + i]);
      }
    }
    AcceptedWasNotOvertaken(truth, tail, read, |tail| - 1);
    if Covered(truth, views[since]) {
      forall messages | SoundAll(truth, read.key.room, read.cursor, messages)
        ensures SoundAll(truth, read.key.room, views[|views| - 1].applied, messages)
      {
        AcceptedPageIsSound(truth, tail, read, messages);
      }
    }
  }

  lemma RunGrows(truth: Truth, views: seq<View>, next: View)
    requires Run(truth, views) && (|views| > 0 ==> Fences(truth, views[|views| - 1], next))
    ensures Run(truth, views + [next])
  {
    hide Fences;
    var more := views + [next];
    forall i | 0 < i < |more| ensures Fences(truth, more[i - 1], more[i]) {
      if i < |views| {
        assert Fences(truth, views[i - 1], views[i]);
      }
    }
  }

  /** At every moment a read started then would have been covered. */
  ghost predicate AllCovered(truth: Truth, views: seq<View>) {
    forall i :: 0 <= i < |views| ==> Covered(truth, views[i])
  }

  lemma AllCoveredGrows(truth: Truth, views: seq<View>, next: View)
    requires AllCovered(truth, views) && Covered(truth, next)
    ensures AllCovered(truth, views + [next])
  {
    hide Covered;
  }
}
