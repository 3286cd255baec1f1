/**
 What a completely applied realtime event makes of the cached timelines, said in terms of rooms, thread roots and
 messages only (experimental/chatto-go/server_realtime.go, lines 466-606).
 */
module ClientEffects {
  import opened EventStream
  import opened Timelines
  import opened ClientReplica

  /** The thread that a message is part of: the one it is echoed from, the one it replies to, or its own. */
  ghost predicate InThread(m: Timelines.Message, root: string) {
    || (m.echo != "" && root == m.echo)
    || (m.echo == "" && m.root != "" && root == m.root)
    || (m.echo == "" && m.root == "" && root == m.id)
  }

  /** The room's own timeline has the messages that reply to none, a thread has its own. */
  ghost predicate BelongsTo(m: Timelines.Message, room: string, key: Key) {
    key.room == room && ((key.root == "" && m.root == "") || (key.root != "" && InThread(m, key.root)))
  }

  /** The message is the only one with its identifier that the page shows. */
  ghost predicate Holds(page: Page, m: Timelines.Message) {
    m in page.messages && forall x :: x in page.messages && x.id == m.id ==> x == m
  }

  /**
   Where a message that was read ends up: in every timeline that it belongs to and that is open to it, and in no
   other. A page that ends before the newest message is only open to what it already holds.
   */
  lemma FetchedWhereItBelongs(before: Cache, cache: Cache, room: string, m: Timelines.Message, after: Cache, key: Key)
    requires Fetched(before, cache, room, m, after) && key in cache
    ensures Live(m) && BelongsTo(m, room, key) && (!before[key].hasNewer || Loaded(before[key], m.id)) ==>
              Holds(after[key], m)
    ensures !(Live(m) && BelongsTo(m, room, key) && (!before[key].hasNewer || Loaded(before[key], m.id))) ==>
              after[key] == cache[key]
    ensures forall x: Timelines.Message :: x in after[key].messages && x.id != m.id ==> x in cache[key].messages
  {
    ByIdKeys(cache[key].messages);
    ByIdKeys([m]);
    assert ById([m][..0]) == map[];
    assert m.id in ById([m]) && ById([m])[m.id] == m;
  }

  /** A page without tombstones and doubles keeps every other message. */
  lemma FetchedKeepsOthers(before: Cache, cache: Cache, room: string, m: Timelines.Message, after: Cache, key: Key,
                           x: Timelines.Message)
    requires Fetched(before, cache, room, m, after) && key in cache
    requires x in cache[key].messages && x.id != m.id && !x.deleted
    requires forall y :: y in cache[key].messages && y.id == x.id ==> y == x
    ensures x in after[key].messages
  {
    ByIdKeys(cache[key].messages);
    ByIdKeys([m]);
    assert x.id in ById(cache[key].messages);
  }

  /** A new message that replies to none is in the room's timeline, unless that ends before the newest message. */
  lemma PostedAppears(cache: Cache, e: Event, http: Http, after: Cache)
    requires e.kind.Posted? && e.kind.root == "" && Effect(cache, e, http, after)
    requires var reply := http.get(e.kind.room, e.id); reply.Some? && Live(reply.value) && reply.value.root == ""
    requires Key(e.kind.room, "") in cache && !cache[Key(e.kind.room, "")].hasNewer
    ensures Key(e.kind.room, "") in after && Holds(after[Key(e.kind.room, "")], http.get(e.kind.room, e.id).value)
  {
    hide Fetched, Holds;
    var room, reply := e.kind.room, http.get(e.kind.room, e.id).value;
    var mid: Cache :| Fetched(cache, cache, room, reply, mid) && MetadataIs(mid, after, room, "", http);
    FetchedKeys(cache, cache, room, reply, mid);
    FetchedWhereItBelongs(cache, cache, room, reply, mid, Key(room, ""));
  }

  /**
   A new reply is in its thread, unless that ends before the newest message, and gets into no room timeline. The
   thread's root may be read again; that is another message.
   */
  lemma ReplyAppears(cache: Cache, e: Event, http: Http, after: Cache, key: Key)
    requires e.kind.Posted? && Effect(cache, e, http, after)
    requires var reply := http.get(e.kind.room, e.id);
             && reply.Some? && Live(reply.value) && reply.value.root != "" && reply.value.id == e.id
             && e.kind.root != "*" && e.kind.root != e.id
    requires key in cache && key.room == e.kind.room
    ensures key in after
    ensures key.root != "" && InThread(http.get(e.kind.room, e.id).value, key.root) && !cache[key].hasNewer ==>
              Holds(after[key], http.get(e.kind.room, e.id).value)
    ensures key.root == "" && !Loaded(cache[key], e.id) ==> !Loaded(after[key], e.id)
  {
    hide Fetched, AsReplied, Live;
    var room, reply := e.kind.room, http.get(e.kind.room, e.id).value;
    var mid: Cache :| Fetched(cache, cache, room, reply, mid) && MetadataIs(mid, after, room, e.kind.root, http);
    FetchedKeys(cache, cache, room, reply, mid);
    FetchedWhereItBelongs(cache, cache, room, reply, mid, key);
    if e.kind.root != "" {
      var done: set<string> :| AskedFor(mid, room, e.kind.root, done) && RoomAsked(http, room, done, mid, after);
      assert e.id !in done;
      assert PageAsked(http, room, done, mid[key].messages, after[key].messages);
    }
  }

  lemma FetchedKeys(before: Cache, cache: Cache, room: string, m: Timelines.Message, after: Cache)
    requires Fetched(before, cache, room, m, after)
    ensures after.Keys == cache.Keys
  {
  }

  /**
   After an edit the message is, in the server's version, in every timeline that held it and that it still belongs
   to, and nowhere where it does not belong.
   */
  lemma EditedComesBack(cache: Cache, e: Event, http: Http, after: Cache, key: Key)
    requires e.kind.Edited? && Effect(cache, e, http, after)
    requires var reply := http.get(e.kind.room, e.kind.message);
             reply.Some? && Live(reply.value) && reply.value.id == e.kind.message
    requires key in cache && key.room == e.kind.room
    ensures key in after
    ensures BelongsTo(http.get(e.kind.room, e.kind.message).value, e.kind.room, key)
              && (Loaded(cache[key], e.kind.message) || !cache[key].hasNewer) ==>
              Holds(after[key], http.get(e.kind.room, e.kind.message).value)
    ensures !BelongsTo(http.get(e.kind.room, e.kind.message).value, e.kind.room, key) ==>
              !Loaded(after[key], e.kind.message)
  {
    hide Fetched, Holds, BelongsTo;
    var room, id := e.kind.room, e.kind.message;
    var cleared := Removed(cache, room, id);
    FetchedKeys(cache, cleared, room, http.get(room, id).value, after);
    FetchedWhereItBelongs(cache, cleared, room, http.get(room, id).value, after, key);
  }

  /** An edit whose message is gone, and a retraction, take the message away and leave the others. */
  lemma RemovalLeavesOthers(cache: Cache, room: string, id: string, key: Key)
    requires key in cache
    ensures key in Removed(cache, room, id)
    ensures key.room == room ==> !Loaded(Removed(cache, room, id)[key], id)
    ensures key.room != room ==> Removed(cache, room, id)[key] == cache[key]
    ensures forall m: Timelines.Message :: m.id != id ==>
              (m in Removed(cache, room, id)[key].messages <==> m in cache[key].messages)
  {
  }

  /** A deleted room leaves no timeline, and the others stay as they are. */
  lemma DeletedRoomIsGone(cache: Cache, e: Event, http: Http, after: Cache, key: Key)
    requires e.kind.RoomDeleted? || (e.kind.RoomChanged? && http.room(e.kind.room) == Some(false))
    requires Effect(cache, e, http, after)
    ensures key in after <==> key in cache && key.room != e.kind.room
    ensures key in after ==> after[key] == cache[key]
  {
  }

  /** The message is what a bounded call answered. */
  ghost predicate Answered(http: Http, room: string, m: Timelines.Message) {
    exists ids: seq<string> ::
      |ids| <= BATCH && m.id in ids && http.batch(room, ids).Some? && m in http.batch(room, ids).value
  }

  /** Messages whose thread summary changes are read again, and nothing else changes. */
  lemma TouchedIsReadAgain(cache: Cache, e: Event, http: Http, after: Cache, key: Key, m: Timelines.Message)
    requires e.kind.Touched? && e.kind.message != "" && e.kind.message != "*" && Effect(cache, e, http, after)
    requires key in cache && key.room == e.kind.room
    ensures key in after
    ensures m.id != e.kind.message ==> (m in after[key].messages <==> m in cache[key].messages)
    ensures m.id == e.kind.message && m in after[key].messages ==> !m.deleted && Answered(http, e.kind.room, m)
  {
    var room, root := e.kind.room, e.kind.message;
    var done: set<string> :| AskedFor(cache, room, root, done) && RoomAsked(http, room, done, cache, after);
    assert PageAsked(http, room, done, cache[key].messages, after[key].messages);
    if m.id == root && m in after[key].messages {
      if m in cache[key].messages {
        assert AskedIn(cache[key].messages, root, m.id);
        assert Asked(cache, room, root, m.id);
      }
      assert m.id in done;
      assert AsReplied(http, room, m.id, cache[key].messages, after[key].messages);
      var ids: seq<string> :| |ids| <= BATCH && m.id in ids && http.batch(room, ids).Some?
        && RepliedWith(http.batch(room, ids).value, m.id, cache[key].messages, after[key].messages);
      ByIdKeys(http.batch(room, ids).value);
    }
  }
}
