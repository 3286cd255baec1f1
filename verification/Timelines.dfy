/**
 Cached timelines of the Go SDK and the ways a message gets into one or out of one
 (experimental/chatto-go/server.go, experimental/chatto-go/server_realtime.go).
 */
module Timelines {
  import opened EventStream
  import opened Sorting

  datatype Key = Key(room: string, root: string)

  /**
   `created` is the parsed creation time, `deleted` says that DeletedAt is set, `root` and `echo` are the thread
   that a reply belongs to or is echoed from, `threaded` says that the message carries a thread summary.
   */
  datatype Message = Message(id: string, created: int, deleted: bool, root: string, echo: string, threaded: bool,
                             body: string)

  datatype Page = Page(messages: seq<Message>, startCursor: string, endCursor: string, hasOlder: bool, hasNewer: bool,
                       users: map<string, string>)

  type Cache = map<Key, Page>

  // ------------------------------------------------------------------ mergeTimeline

  datatype Place = Place(created: int, id: string)

  predicate Before(a: Place, b: Place) {
    a.created < b.created || (a.created == b.created && Less(a.id, b.id))
  }

  lemma BeforeIsATotalOrder()
    ensures TotalOrder(Before)
  {
    LessIsATotalOrder();
  }

  function PlaceOf(m: Message): Place {
    Place(m.created, m.id)
  }

  /** The last message with each identifier. */
  function ById(messages: seq<Message>): map<string, Message> {
    if messages == [] then map[]
    else ById(messages[..|messages| - 1])[messages[|messages| - 1].id := messages[|messages| - 1]]
  }

  /** What a merge holds by identifier: the fresh message where there is one, otherwise the old one. */
  function Latest(old_: Page, newer: Page): map<string, Message> {
    ById(old_.messages) + ById(newer.messages)
  }

  /** Sorted by time and identifier, no message twice. */
  ghost predicate InOrder(messages: seq<Message>) {
    forall i, j :: 0 <= i < j < |messages| ==> Before(PlaceOf(messages[i]), PlaceOf(messages[j]))
  }

  lemma {:induction false} ByIdKeys(messages: seq<Message>)
    ensures forall id :: id in ById(messages) ==> ById(messages)[id].id == id && ById(messages)[id] in messages
    ensures forall m :: m in messages ==> m.id in ById(messages)
  {
    if messages != [] {
      var n := |messages| - 1;
      ByIdKeys(messages[..n]);
      assert messages == messages[..n] + [messages[n]];
    }
  }

  method MergeTimeline(old_: Page, newer: Page, older: bool) returns (merged: Page)
    ensures InOrder(merged.messages)
    ensures forall i, j :: 0 <= i < j < |merged.messages| ==> merged.messages[i].created <= merged.messages[j].created
    ensures forall m :: m in merged.messages <==>
              m.id in Latest(old_, newer) && m == Latest(old_, newer)[m.id] && !m.deleted
    ensures merged.startCursor == newer.startCursor && merged.hasOlder == newer.hasOlder
    ensures merged.endCursor == (if older then old_.endCursor else newer.endCursor)
    ensures merged.hasNewer == (if older then old_.hasNewer else newer.hasNewer)
    ensures merged.users == old_.users + newer.users
  {
    var byId: map<string, Message> := map[];
    for i := 0 to |old_.messages|
      invariant byId == ById(old_.messages[..i])
    {
      assert old_.messages[..i + 1][..i] == old_.messages[..i];
      byId := byId[old_.messages[i].id := old_.messages[i]];
    }
    assert old_.messages[..|old_.messages|] == old_.messages;
    for i := 0 to |newer.messages|
      invariant byId == ById(old_.messages) + ById(newer.messages[..i])
    {
      assert newer.messages[..i + 1][..i] == newer.messages[..i];
      byId := byId[newer.messages[i].id := newer.messages[i]];
    }
    assert newer.messages[..|newer.messages|] == newer.messages;
    ByIdKeys(old_.messages);
    ByIdKeys(newer.messages);
    var messages := SortMessages(byId);
    merged := Page(messages, newer.startCursor, if older then old_.endCursor else newer.endCursor,
                   newer.hasOlder, if older then old_.hasNewer else newer.hasNewer, old_.users + newer.users);
  }

  /** The undeleted messages, sorted. */
  method SortMessages(byId: map<string, Message>) returns (messages: seq<Message>)
    requires forall id :: id in byId ==> byId[id].id == id
    ensures InOrder(messages)
    ensures forall m :: m in messages <==> m.id in byId && m == byId[m.id] && !m.deleted
  {
    hide Less, Before;
    BeforeIsATotalOrder();
    var places := set id | id in byId && !byId[id].deleted :: PlaceOf(byId[id]);
    var sorted := SortedKeys(Before, places);
    messages := [];
    for i := 0 to |sorted|
      invariant |messages| == i && forall k :: 0 <= k < i ==> PlacedAt(byId, sorted[k], messages[k])
    {
      assert sorted[i] in places;
      messages := messages + [byId[sorted[i].id]];
    }
    PlacedInOrder(byId, sorted, messages);
    forall m: Message | m.id in byId && m == byId[m.id] && !m.deleted ensures m in messages {
      assert PlaceOf(m) in places;
      var k :| 0 <= k < |sorted| && sorted[k] == PlaceOf(m);
      assert messages[k] == m;
    }
  }

  ghost predicate PlacedAt(byId: map<string, Message>, place: Place, m: Message) {
    place.id in byId && m == byId[place.id] && !m.deleted && PlaceOf(m) == place
  }

  lemma PlacedInOrder(byId: map<string, Message>, sorted: seq<Place>, messages: seq<Message>)
    requires Ascending(Before, sorted) && |messages| == |sorted|
    requires forall k :: 0 <= k < |sorted| ==> PlacedAt(byId, sorted[k], messages[k])
    ensures InOrder(messages)
  {
  }

  // ------------------------------------------------------------------ coherence

  /** What the server has decided: where each message lives, and when it is retracted if it ever is. */
  datatype Truth = Truth(room: string -> string, retracted: string -> Option<nat>)

  predicate RetractedBy(truth: Truth, id: string, at: nat) {
    truth.retracted(id).Some? && truth.retracted(id).value <= at
  }

  /** The message belongs here and may be shown: it is no tombstone and was not retracted by `at`. */
  predicate Sound(truth: Truth, room: string, at: nat, m: Message) {
    truth.room(m.id) == room && !m.deleted && !RetractedBy(truth, m.id, at)
  }

  /** What the server answers at position `at` or later: messages of the room, retracted ones as tombstones. */
  predicate Honest(truth: Truth, room: string, at: nat, messages: seq<Message>) {
    forall m :: m in messages ==> truth.room(m.id) == room && (m.deleted || !RetractedBy(truth, m.id, at))
  }

  /** The messages that are no tombstones, in their order. */
  function Undeleted(messages: seq<Message>): (kept: seq<Message>)
    ensures forall m :: m in kept <==> m in messages && !m.deleted
  {
    if messages == [] then []
    else
      var last := messages[|messages| - 1];
      assert messages == messages[..|messages| - 1] + [last];
      Undeleted(messages[..|messages| - 1]) + if last.deleted then [] else [last]
  }

  /** projectMessages: tombstones do not get into a page. */
  method ProjectMessages(raw: seq<Message>) returns (messages: seq<Message>)
    ensures messages == Undeleted(raw)
  {
    messages := [];
    for i := 0 to |raw|
      invariant messages == Undeleted(raw[..i])
    {
      assert raw[..i + 1][..i] == raw[..i];
      if !raw[i].deleted {
        messages := messages + [raw[i]];
      }
    }
    assert raw[..|raw|] == raw;
  }

  /** An honest answer without its tombstones may be shown. */
  lemma ProjectedIsSound(truth: Truth, room: string, at: nat, raw: seq<Message>)
    requires Honest(truth, room, at, raw)
    ensures SoundAll(truth, room, at, Undeleted(raw))
  {
  }

  predicate SoundAll(truth: Truth, room: string, at: nat, messages: seq<Message>) {
    forall m :: m in messages ==> Sound(truth, room, at, m)
  }

  predicate Coherent(truth: Truth, cache: Cache, at: nat) {
    forall key :: key in cache ==> SoundAll(truth, key.room, at, cache[key].messages)
  }

  /** Merging sound messages gives sound messages. */
  lemma MergeIsSound(truth: Truth, room: string, at: nat, old_: Page, newer: Page, merged: Page)
    requires SoundAll(truth, room, at, old_.messages) && SoundAll(truth, room, at, newer.messages)
    requires forall m :: m in merged.messages ==> m.id in Latest(old_, newer) && m == Latest(old_, newer)[m.id]
    ensures SoundAll(truth, room, at, merged.messages)
  {
    ByIdKeys(old_.messages);
    ByIdKeys(newer.messages);
  }

  /** A cache that is coherent late is coherent early. */
  lemma CoherentEarlier(truth: Truth, cache: Cache, at: nat, earlier: nat)
    requires Coherent(truth, cache, at) && earlier <= at
    ensures Coherent(truth, cache, earlier)
  {
  }

  // ------------------------------------------------------------------ what events do to the cache

  /** The other messages, in their order. */
  function Without(messages: seq<Message>, id: string): (kept: seq<Message>)
    ensures forall m :: m in kept <==> m in messages && m.id != id
  {
    if messages == [] then []
    else
      var last := messages[|messages| - 1];
      assert messages == messages[..|messages| - 1] + [last];
      Without(messages[..|messages| - 1], id) + if last.id != id then [last] else []
  }

  function Removed(cache: Cache, room: string, id: string): Cache {
    map key | key in cache :: if key.room == room then cache[key].(messages := Without(cache[key].messages, id))
      else cache[key]
  }

  method Filter(messages: seq<Message>, id: string) returns (kept: seq<Message>)
    ensures kept == Without(messages, id)
  {
    kept := [];
    for i := 0 to |messages|
      invariant kept == Without(messages[..i], id)
    {
      assert messages[..i + 1][..i] == messages[..i];
      if messages[i].id != id {
        kept := kept + [messages[i]];
      }
    }
    assert messages[..|messages|] == messages;
  }

  /** removeMessage: the message leaves every timeline of its room. */
  method RemoveMessage(cache: Cache, room: string, id: string) returns (after: Cache)
    ensures after == Removed(cache, room, id)
  {
    after := cache;
    var rest := cache.Keys;
    while rest != {}
      invariant rest <= cache.Keys == after.Keys
      invariant forall key :: key in cache ==>
                  after[key] == if key in rest then cache[key] else Removed(cache, room, id)[key]
    {
      var key :| key in rest;
      rest := rest - {key};
      if key.room == room {
        var kept := Filter(cache[key].messages, id);
        after := after[key := cache[key].(messages := kept)];
      }
    }
  }

  /** Removing what is retracted next makes the cache coherent from then on. */
  lemma RemovalIsCoherent(truth: Truth, cache: Cache, room: string, id: string, at: nat, next: nat)
    requires Coherent(truth, cache, at) && truth.room(id) == room
    requires forall other :: RetractedBy(truth, other, next) && !RetractedBy(truth, other, at) ==> other == id
    ensures Coherent(truth, Removed(cache, room, id), next)
  {
    var after := Removed(cache, room, id);
    forall key, m | key in after && m in after[key].messages ensures Sound(truth, key.room, next, m) {
      assert Sound(truth, key.room, at, m);
    }
  }

  predicate Loaded(page: Page, id: string) {
    exists m :: m in page.messages && m.id == id
  }

  /** The timeline shows this message: the room's own timeline shows no replies, a thread shows its own. */
  predicate Shows(key: Key, m: Message) {
    if key.root == "" then m.root == ""
      else key.root == (if m.echo != "" then m.echo else if m.root != "" then m.root else m.id)
  }

  /** A page that ends before the newest message only takes an update of what it already holds. */
  predicate TakesUpdate(key: Key, page: Page, room: string, m: Message) {
    key.room == room && Shows(key, m) && (page.hasNewer ==> Loaded(page, m.id))
  }

  /** refreshMessage, after the reply: merge the message where it belongs. `before` is the cache before a removal. */
  method MergeMessage(before: Cache, cache: Cache, room: string, m: Message) returns (after: Cache)
    requires before.Keys == cache.Keys && forall key :: key in cache ==> cache[key].hasNewer == before[key].hasNewer
    ensures after.Keys == cache.Keys
    ensures forall key :: key in cache ==>
              if TakesUpdate(key, before[key], room, m) then MergedPage(cache[key], m, after[key])
                else after[key] == cache[key]
  {
    after := cache;
    var rest := cache.Keys;
    while rest != {}
      invariant rest <= cache.Keys == after.Keys
      invariant forall key :: key in rest ==> after[key] == cache[key]
      invariant forall key :: key in cache && key !in rest ==>
                                if TakesUpdate(key, before[key], room, m) then MergedPage(cache[key], m, after[key])
                                  else after[key] == cache[key]
    {
      var key :| key in rest;
      rest := rest - {key};
      if TakesUpdate(key, before[key], room, m) {
        var page := cache[key];
        var merged := MergeTimeline(page, Page([m], page.startCursor, "", page.hasOlder, false, map[]), true);
        after := after[key := merged];
      }
    }
  }

  /** The page holds exactly its undeleted messages and `m`, and its boundaries are what they were. */
  ghost predicate MergedPage(page: Page, m: Message, merged: Page) {
    && InOrder(merged.messages)
    && (forall x :: x in merged.messages <==>
          x.id in Latest(page, Page([m], "", "", false, false, map[]))
          && x == Latest(page, Page([m], "", "", false, false, map[]))[x.id] && !x.deleted)
    && merged.startCursor == page.startCursor && merged.hasOlder == page.hasOlder
    && merged.endCursor == page.endCursor && merged.hasNewer == page.hasNewer
  }

  /** Merging a message read at `next` keeps the cache coherent there. */
  lemma MergedIsCoherent(truth: Truth, cache: Cache, after: Cache, room: string, m: Message, next: nat)
    requires Coherent(truth, cache, next) && after.Keys == cache.Keys && Sound(truth, room, next, m)
    requires forall key :: key in cache ==>
               after[key] == cache[key] || (key.room == room && MergedPage(cache[key], m, after[key]))
    ensures Coherent(truth, after, next)
  {
    forall key | key in after ensures SoundAll(truth, key.room, next, after[key].messages) {
      if after[key] != cache[key] {
        MergeIsSound(truth, key.room, next, cache[key], Page([m], "", "", false, false, map[]), after[key]);
      }
    }
  }

  /** Requested messages are replaced in place, or dropped when they are gone; nothing is added. */
  function Updated(messages: seq<Message>, requested: set<string>, updates: map<string, Message>): (kept: seq<Message>)
    requires forall id :: id in updates ==> updates[id].id == id
    ensures forall m :: m in kept <==>
              || (m in messages && m.id !in requested)
              || (m.id in requested && m.id in updates && m == updates[m.id] && !m.deleted && exists x ::
                   x in messages && x.id == m.id)
  {
    if messages == [] then []
    else
      var last := messages[|messages| - 1];
      assert messages == messages[..|messages| - 1] + [last];
      Updated(messages[..|messages| - 1], requested, updates) +
      if last.id !in requested then [last]
      else if last.id in updates && !updates[last.id].deleted then [updates[last.id]]
      else []
  }

  function Refreshed(cache: Cache, room: string, requested: set<string>, updates: map<string, Message>): Cache
    requires forall id :: id in updates ==> updates[id].id == id
  {
    map key | key in cache ::
      if key.room == room then cache[key].(messages := Updated(cache[key].messages, requested, updates)) else cache[key]
  }

  method ReplaceRequested(messages: seq<Message>, requested: set<string>, updates: map<string, Message>)
    returns (kept: seq<Message>)
    requires forall id :: id in updates ==> updates[id].id == id
    ensures kept == Updated(messages, requested, updates)
  {
    kept := [];
    for i := 0 to |messages|
      invariant kept == Updated(messages[..i], requested, updates)
    {
      assert messages[..i + 1][..i] == messages[..i];
      var id := messages[i].id;
      if id !in requested {
        kept := kept + [messages[i]];
      } else if id in updates && !updates[id].deleted {
        kept := kept + [updates[id]];
      }
    }
    assert messages[..|messages|] == messages;
  }

  /** One reply of refreshMessageMetadata. */
  method ReplaceInRoom(cache: Cache, room: string, requested: set<string>, updates: map<string, Message>)
    returns (after: Cache)
    requires forall id :: id in updates ==> updates[id].id == id
    ensures after == Refreshed(cache, room, requested, updates)
  {
    after := cache;
    var rest := cache.Keys;
    while rest != {}
      invariant rest <= cache.Keys == after.Keys
      invariant forall key :: key in cache ==>
                                after[key] == if key in rest then cache[key]
                                  else Refreshed(cache, room, requested, updates)[key]
    {
      var key :| key in rest;
      rest := rest - {key};
      if key.room == room {
        var kept := ReplaceRequested(cache[key].messages, requested, updates);
        after := after[key := cache[key].(messages := kept)];
      }
    }
  }

  /** Refreshing never adds a message, so that it keeps coherence however old the reply is. */
  lemma RefreshedIsCoherent(truth: Truth, cache: Cache, room: string, requested: set<string>, updates: map<string,
                            Message>, next: nat)
    requires Coherent(truth, cache, next)
    requires forall id :: id in updates ==> updates[id].id == id
    ensures Coherent(truth, Refreshed(cache, room, requested, updates), next)
  {
    var after := Refreshed(cache, room, requested, updates);
    forall key, m | key in after && m in after[key].messages ensures Sound(truth, key.room, next, m) {
      if key.room == room && m !in cache[key].messages {
        var x :| x in cache[key].messages && x.id == m.id;
        assert Sound(truth, room, next, x);
      }
    }
  }
}
