/**
 What an archive's history asks of a server, operation by operation, before any batching and apart from any
 journal (cli/cmd/operator_import_history.go, cli/cmd/operator_import_messages.go).
 */
module ImportPlan {
  import opened EventStream
  import opened ImportServer
  import opened Sorting

  datatype Reaction = Reaction(emoji: string, users: seq<string>)

  datatype Change =
    | Introduce(message: string, author: string, text: Text, created: Option<string>, edited: Option<string>,
      deletedAt: Option<string>,
                thread: Option<string>, reply: Option<string>, reactions: seq<Reaction>, snapshot: bool)
    | Edited(message: string, text: Text)
    | Deleted(message: string)
    | Reacted(message: string, user: string, emoji: string, present: bool)
    | ThreadCreated(message: string)
    | Membership(user: string, joined: bool)
    | MembershipSnapshot(users: seq<string>)
    | RoomChanged(change: string)

  datatype Event = Event(id: string, room: string, actor: Option<string>, at: Option<string>, change: Change)

  /** The archive's events, and the accounts and rooms that its users and rooms have become. */
  datatype Source = Source(events: seq<Event>, users: string -> string, rooms: string -> string)

  datatype Pair = Pair(emoji: string, user: string)

  predicate PairLess(a: Pair, b: Pair) {
    Less(a.emoji, b.emoji) || (a.emoji == b.emoji && Less(a.user, b.user))
  }

  lemma PairLessIsATotalOrder()
    ensures TotalOrder(PairLess)
  {
    LessIsATotalOrder();
  }

  /** Reactions go out by emoji, and for one emoji by user. */
  lemma SortedByEmojiThenUser(pairs: set<Pair>, i: nat, j: nat)
    requires i < j < |SortedPairs(pairs)|
    ensures var a, b := SortedPairs(pairs)[i], SortedPairs(pairs)[j];
            a.emoji != b.emoji ==> Less(a.emoji, b.emoji)
    ensures var a, b := SortedPairs(pairs)[i], SortedPairs(pairs)[j];
            a.emoji == b.emoji ==> Less(a.user, b.user)
  {
    hide Less;
    PairLessIsATotalOrder();
    LessIsTotal(SortedPairs(pairs)[i].emoji, SortedPairs(pairs)[i].emoji);
  }

  // ------------------------------------------------------------------ reconciliation state

  datatype Track = Track(introduced: set<string>, reactions: map<string, set<Pair>>, members: map<string, set<string>>)

  function Tracked<T>(index: map<string, set<T>>, key: string): set<T> {
    if key in index then index[key] else {}
  }

  function FinalPairs(src: Source, reactions: seq<Reaction>): set<Pair> {
    set r, u | r in reactions && u in r.users :: Pair(r.emoji, src.users(u))
  }

  function FinalMembers(src: Source, users: seq<string>): set<string> {
    set u | u in users :: src.users(u)
  }

  function Next(src: Source, track: Track, e: Event): Track {
    match e.change
    case Introduce(message, _, _, _, _, _, _, _, reactions, snapshot) =>
      var now := if snapshot then FinalPairs(src, reactions) else Tracked(track.reactions, message);
      track.(introduced := track.introduced + {message}, reactions := track.reactions[message := now])
    case Reacted(message, user, emoji, present) =>
      var pair := Pair(emoji, src.users(user));
      var was := Tracked(track.reactions, message);
      track.(reactions := track.reactions[message := if present then was + {pair} else was - {pair}])
    case Membership(user, joined) =>
      var room := src.rooms(e.room);
      var was := Tracked(track.members, room);
      track.(members := track.members[room := if joined then was + {src.users(user)} else was - {src.users(user)}])
    case MembershipSnapshot(users) =>
      track.(members := track.members[src.rooms(e.room) := FinalMembers(src, users)])
    case _ => track
  }

  // ------------------------------------------------------------------ the operations of one event

  function StampOf(src: Source, e: Event): Stamp {
    Stamp(src.rooms(e.room), if e.actor.None? then "" else src.users(e.actor.value), e.at)
  }

  function PostOp(src: Source, e: Event): (op: Op)
    requires e.change.Introduce?
    ensures op.request.Post?
  {
    var c := e.change;
    Op(Key(e.id, PostPart), Some(c.message),
       Post(StampOf(src, e).(at := if c.snapshot then c.created else e.at), src.users(c.author), c.text,
            if c.text.deleted then None else c.edited, c.deletedAt, c.thread, c.reply))
  }

  function ContentOp(src: Source, e: Event): Op
    requires e.change.Introduce? || e.change.Edited?
  {
    var c := e.change;
    Op(Key(e.id, ContentPart), None,
       if c.text.deleted then Delete(StampOf(src, e).(at := if c.Introduce? then c.deletedAt else None), c.message)
       else Edit(StampOf(src, e).(at := if c.Introduce? && c.snapshot then c.edited else e.at), c.message, c.text))
  }

  function ReactOp(src: Source, e: Event, message: string, pair: Pair, present: bool, when: Option<string>): Op {
    Op(Key(e.id, ReactionPart(pair.emoji, pair.user)), None,
       React(StampOf(src, e).(at := when), message, pair.user, pair.emoji, present))
  }

  function MemberOp(src: Source, e: Event, user: string, present: bool, hidden: bool): Op {
    Op(Key(e.id, MemberPart(user)), None, Member(StampOf(src, e), user, present, hidden))
  }

  /** One reaction change for every listed pair that is not in `settled`. */
  function ReactOps(src: Source, e: Event, message: string, pairs: seq<Pair>, settled: set<Pair>,
                    present: bool): seq<Op> {
    if pairs == [] then []
    else
      var last := pairs[|pairs| - 1];
      ReactOps(src, e, message, pairs[..|pairs| - 1], settled, present)
      + if last in settled then [] else [ReactOp(src, e, message, last, present, None)]
  }

  function MemberOps(src: Source, e: Event, users: seq<string>, settled: set<string>, present: bool): seq<Op> {
    if users == [] then []
    else
      var last := users[|users| - 1];
      MemberOps(src, e, users[..|users| - 1], settled, present)
      + if last in settled then [] else [MemberOp(src, e, last, present, true)]
  }

  ghost function SortedPairs(pairs: set<Pair>): seq<Pair> {
    PairLessIsATotalOrder();
    Sorted(PairLess, pairs)
  }

  ghost function SortedUsers(users: set<string>): seq<string> {
    LessIsATotalOrder();
    Sorted(Less, users)
  }

  /** Remove what is tracked and not final, then add what is final and not tracked. */
  ghost function SnapshotOps(src: Source, e: Event, message: string, tracked: set<Pair>, final: set<Pair>): seq<Op> {
    ReactOps(src, e, message, SortedPairs(tracked), final, false) +
      ReactOps(src, e, message, SortedPairs(final), tracked, true)
  }

  ghost function MembershipOps(src: Source, e: Event, tracked: set<string>, final: set<string>): seq<Op> {
    MemberOps(src, e, SortedUsers(tracked), final, false) + MemberOps(src, e, SortedUsers(final), tracked, true)
  }

  ghost function OpsOf(src: Source, track: Track, e: Event): seq<Op> {
    match e.change
    case Introduce(message, _, _, _, _, _, _, _, reactions, snapshot) =>
      [if message in track.introduced then ContentOp(src, e) else PostOp(src, e)]
      + if snapshot then SnapshotOps(src, e, message, Tracked(track.reactions, message), FinalPairs(src, reactions))
        else []
    case Edited(_, _) => [ContentOp(src, e)]
    case Deleted(message) => [Op(Key(e.id, Whole), None, Delete(StampOf(src, e), message))]
    case Reacted(message, user, emoji,
      present) => [ReactOp(src, e, message, Pair(emoji, src.users(user)), present, e.at)]
    case ThreadCreated(message) => [Op(Key(e.id, Whole), None, Thread(StampOf(src, e), message))]
    case Membership(user, joined) => [MemberOp(src, e, src.users(user), joined, false)]
    case MembershipSnapshot(users) =>
      MembershipOps(src, e, Tracked(track.members, src.rooms(e.room)), FinalMembers(src, users))
    case RoomChanged(change) => [Op(Key(e.id, Whole), None, Room(StampOf(src, e), change))]
  }

  // ------------------------------------------------------------------ the whole history

  ghost function TrackAt(src: Source, n: nat): Track
    requires n <= |src.events|
  {
    if n == 0 then Track({}, map[], map[]) else Next(src, TrackAt(src, n - 1), src.events[n - 1])
  }

  ghost function OpsAt(src: Source, n: nat): seq<Op>
    requires n < |src.events|
  {
    OpsOf(src, TrackAt(src, n), src.events[n])
  }

  /** The operations of all events, one sequence an event. */
  ghost function Chunks(src: Source): seq<seq<Op>> {
    seq(|src.events|, n requires 0 <= n < |src.events| => OpsAt(src, n))
  }

  function Joined<T>(chunks: seq<seq<T>>, n: nat): seq<T>
    requires n <= |chunks|
  {
    if n == 0 then [] else Joined(chunks, n - 1) + chunks[n - 1]
  }

  ghost function Plan(src: Source): seq<Op> {
    Joined(Chunks(src), |src.events|)
  }

  /** Where in the plan the operations of event `n` begin. */
  ghost function At(src: Source, n: nat): nat
    requires n <= |src.events|
  {
    |Joined(Chunks(src), n)|
  }

  ghost predicate RefersBack(track: Track, ref: Option<string>) {
    ref.Some? ==> ref.value in track.introduced
  }

  /** What the archive's validation guarantees about one event (cli/internal/interchange/validate.go). */
  ghost predicate EventOk(track: Track, e: Event) {
    match e.change
    case Introduce(message, _, _, _, _, _, thread, reply, reactions, snapshot) =>
      && RefersBack(track, thread) && RefersBack(track, reply)
      && (!snapshot ==> reactions == [] && message !in track.introduced)
    case Edited(message, _) => message in track.introduced
    case Deleted(message) => message in track.introduced
    case Reacted(message, _, _, _) => message in track.introduced
    case ThreadCreated(message) => message in track.introduced
    case _ => true
  }

  ghost predicate Valid(src: Source) {
    && (forall i, j :: 0 <= i < j < |src.events| ==> src.events[i].id != src.events[j].id)
    && (forall i :: 0 <= i < |src.events| ==> EventOk(TrackAt(src, i), src.events[i]))
  }

  lemma {:induction false} JoinedGrows<T>(chunks: seq<seq<T>>, n: nat, m: nat)
    requires n <= m <= |chunks|
    ensures Joined(chunks, n) <= Joined(chunks, m)
    decreases m
  {
    if n < m {
      JoinedGrows(chunks, n, m - 1);
    }
  }

  lemma ChunkInJoined<T>(chunks: seq<seq<T>>, n: nat)
    requires n < |chunks|
    ensures var whole, at := Joined(chunks, |chunks|), |Joined(chunks, n)|;
            && at + |chunks[n]| == |Joined(chunks, n + 1)| <= |whole|
            && forall j :: 0 <= j < |chunks[n]| ==> whole[at + j] == chunks[n][j]
  {
    JoinedGrows(chunks, n + 1, |chunks|);
    var at := |Joined(chunks, n)|;
    forall j | 0 <= j < |chunks[n]| ensures Joined(chunks, |chunks|)[at + j] == chunks[n][j] {
      assert Joined(chunks, n + 1)[at + j] == chunks[n][j];
    }
  }

  /** The operations of event `n` stand in the plan where the plan up to `n` ends. */
  lemma OpsInPlan(src: Source, n: nat)
    requires n < |src.events|
    ensures At(src, n) + |OpsAt(src, n)| == At(src, n + 1) <= |Plan(src)|
    ensures forall j :: 0 <= j < |OpsAt(src, n)| ==> Plan(src)[At(src, n) + j] == OpsAt(src, n)[j]
  {
    hide OpsAt, Joined;
    var chunks := Chunks(src);
    ChunkInJoined(chunks, n);
    assert chunks[n] == OpsAt(src, n);
  }

  /** Nothing is tracked of a message before it is introduced. */
  lemma {:induction false} UntrackedBefore(src: Source, n: nat, message: string)
    requires Valid(src) && n <= |src.events| && message !in TrackAt(src, n).introduced
    ensures Tracked(TrackAt(src, n).reactions, message) == {}
  {
    hide Valid, EventOk, Next, Tracked;
    if n == 0 {
      NothingTracked(message);
    } else {
      ValidEvent(src, n - 1);
      StillUntracked(src, TrackAt(src, n - 1), src.events[n - 1], message);
      if message !in TrackAt(src, n - 1).introduced {
        UntrackedBefore(src, n - 1, message);
      }
    }
  }

  lemma NothingTracked(key: string)
    ensures Tracked<Pair>(map[], key) == {}
  {
  }

  lemma ValidEvent(src: Source, n: nat)
    requires Valid(src) && n < |src.events|
    ensures EventOk(TrackAt(src, n), src.events[n])
  {
  }

  lemma StillUntracked(src: Source, track: Track, e: Event, message: string)
    requires EventOk(track, e)
    ensures message in track.introduced ==> message in Next(src, track, e).introduced
    ensures message !in Next(src, track, e).introduced ==>
              Tracked(Next(src, track, e).reactions, message) == Tracked(track.reactions, message)
  {
  }

  // ------------------------------------------------------------------ reconciliation, pair by pair

  /** Where the operation for the `i`-th pair stands, if it has one. */
  lemma {:induction false} ReactOpsAt(src: Source, e: Event, message: string, pairs: seq<Pair>, settled: set<Pair>,
                                      present: bool, i: nat)
    requires i < |pairs|
    ensures var ops := ReactOps(src, e, message, pairs, settled, present);
            var k := |ReactOps(src, e, message, pairs[..i], settled, present)|;
            var k' := |ReactOps(src, e, message, pairs[..i + 1], settled, present)|;
            && k' <= |ops|
            && (if pairs[i] in settled then k' == k
                 else k' == k + 1 && ops[k] == ReactOp(src, e, message, pairs[i], present, None))
  {
    var n := |pairs| - 1;
    if i < n {
      ReactOpsAt(src, e, message, pairs[..n], settled, present, i);
      assert pairs[..n][..i] == pairs[..i] && pairs[..n][..i + 1] == pairs[..i + 1];
    } else {
      assert pairs[..i + 1] == pairs && pairs[..i + 1][..i] == pairs[..i];
    }
  }

  lemma {:induction false} MemberOpsAt(src: Source, e: Event, users: seq<string>, settled: set<string>, present: bool,
                                       i: nat)
    requires i < |users|
    ensures var ops := MemberOps(src, e, users, settled, present);
            var k := |MemberOps(src, e, users[..i], settled, present)|;
            var k' := |MemberOps(src, e, users[..i + 1], settled, present)|;
            && k' <= |ops|
            && (if users[i] in settled then k' == k
                 else k' == k + 1 && ops[k] == MemberOp(src, e, users[i], present, true))
  {
    var n := |users| - 1;
    if i < n {
      MemberOpsAt(src, e, users[..n], settled, present, i);
      assert users[..n][..i] == users[..i] && users[..n][..i + 1] == users[..i + 1];
    } else {
      assert users[..i + 1] == users && users[..i + 1][..i] == users[..i];
    }
  }

  /** Only the listed pairs matter. */
  lemma {:induction false} ReactOpsSettled(src: Source, e: Event, message: string, pairs: seq<Pair>, s: set<Pair>,
                                           t: set<Pair>, present: bool)
    requires forall p :: p in pairs ==> (p in s <==> p in t)
    ensures ReactOps(src, e, message, pairs, s, present) == ReactOps(src, e, message, pairs, t, present)
  {
    if pairs != [] {
      ReactOpsSettled(src, e, message, pairs[..|pairs| - 1], s, t, present);
      assert pairs[|pairs| - 1] in pairs;
    }
  }

  lemma {:induction false} MemberOpsSettled(src: Source, e: Event, users: seq<string>, s: set<string>, t: set<string>,
                                            present: bool)
    requires forall u :: u in users ==> (u in s <==> u in t)
    ensures MemberOps(src, e, users, s, present) == MemberOps(src, e, users, t, present)
  {
    if users != [] {
      MemberOpsSettled(src, e, users[..|users| - 1], s, t, present);
      assert users[|users| - 1] in users;
    }
  }

  // ------------------------------------------------------------------ every operation has its own key

  lemma {:induction false} ReactOpKeys(src: Source, e: Event, message: string, pairs: seq<Pair>, settled: set<Pair>,
                                       present: bool, i: nat)
    requires i < |ReactOps(src, e, message, pairs, settled, present)|
    ensures var op := ReactOps(src, e, message, pairs, settled, present)[i];
            && op.introduces.None? && op.key.event == e.id && op.key.part.ReactionPart?
            && Pair(op.key.part.emoji, op.key.part.user) in pairs
                 && Pair(op.key.part.emoji, op.key.part.user) !in settled
  {
    var n := |pairs| - 1;
    if i < |ReactOps(src, e, message, pairs[..n], settled, present)| {
      ReactOpKeys(src, e, message, pairs[..n], settled, present, i);
    }
  }

  lemma {:induction false} ReactOpsDistinct(src: Source, e: Event, message: string, pairs: seq<Pair>,
                                            settled: set<Pair>, present: bool)
    requires Ascending(PairLess, pairs)
    ensures DistinctKeys(ReactOps(src, e, message, pairs, settled, present))
  {
    if pairs != [] {
      var n := |pairs| - 1;
      ReactOpsDistinct(src, e, message, pairs[..n], settled, present);
      PairLessIsATotalOrder();
      var before := ReactOps(src, e, message, pairs[..n], settled, present);
      forall i | 0 <= i < |before| ensures before[i].key != Key(e.id, ReactionPart(pairs[n].emoji, pairs[n].user)) {
        ReactOpKeys(src, e, message, pairs[..n], settled, present, i);
      }
    }
  }

  lemma {:induction false} MemberOpKeys(src: Source, e: Event, users: seq<string>, settled: set<string>, present: bool,
                                        i: nat)
    requires i < |MemberOps(src, e, users, settled, present)|
    ensures var op := MemberOps(src, e, users, settled, present)[i];
            && op.introduces.None? && op.key.event == e.id && op.key.part.MemberPart?
            && op.key.part.user in users && op.key.part.user !in settled
  {
    var n := |users| - 1;
    if i < |MemberOps(src, e, users[..n], settled, present)| {
      MemberOpKeys(src, e, users[..n], settled, present, i);
    }
  }

  lemma {:induction false} MemberOpsDistinct(src: Source, e: Event, users: seq<string>, settled: set<string>,
                                             present: bool)
    requires Ascending(Less, users)
    ensures DistinctKeys(MemberOps(src, e, users, settled, present))
  {
    if users != [] {
      var n := |users| - 1;
      MemberOpsDistinct(src, e, users[..n], settled, present);
      LessIsATotalOrder();
      var before := MemberOps(src, e, users[..n], settled, present);
      forall i | 0 <= i < |before| ensures before[i].key != Key(e.id, MemberPart(users[n])) {
        MemberOpKeys(src, e, users[..n], settled, present, i);
      }
    }
  }

  lemma SnapshotOpsDistinct(src: Source, e: Event, message: string, tracked: set<Pair>, final: set<Pair>)
    ensures DistinctKeys(SnapshotOps(src, e, message, tracked, final))
    ensures forall i :: 0 <= i < |SnapshotOps(src, e, message, tracked, final)| ==>
              var op := SnapshotOps(src, e, message, tracked, final)[i];
              op.introduces.None? && op.key.event == e.id && op.key.part.ReactionPart?
  {
    PairLessIsATotalOrder();
    var gone := ReactOps(src, e, message, SortedPairs(tracked), final, false);
    var new_ := ReactOps(src, e, message, SortedPairs(final), tracked, true);
    ReactOpsDistinct(src, e, message, SortedPairs(tracked), final, false);
    ReactOpsDistinct(src, e, message, SortedPairs(final), tracked, true);
    forall i | 0 <= i < |gone|
      ensures gone[i].introduces.None? && gone[i].key.event == e.id && gone[i].key.part.ReactionPart?
      ensures Pair(gone[i].key.part.emoji, gone[i].key.part.user) !in final
    {
      ReactOpKeys(src, e, message, SortedPairs(tracked), final, false, i);
    }
    forall i | 0 <= i < |new_|
      ensures new_[i].introduces.None? && new_[i].key.event == e.id && new_[i].key.part.ReactionPart?
      ensures Pair(new_[i].key.part.emoji, new_[i].key.part.user) in final
    {
      ReactOpKeys(src, e, message, SortedPairs(final), tracked, true, i);
    }
  }

  lemma MembershipOpsDistinct(src: Source, e: Event, tracked: set<string>, final: set<string>)
    ensures var ops := MembershipOps(src, e, tracked, final);
            DistinctKeys(ops) && forall i :: 0 <= i < |ops| ==> ops[i].introduces.None? && ops[i].key.event == e.id
  {
    LessIsATotalOrder();
    var gone := MemberOps(src, e, SortedUsers(tracked), final, false);
    var new_ := MemberOps(src, e, SortedUsers(final), tracked, true);
    MemberOpsDistinct(src, e, SortedUsers(tracked), final, false);
    MemberOpsDistinct(src, e, SortedUsers(final), tracked, true);
    forall i | 0 <= i < |gone|
      ensures gone[i].introduces.None? && gone[i].key.event == e.id && gone[i].key.part.MemberPart?
      ensures gone[i].key.part.user !in final
    {
      MemberOpKeys(src, e, SortedUsers(tracked), final, false, i);
    }
    forall i | 0 <= i < |new_|
      ensures new_[i].introduces.None? && new_[i].key.event == e.id && new_[i].key.part.MemberPart?
      ensures new_[i].key.part.user in final
    {
      MemberOpKeys(src, e, SortedUsers(final), tracked, true, i);
    }
  }

  /** Within an event: keys differ, carry the event's identifier, and only a first introduction names a message. */
  lemma OpsOfEvent(src: Source, track: Track, e: Event)
    ensures DistinctKeys(OpsOf(src, track, e))
    ensures forall i :: 0 <= i < |OpsOf(src, track, e)| ==> OpsOf(src, track, e)[i].key.event == e.id
    ensures forall i :: 0 <= i < |OpsOf(src, track, e)| ==>
              (OpsOf(src, track, e)[i].introduces.Some? <==>
                i == 0 && e.change.Introduce? && e.change.message !in track.introduced)
  {
    match e.change
    case Introduce(message, _, _, _, _, _, _, _, reactions, snapshot) =>
      SnapshotOpsDistinct(src, e, message, Tracked(track.reactions, message), FinalPairs(src, reactions));
    case MembershipSnapshot(users) =>
      MembershipOpsDistinct(src, e, Tracked(track.members, src.rooms(e.room)), FinalMembers(src, users));
    case _ =>
  }

  /** Chunks with distinct keys whose keys name different events join to a plan with distinct keys. */
  lemma {:induction false} JoinedKeys(chunks: seq<seq<Op>>, ids: seq<string>, n: nat)
    requires n <= |chunks| == |ids| && forall i, j :: 0 <= i < j < |ids| ==> ids[i] != ids[j]
    requires forall i :: 0 <= i < |chunks| ==> DistinctKeys(chunks[i])
    requires forall i, j :: 0 <= i < |chunks| && 0 <= j < |chunks[i]| ==> chunks[i][j].key.event == ids[i]
    ensures DistinctKeys(Joined(chunks, n))
    ensures forall i :: 0 <= i < |Joined(chunks, n)| ==> Joined(chunks, n)[i].key.event in ids[..n]
  {
    if n > 0 {
      JoinedKeys(chunks, ids, n - 1);
      var before := Joined(chunks, n - 1);
      assert ids[..n] == ids[..n - 1] + [ids[n - 1]];
      assert ids[n - 1] !in ids[..n - 1];
    }
  }

  lemma PlanKeys(src: Source)
    requires Valid(src)
    ensures DistinctKeys(Plan(src))
  {
    var ids := seq(|src.events|, n requires 0 <= n < |src.events| => src.events[n].id);
    forall n | 0 <= n < |src.events|
      ensures DistinctKeys(Chunks(src)[n]) && forall j :: 0 <= j < |Chunks(src)[n]| ==>
                Chunks(src)[n][j].key.event == ids[n]
    {
      OpsOfEvent(src, TrackAt(src, n), src.events[n]);
    }
    JoinedKeys(Chunks(src), ids, |src.events|);
  }

  // ------------------------------------------------------------------ a first introduction

  /** How many reactors an event lists; the importer's bound on one batch counts these. */
  function CountOf(reactions: seq<Reaction>): nat {
    if reactions == [] then 0 else CountOf(reactions[..|reactions| - 1]) + |reactions[|reactions| - 1].users|
  }

  function PairsOf(src: Source, emoji: string, users: seq<string>): set<Pair> {
    set u | u in users :: Pair(emoji, src.users(u))
  }

  lemma {:induction false} PairsOfBound(src: Source, emoji: string, users: seq<string>)
    ensures |PairsOf(src, emoji, users)| <= |users|
  {
    if users == [] {
      assert PairsOf(src, emoji, users) == {};
    } else {
      var n := |users| - 1;
      PairsOfBound(src, emoji, users[..n]);
      assert users == users[..n] + [users[n]];
      assert PairsOf(src, emoji, users) == PairsOf(src, emoji, users[..n]) + {Pair(emoji, src.users(users[n]))};
    }
  }

  /** Counting reactors never counts too few: merged accounts can only make the set smaller. */
  lemma {:induction false} FinalPairsBound(src: Source, reactions: seq<Reaction>)
    ensures |FinalPairs(src, reactions)| <= CountOf(reactions)
  {
    if reactions == [] {
      assert FinalPairs(src, reactions) == {};
    } else {
      var n := |reactions| - 1;
      FinalPairsBound(src, reactions[..n]);
      PairsOfBound(src, reactions[n].emoji, reactions[n].users);
      assert reactions == reactions[..n] + [reactions[n]];
      assert FinalPairs(src, reactions) == FinalPairs(src, reactions[..n]) +
        PairsOf(src, reactions[n].emoji, reactions[n].users);
    }
  }

  lemma {:induction false} ListingLength<T(!new)>(less: (T, T) -> bool, s: seq<T>, keys: set<T>)
    requires TotalOrder(less) && Ascending(less, s) && Lists(s, keys)
    ensures |s| == |keys|
    decreases |s|
  {
    if s == [] {
      assert keys == {};
    } else {
      var n := |s| - 1;
      assert s == s[..n] + [s[n]];
      ListingLength(less, s[..n], keys - {s[n]});
    }
  }

  lemma {:induction false} ReactOpsAll(src: Source, e: Event, message: string, pairs: seq<Pair>, present: bool)
    ensures var ops := ReactOps(src, e, message, pairs, {}, present);
            |ops| == |pairs| && forall r :: 0 <= r < |pairs| ==>
              ops[r] == ReactOp(src, e, message, pairs[r], present, None)
  {
    if pairs != [] {
      ReactOpsAll(src, e, message, pairs[..|pairs| - 1], present);
    }
  }

  /** The operations of an event that introduces a message. */
  ghost predicate PostsAll(src: Source, e: Event, ops: seq<Op>)
    requires e.change.Introduce?
  {
    var pairs := SortedPairs(FinalPairs(src, e.change.reactions));
    && |ops| == 1 + |pairs| && ops[0] == PostOp(src, e)
    && forall r :: 0 <= r < |pairs| ==> ops[1 + r] == ReactOp(src, e, e.change.message, pairs[r], true, None)
  }

  lemma FirstOps(src: Source, track: Track, e: Event)
    requires EventOk(track, e) && e.change.Introduce? && e.change.message !in track.introduced
    requires Tracked(track.reactions, e.change.message) == {}
    ensures PostsAll(src, e, OpsOf(src, track, e))
  {
    hide FinalPairs, SortedPairs, Tracked, ReactOp, PostOp;
    ReactOpsAll(src, e, e.change.message, SortedPairs(FinalPairs(src, e.change.reactions)), true);
    NothingToSort(src);
  }

  /** A message's first event: the post, then one addition for every final reaction, in sorted order. */
  lemma IntroductionOps(src: Source, n: nat)
    requires Valid(src) && n < |src.events| && src.events[n].change.Introduce?
    requires src.events[n].change.message !in TrackAt(src, n).introduced
    ensures PostsAll(src, src.events[n], OpsOf(src, TrackAt(src, n), src.events[n]))
  {
    hide OpsOf, PostsAll, TrackAt, EventOk, Tracked;
    UntrackedBefore(src, n, src.events[n].change.message);
    ValidEvent(src, n);
    FirstOps(src, TrackAt(src, n), src.events[n]);
  }

  lemma NothingToSort(src: Source)
    ensures FinalPairs(src, []) == {} && SortedPairs({}) == []
  {
    PairLessIsATotalOrder();
    ListingLength(PairLess, SortedPairs({}), {});
  }

  predicate Introduces(track: Track, e: Event) {
    e.change.Introduce? && e.change.message !in track.introduced
  }

  /** Of an event's operations only the first can introduce a message. */
  lemma EventIntroduces(src: Source, n: nat)
    requires n < |src.events|
    ensures At(src, n) <= At(src, n + 1) <= |Plan(src)|
    ensures var new_ := Introduces(TrackAt(src, n), src.events[n]);
            && (new_ ==>
                  At(src, n) < At(src, n + 1) && Plan(src)[At(src, n)].introduces == Some(src.events[n].change.message))
            && forall t :: At(src, n) <= t < At(src, n + 1) && (t > At(src, n) || !new_) ==>
                 Plan(src)[t].introduces.None?
  {
    hide OpsOf, TrackAt, Joined;
    var track, e := TrackAt(src, n), src.events[n];
    OpsInPlan(src, n);
    OpsOfEvent(src, track, e);
    FirstOpIntroduces(src, track, e);
    var ops := OpsAt(src, n);
    var lo := At(src, n);
    var plan := Plan(src);
    forall t | lo <= t < At(src, n + 1) ensures plan[t] == ops[t - lo] {
      assert plan[lo + (t - lo)] == ops[t - lo];
    }
  }

  lemma FirstOpIntroduces(src: Source, track: Track, e: Event)
    ensures Introduces(track, e) ==>
              |OpsOf(src, track, e)| > 0 && OpsOf(src, track, e)[0].introduces == Some(e.change.message)
  {
  }

  lemma KnownAcross<S>(backend: Backend<S>, plan: seq<Op>, lo: nat, hi: nat, name: Option<string>)
    requires lo <= hi <= |plan| && (name.Some? ==> lo < hi && plan[lo].introduces == name)
    requires forall t :: lo <= t < hi && (t > lo || name.None?) ==> plan[t].introduces.None?
    ensures After(backend, plan, hi).known ==
            if name.Some? then After(backend, plan, lo).known[name.value := Result(backend, plan, lo)]
            else After(backend, plan, lo).known
  {
    NothingIntroduced(backend, plan, if name.Some? then lo + 1 else lo, hi);
  }

  /** Across one event the known messages grow by the one it introduces, if it introduces one. */
  lemma KnownAfterEvent<S>(backend: Backend<S>, src: Source, plan: seq<Op>, n: nat)
    requires n < |src.events| && plan == Plan(src)
    ensures At(src, n) <= At(src, n + 1) <= |plan|
    ensures Introduces(TrackAt(src, n), src.events[n]) ==>
              At(src, n) < At(src, n + 1) && plan[At(src, n)].introduces == Some(src.events[n].change.message)
    ensures After(backend, plan, At(src, n + 1)).known ==
            if Introduces(TrackAt(src, n), src.events[n])
            then After(backend, plan,
              At(src, n)).known[src.events[n].change.message := Result(backend, plan, At(src, n))]
            else After(backend, plan, At(src, n)).known
  {
    EventIntroduces(src, n);
    KnownAcross(backend, plan, At(src, n), At(src, n + 1),
                if Introduces(TrackAt(src, n), src.events[n]) then Some(src.events[n].change.message) else None);
  }

  ghost predicate KnownMatches<S>(backend: Backend<S>, src: Source, plan: seq<Op>, n: nat, name: string)
    requires n <= |src.events|
  {
    At(src, n) <= |plan| && (name in After(backend, plan, At(src, n)).known <==> name in TrackAt(src, n).introduced)
  }

  /** The plan knows a message exactly from its first event on. */
  lemma {:induction false} KnownIsIntroduced<S>(backend: Backend<S>, src: Source, plan: seq<Op>, n: nat, name: string)
    requires n <= |src.events| && plan == Plan(src)
    ensures KnownMatches(backend, src, plan, n, name)
    decreases n
  {
    hide KnownMatches;
    if n == 0 {
      NothingKnownFirst(backend, src, plan, name);
    } else {
      KnownIsIntroduced(backend, src, plan, n - 1, name);
      KnownStep(backend, src, plan, n - 1, name);
    }
  }

  lemma NothingKnownFirst<S>(backend: Backend<S>, src: Source, plan: seq<Op>, name: string)
    ensures KnownMatches(backend, src, plan, 0, name)
  {
  }

  lemma KnownStep<S>(backend: Backend<S>, src: Source, plan: seq<Op>, n: nat, name: string)
    requires n < |src.events| && plan == Plan(src) && KnownMatches(backend, src, plan, n, name)
    ensures KnownMatches(backend, src, plan, n + 1, name)
  {
    KnownAfterEvent(backend, src, plan, n);
    IntroducedNext(src, n, name);
  }

  lemma IntroducedNext(src: Source, n: nat, name: string)
    requires n < |src.events|
    ensures name in TrackAt(src, n + 1).introduced <==>
            name in TrackAt(src, n).introduced
              || (src.events[n].change.Introduce? && src.events[n].change.message == name)
  {
  }
}
