/**
 What an import asks for, read off the requests themselves: the last thing that is said to the server about a
 membership or a reaction is the last thing that the archive says about it, and every request has the room, the
 actor, the target and the content of its event (cli/cmd/operator_import_history.go, lines 151-300).
 */
module ImportMeaning {
  import opened EventStream
  import opened ImportServer
  import opened ImportPlan
  import opened Sorting

  // ------------------------------------------------------------------ what the archive says

  /** Whether the first `n` events leave this account in this room. */
  ghost predicate SaidMember(src: Source, n: nat, room: string, user: string)
    requires n <= |src.events|
  {
    n > 0 &&
    var e := src.events[n - 1];
    match e.change
    case Membership(u, joined) =>
      if src.rooms(e.room) == room && src.users(u) == user then joined else SaidMember(src, n - 1, room, user)
    case MembershipSnapshot(users) =>
      if src.rooms(e.room) == room then exists u :: u in users && src.users(u) == user
      else SaidMember(src, n - 1, room, user)
    case _ => SaidMember(src, n - 1, room, user)
  }

  ghost predicate Lists(src: Source, reactions: seq<Reaction>, emoji: string, user: string) {
    exists r, u :: r in reactions && u in r.users && r.emoji == emoji && src.users(u) == user
  }

  /** Whether the first `n` events leave this reaction of this account on the message. */
  ghost predicate SaidReacted(src: Source, n: nat, message: string, user: string, emoji: string)
    requires n <= |src.events|
  {
    n > 0 &&
    match src.events[n - 1].change
    case Reacted(m, u, e, present) =>
      if m == message && src.users(u) == user && e == emoji then present
      else SaidReacted(src, n - 1, message, user, emoji)
    case Introduce(m, _, _, _, _, _, _, _, reactions, snapshot) =>
      if m == message && snapshot then Lists(src, reactions, emoji, user)
      else SaidReacted(src, n - 1, message, user, emoji)
    case _ => SaidReacted(src, n - 1, message, user, emoji)
  }

  // ------------------------------------------------------------------ what the server is told

  /** What the last request about this account in this room asks for, if there is one. */
  function LastMember(ops: seq<Op>, room: string, user: string): Option<bool> {
    if ops == [] then None
    else
      match ops[|ops| - 1].request
      case Member(stamp, u, present, _) =>
        if stamp.room == room && u == user then Some(present) else LastMember(ops[..|ops| - 1], room, user)
      case _ => LastMember(ops[..|ops| - 1], room, user)
  }

  /** What the last request about this reaction on the message asks for, if there is one. */
  function LastReact(ops: seq<Op>, message: string, user: string, emoji: string): Option<bool> {
    if ops == [] then None
    else
      match ops[|ops| - 1].request
      case React(_, target, u, e, present) =>
        if target == message && u == user && e == emoji then Some(present)
        else LastReact(ops[..|ops| - 1], message, user, emoji)
      case _ => LastReact(ops[..|ops| - 1], message, user, emoji)
  }

  lemma {:induction false} LastMemberOfTwo(a: seq<Op>, b: seq<Op>, room: string, user: string)
    ensures LastMember(a + b, room, user) ==
            if LastMember(b, room, user).Some? then LastMember(b, room, user) else LastMember(a, room, user)
  {
    if b == [] {
      assert a + b == a;
    } else {
      assert (a + b)[..|a + b| - 1] == a + b[..|b| - 1];
      LastMemberOfTwo(a, b[..|b| - 1], room, user);
    }
  }

  lemma {:induction false} LastReactOfTwo(a: seq<Op>, b: seq<Op>, message: string, user: string, emoji: string)
    ensures LastReact(a + b, message, user, emoji) ==
            if LastReact(b, message, user, emoji).Some? then LastReact(b, message, user, emoji)
            else LastReact(a, message, user, emoji)
  {
    if b == [] {
      assert a + b == a;
    } else {
      assert (a + b)[..|a + b| - 1] == a + b[..|b| - 1];
      LastReactOfTwo(a, b[..|b| - 1], message, user, emoji);
    }
  }

  // ------------------------------------------------------------------ memberships

  lemma {:induction false} LastOfMemberOps(src: Source, e: Event, users: seq<string>, settled: set<string>,
                                           present: bool, room: string, user: string)
    ensures LastMember(MemberOps(src, e, users, settled, present), room, user) ==
            if room == src.rooms(e.room) && user in users && user !in settled then Some(present) else None
  {
    hide LastMember, MemberOp;
    LastOfOneMember(src, e, user, present, room, user);
    if users != [] {
      var n := |users| - 1;
      LastOfMemberOps(src, e, users[..n], settled, present, room, user);
      var more := if users[n] in settled then [] else [MemberOp(src, e, users[n], present, true)];
      LastMemberOfTwo(MemberOps(src, e, users[..n], settled, present), more, room, user);
      LastOfOneMember(src, e, users[n], present, room, user);
      OneMoreIn(users, user);
    }
  }

  lemma OneMoreIn<T>(s: seq<T>, x: T)
    requires s != []
    ensures x in s <==> x in s[..|s| - 1] || x == s[|s| - 1]
  {
  }

  lemma LastOfOneMember(src: Source, e: Event, u: string, present: bool, room: string, user: string)
    ensures LastMember([MemberOp(src, e, u, present, true)], room, user) ==
            if room == src.rooms(e.room) && u == user then Some(present) else None
    ensures LastMember([], room, user).None?
  {
    assert [MemberOp(src, e, u, present, true)][..0] == [];
  }

  lemma {:induction false} NoMembers(ops: seq<Op>, room: string, user: string)
    requires forall i :: 0 <= i < |ops| ==> !ops[i].request.Member?
    ensures LastMember(ops, room, user).None?
  {
    if ops != [] {
      NoMembers(ops[..|ops| - 1], room, user);
    }
  }

  lemma {:induction false} ReactOpsReact(src: Source, e: Event, message: string, pairs: seq<Pair>, settled: set<Pair>,
                                         present: bool)
    ensures forall i :: 0 <= i < |ReactOps(src, e, message, pairs, settled, present)| ==>
              ReactOps(src, e, message, pairs, settled, present)[i].request.React?
  {
    if pairs != [] {
      ReactOpsReact(src, e, message, pairs[..|pairs| - 1], settled, present);
    }
  }

  lemma {:induction false} MemberOpsMember(src: Source, e: Event, users: seq<string>, settled: set<string>,
                                           present: bool)
    ensures forall i :: 0 <= i < |MemberOps(src, e, users, settled, present)| ==>
              MemberOps(src, e, users, settled, present)[i].request.Member?
  {
    if users != [] {
      MemberOpsMember(src, e, users[..|users| - 1], settled, present);
    }
  }

  lemma LastOfMembershipOps(src: Source, e: Event, tracked: set<string>, final: set<string>, room: string, user: string)
    ensures LastMember(MembershipOps(src, e, tracked, final), room, user) ==
            if room != src.rooms(e.room) || (user in tracked <==> user in final) then None else Some(user in final)
  {
    LessIsATotalOrder();
    LastOfMemberOps(src, e, SortedUsers(tracked), final, false, room, user);
    LastOfMemberOps(src, e, SortedUsers(final), tracked, true, room, user);
    LastMemberOfTwo(MemberOps(src, e, SortedUsers(tracked), final, false),
                    MemberOps(src, e, SortedUsers(final), tracked, true), room, user);
  }

  lemma SnapshotOpsReact(src: Source, e: Event, message: string, tracked: set<Pair>, final: set<Pair>)
    ensures forall i :: 0 <= i < |SnapshotOps(src, e, message, tracked, final)| ==>
              SnapshotOps(src, e, message, tracked, final)[i].request.React?
  {
    ReactOpsReact(src, e, message, SortedPairs(tracked), final, false);
    ReactOpsReact(src, e, message, SortedPairs(final), tracked, true);
  }

  /** What one event tells the server about an account in a room. */
  lemma MemberAfterEvent(src: Source, track: Track, e: Event, room: string, user: string)
    ensures var said := LastMember(OpsOf(src, track, e), room, user);
            var before, after := Tracked(track.members, room), Tracked(Next(src, track, e).members, room);
            user in after <==> if said.Some? then said.value else user in before
  {
    hide MembershipOps, SnapshotOps, FinalMembers, FinalPairs;
    var ops := OpsOf(src, track, e);
    match e.change
    case MembershipSnapshot(users) =>
      LastOfMembershipOps(src, e, Tracked(track.members, src.rooms(e.room)), FinalMembers(src, users), room, user);
    case Membership(u, joined) =>
      assert ops[..0] == [];
    case Introduce(m, _, _, _, _, _, _, _, reactions, snapshot) =>
      SnapshotOpsReact(src, e, m, Tracked(track.reactions, m), FinalPairs(src, reactions));
      NoMembers(ops, room, user);
    case _ =>
      NoMembers(ops, room, user);
  }

  lemma SaidMemberNext(src: Source, n: nat, room: string, user: string)
    requires n < |src.events|
    requires SaidMember(src, n, room, user) <==> user in Tracked(TrackAt(src, n).members, room)
    ensures SaidMember(src, n + 1, room, user) <==> user in Tracked(TrackAt(src, n + 1).members, room)
  {
  }

  /**
   The last request about an account in a room says "member" exactly when the archive does, which is what the
   importer tracks.
   */
  lemma {:induction false} MembersAsSaid(src: Source, n: nat, room: string, user: string)
    requires n <= |src.events|
    ensures At(src, n) <= |Plan(src)|
    ensures LastMember(Plan(src)[..At(src, n)], room, user) == Some(true) <==> SaidMember(src, n, room, user)
    ensures user in Tracked(TrackAt(src, n).members, room) <==> SaidMember(src, n, room, user)
    decreases n
  {
    hide Tracked, OpsOf, LastMember, SaidMember;
    PlanFront(src, n);
    if n == 0 {
      NothingSaid(src, room, user);
    } else {
      MembersAsSaid(src, n - 1, room, user);
      PlanFront(src, n - 1);
      LastMemberOfTwo(Joined(Chunks(src), n - 1), OpsAt(src, n - 1), room, user);
      MemberAfterEvent(src, TrackAt(src, n - 1), src.events[n - 1], room, user);
      SaidMemberNext(src, n - 1, room, user);
    }
  }

  lemma NothingSaid(src: Source, room: string, user: string)
    ensures LastMember([], room, user).None? && !SaidMember(src, 0, room, user)
    ensures Tracked(TrackAt(src, 0).members, room) == {}
  {
  }

  /** The plan up to event `n` is what the events in front of it ask for. */
  lemma PlanFront(src: Source, n: nat)
    requires n <= |src.events|
    ensures At(src, n) <= |Plan(src)| && Plan(src)[..At(src, n)] == Joined(Chunks(src), n)
    ensures n > 0 ==> Joined(Chunks(src), n) == Joined(Chunks(src), n - 1) + OpsAt(src, n - 1)
  {
    hide OpsAt;
    JoinedGrows(Chunks(src), n, |src.events|);
    if n > 0 {
      assert Chunks(src)[n - 1] == OpsAt(src, n - 1);
    }
  }

  // ------------------------------------------------------------------ reactions

  lemma {:induction false} LastOfReactOps(src: Source, e: Event, m: string, pairs: seq<Pair>, settled: set<Pair>,
                                          present: bool, message: string, user: string, emoji: string)
    ensures LastReact(ReactOps(src, e, m, pairs, settled, present), message, user, emoji) ==
            if m == message && Pair(emoji, user) in pairs && Pair(emoji, user) !in settled then Some(present) else None
  {
    hide LastReact, ReactOp;
    LastOfOneReact(src, e, m, Pair(emoji, user), present, message, user, emoji);
    if pairs != [] {
      var n := |pairs| - 1;
      LastOfReactOps(src, e, m, pairs[..n], settled, present, message, user, emoji);
      var more := if pairs[n] in settled then [] else [ReactOp(src, e, m, pairs[n], present, None)];
      LastReactOfTwo(ReactOps(src, e, m, pairs[..n], settled, present), more, message, user, emoji);
      LastOfOneReact(src, e, m, pairs[n], present, message, user, emoji);
      OneMoreIn(pairs, Pair(emoji, user));
    }
  }

  lemma LastOfOneReact(src: Source, e: Event, m: string, pair: Pair, present: bool, message: string, user: string,
                       emoji: string)
    ensures LastReact([ReactOp(src, e, m, pair, present, None)], message, user, emoji) ==
            if m == message && pair == Pair(emoji, user) then Some(present) else None
    ensures LastReact([], message, user, emoji).None?
  {
    assert [ReactOp(src, e, m, pair, present, None)][..0] == [];
  }

  lemma {:induction false} NoReacts(ops: seq<Op>, message: string, user: string, emoji: string)
    requires forall i :: 0 <= i < |ops| ==> !ops[i].request.React?
    ensures LastReact(ops, message, user, emoji).None?
  {
    if ops != [] {
      NoReacts(ops[..|ops| - 1], message, user, emoji);
    }
  }

  lemma LastOfSnapshotOps(src: Source, e: Event, m: string, tracked: set<Pair>, final: set<Pair>, message: string,
                          user: string, emoji: string)
    ensures LastReact(SnapshotOps(src, e, m, tracked, final), message, user, emoji) ==
            var pair := Pair(emoji, user);
            if m != message || (pair in tracked <==> pair in final) then None else Some(pair in final)
  {
    PairLessIsATotalOrder();
    LastOfReactOps(src, e, m, SortedPairs(tracked), final, false, message, user, emoji);
    LastOfReactOps(src, e, m, SortedPairs(final), tracked, true, message, user, emoji);
    LastReactOfTwo(ReactOps(src, e, m, SortedPairs(tracked), final, false),
                   ReactOps(src, e, m, SortedPairs(final), tracked, true), message, user, emoji);
  }

  /** What one event tells the server about a reaction. */
  lemma ReactedAfterEvent(src: Source, track: Track, e: Event, message: string, user: string, emoji: string)
    ensures var said := LastReact(OpsOf(src, track, e), message, user, emoji);
            var before, after := Tracked(track.reactions, message), Tracked(Next(src, track, e).reactions, message);
            Pair(emoji, user) in after <==> if said.Some? then said.value else Pair(emoji, user) in before
  {
    hide SnapshotOps, FinalPairs, SortedPairs;
    var ops := OpsOf(src, track, e);
    match e.change
    case Introduce(m, _, _, _, _, _, _, _, reactions, snapshot) =>
      var tracked, final := Tracked(track.reactions, m), FinalPairs(src, reactions);
      var content := [if m in track.introduced then ContentOp(src, e) else PostOp(src, e)];
      NoReacts(content, message, user, emoji);
      LastOfSnapshotOps(src, e, m, tracked, final, message, user, emoji);
      LastReactOfTwo(content, if snapshot then SnapshotOps(src, e, m, tracked, final) else [], message, user, emoji);
    case Reacted(_, _, _, _) =>
      assert ops[..0] == [];
    case MembershipSnapshot(users) =>
      var tracked, final := Tracked(track.members, src.rooms(e.room)), FinalMembers(src, users);
      MemberOpsMember(src, e, SortedUsers(tracked), final, false);
      MemberOpsMember(src, e, SortedUsers(final), tracked, true);
      NoReacts(ops, message, user, emoji);
    case _ =>
      NoReacts(ops, message, user, emoji);
  }

  lemma SaidReactedNext(src: Source, n: nat, message: string, user: string, emoji: string)
    requires n < |src.events|
    requires SaidReacted(src, n, message, user, emoji) <==>
             Pair(emoji, user) in Tracked(TrackAt(src, n).reactions, message)
    ensures SaidReacted(src, n + 1, message, user, emoji) <==>
            Pair(emoji, user) in Tracked(TrackAt(src, n + 1).reactions, message)
  {
  }

  lemma NoReactionSaid(src: Source, message: string, user: string, emoji: string)
    ensures LastReact([], message, user, emoji).None? && !SaidReacted(src, 0, message, user, emoji)
    ensures Tracked(TrackAt(src, 0).reactions, message) == {}
  {
  }

  /**
   The last request about a reaction says "present" exactly when the archive does, which is what the importer
   tracks.
   */
  lemma {:induction false} ReactionsAsSaid(src: Source, n: nat, message: string, user: string, emoji: string)
    requires n <= |src.events|
    ensures At(src, n) <= |Plan(src)|
    ensures LastReact(Plan(src)[..At(src, n)], message, user, emoji) == Some(true) <==>
            SaidReacted(src, n, message, user, emoji)
    ensures Pair(emoji, user) in Tracked(TrackAt(src, n).reactions, message) <==>
            SaidReacted(src, n, message, user, emoji)
    decreases n
  {
    hide Tracked, OpsOf, LastReact, SaidReacted;
    PlanFront(src, n);
    if n == 0 {
      NoReactionSaid(src, message, user, emoji);
    } else {
      ReactionsAsSaid(src, n - 1, message, user, emoji);
      PlanFront(src, n - 1);
      LastReactOfTwo(Joined(Chunks(src), n - 1), OpsAt(src, n - 1), message, user, emoji);
      ReactedAfterEvent(src, TrackAt(src, n - 1), src.events[n - 1], message, user, emoji);
      SaidReactedNext(src, n - 1, message, user, emoji);
    }
  }

  // ------------------------------------------------------------------ the requests of one event, field by field

  /** An event without actor is nobody's. */
  function ActorOf(src: Source, e: Event): string {
    if e.actor.None? then "" else src.users(e.actor.value)
  }

  ghost predicate OneRequest(ops: seq<Op>, request: Request) {
    |ops| == 1 && ops[0].request == request
  }

  /** What the content of a message becomes: a post at first, later an edit or a deletion. */
  function ContentOf(src: Source, known: bool, e: Event): Request
    requires e.change.Introduce?
  {
    var c := e.change;
    var room, actor := src.rooms(e.room), ActorOf(src, e);
    if !known then
      Post(Stamp(room, actor, if c.snapshot then c.created else e.at), src.users(c.author), c.text,
           if c.text.deleted then None else c.edited, c.deletedAt, c.thread, c.reply)
    else if c.text.deleted then Delete(Stamp(room, actor, c.deletedAt), c.message)
    else Edit(Stamp(room, actor, if c.snapshot then c.edited else e.at), c.message, c.text)
  }

  /** A reconciling reaction: no time, and only what differs between what is tracked and what is final. */
  ghost predicate Reconciles(src: Source, e: Event, tracked: set<Pair>, final: set<Pair>, request: Request)
    requires e.change.Introduce?
  {
    && request.React? && request.stamp == Stamp(src.rooms(e.room), ActorOf(src, e), None)
    && request.target == e.change.message
    && (request.present ==> Pair(request.emoji, request.user) in final - tracked)
    && (!request.present ==> Pair(request.emoji, request.user) in tracked - final)
  }

  lemma EventRequests(src: Source, track: Track, e: Event)
    ensures var room, actor, ops := src.rooms(e.room), ActorOf(src, e), OpsOf(src, track, e);
            match e.change
            case Membership(user, joined) =>
              OneRequest(ops, Member(Stamp(room, actor, e.at), src.users(user), joined, false))
            case MembershipSnapshot(users) =>
              var tracked := Tracked(track.members, room);
              forall i :: 0 <= i < |ops| ==>
                var r := ops[i].request;
                && r.Member? && r.stamp == Stamp(room, actor, e.at) && r.hidden
                && (r.present <==> exists u :: u in users && src.users(u) == r.user)
                && (r.present <==> r.user !in tracked)
            case Edited(message, text) =>
              OneRequest(ops, if text.deleted then Delete(Stamp(room, actor, None), message)
                else Edit(Stamp(room, actor, e.at), message, text))
            case Deleted(message) => OneRequest(ops, Delete(Stamp(room, actor, e.at), message))
            case Reacted(message, user, emoji, present) =>
              OneRequest(ops, React(Stamp(room, actor, e.at), message, src.users(user), emoji, present))
            case ThreadCreated(message) => OneRequest(ops, Thread(Stamp(room, actor, e.at), message))
            case RoomChanged(change) => OneRequest(ops, Room(Stamp(room, actor, e.at), change))
            case Introduce(message, _, _, _, _, _, _, _, reactions, snapshot) =>
              && |ops| > 0 && ops[0].request == ContentOf(src, message in track.introduced, e)
              && (!snapshot ==> |ops| == 1)
              && forall i :: 0 < i < |ops| ==>
                   Reconciles(src, e, Tracked(track.reactions, message), FinalPairs(src, reactions), ops[i].request)
  {
    hide FinalPairs;
    match e.change
    case MembershipSnapshot(users) =>
      SnapshotMembers(src, track, e, Tracked(track.members, src.rooms(e.room)));
    case Introduce(message, _, _, _, _, _, _, _, reactions, _) =>
      SnapshotReactions(src, e, Tracked(track.reactions, message), FinalPairs(src, reactions));
    case _ =>
  }

  lemma SnapshotMembers(src: Source, track: Track, e: Event, tracked: set<string>)
    requires e.change.MembershipSnapshot? && tracked == Tracked(track.members, src.rooms(e.room))
    ensures var ops := OpsOf(src, track, e);
            forall i :: 0 <= i < |ops| ==>
              var r := ops[i].request;
              && r.Member? && r.stamp == Stamp(src.rooms(e.room), ActorOf(src, e), e.at) && r.hidden
              && (r.present <==> exists u :: u in e.change.users && src.users(u) == r.user)
              && (r.present <==> r.user !in tracked)
  {
    LessIsATotalOrder();
    var final := FinalMembers(src, e.change.users);
    var gone := MemberOps(src, e, SortedUsers(tracked), final, false);
    var new_ := MemberOps(src, e, SortedUsers(final), tracked, true);
    forall i | 0 <= i < |gone| ensures MemberRequest(src, e, gone[i].request, final, false)
      && gone[i].request.user in tracked {
      MemberRequests(src, e, SortedUsers(tracked), final, false, i);
    }
    forall i | 0 <= i < |new_| ensures MemberRequest(src, e, new_[i].request, tracked, true)
      && new_[i].request.user in final {
      MemberRequests(src, e, SortedUsers(final), tracked, true, i);
    }
  }

  ghost predicate MemberRequest(src: Source, e: Event, request: Request, settled: set<string>, present: bool) {
    && request.Member? && request.user !in settled && request.hidden && request.present == present
    && request.stamp == Stamp(src.rooms(e.room), ActorOf(src, e), e.at)
  }

  lemma {:induction false} MemberRequests(src: Source, e: Event, users: seq<string>, settled: set<string>,
                                          present: bool, i: nat)
    requires i < |MemberOps(src, e, users, settled, present)|
    ensures var request := MemberOps(src, e, users, settled, present)[i].request;
            MemberRequest(src, e, request, settled, present) && request.user in users
  {
    var n := |users| - 1;
    if i < |MemberOps(src, e, users[..n], settled, present)| {
      MemberRequests(src, e, users[..n], settled, present, i);
    }
  }

  lemma SnapshotReactions(src: Source, e: Event, tracked: set<Pair>, final: set<Pair>)
    requires e.change.Introduce?
    ensures var ops := SnapshotOps(src, e, e.change.message, tracked, final);
            forall i :: 0 <= i < |ops| ==> Reconciles(src, e, tracked, final, ops[i].request)
  {
    PairLessIsATotalOrder();
    var gone := ReactOps(src, e, e.change.message, SortedPairs(tracked), final, false);
    var new_ := ReactOps(src, e, e.change.message, SortedPairs(final), tracked, true);
    forall i | 0 <= i < |gone| ensures Reconciles(src, e, tracked, final, gone[i].request) {
      ReactRequests(src, e, SortedPairs(tracked), final, false, i);
    }
    forall i | 0 <= i < |new_| ensures Reconciles(src, e, tracked, final, new_[i].request) {
      ReactRequests(src, e, SortedPairs(final), tracked, true, i);
    }
  }

  lemma {:induction false} ReactRequests(src: Source, e: Event, pairs: seq<Pair>, settled: set<Pair>, present: bool,
                                         i: nat)
    requires e.change.Introduce? && i < |ReactOps(src, e, e.change.message, pairs, settled, present)|
    ensures var request := ReactOps(src, e, e.change.message, pairs, settled, present)[i].request;
            && request.React? && request.target == e.change.message && request.present == present
            && Pair(request.emoji, request.user) in pairs && Pair(request.emoji, request.user) !in settled
            && request.stamp == Stamp(src.rooms(e.room), ActorOf(src, e), None)
  {
    var n := |pairs| - 1;
    if i < |ReactOps(src, e, e.change.message, pairs[..n], settled, present)| {
      ReactRequests(src, e, pairs[..n], settled, present, i);
    }
  }

  // ------------------------------------------------------------------ messages go by the identifiers they were given

  /** `id` is what the server answered to the post of this message, in front of operation `t`. */
  ghost predicate GivenTo<S>(backend: Backend<S>, plan: seq<Op>, t: nat, message: string, id: string)
    requires t <= |plan|
  {
    exists p: nat ::
      p < t && plan[p].introduces == Some(message) && plan[p].request.Post? && id == Result(backend, plan, p)
  }

  ghost predicate GivenToOpt<S>(backend: Backend<S>, plan: seq<Op>, t: nat, message: Option<string>, id: Option<string>)
    requires t <= |plan|
  {
    if message.None? then id.None? else id.Some? && GivenTo(backend, plan, t, message.value, id.value)
  }

  lemma {:induction false} KnownIsGiven<S>(backend: Backend<S>, plan: seq<Op>, t: nat, message: string)
    requires t <= |plan| && forall p :: 0 <= p < |plan| && plan[p].introduces.Some? ==> plan[p].request.Post?
    requires message in After(backend, plan, t).known
    ensures GivenTo(backend, plan, t, message, After(backend, plan, t).known[message])
    decreases t
  {
    if plan[t - 1].introduces == Some(message) {
      assert After(backend, plan, t).known[message] == Result(backend, plan, t - 1);
    } else {
      KnownIsGiven(backend, plan, t - 1, message);
    }
  }

  /** Where in which event's operations operation `t` stands. */
  lemma {:induction false} PlaceIn(src: Source, n: nat, t: nat) returns (k: nat, j: nat)
    requires n <= |src.events| && t < At(src, n)
    ensures k < n && j < |OpsAt(src, k)| && t == At(src, k) + j
  {
    hide OpsAt;
    if t < At(src, n - 1) {
      k, j := PlaceIn(src, n - 1, t);
    } else {
      k, j := n - 1, t - At(src, n - 1);
    }
  }

  /** The archived messages that a request names. */
  function NamedBy(request: Request): set<string> {
    match request
    case Post(_, _, _, _, _, thread, reply) =>
      (if thread.Some? then {thread.value} else {}) + if reply.Some? then {reply.value} else {}
    case React(_, target, _, _, _) => {target}
    case Edit(_, target, _) => {target}
    case Delete(_, target) => {target}
    case Thread(_, target) => {target}
    case _ => {}
  }

  lemma NamesIntroduced(src: Source, track: Track, e: Event, j: nat)
    requires EventOk(track, e) && j < |OpsOf(src, track, e)|
    ensures forall name :: name in NamedBy(OpsOf(src, track, e)[j].request) ==>
              name in track.introduced || (j > 0 && Introduces(track, e) && name == e.change.message)
    ensures OpsOf(src, track, e)[j].introduces.Some? ==> OpsOf(src, track, e)[j].request.Post?
  {
    OpsOfEvent(src, track, e);
    EventRequests(src, track, e);
  }

  lemma OpIsOk<S>(backend: Backend<S>, src: Source, t: nat)
    requires Valid(src) && t < |Plan(src)|
    ensures Plan(src)[t].introduces.Some? ==> Plan(src)[t].request.Post?
    ensures forall name :: name in NamedBy(Plan(src)[t].request) ==> name in After(backend, Plan(src), t).known
  {
    hide OpsOf, Valid, EventOk, NamedBy;
    var n, j := PlaceIn(src, |src.events|, t);
    OpsInPlan(src, n);
    ValidEvent(src, n);
    var track, e, plan := TrackAt(src, n), src.events[n], Plan(src);
    assert plan[t] == OpsAt(src, n)[j];
    NamesIntroduced(src, track, e, j);
    forall name | name in NamedBy(plan[t].request) ensures name in After(backend, plan, t).known {
      KnownIsIntroduced(backend, src, plan, n, name);
      EventIntroduces(src, n);
      KnownInEvent(backend, plan, At(src, n), t, name);
    }
  }

  lemma {:induction false} KnownInEvent<S>(backend: Backend<S>, plan: seq<Op>, lo: nat, t: nat, name: string)
    requires lo <= t <= |plan|
    requires name in After(backend, plan, lo).known || (lo < t && plan[lo].introduces == Some(name))
    ensures name in After(backend, plan, t).known
    decreases t
  {
    if lo < t && !(t == lo + 1 && plan[lo].introduces == Some(name)) {
      KnownInEvent(backend, plan, lo, t - 1, name);
    }
  }

  /**
   On the wire every request is the planned one, with each archived message replaced by the identifier that the
   server gave to its post.
   */
  lemma WireIsPlanned<S>(backend: Backend<S>, src: Source, t: nat)
    requires Valid(src) && t < |Plan(src)|
    ensures var plan := Plan(src);
            var wire := Wire(backend, plan, t);
            match plan[t].request
            case Post(stamp, author, text, edited, deletedAt, thread, reply) =>
              && wire == Post(stamp, author, text, edited, deletedAt, wire.thread, wire.reply)
              && GivenToOpt(backend, plan, t, thread, wire.thread) && GivenToOpt(backend, plan, t, reply, wire.reply)
            case React(stamp, target, user, emoji, present) =>
              wire == React(stamp, wire.target, user, emoji, present) && GivenTo(backend, plan, t, target, wire.target)
            case Edit(stamp, target, text) =>
              wire == Edit(stamp, wire.target, text) && GivenTo(backend, plan, t, target, wire.target)
            case Delete(stamp, target) =>
              wire == Delete(stamp, wire.target) && GivenTo(backend, plan, t, target, wire.target)
            case Thread(stamp, target) =>
              wire == Thread(stamp, wire.target) && GivenTo(backend, plan, t, target, wire.target)
            case Member(_, _, _, _) => wire == plan[t].request
            case Room(_, _) => wire == plan[t].request
  {
    hide Valid, Plan, GivenTo;
    var plan := Plan(src);
    OpIsOk(backend, src, t);
    forall p | 0 <= p < |plan| ensures plan[p].introduces.Some? ==> plan[p].request.Post? {
      OpIsOk(backend, src, p);
    }
    forall name | name in NamedBy(plan[t].request)
      ensures name in After(backend, plan, t).known
      ensures GivenTo(backend, plan, t, name, After(backend, plan, t).known[name])
    {
      KnownIsGiven(backend, plan, t, name);
    }
  }
}
