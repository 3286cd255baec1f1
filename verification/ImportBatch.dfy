/**
 One atomic message batch (cli/cmd/operator_import_messages.go): messages of one room with their final
 reactions, referring to each other by operation key where an identifier is not known yet.
 */
module ImportBatch {
  import opened EventStream
  import opened ImportServer
  import opened ImportPlan
  import opened Sorting

  /** `post` has an empty reference where a key stands in for it. */
  datatype Item = Item(key: Key, message: string, post: Request, threadKey: Option<Key>, replyKey: Option<Key>,
                       reactions: seq<Pair>)

  /** A reference that is known, or the key of an earlier message of the batch, or neither. */
  datatype Ref = Known(id: Option<string>) | ByKey(key: Key) | Unresolved

  function RefOf(messages: map<string, Id>, local: map<string, Key>, name: Option<string>): Ref {
    if name.None? then Known(None)
    else if name.value in messages then Known(Some(messages[name.value]))
    else if name.value in local then ByKey(local[name.value])
    else Unresolved
  }

  /** What the reference comes to when `answers` has the identifiers of earlier keys. */
  function Settle(ref: Ref, answers: map<Key, Id>): Option<string> {
    match ref
    case Known(id) => id
    case ByKey(key) => if key in answers then Some(answers[key]) else Some("")
    case Unresolved => Some("")
  }

  predicate Resolvable(messages: map<string, Id>, local: map<string, Key>, name: Option<string>) {
    !RefOf(messages, local, name).Unresolved?
  }

  /** The post of event `e` with its references settled. */
  function PostWire(src: Source, e: Event, thread: Option<string>, reply: Option<string>): Request
    requires e.change.Introduce?
  {
    var post := PostOp(src, e).request;
    post.(thread := thread, reply := reply)
  }

  /** The identifiers behind the receipts. */
  function ReceiptResults<S>(server: Server<S>): map<Key, Id> {
    map key | key in server.receipts :: server.receipts[key].result
  }

  /** `answers` knows what the messages of `local` have become in `known`, which agrees with `messages` elsewhere. */
  ghost predicate AnswersFor(messages: map<string, Id>, local: map<string, Key>, answers: map<Key, Id>,
                             known: map<string, Id>) {
    && (forall name :: name in messages ==> name in known && known[name] == messages[name])
    && (forall name :: name in local ==> name in known && local[name] in answers && answers[local[name]] == known[name])
  }

  /** However it is settled, by receipt or from an earlier answer, the post is the planned one. */
  lemma SettledIsResolved(src: Source, e: Event, messages: map<string, Id>, local: map<string, Key>, answers: map<Key,
                          Id>, known: map<string, Id>)
    requires e.change.Introduce? && AnswersFor(messages, local, answers, known)
    requires Resolvable(messages, local, e.change.thread) && Resolvable(messages, local, e.change.reply)
    ensures PostWire(src, e, Settle(RefOf(messages, local, e.change.thread), answers),
              Settle(RefOf(messages, local, e.change.reply), answers))
            == Resolve(known, PostOp(src, e).request)
  {
  }

  function KeysOf(batch: seq<Event>): map<string, Key>
    requires forall i :: 0 <= i < |batch| ==> batch[i].change.Introduce?
  {
    if batch == [] then map[]
    else KeysOf(batch[..|batch| - 1])[batch[|batch| - 1].change.message := Key(batch[|batch| - 1].id, PostPart)]
  }

  /** The item that stands for `e` when `messages` are known and `local` are earlier in the batch. */
  ghost function ItemOf(src: Source, e: Event, messages: map<string, Id>, local: map<string, Key>): Item
    requires e.change.Introduce?
  {
    var thread := RefOf(messages, local, e.change.thread);
    var reply := RefOf(messages, local, e.change.reply);
    Item(Key(e.id, PostPart), e.change.message,
         PostWire(src, e, Settle(thread, map[]), Settle(reply, map[])),
         if thread.ByKey? then Some(thread.key) else None,
         if reply.ByKey? then Some(reply.key) else None,
         SortedPairs(FinalPairs(src, e.change.reactions)))
  }

  /** The item's post once earlier answers are in. */
  function Complete(item: Item, answers: map<Key, Id>): Request
    requires item.post.Post?
  {
    item.post.(
      thread := if item.threadKey.Some? && item.threadKey.value in answers then Some(answers[item.threadKey.value])
        else item.post.thread,
      reply := if item.replyKey.Some? && item.replyKey.value in answers then Some(answers[item.replyKey.value])
        else item.post.reply)
  }

  lemma CompleteIsPlanned(src: Source, e: Event, messages: map<string, Id>, local: map<string, Key>, answers: map<Key,
                          Id>, known: map<string, Id>)
    requires e.change.Introduce? && AnswersFor(messages, local, answers, known)
    requires Resolvable(messages, local, e.change.thread) && Resolvable(messages, local, e.change.reply)
    ensures Complete(ItemOf(src, e, messages, local), answers) == Resolve(known, PostOp(src, e).request)
  {
    SettledIsResolved(src, e, messages, local, answers, known);
  }

  /** Building one item: references to messages nobody has heard of end the import. */
  method BuildItem(src: Source, e: Event, messages: map<string, Id>, local: map<string, Key>)
    returns (item: Item, ok: bool)
    requires e.change.Introduce?
    ensures ok <==> Resolvable(messages, local, e.change.thread) && Resolvable(messages, local, e.change.reply)
    ensures ok ==> item == ItemOf(src, e, messages, local)
  {
    var post := PostOp(src, e).request;
    item := Item(Key(e.id, PostPart), e.change.message, post, None, None, []);
    var c := e.change;
    if c.thread.Some? {
      if c.thread.value in messages {
        post := post.(thread := Some(messages[c.thread.value]));
      } else if c.thread.value in local {
        post := post.(thread := Some(""));
        item := item.(threadKey := Some(local[c.thread.value]));
      } else {
        return item, false;
      }
    }
    if c.reply.Some? {
      if c.reply.value in messages {
        post := post.(reply := Some(messages[c.reply.value]));
      } else if c.reply.value in local {
        post := post.(reply := Some(""));
        item := item.(replyKey := Some(local[c.reply.value]));
      } else {
        return item, false;
      }
    }
    PairLessIsATotalOrder();
    var final := FinalReactions(src, c.reactions);
    var pairs := SortedKeys(PairLess, final);
    return item.(post := post, reactions := pairs), true;
  }

  /** The two loops that collect the final reactors by emoji. */
  method FinalReactions(src: Source, reactions: seq<Reaction>) returns (final: set<Pair>)
    ensures final == FinalPairs(src, reactions)
  {
    final := {};
    for i := 0 to |reactions|
      invariant final == FinalPairs(src, reactions[..i])
    {
      var r := reactions[i];
      ghost var before := final;
      for j := 0 to |r.users|
        invariant final == before + PairsOf(src, r.emoji, r.users[..j])
      {
        assert r.users[..j + 1] == r.users[..j] + [r.users[j]];
        final := final + {Pair(r.emoji, src.users(r.users[j]))};
      }
      assert r.users[..|r.users|] == r.users;
      assert reactions[..i + 1] == reactions[..i] + [r];
    }
    assert reactions[..|reactions|] == reactions;
  }

  // ------------------------------------------------------------------ a batch in the plan

  predicate FileFreeIntroduction(e: Event) {
    e.change.Introduce? && e.change.text.assets == []
  }

  /** The operations of a message's first event stand in the plan from `p` to `q`. */
  ghost predicate Segment(src: Source, plan: seq<Op>, e: Event, p: nat, q: nat) {
    && e.change.Introduce?
    && var pairs := SortedPairs(FinalPairs(src, e.change.reactions));
       && q == p + 1 + |pairs| <= |plan| && plan[p] == PostOp(src, e)
       && forall r :: 0 <= r < |pairs| ==> plan[p + 1 + r] == ReactOp(src, e, e.change.message, pairs[r], true, None)
  }

  /** The batch fills the plan from its first mark to its last. */
  ghost predicate Laid(src: Source, plan: seq<Op>, batch: seq<Event>, marks: seq<nat>) {
    && |marks| == |batch| + 1 && marks[0] <= |plan|
    && forall i :: 0 <= i < |batch| ==> Segment(src, plan, batch[i], marks[i], marks[i + 1])
  }

  /** No message twice, and none that is known already. */
  ghost predicate NewMessages(batch: seq<Event>, messages: map<string, Id>) {
    && (forall i :: 0 <= i < |batch| ==> batch[i].change.Introduce? && batch[i].change.message !in messages)
    && (forall i, j :: 0 <= i < j < |batch| ==> batch[i].change.message != batch[j].change.message)
  }

  ghost predicate Posted<S>(backend: Backend<S>, plan: seq<Op>, e: Event, p: nat, key: Key, id: Id) {
    p < |plan| && key == Key(e.id, PostPart) && id == Result(backend, plan, p)
  }

  /** What is known when the `i`-th message is due: what was known before, and the posts of the batch so far. */
  ghost predicate KnownSoFar<S>(backend: Backend<S>, plan: seq<Op>, batch: seq<Event>, marks: seq<nat>,
                                messages: map<string, Id>, i: nat)
    requires i <= |batch| && |marks| == |batch| + 1 && marks[i] <= |plan|
    requires forall j :: 0 <= j < |batch| ==> batch[j].change.Introduce?
  {
    var known := After(backend, plan, marks[i]).known;
    && (forall name :: name in messages ==> name in known && known[name] == messages[name])
    && (forall name :: name in known ==> name in messages || exists j :: 0 <= j < i && batch[j].change.message == name)
    && (forall j :: 0 <= j < i ==>
          && batch[j].change.message in known && marks[j] < |plan|
          && known[batch[j].change.message] == Result(backend, plan, marks[j]))
  }

  lemma ReactionsIntroduceNothing(src: Source, plan: seq<Op>, e: Event, p: nat, q: nat)
    requires Segment(src, plan, e, p, q)
    ensures forall t :: p < t < q ==> plan[t].introduces.None?
  {
    hide SortedPairs, FinalPairs, PostOp;
    var pairs := SortedPairs(FinalPairs(src, e.change.reactions));
    forall t | p < t < q ensures plan[t].introduces.None? {
      var r := t - p - 1;
      assert plan[p + 1 + r] == ReactOp(src, e, e.change.message, pairs[r], true, None);
    }
  }

  lemma SegmentKnown<S>(src: Source, backend: Backend<S>, plan: seq<Op>, e: Event, p: nat, q: nat)
    requires Segment(src, plan, e, p, q)
    ensures After(backend, plan, q).known == After(backend, plan, p).known[e.change.message := Result(backend, plan, p)]
    ensures After(backend, plan, p + 1).known == After(backend, plan, q).known
  {
    ReactionsIntroduceNothing(src, plan, e, p, q);
    NothingIntroduced(backend, plan, p + 1, q);
  }

  lemma {:induction false} BatchKnown<S>(src: Source, backend: Backend<S>, plan: seq<Op>, batch: seq<Event>,
                                         marks: seq<nat>, messages: map<string, Id>, i: nat)
    requires Laid(src, plan, batch, marks) && NewMessages(batch, messages) && i <= |batch|
    requires messages == After(backend, plan, marks[0]).known
    ensures marks[i] <= |plan| && KnownSoFar(backend, plan, batch, marks, messages, i)
    decreases i
  {
    if i > 0 {
      BatchKnown(src, backend, plan, batch, marks, messages, i - 1);
      BatchKnownNext(src, backend, plan, batch, marks, messages, i - 1);
    }
  }

  lemma BatchKnownNext<S>(src: Source, backend: Backend<S>, plan: seq<Op>, batch: seq<Event>, marks: seq<nat>,
                          messages: map<string, Id>, i: nat)
    requires Laid(src, plan, batch, marks) && NewMessages(batch, messages) && i < |batch|
    requires marks[i] <= |plan| && KnownSoFar(backend, plan, batch, marks, messages, i)
    ensures marks[i + 1] <= |plan| && KnownSoFar(backend, plan, batch, marks, messages, i + 1)
  {
    hide After, Segment, Result;
    assert Segment(src, plan, batch[i], marks[i], marks[i + 1]);
    SegmentWithin(src, plan, batch[i], marks[i], marks[i + 1]);
    SegmentKnown(src, backend, plan, batch[i], marks[i], marks[i + 1]);
  }

  lemma SegmentWithin(src: Source, plan: seq<Op>, e: Event, p: nat, q: nat)
    requires Segment(src, plan, e, p, q)
    ensures p < q <= |plan|
  {
  }

  /** The first `i` posts of the batch are answered. */
  ghost predicate Answered<S>(backend: Backend<S>, plan: seq<Op>, batch: seq<Event>, marks: seq<nat>, i: nat,
                              answers: map<Key, Id>)
    requires i <= |batch| && |marks| == |batch| + 1
  {
    forall j :: 0 <= j < i ==>
      Key(batch[j].id, PostPart) in answers
      && Posted(backend, plan, batch[j], marks[j], Key(batch[j].id, PostPart), answers[Key(batch[j].id, PostPart)])
  }

  lemma {:induction false} KeysOfIs(batch: seq<Event>, name: string) returns (j: nat)
    requires (forall i :: 0 <= i < |batch| ==> batch[i].change.Introduce?) && name in KeysOf(batch)
    ensures j < |batch| && batch[j].change.message == name && KeysOf(batch)[name] == Key(batch[j].id, PostPart)
  {
    j := |batch| - 1;
    if batch[j].change.message != name {
      j := KeysOfIs(batch[..j], name);
    }
  }

  lemma {:induction false} KeysOfHas(batch: seq<Event>, j: nat)
    requires (forall i :: 0 <= i < |batch| ==> batch[i].change.Introduce?) && j < |batch|
    ensures batch[j].change.message in KeysOf(batch)
  {
    if j < |batch| - 1 {
      KeysOfHas(batch[..|batch| - 1], j);
    }
  }

  lemma AnswersFit<S>(src: Source, backend: Backend<S>, plan: seq<Op>, batch: seq<Event>, marks: seq<nat>,
                      messages: map<string, Id>, i: nat, answers: map<Key, Id>)
    requires Laid(src, plan, batch, marks) && NewMessages(batch, messages) && i <= |batch|
    requires messages == After(backend, plan, marks[0]).known
    requires Answered(backend, plan, batch, marks, i, answers)
    ensures marks[i] <= |plan|
    ensures AnswersFor(messages, KeysOf(batch[..i]), answers, After(backend, plan, marks[i]).known)
  {
    BatchKnown(src, backend, plan, batch, marks, messages, i);
    var local := KeysOf(batch[..i]);
    var known := After(backend, plan, marks[i]).known;
    forall name | name in local ensures name in known && local[name] in answers && answers[local[name]] == known[name] {
      var j := KeysOfIs(batch[..i], name);
      assert Posted(backend, plan, batch[j], marks[j], Key(batch[j].id, PostPart), answers[Key(batch[j].id, PostPart)]);
    }
  }

  /** Once a post has run, its receipt answers for it. */
  lemma ReceiptsAnswer<S>(src: Source, backend: Backend<S>, plan: seq<Op>, batch: seq<Event>, marks: seq<nat>, i: nat,
                          k: nat)
    requires Laid(src, plan, batch, marks) && UniqueKeys(plan) && i <= |batch| && k <= |plan|
    requires forall j :: 0 <= j < i ==> marks[j] < k
    ensures Answered(backend, plan, batch, marks, i, ReceiptResults(After(backend, plan, k).server))
  {
    UniqueIsDistinct(plan);
    forall j | 0 <= j < i
      ensures Key(batch[j].id, PostPart) in ReceiptResults(After(backend, plan, k).server)
      ensures Posted(backend, plan, batch[j], marks[j], Key(batch[j].id, PostPart),
                ReceiptResults(After(backend, plan, k).server)[Key(batch[j].id, PostPart)])
    {
      assert Segment(src, plan, batch[j], marks[j], marks[j + 1]);
      ReceiptAfter(backend, plan, marks[j], k);
    }
  }

  /** A reaction of the item goes out as planned once the post is answered. */
  lemma ReactionAsPlanned<S>(src: Source, backend: Backend<S>, plan: seq<Op>, e: Event, p: nat, q: nat, r: nat)
    requires Segment(src, plan, e, p, q) && r < |SortedPairs(FinalPairs(src, e.change.reactions))|
    ensures var pair := SortedPairs(FinalPairs(src, e.change.reactions))[r];
            && p + 1 + r < |plan| && plan[p + 1 + r].key == Key(e.id, ReactionPart(pair.emoji, pair.user))
            && plan[p + 1 + r].introduces.None?
            && Wire(backend, plan, p + 1 + r)
               == React(PostOp(src, e).request.stamp.(at := None), Result(backend, plan, p), pair.user, pair.emoji,
                 true)
  {
    var pair := SortedPairs(FinalPairs(src, e.change.reactions))[r];
    assert plan[p + 1 + r] == ReactOp(src, e, e.change.message, pair, true, None);
    ReactionsIntroduceNothing(src, plan, e, p, q);
    NothingIntroduced(backend, plan, p + 1, p + 1 + r);
  }

  lemma SegmentOfEvent(src: Source, plan: seq<Op>, n: nat)
    requires Valid(src) && plan == Plan(src) && n < |src.events| && Introduces(TrackAt(src, n), src.events[n])
    ensures Segment(src, plan, src.events[n], At(src, n), At(src, n + 1))
  {
    hide OpsOf, TrackAt, Joined, SortedPairs, FinalPairs, PostOp, ReactOp, Valid;
    OpsInPlan(src, n);
    IntroductionOps(src, n);
    SegmentOfOps(src, plan, src.events[n], OpsOf(src, TrackAt(src, n), src.events[n]), At(src, n));
  }

  lemma SegmentOfOps(src: Source, plan: seq<Op>, e: Event, ops: seq<Op>, p: nat)
    requires e.change.Introduce? && p + |ops| <= |plan| && forall j :: 0 <= j < |ops| ==> plan[p + j] == ops[j]
    requires var pairs := SortedPairs(FinalPairs(src, e.change.reactions));
             && |ops| == 1 + |pairs| && ops[0] == PostOp(src, e)
             && forall r :: 0 <= r < |pairs| ==> ops[1 + r] == ReactOp(src, e, e.change.message, pairs[r], true, None)
    ensures Segment(src, plan, e, p, p + |ops|)
  {
    assert plan[p + 0] == ops[0];
    var pairs := SortedPairs(FinalPairs(src, e.change.reactions));
    forall r | 0 <= r < |pairs| ensures plan[p + 1 + r] == ReactOp(src, e, e.change.message, pairs[r], true, None) {
      assert plan[p + (1 + r)] == ops[1 + r];
    }
  }

  /** What every message of the batch refers to is known or earlier in the batch. */
  ghost predicate ReferencesResolve(batch: seq<Event>, messages: map<string, Id>)
    requires forall i :: 0 <= i < |batch| ==> batch[i].change.Introduce?
  {
    forall i :: 0 <= i < |batch| ==> Refers(batch, messages, i)
  }

  ghost predicate Refers(batch: seq<Event>, messages: map<string, Id>, i: nat)
    requires i < |batch| && forall i :: 0 <= i < |batch| ==> batch[i].change.Introduce?
  {
    && Resolvable(messages, KeysOf(batch[..i]), batch[i].change.thread)
    && Resolvable(messages, KeysOf(batch[..i]), batch[i].change.reply)
  }

  /** The batch stands in the plan from `lo` to `hi`, and `messages` is what was known before it. */
  ghost predicate Plot<S>(src: Source, backend: Backend<S>, plan: seq<Op>, batch: seq<Event>, marks: seq<nat>,
                          messages: map<string, Id>, lo: nat, hi: nat) {
    && Laid(src, plan, batch, marks) && marks[0] == lo && marks[|batch|] == hi
    && messages == After(backend, plan, lo).known && NewMessages(batch, messages) && ReferencesResolve(batch, messages)
  }

  /** The items of a batch, in order. */
  ghost predicate ItemsOf(src: Source, batch: seq<Event>, messages: map<string, Id>, items: seq<Item>)
    requires forall i :: 0 <= i < |batch| ==> batch[i].change.Introduce?
  {
    |items| == |batch| && forall i :: 0 <= i < |items| ==> IsItem(src, batch, messages, i, items[i])
  }

  ghost predicate IsItem(src: Source, batch: seq<Event>, messages: map<string, Id>, i: nat, item: Item)
    requires i < |batch| && forall i :: 0 <= i < |batch| ==> batch[i].change.Introduce?
  {
    item == ItemOf(src, batch[i], messages, KeysOf(batch[..i]))
  }

  lemma NoKeysYet(batch: seq<Event>)
    ensures KeysOf(batch[..0]) == map[]
  {
  }

  lemma NextItemIs(src: Source, batch: seq<Event>, messages: map<string, Id>, i: nat, item: Item)
    requires i < |batch| && forall i :: 0 <= i < |batch| ==> batch[i].change.Introduce?
    ensures Refers(batch, messages, i) <==>
              Resolvable(messages, KeysOf(batch[..i]), batch[i].change.thread)
                && Resolvable(messages, KeysOf(batch[..i]), batch[i].change.reply)
    ensures item == ItemOf(src, batch[i], messages, KeysOf(batch[..i])) ==> IsItem(src, batch, messages, i, item)
    ensures KeysOf(batch[..i + 1]) == KeysOf(batch[..i])[batch[i].change.message := Key(batch[i].id, PostPart)]
  {
    hide Resolvable, ItemOf;
    assert batch[..i + 1][..i] == batch[..i];
  }

  /** The building half of importMessageBatch. */
  method BuildItems(src: Source, batch: seq<Event>, messages: map<string, Id>) returns (items: seq<Item>, ok: bool)
    requires forall i :: 0 <= i < |batch| ==> batch[i].change.Introduce?
    ensures ok <==> ReferencesResolve(batch, messages)
    ensures ok ==> ItemsOf(src, batch, messages, items)
  {
    hide KeysOf, IsItem, Refers, Resolvable, ItemOf;
    items := [];
    var local: map<string, Key> := map[];
    NoKeysYet(batch);
    for i := 0 to |batch|
      invariant local == KeysOf(batch[..i])
      invariant |items| == i && forall k :: 0 <= k < i ==> IsItem(src, batch, messages, k, items[k])
      invariant forall k :: 0 <= k < i ==> Refers(batch, messages, k)
    {
      var item;
      item, ok := BuildItem(src, batch[i], messages, local);
      NextItemIs(src, batch, messages, i, item);
      if !ok {
        return;
      }
      items := items + [item];
      local := local[batch[i].change.message := Key(batch[i].id, PostPart)];
    }
    ok := true;
  }

  /** The item stands for the operations of `e` from `p` to `q`. */
  ghost predicate ItemFits(src: Source, plan: seq<Op>, e: Event, item: Item, p: nat, q: nat) {
    && Segment(src, plan, e, p, q)
    && item.key == Key(e.id, PostPart) == plan[p].key && item.message == e.change.message
    && item.post.Post? && item.post.stamp == PostOp(src, e).request.stamp
    && item.reactions == SortedPairs(FinalPairs(src, e.change.reactions))
  }

  lemma {:induction false} MarksAscend(src: Source, plan: seq<Op>, batch: seq<Event>, marks: seq<nat>, j: nat, i: nat)
    requires Laid(src, plan, batch, marks) && j <= i <= |batch|
    ensures marks[j] + (i - j) <= marks[i] <= |plan|
    decreases i
  {
    if j < i {
      MarksAscend(src, plan, batch, marks, j, i - 1);
      assert Segment(src, plan, batch[i - 1], marks[i - 1], marks[i]);
    } else if i > 0 {
      assert Segment(src, plan, batch[i - 1], marks[i - 1], marks[i]);
    }
  }

  /** The call for reaction `r` of an item whose post was answered with `id`. */
  function ReactionKey(item: Item, r: nat): Key
    requires r < |item.reactions|
  {
    Key(item.key.event, ReactionPart(item.reactions[r].emoji, item.reactions[r].user))
  }

  function ReactionWire(item: Item, r: nat, id: Id): Request
    requires r < |item.reactions| && item.post.Post?
  {
    React(item.post.stamp.(at := None), id, item.reactions[r].user, item.reactions[r].emoji, true)
  }

  lemma ItemReactionAsPlanned<S>(src: Source, backend: Backend<S>, plan: seq<Op>, e: Event, item: Item, p: nat, q: nat,
                                 r: nat)
    requires ItemFits(src, plan, e, item, p, q) && r < |item.reactions|
    ensures item.post.Post?
    ensures p + 1 + r < |plan| && plan[p + 1 + r].key == ReactionKey(item, r) && plan[p + 1 + r].introduces.None?
    ensures Wire(backend, plan, p + 1 + r) == ReactionWire(item, r, Result(backend, plan, p))
  {
    ReactionAsPlanned(src, backend, plan, e, p, q, r);
  }

  /** The `i`-th item goes out as planned once the posts before it are answered. */
  lemma ItemAsPlanned<S>(src: Source, backend: Backend<S>, plan: seq<Op>, batch: seq<Event>, marks: seq<nat>,
                         messages: map<string, Id>,
                         lo: nat, hi: nat, items: seq<Item>, i: nat, answers: map<Key, Id>)
    requires Plot(src, backend, plan, batch, marks, messages, lo, hi) && ItemsOf(src, batch, messages, items)
    requires i < |batch| && Answered(backend, plan, batch, marks, i, answers)
    ensures ItemFits(src, plan, batch[i], items[i], marks[i], marks[i + 1])
    ensures Complete(items[i], answers) == Wire(backend, plan, marks[i])
  {
    assert IsItem(src, batch, messages, i, items[i]) && Refers(batch, messages, i);
    AnswersFit(src, backend, plan, batch, marks, messages, i, answers);
    CompleteIsPlanned(src, batch[i], messages, KeysOf(batch[..i]), answers, After(backend, plan, marks[i]).known);
  }

  // ------------------------------------------------------------------ the server's limits

  function ReactorsIn(batch: seq<Event>): nat
    requires forall i :: 0 <= i < |batch| ==> batch[i].change.Introduce?
  {
    if batch == [] then 0 else ReactorsIn(batch[..|batch| - 1]) + CountOf(batch[|batch| - 1].change.reactions)
  }

  function ReactionsIn(items: seq<Item>): nat {
    if items == [] then 0 else ReactionsIn(items[..|items| - 1]) + |items[|items| - 1].reactions|
  }

  /** The same, counted from the front. */
  lemma {:induction false} ReactionsFromFront(items: seq<Item>)
    ensures items != [] ==> ReactionsIn(items) == |items[0].reactions| + ReactionsIn(items[1..])
  {
    if |items| > 1 {
      ReactionsFromFront(items[..|items| - 1]);
      assert items[..|items| - 1][1..] == items[1..][..|items| - 2];
    }
  }

  lemma {:induction false} FewReactions(batch: seq<Event>, items: seq<Item>)
    requires |items| == |batch| && forall i :: 0 <= i < |batch| ==> batch[i].change.Introduce?
    requires forall i :: 0 <= i < |batch| ==> |items[i].reactions| <= CountOf(batch[i].change.reactions)
    ensures ReactionsIn(items) <= ReactorsIn(batch)
  {
    if batch != [] {
      FewReactions(batch[..|batch| - 1], items[..|batch| - 1]);
    }
  }

  lemma ItemReactions(src: Source, batch: seq<Event>, messages: map<string, Id>, i: nat, item: Item)
    requires i < |batch| && forall i :: 0 <= i < |batch| ==> batch[i].change.Introduce?
    requires IsItem(src, batch, messages, i, item)
    ensures |item.reactions| <= CountOf(batch[i].change.reactions)
  {
    var final := FinalPairs(src, batch[i].change.reactions);
    FinalPairsBound(src, batch[i].change.reactions);
    PairLessIsATotalOrder();
    ListingLength(PairLess, SortedPairs(final), final);
  }

  /** What the server demands of a batch: 1 to 32 messages without files, one room, at most 128 reactions. */
  ghost predicate WithinLimits(items: seq<Item>) {
    && 0 < |items| <= 32 && ReactionsIn(items) <= 128
    && forall i :: 0 <= i < |items| ==>
         items[i].post.Post? && items[i].post.text.assets == [] && items[i].post.stamp.room == items[0].post.stamp.room
  }

  lemma {:induction false} BatchWithinLimits(src: Source, batch: seq<Event>, messages: map<string, Id>,
                                             items: seq<Item>)
    requires 0 < |batch| <= 32
    requires forall i :: 0 <= i < |batch| ==> batch[i].change.Introduce? && batch[i].change.text.assets == []
    requires forall i :: 0 <= i < |batch| ==> batch[i].room == batch[0].room
    requires ItemsOf(src, batch, messages, items) && ReactorsIn(batch) <= 128
    ensures WithinLimits(items)
  {
    forall i | 0 <= i < |items| ensures |items[i].reactions| <= CountOf(batch[i].change.reactions) {
      ItemReactions(src, batch, messages, i, items[i]);
    }
    FewReactions(batch, items);
    forall i | 0 <= i < |items|
      ensures items[i].post.Post? && items[i].post.text.assets == []
      ensures items[i].post.stamp.room == src.rooms(batch[0].room)
    {
      assert IsItem(src, batch, messages, i, items[i]);
    }
  }
}
