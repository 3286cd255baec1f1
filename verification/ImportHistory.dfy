/**
 The history phase of an import (cli/cmd/operator_import_history.go, cli/cmd/operator_import_messages.go):
 adaptive batches, a journal of finished operations, and a power cut that may come between any two steps.
 */
module ImportHistory {
  import opened EventStream
  import opened ImportServer
  import opened ImportPlan
  import opened ImportBatch
  import opened Sorting

  const MAX_MESSAGES := 32

  const MAX_REACTIONS := 128

  const DONE: Id := "done"

  datatype Call = Call(key: Key, wire: Request)

  /** Every journal entry belongs to an operation that has run; a post's entry names its message. */
  ghost predicate Recorded<S>(backend: Backend<S>, plan: seq<Op>, values: map<Key, Id>, k: nat)
    requires k <= |plan|
  {
    forall key :: key in values ==> exists t: nat :: t < k && RecordOf(backend, plan, t, key, values[key])
  }

  ghost predicate RecordOf<S>(backend: Backend<S>, plan: seq<Op>, t: nat, key: Key, value: Id)
    requires t < |plan|
  {
    plan[t].key == key && (plan[t].introduces.Some? ==> value == Result(backend, plan, t))
  }

  lemma RecordIs<S>(backend: Backend<S>, plan: seq<Op>, values: map<Key, Id>, k: nat, t: nat)
    requires k <= |plan| && t < |plan| && UniqueKeys(plan) && Recorded(backend, plan, values, k)
    requires plan[t].key in values
    ensures t < k && RecordOf(backend, plan, t, plan[t].key, values[plan[t].key])
  {
    UniqueIsDistinct(plan);
    var u: nat :| u < k && RecordOf(backend, plan, u, plan[t].key, values[plan[t].key]);
    assert u == t;
  }

  /**
   The queued calls are operations of the plan between `lo` and `hi`, in plan order, and what is not queued
   is in the journal. None of them introduces a message.
   */
  ghost predicate Queue<S>(backend: Backend<S>, plan: seq<Op>, values: map<Key, Id>, pending: seq<Call>,
                           slots: seq<nat>, lo: nat, hi: nat) {
    && lo <= hi <= |plan| && |slots| == |pending|
    && (forall i :: 0 <= i < |slots| ==>
          lo <= slots[i] < hi && pending[i] == Call(plan[slots[i]].key, Wire(backend, plan, slots[i])))
    && (forall i, j :: 0 <= i < j < |slots| ==> slots[i] < slots[j])
    && (forall u: nat :: lo <= u < hi ==> plan[u].introduces.None? && (u in slots || plan[u].key in values))
  }

  /** The journal has an entry for each of the first `n` operations. */
  ghost predicate Logged(plan: seq<Op>, values: map<Key, Id>, n: nat) {
    n <= |plan| && forall t: nat :: t < n ==> plan[t].key in values
  }

  lemma LoggedStays(plan: seq<Op>, before: map<Key, Id>, values: map<Key, Id>, n: nat)
    requires Logged(plan, before, n) && before.Keys <= values.Keys
    ensures Logged(plan, values, n)
  {
    forall t: nat | t < n ensures plan[t].key in values {
      assert plan[t].key in before.Keys;
    }
  }

  lemma LoggedNext(plan: seq<Op>, before: map<Key, Id>, values: map<Key, Id>, n: nat)
    requires Logged(plan, before, n) && before.Keys <= values.Keys && n < |plan| && plan[n].key in values
    ensures Logged(plan, values, n + 1)
  {
    LoggedStays(plan, before, values, n);
  }

  /** Every queued call is in the journal. */
  ghost predicate Noticed(values: map<Key, Id>, pending: seq<Call>, n: nat) {
    n <= |pending| && forall i :: 0 <= i < n ==> pending[i].key in values
  }

  lemma NoticedNext(before: map<Key, Id>, values: map<Key, Id>, pending: seq<Call>, n: nat)
    requires Noticed(before, pending, n) && before.Keys <= values.Keys && n < |pending| && pending[n].key in values
    ensures Noticed(values, pending, n + 1)
  {
    forall i | 0 <= i < n ensures pending[i].key in values {
      assert pending[i].key in before.Keys;
    }
  }

  lemma QueueLogged<S>(backend: Backend<S>, plan: seq<Op>, values: map<Key, Id>, pending: seq<Call>, slots: seq<nat>,
                       lo: nat, hi: nat)
    requires Queue(backend, plan, values, pending, slots, lo, hi) && Logged(plan, values, lo)
    requires Noticed(values, pending, |pending|)
    ensures Logged(plan, values, hi)
  {
    forall t: nat | t < hi ensures plan[t].key in values {
      if lo <= t && t in slots {
        var i :| 0 <= i < |slots| && slots[i] == t;
        assert pending[i].key == plan[t].key;
      }
    }
  }

  lemma QueueSlot<S>(backend: Backend<S>, plan: seq<Op>, values: map<Key, Id>, pending: seq<Call>, slots: seq<nat>,
                     lo: nat, hi: nat, i: nat)
    requires Queue(backend, plan, values, pending, slots, lo, hi) && i < |pending|
    ensures |slots| == |pending| && slots[i] < hi <= |plan|
    ensures pending[i].key == plan[slots[i]].key && plan[slots[i]].introduces.None?
  {
  }

  lemma QueueStays<S>(backend: Backend<S>, plan: seq<Op>, before: map<Key, Id>, values: map<Key, Id>,
                      pending: seq<Call>, slots: seq<nat>, lo: nat, hi: nat)
    requires Queue(backend, plan, before, pending, slots, lo, hi) && before.Keys <= values.Keys
    ensures Queue(backend, plan, values, pending, slots, lo, hi)
  {
    forall u: nat | lo <= u < hi ensures plan[u].introduces.None? && (u in slots || plan[u].key in values) {
      if u !in slots {
        assert plan[u].key in before.Keys;
      }
    }
  }

  predicate AllIn(pending: seq<Call>, room: string) {
    forall i :: 0 <= i < |pending| ==> pending[i].wire.React? && pending[i].wire.stamp.room == room
  }

  /** One more operation of the plan: queued, unless the journal has it. */
  lemma QueueGrows<S>(backend: Backend<S>, plan: seq<Op>, values: map<Key, Id>, pending: seq<Call>, slots: seq<nat>,
                      lo: nat, hi: nat, wire: Request)
    requires Queue(backend, plan, values, pending, slots, lo, hi) && hi < |plan| && plan[hi].introduces.None?
    requires wire == Resolve(After(backend, plan, lo).known, plan[hi].request)
    ensures plan[hi].key in values ==> Queue(backend, plan, values, pending, slots, lo, hi + 1)
    ensures Queue(backend, plan, values, pending + [Call(plan[hi].key, wire)], slots + [hi], lo, hi + 1)
  {
    hide After, Resolve;
    NothingIntroduced(backend, plan, lo, hi);
  }

  /** The server call demands one room. */
  ghost predicate OneRoom(pending: seq<Call>) {
    forall i :: 0 <= i < |pending| ==>
      pending[i].wire.React? && pending[i].wire.stamp.room == pending[0].wire.stamp.room
  }

  /** When everything before the `i`-th queued call has been sent, everything before its place has run. */
  lemma ReadyToSend<S>(backend: Backend<S>, plan: seq<Op>, values: map<Key, Id>, pending: seq<Call>, slots: seq<nat>,
                       lo: nat, hi: nat, k: nat, i: nat)
    requires Queue(backend, plan, values, pending, slots, lo, hi) && UniqueKeys(plan)
    requires k <= |plan| && Recorded(backend, plan, values, k) && i <= |slots|
    requires if i == 0 then lo <= k else slots[i - 1] < k
    ensures k >= if i < |slots| then slots[i] else hi
  {
    hide UniqueKeys, Recorded, Logged, After, Wire, Result;
    var next := if i < |slots| then slots[i] else hi;
    if k < next {
      assert k !in slots by {
        forall j | 0 <= j < |slots| ensures slots[j] != k {
        }
      }
      RecordIs(backend, plan, values, k, k);
    }
  }

  class Importer<S(!new)> {
    const src: Source
    const backend: Backend<S>
    ghost const plan: seq<Op>

    /** The server, the journal, and how many steps are left before the power goes (None: it stays). */
    var server: Server<S>
    var values: map<Key, Id>
    var power: Option<nat>
    /** An older server has no batch calls. */
    var legacyServer: bool

    var messages: map<string, Id>
    var reactions: map<string, set<Pair>>
    var members: map<string, set<string>>
    var pending: seq<Call>
    var batch: seq<Event>
    var batchMessages: set<string>
    var batchReactions: nat
    var legacyReactions: bool
    var legacyMessageBatches: bool

    /** How many operations of the plan have run on the server. */
    ghost var ran: nat
    /** Where in the plan the queued reaction changes stand. */
    ghost var slots: seq<nat>
    /** Where in the plan the queued messages begin, and where the last one ends. */
    ghost var marks: seq<nat>
    /** Where the queue in use begins, and the room of the queued reaction changes. */
    ghost var base: nat
    ghost var room: string

    /** A process that starts with a server on which the first `k` operations have run, and with a journal. */
    constructor (source: Source, target: Backend<S>, remote: Server<S>, journal: map<Key, Id>, supply: Option<nat>,
                 legacy: bool, ghost k: nat)
      requires Valid(source) && Partway(source, target, remote, journal, k)
      ensures src == source && backend == target && Planned() && Fresh()
      ensures power == supply && server == remote
    {
      src, backend, plan := source, target, Plan(source);
      server, values, power, legacyServer, ran := remote, journal, supply, legacy, k;
      messages, reactions, members, pending := map[], map[], map[], [];
      batch, batchMessages, batchReactions := [], {}, 0;
      legacyReactions, legacyMessageBatches := false, false;
      slots, marks, base, room := [], [0], 0, "";
      new;
      PlanKeys(src);
      UniqueIsDistinct(plan);
    }

    ghost predicate Planned() {
      Valid(src) && plan == Plan(src)
    }

    /** What no crash changes: the server has run a prefix of the plan, and the journal knows nothing else. */
    ghost predicate Sane()
      reads this`server, this`values, this`ran
    {
      && UniqueKeys(plan)
      && ran <= |plan| && server == After(backend, plan, ran).server
      && Recorded(backend, plan, values, ran)
    }

    /** One step passes, unless the power is gone. */
    method Step() returns (alive: bool)
      modifies this`power
      ensures alive <==> old(power) != Some(0)
      ensures power == if old(power).Some? && old(power).value > 0 then Some(old(power).value - 1) else old(power)
    {
      if power.None? {
        return true;
      }
      if power.value == 0 {
        return false;
      }
      power := Some(power.value - 1);
      return true;
    }

    /** The server's side of one operation. */
    method Execute(key: Key, wire: Request, ghost t: nat) returns (result: Option<Id>)
      requires Sane() && t < |plan| && t <= ran && key == plan[t].key && wire == Wire(backend, plan, t)
      modifies this`server, this`ran
      ensures Sane() && ran == Max(old(ran), t + 1) && result == Some(Result(backend, plan, t))
    {
      SendingAgain(backend, plan, t, ran);
      var (served, answer) := Serve(backend, server, key, wire);
      server, ran := served, Max(ran, t + 1);
      return answer;
    }

    /** One call: the power can go before it arrives and before its answer is back. */
    method Send(key: Key, wire: Request, ghost t: nat) returns (answer: Option<Id>)
      requires Sane() && t < |plan| && t <= ran && key == plan[t].key && wire == Wire(backend, plan, t)
      modifies this`server, this`ran, this`power
      ensures Sane()
      ensures answer.Some? ==> answer.value == Result(backend, plan, t) && ran > t
      ensures old(power).None? ==> answer.Some? && power.None?
      ensures old(power) == Some(0) ==> answer.None? && server == old(server)
      ensures old(power) == Some(1) ==> answer.None? && ran > t
    {
      var alive := Step();
      if !alive {
        return None;
      }
      var result := Execute(key, wire, t);
      alive := Step();
      return if alive then result else None;
    }

    /** putReplayable. */
    method Record(key: Key, value: Id, ghost t: nat) returns (ok: bool)
      requires Sane() && t < ran && key == plan[t].key
      requires plan[t].introduces.Some? ==> value == Result(backend, plan, t)
      modifies this`values, this`power
      ensures Sane()
      ensures values == if ok then old(values)[key := value] else old(values)
      ensures old(power).None? ==> ok && power.None?
    {
      ok := Step();
      if ok {
        values := values[key := value];
        assert RecordOf(backend, plan, t, key, value);
      }
    }

    /** The reaction queue covers the plan from `lo` to `hi`; everything before `lo` has run. */
    ghost predicate Queued(lo: nat, hi: nat)
      reads this`server, this`values, this`ran, this`pending, this`slots, this`messages
    {
      && Sane() && lo <= ran
      && Queue(backend, plan, values, pending, slots, lo, hi)
      && messages == After(backend, plan, lo).known
      && |pending| <= MAX_REACTIONS && OneRoom(pending) && Logged(plan, values, lo)
    }

    /** roomChange and messageChange: skip what the journal has, otherwise send and record. */
    method Change(key: Key, wire: Request, ghost t: nat) returns (ok: bool)
      requires Sane() && t < |plan| && t <= ran && key == plan[t].key && wire == Wire(backend, plan, t)
      requires plan[t].introduces.None?
      modifies this`server, this`values, this`ran, this`power
      ensures Sane() && old(values).Keys <= values.Keys
      ensures ok ==> ran > t && key in values
      ensures ok && key !in old(values) ==>
                values[key] == if plan[t].request.Room? || plan[t].request.Member? then Result(backend, plan, t)
                  else DONE
      ensures key in old(values) ==> values == old(values) && server == old(server)
      ensures old(power).None? ==> ok && power.None?
    {
      if key in values {
        RecordIs(backend, plan, values, ran, t);
        return true;
      }
      var answer := Send(key, wire, t);
      if answer.None? {
        return false;
      }
      ok := Record(key, if wire.Room? || wire.Member? then answer.value else DONE, t);
    }

    /** The queue is done: nothing is pending and everything up to `hi` has run. */
    method ClearQueue(ghost lo: nat, ghost hi: nat)
      requires Queued(lo, hi) && ran >= hi && Noticed(values, pending, |pending|)
      modifies this`pending, this`slots
      ensures Queued(hi, hi) && pending == [] && slots == []
    {
      QueueLogged(backend, plan, values, pending, slots, lo, hi);
      NothingIntroduced(backend, plan, lo, hi);
      pending, slots := [], [];
    }

    /** The calls before the `i`-th queued one are through. */
    ghost predicate Reached(lo: nat, hi: nat, i: nat)
      reads this`server, this`values, this`ran, this`pending, this`slots, this`messages
    {
      Queued(lo, hi) && i <= |pending| && if i == 0 then lo <= ran else slots[i - 1] < ran
    }

    lemma AllReached(lo: nat, hi: nat)
      requires Reached(lo, hi, |pending|)
      ensures ran >= hi
    {
      ReadyToSend(backend, plan, values, pending, slots, lo, hi, ran, |pending|);
    }

    method ServeSlot(i: nat, ghost lo: nat, ghost hi: nat)
      requires Reached(lo, hi, i) && i < |pending|
      modifies this`server, this`ran
      ensures Reached(lo, hi, i + 1)
    {
      hide UniqueKeys, Recorded, Logged, After;
      ReadyToSend(backend, plan, values, pending, slots, lo, hi, ran, i);
      var _ := Execute(pending[i].key, pending[i].wire, slots[i]);
    }

    method ChangeSlot(i: nat, ghost lo: nat, ghost hi: nat) returns (ok: bool)
      requires Reached(lo, hi, i) && i < |pending|
      modifies this`server, this`values, this`ran, this`power
      ensures Sane()
      ensures old(values).Keys <= values.Keys
      ensures ok ==> Reached(lo, hi, i + 1) && pending[i].key in values
      ensures old(power).None? ==> ok && power.None?
    {
      hide UniqueKeys, Recorded, Logged, After;
      ReadyToSend(backend, plan, values, pending, slots, lo, hi, ran, i);
      ok := Change(pending[i].key, pending[i].wire, slots[i]);
      LoggedStays(plan, old(values), values, lo);
    }

    method RecordSlot(i: nat, ghost lo: nat, ghost hi: nat) returns (ok: bool)
      requires Queued(lo, hi) && ran >= hi && i < |pending|
      modifies this`values, this`power
      ensures Queued(lo, hi) && old(values).Keys <= values.Keys && (ok ==> pending[i].key in values)
      ensures old(power).None? ==> ok && power.None?
    {
      hide Logged, Queue, UniqueKeys, Recorded, After;
      QueueSlot(backend, plan, values, pending, slots, lo, hi, i);
      ok := Record(pending[i].key, DONE, slots[i]);
      LoggedStays(plan, old(values), values, lo);
      QueueStays(backend, plan, old(values), values, pending, slots, lo, hi);
    }

    /** ImportReactionChanges: one room, at most 128 changes, all of them in one commit. */
    method SendReactions(ghost lo: nat, ghost hi: nat) returns (answered: bool)
      requires Queued(lo, hi) && 0 < |pending| <= MAX_REACTIONS && OneRoom(pending) && !legacyServer
      modifies this`server, this`ran, this`power
      ensures Queued(lo, hi)
      ensures answered ==> ran >= hi
      ensures old(power) == Some(0) ==> !answered && server == old(server)
      ensures old(power) == Some(1) ==> !answered && ran >= hi
      ensures old(power).None? ==> answered && power.None?
    {
      answered := Step();
      if answered {
        ServeQueue(lo, hi);
        answered := Step();
      }
    }

    method ServeQueue(ghost lo: nat, ghost hi: nat)
      requires Queued(lo, hi)
      modifies this`server, this`ran
      ensures Queued(lo, hi) && ran >= hi
    {
      for i := 0 to |pending|
        invariant Reached(lo, hi, i)
      {
        ServeSlot(i, lo, hi);
      }
      AllReached(lo, hi);
    }

    method RecordReactions(ghost lo: nat, ghost hi: nat) returns (ok: bool)
      requires Queued(lo, hi) && ran >= hi
      modifies this`values, this`power
      ensures Queued(lo, hi) && (ok ==> Noticed(values, pending, |pending|))
      ensures old(power).None? ==> ok && power.None?
    {
      hide Logged, Queue, Recorded, UniqueKeys, After;
      for i := 0 to |pending|
        invariant Queued(lo, hi) && Noticed(values, pending, i) && (old(power).None? ==> power.None?)
      {
        ghost var before := values;
        ok := RecordSlot(i, lo, hi);
        if !ok {
          return;
        }
        NoticedNext(before, values, pending, i);
      }
      return true;
    }

    method SendOneByOne(ghost lo: nat, ghost hi: nat) returns (ok: bool)
      requires Queued(lo, hi)
      modifies this`server, this`values, this`ran, this`power
      ensures Sane()
      ensures ok ==> Queued(lo, hi) && ran >= hi && Noticed(values, pending, |pending|)
      ensures old(power).None? ==> ok && power.None?
    {
      hide Logged, Queue, Recorded, UniqueKeys, After;
      for i := 0 to |pending|
        invariant Reached(lo, hi, i) && Noticed(values, pending, i) && (old(power).None? ==> power.None?)
      {
        ghost var before := values;
        ok := ChangeSlot(i, lo, hi);
        if !ok {
          return;
        }
        NoticedNext(before, values, pending, i);
      }
      AllReached(lo, hi);
      return true;
    }

    /** flush: the queued reaction changes, as one call where the server has it. */
    method Flush(ghost lo: nat, ghost hi: nat) returns (ok: bool)
      requires Queued(lo, hi)
      modifies this`server, this`values, this`ran, this`power, this`pending, this`slots, this`legacyReactions
      ensures Sane()
      ensures ok ==> Queued(hi, hi) && pending == [] && slots == []
      ensures old(power).None? ==> ok && power.None?
    {
      if !legacyReactions && |pending| > 1 && legacyServer {
        legacyReactions := true;
      }
      if !legacyReactions && |pending| > 1 {
        ok := SendReactions(lo, hi);
        if ok {
          ok := RecordReactions(lo, hi);
        }
      } else {
        ok := SendOneByOne(lo, hi);
      }
      if ok {
        ClearQueue(lo, hi);
      }
    }

    // ---------------------------------------------------------------- message batches

    /** The queued messages stand in the plan from `lo` to `hi`; `known` is what was known before them. */
    ghost predicate Plotted(known: map<string, Id>, items: seq<Item>, lo: nat, hi: nat)
      reads this`server, this`values, this`ran, this`batch, this`marks
    {
      && Sane() && Plot(src, backend, plan, batch, marks, known, lo, hi)
      && ItemsOf(src, batch, known, items)
    }

    /** The operations of one item, after its post was answered with `id`. */
    ghost predicate Fits(item: Item, i: nat, id: Id)
      requires i < |batch| && |marks| == |batch| + 1
      reads this`batch, this`marks
    {
      && ItemFits(src, plan, batch[i], item, marks[i], marks[i + 1])
      && id == Result(backend, plan, marks[i])
    }

    method ServeReactionsOf(item: Item, id: Id, ghost i: nat)
      requires Sane() && i < |batch| && |marks| == |batch| + 1 && Fits(item, i, id) && ran > marks[i]
      modifies this`server, this`ran
      ensures Sane() && ran >= marks[i + 1]
    {
      hide UniqueKeys, Recorded, After, ItemFits, Result;
      ItemPlace(item, i);
      for r := 0 to |item.reactions|
        invariant Sane() && ran >= marks[i] + 1 + r
      {
        ItemReactionAsPlanned(src, backend, plan, batch[i], item, marks[i], marks[i + 1], r);
        var _ := Execute(ReactionKey(item, r), ReactionWire(item, r, id), marks[i] + 1 + r);
      }
    }

    /** Where the operations of an item stand. */
    lemma ItemPlace(item: Item, i: nat)
      requires i < |batch| && |marks| == |batch| + 1 && ItemFits(src, plan, batch[i], item, marks[i], marks[i + 1])
      ensures marks[i] + 1 + |item.reactions| == marks[i + 1] <= |plan| && plan[marks[i]].key == item.key
    {
    }

    method SendReactionsOf(item: Item, id: Id, ghost i: nat) returns (ok: bool)
      requires Sane() && i < |batch| && |marks| == |batch| + 1 && Fits(item, i, id) && ran > marks[i]
      requires Logged(plan, values, marks[i] + 1)
      modifies this`server, this`values, this`ran, this`power
      ensures Sane()
      ensures ok ==> ran >= marks[i + 1] && Logged(plan, values, marks[i + 1])
      ensures old(power).None? ==> ok && power.None?
    {
      hide Logged, UniqueKeys, Recorded, After, ItemFits, Result;
      ItemPlace(item, i);
      for r := 0 to |item.reactions|
        invariant Sane() && ran >= marks[i] + 1 + r && (old(power).None? ==> power.None?)
        invariant Logged(plan, values, marks[i] + 1 + r)
      {
        ok := SendReactionOf(item, id, i, r);
        if !ok {
          return;
        }
      }
      return true;
    }

    method SendReactionOf(item: Item, id: Id, ghost i: nat, r: nat) returns (ok: bool)
      requires Sane() && i < |batch| && |marks| == |batch| + 1 && Fits(item, i, id) && r < |item.reactions|
      requires ran >= marks[i] + 1 + r
      requires Logged(plan, values, marks[i] + 1 + r)
      modifies this`server, this`values, this`ran, this`power
      ensures Sane()
      ensures ok ==> ran >= marks[i] + 1 + r + 1 && Logged(plan, values, marks[i] + 1 + r + 1)
      ensures old(power).None? ==> ok && power.None?
    {
      hide UniqueKeys, Recorded, Logged, After, ItemFits, Result;
      ItemPlace(item, i);
      ItemReactionAsPlanned(src, backend, plan, batch[i], item, marks[i], marks[i + 1], r);
      ok := Change(ReactionKey(item, r), ReactionWire(item, r, id), marks[i] + 1 + r);
      if ok {
        LoggedNext(plan, old(values), values, marks[i] + 1 + r);
      }
    }

    method RecordReactionOf(item: Item, id: Id, ghost i: nat, r: nat) returns (ok: bool)
      requires Sane() && i < |batch| && |marks| == |batch| + 1 && Fits(item, i, id) && ran >= marks[i + 1]
      requires r < |item.reactions|
      requires Logged(plan, values, marks[i] + 1 + r)
      modifies this`values, this`power
      ensures Sane() && (ok ==> Logged(plan, values, marks[i] + 1 + r + 1))
      ensures old(power).None? ==> ok && power.None?
    {
      hide UniqueKeys, Recorded, Logged, After, ItemFits, Result;
      ItemPlace(item, i);
      ItemReactionAsPlanned(src, backend, plan, batch[i], item, marks[i], marks[i + 1], r);
      ok := Record(ReactionKey(item, r), DONE, marks[i] + 1 + r);
      if ok {
        LoggedNext(plan, old(values), values, marks[i] + 1 + r);
      }
    }

    method RecordItem(item: Item, id: Id, ghost i: nat) returns (ok: bool)
      requires Sane() && i < |batch| && |marks| == |batch| + 1 && Fits(item, i, id) && ran >= marks[i + 1]
      requires Logged(plan, values, marks[i])
      modifies this`values, this`power
      ensures Sane() && (ok ==> Logged(plan, values, marks[i + 1]))
      ensures old(power).None? ==> ok && power.None?
    {
      hide Logged, UniqueKeys, Recorded, After, ItemFits, Result;
      ItemPlace(item, i);
      ok := Record(item.key, id, marks[i]);
      if !ok {
        return;
      }
      LoggedNext(plan, old(values), values, marks[i]);
      for r := 0 to |item.reactions|
        invariant ok && Sane() && (old(power).None? ==> power.None?)
        invariant Logged(plan, values, marks[i] + 1 + r)
      {
        ok := RecordReactionOf(item, id, i, r);
        if !ok {
          return;
        }
      }
    }

    /** The server's side of one item: references by key are settled from receipts. */
    method ServeItem(ghost items: seq<Item>, item: Item, ghost known: map<string, Id>, ghost i: nat, ghost lo: nat,
                     ghost hi: nat)
      returns (id: Id)
      requires Plotted(known, items, lo, hi) && i < |batch| && item == items[i] && ran >= marks[i]
      modifies this`server, this`ran
      ensures Sane() && Fits(item, i, id) && ran >= marks[i + 1]
    {
      forall j | 0 <= j < i ensures marks[j] < ran {
        MarksAscend(src, plan, batch, marks, j, i);
      }
      ReceiptsAnswer(src, backend, plan, batch, marks, i, ran);
      var answers := ReceiptResults(server);
      ItemAsPlanned(src, backend, plan, batch, marks, known, lo, hi, items, i, answers);
      var result := Execute(item.key, Complete(item, answers), marks[i]);
      id := result.value;
      ServeReactionsOf(item, id, i);
    }

    /** ImportMessages: one room, at most 32 messages and 128 reactions, all of them in one commit. */
    method SendMessages(items: seq<Item>, ghost known: map<string, Id>, ghost lo: nat, ghost hi: nat)
      returns (ids: Option<seq<Id>>)
      requires Plotted(known, items, lo, hi) && ran >= lo && WithinLimits(items) && !legacyServer
      modifies this`server, this`ran, this`power
      ensures Sane()
      ensures old(power) == Some(0) ==> ids.None? && server == old(server)
      ensures old(power) == Some(1) ==> ids.None? && ran >= hi
      ensures ids.Some? ==> ran >= hi && AllFit(items, ids.value)
      ensures old(power).None? ==> ids.Some? && power.None?
    {
      hide UniqueKeys, Recorded, Logged, Segment, ItemFits, NewMessages, ReferencesResolve, IsItem, After, Result;
      var alive := Step();
      if !alive {
        return None;
      }
      var results := ServeItems(items, known, lo, hi);
      alive := Step();
      return if alive then Some(results) else None;
    }

    ghost predicate KnowsUpTo(hi: nat)
      reads this`messages
    {
      hi <= |plan| && messages == After(backend, plan, hi).known
    }

    ghost predicate AllFit(items: seq<Item>, ids: seq<Id>)
      reads this`batch, this`marks
    {
      && |items| == |ids| == |batch| && |marks| == |batch| + 1
      && forall i :: 0 <= i < |ids| ==> Fits(items[i], i, ids[i])
    }

    method ServeItems(items: seq<Item>, ghost known: map<string, Id>, ghost lo: nat, ghost hi: nat)
      returns (ids: seq<Id>)
      requires Plotted(known, items, lo, hi) && ran >= lo
      modifies this`server, this`ran
      ensures Sane() && ran >= hi && AllFit(items, ids)
    {
      hide UniqueKeys, Recorded, Logged, Segment, ItemFits, NewMessages, ReferencesResolve, IsItem, After, Result;
      ids := [];
      for i := 0 to |items|
        invariant Plotted(known, items, lo, hi) && ran >= marks[i]
        invariant |ids| == i && forall k :: 0 <= k < i ==> Fits(items[k], k, ids[k])
      {
        var id := ServeItem(items, items[i], known, i, lo, hi);
        ids := ids + [id];
      }
    }

    /** After an answered batch: every message is known and everything is recorded. */
    method RecordMessages(items: seq<Item>, ids: seq<Id>, ghost lo: nat, ghost hi: nat) returns (ok: bool)
      requires Plotted(messages, items, lo, hi) && ran >= hi && AllFit(items, ids) && Logged(plan, values, lo)
      modifies this`values, this`power, this`messages
      ensures Sane()
      ensures ok ==> KnowsUpTo(hi) && Logged(plan, values, hi)
      ensures old(power).None? ==> ok && power.None?
    {
      hide Logged;
      for i := 0 to |items|
        invariant Sane() && AllFit(items, ids) && KnowsUpTo(marks[i]) && Logged(plan, values, marks[i])
        invariant old(power).None? ==> power.None?
      {
        assert Fits(items[i], i, ids[i]);
        MarksAscend(src, plan, batch, marks, i + 1, |batch|);
        LearnItem(items[i], ids[i], i);
        ok := RecordItem(items[i], ids[i], i);
        if !ok {
          return;
        }
      }
      return true;
    }

    method LearnItem(item: Item, id: Id, ghost i: nat)
      requires i < |batch| && |marks| == |batch| + 1 && Fits(item, i, id) && KnowsUpTo(marks[i])
      modifies this`messages
      ensures KnowsUpTo(marks[i + 1])
    {
      SegmentKnown(src, backend, plan, batch[i], marks[i], marks[i + 1]);
      messages := messages[item.message := id];
    }

    lemma AnswerItem(item: Item, id: Id, byKey: map<Key, Id>, i: nat)
      requires UniqueKeys(plan) && Laid(src, plan, batch, marks) && i < |batch| && Fits(item, i, id)
      requires Answered(backend, plan, batch, marks, i, byKey)
      ensures Answered(backend, plan, batch, marks, i + 1, byKey[item.key := id])
    {
      hide Result;
      UniqueIsDistinct(plan);
      forall j | 0 <= j < i ensures Key(batch[j].id, PostPart) != item.key {
        MarksAscend(src, plan, batch, marks, j, i);
        assert Segment(src, plan, batch[j], marks[j], marks[j + 1]);
        assert plan[marks[j]].key == Key(batch[j].id, PostPart);
      }
    }

    /** One item of the fallback: the post, then its reactions, each with its own call. */
    method SendItem(ghost items: seq<Item>, item: Item, byKey: map<Key, Id>, ghost known: map<string, Id>, ghost i: nat,
                    ghost lo: nat, ghost hi: nat)
      returns (id: Option<Id>)
      requires Plotted(known, items, lo, hi) && i < |batch| && item == items[i] && ran >= marks[i]
      requires Answered(backend, plan, batch, marks, i, byKey) && Logged(plan, values, marks[i])
      modifies this`server, this`values, this`ran, this`power
      ensures Sane()
      ensures id.Some? ==> ran >= marks[i + 1] && Fits(item, i, id.value) && Logged(plan, values, marks[i + 1])
      ensures old(power).None? ==> id.Some? && power.None?
    {
      hide Logged, UniqueKeys, Recorded, After, ItemFits, Result, Segment, NewMessages, ReferencesResolve, IsItem,
        Complete, Answered;
      ItemAsPlanned(src, backend, plan, batch, marks, known, lo, hi, items, i, byKey);
      ItemPlace(item, i);
      id := Send(item.key, Complete(item, byKey), marks[i]);
      if id.None? {
        return;
      }
      var ok := Record(item.key, id.value, marks[i]);
      if !ok {
        return None;
      }
      LoggedNext(plan, old(values), values, marks[i]);
      ok := SendReactionsOf(item, id.value, i);
      return if ok then id else None;
    }

    method NextItem(items: seq<Item>, byKey: map<Key, Id>, ghost known: map<string, Id>, i: nat, ghost lo: nat,
                    ghost hi: nat)
      returns (byKey': map<Key, Id>, ok: bool)
      requires Plotted(known, items, lo, hi) && i < |items| && ran >= marks[i] && KnowsUpTo(marks[i])
      requires Answered(backend, plan, batch, marks, i, byKey) && Logged(plan, values, marks[i])
      modifies this`server, this`values, this`ran, this`power, this`messages
      ensures Plotted(known, items, lo, hi)
      ensures ok ==> Logged(plan, values, marks[i + 1])
      ensures ok ==>
                ran >= marks[i + 1] && KnowsUpTo(marks[i + 1]) && Answered(backend, plan, batch, marks, i + 1, byKey')
      ensures old(power).None? ==> ok && power.None?
    {
      hide Recorded, Logged, UniqueKeys, After, Result;
      var id := SendItem(items, items[i], byKey, known, i, lo, hi);
      if id.None? {
        return byKey, false;
      }
      LearnItem(items[i], id.value, i);
      AnswerItem(items[i], id.value, byKey, i);
      return byKey[items[i].key := id.value], true;
    }

    /** The second half of importMessageBatch: an older server gets one call after the other. */
    method SendItems(items: seq<Item>, ghost known: map<string, Id>, ghost lo: nat, ghost hi: nat) returns (ok: bool)
      requires Plotted(known, items, lo, hi) && ran >= lo && messages == known && Logged(plan, values, lo)
      modifies this`server, this`values, this`ran, this`power, this`messages
      ensures Sane()
      ensures ok ==> ran >= hi && KnowsUpTo(hi) && Logged(plan, values, hi)
      ensures old(power).None? ==> ok && power.None?
    {
      hide Recorded, Logged, UniqueKeys, ItemOf, Result, Segment, NewMessages, ReferencesResolve, IsItem, After;
      var byKey: map<Key, Id> := map[];
      ok := true;
      for i := 0 to |items|
        invariant ok && Plotted(known, items, lo, hi) && ran >= marks[i] && KnowsUpTo(marks[i])
        invariant Logged(plan, values, marks[i])
        invariant Answered(backend, plan, batch, marks, i, byKey)
        invariant old(power).None? ==> power.None?
      {
        byKey, ok := NextItem(items, byKey, known, i, lo, hi);
        if !ok {
          return;
        }
      }
    }

    // ---------------------------------------------------------------- the two queues

    /** The message queue fills the plan from `lo` to `hi`, and everything before `lo` has run. */
    ghost predicate Batched(lo: nat, hi: nat)
      reads this`server, this`values, this`ran, this`pending, this`slots, this`messages, this`batch, this`marks
      reads this`batchMessages, this`batchReactions
    {
      && Sane() && lo <= ran && pending == [] && slots == [] && Logged(plan, values, lo)
      && BatchQueue(src, backend, plan, batch, marks, messages, batchMessages, batchReactions, lo, hi)
    }

    /** Nothing is queued; everything before `c` has run, and nothing behind it is known. */
    ghost predicate Idle(c: nat)
      reads this`server, this`values, this`ran, this`pending, this`slots, this`messages, this`batch, this`marks
      reads this`batchMessages, this`batchReactions
    {
      && Sane() && c <= ran && KnowsUpTo(c) && Logged(plan, values, c)
      && pending == [] && slots == [] && batch == [] && marks == [c] && batchMessages == {} && batchReactions == 0
    }

    /** importMessageBatch: the references always resolve, and the batch is within the server's limits. */
    method ImportMessageBatch(ghost lo: nat, ghost hi: nat) returns (ok: bool)
      requires Batched(lo, hi) && batch != []
      modifies this`server, this`values, this`ran, this`power, this`messages, this`legacyMessageBatches
      ensures Sane()
      ensures ok ==> ran >= hi && KnowsUpTo(hi) && Logged(plan, values, hi)
      ensures old(power).None? ==> ok && power.None?
    {
      hide UniqueKeys, Recorded, Logged, Segment, NewMessages, ReferencesResolve, IsItem, After, Result;
      var items;
      items, ok := BuildItems(src, batch, messages);
      if !legacyMessageBatches && legacyServer {
        legacyMessageBatches := true;
      }
      if legacyMessageBatches {
        ok := SendItems(items, messages, lo, hi);
      } else {
        BatchWithinLimits(src, batch, messages, items);
        var ids := SendMessages(items, messages, lo, hi);
        ok := ids.Some?;
        if ok {
          ok := RecordMessages(items, ids.value, lo, hi);
        }
      }
    }

    /** flushMessages. */
    method FlushMessages(ghost lo: nat, ghost hi: nat) returns (ok: bool)
      requires Batched(lo, hi)
      modifies this`server, this`values, this`ran, this`power, this`messages, this`legacyMessageBatches
      modifies this`batch, this`batchMessages, this`batchReactions, this`marks
      ensures Sane()
      ensures ok ==> Idle(hi)
      ensures old(power).None? ==> ok && power.None?
    {
      hide UniqueKeys, Recorded, Logged, BatchQueue, After;
      ok := true;
      if |batch| > 0 {
        ok := ImportMessageBatch(lo, hi);
      } else {
        EmptyBatch(lo, hi);
      }
      if ok {
        DropBatch(hi);
      }
    }

    lemma EmptyBatch(lo: nat, hi: nat)
      requires Batched(lo, hi) && batch == []
      ensures ran >= hi && KnowsUpTo(hi) && Logged(plan, values, hi)
    {
      hide UniqueKeys, Recorded, Logged;
    }

    method DropBatch(ghost hi: nat)
      requires Sane() && pending == [] && slots == [] && ran >= hi && KnowsUpTo(hi) && Logged(plan, values, hi)
      modifies this`batch, this`batchMessages, this`batchReactions, this`marks
      ensures Idle(hi)
    {
      hide UniqueKeys, Recorded, Logged, After;
      batch, batchMessages, batchReactions, marks := [], {}, 0, [hi];
    }

    /** Queue the first event of a message. */
    method Enqueue(e: Event, ghost lo: nat, ghost hi: nat, ghost next: nat)
      requires Batched(lo, hi) && |batch| < MAX_MESSAGES
      requires Segment(src, plan, e, hi, next) && e.change.text.assets == []
      requires batch != [] ==> e.room == batch[0].room
      requires e.change.message !in messages && e.change.message !in batchMessages
      requires batchReactions + CountOf(e.change.reactions) <= MAX_REACTIONS
      requires Heard(messages, batchMessages, e.change.thread) && Heard(messages, batchMessages, e.change.reply)
      modifies this`batch, this`batchMessages, this`batchReactions, this`marks
      ensures Batched(lo, next) && batch == old(batch) + [e]
    {
      EnqueueKeeps(src, backend, plan, batch, marks, messages, batchMessages, batchReactions, lo, hi, e, next);
      Append(e, lo, next);
    }

    method Append(e: Event, ghost lo: nat, ghost next: nat)
      requires Sane() && lo <= ran && pending == [] && slots == [] && e.change.Introduce? && Logged(plan, values, lo)
      requires BatchQueue(src, backend, plan, batch + [e], marks + [next], messages,
                          batchMessages + {e.change.message}, batchReactions + CountOf(e.change.reactions), lo, next)
      modifies this`batch, this`batchMessages, this`batchReactions, this`marks
      ensures Batched(lo, next) && batch == old(batch) + [e]
    {
      batch, marks := batch + [e], marks + [next];
      batchMessages := batchMessages + {e.change.message};
      batchReactions := batchReactions + CountOf(e.change.reactions);
    }

    // ---------------------------------------------------------------- single operations

    /** Send the operation at `c` with its own call. */
    method ChangeNext(key: Key, wire: Request, ghost c: nat) returns (ok: bool)
      requires Idle(c) && c < |plan| && plan[c].introduces.None?
      requires key == plan[c].key && wire == Resolve(messages, plan[c].request)
      modifies this`server, this`values, this`ran, this`power, this`marks
      ensures Sane()
      ensures ok ==> Idle(c + 1)
      ensures old(power).None? ==> ok && power.None?
    {
      hide Logged;
      ok := Change(key, wire, c);
      if ok {
        LoggedNext(plan, old(values), values, c);
        marks := [c + 1];
      }
    }

    /** The individual path of a post: the journal's identifier, or a call. */
    method PostNext(e: Event, ghost c: nat) returns (ok: bool)
      requires Idle(c) && c < |plan| && e.change.Introduce? && plan[c] == PostOp(src, e)
      modifies this`server, this`values, this`ran, this`power, this`messages, this`marks
      ensures Sane()
      ensures ok ==> Idle(c + 1)
      ensures old(power).None? ==> ok && power.None?
    {
      hide Logged, UniqueKeys, Recorded, After, Result, PostOp;
      PostKnown(e, c);
      var id := Posted(e, c);
      if id.None? {
        return false;
      }
      LoggedNext(plan, old(values), values, c);
      messages, marks := messages[e.change.message := id.value], [c + 1];
      return true;
    }

    lemma PostKnown(e: Event, c: nat)
      requires c < |plan| && e.change.Introduce? && plan[c] == PostOp(src, e)
      ensures plan[c].key == Key(e.id, PostPart)
      ensures After(backend, plan, c +
                1).known == After(backend, plan, c).known[e.change.message := Result(backend, plan, c)]
    {
    }

    method Posted(e: Event, ghost c: nat) returns (id: Option<Id>)
      requires Sane() && c < |plan| && c <= ran && e.change.Introduce? && plan[c] == PostOp(src, e)
      requires messages == After(backend, plan, c).known
      modifies this`server, this`values, this`ran, this`power
      ensures Sane()
      ensures old(values).Keys <= values.Keys
      ensures id.Some? ==> ran > c && id.value == Result(backend, plan, c) && Key(e.id, PostPart) in values
      ensures old(power).None? ==> id.Some? && power.None?
    {
      var key := Key(e.id, PostPart);
      if key in values {
        RecordIs(backend, plan, values, ran, c);
        return Some(values[key]);
      }
      id := Send(key, Resolve(messages, PostOp(src, e).request), c);
      if id.Some? {
        var ok := Record(key, id.value, c);
        return if ok then id else None;
      }
    }

    /** Reaction changes of one room are queued; nothing else is. */
    ghost predicate Reacting(lo: nat, hi: nat, room: string)
      reads this`server, this`values, this`ran, this`pending, this`slots, this`messages
    {
      Queued(lo, hi) && |pending| < MAX_REACTIONS && AllIn(pending, room)
    }

    /** react: queue the change unless the journal has it, and flush a full queue. */
    method React(e: Event, message: string, pair: Pair, present: bool, when: Option<string>, ghost lo: nat,
                 ghost hi: nat)
      returns (ok: bool, ghost lo': nat)
      requires Reacting(lo, hi, src.rooms(e.room)) && hi < |plan|
      requires plan[hi] == ReactOp(src, e, message, pair, present, when)
      modifies this`server, this`values, this`ran, this`power, this`pending, this`slots, this`legacyReactions
      modifies this`reactions
      ensures Sane()
      ensures ok ==> Reacting(lo', hi + 1, src.rooms(e.room))
      ensures ok ==> reactions == Noted(old(reactions), message, pair, present)
      ensures old(power).None? ==> ok && power.None?
    {
      QueueReaction(e, message, pair, present, when, lo, hi);
      ok, lo' := FlushFull(lo, hi + 1, src.rooms(e.room));
      reactions := Noted(reactions, message, pair, present);
    }

    method FlushFull(ghost lo: nat, ghost hi: nat, ghost room: string) returns (ok: bool, ghost lo': nat)
      requires Queued(lo, hi) && AllIn(pending, room)
      modifies this`server, this`values, this`ran, this`power, this`pending, this`slots, this`legacyReactions
      ensures Sane()
      ensures ok ==> Reacting(lo', hi, room)
      ensures old(power).None? ==> ok && power.None?
    {
      ok, lo' := true, lo;
      if |pending| == MAX_REACTIONS {
        ok := Flush(lo, hi);
        lo' := hi;
      }
    }

    method QueueReaction(e: Event, message: string, pair: Pair, present: bool, when: Option<string>, ghost lo: nat,
                         ghost hi: nat)
      requires Reacting(lo, hi, src.rooms(e.room)) && hi < |plan|
      requires plan[hi] == ReactOp(src, e, message, pair, present, when)
      modifies this`pending, this`slots
      ensures Queued(lo, hi + 1) && AllIn(pending, src.rooms(e.room))
    {
      hide UniqueKeys, Recorded, Logged, Queue, After;
      var op := ReactOp(src, e, message, pair, present, when);
      QueueGrows(backend, plan, values, pending, slots, lo, hi, Resolve(messages, op.request));
      if op.key !in values {
        pending, slots := pending + [Call(op.key, Resolve(messages, op.request))], slots + [hi];
      }
    }

    // ---------------------------------------------------------------- reconciliation

    method ReactUnless(settled: bool, e: Event, message: string, pair: Pair, present: bool, ghost lo: nat, ghost c: nat,
                       ghost d: nat)
      returns (ok: bool, ghost lo': nat)
      requires Reacting(lo, c, src.rooms(e.room))
      requires if settled then d == c
                 else d == c + 1 && c < |plan| && plan[c] == ReactOp(src, e, message, pair, present, None)
      modifies this`server, this`values, this`ran, this`power, this`pending, this`slots, this`legacyReactions
      modifies this`reactions
      ensures Sane()
      ensures ok ==> Reacting(lo', d, src.rooms(e.room))
      ensures ok ==> reactions == if settled then old(reactions) else Noted(old(reactions), message, pair, present)
      ensures old(power).None? ==> ok && power.None?
    {
      ok, lo' := true, lo;
      if !settled {
        ok, lo' := React(e, message, pair, present, None, lo, c);
      }
    }

    method ReactStep(e: Event, message: string, pairs: seq<Pair>, settled: set<Pair>, present: bool, i: nat,
                     ghost ops: seq<Op>, ghost start: map<string, set<Pair>>, ghost lo: nat,
                       ghost c: nat) returns (ok: bool, ghost lo': nat)
      requires ops == ReactOps(src, e, message, pairs, settled, present) && Stands(plan, c, ops) && i < |pairs|
      requires Reacting(lo, c + Needed(src, e, message, pairs, settled, present, i), src.rooms(e.room))
      requires NotedUpTo(start, reactions, message, pairs, settled, present, i)
      modifies this`server, this`values, this`ran, this`power, this`pending, this`slots, this`legacyReactions
      modifies this`reactions
      ensures Sane()
      ensures ok ==> Reacting(lo', c + Needed(src, e, message, pairs, settled, present, i + 1), src.rooms(e.room))
      ensures ok ==> NotedUpTo(start, reactions, message, pairs, settled, present, i + 1)
      ensures old(power).None? ==> ok && power.None?
    {
      hide ReactOps, Queue, Recorded, Logged, UniqueKeys, After;
      ghost var next := NextStanding(plan, src, e, message, pairs, settled, present, i, c);
      ok, lo' := ReactUnless(pairs[i] in settled, e, message, pairs[i], present, lo,
                             c + Needed(src, e, message, pairs, settled, present, i), next);
      if ok {
        NotedOneMore(start, old(reactions), reactions, message, pairs, settled, present, i);
      }
    }

    /** Queue a change for every listed pair that is not settled. */
    method ReactAll(e: Event, message: string, pairs: seq<Pair>, settled: set<Pair>, present: bool, ghost ops: seq<Op>,
                    ghost lo: nat, ghost c: nat)
      returns (ok: bool, ghost lo': nat)
      requires ops == ReactOps(src, e, message, pairs, settled, present) && Stands(plan, c, ops)
      requires Reacting(lo, c, src.rooms(e.room))
      modifies this`server, this`values, this`ran, this`power, this`pending, this`slots, this`legacyReactions
      modifies this`reactions
      ensures Sane()
      ensures ok ==> Reacting(lo', c + |ops|, src.rooms(e.room))
      ensures ok ==> NotedAll(old(reactions), reactions, message, Unsettled(pairs, settled), present)
      ensures old(power).None? ==> ok && power.None?
    {
      hide Queue, Recorded, Logged, UniqueKeys, After;
      ok, lo' := true, lo;
      AllNeeded(src, e, message, pairs, settled, present);
      for i := 0 to |pairs|
        invariant Reacting(lo', c + Needed(src, e, message, pairs, settled, present, i), src.rooms(e.room))
        invariant (old(power).None? ==> power.None?)
        invariant ok && NotedUpTo(old(reactions), reactions, message, pairs, settled, present, i)
      {
        ok, lo' := ReactStep(e, message, pairs, settled, present, i, ops, old(reactions), lo', c);
        if !ok {
          return;
        }
      }
    }

    /** Drop what is tracked and not final. */
    method RemoveGone(e: Event, message: string, final: set<Pair>, ghost ops: seq<Op>, ghost lo: nat, ghost c: nat)
      returns (ok: bool, ghost lo': nat)
      requires Reacting(lo, c, src.rooms(e.room)) && Stands(plan, c, ops)
      requires ops == ReactOps(src, e, message, SortedPairs(Tracked(reactions, message)), final, false)
      modifies this`server, this`values, this`ran, this`power, this`pending, this`slots, this`legacyReactions
      modifies this`reactions
      ensures Sane()
      ensures ok ==> Reacting(lo', c + |ops|, src.rooms(e.room))
      ensures ok ==> Becomes(old(reactions), reactions, message, Tracked(old(reactions), message) * final)
      ensures old(power).None? ==> ok && power.None?
    {
      hide ReactOps, Queue, Recorded, Logged, UniqueKeys, After;
      PairLessIsATotalOrder();
      var gone := SortedKeys(PairLess, Tracked(reactions, message));
      ok, lo' := ReactAll(e, message, gone, final, false, ops, lo, c);
      assert Tracked(old(reactions), message) - Unsettled(gone, final) == Tracked(old(reactions), message) * final;
    }

    /** Add what is final and not tracked; `before` is what was tracked before anything was dropped. */
    method AddFinal(e: Event, message: string, final: set<Pair>, ghost before: set<Pair>, ghost ops: seq<Op>,
                    ghost lo: nat, ghost c: nat)
      returns (ok: bool, ghost lo': nat)
      requires Reacting(lo, c, src.rooms(e.room)) && Tracked(reactions, message) == before * final
      requires ops == ReactOps(src, e, message, SortedPairs(final), before, true) && Stands(plan, c, ops)
      modifies this`server, this`values, this`ran, this`power, this`pending, this`slots, this`legacyReactions
      modifies this`reactions
      ensures Sane()
      ensures ok ==> Reacting(lo', c + |ops|, src.rooms(e.room))
      ensures ok ==> Becomes(old(reactions), reactions, message, final)
      ensures old(power).None? ==> ok && power.None?
    {
      hide ReactOps, Queue, Recorded, Logged, UniqueKeys, After;
      PairLessIsATotalOrder();
      var added := SortedKeys(PairLess, final);
      var kept := Tracked(reactions, message);
      ReactOpsSettled(src, e, message, added, kept, before, true);
      ok, lo' := ReactAll(e, message, added, kept, true, ops, lo, c);
      assert kept + Unsettled(added, kept) == final;
    }

    /** The snapshot branch: afterwards exactly the snapshot's reactions are tracked. */
    method Reconcile(e: Event, message: string, listed: seq<Reaction>, ghost ops: seq<Op>, ghost lo: nat, ghost c: nat)
      returns (ok: bool, ghost lo': nat)
      requires Reacting(lo, c, src.rooms(e.room)) && Stands(plan, c, ops)
      requires ops == SnapshotOps(src, e, message, Tracked(reactions, message), FinalPairs(src, listed))
      modifies this`server, this`values, this`ran, this`power, this`pending, this`slots, this`legacyReactions
      modifies this`reactions
      ensures Sane()
      ensures ok ==> Reacting(lo', c + |ops|, src.rooms(e.room))
      ensures ok ==> Becomes(old(reactions), reactions, message, FinalPairs(src, listed))
      ensures old(power).None? ==> ok && power.None?
    {
      hide ReactOps, Queue, Recorded, Logged, UniqueKeys, After, SortedPairs, FinalPairs, Noted;
      var final := FinalReactions(src, listed);
      ghost var before := Tracked(reactions, message);
      ghost var removals := ReactOps(src, e, message, SortedPairs(before), final, false);
      ghost var additions := ReactOps(src, e, message, SortedPairs(final), before, true);
      StandsInParts(plan, c, removals, additions);
      ok, lo' := RemoveGone(e, message, final, removals, lo, c);
      if ok {
        ok, lo' := AddFinal(e, message, final, before, additions, lo', c + |removals|);
      }
    }

    /** join: one membership change with its own call. */
    method Join(e: Event, user: string, present: bool, hidden: bool, ghost c: nat) returns (ok: bool)
      requires Idle(c) && c < |plan| && plan[c] == MemberOp(src, e, user, present, hidden)
      modifies this`server, this`values, this`ran, this`power, this`marks, this`members
      ensures Sane()
      ensures ok ==> Idle(c + 1) && members == Seated(old(members), src.rooms(e.room), user, present)
      ensures old(power).None? ==> ok && power.None?
    {
      var op := MemberOp(src, e, user, present, hidden);
      ok := ChangeNext(op.key, Resolve(messages, op.request), c);
      members := Seated(members, src.rooms(e.room), user, present);
    }

    method JoinStep(e: Event, users: seq<string>, settled: set<string>, present: bool, i: nat,
                    ghost ops: seq<Op>, ghost start: map<string, set<string>>, ghost c: nat) returns (ok: bool)
      requires ops == MemberOps(src, e, users, settled, present) && Stands(plan, c, ops) && i < |users|
      requires Idle(c + SeatsNeeded(src, e, users, settled, present, i))
      requires SeatedUpTo(start, members, src.rooms(e.room), users, settled, present, i)
      modifies this`server, this`values, this`ran, this`power, this`marks, this`members
      ensures Sane()
      ensures ok ==> Idle(c + SeatsNeeded(src, e, users, settled, present, i + 1))
      ensures ok ==> SeatedUpTo(start, members, src.rooms(e.room), users, settled, present, i + 1)
      ensures old(power).None? ==> ok && power.None?
    {
      hide MemberOps, Recorded, Logged, UniqueKeys, After;
      NextSeat(plan, src, e, users, settled, present, i, c);
      ok := true;
      if users[i] !in settled {
        ok := Join(e, users[i], present, true, c + SeatsNeeded(src, e, users, settled, present, i));
      }
      if ok {
        SeatedOneMore(start, old(members), members, src.rooms(e.room), users, settled, present, i);
      }
    }

    method JoinAll(e: Event, users: seq<string>, settled: set<string>, present: bool, ghost ops: seq<Op>, ghost c: nat)
      returns (ok: bool)
      requires ops == MemberOps(src, e, users, settled, present) && Stands(plan, c, ops) && Idle(c)
      modifies this`server, this`values, this`ran, this`power, this`marks, this`members
      ensures Sane()
      ensures ok ==>
          Idle(c + |ops|) && SeatedAll(old(members), members, src.rooms(e.room), Unsettled(users, settled), present)
      ensures old(power).None? ==> ok && power.None?
    {
      hide MemberOps, Recorded, Logged, UniqueKeys, After;
      ok := true;
      AllSeats(src, e, users, settled, present);
      for i := 0 to |users|
        invariant ok && Idle(c + SeatsNeeded(src, e, users, settled, present, i))
        invariant (old(power).None? ==> power.None?)
        invariant SeatedUpTo(old(members), members, src.rooms(e.room), users, settled, present, i)
      {
        ok := JoinStep(e, users, settled, present, i, ops, old(members), c);
        if !ok {
          return;
        }
      }
    }

    method LeaveGone(e: Event, final: set<string>, ghost before: set<string>, ghost ops: seq<Op>, ghost c: nat)
      returns (ok: bool)
      requires Idle(c) && Stands(plan, c, ops) && before == Tracked(members, src.rooms(e.room))
      requires ops == MemberOps(src, e, SortedUsers(before), final, false)
      modifies this`server, this`values, this`ran, this`power, this`marks, this`members
      ensures Sane()
      ensures ok ==> Idle(c + |ops|)
      ensures ok ==> Becomes(old(members), members, src.rooms(e.room), before * final)
      ensures old(power).None? ==> ok && power.None?
    {
      hide MemberOps, Recorded, Logged, UniqueKeys, After;
      LessIsATotalOrder();
      var leaving := SortedKeys(Less, Tracked(members, src.rooms(e.room)));
      ok := JoinAll(e, leaving, final, false, ops, c);
      assert before - Unsettled(leaving, final) == before * final;
    }

    method JoinFinal(e: Event, final: set<string>, ghost before: set<string>, ghost ops: seq<Op>, ghost c: nat)
      returns (ok: bool)
      requires Idle(c) && Stands(plan, c, ops) && Tracked(members, src.rooms(e.room)) == before * final
      requires ops == MemberOps(src, e, SortedUsers(final), before, true)
      modifies this`server, this`values, this`ran, this`power, this`marks, this`members
      ensures Sane()
      ensures ok ==> Idle(c + |ops|) && Becomes(old(members), members, src.rooms(e.room), final)
      ensures old(power).None? ==> ok && power.None?
    {
      hide MemberOps, Recorded, Logged, UniqueKeys, After;
      LessIsATotalOrder();
      var joining := SortedKeys(Less, final);
      var kept := Tracked(members, src.rooms(e.room));
      MemberOpsSettled(src, e, joining, kept, before, true);
      ok := JoinAll(e, joining, kept, true, ops, c);
      assert kept + Unsettled(joining, kept) == final;
    }

    /** The membership snapshot: afterwards exactly the snapshot's members are tracked. */
    method ReconcileMembers(e: Event, listed: seq<string>, ghost ops: seq<Op>, ghost c: nat) returns (ok: bool)
      requires Idle(c) && Stands(plan, c, ops)
      requires ops == MembershipOps(src, e, Tracked(members, src.rooms(e.room)), FinalMembers(src, listed))
      modifies this`server, this`values, this`ran, this`power, this`marks, this`members
      ensures Sane()
      ensures ok ==> Idle(c + |ops|)
      ensures ok ==> Becomes(old(members), members, src.rooms(e.room), FinalMembers(src, listed))
      ensures old(power).None? ==> ok && power.None?
    {
      hide MemberOps, Recorded, Logged, UniqueKeys, After;
      var final := set u | u in listed :: src.users(u);
      ghost var before := Tracked(members, src.rooms(e.room));
      ghost var gone := MemberOps(src, e, SortedUsers(before), final, false);
      ghost var added := MemberOps(src, e, SortedUsers(final), before, true);
      StandsInParts(plan, c, gone, added);
      ok := LeaveGone(e, final, before, gone, c);
      if ok {
        ok := JoinFinal(e, final, before, added, c + |gone|);
      }
    }

    // ---------------------------------------------------------------- one event after the other

    /** The indexes are what the events before `n` make of them. */
    ghost predicate Tracks(n: nat)
      requires n <= |src.events|
      reads this`reactions, this`members
    {
      SameIndex(reactions, TrackAt(src, n).reactions) && SameIndex(members, TrackAt(src, n).members)
    }

    /** Between two events: one of the two queues may hold something, never both. */
    ghost predicate Ready(n: nat)
      reads this`server, this`values, this`ran, this`messages, this`reactions, this`members, this`pending, this`slots
      reads this`batch, this`marks, this`batchMessages, this`batchReactions, this`base, this`room
    {
      && Planned() && n <= |src.events| && Tracks(n)
      && (pending == [] || batch == [])
      && if batch == [] then batchMessages == {} && batchReactions == 0 && Reacting(base, At(src, n), room)
         else Batched(base, At(src, n)) && |batch| < MAX_MESSAGES
    }

    /** Whoever has been introduced is known by now or waits in the message queue. */
    lemma WhoIsIntroduced(n: nat, name: string)
      requires Ready(n)
      ensures name in TrackAt(src, n).introduced <==> name in messages || name in batchMessages
    {
      KnownIsIntroduced(backend, src, plan, n, name);
      if batch == [] {
        NothingIntroduced(backend, plan, base, At(src, n));
      } else {
        BatchIntroduces(src, backend, plan, batch, marks, messages, batchMessages, batchReactions, base, At(src, n),
                        name);
      }
    }

    /** flush, where reaction changes may be pending. */
    method FlushPending(ghost n: nat) returns (ok: bool)
      requires Ready(n) && batch == []
      modifies this`server, this`values, this`ran, this`power, this`messages, this`reactions, this`members, this`pending
      modifies this`slots
      modifies this`batch, this`marks, this`batchMessages, this`batchReactions, this`legacyReactions
      modifies this`legacyMessageBatches, this`base, this`room
      ensures Sane()
      ensures ok ==> Idle(At(src, n)) && reactions == old(reactions) && members == old(members)
      ensures old(power).None? ==> ok && power.None?
    {
      hide Recorded, Logged, UniqueKeys, Queue, After, TrackAt, SameIndex;
      ok := Flush(base, At(src, n));
      if ok {
        marks := [At(src, n)];
      }
    }

    /** Both flushes. */
    method FlushAll(ghost n: nat) returns (ok: bool)
      requires Ready(n)
      modifies this`server, this`values, this`ran, this`power, this`messages, this`reactions, this`members, this`pending
      modifies this`slots
      modifies this`batch, this`marks, this`batchMessages, this`batchReactions, this`legacyReactions
      modifies this`legacyMessageBatches, this`base, this`room
      ensures Sane()
      ensures ok ==> Idle(At(src, n)) && reactions == old(reactions) && members == old(members)
      ensures old(power).None? ==> ok && power.None?
    {
      hide Queue, Recorded, Logged, UniqueKeys, BatchQueue;
      if |batch| > 0 {
        ok := FlushMessages(base, At(src, n));
      } else {
        ok := FlushPending(n);
      }
    }

    /** The queue can take a message of this room with this many reactors. */
    ghost predicate Takes(n: nat, e: Event)
      requires n <= |src.events| && e.change.Introduce?
      reads this`server, this`values, this`ran, this`messages, this`pending, this`slots, this`batch, this`marks
      reads this`batchMessages, this`batchReactions, this`base
    {
      && Batched(base, At(src, n)) && |batch| < MAX_MESSAGES
      && (batch != [] ==> batch[0].room == e.room) && batchReactions + CountOf(e.change.reactions) <= MAX_REACTIONS
      && AllHeard(n)
    }

    /** Known or queued are exactly the messages that the events before `n` introduced. */
    ghost predicate AllHeard(n: nat)
      requires n <= |src.events|
      reads this`messages, this`batchMessages
    {
      forall name :: name in TrackAt(src, n).introduced <==> name in messages || name in batchMessages
    }

    lemma ReadyHeard(n: nat)
      requires Ready(n)
      ensures AllHeard(n)
    {
      hide Queue, BatchQueue, Recorded, UniqueKeys, Logged, After, TrackAt, SameIndex;
      forall name ensures name in TrackAt(src, n).introduced <==> name in messages || name in batchMessages {
        WhoIsIntroduced(n, name);
      }
    }

    lemma IdleHeard(n: nat)
      requires Planned() && n <= |src.events| && Idle(At(src, n))
      ensures AllHeard(n)
    {
      hide Recorded, UniqueKeys, Logged, After, TrackAt;
      forall name ensures name in TrackAt(src, n).introduced <==> name in messages || name in batchMessages {
        IdleKnows(n, name);
      }
    }

    /** Make room for a message in the queue: flush what must not be in one commit with it. */
    method PrepareQueue(e: Event, ghost n: nat) returns (ok: bool)
      requires Ready(n) && e.change.Introduce? && CountOf(e.change.reactions) <= MAX_REACTIONS
      modifies this`server, this`values, this`ran, this`power, this`messages, this`reactions, this`members, this`pending
      modifies this`slots
      modifies this`batch, this`marks, this`batchMessages, this`batchReactions, this`legacyReactions
      modifies this`legacyMessageBatches, this`base, this`room
      ensures Sane()
      ensures ok ==> Takes(n, e) && reactions == old(reactions) && members == old(members)
      ensures old(power).None? ==> ok && power.None?
    {
      hide Queue, BatchQueue, Recorded, Logged, UniqueKeys, After, CountOf, TrackAt, SameIndex, AllHeard;
      ReadyHeard(n);
      ok := true;
      if |batch| == 0 {
        ok := FlushPending(n);
      } else if batch[0].room != e.room || batchReactions + CountOf(e.change.reactions) > MAX_REACTIONS {
        ok := FlushMessages(base, At(src, n));
      }
      if ok && |batch| == 0 {
        base := At(src, n);
        IdleIsBatched(base);
        IdleHeard(n);
      }
    }

    lemma IdleIsBatched(c: nat)
      requires Idle(c)
      ensures Batched(c, c)
    {
    }

    /** Nothing queued is one way to be ready. */
    lemma IdleIsReady(n: nat)
      requires Planned() && n <= |src.events| && Tracks(n) && Idle(At(src, n)) && base == At(src, n)
      ensures Ready(n)
    {
      hide Recorded, Logged, UniqueKeys, After, TrackAt, SameIndex;
    }

    lemma BatchIsReady(n: nat)
      requires Planned() && n <= |src.events| && Tracks(n) && Batched(base, At(src, n)) && 0 < |batch| < MAX_MESSAGES
      ensures Ready(n)
    {
      hide Queue, Recorded, Logged, UniqueKeys, After, Plot, BatchQueue, TrackAt, SameIndex;
    }

    /** The branch for a message that can wait: queue it, and send a full queue. */
    method VisitQueued(n: nat) returns (ok: bool)
      requires Ready(n) && n < |src.events| && FileFreeIntroduction(src.events[n])
      requires src.events[n].change.message !in messages && src.events[n].change.message !in batchMessages
      requires CountOf(src.events[n].change.reactions) <= MAX_REACTIONS
      modifies this`server, this`values, this`ran, this`power, this`messages, this`reactions, this`members, this`pending
      modifies this`slots
      modifies this`batch, this`marks, this`batchMessages, this`batchReactions, this`legacyReactions
      modifies this`legacyMessageBatches, this`base, this`room
      ensures Sane()
      ensures ok ==> Ready(n + 1)
      ensures old(power).None? ==> ok && power.None?
    {
      hide Queue, BatchQueue, Recorded, Logged, UniqueKeys, After, CountOf, Segment;
      WhoIsIntroduced(n, src.events[n].change.message);
      ok := PrepareQueue(src.events[n], n);
      if ok {
        QueueFirst(n);
        ok := FlushFullBatch(n + 1);
      }
    }

    method FlushFullBatch(ghost n: nat) returns (ok: bool)
      requires Planned() && n <= |src.events| && Tracks(n) && Batched(base, At(src, n)) && batch != []
      modifies this`server, this`values, this`ran, this`power, this`messages, this`reactions, this`members, this`pending
      modifies this`slots
      modifies this`batch, this`marks, this`batchMessages, this`batchReactions, this`legacyReactions
      modifies this`legacyMessageBatches, this`base, this`room
      ensures Sane()
      ensures ok ==> Ready(n)
      ensures old(power).None? ==> ok && power.None?
    {
      hide Queue, Recorded, Logged, UniqueKeys, After, Plot, TrackAt;
      ok := true;
      if |batch| == MAX_MESSAGES {
        ok := FlushMessages(base, At(src, n));
        if ok {
          base := At(src, n);
          IdleIsReady(n);
        }
      } else {
        BatchIsReady(n);
      }
    }

    method QueueFirst(n: nat)
      requires Planned() && n < |src.events| && Tracks(n) && FileFreeIntroduction(src.events[n])
      requires Takes(n, src.events[n])
      requires Introduces(TrackAt(src, n), src.events[n])
      modifies this`server, this`values, this`ran, this`power, this`messages, this`reactions, this`members, this`pending
      modifies this`slots
      modifies this`batch, this`marks, this`batchMessages, this`batchReactions, this`legacyReactions
      modifies this`legacyMessageBatches, this`base, this`room
      ensures Batched(base, At(src, n + 1)) && batch != [] && Tracks(n + 1) && power == old(power)
    {
      hide Recorded, Logged, UniqueKeys, Queue, FinalPairs, CountOf, Segment, BatchQueue, SameIndex, After, Joined,
        OpsOf, TrackAt;
      var e := src.events[n];
      assert EventOk(TrackAt(src, n), e);
      SegmentOfEvent(src, plan, n);
      Enqueue(e, base, At(src, n), At(src, n + 1));
      var final := FinalReactions(src, e.change.reactions);
      FirstTracked(src, n, reactions, final);
      reactions := reactions[e.change.message := final];
    }

    /** The queue of reaction changes is open for this room; nothing else is queued. */
    ghost predicate Open(n: nat, r: string)
      requires n <= |src.events|
      reads this`server, this`values, this`ran, this`messages, this`pending, this`slots, this`batch, this`batchMessages
      reads this`batchReactions, this`base
    {
      batch == [] && batchMessages == {} && batchReactions == 0 && Reacting(base, At(src, n), r)
    }

    /** Reaction changes of one room stay together; any other queue is flushed first. */
    method OpenReactions(r: string, ghost n: nat) returns (ok: bool)
      requires Ready(n)
      modifies this`server, this`values, this`ran, this`power, this`messages, this`reactions, this`members, this`pending
      modifies this`slots
      modifies this`batch, this`marks, this`batchMessages, this`batchReactions, this`legacyReactions
      modifies this`legacyMessageBatches, this`base, this`room
      ensures Sane()
      ensures ok ==> Open(n, r) && reactions == old(reactions) && members == old(members)
      ensures old(power).None? ==> ok && power.None?
    {
      hide Queue, BatchQueue, Recorded, Logged, UniqueKeys, After, SameIndex, TrackAt;
      if |batch| == 0 && |pending| > 0 && pending[0].wire.stamp.room == r {
        SameRoom(n, r);
        return true;
      }
      ok := FlushAll(n);
      if ok {
        base := At(src, n);
        IdleIsOpen(n, r);
      }
    }

    lemma SameRoom(n: nat, r: string)
      requires Ready(n) && batch == [] && pending != [] && pending[0].wire.stamp.room == r
      ensures Open(n, r)
    {
      hide Queue, Recorded, Logged, UniqueKeys, After, SameIndex, TrackAt;
    }

    lemma IdleIsOpen(n: nat, r: string)
      requires n <= |src.events| && Idle(At(src, n)) && base == At(src, n)
      ensures Open(n, r)
    {
      hide Recorded, Logged, UniqueKeys, After;
    }

    lemma OpenIsReady(n: nat)
      requires Planned() && n <= |src.events| && Tracks(n) && Open(n, room)
      ensures Ready(n)
    {
      hide Queue, Recorded, Logged, UniqueKeys, After, SameIndex, TrackAt;
    }

    /** A reaction event. */
    method VisitReaction(n: nat) returns (ok: bool)
      requires Ready(n) && n < |src.events| && src.events[n].change.Reacted?
      modifies this`server, this`values, this`ran, this`power, this`messages, this`reactions, this`members, this`pending
      modifies this`slots
      modifies this`batch, this`marks, this`batchMessages, this`batchReactions, this`legacyReactions
      modifies this`legacyMessageBatches, this`base, this`room
      ensures Sane()
      ensures ok ==> Ready(n + 1)
      ensures old(power).None? ==> ok && power.None?
    {
      hide Queue, BatchQueue, Recorded, Logged, UniqueKeys, After, SameIndex, TrackAt;
      var e := src.events[n];
      ok := OpenReactions(src.rooms(e.room), n);
      if ok {
        ok := ReactOnce(e, n);
      }
    }

    method ReactOnce(e: Event, n: nat) returns (ok: bool)
      requires Planned() && n < |src.events| && e == src.events[n] && e.change.Reacted? && Tracks(n)
      requires Open(n, src.rooms(e.room))
      modifies this`server, this`values, this`ran, this`power, this`messages, this`reactions, this`members, this`pending
      modifies this`slots
      modifies this`batch, this`marks, this`batchMessages, this`batchReactions, this`legacyReactions
      modifies this`legacyMessageBatches, this`base, this`room
      ensures Sane()
      ensures ok ==> Ready(n + 1)
      ensures old(power).None? ==> ok && power.None?
    {
      hide Queue, Recorded, Logged, UniqueKeys, After, Joined, TrackAt, OpsOf, Noted, SameIndex;
      var c := e.change;
      ReactionOp(src, plan, n);
      ghost var next;
      ok, next := React(e, c.message, Pair(c.emoji, src.users(c.user)), c.present, e.at, base, At(src, n));
      if ok {
        base, room := next, src.rooms(e.room);
        ReactionTracked(src, n, old(reactions), reactions);
        OpenIsReady(n + 1);
      }
    }

    /** Posts, snapshots and edits that go out on their own. */
    method VisitContent(n: nat) returns (ok: bool)
      requires Ready(n) && n < |src.events| && (src.events[n].change.Introduce? || src.events[n].change.Edited?)
      modifies this`server, this`values, this`ran, this`power, this`messages, this`reactions, this`members, this`pending
      modifies this`slots
      modifies this`batch, this`marks, this`batchMessages, this`batchReactions, this`legacyReactions
      modifies this`legacyMessageBatches, this`base, this`room
      ensures Sane()
      ensures ok ==> Ready(n + 1)
      ensures old(power).None? ==> ok && power.None?
    {
      hide Queue, Recorded, Logged, UniqueKeys, After, Joined, TrackAt, OpsOf, SameIndex, Becomes, Resolve, BatchQueue,
        SnapshotOps, MembershipOps, FinalPairs, Seated;
      ok := FlushAll(n);
      if ok {
        ok := SendContent(n);
      }
      if ok {
        ok := ReconcileContent(n);
      }
    }

    method SendContent(n: nat) returns (ok: bool)
      requires Planned() && n < |src.events| && Tracks(n) && Idle(At(src, n))
      requires src.events[n].change.Introduce? || src.events[n].change.Edited?
      modifies this`server, this`values, this`ran, this`power, this`messages, this`reactions, this`members, this`pending
      modifies this`slots
      modifies this`batch, this`marks, this`batchMessages, this`batchReactions, this`legacyReactions
      modifies this`legacyMessageBatches, this`base, this`room
      ensures Sane()
      ensures ok ==> Idle(At(src, n) + 1) && reactions == old(reactions) && members == old(members)
      ensures old(power).None? ==> ok && power.None?
    {
      hide Queue, Recorded, Logged, UniqueKeys, After, Joined, OpsOf, SameIndex, Becomes, Resolve, TrackAt;
      var e := src.events[n];
      ContentFirst(src, plan, n);
      IdleKnows(n, e.change.message);
      if e.change.Introduce? && e.change.message !in messages {
        ok := PostNext(e, At(src, n));
      } else {
        ok := ChangeNext(ContentOp(src, e).key, Resolve(messages, ContentOp(src, e).request), At(src, n));
      }
    }

    lemma IdleKnows(n: nat, name: string)
      requires Planned() && n <= |src.events| && Idle(At(src, n))
      ensures name in messages <==> name in TrackAt(src, n).introduced
    {
      KnownIsIntroduced(backend, src, plan, n, name);
    }

    method ReconcileContent(n: nat) returns (ok: bool)
      requires Planned() && n < |src.events| && Tracks(n) && Idle(At(src, n) + 1)
      requires src.events[n].change.Introduce? || src.events[n].change.Edited?
      modifies this`server, this`values, this`ran, this`power, this`messages, this`reactions, this`members, this`pending
      modifies this`slots
      modifies this`batch, this`marks, this`batchMessages, this`batchReactions, this`legacyReactions
      modifies this`legacyMessageBatches, this`base, this`room
      ensures Sane()
      ensures ok ==> Ready(n + 1)
      ensures old(power).None? ==> ok && power.None?
    {
      hide Queue, Recorded, Logged, UniqueKeys, After, Joined, TrackAt, OpsOf, SameIndex, Becomes, Resolve, BatchQueue,
        SnapshotOps, MembershipOps, FinalPairs, Seated;
      var e := src.events[n];
      ContentRest(src, plan, n);
      if e.change.Introduce? && e.change.snapshot {
        ok := ReconcileSnapshot(e, n);
      } else {
        ok, base := true, At(src, n + 1);
        ContentTracked(src, n, reactions);
        IdleIsReady(n + 1);
      }
    }

    method ReconcileSnapshot(e: Event, n: nat) returns (ok: bool)
      requires Planned() && n < |src.events| && e == src.events[n] && Tracks(n) && Idle(At(src, n) + 1)
      requires e.change.Introduce? && e.change.snapshot
      modifies this`server, this`values, this`ran, this`power, this`messages, this`reactions, this`members, this`pending
      modifies this`slots
      modifies this`batch, this`marks, this`batchMessages, this`batchReactions, this`legacyReactions
      modifies this`legacyMessageBatches, this`base, this`room
      ensures Sane()
      ensures ok ==> Ready(n + 1)
      ensures old(power).None? ==> ok && power.None?
    {
      hide Queue, Recorded, Logged, UniqueKeys, After, Joined, TrackAt, OpsOf, SameIndex, Becomes, Resolve, BatchQueue,
        SnapshotOps, MembershipOps, FinalPairs, Seated;
      var c := e.change;
      ghost var ops := SnapshotOps(src, e, c.message, Tracked(reactions, c.message), FinalPairs(src, c.reactions));
      SnapshotStands(src, plan, n, reactions);
      IdleIsReacting(At(src, n) + 1, src.rooms(e.room));
      ghost var next;
      ok, next := Reconcile(e, c.message, c.reactions, ops, At(src, n) + 1, At(src, n) + 1);
      if ok {
        base, room := next, src.rooms(e.room);
        SnapshotTracked(src, n, old(reactions), reactions);
        ReactingIsReady(n + 1);
      }
    }

    lemma IdleIsReacting(c: nat, r: string)
      requires Idle(c)
      ensures Reacting(c, c, r)
    {
    }

    lemma ReactingIsReady(n: nat)
      requires Planned() && n <= |src.events| && Tracks(n) && Reacting(base, At(src, n), room)
      requires batch == [] && batchMessages == {} && batchReactions == 0
      ensures Ready(n)
    {
      hide Queue, Recorded, Logged, UniqueKeys, After, SameIndex, TrackAt, Joined;
    }

    /** Deletions, thread declarations and room changes: one call each. */
    method VisitPlain(n: nat) returns (ok: bool)
      requires Ready(n) && n < |src.events|
      requires var c := src.events[n].change; c.Deleted? || c.ThreadCreated? || c.RoomChanged?
      modifies this`server, this`values, this`ran, this`power, this`messages, this`reactions, this`members, this`pending
      modifies this`slots
      modifies this`batch, this`marks, this`batchMessages, this`batchReactions, this`legacyReactions
      modifies this`legacyMessageBatches, this`base, this`room
      ensures Sane()
      ensures ok ==> Ready(n + 1)
      ensures old(power).None? ==> ok && power.None?
    {
      hide Queue, Recorded, Logged, UniqueKeys, After, Joined, TrackAt, OpsOf, SameIndex, Becomes, Resolve, BatchQueue,
        SnapshotOps, MembershipOps, FinalPairs, Seated;
      ok := FlushAll(n);
      if ok {
        var op := PlainOp(src, src.events[n]);
        PlainStands(src, plan, n);
        ok := ChangeNext(op.key, Resolve(messages, op.request), At(src, n));
        base := At(src, n + 1);
        if ok {
          IdleIsReady(n + 1);
        }
      }
    }

    method VisitMembership(n: nat) returns (ok: bool)
      requires Ready(n) && n < |src.events| && src.events[n].change.Membership?
      modifies this`server, this`values, this`ran, this`power, this`messages, this`reactions, this`members, this`pending
      modifies this`slots
      modifies this`batch, this`marks, this`batchMessages, this`batchReactions, this`legacyReactions
      modifies this`legacyMessageBatches, this`base, this`room
      ensures Sane()
      ensures ok ==> Ready(n + 1)
      ensures old(power).None? ==> ok && power.None?
    {
      hide Queue, Recorded, Logged, UniqueKeys, After, Joined, TrackAt, OpsOf, SameIndex, Becomes, Resolve, BatchQueue,
        SnapshotOps, MembershipOps, FinalPairs, Seated;
      var e := src.events[n];
      ok := FlushAll(n);
      if ok {
        ghost var before := members;
        MembershipStands(src, plan, n);
        ok := Join(e, src.users(e.change.user), e.change.joined, false, At(src, n));
        base := At(src, n + 1);
        if ok {
          MembershipTracked(src, n, before, members);
          IdleIsReady(n + 1);
        }
      }
    }

    method VisitMembershipSnapshot(n: nat) returns (ok: bool)
      requires Ready(n) && n < |src.events| && src.events[n].change.MembershipSnapshot?
      modifies this`server, this`values, this`ran, this`power, this`messages, this`reactions, this`members, this`pending
      modifies this`slots
      modifies this`batch, this`marks, this`batchMessages, this`batchReactions, this`legacyReactions
      modifies this`legacyMessageBatches, this`base, this`room
      ensures Sane()
      ensures ok ==> Ready(n + 1)
      ensures old(power).None? ==> ok && power.None?
    {
      hide Queue, Recorded, Logged, UniqueKeys, After, Joined, TrackAt, OpsOf, SameIndex, Becomes, Resolve, BatchQueue,
        SnapshotOps, MembershipOps, FinalPairs, Seated, MemberOps;
      var e := src.events[n];
      ok := FlushAll(n);
      if ok {
        ghost var before := members;
        ghost var ops := MembershipOps(src, e, Tracked(members, src.rooms(e.room)), FinalMembers(src, e.change.users));
        MembershipSnapshotStands(src, plan, n, members);
        ok := ReconcileMembers(e, e.change.users, ops, At(src, n));
        base := At(src, n + 1);
        if ok {
          MembershipSnapshotTracked(src, n, before, members);
          IdleIsReady(n + 1);
        }
      }
    }

    /** The visitor of history. */
    method Visit(n: nat) returns (ok: bool)
      requires Ready(n) && n < |src.events|
      modifies this`server, this`values, this`ran, this`power, this`messages, this`reactions, this`members, this`pending
      modifies this`slots
      modifies this`batch, this`marks, this`batchMessages, this`batchReactions, this`legacyReactions
      modifies this`legacyMessageBatches, this`base, this`room
      ensures Sane()
      ensures ok ==> Ready(n + 1)
      ensures old(power).None? ==> ok && power.None?
    {
      hide Queue, BatchQueue, Recorded, Logged, UniqueKeys, After, Joined, TrackAt, SameIndex, CountOf;
      var e := src.events[n];
      var c := e.change;
      if FileFreeIntroduction(e) && c.message !in messages && c.message !in batchMessages
         && Key(e.id, PostPart) !in values && CountOf(c.reactions) <= MAX_REACTIONS {
        ok := VisitQueued(n);
      } else if c.Introduce? || c.Edited? {
        ok := VisitContent(n);
      } else if c.Reacted? {
        ok := VisitReaction(n);
      } else if c.Membership? {
        ok := VisitMembership(n);
      } else if c.MembershipSnapshot? {
        ok := VisitMembershipSnapshot(n);
      } else {
        ok := VisitPlain(n);
      }
    }

    /** history: unless the power goes, the whole plan has run, and each of its operations once. */
    method History() returns (ok: bool)
      requires Planned() && Fresh()
      modifies this`server, this`values, this`ran, this`power, this`messages, this`reactions, this`members, this`pending
      modifies this`slots
      modifies this`batch, this`marks, this`batchMessages, this`batchReactions, this`legacyReactions
      modifies this`legacyMessageBatches, this`base, this`room
      ensures Sane()
      ensures ok ==> ran == |plan| && server == After(backend, plan, |plan|).server && Logged(plan, values, |plan|)
      ensures old(power).None? ==> ok && power.None?
    {
      hide Ready, Batched, Queue, BatchQueue, Recorded, Logged, UniqueKeys, TrackAt, SameIndex, Unique, Reacting, Fresh,
        After;
      ok := true;
      base := 0;
      FreshIsReady();
      for n := 0 to |src.events|
        invariant ok && Ready(n) && (old(power).None? ==> power.None?)
      {
        ok := Visit(n);
        if !ok {
          return;
        }
      }
      ok := FlushAll(|src.events|);
    }

    /** A process that has just started: it holds the server and the journal, and nothing else. */
    ghost predicate Fresh()
      reads this`server, this`values, this`ran, this`messages, this`reactions, this`members, this`pending, this`slots
      reads this`batch, this`marks, this`batchMessages, this`batchReactions
    {
      && Sane() && messages == map[] && reactions == map[] && members == map[] && pending == [] && slots == []
      && batch == [] && marks == [0] && batchMessages == {} && batchReactions == 0
    }

    lemma FreshIsReady()
      requires Planned() && Fresh() && base == 0
      ensures Ready(0)
    {
    }
  }

  ghost predicate BatchQueue<S>(src: Source, backend: Backend<S>, plan: seq<Op>, batch: seq<Event>, marks: seq<nat>,
                                messages: map<string, Id>,
                                batchMessages: set<string>, batchReactions: nat, lo: nat, hi: nat) {
    Plot(src, backend, plan, batch, marks, messages, lo, hi) && BatchShape(batch, batchMessages, batchReactions)
  }

  /** What the flush of a message batch relies on, apart from the plan. */
  ghost predicate BatchShape(batch: seq<Event>, batchMessages: set<string>, batchReactions: nat) {
    && (forall i :: 0 <= i < |batch| ==> batch[i].change.Introduce? && batch[i].change.text.assets == [])
    && (forall i :: 0 <= i < |batch| ==> batch[i].room == batch[0].room)
    && |batch| <= MAX_MESSAGES && batchReactions == ReactorsIn(batch) <= MAX_REACTIONS
    && (forall i :: 0 <= i < |batch| ==> batch[i].change.message in batchMessages)
    && (forall m :: m in batchMessages ==> m in KeysOf(batch))
  }

  /** The reference is to a message that is known or queued. */
  predicate Heard(messages: map<string, Id>, batchMessages: set<string>, ref: Option<string>) {
    ref.Some? ==> ref.value in messages || ref.value in batchMessages
  }

  lemma EnqueueKeeps<S>(src: Source, backend: Backend<S>, plan: seq<Op>, batch: seq<Event>, marks: seq<nat>,
                        messages: map<string, Id>,
                        batchMessages: set<string>, batchReactions: nat, lo: nat, hi: nat, e: Event, next: nat)
    requires BatchQueue(src, backend, plan, batch, marks, messages, batchMessages, batchReactions, lo, hi)
    requires Segment(src, plan, e, hi, next) && e.change.text.assets == [] && |batch| < MAX_MESSAGES
    requires batch != [] ==> e.room == batch[0].room
    requires e.change.message !in messages && e.change.message !in batchMessages
    requires batchReactions + CountOf(e.change.reactions) <= MAX_REACTIONS
    requires Heard(messages, batchMessages, e.change.thread) && Heard(messages, batchMessages, e.change.reply)
    ensures BatchQueue(src, backend, plan, batch + [e], marks + [next], messages,
                       batchMessages + {e.change.message}, batchReactions + CountOf(e.change.reactions), lo, next)
  {
    ShapeGrows(batch, batchMessages, batchReactions, e);
    PlotGrows(src, backend, plan, batch, marks, messages, lo, hi, e, next);
  }

  lemma ShapeGrows(batch: seq<Event>, batchMessages: set<string>, batchReactions: nat, e: Event)
    requires BatchShape(batch, batchMessages, batchReactions) && |batch| < MAX_MESSAGES
    requires e.change.Introduce? && e.change.text.assets == [] && (batch != [] ==> e.room == batch[0].room)
    requires batchReactions + CountOf(e.change.reactions) <= MAX_REACTIONS
    ensures BatchShape(batch + [e], batchMessages + {e.change.message}, batchReactions + CountOf(e.change.reactions))
  {
    assert (batch + [e])[..|batch|] == batch;
  }

  lemma PlotGrows<S>(src: Source, backend: Backend<S>, plan: seq<Op>, batch: seq<Event>, marks: seq<nat>,
                     messages: map<string, Id>,
                     lo: nat, hi: nat, e: Event, next: nat)
    requires Plot(src, backend, plan, batch, marks, messages, lo, hi) && Segment(src, plan, e, hi, next)
    requires e.change.message !in messages && forall i :: 0 <= i < |batch| ==>
               batch[i].change.message != e.change.message
    requires Resolvable(messages, KeysOf(batch), e.change.thread) && Resolvable(messages, KeysOf(batch), e.change.reply)
    ensures Plot(src, backend, plan, batch + [e], marks + [next], messages, lo, next)
  {
    hide After, Resolvable, KeysOf, SortedPairs, ReactOp, PostOp;
    LaidGrows(src, plan, batch, marks, e, hi, next);
    ReferencesGrow(batch, messages, e);
  }

  lemma LaidGrows(src: Source, plan: seq<Op>, batch: seq<Event>, marks: seq<nat>, e: Event, hi: nat, next: nat)
    requires Laid(src, plan, batch, marks) && marks[|batch|] == hi && Segment(src, plan, e, hi, next)
    ensures Laid(src, plan, batch + [e], marks + [next])
  {
    var b, m := batch + [e], marks + [next];
    forall i | 0 <= i < |b| ensures Segment(src, plan, b[i], m[i], m[i + 1]) {
      if i < |batch| {
        assert Segment(src, plan, batch[i], marks[i], marks[i + 1]);
      }
    }
  }

  lemma ReferencesGrow(batch: seq<Event>, messages: map<string, Id>, e: Event)
    requires (forall i :: 0 <= i < |batch| ==> batch[i].change.Introduce?) && e.change.Introduce?
    requires ReferencesResolve(batch, messages)
    requires Resolvable(messages, KeysOf(batch), e.change.thread) && Resolvable(messages, KeysOf(batch), e.change.reply)
    ensures ReferencesResolve(batch + [e], messages)
  {
    var b := batch + [e];
    forall i | 0 <= i < |b| ensures Refers(b, messages, i) {
      assert b[..|batch|] == batch;
      if i < |batch| {
        assert b[..i] == batch[..i];
        assert Refers(batch, messages, i);
      }
    }
  }

  /** The reconciliation index after one change. */
  function Noted(index: map<string, set<Pair>>, message: string, pair: Pair, present: bool): map<string, set<Pair>> {
    index[message := if present then Tracked(index, message) + {pair} else Tracked(index, message) - {pair}]
  }

  ghost predicate NotedAll(before: map<string, set<Pair>>, after: map<string, set<Pair>>, message: string,
                           pairs: set<Pair>, present: bool) {
    && Tracked(after, message) == (if present then Tracked(before, message) + pairs
         else Tracked(before, message) - pairs)
    && forall m :: m != message ==> Tracked(after, m) == Tracked(before, m)
  }

  function Unsettled<T(==)>(listed: seq<T>, settled: set<T>): set<T> {
    set x | x in listed && x !in settled
  }

  /** `ops` stand in the plan from `c` on. */
  ghost predicate Stands(plan: seq<Op>, c: nat, ops: seq<Op>) {
    c + |ops| <= |plan| && forall j :: 0 <= j < |ops| ==> plan[c + j] == ops[j]
  }

  ghost predicate NotedUpTo(before: map<string, set<Pair>>, after: map<string, set<Pair>>, message: string,
                            pairs: seq<Pair>, settled: set<Pair>, present: bool, i: nat)
    requires i <= |pairs|
  {
    NotedAll(before, after, message, Unsettled(pairs[..i], settled), present)
  }

  lemma NotedOneMore(start: map<string, set<Pair>>, before: map<string, set<Pair>>, after: map<string, set<Pair>>,
                     message: string, pairs: seq<Pair>, settled: set<Pair>, present: bool, i: nat)
    requires i < |pairs| && NotedUpTo(start, before, message, pairs, settled, present, i)
    requires after == if pairs[i] in settled then before else Noted(before, message, pairs[i], present)
    ensures NotedUpTo(start, after, message, pairs, settled, present, i + 1)
  {
    assert pairs[..i + 1] == pairs[..i] + [pairs[i]];
    assert Unsettled(pairs[..i + 1], settled) == Unsettled(pairs[..i], settled) +
      (if pairs[i] in settled then {} else {pairs[i]});
  }

  /** Of the index only the entry of `key` has changed. */
  ghost predicate Becomes<T>(before: map<string, set<T>>, after: map<string, set<T>>, key: string, now: set<T>) {
    Tracked(after, key) == now && forall k :: k != key ==> Tracked(after, k) == Tracked(before, k)
  }

  /** How many operations the first `i` listed pairs need. */
  ghost function Needed(src: Source, e: Event, message: string, pairs: seq<Pair>, settled: set<Pair>, present: bool,
                        i: nat): nat
    requires i <= |pairs|
  {
    |ReactOps(src, e, message, pairs[..i], settled, present)|
  }

  lemma AllNeeded(src: Source, e: Event, message: string, pairs: seq<Pair>, settled: set<Pair>, present: bool)
    ensures Needed(src, e, message, pairs, settled, present, |pairs|) == |ReactOps(src, e, message, pairs, settled,
              present)|
    ensures Needed(src, e, message, pairs, settled, present, 0) == 0
    ensures Unsettled(pairs[..|pairs|], settled) == Unsettled(pairs, settled) && Unsettled(pairs[..0], settled) == {}
  {
    assert pairs[..|pairs|] == pairs;
  }

  /** The plan position behind the `i`-th listed pair. */
  lemma NextStanding(plan: seq<Op>, src: Source, e: Event, message: string, pairs: seq<Pair>, settled: set<Pair>,
                     present: bool, i: nat, c: nat)
    returns (next: nat)
    requires i < |pairs| && Stands(plan, c, ReactOps(src, e, message, pairs, settled, present))
    ensures next == c + Needed(src, e, message, pairs, settled, present, i + 1)
    ensures var k := c + Needed(src, e, message, pairs, settled, present, i);
            if pairs[i] in settled then next == k
            else next == k + 1 && k < |plan| && plan[k] == ReactOp(src, e, message, pairs[i], present, None)
  {
    ReactOpsAt(src, e, message, pairs, settled, present, i);
    next := c + |ReactOps(src, e, message, pairs[..i + 1], settled, present)|;
  }

  lemma StandsInParts(plan: seq<Op>, c: nat, first: seq<Op>, second: seq<Op>)
    requires Stands(plan, c, first + second)
    ensures Stands(plan, c, first) && Stands(plan, c + |first|, second)
  {
    forall j | 0 <= j < |first| ensures plan[c + j] == first[j] {
      assert (first + second)[j] == first[j];
    }
    forall j | 0 <= j < |second| ensures plan[c + |first| + j] == second[j] {
      assert plan[c + (|first| + j)] == (first + second)[|first| + j];
    }
  }

  // ------------------------------------------------------------------ the membership index

  function Seated(index: map<string, set<string>>, room: string, user: string,
                  present: bool): map<string, set<string>> {
    index[room := if present then Tracked(index, room) + {user} else Tracked(index, room) - {user}]
  }

  ghost predicate SeatedAll(before: map<string, set<string>>, after: map<string, set<string>>, room: string,
                            users: set<string>, present: bool) {
    && Tracked(after, room) == (if present then Tracked(before, room) + users else Tracked(before, room) - users)
    && forall r :: r != room ==> Tracked(after, r) == Tracked(before, r)
  }

  ghost predicate SeatedUpTo(before: map<string, set<string>>, after: map<string, set<string>>, room: string,
                             users: seq<string>, settled: set<string>, present: bool, i: nat)
    requires i <= |users|
  {
    SeatedAll(before, after, room, Unsettled(users[..i], settled), present)
  }

  lemma SeatedOneMore(start: map<string, set<string>>, before: map<string, set<string>>, after: map<string,
                      set<string>>,
                      room: string, users: seq<string>, settled: set<string>, present: bool, i: nat)
    requires i < |users| && SeatedUpTo(start, before, room, users, settled, present, i)
    requires after == if users[i] in settled then before else Seated(before, room, users[i], present)
    ensures SeatedUpTo(start, after, room, users, settled, present, i + 1)
  {
    assert users[..i + 1] == users[..i] + [users[i]];
    assert Unsettled(users[..i + 1], settled) == Unsettled(users[..i], settled) +
      (if users[i] in settled then {} else {users[i]});
  }

  ghost function SeatsNeeded(src: Source, e: Event, users: seq<string>, settled: set<string>, present: bool,
                             i: nat): nat
    requires i <= |users|
  {
    |MemberOps(src, e, users[..i], settled, present)|
  }

  lemma AllSeats(src: Source, e: Event, users: seq<string>, settled: set<string>, present: bool)
    ensures SeatsNeeded(src, e, users, settled, present, |users|) == |MemberOps(src, e, users, settled, present)|
    ensures SeatsNeeded(src, e, users, settled, present, 0) == 0
    ensures Unsettled(users[..|users|], settled) == Unsettled(users, settled) && Unsettled(users[..0], settled) == {}
  {
    assert users[..|users|] == users;
  }

  lemma NextSeat(plan: seq<Op>, src: Source, e: Event, users: seq<string>, settled: set<string>, present: bool, i: nat,
                 c: nat)
    requires i < |users| && Stands(plan, c, MemberOps(src, e, users, settled, present))
    ensures var k, k' := c + SeatsNeeded(src, e, users, settled, present, i), c +
              SeatsNeeded(src, e, users, settled, present, i + 1);
            if users[i] in settled then k' == k
            else k' == k + 1 && k < |plan| && plan[k] == MemberOp(src, e, users[i], present, true)
  {
    MemberOpsAt(src, e, users, settled, present, i);
  }

  ghost predicate SameIndex<T>(a: map<string, set<T>>, b: map<string, set<T>>) {
    forall k :: Tracked(a, k) == Tracked(b, k)
  }

  /** What the plan knows behind a message queue: what was known before it, and its messages. */
  lemma BatchIntroduces<S>(src: Source, backend: Backend<S>, plan: seq<Op>, batch: seq<Event>, marks: seq<nat>,
                           messages: map<string, Id>,
                           batchMessages: set<string>, batchReactions: nat, lo: nat, hi: nat, name: string)
    requires BatchQueue(src, backend, plan, batch, marks, messages, batchMessages, batchReactions, lo, hi)
    ensures hi <= |plan|
    ensures name in After(backend, plan, hi).known <==> name in messages || name in batchMessages
  {
    BatchKnown(src, backend, plan, batch, marks, messages, |batch|);
    if name in batchMessages {
      var j := KeysOfIs(batch, name);
    }
  }

  /** The reconciliation index after a message's first event: exactly the reactions it lists. */
  lemma FirstTracked(src: Source, n: nat, reactions: map<string, set<Pair>>, final: set<Pair>)
    requires Valid(src) && n < |src.events| && Introduces(TrackAt(src, n), src.events[n])
    requires SameIndex(reactions, TrackAt(src, n).reactions) && final == FinalPairs(src, src.events[n].change.reactions)
    ensures SameIndex(reactions[src.events[n].change.message := final], TrackAt(src, n + 1).reactions)
    ensures TrackAt(src, n + 1).members == TrackAt(src, n).members
  {
    var e := src.events[n];
    assert EventOk(TrackAt(src, n), e);
    UntrackedBefore(src, n, e.change.message);
    NextTrack(src, n);
    var track, after := TrackAt(src, n), TrackAt(src, n + 1);
    var m := e.change.message;
    if !e.change.snapshot {
      assert FinalPairs(src, e.change.reactions) == {};
    }
    assert Tracked(after.reactions, m) == final;
    forall k ensures Tracked(reactions[m := final], k) == Tracked(after.reactions, k) {
      assert k != m ==> Tracked(after.reactions, k) == Tracked(track.reactions, k) == Tracked(reactions, k);
    }
  }

  lemma NextTrack(src: Source, n: nat)
    requires n < |src.events|
    ensures TrackAt(src, n + 1) == Next(src, TrackAt(src, n), src.events[n])
  {
  }

  /** The only operation of an event that has one. */
  lemma SoleOp(src: Source, plan: seq<Op>, n: nat)
    requires plan == Plan(src) && n < |src.events| && |OpsAt(src, n)| == 1
    ensures At(src, n) < |plan| && At(src, n + 1) == At(src, n) + 1 && plan[At(src, n)] == OpsAt(src, n)[0]
  {
    OpsInPlan(src, n);
    assert plan[At(src, n) + 0] == OpsAt(src, n)[0];
  }

  lemma ReactionOp(src: Source, plan: seq<Op>, n: nat)
    requires plan == Plan(src) && n < |src.events| && src.events[n].change.Reacted?
    ensures var e := src.events[n];
            && At(src, n) < |plan| && At(src, n + 1) == At(src, n) + 1
            && plan[At(src, n)] == ReactOp(src, e, e.change.message, Pair(e.change.emoji, src.users(e.change.user)),
                 e.change.present, e.at)
  {
    SoleOp(src, plan, n);
  }

  lemma ReactionTracked(src: Source, n: nat, before: map<string, set<Pair>>, after: map<string, set<Pair>>)
    requires n < |src.events| && src.events[n].change.Reacted? && SameIndex(before, TrackAt(src, n).reactions)
    requires var c := src.events[n].change;
             after == Noted(before, c.message, Pair(c.emoji, src.users(c.user)), c.present)
    ensures SameIndex(after, TrackAt(src, n + 1).reactions) && TrackAt(src, n + 1).members == TrackAt(src, n).members
  {
    NextTrack(src, n);
    var c := src.events[n].change;
    forall k ensures Tracked(after, k) == Tracked(TrackAt(src, n + 1).reactions, k) {
      assert Tracked(before, k) == Tracked(TrackAt(src, n).reactions, k);
    }
  }

  // ------------------------------------------------------------------ where an event's operations stand

  predicate IsContent(e: Event) {
    e.change.Introduce? || e.change.Edited?
  }

  lemma ContentFirst(src: Source, plan: seq<Op>, n: nat)
    requires Valid(src) && plan == Plan(src) && n < |src.events| && IsContent(src.events[n])
    ensures var e := src.events[n];
            && At(src, n) < |plan|
            && plan[At(src, n)] == if e.change.Introduce? && e.change.message !in TrackAt(src, n).introduced
                 then PostOp(src, e) else ContentOp(src, e)
  {
    assert EventOk(TrackAt(src, n), src.events[n]);
    OpsInPlan(src, n);
    assert plan[At(src, n) + 0] == OpsAt(src, n)[0];
  }

  lemma ContentRest(src: Source, plan: seq<Op>, n: nat)
    requires plan == Plan(src) && n < |src.events| && IsContent(src.events[n])
    ensures !(src.events[n].change.Introduce? && src.events[n].change.snapshot) ==> At(src, n + 1) == At(src, n) + 1
  {
    OpsInPlan(src, n);
  }

  lemma SnapshotStands(src: Source, plan: seq<Op>, n: nat, reactions: map<string, set<Pair>>)
    requires plan == Plan(src) && n < |src.events| && src.events[n].change.Introduce? && src.events[n].change.snapshot
    requires SameIndex(reactions, TrackAt(src, n).reactions)
    ensures var e := src.events[n];
            var ops := SnapshotOps(src, e, e.change.message, Tracked(reactions, e.change.message),
                                   FinalPairs(src, e.change.reactions));
            Stands(plan, At(src, n) + 1, ops) && At(src, n + 1) == At(src, n) + 1 + |ops|
  {
    hide SnapshotOps, Plan, At, OpsAt, FinalPairs, Tracked;
    OpsInPlan(src, n);
    var e := src.events[n];
    var ops := SnapshotOps(src, e, e.change.message, Tracked(reactions, e.change.message),
                           FinalPairs(src, e.change.reactions));
    var first := SnapshotFirst(src, n, reactions);
    StandsInParts(plan, At(src, n), [first], ops);
  }

  lemma SnapshotFirst(src: Source, n: nat, reactions: map<string, set<Pair>>) returns (first: Op)
    requires n < |src.events| && src.events[n].change.Introduce? && src.events[n].change.snapshot
    requires SameIndex(reactions, TrackAt(src, n).reactions)
    ensures var e := src.events[n];
            OpsAt(src, n) == [first] + SnapshotOps(src, e, e.change.message, Tracked(reactions, e.change.message),
              FinalPairs(src, e.change.reactions))
  {
    hide SnapshotOps, TrackAt, FinalPairs, Tracked, PostOp, ContentOp;
    var e := src.events[n];
    first := if e.change.message in TrackAt(src, n).introduced then ContentOp(src, e) else PostOp(src, e);
  }

  lemma SnapshotTracked(src: Source, n: nat, before: map<string, set<Pair>>, after: map<string, set<Pair>>)
    requires n < |src.events| && src.events[n].change.Introduce? && src.events[n].change.snapshot
    requires SameIndex(before, TrackAt(src, n).reactions)
    requires Becomes(before, after, src.events[n].change.message, FinalPairs(src, src.events[n].change.reactions))
    ensures SameIndex(after, TrackAt(src, n + 1).reactions) && TrackAt(src, n + 1).members == TrackAt(src, n).members
  {
    NextTrack(src, n);
    forall k ensures Tracked(after, k) == Tracked(TrackAt(src, n + 1).reactions, k) {
      assert Tracked(before, k) == Tracked(TrackAt(src, n).reactions, k);
    }
  }

  lemma ContentTracked(src: Source, n: nat, reactions: map<string, set<Pair>>)
    requires n < |src.events| && IsContent(src.events[n])
    requires !(src.events[n].change.Introduce? && src.events[n].change.snapshot)
    requires SameIndex(reactions, TrackAt(src, n).reactions)
    ensures SameIndex(reactions, TrackAt(src, n + 1).reactions)
    ensures TrackAt(src, n + 1).members == TrackAt(src, n).members
  {
    NextTrack(src, n);
    forall k ensures Tracked(reactions, k) == Tracked(TrackAt(src, n + 1).reactions, k) {
      assert Tracked(reactions, k) == Tracked(TrackAt(src, n).reactions, k);
    }
  }

  function PlainOp(src: Source, e: Event): Op
    requires e.change.Deleted? || e.change.ThreadCreated? || e.change.RoomChanged?
  {
    Op(Key(e.id, Whole), None,
       match e.change
       case Deleted(message) => Delete(StampOf(src, e), message)
       case ThreadCreated(message) => Thread(StampOf(src, e), message)
       case RoomChanged(change) => Room(StampOf(src, e), change))
  }

  lemma PlainStands(src: Source, plan: seq<Op>, n: nat)
    requires plan == Plan(src) && n < |src.events|
    requires var c := src.events[n].change; c.Deleted? || c.ThreadCreated? || c.RoomChanged?
    ensures At(src, n) < |plan| && At(src, n + 1) == At(src, n) + 1 && plan[At(src, n)] == PlainOp(src, src.events[n])
    ensures TrackAt(src, n + 1) == TrackAt(src, n)
  {
    SoleOp(src, plan, n);
    NextTrack(src, n);
  }

  lemma MembershipStands(src: Source, plan: seq<Op>, n: nat)
    requires plan == Plan(src) && n < |src.events| && src.events[n].change.Membership?
    ensures At(src, n) < |plan| && At(src, n + 1) == At(src, n) + 1
    ensures plan[At(src, n)] == MemberOp(src, src.events[n], src.users(src.events[n].change.user),
              src.events[n].change.joined, false)
  {
    SoleOp(src, plan, n);
  }

  lemma MembershipTracked(src: Source, n: nat, before: map<string, set<string>>, after: map<string, set<string>>)
    requires n < |src.events| && src.events[n].change.Membership? && SameIndex(before, TrackAt(src, n).members)
    requires var e := src.events[n]; after == Seated(before, src.rooms(e.room), src.users(e.change.user),
               e.change.joined)
    ensures SameIndex(after, TrackAt(src, n + 1).members) && TrackAt(src, n + 1).reactions == TrackAt(src, n).reactions
  {
    NextTrack(src, n);
    forall k ensures Tracked(after, k) == Tracked(TrackAt(src, n + 1).members, k) {
      assert Tracked(before, k) == Tracked(TrackAt(src, n).members, k);
    }
  }

  lemma MembershipSnapshotStands(src: Source, plan: seq<Op>, n: nat, members: map<string, set<string>>)
    requires plan == Plan(src) && n < |src.events| && src.events[n].change.MembershipSnapshot?
    requires SameIndex(members, TrackAt(src, n).members)
    ensures var e := src.events[n];
            var ops := MembershipOps(src, e, Tracked(members, src.rooms(e.room)), FinalMembers(src, e.change.users));
            Stands(plan, At(src, n), ops) && At(src, n + 1) == At(src, n) + |ops|
  {
    hide MembershipOps, Plan, At, TrackAt, Tracked, FinalMembers;
    OpsInPlan(src, n);
  }

  lemma MembershipSnapshotTracked(src: Source, n: nat, before: map<string, set<string>>, after: map<string,
                                  set<string>>)
    requires n < |src.events| && src.events[n].change.MembershipSnapshot? && SameIndex(before, TrackAt(src, n).members)
    requires var e := src.events[n]; Becomes(before, after, src.rooms(e.room), FinalMembers(src, e.change.users))
    ensures SameIndex(after, TrackAt(src, n + 1).members) && TrackAt(src, n + 1).reactions == TrackAt(src, n).reactions
  {
    NextTrack(src, n);
    forall k ensures Tracked(after, k) == Tracked(TrackAt(src, n + 1).members, k) {
      assert Tracked(before, k) == Tracked(TrackAt(src, n).members, k);
    }
  }

  /** What a journal that has lost entries still says. */
  ghost predicate Within(kept: map<Key, Id>, values: map<Key, Id>) {
    forall key :: key in kept ==> key in values && values[key] == kept[key]
  }

  lemma KeptIsRecorded<S>(backend: Backend<S>, plan: seq<Op>, values: map<Key, Id>, kept: map<Key, Id>, k: nat)
    requires k <= |plan| && Recorded(backend, plan, values, k) && Within(kept, values)
    ensures Recorded(backend, plan, kept, k)
  {
  }

  // ------------------------------------------------------------------ any number of crashes

  /**
   One attempt that the power ends after some steps, against a server of some age, and what the journal then still
   holds.
   */
  datatype Outage = Outage(steps: nat, legacy: bool, keep: map<Key, Id> -> map<Key, Id>)

  ghost predicate OnlyLoses(outage: Outage) {
    forall values :: Within(outage.keep(values), values)
  }

  /** The server has run the first `k` operations of the plan, and the journal records nothing else. */
  ghost predicate Partway<S>(src: Source, backend: Backend<S>, server: Server<S>, journal: map<Key, Id>, k: nat) {
    k <= |Plan(src)| && server == After(backend, Plan(src), k).server && Recorded(backend, Plan(src), journal, k)
  }

  /** One attempt: the server has then run some prefix of the plan, and the journal records nothing else. */
  method Attempt<S(!new)>(src: Source, backend: Backend<S>, server: Server<S>, journal: map<Key, Id>, outage: Outage,
                          ghost k: nat)
    returns (server': Server<S>, journal': map<Key, Id>, ghost k': nat)
    requires Valid(src) && OnlyLoses(outage) && Partway(src, backend, server, journal, k)
    ensures Partway(src, backend, server', journal', k')
  {
    hide After, Recorded, Logged, Within, UniqueKeys, Valid;
    var importer := new Importer(src, backend, server, journal, Some(outage.steps), outage.legacy, k);
    var _ := importer.History();
    server', journal', k' := importer.server, outage.keep(importer.values), importer.ran;
    KeptIsRecorded(backend, Plan(src), importer.values, journal', k');
  }

  /**
   However often the import is cut off, wherever that happens, and whatever the journal loses: the attempt
   that gets through leaves the server exactly as one undisturbed import would. Any attempt may find the
   batch calls missing, so that it sends one by one what an earlier one sent as a batch.
   */
  method ImportThroughOutages<S(!new)>(src: Source, backend: Backend<S>, outages: seq<Outage>, legacy: bool)
    returns (server: Server<S>)
    requires Valid(src) && forall i :: 0 <= i < |outages| ==> OnlyLoses(outages[i])
    ensures server == After(backend, Plan(src), |Plan(src)|).server
  {
    hide OnlyLoses, Valid, UniqueKeys;
    server := Server(backend.initial, map[]);
    var journal: map<Key, Id> := map[];
    ghost var k: nat := 0;
    for i := 0 to |outages|
      invariant Partway(src, backend, server, journal, k)
    {
      server, journal, k := Attempt(src, backend, server, journal, outages[i], k);
    }
    var importer := new Importer(src, backend, server, journal, None, legacy, k);
    var done := importer.History();
    server := importer.server;
  }
}
