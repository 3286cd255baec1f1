/**
 The server side of an import: every operation leaves a receipt under its operation key, and a repeated
 operation with the same arguments is answered from the receipt (cli/internal/core/operator_message_batch.go).
 */
module ImportServer {
  import opened EventStream

  type Id = s: string | s != "" witness "id"

  /** A journal key: the event, and which of its operations. */
  datatype Part = Whole | PostPart | ContentPart | ReactionPart(emoji: string, user: string) | MemberPart(user: string)

  datatype Key = Key(event: string, part: Part)

  datatype Stamp = Stamp(room: string, actor: string, at: Option<string>)

  datatype Text = Text(body: string, deleted: bool, assets: seq<string>)

  /**
   What an operation asks for. Messages are named by their archive identifier in a plan and by their
   server identifier on the wire.
   */
  datatype Request =
    | Post(stamp: Stamp, author: string, text: Text, edited: Option<string>, deletedAt: Option<string>,
           thread: Option<string>, reply: Option<string>)
    | React(stamp: Stamp, target: string, user: string, emoji: string, present: bool)
    | Edit(stamp: Stamp, target: string, text: Text)
    | Delete(stamp: Stamp, target: string)
    | Thread(stamp: Stamp, target: string)
    | Member(stamp: Stamp, user: string, present: bool, hidden: bool)
    | Room(stamp: Stamp, change: string)

  datatype Op = Op(key: Key, introduces: Option<string>, request: Request)

  /** A Go map lookup. */
  function Named(known: map<string, Id>, name: string): string {
    if name in known then known[name] else ""
  }

  function NamedOpt(known: map<string, Id>, name: Option<string>): Option<string> {
    if name.None? then None else Some(Named(known, name.value))
  }

  function Resolve(known: map<string, Id>, request: Request): Request {
    match request
    case Post(_, _, _, _, _, thread, reply) => request.(thread := NamedOpt(known, thread),
      reply := NamedOpt(known, reply))
    case React(_, target, _, _, _) => request.(target := Named(known, target))
    case Edit(_, target, _) => request.(target := Named(known, target))
    case Delete(_, target) => request.(target := Named(known, target))
    case Thread(_, target) => request.(target := Named(known, target))
    case Member(_, _, _, _) => request
    case Room(_, _) => request
  }

  // ------------------------------------------------------------------ receipts

  datatype Receipt = Receipt(request: Request, result: Id)

  datatype Server<+S> = Server(state: S, receipts: map<Key, Receipt>)

  datatype Backend<!S> = Backend(initial: S, apply: (S, Request) -> (S, Id))

  /** One keyed call: new, repeated, or a key that was used for something else. */
  function Serve<S>(backend: Backend<S>, server: Server<S>, key: Key, wire: Request): (Server<S>, Option<Id>) {
    if key in server.receipts then
      (server, if server.receipts[key].request == wire then Some(server.receipts[key].result) else None)
    else
      var (state, result) := backend.apply(server.state, wire);
      (Server(state, server.receipts[key := Receipt(wire, result)]), Some(result))
  }

  // ------------------------------------------------------------------ one uninterrupted import

  /** The server after the first `n` operations of the plan, and the identifiers they have given to messages. */
  datatype Progress<+S> = Progress(server: Server<S>, known: map<string, Id>)

  function After<S>(backend: Backend<S>, plan: seq<Op>, n: nat): Progress<S>
    requires n <= |plan|
  {
    if n == 0 then Progress(Server(backend.initial, map[]), map[])
    else
      var before := After(backend, plan, n - 1);
      var op := plan[n - 1];
      var wire := Resolve(before.known, op.request);
      var (state, result) := backend.apply(before.server.state, wire);
      Progress(
        Server(state, before.server.receipts[op.key := Receipt(wire, result)]),
        if op.introduces.Some? then before.known[op.introduces.value := result] else before.known)
  }

  function Wire<S>(backend: Backend<S>, plan: seq<Op>, t: nat): Request
    requires t < |plan|
  {
    Resolve(After(backend, plan, t).known, plan[t].request)
  }

  function Result<S>(backend: Backend<S>, plan: seq<Op>, t: nat): Id
    requires t < |plan|
  {
    backend.apply(After(backend, plan, t).server.state, Wire(backend, plan, t)).1
  }

  ghost predicate DistinctKeys(plan: seq<Op>) {
    forall i, j :: 0 <= i < j < |plan| ==> plan[i].key != plan[j].key
  }

  /** The same, built up one operation at a time. */
  ghost predicate Unique(plan: seq<Op>, n: nat)
    requires n <= |plan|
  {
    n == 0 || (Unique(plan, n - 1) && forall i :: 0 <= i < n - 1 ==> plan[i].key != plan[n - 1].key)
  }

  ghost predicate UniqueKeys(plan: seq<Op>) {
    Unique(plan, |plan|)
  }

  lemma {:induction false} UniqueUpTo(plan: seq<Op>, n: nat)
    requires n <= |plan|
    ensures Unique(plan, n) <==> DistinctKeys(plan[..n])
  {
    if n > 0 {
      UniqueUpTo(plan, n - 1);
      assert plan[..n] == plan[..n - 1] + [plan[n - 1]];
    }
  }

  lemma UniqueIsDistinct(plan: seq<Op>)
    ensures UniqueKeys(plan) <==> DistinctKeys(plan)
  {
    UniqueUpTo(plan, |plan|);
    assert plan[..|plan|] == plan;
  }

  lemma {:induction false} ReceiptAfter<S>(backend: Backend<S>, plan: seq<Op>, t: nat, n: nat)
    requires DistinctKeys(plan) && t < |plan| && n <= |plan|
    ensures var receipts := After(backend, plan, n).server.receipts;
            && (plan[t].key in receipts <==> t < n)
            && (t < n ==> receipts[plan[t].key] == Receipt(Wire(backend, plan, t), Result(backend, plan, t)))
    decreases n
  {
    if n > 0 {
      ReceiptAfter(backend, plan, t, n - 1);
    }
  }

  function Max(a: nat, b: nat): nat {
    if a < b then b else a
  }

  /**
   Sending an operation of the plan when all before it have run: it runs if it is new and is absorbed if it
   is not, and the answer is the same.
   */
  lemma SendingAgain<S>(backend: Backend<S>, plan: seq<Op>, t: nat, k: nat)
    requires UniqueKeys(plan) && t <= k <= |plan| && t < |plan|
    ensures Serve(backend, After(backend, plan, k).server, plan[t].key, Wire(backend, plan, t))
            == (After(backend, plan, Max(k, t + 1)).server, Some(Result(backend, plan, t)))
  {
    UniqueIsDistinct(plan);
    ReceiptAfter(backend, plan, t, k);
  }

  /** Identifiers change only where a message is introduced. */
  lemma {:induction false} KnownStays<S>(backend: Backend<S>, plan: seq<Op>, lo: nat, hi: nat, name: string)
    requires lo <= hi <= |plan|
    requires forall t :: lo <= t < hi ==> plan[t].introduces != Some(name)
    ensures name in After(backend, plan, lo).known <==> name in After(backend, plan, hi).known
    ensures name in After(backend, plan, lo).known ==>
              After(backend, plan, lo).known[name] == After(backend, plan, hi).known[name]
    decreases hi
  {
    if lo < hi {
      KnownStays(backend, plan, lo, hi - 1, name);
    }
  }

  lemma {:induction false} NothingIntroduced<S>(backend: Backend<S>, plan: seq<Op>, lo: nat, hi: nat)
    requires lo <= hi <= |plan| && forall t :: lo <= t < hi ==> plan[t].introduces.None?
    ensures After(backend, plan, lo).known == After(backend, plan, hi).known
    decreases hi
  {
    if lo < hi {
      NothingIntroduced(backend, plan, lo, hi - 1);
    }
  }
}
