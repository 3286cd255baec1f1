/**
 Who is who in an archive (cli/cmd/operator_import_users.go): the meaning of "the same person" and the
 forest that represents it, apart from the method that builds the forest.
 */
module Identities {
  import opened EventStream

  /** The server gives every account an identifier. */
  type AccountId = s: string | s != "" witness "account"

  /** The answer to a lookup by email; `human` says that the account is neither deleted nor a bot. */
  datatype Lookup = NotFound | Failed | Found(id: AccountId, human: bool)

  /** One source user; `recorded` is the account that an earlier run wrote to the journal. */
  datatype User = User(kind: string, status: string, emails: seq<string>, recorded: Option<AccountId>)

  datatype Source = Source(users: seq<User>, normalize: string -> string, lookup: string -> Lookup)

  /** What two users can have in common. */
  datatype Key = Email(address: string) | Account(id: AccountId)

  function EmailAt(src: Source, i: nat, k: nat): string
    requires i < |src.users| && k < |src.users[i].emails|
  {
    src.normalize(src.users[i].emails[k])
  }

  predicate IsEmailOf(src: Source, i: nat, k: nat) {
    i < |src.users| && k < |src.users[i].emails|
  }

  ghost predicate Holds(src: Source, i: nat, key: Key) {
    exists k: nat :: IsEmailOf(src, i, k) && HoldsAt(src, i, k, key)
  }

  predicate HoldsAt(src: Source, i: nat, k: nat, key: Key)
    requires IsEmailOf(src, i, k)
  {
    match key
    case Email(address) => address == EmailAt(src, i, k)
    case Account(id) => src.lookup(EmailAt(src, i, k)).Found? && src.lookup(EmailAt(src, i, k)).id == id
  }

  // ------------------------------------------------------------------ connected users

  ghost predicate Linked(src: Source, i: nat, j: nat) {
    exists key :: Holds(src, i, key) && Holds(src, j, key)
  }

  ghost predicate Path(src: Source, path: seq<nat>, i: nat, j: nat) {
    && |path| > 0 && path[0] == i && path[|path| - 1] == j
    && (forall k :: 0 <= k < |path| ==> path[k] < |src.users|)
    && (forall k :: 0 < k < |path| ==> Linked(src, path[k - 1], path[k]))
  }

  ghost predicate Connected(src: Source, i: nat, j: nat) {
    exists path :: Path(src, path, i, j)
  }

  lemma ConnectedToItself(src: Source, i: nat)
    requires i < |src.users|
    ensures Connected(src, i, i)
  {
    assert Path(src, [i], i, i);
  }

  lemma LinkedIsConnected(src: Source, i: nat, j: nat)
    requires i < |src.users| && j < |src.users| && Linked(src, i, j)
    ensures Connected(src, i, j)
  {
    assert Path(src, [i, j], i, j);
  }

  lemma ConnectedEitherWay(src: Source, i: nat, j: nat)
    requires Connected(src, i, j)
    ensures Connected(src, j, i)
  {
    var path :| Path(src, path, i, j);
    var back := seq(|path|, k requires 0 <= k < |path| => path[|path| - 1 - k]);
    assert Path(src, back, j, i) by {
      forall k | 0 < k < |back| ensures Linked(src, back[k - 1], back[k]) {
        assert Linked(src, path[|path| - 1 - k], path[|path| - k]);
      }
    }
  }

  lemma ConnectedThrough(src: Source, i: nat, j: nat, l: nat)
    requires Connected(src, i, j) && Connected(src, j, l)
    ensures Connected(src, i, l)
  {
    var p :| Path(src, p, i, j);
    var q :| Path(src, q, j, l);
    assert Path(src, p + q[1..], i, l);
  }

  // ------------------------------------------------------------------ the forest

  /** Every parent is at or before its child, so that walking up ends. */
  predicate Forest(parent: seq<nat>) {
    forall k :: 0 <= k < |parent| ==> parent[k] <= k
  }

  function Root(parent: seq<nat>, i: nat): (r: nat)
    requires Forest(parent) && i < |parent|
    ensures r <= i && parent[r] == r
  {
    if parent[i] == i then i else Root(parent, parent[i])
  }

  /** Replacing a node's parent by any node of its own tree at or before it keeps every root. */
  lemma {:induction false} CompressionKeepsRoots(parent: seq<nat>, j: nat, k: nat)
    requires Forest(parent) && j < |parent| && k < |parent|
    ensures var compressed := parent[j := Root(parent, j)];
            Forest(compressed) && Root(compressed, k) == Root(parent, k)
  {
    var compressed := parent[j := Root(parent, j)];
    if k == j {
      var r := Root(parent, j);
      assert compressed[r] == r;
    } else if parent[k] != k {
      CompressionKeepsRoots(parent, j, parent[k]);
    }
  }

  /** Hanging the root `b` under the earlier root `a` moves the tree of `b`, and nothing else. */
  lemma {:induction false} HangingMovesOneTree(parent: seq<nat>, a: nat, b: nat, k: nat)
    requires Forest(parent) && a <= b < |parent| && k < |parent| && parent[a] == a && parent[b] == b
    ensures var joined := parent[b := a];
            Forest(joined) && Root(joined, k) == if Root(parent, k) == b then a else Root(parent, k)
  {
    if k != b && parent[k] != k {
      HangingMovesOneTree(parent, a, b, parent[k]);
    }
  }

  /** Users in one tree are connected. */
  ghost predicate Sound(src: Source, parent: seq<nat>) {
    && |parent| == |src.users| && Forest(parent)
    && forall i :: 0 <= i < |parent| ==> Connected(src, i, Root(parent, i))
  }

  /** What was one tree still is. */
  ghost predicate Coarser(parent: seq<nat>, joined: seq<nat>) {
    && Forest(parent) && Forest(joined) && |parent| == |joined|
    && forall i, j :: 0 <= i < |parent| && 0 <= j < |parent| && Root(parent, i) == Root(parent, j) ==>
         Root(joined, i) == Root(joined, j)
  }

  lemma HangingIsSound(src: Source, parent: seq<nat>, x: nat, y: nat, a: nat, b: nat)
    requires Sound(src, parent) && x < |parent| && y < |parent| && Connected(src, x, y)
    requires a <= b
    requires (a == Root(parent, x) && b == Root(parent, y)) || (a == Root(parent, y) && b == Root(parent, x))
    ensures Sound(src, parent[b := a]) && Coarser(parent, parent[b := a])
    ensures Root(parent[b := a], x) == Root(parent[b := a], y)
  {
    var joined := parent[b := a];
    forall k | 0 <= k < |parent|
      ensures Root(joined, k) == if Root(parent, k) == b then a else Root(parent, k)
    {
      HangingMovesOneTree(parent, a, b, k);
    }
    ConnectedEitherWay(src, x, y);
    ConnectedEitherWay(src, x, Root(parent, x));
    ConnectedEitherWay(src, y, Root(parent, y));
    assert Connected(src, b, a) by {
      if b == Root(parent, y) {
        ConnectedThrough(src, b, y, x);
        ConnectedThrough(src, b, x, a);
      } else {
        ConnectedThrough(src, b, x, y);
        ConnectedThrough(src, b, y, a);
      }
    }
    forall k | 0 <= k < |joined| ensures Connected(src, k, Root(joined, k)) {
      if Root(parent, k) == b {
        ConnectedThrough(src, k, b, a);
      }
    }
  }

  // ------------------------------------------------------------------ roots are leaders

  /** Users with a common key are in one tree. */
  ghost predicate Complete(src: Source, parent: seq<nat>) {
    && |parent| == |src.users| && Forest(parent)
    && forall i, j :: 0 <= i < |parent| && 0 <= j < |parent| && Linked(src, i, j) ==> Root(parent, i) == Root(parent, j)
  }

  lemma {:induction false} PathStaysInTree(src: Source, parent: seq<nat>, path: seq<nat>, i: nat, j: nat)
    requires Complete(src, parent) && Path(src, path, i, j)
    ensures Root(parent, i) == Root(parent, j)
    decreases |path|
  {
    if |path| > 1 {
      var n := |path| - 1;
      assert Path(src, path[..n], i, path[n - 1]);
      PathStaysInTree(src, parent, path[..n], i, path[n - 1]);
    }
  }

  /** The smallest connected index. */
  ghost predicate Leads(src: Source, leader: nat, i: nat) {
    && leader <= i && Connected(src, i, leader)
    && forall j :: Connected(src, i, j) ==> leader <= j
  }

  lemma RootsLead(src: Source, parent: seq<nat>, i: nat, j: nat)
    requires Sound(src, parent) && Complete(src, parent) && i < |parent| && j < |parent|
    ensures Root(parent, i) == Root(parent, j) <==> Connected(src, i, j)
    ensures Leads(src, Root(parent, i), i)
  {
    if Root(parent, i) == Root(parent, j) {
      ConnectedEitherWay(src, j, Root(parent, j));
      ConnectedThrough(src, i, Root(parent, i), j);
    }
    forall k: nat | Connected(src, i, k) ensures k < |parent| && Root(parent, i) == Root(parent, k) {
      var path :| Path(src, path, i, k);
      PathStaysInTree(src, parent, path, i, k);
    }
  }
}
