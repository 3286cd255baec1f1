/**
 matchUsers (cli/cmd/operator_import_users.go): union-find over shared emails and over accounts found by
 email, with path compression and the smallest index as the root.
 */
module MatchUsers {
  import opened EventStream
  import opened Identities
  import opened Sorting

  datatype MatchError = LookupFailed | NotHuman | DifferentAccounts | OwnershipChanged | KindConflict | WouldMerge

  datatype Match = Match(leader: nat, account: Option<AccountId>, emails: seq<string>)

  // ------------------------------------------------------------------ what is to be computed

  /** The account was found under one of the user's emails, or recorded for the user by an earlier run. */
  ghost predicate Claims(src: Source, i: nat, id: AccountId)
    requires i < |src.users|
  {
    Holds(src, i, Account(id)) || src.users[i].recorded == Some(id)
  }

  ghost predicate Together(src: Source, i: nat, j: nat) {
    i < |src.users| && j < |src.users| && Connected(src, i, j)
  }

  /** What in the archive and on the server justifies each refusal. */
  ghost predicate Explains(src: Source, error: MatchError) {
    match error
    case LookupFailed => exists i: nat, k: nat :: IsEmailOf(src, i, k) && src.lookup(EmailAt(src, i, k)).Failed?
    case NotHuman => exists i: nat, k: nat :: IsEmailOf(src, i, k) && WrongKind(src, i, k)
    case DifferentAccounts => exists i: nat, a, b :: Holds(src, i, Account(a)) && Holds(src, i, Account(b)) && a != b
    case OwnershipChanged => exists i: nat, a ::
      i < |src.users| && Holds(src, i, Account(a)) && src.users[i].recorded.Some? && src.users[i].recorded.value != a
    case KindConflict => exists i: nat, j: nat :: Together(src, i, j) && !SameSort(src.users[i], src.users[j])
    case WouldMerge => exists i: nat, j: nat, a, b ::
      Together(src, i, j) && Claims(src, i, a) && Claims(src, j, b) && a != b
  }

  predicate WrongKind(src: Source, i: nat, k: nat)
    requires IsEmailOf(src, i, k)
  {
    && src.lookup(EmailAt(src, i, k)).Found?
    && (!src.lookup(EmailAt(src, i, k)).human || src.users[i].kind != "human")
  }

  predicate SameSort(a: User, b: User) {
    a.kind == b.kind && a.status == b.status
  }

  /** The result for user `i`: the first user of its component, the component's account and its emails. */
  ghost predicate MatchOf(src: Source, i: nat, m: Match)
    requires i < |src.users|
  {
    && Leads(src, m.leader, i)
    && (m.account.Some? ==> exists j: nat :: Together(src, i, j) && Claims(src, j, m.account.value))
    && (forall j: nat, id :: Together(src, i, j) && Claims(src, j, id) ==> m.account == Some(id))
    && Ascending(Less, m.emails)
    && (forall e :: e in m.emails <==> exists j: nat :: Together(src, i, j) && Holds(src, j, Email(e)))
  }

  // ------------------------------------------------------------------ the union-find

  /** The key is filed under a user of the same tree. */
  ghost predicate Filed(parent: seq<nat>, seen: map<Key, nat>, i: nat, key: Key)
    requires Forest(parent) && i < |parent|
  {
    key in seen && seen[key] < |parent| && Root(parent, i) == Root(parent, seen[key])
  }

  ghost predicate SeenOk(src: Source, seen: map<Key, nat>) {
    forall key :: key in seen ==> seen[key] < |src.users| && Holds(src, seen[key], key)
  }

  ghost predicate SameRoots(p: seq<nat>, q: seq<nat>) {
    && Forest(p) && Forest(q) && |p| == |q|
    && forall k :: 0 <= k < |p| ==> Root(p, k) == Root(q, k)
  }

  ghost predicate KeepsKeys(seen: map<Key, nat>, more: map<Key, nat>) {
    forall key :: key in seen ==> key in more && more[key] == seen[key]
  }

  /** Email `k` of user `i` has been looked up without a problem and its keys are filed. */
  ghost predicate EmailRead(src: Source, parent: seq<nat>, seen: map<Key, nat>, i: nat, k: nat)
    requires IsEmailOf(src, i, k) && Forest(parent) && |parent| == |src.users|
  {
    var found := src.lookup(EmailAt(src, i, k));
    && !found.Failed? && !WrongKind(src, i, k)
    && Filed(parent, seen, i, Email(EmailAt(src, i, k)))
    && (found.Found? ==> Filed(parent, seen, i, Account(found.id)))
  }

  /** Every email before email `k` of user `i` has been read. */
  ghost predicate ReadBefore(src: Source, parent: seq<nat>, seen: map<Key, nat>, i: nat, k: nat)
    requires Forest(parent) && |parent| == |src.users|
  {
    forall x: nat, j: nat :: IsEmailOf(src, x, j) && (x < i || (x == i && j < k)) ==> EmailRead(src, parent, seen, x, j)
  }

  /** The owner of every user before `i` is the one account it claims. */
  ghost predicate OwnersKnown(src: Source, owners: map<nat, AccountId>, i: nat)
    requires i <= |src.users|
  {
    && (forall x :: x in owners && x < i ==> Claims(src, x, owners[x]))
    && (forall x: nat, id :: x < i && Claims(src, x, id) ==> x in owners && owners[x] == id)
  }

  /** Of user `i` the first `k` emails have been looked up. */
  ghost predicate OwnerSoFar(src: Source, owners: map<nat, AccountId>, i: nat, k: nat)
    requires i < |src.users| && k <= |src.users[i].emails|
  {
    && (i in owners ==> Holds(src, i, Account(owners[i])))
    && (forall j: nat, id :: j < k && HoldsAt(src, i, j, Account(id)) ==> i in owners && owners[i] == id)
    && (forall x :: x in owners ==> x <= i)
  }

  lemma ReadStaysRead(src: Source, p: seq<nat>, seen: map<Key, nat>, q: seq<nat>, more: map<Key, nat>, i: nat, k: nat)
    requires Forest(p) && |p| == |src.users| && ReadBefore(src, p, seen, i, k)
    requires Coarser(p, q) && KeepsKeys(seen, more) && SeenOk(src, seen)
    ensures ReadBefore(src, q, more, i, k)
  {
  }

  lemma OneMoreRead(src: Source, p: seq<nat>, seen: map<Key, nat>, i: nat, k: nat)
    requires Forest(p) && |p| == |src.users| && IsEmailOf(src, i, k)
    requires ReadBefore(src, p, seen, i, k) && EmailRead(src, p, seen, i, k)
    ensures ReadBefore(src, p, seen, i, k + 1)
  {
  }

  lemma NoOwnerAt(src: Source, owners: map<nat, AccountId>, i: nat, k: nat)
    requires IsEmailOf(src, i, k) && OwnerSoFar(src, owners, i, k) && !src.lookup(EmailAt(src, i, k)).Found?
    ensures OwnerSoFar(src, owners, i, k + 1)
  {
  }

  lemma OwnerAt(src: Source, owners: map<nat, AccountId>, i: nat, k: nat, id: AccountId)
    requires IsEmailOf(src, i, k) && OwnersKnown(src, owners, i) && OwnerSoFar(src, owners, i, k)
    requires HoldsAt(src, i, k, Account(id)) && (i in owners ==> owners[i] == id)
    ensures OwnersKnown(src, owners[i := id], i) && OwnerSoFar(src, owners[i := id], i, k + 1)
  {
  }

  lemma AllOfUserRead(src: Source, p: seq<nat>, seen: map<Key, nat>, i: nat)
    requires Forest(p) && |p| == |src.users| && i < |p| && ReadBefore(src, p, seen, i, |src.users[i].emails|)
    ensures ReadBefore(src, p, seen, i + 1, 0)
  {
  }

  lemma OwnerDecided(src: Source, owners: map<nat, AccountId>, i: nat)
    requires i < |src.users| && OwnersKnown(src, owners, i) && OwnerSoFar(src, owners, i, |src.users[i].emails|)
    requires src.users[i].recorded.Some? && i in owners ==> owners[i] == src.users[i].recorded.value
    ensures OwnersKnown(src, if src.users[i].recorded.Some? then owners[i := src.users[i].recorded.value]
              else owners, i + 1)
  {
  }

  class Matcher {
    const src: Source
    const parent: array<nat>
    var seen: map<Key, nat>
    var owners: map<nat, AccountId>

    constructor (source: Source)
      ensures src == source && fresh(parent) && Valid() && seen == map[] && owners == map[]
    {
      src, seen, owners := source, map[], map[];
      parent := new nat[|source.users|](k requires 0 <= k => k);
      new;
      forall k | 0 <= k < |src.users| ensures Connected(src, k, Root(parent[..], k)) {
        ConnectedToItself(src, k);
      }
    }

    ghost predicate Valid()
      reads this, parent
    {
      Sound(src, parent[..]) && SeenOk(src, seen)
    }

    /** root: walk up, and point every node on the way at the root. */
    method FindRoot(i: nat) returns (r: nat)
      requires Forest(parent[..]) && i < parent.Length
      modifies parent
      ensures r == Root(old(parent[..]), i) && SameRoots(old(parent[..]), parent[..])
      decreases i
    {
      if parent[i] != i {
        var up := FindRoot(parent[i]);
        ghost var before := parent[..];
        assert Root(before, i) == up;
        forall k | 0 <= k < |before|
          ensures Forest(before[i := up]) && Root(before[i := up], k) == Root(before, k)
        {
          CompressionKeepsRoots(before, i, k);
        }
        parent[i] := up;
        assert parent[..] == before[i := up];
      }
      return parent[i];
    }

    /** join. */
    method Join(x: nat, y: nat)
      requires Valid() && x < parent.Length && y < parent.Length && Connected(src, x, y)
      modifies parent
      ensures Valid() && Coarser(old(parent[..]), parent[..]) && Root(parent[..], x) == Root(parent[..], y)
    {
      var a := FindRoot(x);
      var b := FindRoot(y);
      if a > b {
        a, b := b, a;
      }
      ghost var before := parent[..];
      HangingIsSound(src, before, x, y, a, b);
      parent[b] := a;
      assert parent[..] == before[b := a];
    }

    /** Remember who holds a key, or join its two holders. */
    method File(i: nat, key: Key)
      requires Valid() && i < parent.Length && Holds(src, i, key)
      modifies this`seen, parent
      ensures Valid() && Coarser(old(parent[..]), parent[..]) && KeepsKeys(old(seen), seen)
      ensures Filed(parent[..], seen, i, key)
    {
      if key in seen {
        LinkedIsConnected(src, i, seen[key]);
        Join(i, seen[key]);
      } else {
        seen := seen[key := i];
      }
    }

    ghost predicate ReadingUser(i: nat, k: nat)
      requires i < |src.users| && k <= |src.users[i].emails|
      reads this, parent
    {
      && Valid()
      && ReadBefore(src, parent[..], seen, i, k)
      && OwnersKnown(src, owners, i) && OwnerSoFar(src, owners, i, k)
    }

    /** File one email, look it up, and file the account that it leads to. */
    method ReadEmail(i: nat, k: nat) returns (error: Option<MatchError>)
      requires IsEmailOf(src, i, k) && ReadingUser(i, k)
      modifies this`seen, this`owners, parent
      ensures error.None? ==> ReadingUser(i, k + 1)
      ensures error.Some? ==> Explains(src, error.value)
    {
      var email := EmailAt(src, i, k);
      FileAt(i, k, Email(email));
      match src.lookup(email) {
        case Failed => return Some(LookupFailed);
        case NotFound =>
          NoOwnerAt(src, owners, i, k);
        case Found(id, human) =>
          if !human || src.users[i].kind != "human" {
            assert WrongKind(src, i, k);
            return Some(NotHuman);
          }
          if i in owners && owners[i] != id {
            assert Holds(src, i, Account(id)) by { assert HoldsAt(src, i, k, Account(id)); }
            return Some(DifferentAccounts);
          }
          OwnerAt(src, owners, i, k, id);
          owners := owners[i := id];
          FileAt(i, k, Account(id));
      }
      OneMoreRead(src, parent[..], seen, i, k);
      return None;
    }

    method FileAt(i: nat, k: nat, key: Key)
      requires IsEmailOf(src, i, k) && Valid() && ReadBefore(src, parent[..], seen, i, k) && HoldsAt(src, i, k, key)
      modifies this`seen, parent
      ensures Valid() && ReadBefore(src, parent[..], seen, i, k) && Filed(parent[..], seen, i, key)
      ensures Coarser(old(parent[..]), parent[..]) && KeepsKeys(old(seen), seen)
    {
      ghost var p, held := parent[..], seen;
      File(i, key);
      ReadStaysRead(src, p, held, parent[..], seen, i, k);
    }

    method ReadUser(i: nat) returns (error: Option<MatchError>)
      requires i < |src.users| && Valid() && ReadBefore(src, parent[..], seen, i, 0) && OwnersKnown(src, owners, i)
      requires forall x :: x in owners ==> x < i
      modifies this`seen, this`owners, parent
      ensures error.None? ==>
                && Valid() && ReadBefore(src, parent[..], seen, i + 1, 0) && OwnersKnown(src, owners, i + 1)
                && forall x :: x in owners ==> x < i + 1
      ensures error.Some? ==> Explains(src, error.value)
    {
      error := None;
      for k := 0 to |src.users[i].emails|
        invariant ReadingUser(i, k)
      {
        error := ReadEmail(i, k);
        if error.Some? {
          return;
        }
      }
      AllOfUserRead(src, parent[..], seen, i);
      if src.users[i].recorded.Some? {
        var id := src.users[i].recorded.value;
        if i in owners && owners[i] != id {
          return Some(OwnershipChanged);
        }
        OwnerDecided(src, owners, i);
        owners := owners[i := id];
      } else {
        OwnerDecided(src, owners, i);
      }
      return None;
    }

    /** The first loop: every user's keys are filed and every user's owner is known. */
    method ReadUsers() returns (error: Option<MatchError>)
      requires Valid() && seen == map[] && owners == map[]
      modifies this`seen, this`owners, parent
      ensures error.None? ==>
                && Valid() && Complete(src, parent[..]) && OwnersKnown(src, owners, |src.users|)
                && NoBadLookup(src)
      ensures error.Some? ==> Explains(src, error.value)
    {
      error := None;
      for i := 0 to |src.users|
        invariant Valid() && ReadBefore(src, parent[..], seen, i, 0) && OwnersKnown(src, owners, i)
        invariant forall x :: x in owners ==> x < i
      {
        error := ReadUser(i);
        if error.Some? {
          return;
        }
      }
      AllReadIsComplete(src, parent[..], seen);
      return None;
    }

    method Leader(i: nat, ghost roots: seq<nat>) returns (r: nat)
      requires RootsOf(parent[..], roots) && i < parent.Length
      modifies parent
      ensures RootsOf(parent[..], roots) && r == roots[i]
    {
      r := FindRoot(i);
    }

    /** The second loop, one user: its leader collects the account and the emails. */
    method Gather(i: nat, matches: seq<Match>, emails: map<nat, set<string>>, ghost roots: seq<nat>)
      returns (matches': seq<Match>, emails': map<nat, set<string>>, error: Option<MatchError>)
      requires i < |src.users| && RootsOf(parent[..], roots) && RootsLeadAll(src, roots)
      requires OwnersKnown(src, owners, |src.users|)
      requires Gathered(src, roots, owners, matches, emails, i)
      modifies parent
      ensures RootsOf(parent[..], roots)
      ensures error.None? ==> Gathered(src, roots, owners, matches', emails', i + 1)
      ensures error.Some? ==> Explains(src, error.value)
    {
      hide Gathered, RootsOf, RootsLeadAll, OwnersKnown, Explains, Holds, AddedAccount;
      GatheredShape(src, roots, owners, matches, emails, i);
      RootsShape(parent[..], roots);
      matches', emails' := matches, emails;
      var leader := Leader(i, roots);
      if src.users[i].kind != src.users[leader].kind || src.users[i].status != src.users[leader].status {
        KindExplained(src, roots, i);
        return matches, emails, Some(KindConflict);
      }
      if i in owners {
        var account := matches[leader].account;
        if account.Some? && account.value != owners[i] {
          MergeExplained(src, roots, owners, matches, emails, i);
          return matches, emails, Some(WouldMerge);
        }
        matches' := matches[leader := matches[leader].(account := Some(owners[i]))];
      }
      var held := if leader in emails then emails[leader] else {};
      var more := AddEmails(i, held);
      emails' := emails[leader := more];
      AddedAccountIs(roots, owners, matches, i);
      GatheredOneMore(src, roots, owners, matches, emails, i, more);
      return matches', emails', None;
    }

    method AddEmails(i: nat, held: set<string>) returns (more: set<string>)
      requires i < |src.users|
      ensures forall e :: e in more <==> e in held || Holds(src, i, Email(e))
    {
      more := held;
      for k := 0 to |src.users[i].emails|
        invariant forall e :: e in more <==> e in held || exists j: nat :: j < k && HoldsAt(src, i, j, Email(e))
      {
        ghost var before := more;
        more := more + {EmailAt(src, i, k)};
        assert HoldsAt(src, i, k, Email(EmailAt(src, i, k)));
      }
    }

    method GatherAll(ghost roots: seq<nat>)
      returns (matches: seq<Match>, emails: map<nat, set<string>>, error: Option<MatchError>)
      requires RootsOf(parent[..], roots) && RootsLeadAll(src, roots) && OwnersKnown(src, owners, |src.users|)
      modifies parent
      ensures RootsOf(parent[..], roots)
      ensures error.None? ==> Gathered(src, roots, owners, matches, emails, |src.users|)
      ensures error.Some? ==> Explains(src, error.value)
    {
      matches, emails, error := seq(|src.users|, k => Match(0, None, [])), map[], None;
      for i := 0 to |src.users|
        invariant error.None? && RootsOf(parent[..], roots) && Gathered(src, roots, owners, matches, emails, i)
      {
        matches, emails, error := Gather(i, matches, emails, roots);
        if error.Some? {
          return;
        }
      }
    }

    /** matchUsers. */
    method MatchUsers() returns (matches: seq<Match>, error: Option<MatchError>)
      requires Valid() && seen == map[] && owners == map[]
      modifies this`seen, this`owners, parent
      ensures error.None? ==>
                && |matches| == |src.users|
                && (forall i :: 0 <= i < |matches| ==> MatchOf(src, i, matches[i]))
                && (forall e :: !Explains(src, e))
      ensures error.Some? ==> Explains(src, error.value)
    {
      matches := [];
      error := ReadUsers();
      if error.Some? {
        return;
      }
      ghost var roots := RootSeq(parent[..]);
      AllRootsLead(src, parent[..], roots);
      var gathered, emails;
      gathered, emails, error := GatherAll(roots);
      if error.Some? {
        return;
      }
      NothingWrong(src, roots, owners, gathered, emails);
      matches := Publish(gathered, emails, roots);
    }

    /** Leaders get their index and the sorted emails of their component. */
    method CompleteLeaders(gathered: seq<Match>, emails: map<nat, set<string>>, ghost roots: seq<nat>)
      returns (matches: seq<Match>)
      requires RootsOf(parent[..], roots) && |gathered| == |roots|
      requires forall k :: 0 <= k < |roots| ==> roots[k] in emails
      modifies parent
      ensures RootsOf(parent[..], roots) && LeadersComplete(roots, gathered, emails, matches)
    {
      matches := gathered;
      for i := 0 to parent.Length
        invariant RootsOf(parent[..], roots) && |matches| == |roots|
        invariant forall k :: 0 <= k < i && roots[k] == k ==> LeaderMatch(gathered, emails, k, matches[k])
        invariant forall k :: i <= k < |matches| ==> matches[k] == gathered[k]
      {
        var leader := Leader(i, roots);
        if leader == i {
          LessIsATotalOrder();
          var sorted := SortedKeys(Less, emails[i]);
          matches := matches[i := matches[i].(leader := i, emails := sorted)];
        }
      }
    }

    /** Everybody gets the leader's match. */
    method ShareMatches(complete: seq<Match>, ghost gathered: seq<Match>, ghost emails: map<nat, set<string>>,
                        ghost roots: seq<nat>)
      returns (matches: seq<Match>)
      requires RootsOf(parent[..], roots) && LeadersComplete(roots, gathered, emails, complete)
      requires forall k :: 0 <= k < |roots| ==> roots[k] < |roots| && roots[roots[k]] == roots[k]
      modifies parent
      ensures |matches| == |roots| && forall i :: 0 <= i < |roots| ==>
                LeaderMatch(gathered, emails, roots[i], matches[i])
    {
      matches := complete;
      for i := 0 to parent.Length
        invariant RootsOf(parent[..], roots) && |matches| == |roots|
        invariant forall k :: 0 <= k < i ==> LeaderMatch(gathered, emails, roots[k], matches[k])
        invariant forall k :: i <= k < |matches| && roots[k] == k ==> LeaderMatch(gathered, emails, k, matches[k])
      {
        var leader := Leader(i, roots);
        matches := matches[i := matches[leader]];
      }
    }

    method Publish(gathered: seq<Match>, emails: map<nat, set<string>>, ghost roots: seq<nat>)
      returns (matches: seq<Match>)
      requires RootsOf(parent[..], roots) && RootsLeadAll(src, roots)
      requires OwnersKnown(src, owners, |src.users|) && Gathered(src, roots, owners, gathered, emails, |src.users|)
      modifies parent
      ensures |matches| == |src.users| && forall i :: 0 <= i < |matches| ==> MatchOf(src, i, matches[i])
    {
      var complete := CompleteLeaders(gathered, emails, roots);
      matches := ShareMatches(complete, gathered, emails, roots);
      forall i | 0 <= i < |matches| ensures MatchOf(src, i, matches[i]) {
        LeaderMatchIsMatch(src, roots, owners, gathered, emails, i, matches[i]);
      }
    }
  }

  ghost predicate LeadersComplete(roots: seq<nat>, gathered: seq<Match>, emails: map<nat, set<string>>,
                                  matches: seq<Match>) {
    && |matches| == |roots|
    && forall k :: 0 <= k < |roots| && roots[k] == k ==> LeaderMatch(gathered, emails, k, matches[k])
  }

  // ------------------------------------------------------------------ what the second loop has gathered

  ghost predicate RootsOf(parent: seq<nat>, roots: seq<nat>) {
    && Forest(parent) && |roots| == |parent|
    && forall k :: 0 <= k < |roots| ==> roots[k] == Root(parent, k)
  }

  lemma RootsShape(parent: seq<nat>, roots: seq<nat>)
    requires RootsOf(parent, roots)
    ensures |roots| == |parent|
  {
  }

  ghost function RootSeq(parent: seq<nat>): (roots: seq<nat>)
    requires Forest(parent)
    ensures RootsOf(parent, roots)
  {
    seq(|parent|, k requires 0 <= k < |parent| => Root(parent, k))
  }

  ghost predicate RootsLeadAll(src: Source, roots: seq<nat>) {
    && |roots| == |src.users|
    && (forall i :: 0 <= i < |roots| ==> Leads(src, roots[i], i) && roots[roots[i]] == roots[i])
    && (forall i, j :: 0 <= i < |roots| && 0 <= j < |roots| ==> (roots[i] == roots[j] <==> Connected(src, i, j)))
  }

  lemma AllRootsLead(src: Source, parent: seq<nat>, roots: seq<nat>)
    requires Sound(src, parent) && Complete(src, parent) && RootsOf(parent, roots)
    ensures RootsLeadAll(src, roots)
  {
    forall i, j | 0 <= i < |roots| && 0 <= j < |roots|
      ensures Leads(src, roots[i], i) && (roots[i] == roots[j] <==> Connected(src, i, j))
    {
      RootsLead(src, parent, i, j);
    }
    forall i | 0 <= i < |roots| ensures roots[roots[i]] == roots[i] {
      assert parent[roots[i]] == roots[i];
    }
  }

  ghost predicate AccountsGathered(roots: seq<nat>, owners: map<nat, AccountId>, matches: seq<Match>, i: nat)
    requires |matches| == |roots| && i <= |roots|
    requires forall k :: 0 <= k < |roots| ==> roots[k] < |roots|
  {
    && (forall l: nat :: l < |matches| && matches[l].account.Some? ==>
         HasOwner(roots, owners, l, matches[l].account.value, i))
    && (forall x: nat :: x < i && x in owners ==> matches[roots[x]].account == Some(owners[x]))
  }

  ghost predicate HasOwner(roots: seq<nat>, owners: map<nat, AccountId>, l: nat, id: AccountId, i: nat)
    requires i <= |roots|
  {
    exists x: nat :: x < i && roots[x] == l && x in owners && owners[x] == id
  }

  ghost predicate EmailsGathered(src: Source, roots: seq<nat>, emails: map<nat, set<string>>, i: nat)
    requires i <= |roots|
  {
    && (forall x: nat :: x < i ==> roots[x] in emails)
    && (forall x: nat, e :: x < i && Holds(src, x, Email(e)) ==> e in emails[roots[x]])
    && (forall l, e :: l in emails && e in emails[l] ==> HasEmail(src, roots, l, e, i))
  }

  ghost predicate HasEmail(src: Source, roots: seq<nat>, l: nat, e: string, i: nat)
    requires i <= |roots|
  {
    exists x: nat :: x < i && roots[x] == l && Holds(src, x, Email(e))
  }

  ghost predicate KindsGathered(src: Source, roots: seq<nat>, i: nat)
    requires |roots| == |src.users| && i <= |roots|
    requires forall k :: 0 <= k < |roots| ==> roots[k] < |roots|
  {
    forall x: nat :: x < i ==> SameSort(src.users[x], src.users[roots[x]])
  }

  ghost predicate Gathered(src: Source, roots: seq<nat>, owners: map<nat, AccountId>, matches: seq<Match>,
                           emails: map<nat, set<string>>, i: nat) {
    && |matches| == |roots| == |src.users| && i <= |roots|
    && (forall k :: 0 <= k < |roots| ==> roots[k] < |roots|)
    && KindsGathered(src, roots, i)
    && AccountsGathered(roots, owners, matches, i)
    && EmailsGathered(src, roots, emails, i)
  }

  lemma GatheredShape(src: Source, roots: seq<nat>, owners: map<nat, AccountId>, matches: seq<Match>,
                      emails: map<nat, set<string>>, i: nat)
    requires Gathered(src, roots, owners, matches, emails, i)
    ensures |matches| == |roots| == |src.users| && forall k :: 0 <= k < |roots| ==> roots[k] < |roots|
  {
  }

  lemma KindExplained(src: Source, roots: seq<nat>, i: nat)
    requires RootsLeadAll(src, roots) && i < |roots| && roots[i] < |roots|
    requires !SameSort(src.users[i], src.users[roots[i]])
    ensures Explains(src, KindConflict)
  {
    assert Together(src, i, roots[i]);
  }

  lemma MergeExplained(src: Source, roots: seq<nat>, owners: map<nat, AccountId>, matches: seq<Match>,
                       emails: map<nat, set<string>>, i: nat)
    requires RootsLeadAll(src, roots) && OwnersKnown(src, owners, |roots|)
    requires Gathered(src, roots, owners, matches, emails, i) && i < |roots|
    requires i in owners && matches[roots[i]].account.Some? && matches[roots[i]].account.value != owners[i]
    ensures Explains(src, WouldMerge)
  {
    var a := matches[roots[i]].account.value;
    assert HasOwner(roots, owners, roots[i], a, i);
    var x: nat :| x < i && roots[x] == roots[i] && x in owners && owners[x] == a;
    assert Together(src, x, i);
  }

  /** The leader of user `i` takes over the account that was found for that user. */
  function AddedAccount(roots: seq<nat>, owners: map<nat, AccountId>, matches: seq<Match>, i: nat): seq<Match>
    requires |matches| == |roots| && i < |roots| && roots[i] < |roots|
  {
    if i in owners then matches[roots[i] := matches[roots[i]].(account := Some(owners[i]))] else matches
  }

  lemma AddedAccountIs(roots: seq<nat>, owners: map<nat, AccountId>, matches: seq<Match>, i: nat)
    requires |matches| == |roots| && i < |roots| && roots[i] < |roots|
    ensures AddedAccount(roots, owners, matches, i) ==
            if i in owners then matches[roots[i] := matches[roots[i]].(account := Some(owners[i]))] else matches
  {
  }

  lemma GatheredOneMore(src: Source, roots: seq<nat>, owners: map<nat, AccountId>, matches: seq<Match>,
                        emails: map<nat, set<string>>, i: nat, more: set<string>)
    requires Gathered(src, roots, owners, matches, emails, i) && i < |roots|
    requires SameSort(src.users[i], src.users[roots[i]])
    requires i in owners && matches[roots[i]].account.Some? ==> matches[roots[i]].account.value == owners[i]
    requires forall e :: e in more <==> (roots[i] in emails && e in emails[roots[i]]) || Holds(src, i, Email(e))
    ensures Gathered(src, roots, owners, AddedAccount(roots, owners, matches, i), emails[roots[i] := more], i + 1)
  {
    hide AccountsGathered, EmailsGathered, AddedAccount, SameSort, Holds;
    AccountGathered(src, roots, owners, matches, i);
    EmailsOfOneMore(src, roots, emails, i, more);
  }

  lemma AccountGathered(src: Source, roots: seq<nat>, owners: map<nat, AccountId>, matches: seq<Match>, i: nat)
    requires |matches| == |roots| && i < |roots|
    requires forall k :: 0 <= k < |roots| ==> roots[k] < |roots|
    requires AccountsGathered(roots, owners, matches, i)
    requires i in owners && matches[roots[i]].account.Some? ==> matches[roots[i]].account.value == owners[i]
    ensures |AddedAccount(roots, owners, matches, i)| == |roots|
    ensures AccountsGathered(roots, owners, AddedAccount(roots, owners, matches, i), i + 1)
  {
    var matches' := AddedAccount(roots, owners, matches, i);
    forall l: nat | l < |matches| && matches'[l].account.Some?
      ensures HasOwner(roots, owners, l, matches'[l].account.value, i + 1)
    {
      if matches'[l] == matches[l] {
        assert HasOwner(roots, owners, l, matches[l].account.value, i);
      }
    }
  }

  lemma EmailsOfOneMore(src: Source, roots: seq<nat>, emails: map<nat, set<string>>, i: nat, more: set<string>)
    requires i < |roots| && EmailsGathered(src, roots, emails, i)
    requires forall e :: e in more <==> (roots[i] in emails && e in emails[roots[i]]) || Holds(src, i, Email(e))
    ensures EmailsGathered(src, roots, emails[roots[i] := more], i + 1)
  {
    var emails' := emails[roots[i] := more];
    forall l, e | l in emails' && e in emails'[l] ensures HasEmail(src, roots, l, e, i + 1) {
      if l in emails && e in emails[l] {
        assert HasEmail(src, roots, l, e, i);
      }
    }
  }

  // ------------------------------------------------------------------ the result

  ghost predicate LeaderMatch(gathered: seq<Match>, emails: map<nat, set<string>>, leader: nat, m: Match) {
    && leader < |gathered| && leader in emails
    && m.leader == leader && m.account == gathered[leader].account
    && Ascending(Less, m.emails) && forall e :: e in m.emails <==> e in emails[leader]
  }

  lemma LeaderMatchIsMatch(src: Source, roots: seq<nat>, owners: map<nat, AccountId>, gathered: seq<Match>,
                           emails: map<nat, set<string>>, i: nat, m: Match)
    requires RootsLeadAll(src, roots) && OwnersKnown(src, owners, |roots|)
    requires Gathered(src, roots, owners, gathered, emails, |roots|) && i < |roots|
    requires LeaderMatch(gathered, emails, roots[i], m)
    ensures MatchOf(src, i, m)
  {
    if m.account.Some? {
      assert HasOwner(roots, owners, roots[i], m.account.value, |roots|);
      var x: nat :| x < |roots| && roots[x] == roots[i] && x in owners && owners[x] == m.account.value;
      assert Together(src, i, x) && Claims(src, x, m.account.value);
    }
    forall e ensures e in m.emails <==> exists j: nat :: Together(src, i, j) && Holds(src, j, Email(e)) {
      if e in m.emails {
        assert HasEmail(src, roots, roots[i], e, |roots|);
        var x: nat :| x < |roots| && roots[x] == roots[i] && Holds(src, x, Email(e));
        assert Together(src, i, x);
      }
    }
  }

  lemma NothingWrong(src: Source, roots: seq<nat>, owners: map<nat, AccountId>, matches: seq<Match>, emails: map<nat,
                     set<string>>)
    requires RootsLeadAll(src, roots) && OwnersKnown(src, owners, |roots|) && NoBadLookup(src)
    requires Gathered(src, roots, owners, matches, emails, |roots|)
    ensures forall e :: !Explains(src, e)
  {
    forall i: nat, j: nat | Together(src, i, j)
      ensures roots[i] == roots[j] && SameSort(src.users[i], src.users[j])
      ensures forall a, b :: Claims(src, i, a) && Claims(src, j, b) ==> a == b
    {
      assert SameSort(src.users[i], src.users[roots[i]]) && SameSort(src.users[j], src.users[roots[j]]);
      assert i in owners && j in owners ==>
               matches[roots[i]].account == Some(owners[i]) && matches[roots[j]].account == Some(owners[j]);
    }
    forall i: nat, a | Holds(src, i, Account(a)) ensures i < |src.users| && Claims(src, i, a) {
    }
    forall i: nat, a | i < |src.users| && Holds(src, i, Account(a)) && src.users[i].recorded.Some?
      ensures src.users[i].recorded.value == a
    {
      assert Claims(src, i, a) && Claims(src, i, src.users[i].recorded.value);
    }
    assert !Explains(src, DifferentAccounts) && !Explains(src, OwnershipChanged);
    assert !Explains(src, KindConflict) && !Explains(src, WouldMerge);
    forall e ensures !Explains(src, e) {
      match e case _ =>
    }
  }

  ghost predicate NoBadLookup(src: Source) {
    !Explains(src, LookupFailed) && !Explains(src, NotHuman)
  }

  lemma AllReadIsComplete(src: Source, parent: seq<nat>, seen: map<Key, nat>)
    requires Sound(src, parent) && ReadBefore(src, parent, seen, |src.users|, 0)
    ensures Complete(src, parent) && NoBadLookup(src)
  {
    forall i: nat, k: nat | IsEmailOf(src, i, k) ensures EmailRead(src, parent, seen, i, k) {
    }
    forall i: nat, key | i < |src.users| && Holds(src, i, key) ensures Filed(parent, seen, i, key) {
      var k: nat :| IsEmailOf(src, i, k) && HoldsAt(src, i, k, key);
      assert EmailRead(src, parent, seen, i, k);
    }
  }

  // ------------------------------------------------------------------ what the matches are good for

  /** Two users share a leader exactly when they are connected, and then they share everything. */
  lemma MatchesShared(src: Source, i: nat, a: Match, j: nat, b: Match)
    requires i < |src.users| && j < |src.users| && MatchOf(src, i, a) && MatchOf(src, j, b)
    ensures a.leader == b.leader <==> Connected(src, i, j)
    ensures Connected(src, i, j) ==> a.account == b.account && forall e :: e in a.emails <==> e in b.emails
  {
    if Connected(src, i, j) {
      ConnectedEitherWay(src, i, j);
      forall k: nat ensures Connected(src, i, k) <==> Connected(src, j, k) {
        if Connected(src, i, k) {
          ConnectedThrough(src, j, i, k);
        }
        if Connected(src, j, k) {
          ConnectedThrough(src, i, j, k);
        }
      }
      assert forall k: nat :: Together(src, i, k) <==> Together(src, j, k);
    } else if a.leader == b.leader {
      ConnectedEitherWay(src, j, b.leader);
      ConnectedThrough(src, i, a.leader, j);
    }
  }

  lemma LeaderOfLeader(src: Source, i: nat, leader: nat)
    requires i < |src.users| && Leads(src, leader, i)
    ensures leader < |src.users| && Connected(src, i, leader)
  {
  }
}
