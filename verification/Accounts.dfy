/**
 The user and room phases of an import (cli/cmd/operator_import_runner.go, lines 88-181) over any number of
 attempts: each of them matches the users anew against what the earlier ones have left on the server and in the
 journal, checks the names it is about to take, and then creates what is still missing.
 */
module Accounts {
  import opened EventStream
  import opened Identities
  import opened MatchUsers
  import opened Sorting

  /** What an operation key and the journal's entries stand for: one record of the archive. */
  datatype Ref = UserRef(i: nat) | RoomRef(i: nat)

  datatype Request = NewUser(login: string, email: string) | NewRoom(name: string)

  /** The server keeps the arguments under the operation key and refuses others. */
  datatype Receipt = Receipt(request: Request, id: AccountId)

  /**
   The archive, and the server as the first attempt finds it. Names are in lower case; `newId` is the identifier that
   the server gives to what it creates.
   */
  datatype Setting = Setting(
    src: Source,
    login: nat -> string,
    nameable: nat -> bool,
    taken: string -> bool,
    rooms: nat,
    room: nat -> string,
    roomNameable: nat -> bool,
    roomTaken: string -> bool,
    newId: Ref -> AccountId)

  // ------------------------------------------------------------------ who is who

  /** `first` is what matchUsers finds before anything has been imported; the server's new identifiers are new. */
  ghost predicate Proper(given: Setting, first: seq<Match>) {
    && (forall i :: 0 <= i < |given.src.users| ==> given.src.users[i].recorded.None?)
    && (forall e :: !Explains(given.src, e))
    && |first| == |given.src.users| && (forall i :: 0 <= i < |first| ==> MatchOf(given.src, i, first[i]))
    && (forall r, s :: given.newId(r) == given.newId(s) ==> r == s)
    && (forall e, r :: given.src.lookup(e).Found? ==> given.src.lookup(e).id != given.newId(r))
  }

  /** The account that user `i` belongs to: the one its component had, or the one its leader gets. */
  function Person(given: Setting, first: seq<Match>, i: nat): AccountId
    requires i < |first|
  {
    if first[i].account.Some? then first[i].account.value else given.newId(UserRef(first[i].leader))
  }

  /** An account is created for the leader of a component that has none, and every room is created. */
  predicate Wanted(given: Setting, first: seq<Match>, ref: Ref) {
    match ref
    case UserRef(i) => i < |first| && first[i].leader == i && first[i].account.None?
    case RoomRef(i) => i < given.rooms
  }

  function FirstEmail(emails: seq<string>): string {
    if emails == [] then "" else emails[0]
  }

  function Asked(given: Setting, first: seq<Match>, ref: Ref): Request
    requires Wanted(given, first, ref)
  {
    match ref
    case UserRef(i) => NewUser(given.login(i), FirstEmail(first[i].emails))
    case RoomRef(i) => NewRoom(given.room(i))
  }

  /** Two source users end up with one account if and only if they are connected. */
  lemma PersonSeparates(given: Setting, first: seq<Match>, i: nat, j: nat)
    requires Proper(given, first) && i < |first| && j < |first|
    ensures Person(given, first, i) == Person(given, first, j) <==> Connected(given.src, i, j)
  {
    hide Explains, Connected, Holds;
    MatchesShared(given.src, i, first[i], j, first[j]);
    if Person(given, first, i) == Person(given, first, j) {
      if first[i].account.Some? {
        FoundInComponent(given, first, i);
      }
      if first[j].account.Some? {
        FoundInComponent(given, first, j);
      }
      if first[i].account.Some? && first[j].account.Some? {
        SharedAccount(given, first, i, j);
      }
    }
  }

  /** An account that the first match found is an account found under an email, so it is not a new one. */
  lemma FoundInComponent(given: Setting, first: seq<Match>, i: nat)
    requires Proper(given, first) && i < |first| && first[i].account.Some?
    ensures exists x: nat :: Together(given.src, i, x) && Holds(given.src, x, Account(first[i].account.value))
    ensures forall r :: given.newId(r) != first[i].account.value
  {
    hide Explains, Connected;
    var x: nat :| Together(given.src, i, x) && Claims(given.src, x, first[i].account.value);
    assert Holds(given.src, x, Account(first[i].account.value));
    var k: nat :| IsEmailOf(given.src, x, k) && HoldsAt(given.src, x, k, Account(first[i].account.value));
  }

  lemma SharedAccount(given: Setting, first: seq<Match>, i: nat, j: nat)
    requires Proper(given, first) && i < |first| && j < |first|
    requires first[i].account.Some? && first[i].account == first[j].account
    ensures Connected(given.src, i, j)
  {
    hide Explains, Connected, Holds;
    FoundInComponent(given, first, i);
    FoundInComponent(given, first, j);
    var key := Account(first[i].account.value);
    var x: nat :| Together(given.src, i, x) && Holds(given.src, x, key);
    var y: nat :| Together(given.src, j, y) && Holds(given.src, y, key);
    LinkedIsConnected(given.src, x, y);
    ConnectedThrough(given.src, i, x, y);
    ConnectedEitherWay(given.src, j, y);
    ConnectedThrough(given.src, i, y, j);
  }

  // ------------------------------------------------------------------ what earlier attempts have left

  /** The account of user `i` exists. */
  predicate Backed(first: seq<Match>, receipts: map<Ref, Receipt>, i: nat)
    requires i < |first|
  {
    first[i].account.None? ==> UserRef(first[i].leader) in receipts
  }

  /** Nothing was created that is not wanted, nothing twice, and only with the one request that belongs to it. */
  ghost predicate CreatedOk(given: Setting, first: seq<Match>, receipts: map<Ref, Receipt>, created: seq<Ref>) {
    && (forall ref :: ref in receipts ==>
          Wanted(given, first, ref) && receipts[ref] == Receipt(Asked(given, first, ref), given.newId(ref)))
    && (forall ref :: ref in created <==> ref in receipts)
    && (forall k, l :: 0 <= k < l < |created| ==> created[k] != created[l])
  }

  ghost predicate OwnsIt(given: Setting, first: seq<Match>, receipts: map<Ref, Receipt>, i: nat, e: string,
                         id: AccountId) {
    i < |first| && Holds(given.src, i, Email(e)) && id == Person(given, first, i) && Backed(first, receipts, i)
  }

  /** Emails were added to the accounts of those who hold them. */
  ghost predicate OwnersOk(given: Setting, first: seq<Match>, receipts: map<Ref, Receipt>, owner: map<string,
                           AccountId>) {
    forall e :: e in owner ==> exists i: nat :: OwnsIt(given, first, receipts, i, e, owner[e])
  }

  /** What was created is announced, and what is recorded exists. */
  ghost predicate JournalOk(given: Setting, first: seq<Match>, receipts: map<Ref, Receipt>, values: map<Ref, AccountId>,
                            pending: set<Ref>) {
    && receipts.Keys <= pending
    && forall ref :: ref in values ==> RecordedOk(given, first, receipts, ref, values[ref])
  }

  predicate RecordedOk(given: Setting, first: seq<Match>, receipts: map<Ref, Receipt>, ref: Ref, id: AccountId) {
    match ref
    case UserRef(i) => i < |first| && id == Person(given, first, i) && Backed(first, receipts, i)
    case RoomRef(i) => ref in receipts && id == given.newId(ref)
  }

  // ------------------------------------------------------------------ matching again

  function LookupNow(given: Setting, owner: map<string, AccountId>, e: string): Lookup {
    if given.src.lookup(e).NotFound? && e in owner then Found(owner[e], true) else given.src.lookup(e)
  }

  /** The archive with what the journal has, and the server as it is now. */
  function Now(given: Setting, owner: map<string, AccountId>, values: map<Ref, AccountId>): Source {
    Source(
      seq(|given.src.users|, i requires 0 <= i < |given.src.users| =>
        given.src.users[i].(recorded := if UserRef(i) in values then Some(values[UserRef(i)]) else None)),
      given.src.normalize,
      e => LookupNow(given, owner, e))
  }

  lemma HoldsNow(given: Setting, first: seq<Match>, receipts: map<Ref, Receipt>, owner: map<string, AccountId>,
                 values: map<Ref, AccountId>, i: nat)
    requires Proper(given, first) && OwnersOk(given, first, receipts, owner) && i < |first|
    ensures var now := Now(given, owner, values);
            && (forall e :: Holds(now, i, Email(e)) <==> Holds(given.src, i, Email(e)))
            && (forall a :: Holds(given.src, i, Account(a)) ==> Holds(now, i, Account(a)))
            && (forall a :: Holds(now, i, Account(a)) ==> a == Person(given, first, i) && Backed(first, receipts, i))
  {
    hide Explains, Connected, OwnersOk;
    var now := Now(given, owner, values);
    assert forall k: nat :: IsEmailOf(now, i, k) <==> IsEmailOf(given.src, i, k);
    assert forall k: nat :: IsEmailOf(now, i, k) ==> EmailAt(now, i, k) == EmailAt(given.src, i, k);
    forall e ensures Holds(now, i, Email(e)) <==> Holds(given.src, i, Email(e)) {
      if Holds(given.src, i, Email(e)) {
        var k: nat :| IsEmailOf(given.src, i, k) && HoldsAt(given.src, i, k, Email(e));
        assert HoldsAt(now, i, k, Email(e));
      }
      if Holds(now, i, Email(e)) {
        var k: nat :| IsEmailOf(now, i, k) && HoldsAt(now, i, k, Email(e));
        assert HoldsAt(given.src, i, k, Email(e));
      }
    }
    forall a | Holds(given.src, i, Account(a)) ensures Holds(now, i, Account(a)) {
      var k: nat :| IsEmailOf(given.src, i, k) && HoldsAt(given.src, i, k, Account(a));
      assert HoldsAt(now, i, k, Account(a));
    }
    forall a | Holds(now, i, Account(a)) ensures a == Person(given, first, i) && Backed(first, receipts, i) {
      var k: nat :| IsEmailOf(now, i, k) && HoldsAt(now, i, k, Account(a));
      var e := EmailAt(given.src, i, k);
      assert HoldsAt(given.src, i, k, Email(e));
      OwnerIsPerson(given, first, receipts, owner, i, e);
    }
  }

  /** Whoever the server has for an email that user `i` holds is the person that user `i` is. */
  lemma OwnerIsPerson(given: Setting, first: seq<Match>, receipts: map<Ref, Receipt>, owner: map<string, AccountId>,
                      i: nat, e: string)
    requires Proper(given, first) && OwnersOk(given, first, receipts, owner) && i < |first|
    requires Holds(given.src, i, Email(e))
    ensures !LookupNow(given, owner, e).Failed?
    ensures LookupNow(given, owner, e).Found? ==>
              LookupNow(given, owner, e).id == Person(given, first, i) && Backed(first, receipts, i)
  {
    hide Connected;
    var k: nat :| IsEmailOf(given.src, i, k) && HoldsAt(given.src, i, k, Email(e));
    assert !Explains(given.src, LookupFailed);
    if given.src.lookup(e).Found? {
      assert HoldsAt(given.src, i, k, Account(given.src.lookup(e).id));
      ConnectedToItself(given.src, i);
      assert Together(given.src, i, i) && Claims(given.src, i, given.src.lookup(e).id);
    } else if e in owner {
      var x: nat :| OwnsIt(given, first, receipts, x, e, owner[e]);
      assert Linked(given.src, i, x);
      LinkedIsConnected(given.src, i, x);
      PersonSeparates(given, first, i, x);
      MatchesShared(given.src, i, first[i], x, first[x]);
    }
  }

  /** Who belongs together does not change. */
  lemma ConnectedNow(given: Setting, first: seq<Match>, receipts: map<Ref, Receipt>, owner: map<string, AccountId>,
                     values: map<Ref, AccountId>, i: nat, j: nat)
    requires Proper(given, first) && OwnersOk(given, first, receipts, owner)
    ensures Connected(Now(given, owner, values), i, j) <==> Connected(given.src, i, j)
  {
    hide Explains, Holds, OwnersOk, Proper;
    var now := Now(given, owner, values);
    if Connected(now, i, j) {
      var path :| Path(now, path, i, j);
      PathThen(given, first, receipts, owner, values, path, i, j);
    }
    if Connected(given.src, i, j) {
      var path :| Path(given.src, path, i, j);
      forall k | 0 < k < |path| ensures Linked(now, path[k - 1], path[k]) {
        LinkedStays(given, first, receipts, owner, values, path[k - 1], path[k]);
      }
      assert Path(now, path, i, j);
    }
  }

  lemma LinkedStays(given: Setting, first: seq<Match>, receipts: map<Ref, Receipt>, owner: map<string, AccountId>,
                    values: map<Ref, AccountId>, i: nat, j: nat)
    requires Proper(given, first) && OwnersOk(given, first, receipts, owner) && Linked(given.src, i, j)
    requires i < |given.src.users| && j < |given.src.users|
    ensures Linked(Now(given, owner, values), i, j)
  {
    hide Explains, Holds, OwnersOk, MatchOf;
    HoldsNow(given, first, receipts, owner, values, i);
    HoldsNow(given, first, receipts, owner, values, j);
    var key :| Holds(given.src, i, key) && Holds(given.src, j, key);
    match key case Email(e) => case Account(a) =>
    assert Holds(Now(given, owner, values), i, key) && Holds(Now(given, owner, values), j, key);
  }

  lemma LinkedThen(given: Setting, first: seq<Match>, receipts: map<Ref, Receipt>, owner: map<string, AccountId>,
                   values: map<Ref, AccountId>, i: nat, j: nat)
    requires Proper(given, first) && OwnersOk(given, first, receipts, owner) && Linked(Now(given, owner, values), i, j)
    requires i < |given.src.users| && j < |given.src.users|
    ensures Connected(given.src, i, j)
  {
    hide Explains, Holds, OwnersOk, MatchOf, Connected;
    HoldsNow(given, first, receipts, owner, values, i);
    HoldsNow(given, first, receipts, owner, values, j);
    var key :| Holds(Now(given, owner, values), i, key) && Holds(Now(given, owner, values), j, key);
    match key
    case Email(e) =>
      assert Linked(given.src, i, j);
      LinkedIsConnected(given.src, i, j);
    case Account(a) =>
      PersonSeparates(given, first, i, j);
  }

  lemma {:induction false} PathThen(
      given: Setting, first: seq<Match>, receipts: map<Ref, Receipt>, owner: map<string, AccountId>,
      values: map<Ref, AccountId>, path: seq<nat>, i: nat, j: nat)
    requires Proper(given, first) && OwnersOk(given, first, receipts, owner)
    requires Path(Now(given, owner, values), path, i, j)
    ensures Connected(given.src, i, j)
    decreases |path|
  {
    hide Explains, Holds, OwnersOk, Proper, Connected, Linked;
    var n := |path| - 1;
    if n == 0 {
      ConnectedToItself(given.src, i);
    } else {
      assert Path(Now(given, owner, values), path[..n], i, path[n - 1]);
      PathThen(given, first, receipts, owner, values, path[..n], i, path[n - 1]);
      LinkedThen(given, first, receipts, owner, values, path[n - 1], j);
      ConnectedThrough(given.src, i, path[n - 1], j);
    }
  }

  lemma ClaimsNow(given: Setting, first: seq<Match>, receipts: map<Ref, Receipt>, owner: map<string, AccountId>,
                  values: map<Ref, AccountId>, pending: set<Ref>, i: nat, a: AccountId)
    requires Proper(given, first) && OwnersOk(given, first, receipts, owner)
    requires JournalOk(given, first, receipts, values, pending)
    requires i < |given.src.users| && Claims(Now(given, owner, values), i, a)
    ensures a == Person(given, first, i) && Backed(first, receipts, i)
  {
    hide Explains, Holds, OwnersOk, MatchOf, Proper;
    SameSize(given, first);
    HoldsNow(given, first, receipts, owner, values, i);
    if UserRef(i) in values && values[UserRef(i)] == a {
      assert RecordedOk(given, first, receipts, UserRef(i), a);
    }
  }

  lemma SameSize(given: Setting, first: seq<Match>)
    requires Proper(given, first)
    ensures |first| == |given.src.users|
  {
  }

  /** A bot has no emails. */
  predicate Supported(u: User) {
    (u.kind == "human" || (u.kind == "bot" && u.emails == [])) && (u.status == "active" || u.status == "deactivated")
  }

  /** Matching again finds nothing to complain about. */
  lemma NothingWrongNow(given: Setting, first: seq<Match>, receipts: map<Ref, Receipt>, owner: map<string, AccountId>,
                        values: map<Ref, AccountId>, pending: set<Ref>)
    requires Proper(given, first) && OwnersOk(given, first, receipts, owner)
    requires JournalOk(given, first, receipts, values, pending)
    requires owner == map[] || forall i :: 0 <= i < |first| ==> Supported(given.src.users[i])
    ensures forall error :: !Explains(Now(given, owner, values), error)
  {
    hide Holds, OwnersOk, MatchOf, Connected;
    var now := Now(given, owner, values);
    forall i: nat, a | i < |now.users| && Claims(now, i, a) ensures a == Person(given, first, i) {
      ClaimsNow(given, first, receipts, owner, values, pending, i, a);
    }
    forall i: nat, j: nat | Together(now, i, j)
      ensures Person(given, first, i) == Person(given, first, j) && SameSort(now.users[i], now.users[j])
    {
      ConnectedNow(given, first, receipts, owner, values, i, j);
      PersonSeparates(given, first, i, j);
      assert Together(given.src, i, j) && !Explains(given.src, KindConflict);
    }
    forall i: nat, k: nat | IsEmailOf(now, i, k)
      ensures !now.lookup(EmailAt(now, i, k)).Failed? && !WrongKind(now, i, k)
    {
      EmailFineNow(given, first, receipts, owner, values, i, k);
    }
    forall i: nat, a | Holds(now, i, Account(a)) ensures i < |now.users| && Claims(now, i, a) {
      HolderIsUser(now, i, Account(a));
    }
    forall error ensures !Explains(now, error) {
      match error case _ =>
    }
  }

  lemma HolderIsUser(src: Source, i: nat, key: Key)
    requires Holds(src, i, key)
    ensures i < |src.users|
  {
  }

  lemma EmailFineNow(given: Setting, first: seq<Match>, receipts: map<Ref, Receipt>, owner: map<string, AccountId>,
                     values: map<Ref, AccountId>, i: nat, k: nat)
    requires Proper(given, first) && OwnersOk(given, first, receipts, owner)
    requires owner == map[] || forall i :: 0 <= i < |first| ==> Supported(given.src.users[i])
    requires IsEmailOf(Now(given, owner, values), i, k)
    ensures var now := Now(given, owner, values);
            !now.lookup(EmailAt(now, i, k)).Failed? && !WrongKind(now, i, k)
  {
    hide OwnersOk, MatchOf;
    var e := EmailAt(given.src, i, k);
    assert IsEmailOf(given.src, i, k) && HoldsAt(given.src, i, k, Email(e));
    OwnerIsPerson(given, first, receipts, owner, i, e);
    assert !Explains(given.src, NotHuman);
    assert !WrongKind(given.src, i, k);
  }

  /** Whoever looks up the email finds the account. */
  predicate Served(given: Setting, owner: map<string, AccountId>, e: string, id: AccountId) {
    LookupNow(given, owner, e).Found? && LookupNow(given, owner, e).id == id
  }

  /** The emails of the first `n` users' components lead to their accounts. */
  ghost predicate AllServed(given: Setting, first: seq<Match>, owner: map<string, AccountId>, n: nat)
    requires n <= |first|
  {
    forall i: nat, e :: i < n && first[i].leader == i && e in first[i].emails ==>
      Served(given, owner, e, Person(given, first, i))
  }

  ghost predicate Keeps<K, V>(older: map<K, V>, newer: map<K, V>) {
    forall k :: k in older ==> k in newer && newer[k] == older[k]
  }

  lemma ServedStays(given: Setting, first: seq<Match>, older: map<string, AccountId>, newer: map<string, AccountId>,
                    n: nat)
    requires n <= |first| && AllServed(given, first, older, n) && Keeps(older, newer)
    ensures AllServed(given, first, newer, n)
  {
    hide Person;
    forall e, id | Served(given, older, e, id) ensures Served(given, newer, e, id) {
    }
  }

  /** The emails of a leader's component are held by users that are the same person. */
  lemma EmailIsOurs(given: Setting, first: seq<Match>, receipts: map<Ref, Receipt>, i: nat, e: string)
    requires Proper(given, first) && i < |first| && e in first[i].emails && Backed(first, receipts, i)
    ensures exists x: nat :: OwnsIt(given, first, receipts, x, e, Person(given, first, i))
  {
    hide Holds, Connected, Explains, Ascending;
    var x: nat :| Together(given.src, i, x) && Holds(given.src, x, Email(e));
    MatchesShared(given.src, i, first[i], x, first[x]);
    assert OwnsIt(given, first, receipts, x, e, Person(given, first, i));
  }

  /** A leader leads itself, and its account is that of everybody it leads. */
  lemma LeaderFirst(given: Setting, first: seq<Match>, i: nat)
    requires Proper(given, first) && i < |first|
    ensures var leader := first[i].leader;
            && leader <= i && first[leader].leader == leader && first[leader].account == first[i].account
            && (forall e :: e in first[leader].emails <==> e in first[i].emails)
  {
    hide Holds, Connected, Explains, Ascending;
    var leader := first[i].leader;
    LeaderOfLeader(given.src, i, leader);
    MatchesShared(given.src, i, first[i], leader, first[leader]);
  }

  lemma ServedAll(given: Setting, first: seq<Match>, owner: map<string, AccountId>, i: nat, e: string)
    requires Proper(given, first) && AllServed(given, first, owner, |first|)
    requires i < |first| && Holds(given.src, i, Email(e))
    ensures Served(given, owner, e, Person(given, first, i))
  {
    hide Holds, Connected, Explains, Ascending;
    LeaderFirst(given, first, i);
    ConnectedToItself(given.src, i);
    assert Together(given.src, i, i);
  }

  /** What a later attempt's match is, compared with the first. */
  ghost predicate Agrees(given: Setting, first: seq<Match>, receipts: map<Ref, Receipt>, matches: seq<Match>) {
    && |matches| == |first|
    && forall i :: 0 <= i < |first| ==> AgreesAt(given, first, receipts, matches[i], i)
  }

  ghost predicate AgreesAt(given: Setting, first: seq<Match>, receipts: map<Ref, Receipt>, m: Match, i: nat)
    requires i < |first|
  {
    && m.leader == first[i].leader && m.emails == first[i].emails
    && (m.account.Some? ==> m.account.value == Person(given, first, i) && Backed(first, receipts, i))
    && (first[i].account.Some? ==> m.account.Some?)
  }

  lemma AgreesNow(given: Setting, first: seq<Match>, receipts: map<Ref, Receipt>, owner: map<string, AccountId>,
                  values: map<Ref, AccountId>, pending: set<Ref>, m: Match, i: nat)
    requires Proper(given, first) && OwnersOk(given, first, receipts, owner) && i < |first|
    requires JournalOk(given, first, receipts, values, pending)
    requires MatchOf(Now(given, owner, values), i, m)
    ensures AgreesAt(given, first, receipts, m, i)
  {
    hide Holds, OwnersOk, Connected, JournalOk, Explains, Ascending;
    var now := Now(given, owner, values);
    forall j: nat ensures Connected(now, i, j) <==> Connected(given.src, i, j) {
      ConnectedNow(given, first, receipts, owner, values, i, j);
    }
    EmailsNow(given, first, receipts, owner, values, m, i);
    if m.account.Some? {
      var j: nat :| Together(now, i, j) && Claims(now, j, m.account.value);
      ClaimsNow(given, first, receipts, owner, values, pending, j, m.account.value);
      PersonSeparates(given, first, i, j);
      MatchesShared(given.src, i, first[i], j, first[j]);
    }
    if first[i].account.Some? {
      FoundInComponent(given, first, i);
      var x: nat :| Together(given.src, i, x) && Holds(given.src, x, Account(first[i].account.value));
      HoldsNow(given, first, receipts, owner, values, x);
      assert Together(now, i, x) && Claims(now, x, first[i].account.value);
    }
  }

  /** The emails of a component stay what they are, and in order. */
  lemma EmailsNow(given: Setting, first: seq<Match>, receipts: map<Ref, Receipt>, owner: map<string, AccountId>,
                  values: map<Ref, AccountId>, m: Match, i: nat)
    requires Proper(given, first) && OwnersOk(given, first, receipts, owner) && i < |first|
    requires MatchOf(Now(given, owner, values), i, m)
    ensures m.emails == first[i].emails
  {
    hide Holds, OwnersOk, Connected, Explains, Ascending;
    var now := Now(given, owner, values);
    forall e ensures e in m.emails <==> e in first[i].emails {
      forall j: nat
        ensures Together(now, i, j) && Holds(now, j, Email(e)) <==>
                Together(given.src, i, j) && Holds(given.src, j, Email(e))
      {
        ConnectedNow(given, first, receipts, owner, values, i, j);
        if j < |first| {
          HoldsNow(given, first, receipts, owner, values, j);
        }
      }
      assert e in m.emails <==> exists j: nat :: Together(now, i, j) && Holds(now, j, Email(e));
      assert e in first[i].emails <==> exists j: nat :: Together(given.src, i, j) && Holds(given.src, j, Email(e));
    }
    LessIsATotalOrder();
    OneSortedListing(Less, m.emails, first[i].emails);
  }

  // ------------------------------------------------------------------ names

  predicate SameName(a: Request, b: Request) {
    (a.NewUser? && b.NewUser? && a.login == b.login) || (a.NewRoom? && b.NewRoom? && a.name == b.name)
  }

  predicate TakenBefore(given: Setting, request: Request) {
    match request
    case NewUser(login, _) => given.taken(login)
    case NewRoom(name) => given.roomTaken(name)
  }

  predicate NameTaken(given: Setting, receipts: map<Ref, Receipt>, request: Request) {
    TakenBefore(given, request) || exists ref :: ref in receipts && SameName(receipts[ref].request, request)
  }

  predicate Nameable(given: Setting, ref: Ref) {
    match ref
    case UserRef(i) => given.nameable(i)
    case RoomRef(i) => given.roomNameable(i)
  }

  /** Everything of one kind that is wanted can be called what it is to be called. */
  ghost predicate NamesFit(given: Setting, first: seq<Match>, users: bool) {
    && (forall r :: Wanted(given, first, r) && r.UserRef? == users ==>
          Nameable(given, r) && !TakenBefore(given, Asked(given, first, r)))
    && (forall r, s :: Wanted(given, first, r) && Wanted(given, first, s) && r != s && r.UserRef? == s.UserRef? == users
          ==> !SameName(Asked(given, first, r), Asked(given, first, s)))
  }

  /** The archive can be imported into this server. */
  ghost predicate Fits(given: Setting, first: seq<Match>) {
    && (forall i :: 0 <= i < |given.src.users| ==> Supported(given.src.users[i]))
    && NamesFit(given, first, true) && NamesFit(given, first, false)
  }

  /** A name that is taken was taken by the record itself. */
  lemma TakenByItself(given: Setting, first: seq<Match>, receipts: map<Ref, Receipt>, created: seq<Ref>, ref: Ref)
    requires CreatedOk(given, first, receipts, created) && Fits(given, first) && Wanted(given, first, ref)
    requires NameTaken(given, receipts, Asked(given, first, ref))
    ensures ref in receipts
  {
    var request := Asked(given, first, ref);
    assert NamesFit(given, first, ref.UserRef?);
    var other :| other in receipts && SameName(receipts[other].request, request);
    assert receipts[other].request == Asked(given, first, other);
  }

  /** The email of a new account is nobody's. */
  lemma FirstEmailIsFree(given: Setting, first: seq<Match>, receipts: map<Ref, Receipt>, owner: map<string, AccountId>,
                         i: nat)
    requires Proper(given, first) && OwnersOk(given, first, receipts, owner) && Wanted(given, first, UserRef(i))
    requires UserRef(i) !in receipts && first[i].emails != []
    ensures !LookupNow(given, owner, first[i].emails[0]).Found? && first[i].emails[0] !in owner
    ensures forall more: map<Ref, Receipt> | UserRef(i) in more ::
              exists x: nat :: OwnsIt(given, first, more, x, first[i].emails[0], given.newId(UserRef(i)))
  {
    hide Holds, OwnersOk, Connected, Explains, Ascending;
    var e := first[i].emails[0];
    var x: nat :| Together(given.src, i, x) && Holds(given.src, x, Email(e));
    MatchesShared(given.src, i, first[i], x, first[x]);
    OwnerIsPerson(given, first, receipts, owner, x, e);
    forall more: map<Ref, Receipt> | UserRef(i) in more
      ensures exists x: nat :: OwnsIt(given, first, more, x, e, given.newId(UserRef(i)))
    {
      assert OwnsIt(given, first, more, x, e, given.newId(UserRef(i)));
    }
  }

  function EmailOf(request: Request): string {
    if request.NewUser? then request.email else ""
  }

  predicate Refused(given: Setting, receipts: map<Ref, Receipt>, owner: map<string, AccountId>, request: Request) {
    NameTaken(given, receipts, request) || (EmailOf(request) != "" && LookupNow(given, owner, EmailOf(request)).Found?)
  }

  lemma NotRefused(given: Setting, first: seq<Match>, receipts: map<Ref, Receipt>, created: seq<Ref>,
                   owner: map<string, AccountId>, ref: Ref)
    requires Proper(given, first) && OwnersOk(given, first, receipts, owner)
    requires CreatedOk(given, first, receipts, created) && Fits(given, first) && Wanted(given, first, ref)
    requires ref !in receipts
    ensures !Refused(given, receipts, owner, Asked(given, first, ref))
  {
    hide OwnersOk, Proper, CreatedOk, Fits, NameTaken;
    if NameTaken(given, receipts, Asked(given, first, ref)) {
      TakenByItself(given, first, receipts, created, ref);
    }
    if EmailOf(Asked(given, first, ref)) != "" {
      FirstEmailIsFree(given, first, receipts, owner, ref.i);
    }
  }

  // ------------------------------------------------------------------ the invariant grows with what is created

  lemma MoreCreated(given: Setting, first: seq<Match>, receipts: map<Ref, Receipt>, created: seq<Ref>, ref: Ref)
    requires CreatedOk(given, first, receipts, created) && Wanted(given, first, ref) && ref !in receipts
    ensures CreatedOk(given, first, receipts[ref := Receipt(Asked(given, first, ref), given.newId(ref))],
              created + [ref])
  {
  }

  lemma StillOwned(given: Setting, first: seq<Match>, receipts: map<Ref, Receipt>, more: map<Ref, Receipt>,
                   owner: map<string, AccountId>)
    requires OwnersOk(given, first, receipts, owner) && receipts.Keys <= more.Keys
    ensures OwnersOk(given, first, more, owner)
  {
    forall e | e in owner ensures exists i: nat :: OwnsIt(given, first, more, i, e, owner[e]) {
      var i: nat :| OwnsIt(given, first, receipts, i, e, owner[e]);
      assert OwnsIt(given, first, more, i, e, owner[e]);
    }
  }

  lemma OneMoreOwned(given: Setting, first: seq<Match>, receipts: map<Ref, Receipt>, owner: map<string, AccountId>,
                     e: string, id: AccountId)
    requires OwnersOk(given, first, receipts, owner) && exists i: nat :: OwnsIt(given, first, receipts, i, e, id)
    ensures OwnersOk(given, first, receipts, owner[e := id])
  {
    hide OwnsIt;
  }

  lemma StillRecorded(given: Setting, first: seq<Match>, receipts: map<Ref, Receipt>, more: map<Ref, Receipt>,
                      values: map<Ref, AccountId>, pending: set<Ref>)
    requires JournalOk(given, first, receipts, values, pending)
    requires receipts.Keys <= more.Keys <= pending
    ensures JournalOk(given, first, more, values, pending)
  {
  }

  class AccountImport {
    const given: Setting
    ghost const first: seq<Match>
    // The server: receipts under operation keys, what it created in this order, and the emails added since.
    var receipts: map<Ref, Receipt>
    var created: seq<Ref>
    var owner: map<string, AccountId>
    // The journal: every put is synced.
    var values: map<Ref, AccountId>
    var pending: set<Ref>
    var complete: bool
    // How many more steps this attempt makes; None if nothing cuts it off.
    var power: Option<nat>

    ghost predicate Started()
      reads this
    {
      receipts != map[] || owner != map[] || values != map[] || pending != {}
    }

    ghost predicate Valid()
      reads this
    {
      && Proper(given, first)
      && CreatedOk(given, first, receipts, created) && OwnersOk(given, first, receipts, owner)
      && JournalOk(given, first, receipts, values, pending)
      && (Started() ==> Fits(given, first)) && (complete ==> Done())
    }

    /** Every user and room is recorded, and whoever looks up an email of a user finds the account. */
    ghost predicate Done()
      reads this
    {
      && Fits(given, first)
      && (forall i: nat :: i < |first| ==> UserRef(i) in values)
      && (forall i: nat :: i < given.rooms ==> RoomRef(i) in values)
      && (forall i: nat, e :: i < |first| && Holds(given.src, i, Email(e)) ==>
            Served(given, owner, e, Person(given, first, i)))
    }

    constructor (setting: Setting, ghost matches: seq<Match>)
      requires Proper(setting, matches)
      ensures given == setting && first == matches && Valid() && created == [] && !complete && power.None?
    {
      given, first := setting, matches;
      receipts, created, owner, values, pending, complete, power := map[], [], map[], map[], {}, false, None;
    }

    /** Nothing that was there has changed. */
    twostate predicate Grows()
      reads this
    {
      && old(receipts).Keys <= receipts.Keys && old(created) <= created && old(pending) <= pending
      && Keeps(old(owner), owner) && Keeps(old(values), values)
    }

    method Step() returns (alive: bool)
      modifies this`power
      ensures alive <==> old(power) != Some(0)
      ensures power == if old(power).Some? && old(power).value > 0 then Some(old(power).value - 1) else old(power)
    {
      if power.None? {
        return true;
      }
      if power.value == 0 {
        return false;
      }
      power := Some(power.value - 1);
      return true;
    }

    // ---------------------------------------------------------------- one step each

    /** Before something is created the journal says so. */
    method Announce(ref: Ref) returns (ok: bool)
      requires Valid() && Fits(given, first) && !complete
      modifies this`pending, this`power
      ensures Valid() && Grows() && (ok ==> ref in pending)
      ensures old(power).None? ==> ok && power.None?
    {
      hide Fits, OwnersOk, CreatedOk, Proper;
      ok := Step();
      if ok {
        pending := pending + {ref};
        StillRecorded(given, first, receipts, receipts, values, pending);
      }
    }

    method Record(ref: Ref, id: AccountId) returns (ok: bool)
      requires Valid() && Fits(given, first) && !complete && RecordedOk(given, first, receipts, ref, id)
      modifies this`values, this`power
      ensures Valid() && Grows() && (ok ==> ref in values && values[ref] == id)
      ensures old(power).None? ==> ok && power.None?
    {
      hide Fits, OwnersOk, CreatedOk, Proper;
      ok := Step();
      if ok {
        SameRecord(given, first, receipts, values, pending, ref, id);
        values := values[ref := id];
      }
    }

    /**
     The server's side of CreateUser, ImportUser and CreateRoom: a known operation key gives the earlier result, if the
     arguments are the same; a name or an email that is in use is refused.
     */
    method Serve(ref: Ref, request: Request) returns (id: Option<AccountId>)
      modifies this`receipts, this`created, this`owner
      ensures ref in old(receipts) || Refused(given, old(receipts), old(owner), request) ==>
                receipts == old(receipts) && created == old(created) && owner == old(owner)
      ensures ref in old(receipts) ==>
                id == if old(receipts)[ref].request == request then Some(old(receipts)[ref].id) else None
      ensures ref !in old(receipts) && Refused(given, old(receipts), old(owner), request) ==> id.None?
      ensures ref !in old(receipts) && !Refused(given, old(receipts), old(owner), request) ==>
                && id == Some(given.newId(ref))
                && receipts == old(receipts)[ref := Receipt(request, given.newId(ref))]
                && created == old(created) + [ref]
                && owner == (if EmailOf(request) == "" then old(owner)
                             else old(owner)[EmailOf(request) := given.newId(ref)])
                && (request.NewUser? && request.email != "" ==>
                      request.email in owner && owner[request.email] == given.newId(ref))
    {
      if ref in receipts {
        return if receipts[ref].request == request then Some(receipts[ref].id) else None;
      }
      if Refused(given, receipts, owner, request) {
        return None;
      }
      id := Some(given.newId(ref));
      receipts, created := receipts[ref := Receipt(request, id.value)], created + [ref];
      if EmailOf(request) != "" {
        owner := owner[EmailOf(request) := id.value];
      }
    }

    /** What the import asks for is never refused, and never answered with something else. */
    method Create(ref: Ref, request: Request) returns (id: Option<AccountId>)
      requires Valid() && Fits(given, first) && !complete && Wanted(given, first, ref) && ref in pending
      requires request == Asked(given, first, ref)
      modifies this`receipts, this`created, this`owner
      ensures Valid() && Grows() && id == Some(given.newId(ref)) && ref in receipts
    {
      hide Fits, OwnersOk, Proper, Holds, Refused;
      if ref !in receipts {
        NotRefused(given, first, receipts, created, owner, ref);
        MoreCreated(given, first, receipts, created, ref);
      }
      ghost var before, owned := receipts, owner;
      id := Serve(ref, request);
      if ref !in before {
        StillOwned(given, first, before, receipts, owned);
        StillRecorded(given, first, before, receipts, values, pending);
        if EmailOf(request) != "" {
          FirstEmailIsFree(given, first, before, owned, ref.i);
          OneMoreOwned(given, first, receipts, owned, EmailOf(request), id.value);
        }
      }
    }

    // ---------------------------------------------------------------- calls

    /** One call: the power can go before it arrives and before its answer is back. */
    method Call(ref: Ref, request: Request) returns (id: Option<AccountId>)
      requires Valid() && Fits(given, first) && !complete && Wanted(given, first, ref) && ref in pending
      requires request == Asked(given, first, ref)
      modifies this`receipts, this`created, this`owner, this`power
      ensures Valid() && Grows() && (id.Some? ==> id.value == given.newId(ref) && ref in receipts)
      ensures old(power).None? ==> id.Some? && power.None?
      ensures old(power) == Some(0) ==> id.None? && receipts == old(receipts)
      ensures old(power) == Some(1) ==> id.None? && ref in receipts
    {
      hide Fits, OwnersOk, Proper, JournalOk, CreatedOk;
      var alive := Step();
      if !alive {
        return None;
      }
      id := Create(ref, request);
      alive := Step();
      if !alive {
        id := None;
      }
    }

    /** AddVerifiedEmail, which is refused for an email of another account. */
    method AddEmail(id: AccountId, e: string) returns (ok: bool)
      requires Valid() && Fits(given, first) && !complete
      requires exists i: nat :: OwnsIt(given, first, receipts, i, e, id)
      modifies this`owner
      ensures Valid() && Grows() && ok && Served(given, owner, e, id)
    {
      hide Fits, OwnersOk, Proper, JournalOk, CreatedOk, Person;
      ghost var i: nat :| OwnsIt(given, first, receipts, i, e, id);
      OwnerIsPerson(given, first, receipts, owner, i, e);
      var found := LookupNow(given, owner, e);
      if found.Found? {
        return found.id == id;
      }
      OneMoreOwned(given, first, receipts, owner, e, id);
      owner := owner[e := id];
      ok := true;
    }

    method AddEmails(ghost i: nat, id: AccountId, emails: seq<string>) returns (ok: bool)
      requires Valid() && Fits(given, first) && !complete && i < |first| && Backed(first, receipts, i)
      requires id == Person(given, first, i) && emails == first[i].emails
      modifies this`owner, this`power
      ensures Valid() && Grows() && (ok ==> forall e :: e in emails ==> Served(given, owner, e, id))
      ensures old(power).None? ==> ok && power.None?
    {
      hide Fits, OwnersOk, Proper, JournalOk, CreatedOk, Person, Backed, OwnsIt;
      for k := 0 to |emails|
        invariant Valid() && Grows() && (old(power).None? ==> power.None?)
        invariant forall j :: 0 <= j < k ==> Served(given, owner, emails[j], id)
      {
        ok := Step();
        if !ok {
          return;
        }
        EmailIsOurs(given, first, receipts, i, emails[k]);
        ok := AddEmail(id, emails[k]);
        ok := Step();
        if !ok {
          return;
        }
      }
      ok := true;
    }

    // ---------------------------------------------------------------- users

    /** The account of user `i`: recorded, shared with its leader, found, or created. */
    method AccountOf(matches: seq<Match>, i: nat, ids: seq<AccountId>) returns (id: Option<AccountId>)
      requires Valid() && Fits(given, first) && !complete && Agrees(given, first, receipts, matches)
      requires i < |first| && Assigned(i, ids)
      modifies this`receipts, this`created, this`owner, this`values, this`pending, this`power
      ensures Valid() && Grows()
      ensures id.Some? ==> id.value == Person(given, first, i) && UserRef(i) in values
      ensures old(power).None? ==> id.Some? && power.None?
    {
      hide Fits, OwnersOk, Proper, JournalOk, CreatedOk;
      LeaderFirst(given, first, i);
      assert AgreesAt(given, first, receipts, matches[i], i);
      var ref := UserRef(i);
      RecordsOk(given, first, receipts, values, pending);
      if ref in values {
        return Some(values[ref]);
      }
      id := if matches[i].leader < i then Some(ids[matches[i].leader]) else matches[i].account;
      if id.None? {
        var ok := Announce(ref);
        if !ok {
          return;
        }
        id := Call(ref, NewUser(given.login(i), FirstEmail(matches[i].emails)));
        if id.None? {
          return;
        }
      }
      var ok := Record(ref, id.value);
      if !ok {
        id := None;
      }
    }

    /** The first `n` users have their accounts. */
    ghost predicate Assigned(n: nat, ids: seq<AccountId>)
      reads this`values
    {
      && n <= |first| == |given.src.users| && |ids| == n
      && forall k: nat :: k < n ==> UserRef(k) in values && ids[k] == Person(given, first, k)
    }

    method AssignUsers(matches: seq<Match>) returns (ids: seq<AccountId>, ok: bool)
      requires Valid() && Fits(given, first) && !complete && Agrees(given, first, receipts, matches)
      modifies this`receipts, this`created, this`owner, this`values, this`pending, this`power
      ensures Valid() && Grows()
      ensures ok ==> Assigned(|first|, ids) && AllServed(given, first, owner, |first|)
      ensures old(power).None? ==> ok && power.None?
    {
      hide Fits, OwnersOk, Proper, JournalOk, CreatedOk, Agrees, Person, Served, AllServed;
      SameSize(given, first);
      NoneServed(given, first, owner);
      ids, ok := [], true;
      for i := 0 to |given.src.users|
        invariant ok && Valid() && Grows() && Agrees(given, first, receipts, matches) && Assigned(i, ids)
        invariant AllServed(given, first, owner, i) && (old(power).None? ==> power.None?)
      {
        ids, ok := AssignUser(matches, i, ids);
        if !ok {
          return;
        }
      }
    }

    method AssignUser(matches: seq<Match>, i: nat, ids: seq<AccountId>) returns (ids': seq<AccountId>, ok: bool)
      requires Valid() && Fits(given, first) && !complete && Agrees(given, first, receipts, matches)
      requires i < |first| && Assigned(i, ids) && AllServed(given, first, owner, i)
      modifies this`receipts, this`created, this`owner, this`values, this`pending, this`power
      ensures Valid() && Grows() && Agrees(given, first, receipts, matches)
      ensures ok ==> Assigned(i + 1, ids') && AllServed(given, first, owner, i + 1)
      ensures old(power).None? ==> ok && power.None?
    {
      hide Fits, OwnersOk, Proper, JournalOk, CreatedOk, AgreesAt, Person, Served, AllServed;
      ghost var before, served := receipts, owner;
      var id := AccountOf(matches, i, ids);
      AgreesStill(given, first, before, receipts, matches);
      if id.None? {
        return ids, false;
      }
      ids' := ids + [id.value];
      AgreesFacts(given, first, receipts, matches, i);
      RecordsOk(given, first, receipts, values, pending);
      ok := true;
      if matches[i].leader == i {
        ok := AddEmails(i, id.value, matches[i].emails);
      }
      if ok {
        ServedStays(given, first, served, owner, i);
        OneMoreServed(given, first, owner, i);
      }
    }

    // ---------------------------------------------------------------- rooms

    method MakeRooms() returns (ok: bool)
      requires Valid() && Fits(given, first) && !complete
      modifies this`receipts, this`created, this`owner, this`values, this`pending, this`power
      ensures Valid() && Grows()
      ensures ok ==> forall j: nat :: j < given.rooms ==> RoomRef(j) in values
      ensures old(power).None? ==> ok && power.None?
    {
      hide Fits, OwnersOk, Proper, JournalOk, CreatedOk;
      ok := true;
      for j := 0 to given.rooms
        invariant ok && Valid() && Grows() && (old(power).None? ==> power.None?)
        invariant forall l: nat :: l < j ==> RoomRef(l) in values
      {
        ok := MakeRoom(j);
        if !ok {
          return;
        }
      }
    }

    method MakeRoom(j: nat) returns (ok: bool)
      requires Valid() && Fits(given, first) && !complete && j < given.rooms
      modifies this`receipts, this`created, this`owner, this`values, this`pending, this`power
      ensures Valid() && Grows() && (ok ==> RoomRef(j) in values)
      ensures old(power).None? ==> ok && power.None?
    {
      hide Fits, OwnersOk, Proper, JournalOk, CreatedOk;
      var ref := RoomRef(j);
      if ref in values {
        return true;
      }
      ok := Announce(ref);
      if !ok {
        return;
      }
      var id := Call(ref, NewRoom(given.room(j)));
      if id.None? {
        return false;
      }
      ok := Record(ref, id.value);
    }

    // ---------------------------------------------------------------- preflight

    method CheckUsers(matches: seq<Match>) returns (ok: bool)
      requires Valid() && Agrees(given, first, receipts, matches)
      ensures !ok ==> !Fits(given, first)
      ensures ok ==> |matches| == |given.src.users| &&
                     UsersChecked(given, receipts, values, pending, matches, |matches|)
    {
      hide OwnersOk, Proper, JournalOk, CreatedOk, Agrees, NameTaken, Fits, Supported;
      SameSize(given, first);
      AgreesSize(given, first, receipts, matches);
      var names: set<string> := {};
      for i := 0 to |given.src.users|
        invariant UsersChecked(given, receipts, values, pending, matches, i)
        invariant NamesOf(given, values, matches, i, names)
      {
        if !Supported(given.src.users[i]) {
          Unsupported(given, first, i);
          return false;
        }
        if Creates(values, matches, i) {
          CreatesWanted(given, first, receipts, values, matches, i);
          if !given.nameable(i) || given.login(i) in names {
            NameClashes(given, first, receipts, values, matches, i, names);
            return false;
          }
          names := names + {given.login(i)};
          if NameTaken(given, receipts, NewUser(given.login(i), "")) && UserRef(i) !in pending {
            Collides(given, first, receipts, created, values, pending, UserRef(i), NewUser(given.login(i), ""));
            return false;
          }
        }
      }
      ok := true;
    }

    method CheckRooms() returns (ok: bool)
      requires Valid()
      ensures !ok ==> !Fits(given, first)
      ensures ok ==> RoomsChecked(given, receipts, values, pending, given.rooms)
    {
      hide OwnersOk, Proper, JournalOk, CreatedOk, NameTaken, Fits;
      var names: set<string> := {};
      for j := 0 to given.rooms
        invariant RoomsChecked(given, receipts, values, pending, j)
        invariant forall name :: name in names <==> exists l: nat :: l < j && given.room(l) == name
      {
        if !given.roomNameable(j) || given.room(j) in names {
          RoomClashes(given, first, j);
          return false;
        }
        names := names + {given.room(j)};
        if NameTaken(given, receipts, NewRoom(given.room(j))) && RoomRef(j) !in values && RoomRef(j) !in pending {
          Collides(given, first, receipts, created, values, pending, RoomRef(j), NewRoom(given.room(j)));
          return false;
        }
      }
      ok := true;
    }

    // ---------------------------------------------------------------- one attempt

    /**
     run up to the history: however far earlier attempts got, this one gets through if and only if the first could.
     */
    method Attempt() returns (ok: bool)
      requires Valid()
      modifies this`receipts, this`created, this`owner, this`values, this`pending, this`complete, this`power
      ensures Valid() && Grows()
      ensures ok ==> Done() && complete
      ensures !Fits(given, first) ==> created == old(created)
      ensures old(power).None? ==> (ok <==> Fits(given, first)) && power.None?
    {
      hide OwnersOk, Proper, JournalOk, CreatedOk, Fits, Agrees, UsersChecked, RoomsChecked, AllServed, Person, Served;
      if complete {
        return true;
      }
      var matches := MatchAgain();
      ok := CheckUsers(matches);
      if ok {
        ok := CheckRooms();
      }
      if !ok {
        return;
      }
      ChecksAreFit(given, first, receipts, owner, values, pending, matches, Started());
      var ids;
      ids, ok := AssignUsers(matches);
      if !ok {
        return;
      }
      ghost var served := owner;
      ok := MakeRooms();
      if !ok {
        return;
      }
      ServedStays(given, first, served, owner, |first|);
      forall i: nat, e | i < |first| && Holds(given.src, i, Email(e))
        ensures Served(given, owner, e, Person(given, first, i))
      {
        ServedAll(given, first, owner, i, e);
      }
      ok := Step();
      complete := ok;
    }

    /** matchUsers on what there is by now; it has nothing to complain about. */
    method MatchAgain() returns (matches: seq<Match>)
      requires Valid()
      ensures Agrees(given, first, receipts, matches)
    {
      hide OwnersOk, Proper, JournalOk, CreatedOk, NamesFit, MatchOf, Explains;
      var matcher := new Matcher(Now(given, owner, values));
      var error;
      matches, error := matcher.MatchUsers();
      SameSize(given, first);
      NothingWrongNow(given, first, receipts, owner, values, pending);
      assert error.None?;
      forall i | 0 <= i < |first| ensures AgreesAt(given, first, receipts, matches[i], i) {
        AgreesNow(given, first, receipts, owner, values, pending, matches[i], i);
      }
    }
  }

  // ------------------------------------------------------------------ what preflight checks

  /** The attempt is about to create an account for user `i`. */
  predicate Creates(values: map<Ref, AccountId>, matches: seq<Match>, i: nat)
    requires i < |matches|
  {
    matches[i].account.None? && matches[i].leader == i && UserRef(i) !in values
  }

  ghost predicate UsersChecked(given: Setting, receipts: map<Ref, Receipt>, values: map<Ref, AccountId>,
                               pending: set<Ref>, matches: seq<Match>, n: nat)
    requires n <= |matches| == |given.src.users|
  {
    && (forall i: nat :: i < n ==> Supported(given.src.users[i]))
    && (forall i: nat :: i < n && Creates(values, matches, i) ==>
          && given.nameable(i)
          && (NameTaken(given, receipts, NewUser(given.login(i), "")) ==> UserRef(i) in pending))
    && (forall i: nat, j: nat :: i < j < n && Creates(values, matches, i) && Creates(values, matches, j) ==>
          given.login(i) != given.login(j))
  }

  ghost predicate NamesOf(given: Setting, values: map<Ref, AccountId>, matches: seq<Match>, n: nat, names: set<string>)
    requires n <= |matches|
  {
    forall name :: name in names <==> exists i: nat :: i < n && Creates(values, matches, i) && given.login(i) == name
  }

  ghost predicate RoomsChecked(given: Setting, receipts: map<Ref, Receipt>, values: map<Ref, AccountId>,
                               pending: set<Ref>, n: nat) {
    && (forall j: nat :: j < n ==>
          && given.roomNameable(j)
          && (NameTaken(given, receipts, NewRoom(given.room(j))) ==> RoomRef(j) in values || RoomRef(j) in pending))
    && (forall i: nat, j: nat :: i < j < n ==> given.room(i) != given.room(j))
  }

  lemma AgreesSize(given: Setting, first: seq<Match>, receipts: map<Ref, Receipt>, matches: seq<Match>)
    requires Agrees(given, first, receipts, matches)
    ensures |matches| == |first|
  {
  }

  lemma Unsupported(given: Setting, first: seq<Match>, i: nat)
    requires i < |given.src.users| && !Supported(given.src.users[i])
    ensures !Fits(given, first)
  {
  }

  lemma CreatesWanted(given: Setting, first: seq<Match>, receipts: map<Ref, Receipt>, values: map<Ref, AccountId>,
                      matches: seq<Match>, i: nat)
    requires Agrees(given, first, receipts, matches) && i < |matches| && Creates(values, matches, i)
    ensures Wanted(given, first, UserRef(i))
  {
    assert AgreesAt(given, first, receipts, matches[i], i);
  }

  lemma NameClashes(given: Setting, first: seq<Match>, receipts: map<Ref, Receipt>, values: map<Ref, AccountId>,
                    matches: seq<Match>, i: nat, names: set<string>)
    requires Agrees(given, first, receipts, matches) && i < |matches| && Wanted(given, first, UserRef(i))
    requires NamesOf(given, values, matches, i, names)
    requires !given.nameable(i) || given.login(i) in names
    ensures !Fits(given, first)
  {
    hide Agrees;
    if given.login(i) in names {
      var k: nat :| k < i && Creates(values, matches, k) && given.login(k) == given.login(i);
      CreatesWanted(given, first, receipts, values, matches, k);
      assert SameName(Asked(given, first, UserRef(k)), Asked(given, first, UserRef(i)));
    } else {
      assert !Nameable(given, UserRef(i));
    }
  }

  lemma RoomClashes(given: Setting, first: seq<Match>, j: nat)
    requires j < given.rooms && (!given.roomNameable(j) || exists l: nat :: l < j && given.room(l) == given.room(j))
    ensures !Fits(given, first)
  {
    assert Wanted(given, first, RoomRef(j));
    if given.roomNameable(j) {
      var l: nat :| l < j && given.room(l) == given.room(j);
      assert Wanted(given, first, RoomRef(l));
      assert SameName(Asked(given, first, RoomRef(l)), Asked(given, first, RoomRef(j)));
    } else {
      assert !Nameable(given, RoomRef(j));
    }
  }

  /** A name that is in use and not announced is somebody else's. */
  lemma Collides(given: Setting, first: seq<Match>, receipts: map<Ref, Receipt>, created: seq<Ref>,
                 values: map<Ref, AccountId>, pending: set<Ref>, ref: Ref, request: Request)
    requires CreatedOk(given, first, receipts, created) && JournalOk(given, first, receipts, values, pending)
    requires Wanted(given, first, ref) && SameName(request, Asked(given, first, ref))
    requires NameTaken(given, receipts, request) && ref !in pending
    ensures !Fits(given, first)
  {
    hide CreatedOk, Fits;
    assert NameTaken(given, receipts, Asked(given, first, ref));
    if Fits(given, first) {
      TakenByItself(given, first, receipts, created, ref);
    }
  }

  /** What has passed the checks fits: on the first attempt because of them, later because the first one passed. */
  lemma ChecksAreFit(given: Setting, first: seq<Match>, receipts: map<Ref, Receipt>, owner: map<string, AccountId>,
                     values: map<Ref, AccountId>, pending: set<Ref>, matches: seq<Match>, started: bool)
    requires Agrees(given, first, receipts, matches) && |matches| == |given.src.users|
    requires started ==> Fits(given, first)
    requires !started ==> receipts == map[] && values == map[] && pending == {}
    requires UsersChecked(given, receipts, values, pending, matches, |matches|)
    requires RoomsChecked(given, receipts, values, pending, given.rooms)
    ensures Fits(given, first)
  {
    if !started {
      forall i: nat | Wanted(given, first, UserRef(i)) ensures Creates(values, matches, i) {
        assert AgreesAt(given, first, receipts, matches[i], i);
      }
      forall r | Wanted(given, first, r) ensures Nameable(given, r) && !TakenBefore(given, Asked(given, first, r)) {
        match r
        case UserRef(i) => assert !NameTaken(given, receipts, NewUser(given.login(i), ""));
        case RoomRef(j) => assert !NameTaken(given, receipts, NewRoom(given.room(j)));
      }
    }
  }

  lemma AgreesStill(given: Setting, first: seq<Match>, receipts: map<Ref, Receipt>, more: map<Ref, Receipt>,
                    matches: seq<Match>)
    requires Agrees(given, first, receipts, matches) && receipts.Keys <= more.Keys
    ensures Agrees(given, first, more, matches)
  {
    hide Person;
    forall i | 0 <= i < |first| ensures AgreesAt(given, first, more, matches[i], i) {
      assert AgreesAt(given, first, receipts, matches[i], i);
    }
  }

  lemma AgreesFacts(given: Setting, first: seq<Match>, receipts: map<Ref, Receipt>, matches: seq<Match>, i: nat)
    requires Agrees(given, first, receipts, matches) && i < |first|
    ensures |matches| == |first| && matches[i].leader == first[i].leader && matches[i].emails == first[i].emails
  {
    assert AgreesAt(given, first, receipts, matches[i], i);
  }

  /** Recorded users have their account, and it exists. */
  lemma RecordsOk(given: Setting, first: seq<Match>, receipts: map<Ref, Receipt>, values: map<Ref, AccountId>,
                  pending: set<Ref>)
    requires JournalOk(given, first, receipts, values, pending)
    ensures forall i: nat :: UserRef(i) in values ==>
              i < |first| && values[UserRef(i)] == Person(given, first, i) && Backed(first, receipts, i)
  {
    hide Person, Backed;
    forall i: nat | UserRef(i) in values
      ensures i < |first| && values[UserRef(i)] == Person(given, first, i) && Backed(first, receipts, i)
    {
      assert RecordedOk(given, first, receipts, UserRef(i), values[UserRef(i)]);
    }
  }

  lemma NoneServed(given: Setting, first: seq<Match>, owner: map<string, AccountId>)
    ensures AllServed(given, first, owner, 0)
  {
  }

  lemma OneMoreServed(given: Setting, first: seq<Match>, owner: map<string, AccountId>, i: nat)
    requires i < |first| && AllServed(given, first, owner, i)
    requires first[i].leader == i ==>
               forall e :: e in first[i].emails ==> Served(given, owner, e, Person(given, first, i))
    ensures AllServed(given, first, owner, i + 1)
  {
    hide Served, Person;
  }

  lemma SameRecord(given: Setting, first: seq<Match>, receipts: map<Ref, Receipt>, values: map<Ref, AccountId>,
                   pending: set<Ref>, ref: Ref, id: AccountId)
    requires JournalOk(given, first, receipts, values, pending) && RecordedOk(given, first, receipts, ref, id)
    ensures JournalOk(given, first, receipts, values[ref := id], pending)
    ensures ref in values ==> values[ref] == id
  {
  }

  // ------------------------------------------------------------------ any number of attempts

  lemma CreatedExactly(given: Setting, first: seq<Match>, receipts: map<Ref, Receipt>, created: seq<Ref>,
                       values: map<Ref, AccountId>, pending: set<Ref>, ref: Ref)
    requires CreatedOk(given, first, receipts, created) && JournalOk(given, first, receipts, values, pending)
    requires forall i: nat :: i < |first| ==> UserRef(i) in values
    requires forall j: nat :: j < given.rooms ==> RoomRef(j) in values
    ensures ref in created <==> Wanted(given, first, ref)
  {
    RecordsOk(given, first, receipts, values, pending);
    if Wanted(given, first, ref) {
      assert ref in values && RecordedOk(given, first, receipts, ref, values[ref]);
    }
  }

  lemma {:induction false} OnceEach(created: seq<Ref>, ref: Ref)
    requires forall k, l :: 0 <= k < l < |created| ==> created[k] != created[l]
    ensures multiset(created)[ref] == if ref in created then 1 else 0
  {
    if created != [] {
      var n := |created| - 1;
      OnceEach(created[..n], ref);
      assert created == created[..n] + [created[n]];
    }
  }

  /**
   However often the import is cut off, wherever that happens: the server gets each room once and one account for
   each person that had none, nothing else and nothing twice, and two source users share an account if and only if
   they are connected. An archive that does not fit is refused before anything is created.
   */
  method ImportAccounts(setting: Setting, ghost first: seq<Match>, outages: seq<nat>)
    returns (run: AccountImport, ok: bool)
    requires Proper(setting, first)
    ensures run.Valid() && run.given == setting && run.first == first
    ensures ok <==> Fits(setting, first)
    ensures forall ref :: multiset(run.created)[ref] == if ok && Wanted(setting, first, ref) then 1 else 0
    ensures forall i: nat :: UserRef(i) in run.receipts ==>
              && i < |first| && run.receipts[UserRef(i)].request.NewUser?
              && run.receipts[UserRef(i)].request.login == setting.login(i)
              && run.receipts[UserRef(i)].request.email == if first[i].emails == [] then "" else first[i].emails[0]
    ensures forall j: nat :: RoomRef(j) in run.receipts ==>
              j < setting.rooms && run.receipts[RoomRef(j)].request == NewRoom(setting.room(j))
    ensures ok ==> forall i: nat :: i < |first| ==>
                     UserRef(i) in run.values && run.values[UserRef(i)] == Person(setting, first, i)
    ensures ok ==> forall i: nat, j: nat :: i < |first| && j < |first| ==>
                     (run.values[UserRef(i)] == run.values[UserRef(j)] <==> Connected(setting.src, i, j))
    ensures ok ==> forall i: nat, e :: i < |first| && Holds(setting.src, i, Email(e)) ==>
                     Served(setting, run.owner, e, run.values[UserRef(i)])
  {
    hide OwnersOk, Proper, JournalOk, CreatedOk, Fits, Served, Connected, Holds, Person;
    run := new AccountImport(setting, first);
    for n := 0 to |outages|
      invariant run.Valid() && run.given == setting && run.first == first
    {
      run.power := Some(outages[n]);
      var _ := run.Attempt();
    }
    run.power := None;
    ok := run.Attempt();
    if ok {
      RecordsOk(setting, first, run.receipts, run.values, run.pending);
      forall i: nat, j: nat | i < |first| && j < |first|
        ensures run.values[UserRef(i)] == run.values[UserRef(j)] <==> Connected(setting.src, i, j)
      {
        PersonSeparates(setting, first, i, j);
      }
    }
    CreatedAsAsked(setting, first, run.receipts, run.created);
    forall ref ensures multiset(run.created)[ref] == if ok && Wanted(setting, first, ref) then 1 else 0 {
      CountedOnce(setting, first, run.receipts, run.created, ref);
      if ok {
        CreatedExactly(setting, first, run.receipts, run.created, run.values, run.pending, ref);
      }
    }
  }

  lemma CreatedAsAsked(given: Setting, first: seq<Match>, receipts: map<Ref, Receipt>, created: seq<Ref>)
    requires CreatedOk(given, first, receipts, created)
    ensures forall i: nat :: UserRef(i) in receipts ==>
              && i < |first| && receipts[UserRef(i)].request.NewUser?
              && receipts[UserRef(i)].request.login == given.login(i)
              && receipts[UserRef(i)].request.email == if first[i].emails == [] then "" else first[i].emails[0]
    ensures forall j: nat :: RoomRef(j) in receipts ==>
              j < given.rooms && receipts[RoomRef(j)].request == NewRoom(given.room(j))
  {
  }

  lemma CountedOnce(given: Setting, first: seq<Match>, receipts: map<Ref, Receipt>, created: seq<Ref>, ref: Ref)
    requires CreatedOk(given, first, receipts, created)
    ensures multiset(created)[ref] == if ref in created then 1 else 0
    ensures ref in created <==> ref in receipts
  {
    OnceEach(created, ref);
  }
}
