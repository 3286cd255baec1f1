/** Sets in sorted order: sort.Strings and sortedImportKeys (cli/cmd/operator_import_runner.go, lines 75-82). */
module Sorting {
  ghost predicate TotalOrder<T(!new)>(less: (T, T) -> bool) {
    && (forall a :: !less(a, a))
    && (forall a, b :: a == b || less(a, b) || less(b, a))
    && (forall a, b, c :: less(a, b) && less(b, c) ==> less(a, c))
  }

  ghost predicate Ascending<T>(less: (T, T) -> bool, s: seq<T>) {
    forall i, j :: 0 <= i < j < |s| ==> less(s[i], s[j])
  }

  ghost predicate Lists<T(!new)>(s: seq<T>, keys: set<T>) {
    forall x :: x in s <==> x in keys
  }

  /** The order of sort.Strings. */
  predicate Less(a: string, b: string) {
    b != "" && (a == "" || a[0] < b[0] || (a[0] == b[0] && Less(a[1..], b[1..])))
  }

  /** Strings are compared at the first place where they differ; a beginning comes before the whole. */
  lemma {:induction false} LessAtFirstDifference(a: string, b: string, k: nat)
    requires k <= |a| && k <= |b| && a[..k] == b[..k]
    ensures k == |a| < |b| ==> Less(a, b)
    ensures k < |a| && k < |b| && a[k] < b[k] ==> Less(a, b)
    ensures k == |b| ==> !Less(a, b)
    ensures k < |a| && k < |b| && b[k] < a[k] ==> !Less(a, b)
  {
    if k > 0 {
      assert a[0] == a[..k][0] && b[0] == b[..k][0];
      assert a[1..][..k - 1] == a[..k][1..] && b[1..][..k - 1] == b[..k][1..];
      LessAtFirstDifference(a[1..], b[1..], k - 1);
    }
  }

  lemma {:induction false} LessIsTotal(a: string, b: string)
    ensures a == b || Less(a, b) || Less(b, a)
    ensures !(Less(a, b) && Less(b, a)) && !Less(a, a)
  {
    if a != "" {
      LessIsTotal(a[1..], a[1..]);
      if b != "" && a[0] == b[0] {
        LessIsTotal(a[1..], b[1..]);
        assert a == [a[0]] + a[1..] && b == [b[0]] + b[1..];
      }
    }
  }

  lemma {:induction false} LessIsTransitive(a: string, b: string, c: string)
    requires Less(a, b) && Less(b, c)
    ensures Less(a, c)
  {
    if a != "" && a[0] == b[0] && b[0] == c[0] {
      LessIsTransitive(a[1..], b[1..], c[1..]);
    }
  }

  lemma LessIsATotalOrder()
    ensures TotalOrder(Less)
  {
    forall a, b ensures (a == b || Less(a, b) || Less(b, a)) && !Less(a, a) {
      LessIsTotal(a, b);
    }
    forall a, b, c | Less(a, b) && Less(b, c) ensures Less(a, c) {
      LessIsTransitive(a, b, c);
    }
  }

  method Insert<T(!new, ==)>(less: (T, T) -> bool, sorted: seq<T>, key: T) returns (more: seq<T>)
    requires TotalOrder(less) && Ascending(less, sorted) && key !in sorted
    ensures Ascending(less, more) && forall e :: e in more <==> e in sorted || e == key
  {
    var at := 0;
    while at < |sorted| && less(sorted[at], key)
      invariant at <= |sorted| && forall k :: 0 <= k < at ==> less(sorted[k], key)
    {
      at := at + 1;
    }
    more := sorted[..at] + [key] + sorted[at..];
    forall k | at <= k < |sorted| ensures less(key, sorted[k]) {
      assert less(key, sorted[at]);
    }
    assert forall e :: e in sorted <==> e in sorted[..at] || e in sorted[at..];
  }

  /** Sets have one sorted listing. */
  method SortedKeys<T(!new, ==)>(less: (T, T) -> bool, keys: set<T>) returns (sorted: seq<T>)
    requires TotalOrder(less)
    ensures Ascending(less, sorted) && Lists(sorted, keys)
    ensures sorted == Sorted(less, keys)
  {
    sorted := [];
    var rest := keys;
    while rest != {}
      invariant Ascending(less, sorted) && rest <= keys
      invariant forall e :: e in sorted <==> e in keys && e !in rest
    {
      var key :| key in rest;
      rest := rest - {key};
      sorted := Insert(less, sorted, key);
    }
    OneSortedListing(less, sorted, Sorted(less, keys));
  }

  ghost function Sorted<T(!new)>(less: (T, T) -> bool, keys: set<T>): (s: seq<T>)
    requires TotalOrder(less)
    ensures Ascending(less, s) && Lists(s, keys)
  {
    if keys == {} then []
    else
      var key :| key in keys;
      InsertInto(less, Sorted(less, keys - {key}), key)
  }

  ghost function InsertInto<T(!new)>(less: (T, T) -> bool, s: seq<T>, key: T): (t: seq<T>)
    requires TotalOrder(less) && Ascending(less, s) && key !in s
    ensures Ascending(less, t) && forall e :: e in t <==> e in s || e == key
  {
    if s == [] || less(key, s[0]) then [key] + s
    else
      var rest := InsertInto(less, s[1..], key);
      assert forall x :: x in rest ==> less(s[0], x);
      [s[0]] + rest
  }

  lemma {:induction false} OneSortedListing<T(!new)>(less: (T, T) -> bool, s: seq<T>, t: seq<T>)
    requires TotalOrder(less) && Ascending(less, s) && Ascending(less, t)
    requires forall x :: x in s <==> x in t
    ensures s == t
    decreases |s|
  {
    assert (s != [] ==> s[0] in t) && (t != [] ==> t[0] in s);
    if s != [] {
      assert s[0] == t[0];
      forall x ensures x in s[1..] <==> x in t[1..] {
        assert x in s <==> x == s[0] || x in s[1..];
        assert x in t <==> x == t[0] || x in t[1..];
        assert s[0] !in s[1..] && t[0] !in t[1..];
      }
      OneSortedListing(less, s[1..], t[1..]);
    }
  }
}
