/**
 Dotted NATS subjects and the wildcard filters that select them
 (pkg/events/subject_filter.go).

 `Tokens` and `MatchTokens` are the token-list reading of a filter.  The two methods are the
 loops the repository runs: a cutting loop that splits a filter once, and an index scan over
 the subject that allocates nothing.  Both are proved equal to the token-list reading.
 */
module Subjects {

  /** Index of the first '.' at or after `from`, or the length when there is none. */
  function NextDot(s: string, from: nat): (i: nat)
    requires from <= |s|
    ensures from <= i <= |s|
    ensures forall k :: from <= k < i ==> s[k] != '.'
    ensures i < |s| ==> s[i] == '.'
    decreases |s| - from
  {
    if from == |s| || s[from] == '.' then from else NextDot(s, from + 1)
  }

  /** The tokens of `s[from..]`; a position one past the end has no token left. */
  function TokensFrom(s: string, from: nat): (ts: seq<string>)
    requires from <= |s| + 1
    ensures ts == [] <==> from == |s| + 1
    decreases |s| + 1 - from
  {
    if from == |s| + 1 then [] else
      var end := NextDot(s, from);
      [s[from..end]] + TokensFrom(s, end + 1)
  }

  /** The empty subject has no tokens; every other subject has one more token than dots. */
  function Tokens(s: string): seq<string> {
    if s == "" then [] else TokensFrom(s, 0)
  }

  function Join(ts: seq<string>): string {
    if ts == [] then "" else if |ts| == 1 then ts[0] else ts[0] + "." + Join(ts[1..])
  }

  predicate DotFree(t: string) {
    forall k :: 0 <= k < |t| ==> t[k] != '.'
  }

  /** '*' stands for one non-empty token; '>' must be last and needs a non-empty remaining string. */
  predicate MatchTokens(filter: seq<string>, subject: seq<string>) {
    if filter == [] then subject == []
    else if filter[0] == ">" then |filter| == 1 && subject != [] && subject != [""]
    else
      && subject != []
      && subject[0] != ""
      && (filter[0] == "*" || filter[0] == subject[0])
      && MatchTokens(filter[1..], subject[1..])
  }

  predicate Matches(filter: string, subject: string) {
    filter != "" && subject != "" && MatchTokens(Tokens(filter), Tokens(subject))
  }

  predicate MatchesAny(filters: seq<string>, subject: string) {
    exists f :: f in filters && Matches(f, subject)
  }

  /** A filter without wildcards and without empty tokens names one subject. */
  predicate Literal(filter: string) {
    filter != "" && forall t :: t in Tokens(filter) ==> t != "" && t != "*" && t != ">"
  }

  // ------------------------------------------------------------------ the loops

  method FindDot(subject: string, pos: nat) returns (end: nat)
    requires pos <= |subject|
    ensures end == NextDot(subject, pos)
  {
    end := pos;
    while end < |subject| && subject[end] != '.'
      invariant pos <= end <= |subject|
      invariant NextDot(subject, pos) == NextDot(subject, end)
    {
      end := end + 1;
    }
  }

  /** splitSubjectTokens: cut at the first dot until no dot is left. */
  method SplitTokens(subject: string) returns (tokens: seq<string>)
    ensures tokens == Tokens(subject)
    ensures Join(tokens) == subject
    ensures forall t :: t in tokens ==> DotFree(t)
  {
    hide TokensFrom, NextDot;
    tokens := [];
    if subject == "" {
      return;
    }
    var pos: nat := 0;
    while pos <= |subject|
      invariant pos <= |subject| + 1
      invariant Tokens(subject) == tokens + TokensFrom(subject, pos)
      decreases |subject| + 1 - pos
    {
      var end := FindDot(subject, pos);
      FirstToken(subject, pos);
      assert tokens + TokensFrom(subject, pos) == (tokens + [subject[pos..end]]) + TokensFrom(subject, end + 1);
      tokens := tokens + [subject[pos..end]];
      pos := end + 1;
    }
    FirstToken(subject, |subject|);
    JoinUndoesSplit(subject);
    TokensAreDotFree(subject, 0);
  }

  /** compiledSubjectFilter.matches: scan the subject in place against the split filter. */
  method ScanMatches(raw: string, tokens: seq<string>, subject: string) returns (matched: bool)
    requires tokens == Tokens(raw)
    ensures matched <==> Matches(raw, subject)
  {
    hide MatchTokens, TokensFrom, NextDot;
    if raw == "" || subject == "" {
      return false;
    }
    var pos: nat := 0;
    assert tokens[0..] == tokens;
    for i := 0 to |tokens|
      invariant pos <= |subject| + 1
      invariant MatchTokens(tokens, Tokens(subject)) <==> MatchTokens(tokens[i..], TokensFrom(subject, pos))
    {
      StepMatch(tokens, i, subject, pos);
      if tokens[i] == ">" {
        return i == |tokens| - 1 && pos < |subject|;
      }
      if pos > |subject| {
        return false;
      }
      var end := FindDot(subject, pos);
      if end == pos {
        return false;
      }
      if tokens[i] != "*" && tokens[i] != subject[pos..end] {
        return false;
      }
      pos := end + 1;
    }
    NoFilterLeft(tokens, subject, pos);
    return pos == |subject| + 1;
  }

  /** matchesAnySubject over filters that were split once. */
  method ScanMatchesAny(filters: seq<string>, subject: string) returns (matched: bool)
    ensures matched <==> MatchesAny(filters, subject)
  {
    for i := 0 to |filters|
      invariant forall k :: 0 <= k < i ==> !Matches(filters[k], subject)
    {
      var tokens := SplitTokens(filters[i]);
      var one := ScanMatches(filters[i], tokens, subject);
      if one {
        return true;
      }
    }
    return false;
  }

  // ------------------------------------------------------------------ laws

  /** One turn of the scan: the filter token at `i` against the subject token at `pos`. */
  lemma StepMatch(filter: seq<string>, i: nat, s: string, pos: nat)
    requires i < |filter| && pos <= |s| + 1
    ensures MatchTokens(filter[i..], TokensFrom(s, pos)) <==>
            if filter[i] == ">" then i == |filter| - 1 && pos < |s|
            else if pos > |s| then false
            else
              var end := NextDot(s, pos);
              && end != pos
              && (filter[i] == "*" || filter[i] == s[pos..end])
              && MatchTokens(filter[i + 1..], TokensFrom(s, end + 1))
  {
    var f := filter[i..];
    assert f[0] == filter[i] && f[1..] == filter[i + 1..];
    TailIsEmptyAtEnd(s, pos);
    if pos <= |s| {
      var end := NextDot(s, pos);
      var ts := TokensFrom(s, pos);
      assert ts[0] == s[pos..end] && ts[1..] == TokensFrom(s, end + 1);
    }
  }

  lemma NoFilterLeft(filter: seq<string>, s: string, pos: nat)
    requires pos <= |s| + 1
    ensures MatchTokens(filter[|filter|..], TokensFrom(s, pos)) <==> pos == |s| + 1
  {
  }

  lemma TailIsEmptyAtEnd(s: string, pos: nat)
    requires pos <= |s| + 1
    ensures pos < |s| <==> TokensFrom(s, pos) != [] && TokensFrom(s, pos) != [""]
  {
    if pos <= |s| {
      var end := NextDot(s, pos);
      var rest := TokensFrom(s, end + 1);
      assert TokensFrom(s, pos) == [s[pos..end]] + rest;
      assert TokensFrom(s, pos)[0] == s[pos..end];
      if end == pos && pos < |s| {
        assert |rest| > 0;
      } else if pos == |s| {
        assert rest == [] && s[pos..end] == "";
      }
    }
  }

  lemma JoinCons(t: string, rest: seq<string>)
    ensures Join([t] + rest) == if rest == [] then t else t + "." + Join(rest)
  {
    assert ([t] + rest)[1..] == rest;
  }

  lemma SplitAtDot(s: string, pos: nat, end: nat)
    requires pos <= end < |s| && s[end] == '.'
    ensures s[pos..] == s[pos..end] + "." + s[end + 1..]
  {
  }

  lemma {:induction false} JoinFrom(s: string, pos: nat)
    requires pos <= |s|
    ensures Join(TokensFrom(s, pos)) == s[pos..]
    decreases |s| - pos
  {
    hide TokensFrom, Join;
    var end := NextDot(s, pos);
    var rest := TokensFrom(s, end + 1);
    FirstToken(s, pos);
    JoinCons(s[pos..end], rest);
    if end < |s| {
      JoinFrom(s, end + 1);
      SplitAtDot(s, pos, end);
    }
  }

  lemma FirstToken(s: string, pos: nat)
    requires pos <= |s|
    ensures TokensFrom(s, pos) == [s[pos..NextDot(s, pos)]] + TokensFrom(s, NextDot(s, pos) + 1)
    ensures TokensFrom(s, |s| + 1) == []
    ensures NextDot(s, pos) < |s| ==> TokensFrom(s, NextDot(s, pos) + 1) != []
  {
  }

  /** Joining the tokens of a subject gives the subject back. */
  lemma JoinUndoesSplit(s: string)
    ensures Join(Tokens(s)) == s
  {
    if s != "" {
      JoinFrom(s, 0);
    }
  }

  lemma {:induction false} TokensAreDotFree(s: string, pos: nat)
    requires pos <= |s| + 1
    ensures forall t :: t in TokensFrom(s, pos) ==> DotFree(t)
    decreases |s| + 1 - pos
  {
    if pos <= |s| {
      TokensAreDotFree(s, NextDot(s, pos) + 1);
    }
  }

  lemma {:induction false} LiteralTokensMatchThemselvesOnly(f: seq<string>, s: seq<string>)
    requires forall t :: t in f ==> t != "" && t != "*" && t != ">"
    ensures MatchTokens(f, s) <==> f == s
  {
    if f != [] && s != [] {
      assert forall t :: t in f[1..] ==> t in f;
      assert f[0] in f;
      LiteralTokensMatchThemselvesOnly(f[1..], s[1..]);
      assert f == [f[0]] + f[1..] && s == [s[0]] + s[1..];
    }
  }

  /** A literal filter selects exactly the subject it spells. */
  lemma LiteralMatchesOnlyItself(filter: string, subject: string)
    requires Literal(filter)
    ensures Matches(filter, subject) <==> filter == subject
  {
    LiteralTokensMatchThemselvesOnly(Tokens(filter), Tokens(subject));
    JoinUndoesSplit(filter);
    JoinUndoesSplit(subject);
  }

  lemma {:induction false} NextDotShift(p: string, r: string, k: nat)
    requires k <= |r|
    ensures NextDot(p + r, |p| + k) == |p| + NextDot(r, k)
    decreases |r| - k
  {
    if k < |r| && r[k] != '.' {
      NextDotShift(p, r, k + 1);
    }
  }

  lemma {:induction false} TokensShift(p: string, r: string, k: nat)
    requires k <= |r| + 1
    ensures TokensFrom(p + r, |p| + k) == TokensFrom(r, k)
    decreases |r| + 1 - k
  {
    hide TokensFrom, NextDot;
    var s := p + r;
    if k <= |r| {
      NextDotShift(p, r, k);
      var end := NextDot(r, k);
      TokensShift(p, r, end + 1);
      FirstToken(s, |p| + k);
      FirstToken(r, k);
      assert s[|p| + k..|p| + end] == r[k..end];
    } else {
      FirstToken(s, |s|);
      FirstToken(r, |r|);
    }
  }

  lemma {:induction false} NextDotAfter(t: string, r: string, k: nat)
    requires k <= |t| && DotFree(t) && (r != "" ==> r[0] == '.')
    ensures NextDot(t + r, k) == |t|
    decreases |t| - k
  {
    if k < |t| {
      NextDotAfter(t, r, k + 1);
    }
  }

  lemma {:induction false} JoinedFrom(ts: seq<string>)
    requires ts != [] && forall t :: t in ts ==> DotFree(t)
    ensures TokensFrom(Join(ts), 0) == ts
  {
    var t, rest := ts[0], ts[1..];
    assert ts == [t] + rest;
    if rest == [] {
      assert t + "" == t;
      NextDotAfter(t, "", 0);
      assert TokensFrom(t, |t| + 1) == [];
    } else {
      JoinedFrom(rest);
      var r := Join(rest);
      NextDotAfter(t, "." + r, 0);
      assert t + ("." + r) == (t + ".") + r == Join(ts);
      TokensShift(t + ".", r, 0);
      assert Join(ts)[0..|t|] == t;
    }
  }

  /** Splitting undoes joining for every dot-free token list that is not the empty subject. */
  lemma SplitUndoesJoin(ts: seq<string>)
    requires ts != [] && ts != [""] && forall t :: t in ts ==> DotFree(t)
    ensures Tokens(Join(ts)) == ts
  {
    JoinedFrom(ts);
    assert TokensFrom("", 0) == [""] + TokensFrom("", 1);
  }

  /** A subject that `filter` treats differently from the subject `filter` itself. */
  lemma {:induction false} WildcardWitness(f: seq<string>) returns (s: seq<string>)
    requires f != [] && MatchTokens(f, f)
    requires exists t :: t in f && (t == "" || t == "*" || t == ">")
    requires forall t :: t in f ==> DotFree(t)
    ensures MatchTokens(f, s) && s != f && s != [] && s[0] != ""
    ensures forall t :: t in s ==> DotFree(t)
  {
    if f[0] == ">" || f[0] == "*" {
      s := ["x"] + f[1..];
      assert s[1..] == f[1..];
    } else {
      assert f == [f[0]] + f[1..];
      var rest := WildcardWitness(f[1..]);
      s := [f[0]] + rest;
      assert s[1..] == rest;
    }
  }

  /** Being literal is also necessary: any other filter confuses some subject with its own text. */
  lemma LiteralIsExact(filter: string)
    requires filter != ""
    ensures Literal(filter) <==> forall subject :: Matches(filter, subject) <==> filter == subject
  {
    if Literal(filter) {
      forall subject ensures Matches(filter, subject) <==> filter == subject {
        LiteralMatchesOnlyItself(filter, subject);
      }
    } else if Matches(filter, filter) {
      TokensAreDotFree(filter, 0);
      JoinUndoesSplit(filter);
      var s := WildcardWitness(Tokens(filter));
      SplitUndoesJoin(s);
      var subject := Join(s);
      assert Tokens(subject) == s;
      assert Matches(filter, subject) && filter != subject;
    }
  }

  /** A subject without dots is its own only token, and matches itself. */
  lemma OneToken(t: string)
    requires t != "" && DotFree(t)
    ensures Tokens(t) == [t] && Matches(t, t)
  {
    FirstToken(t, 0);
    assert NextDot(t, 0) == |t| && t[0..|t|] == t;
    assert MatchTokens([t], [t]);
  }
}
