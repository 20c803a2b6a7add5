/** ORDER BY created_at, id as a function of a set of stamps. */
module Ranking {
  import opened Text

  /** The sort key of a row: its id and its created_at text. */
  datatype Stamp = Stamp(id: nat, at: string)

  predicate Later(a: Stamp, b: Stamp)
  {
    Precedes(b.at, a.at) || (a.at == b.at && a.id > b.id)
  }

  lemma LaterIsStrictOrder(a: Stamp, b: Stamp, c: Stamp)
    ensures !Later(a, a)
    ensures Later(a, b) || a == b || Later(b, a)
    ensures Later(a, b) && Later(b, c) ==> Later(a, c)
    ensures !(Later(a, b) && Later(b, a))
  {
    PrecedesIrreflexive(a.at);
    PrecedesIrreflexive(b.at);
    PrecedesTotal(a.at, b.at);
    if Precedes(b.at, a.at) && Precedes(c.at, b.at) {
      PrecedesTransitive(c.at, b.at, a.at);
    }
    if Precedes(b.at, a.at) && Precedes(a.at, b.at) {
      PrecedesTransitive(a.at, b.at, a.at);
    }
  }

  predicate IsLatest(m: Stamp, s: set<Stamp>)
  {
    m in s && forall x :: x in s ==> x == m || Later(m, x)
  }

  lemma {:induction false} LatestExists(s: set<Stamp>) returns (m: Stamp)
    requires s != {}
    ensures IsLatest(m, s)
  {
    var x :| x in s;
    if s == {x} {
      m := x;
    } else {
      var rest := s - {x};
      var n := LatestExists(rest);
      LaterIsStrictOrder(n, x, x);
      m := if Later(n, x) then n else x;
      forall y | y in s
        ensures y == m || Later(m, y)
      {
        if y != x {
          LaterIsStrictOrder(m, n, y);
        }
      }
    }
  }

  lemma LatestUnique(m: Stamp, n: Stamp, s: set<Stamp>)
    requires IsLatest(m, s) && IsLatest(n, s)
    ensures m == n
  {
    LaterIsStrictOrder(m, n, n);
  }

  lemma OneLatest(s: set<Stamp>)
    requires s != {}
    ensures exists m :: m in s && IsLatest(m, s)
    ensures forall m, n :: IsLatest(m, s) && IsLatest(n, s) ==> m == n
  {
    var m := LatestExists(s);
    forall m, n | IsLatest(m, s) && IsLatest(n, s)
      ensures m == n
    {
      LatestUnique(m, n, s);
    }
  }

  function Latest(s: set<Stamp>): (m: Stamp)
    requires s != {}
    ensures IsLatest(m, s)
  {
    OneLatest(s);
    var m :| m in s && IsLatest(m, s);
    m
  }

  /** Newest first: ORDER BY created_at DESC, id DESC. */
  function Newest(s: set<Stamp>): (r: seq<Stamp>)
    ensures |r| == |s| && forall x :: x in s <==> x in r
  {
    if s == {} then [] else
    var m := Latest(s);
    assert s == {m} + (s - {m});
    [m] + Newest(s - {m})
  }

  function Reverse<T>(s: seq<T>): (r: seq<T>)
    ensures |r| == |s| && forall i :: 0 <= i < |s| ==> r[i] == s[|s| - 1 - i]
  {
    if s == [] then [] else Reverse(s[1..]) + [s[0]]
  }

  /** Oldest first: ORDER BY created_at ASC, id ASC. */
  function Oldest(s: set<Stamp>): seq<Stamp> { Reverse(Newest(s)) }

  /** The listing is strictly descending, so it is the one such listing of the set. */
  lemma {:induction false} NewestDescends(s: set<Stamp>, i: nat, j: nat)
    requires i < j < |Newest(s)|
    ensures Later(Newest(s)[i], Newest(s)[j])
  {
    var m := Latest(s);
    var rest := Newest(s - {m});
    assert Newest(s) == [m] + rest;
    if i == 0 {
      assert rest[j - 1] in rest;
    } else {
      NewestDescends(s - {m}, i - 1, j - 1);
    }
  }

  /** Rows beyond LIMIT come after all rows within it. */
  function Limit(r: seq<Stamp>, limit: int): seq<Stamp>
  {
    if limit < 0 || limit > |r| then r else r[..limit]
  }

  function SetOf(r: seq<Stamp>): set<Stamp> { set x | x in r }

  lemma NewestUnfolds(s: set<Stamp>, n: nat)
    requires 0 < n <= |s|
    ensures var m := Latest(s);
            && Newest(s)[..n] == [m] + Newest(s - {m})[..n - 1] && |s - {m}| == |s| - 1
            && SetOf(Newest(s)[..n]) == {m} + SetOf(Newest(s - {m})[..n - 1])
  {
    hide Latest, Later;
    var m := Latest(s);
    assert Newest(s) == [m] + Newest(s - {m});
  }

  lemma NewestOfAdded(m: Stamp, t: set<Stamp>)
    requires m !in t && IsLatest(m, {m} + t)
    ensures Newest({m} + t) == [m] + Newest(t)
  {
    hide Later;
    LatestUnique(m, Latest({m} + t), {m} + t);
    assert {m} + t - {m} == t;
  }

  /** The first n rows of a listing are themselves listed in the same order. */
  lemma {:induction false} NewestOfPrefix(s: set<Stamp>, n: nat)
    requires n <= |s|
    ensures var kept := SetOf(Newest(s)[..n]);
            |kept| == n && kept <= s && Newest(kept) == Newest(s)[..n]
  {
    if n == 0 {
      assert SetOf(Newest(s)[..0]) == {};
    } else {
      hide Newest, Later;
      var m := Latest(s);
      NewestUnfolds(s, n);
      NewestOfPrefix(s - {m}, n - 1);
      var t := SetOf(Newest(s - {m})[..n - 1]);
      NewestOfAdded(m, t);
    }
  }
}
