/** evaluateAll: under the write lock take overdue checks down one by one, then, unlocked, send their alerts. */
module Scheduler {
  import opened TimeCodec
  import opened Model
  import opened CheckRows
  import opened Transitions
  import opened WriteThrough
  import opened Tables
  import opened Database
  import opened Records
  import opened StateCache
  import opened AlertQueue

  /** The pass restricted to some of the checks. */
  function TickOver(s: Stores, ids: set<string>, now: Instant, faults: set<string>): Stores
  {
    Stores(
      map id | id in s.cache ::
        if id in ids && Expires(s, id, now, faults) then MarkDown(s.cache[id], now) else s.cache[id],
      map id | id in s.rows ::
        if id in ids && Expires(s, id, now, faults) then Updated(s.rows[id], MarkDown(s.cache[id], now)) else s.rows[id])
  }

  lemma TickOverAll(s: Stores, now: Instant, faults: set<string>)
    ensures TickOver(s, s.cache.Keys, now, faults) == Tick(s, now, faults)
    ensures TickOver(s, {}, now, faults) == s
  {
    hide Updated;
  }

  /** What one turn of the locked loop does, given its copy of the record. */
  function Turn(s: Stores, c: Check, now: Instant, fault: bool): (Stores, bool)
  {
    if !Overdue(c, now) then (s, false) else
    var (t, out) := WriteThrough.Set(s, MarkDown(c, now), fault);
    (t, out == Done)
  }

  lemma TurnExtendsCache(s: Stores, ids: set<string>, id: string, now: Instant, faults: set<string>)
    requires id in s.cache && id !in ids && s.cache[id].id == id
    ensures Turn(TickOver(s, ids, now, faults), s.cache[id], now, id in faults).0.cache ==
            TickOver(s, ids + {id}, now, faults).cache
    ensures Turn(TickOver(s, ids, now, faults), s.cache[id], now, id in faults).1 == Expires(s, id, now, faults)
  {
    hide RowOf, Updated, Overdue;
  }

  lemma TurnExtendsRows(s: Stores, ids: set<string>, id: string, now: Instant, faults: set<string>)
    requires id in s.cache && id !in ids && s.cache[id].id == id
    ensures Turn(TickOver(s, ids, now, faults), s.cache[id], now, id in faults).0.rows ==
            TickOver(s, ids + {id}, now, faults).rows
  {
    hide RowOf, Updated, Overdue;
  }

  /** Each turn extends the pass by its own check, whatever the order. */
  lemma TurnExtends(s: Stores, ids: set<string>, id: string, now: Instant, faults: set<string>)
    requires id in s.cache && id !in ids && s.cache[id].id == id
    ensures Turn(TickOver(s, ids, now, faults), s.cache[id], now, id in faults) ==
            (TickOver(s, ids + {id}, now, faults), Expires(s, id, now, faults))
  {
    TurnExtendsCache(s, ids, id, now, faults);
    TurnExtendsRows(s, ids, id, now, faults);
    hide TickOver, Turn, Expires;
  }

  /** The records taken down, in the order of the loop. */
  function TakenDown(s: Stores, order: seq<string>, now: Instant, faults: set<string>): seq<Check>
  {
    if order == [] then [] else
    var id := order[|order| - 1];
    TakenDown(s, order[..|order| - 1], now, faults) +
    if Expires(s, id, now, faults) then [MarkDown(s.cache[id], now)] else []
  }

  /** The collected list holds exactly the expired checks, once each. */
  lemma {:induction false} TakenDownExact(s: Stores, order: seq<string>, now: Instant, faults: set<string>)
    requires forall i, j :: 0 <= i < j < |order| ==> order[i] != order[j]
    requires forall id :: id in s.cache ==> s.cache[id].id == id
    ensures var taken := TakenDown(s, order, now, faults);
            && (forall c :: c in taken <==> c.id in order && Expires(s, c.id, now, faults) && c == MarkDown(s.cache[c.id], now))
            && (forall i, j :: 0 <= i < j < |taken| ==> taken[i].id != taken[j].id)
  {
    if order != [] {
      var most, id := order[..|order| - 1], order[|order| - 1];
      TakenDownExact(s, most, now, faults);
      assert order == most + [id];
      hide Expires;
      var taken := TakenDown(s, most, now, faults);
      forall i | 0 <= i < |taken|
        ensures taken[i].id != id
      {
        assert taken[i] in taken;
      }
    }
  }

  /** When all updates succeed, a second pass at the same time finds nothing; after failures it finds only those that failed. */
  lemma SecondPassFindsOnlyFailures(s: Stores, now: Instant, faults: set<string>, later: set<string>)
    requires Coherent(s)
    ensures Expired(Tick(s, now, faults), now, later) <= faults
    ensures faults == {} ==> Expired(Tick(s, now, faults), now, later) == {}
  {
    hide RowOf, Updated;
  }

  /** All alerts of one pass; a check whose channels cannot be listed gets none. */
  function PassAlerts(db: Db, taken: seq<Check>, unlisted: set<string>): seq<AlertEvent>
  {
    if taken == [] then [] else
    var c := taken[|taken| - 1];
    PassAlerts(db, taken[..|taken| - 1], unlisted) + if c.id in unlisted then [] else EventsFor(db, c, AlertDown)
  }

  /** What a pass sends about one check: when it is up and past its deadline, its update succeeds and its channels can be
      listed, one down alert per channel, in listing order, about the record as it now is; otherwise nothing. */
  ghost predicate NewsOf(s: Stores, db: Db, id: string, now: Instant, faults: set<string>, unlisted: set<string>, events: seq<AlertEvent>)
  {
    if && id in s.cache && id in s.rows && id !in faults && id !in unlisted
       && s.cache[id].status == Up
       && s.cache[id].nextExpectedAt.Some? && now > s.cache[id].nextExpectedAt.value
    then
      && |events| == |ListChannels(db, id)|
      && forall b :: 0 <= b < |events| ==>
           events[b] == AlertEvent(s.cache[id].(status := Down, updatedAt := now), ListChannels(db, id)[b], AlertDown)
    else events == []
  }

  /** The news of a pass: a part for each check in the order of the loop, the part of check a from at[a] to at[a + 1]. */
  ghost predicate PassNews(
    s: Stores, db: Db, order: seq<string>, now: Instant, faults: set<string>, unlisted: set<string>, news: seq<AlertEvent>, at: seq<nat>
  )
  {
    && |at| == |order| + 1 && at[0] == 0 && at[|order|] == |news|
    && (forall a :: 0 <= a < |at| ==> at[a] <= |news|)
    && (forall a, b :: 0 <= a < b == a + 1 < |at| ==> at[a] <= at[b])
    && (forall a, b :: 0 <= a < b == a + 1 < |at| ==> NewsOf(s, db, order[a], now, faults, unlisted, news[at[a]..at[b]]))
  }

  lemma LastNews(s: Stores, db: Db, id: string, now: Instant, faults: set<string>, unlisted: set<string>)
    requires id in s.cache ==> s.cache[id].id == id
    ensures NewsOf(s, db, id, now, faults, unlisted,
              if Expires(s, id, now, faults) && id !in unlisted then EventsFor(db, MarkDown(s.cache[id], now), AlertDown) else [])
  {
    hide ListChannels;
  }

  lemma PassAlertsMore(s: Stores, db: Db, order: seq<string>, now: Instant, faults: set<string>, unlisted: set<string>)
    requires order != [] && forall id :: id in s.cache ==> s.cache[id].id == id
    ensures var (most, id) := (order[..|order| - 1], order[|order| - 1]);
            PassAlerts(db, TakenDown(s, order, now, faults), unlisted) ==
            PassAlerts(db, TakenDown(s, most, now, faults), unlisted) +
            if Expires(s, id, now, faults) && id !in unlisted then EventsFor(db, MarkDown(s.cache[id], now), AlertDown) else []
  {
    var most, id := order[..|order| - 1], order[|order| - 1];
    var taken := TakenDown(s, most, now, faults);
    hide EventsFor, Overdue;
    if Expires(s, id, now, faults) {
      assert (taken + [MarkDown(s.cache[id], now)])[..|taken|] == taken;
    } else {
      assert taken + [] == taken;
    }
  }

  lemma {:induction false} PassIsNews(s: Stores, db: Db, order: seq<string>, now: Instant, faults: set<string>, unlisted: set<string>)
    returns (at: seq<nat>)
    requires forall id :: id in s.cache ==> s.cache[id].id == id
    ensures PassNews(s, db, order, now, faults, unlisted, PassAlerts(db, TakenDown(s, order, now, faults), unlisted), at)
  {
    if order == [] {
      at := [0];
    } else {
      var n, id := |order| - 1, order[|order| - 1];
      var before := PassIsNews(s, db, order[..n], now, faults, unlisted);
      var news := PassAlerts(db, TakenDown(s, order, now, faults), unlisted);
      at := before + [|news|];  // where the part of the last check ends
      PassAlertsMore(s, db, order, now, faults, unlisted);
      LastNews(s, db, id, now, faults, unlisted);
      hide *;
      NewsMore(s, db, order, now, faults, unlisted, PassAlerts(db, TakenDown(s, order[..n], now, faults), unlisted), before,
        if Expires(s, id, now, faults) && id !in unlisted then EventsFor(db, MarkDown(s.cache[id], now), AlertDown) else []);
    }
  }

  lemma NewsMore(
    s: Stores, db: Db, order: seq<string>, now: Instant, faults: set<string>, unlisted: set<string>,
    news: seq<AlertEvent>, at: seq<nat>, more: seq<AlertEvent>
  )
    requires order != [] && PassNews(s, db, order[..|order| - 1], now, faults, unlisted, news, at)
    requires NewsOf(s, db, order[|order| - 1], now, faults, unlisted, more)
    ensures PassNews(s, db, order, now, faults, unlisted, news + more, at + [|news| + |more|])
  {
    var n := |order| - 1;
    var all, ends := news + more, at + [|news| + |more|];
    hide NewsOf;
    forall a, b | 0 <= a < b == a + 1 < |ends|
      ensures ends[a] <= ends[b] <= |all| && NewsOf(s, db, order[a], now, faults, unlisted, all[ends[a]..ends[b]])
    {
      if a < n {
        assert ends[a] == at[a] && ends[b] == at[b] && order[..n][a] == order[a];
        assert all[ends[a]..ends[b]] == news[at[a]..at[b]];
      } else {
        assert all[ends[a]..ends[b]] == more;
      }
    }
  }

  /** One turn of the locked loop on its private copy. */
  method TakeDownOne(cache: StateCache, c: Record, now: Instant, fault: bool, ghost aliens: set<object?>) returns (done: bool)
    requires cache.Valid() && c in aliens && aliens !! cache.Repr
    modifies c`status, c`updatedAt, cache`checks, cache`Repr, cache.repo`checks
    ensures cache.Valid() && aliens !! cache.Repr
    ensures (cache.Abs(), done) == Turn(old(cache.Abs()), old(c.View()), now, fault)
    ensures done ==> c.View() == MarkDown(old(c.View()), now)
  {
    if c.status != Up {
      return false;
    }
    if c.nextExpectedAt == null {
      return false;
    }
    if !(now > c.nextExpectedAt.value) {
      return false;
    }
    assert Overdue(c.View(), now);
    hide *;
    done := MarkAndSet(cache, c, now, fault, aliens);
  }

  /** The rest of the turn: mark the copy, and write it through. */
  method MarkAndSet(cache: StateCache, c: Record, now: Instant, fault: bool, ghost aliens: set<object?>) returns (done: bool)
    requires cache.Valid() && c in aliens && aliens !! cache.Repr && Overdue(c.View(), now)
    modifies c`status, c`updatedAt, cache`checks, cache`Repr, cache.repo`checks
    ensures cache.Valid() && aliens !! cache.Repr
    ensures (cache.Abs(), done) == Turn(old(cache.Abs()), old(c.View()), now, fault)
    ensures c.View() == MarkDown(old(c.View()), now)
  {
    c.status := Down;
    c.updatedAt := now;
    assert c.View() == MarkDown(old(c.View()), now);
    hide Record.View, RowOf, Updated, StateCache.Map, StateCache.Valid;
    assert cache.Valid() && cache.Map() == old(cache.Map());
    var out := cache.SetLocked(c, fault);
    done := out == Done;
  }

  /** A turn changes only its own copy among those waiting; what it takes down is collected.
      Objects the cache does not own stay so. */
  method VisitOne(cache: StateCache, list: seq<Record>, ghost views: seq<Check>, ghost owned: set<object?>, ghost aliens: set<object?>, i: nat,
                  now: Instant, faults: set<string>, transitioned: seq<Check>)
    returns (more: seq<Check>)
    requires cache.Valid() && aliens !! cache.Repr
    requires i < |list| && list[i] in aliens && Waiting(list, views, owned, i)
    modifies list[i], cache`checks, cache`Repr, cache.repo`checks
    ensures cache.Valid() && aliens !! cache.Repr && Waiting(list, views, owned, i + 1)
    ensures var (t, done) := Turn(old(cache.Abs()), views[i], now, views[i].id in faults);
            cache.Abs() == t && more == transitioned + if done then [MarkDown(views[i], now)] else []
  {
    WaitingAt(list, views, owned, i);
    assert forall j :: i < j < |list| ==> list[j] != list[i];
    hide Record.View, Record.Footprint, StateCache.Map, StateCache.Valid, StateCache.Abs, Turn, MarkDown;
    var done := TakeDownOne(cache, list[i], now, list[i].id in faults, aliens);
    assert forall j :: i < j < |list| ==> list[j].View() == views[j] && list[j].Footprint() <= owned;
    hide *;
    assert Waiting(list, views, owned, i + 1) by {
      StillWaiting(list, views, owned, i);
    }
    more := if done then transitioned + [list[i].View()] else transitioned;
  }

  lemma StillWaiting(list: seq<Record>, views: seq<Check>, owned: set<object?>, i: nat)
    requires |list| == |views| && i < |list|
    requires forall j :: i < j < |list| ==> list[j] in owned && list[j].Footprint() <= owned && list[j].View() == views[j]
    requires forall j, k :: i < j < k < |list| ==> list[j] != list[k]
    ensures Waiting(list, views, owned, i + 1)
  {
    hide Record.View, Record.Footprint;
  }

  lemma WaitingAt(list: seq<Record>, views: seq<Check>, owned: set<object?>, i: nat)
    requires Waiting(list, views, owned, i) && i < |list|
    ensures |views| == |list| && list[i] in owned && list[i].View() == views[i] && list[i].id == views[i].id
  {
  }

  /** After visiting the first i keys, the pass has run over exactly those. */
  ghost predicate Passed(s: Stores, order: seq<string>, i: nat, now: Instant, faults: set<string>, t: Stores, taken: seq<Check>)
    requires i <= |order|
  {
    t == TickOver(s, SetOfIds(order[..i]), now, faults) && taken == TakenDown(s, order[..i], now, faults)
  }

  lemma PassedOneMore(s: Stores, order: seq<string>, i: nat, now: Instant, faults: set<string>, t: Stores, taken: seq<Check>, u: Stores, done: bool)
    requires i < |order| && Orders(order, s.cache.Keys) && s.cache[order[i]].id == order[i]
    requires Passed(s, order, i, now, faults, t, taken)
    requires (u, done) == Turn(t, s.cache[order[i]], now, order[i] in faults)
    ensures Passed(s, order, i + 1, now, faults, u, taken + if done then [MarkDown(s.cache[order[i]], now)] else [])
  {
    hide TickOver, Turn, Expires;
    assert order[..i + 1] == order[..i] + [order[i]];
    assert order[i] !in order[..i];
    assert SetOfIds(order[..i + 1]) == SetOfIds(order[..i]) + {order[i]};
    TurnExtends(s, SetOfIds(order[..i]), order[i], now, faults);
  }

  lemma PassedNone(s: Stores, order: seq<string>, now: Instant, faults: set<string>)
    ensures Passed(s, order, 0, now, faults, s, [])
  {
    assert order[..0] == [] && SetOfIds(order[..0]) == {};
    TickOverAll(s, now, faults);
  }

  lemma PassedAll(s: Stores, order: seq<string>, now: Instant, faults: set<string>, t: Stores, taken: seq<Check>)
    requires Orders(order, s.cache.Keys) && Passed(s, order, |order|, now, faults, t, taken)
    ensures t == Tick(s, now, faults) && taken == TakenDown(s, order, now, faults)
  {
    assert order[..|order|] == order && SetOfIds(order) == s.cache.Keys;
    TickOverAll(s, now, faults);
  }

  lemma EnumeratedAt(views: seq<Check>, m: map<string, Check>, order: seq<string>, i: nat)
    requires Enumerates(views, m, order) && i < |views|
    ensures |views| == |order| && order[i] in m && views[i] == m[order[i]]
  {
  }

  /** The locked loop, over the copies in hand. */
  method VisitAll(cache: StateCache, list: seq<Record>, ghost views: seq<Check>, ghost owned: set<object?>, ghost aliens: set<object?>,
                  ghost order: seq<string>, now: Instant, faults: set<string>)
    returns (transitioned: seq<Check>)
    requires cache.Valid() && aliens !! cache.Repr && owned <= aliens && Waiting(list, views, owned, 0)
    requires Enumerates(views, cache.Map(), order) && forall id :: id in cache.Map() ==> cache.Map()[id].id == id
    modifies owned, cache`checks, cache`Repr, cache.repo`checks
    ensures cache.Valid() && aliens !! cache.Repr
    ensures Passed(old(cache.Abs()), order, |order|, now, faults, cache.Abs(), transitioned)
  {
    ghost var was := cache.Abs();
    transitioned := [];
    PassedNone(was, order, now, faults);
    assert |list| == |order| == |views| && Orders(order, was.cache.Keys);
    hide Record.View, Record.Footprint, StateCache.Map, StateCache.Valid, TickOver, Waiting, Passed, Enumerates, Orders;
    for i := 0 to |list|
      invariant cache.Valid() && aliens !! cache.Repr && Waiting(list, views, owned, i)
      invariant Passed(was, order, i, now, faults, cache.Abs(), transitioned)
    {
      ghost var t, taken := cache.Abs(), transitioned;
      EnumeratedAt(views, was.cache, order, i);
      hide Turn;
      WaitingAt(list, views, owned, i);
      transitioned := VisitOne(cache, list, views, owned, aliens, i, now, faults, transitioned);
      PassedOneMore(was, order, i, now, faults, t, taken, cache.Abs(), Turn(t, views[i], now, views[i].id in faults).1);
    }
  }

  lemma SeparateWaits(list: seq<Record>, views: seq<Check>, owned: set<object?>)
    requires Separate(list, views, owned)
    ensures Waiting(list, views, owned, 0)
  {
    assert forall c :: c in list ==> c in c.Footprint();
  }

  /** WithWriteLock: the copies, and the loop over them. */
  method VisitCopies(cache: StateCache, now: Instant, faults: set<string>, ghost aliens: set<object?>)
    returns (transitioned: seq<Check>, ghost order: seq<string>)
    requires cache.Valid() && aliens !! cache.Repr && forall id :: id in cache.Map() ==> cache.Map()[id].id == id
    modifies cache`checks, cache`Repr, cache.repo`checks
    ensures cache.Valid() && aliens !! cache.Repr && Orders(order, old(cache.Map()).Keys)
    ensures Passed(old(cache.Abs()), order, |order|, now, faults, cache.Abs(), transitioned)
  {
    ghost var map0 := cache.Map();
    hide *;
    var list;
    ghost var views, owned;
    list, views, order, owned := cache.Copies();
    SeparateWaits(list, views, owned);
    EnumeratesOrders(views, map0, order);
    transitioned := VisitAll(cache, list, views, owned, aliens + owned, order, now, faults);
  }

  /** Phase 1, under the write lock: the copies are visited in any order, and those that expire are collected. */
  method TakeDownOverdue(cache: StateCache, now: Instant, faults: set<string>, ghost aliens: set<object?>)
    returns (transitioned: seq<Check>, ghost order: seq<string>)
    requires cache.Valid() && aliens !! cache.Repr
    modifies cache`checks, cache`Repr, cache.repo`checks
    ensures cache.Valid() && aliens !! cache.Repr
    ensures Orders(order, old(cache.Map()).Keys)
    ensures cache.Abs() == Tick(old(cache.Abs()), now, faults)
    ensures transitioned == TakenDown(old(cache.Abs()), order, now, faults)
  {
    ghost var was := cache.Abs();
    assert was.cache == cache.Map() && forall id :: id in was.cache ==> was.cache[id].id == id;
    hide *;
    transitioned, order := VisitCopies(cache, now, faults, aliens);
    PassedAll(was, order, now, faults, cache.Abs(), transitioned);
  }

  lemma EnumeratesOrders(views: seq<Check>, m: map<string, Check>, order: seq<string>)
    requires Enumerates(views, m, order)
    ensures Orders(order, m.Keys)
  {
  }

  /** Phase 2, lock released: one Down alert per channel of every check taken down. */
  method SendPassAlerts(repo: Database, queue: AlertQueue, transitioned: seq<Check>, unlisted: set<string>)
    modifies queue
    ensures queue.buf == Offered(old(queue.buf), PassAlerts(repo.Abs(), transitioned, unlisted))
  {
    ghost var db := repo.Abs();
    for i := 0 to |transitioned|
      invariant queue.buf == Offered(old(queue.buf), PassAlerts(db, transitioned[..i], unlisted))
    {
      hide Offered, ListChannels, Events;
      var check := transitioned[i];
      assert transitioned[..i + 1][..i] == transitioned[..i];
      OfferedTwice(old(queue.buf), PassAlerts(db, transitioned[..i], unlisted), EventsFor(db, check, AlertDown));
      var channels := repo.ListAttached(check.id, check.id in unlisted);
      if channels.None? {
        assert PassAlerts(db, transitioned[..i], unlisted) + [] == PassAlerts(db, transitioned[..i], unlisted);
        continue;
      }
      queue.OfferAll(check, channels.value, AlertDown);
    }
    assert transitioned[..|transitioned|] == transitioned;
  }

  lemma NewsOfPass(s: Stores, db: Db, order: seq<string>, now: Instant, faults: set<string>, unlisted: set<string>, buf: seq<AlertEvent>)
    returns (news: seq<AlertEvent>, at: seq<nat>)
    requires forall id :: id in s.cache ==> s.cache[id].id == id
    ensures news == PassAlerts(db, TakenDown(s, order, now, faults), unlisted)
    ensures PassNews(s, db, order, now, faults, unlisted, news, at) && Fits(buf, news, Offered(buf, news))
  {
    hide *;
    news := PassAlerts(db, TakenDown(s, order, now, faults), unlisted);
    at := PassIsNews(s, db, order, now, faults, unlisted);
    OfferedFits(buf, news);
  }

  lemma KeyedById(cache: StateCache)
    requires cache.Valid()
    ensures forall id :: id in cache.Abs().cache ==> cache.Abs().cache[id].id == id
  {
    assert cache.Abs().cache == cache.Map();
  }

  /** evaluateAll as a whole: the pointwise pass, then the alerts of exactly the checks it took down. */
  method EvaluateAll(cache: StateCache, queue: AlertQueue, now: Instant, faults: set<string>, unlisted: set<string>, ghost aliens: set<object?>)
    returns (ghost order: seq<string>, ghost news: seq<AlertEvent>, ghost at: seq<nat>)
    requires cache.Valid() && aliens !! cache.Repr && queue in aliens
    modifies cache`checks, cache`Repr, cache.repo`checks, queue
    ensures cache.Valid() && aliens !! cache.Repr
    ensures Orders(order, old(cache.Map()).Keys)
    ensures cache.Abs() == Tick(old(cache.Abs()), now, faults)
    ensures news == PassAlerts(cache.repo.Abs(), TakenDown(old(cache.Abs()), order, now, faults), unlisted)
    ensures PassNews(old(cache.Abs()), cache.repo.Abs(), order, now, faults, unlisted, news, at)
    ensures queue.buf == Offered(old(queue.buf), news) && Fits(old(queue.buf), news, queue.buf)
  {
    hide *;
    ghost var was := cache.Abs();
    KeyedById(cache);
    var transitioned;
    transitioned, order := TakeDownOverdue(cache, now, faults, aliens);
    news, at := NewsOfPass(was, cache.repo.Abs(), order, now, faults, unlisted, queue.buf);
    SendPassAlerts(cache.repo, queue, transitioned, unlisted);
  }

  function SetOfIds(order: seq<string>): set<string> { set id | id in order }

  /** The copies not yet visited still hold what was read, and no two of them are the same record. */
  ghost predicate Waiting(list: seq<Record>, views: seq<Check>, owned: set<object?>, i: nat)
    reads list, owned
  {
    && |list| == |views| && i <= |list|
    && (forall j :: i <= j < |list| ==> list[j] in owned && list[j].Footprint() <= owned && list[j].View() == views[j])
    && (forall j, k :: i <= j < k < |list| ==> list[j] != list[k])
  }
}
