/** Who can reach what: callers hold records, queued events hold struct copies that share the callers' cells, and
    the cache shares nothing with either. Whole runs of caller actions on the heap replay exactly on values. */
module Ownership {
  import opened Text
  import opened TimeCodec
  import opened Model
  import opened WriteThrough
  import opened Records
  import opened StateCache

  /** What the four pointer fields are to point at; None is nil. */
  datatype Pointers = Pointers(
    slug: Option<string>,
    prePauseStatus: Option<Status>,
    lastPingAt: Option<Instant>,
    nextExpectedAt: Option<Instant>)

  datatype Action =
    | Get(id: string)                 // StateCache.Get
    | Snapshot                        // Snapshot, or the records WithWriteLock hands to its callback
    | Build(c: Check)                 // a record of the caller's own, as in HandleCreate
    | Assign(i: nat, to: Check)       // c.Status = …, and any other plain field
    | Repoint(i: nat, p: Pointers)    // c.LastPingAt = &now, and the other pointer fields
    | Poke(i: nat, p: Pointers)       // *c.LastPingAt = now: through the pointers the record holds
    | Commit(i: nat, fault: bool)     // Set, or the callback's set
    | Insert(i: nat, fault: bool)     // StateCache.Create
    | Delete(id: string, fault: bool)
    | Send(i: nat)                    // AlertEvent{Check: *c}: a struct copy, pointers shared

  /** Values only: the stores, the records callers hold, the events sent, and which held records were sent. */
  datatype Shadow = Shadow(st: Stores, held: seq<Check>, events: seq<Check>, sent: set<nat>)

  function WithPlain(c: Check, to: Check): Check
  {
    to.(slug := c.slug, prePauseStatus := c.prePauseStatus, lastPingAt := c.lastPingAt, nextExpectedAt := c.nextExpectedAt)
  }

  function WithPointers(c: Check, p: Pointers): Check
  {
    c.(slug := p.slug, prePauseStatus := p.prePauseStatus, lastPingAt := p.lastPingAt, nextExpectedAt := p.nextExpectedAt)
  }

  function Overwritten<T>(was: Option<T>, to: Option<T>): Option<T>
  {
    if was.Some? && to.Some? then to else was
  }

  function Poked(c: Check, p: Pointers): Check
  {
    c.(slug := Overwritten(c.slug, p.slug), prePauseStatus := Overwritten(c.prePauseStatus, p.prePauseStatus),
       lastPingAt := Overwritten(c.lastPingAt, p.lastPingAt), nextExpectedAt := Overwritten(c.nextExpectedAt, p.nextExpectedAt))
  }

  /** The held record an action writes, and what it becomes. Nothing writes through the pointers of a sent record. */
  function Rewritten(s: Shadow, a: Action): (r: Option<(nat, Check)>)
    ensures r.Some? ==> r.value.0 < |s.held|
  {
    match a
    case Assign(i, to) => if i < |s.held| then Some((i, WithPlain(s.held[i], to))) else None
    case Repoint(i, p) => if i < |s.held| then Some((i, WithPointers(s.held[i], p))) else None
    case Poke(i, p) => if i < |s.held| && i !in s.sent then Some((i, Poked(s.held[i], p))) else None
    case _ => None
  }

  /** What an action does to the stores. */
  function Stored(s: Shadow, a: Action): Stores
  {
    match a
    case Commit(i, fault) => if i < |s.held| then WriteThrough.Set(s.st, s.held[i], fault).0 else s.st
    case Insert(i, fault) => if i < |s.held| then WriteThrough.Create(s.st, s.held[i], fault).0 else s.st
    case Delete(id, fault) => WriteThrough.Delete(s.st, id, fault).0
    case _ => s.st
  }

  /** The records an action hands out. */
  ghost predicate HandsOut(s: Shadow, a: Action, list: seq<Check>)
  {
    match a
    case Get(id) => list == if id in s.st.cache then [s.st.cache[id]] else []
    case Snapshot => exists order :: Enumerates(list, s.st.cache, order)
    case Build(c) => list == [c]
    case _ => list == []
  }

  function Posted(s: Shadow, a: Action): Shadow
  {
    if a.Send? && a.i < |s.held| then s.(events := s.events + [s.held[a.i]], sent := s.sent + {a.i}) else s
  }

  function Edited(s: Shadow, a: Action): seq<Check>
  {
    match Rewritten(s, a)
    case Some((i, c)) => s.held[i := c]
    case None => s.held
  }

  /** One action on values, handing out the given records: here no component can influence another. */
  function After(s: Shadow, a: Action, list: seq<Check>): Shadow
  {
    Shadow(Stored(s, a), Edited(s, a) + list, Posted(s, a).events, Posted(s, a).sent)
  }

  /** The actions that hand nothing out, each in one component. */
  lemma AfterQuiet(s: Shadow, a: Action)
    ensures Rewritten(s, a).Some? ==> After(s, a, []) == s.(held := s.held[Rewritten(s, a).value.0 := Rewritten(s, a).value.1])
    ensures a.Commit? || a.Insert? || a.Delete? ==> After(s, a, []) == s.(st := Stored(s, a))
    ensures a.Send? && a.i < |s.held| ==> After(s, a, []) == s.(events := s.events + [s.held[a.i]], sent := s.sent + {a.i})
    ensures (a.Assign? || a.Repoint? || a.Poke?) && Rewritten(s, a).None? ==> After(s, a, []) == s
    ensures a.Send? && a.i >= |s.held| ==> After(s, a, []) == s
    ensures a.Get? && a.id !in s.st.cache ==> After(s, a, []) == s
  {
    assert Edited(s, a) + [] == Edited(s, a);
  }

  ghost predicate Step(s: Shadow, a: Action, t: Shadow)
  {
    exists list :: HandsOut(s, a, list) && t == After(s, a, list)
  }

  /** A run on values: one shadow before each action, and one at the end. */
  ghost predicate Replays(trace: seq<Shadow>, actions: seq<Action>)
  {
    && |trace| == |actions| + 1
    && forall k :: 0 <= k < |actions| ==> Step(trace[k], actions[k], trace[k + 1])
  }

  lemma ReplaysMore(s: Shadow, a: Action, trace: seq<Shadow>, actions: seq<Action>)
    requires Replays(trace, actions) && Step(s, a, trace[0])
    ensures Replays([s] + trace, [a] + actions)
  {
    var longer, all := [s] + trace, [a] + actions;
    forall k | 0 <= k < |all|
      ensures Step(longer[k], all[k], longer[k + 1])
    {
      if k > 0 {
        assert Step(trace[k - 1], actions[k - 1], trace[k]);
      }
    }
  }

  /** What was sent stays as it was sent, whatever callers and the cache do later. */
  lemma {:induction false} EventsFrozen(trace: seq<Shadow>, actions: seq<Action>, i: nat, j: nat)
    requires Replays(trace, actions) && i <= j < |trace|
    ensures trace[i].events <= trace[j].events
    decreases j - i
  {
    if i < j {
      assert Step(trace[i], actions[i], trace[i + 1]);
      EventsFrozen(trace, actions, i + 1, j);
    }
  }

  /** Only Set, Create and Delete move the cache or the table: no write to a record in a caller's hands does. */
  lemma {:induction false} CallersCannotReachCache(trace: seq<Shadow>, actions: seq<Action>, i: nat, j: nat)
    requires Replays(trace, actions) && i <= j < |trace|
    requires forall k :: i <= k < j ==> !actions[k].Commit? && !actions[k].Insert? && !actions[k].Delete?
    ensures trace[j].st == trace[i].st
    decreases j - i
  {
    if i < j {
      assert Step(trace[i], actions[i], trace[i + 1]);
      CallersCannotReachCache(trace, actions, i + 1, j);
    }
  }

  /** A record in a caller's hands changes only by writes to that very record. */
  lemma {:induction false} HeldUntilWritten(trace: seq<Shadow>, actions: seq<Action>, i: nat, j: nat, r: nat)
    requires Replays(trace, actions) && i <= j < |trace| && r < |trace[i].held|
    requires forall k :: i <= k < j && (actions[k].Assign? || actions[k].Repoint? || actions[k].Poke?) ==> actions[k].i != r
    ensures r < |trace[j].held| && trace[j].held[r] == trace[i].held[r]
    decreases j - i
  {
    if i < j {
      assert Step(trace[i], actions[i], trace[i + 1]);
      HeldUntilWritten(trace, actions, i + 1, j, r);
    }
  }

  // The same on the heap.

  /** Events: struct copies within `posted`, and the values they denote. */
  ghost predicate Frozen(events: seq<Record>, views: seq<Check>, posted: set<object?>)
    reads events, posted
  {
    && |events| == |views|
    && forall e :: 0 <= e < |events| ==> events[e] in posted && events[e].Footprint() <= posted && events[e].View() == views[e]
  }

  /** No event is a held record, and only records that were sent share cells with events. */
  ghost predicate Unposted(held: seq<Record>, sent: set<nat>, posted: set<object?>)
    reads held
  {
    forall i :: 0 <= i < |held| ==> held[i] !in posted && (i !in sent ==> held[i].Footprint() !! posted)
  }

  method SetPlain(c: Record, to: Check)
    modifies c
    ensures c.View() == WithPlain(old(c.View()), to) && c.Footprint() == old(c.Footprint()) && c.Unshared() == old(c.Unshared())
  {
    c.id, c.name, c.schedule, c.grace, c.status := to.id, to.name, to.schedule, to.grace, to.status;
    c.createdAt, c.updatedAt, c.tags, c.notifyOnFail := to.createdAt, to.updatedAt, to.tags, to.notifyOnFail;
  }

  method SetPointers(c: Record, p: Pointers)
    modifies c
    ensures c.View() == WithPointers(old(c.View()), p) && fresh(c.Footprint() - {c}) && c.Unshared()
  {
    var slug := NewCell(p.slug);
    var prePauseStatus := NewCell(p.prePauseStatus);
    var lastPingAt := NewCell(p.lastPingAt);
    var nextExpectedAt := NewCell(p.nextExpectedAt);
    c.slug, c.prePauseStatus, c.lastPingAt, c.nextExpectedAt := slug, prePauseStatus, lastPingAt, nextExpectedAt;
  }

  method WriteCell<T>(c: Cell?<T>, v: Option<T>)
    modifies c
    ensures Read(c) == Overwritten(old(Read(c)), v)
  {
    if c != null && v.Some? {
      c.value := v.value;
    }
  }

  method WriteThroughPointers(c: Record, p: Pointers)
    requires c.Unshared()
    modifies c.Footprint() - {c}
    ensures c.View() == Poked(old(c.View()), p) && c.Footprint() == old(c.Footprint()) && c.Unshared()
  {
    WriteCell(c.slug, p.slug);
    WriteCell(c.prePauseStatus, p.prePauseStatus);
    WriteCell(c.lastPingAt, p.lastPingAt);
    WriteCell(c.nextExpectedAt, p.nextExpectedAt);
  }

  /** A plain-field assignment through one held record leaves the others, and every event, as they are. */
  method AssignAt(held: seq<Record>, ghost views: seq<Check>, ghost mine: set<object?>, ghost sent: set<nat>,
                  ghost events: seq<Record>, ghost frozen: seq<Check>, ghost posted: set<object?>, i: nat, to: Check)
    requires Separate(held, views, mine) && Frozen(events, frozen, posted) && Unposted(held, sent, posted) && i < |held|
    modifies held[i]
    ensures Separate(held, views[i := WithPlain(views[i], to)], mine)
    ensures Frozen(events, frozen, posted) && Unposted(held, sent, posted)
  {
    assert forall j :: 0 <= j < |held| ==> held[j] in held[j].Footprint();
    SetPlain(held[i], to);
  }

  /** The same for new pointers. */
  method RepointAt(held: seq<Record>, ghost views: seq<Check>, ghost mine: set<object?>, ghost sent: set<nat>,
                   ghost events: seq<Record>, ghost frozen: seq<Check>, ghost posted: set<object?>, i: nat, p: Pointers)
    returns (ghost more: set<object?>)
    requires Separate(held, views, mine) && Frozen(events, frozen, posted) && Unposted(held, sent, posted) && i < |held|
    modifies held[i]
    ensures Separate(held, views[i := WithPointers(views[i], p)], more) && more >= mine && fresh(more - mine)
    ensures Frozen(events, frozen, posted) && Unposted(held, sent, posted)
  {
    assert forall j :: 0 <= j < |held| ==> held[j] in held[j].Footprint();
    SetPointers(held[i], p);
    more := mine + held[i].Footprint();
  }

  /** The same for a write through the pointers, unless the record was sent. */
  method PokeAt(held: seq<Record>, ghost views: seq<Check>, ghost mine: set<object?>, ghost sent: set<nat>,
                ghost events: seq<Record>, ghost frozen: seq<Check>, ghost posted: set<object?>, i: nat, p: Pointers)
    requires Separate(held, views, mine) && Frozen(events, frozen, posted) && Unposted(held, sent, posted) && i < |held|
    requires i !in sent
    modifies held[i].Footprint()
    ensures Separate(held, views[i := Poked(views[i], p)], mine)
    ensures Frozen(events, frozen, posted) && Unposted(held, sent, posted)
  {
    assert forall j :: 0 <= j < |held| ==> held[j] in held[j].Footprint();
    WriteThroughPointers(held[i], p);
  }

  /** The struct copy that goes into an event. */
  method Post(held: seq<Record>, ghost views: seq<Check>, ghost mine: set<object?>, ghost sent: set<nat>,
              events: seq<Record>, ghost frozen: seq<Check>, ghost posted: set<object?>, i: nat)
    returns (all: seq<Record>, ghost reach: set<object?>)
    requires Separate(held, views, mine) && Frozen(events, frozen, posted) && Unposted(held, sent, posted) && i < |held|
    ensures Frozen(all, frozen + [views[i]], reach) && Unposted(held, sent + {i}, reach)
    ensures forall o :: o in reach ==> o in posted || o in mine || fresh(o)
    ensures forall e :: e in all ==> e in reach
  {
    var c := held[i];
    var copy := new Record.Like(c, c.slug, c.prePauseStatus, c.lastPingAt, c.nextExpectedAt);
    all, reach := events + [copy], posted + copy.Footprint();
  }

  lemma Together(a: seq<Record>, b: seq<Record>, av: seq<Check>, bv: seq<Check>, ao: set<object?>, bo: set<object?>)
    requires Separate(a, av, ao) && Separate(b, bv, bo) && ao !! bo
    ensures Separate(a + b, av + bv, ao + bo)
  {
    hide Record.View, Record.Footprint, Record.Unshared;
    forall i, j | 0 <= i < j < |a + b|
      ensures (a + b)[i].Footprint() !! (a + b)[j].Footprint()
    {
      if i < |a| <= j {
        assert a[i].Footprint() <= ao && b[j - |a|].Footprint() <= bo;
      }
    }
  }

  lemma StillUnposted(held: seq<Record>, list: seq<Record>, views: seq<Check>, owned: set<object?>, sent: set<nat>, posted: set<object?>)
    requires Unposted(held, sent, posted) && Separate(list, views, owned) && owned !! posted
    ensures Unposted(held + list, sent, posted)
  {
    hide Record.View, Record.Footprint, Record.Unshared;
  }

  /** The cache, the records its callers hold, and the events in the alert queue or beyond. */
  class World {
    const cache: StateCache
    var held: seq<Record>
    var events: seq<Record>
    var sent: set<nat>
    /** Every object callers have held; every object reachable from an event. */
    ghost var mine: set<object?>
    ghost var posted: set<object?>
    /** What all of it denotes. */
    ghost var shadow: Shadow

    /** The heap is exactly what the shadow says, and the cache owns nothing that callers or events can reach. */
    ghost predicate Valid()
      reads this, mine, posted, held, events, cache, cache.Repr, cache.repo`checks
    {
      && cache.Valid() && cache.Abs() == shadow.st
      && Apart() && Callers() && Posts()
    }

    ghost predicate Apart()
      reads this, cache`Repr
    {
      && cache.Repr !! mine && cache.Repr !! posted && this !in cache.Repr
      && forall o: object :: o in {this, cache, cache.repo} ==> o !in mine && o !in posted
    }

    ghost predicate Callers()
      reads this, mine, held
    {
      Separate(held, shadow.held, mine) && Unposted(held, sent, posted) && sent == shadow.sent
    }

    ghost predicate Posts()
      reads this, posted, events
    {
      Frozen(events, shadow.events, posted)
    }

    constructor (cache: StateCache)
      requires cache.Valid()
      ensures Valid() && this.cache == cache && mine == posted == {}
      ensures shadow == Shadow(cache.Abs(), [], [], {})
    {
      this.cache := cache;
      held, events, sent, mine, posted := [], [], {}, {}, {};
      shadow := Shadow(cache.Abs(), [], [], {});
    }

    /** Takes in records that no one else reaches. */
    method Adopt(list: seq<Record>, ghost views: seq<Check>, ghost owned: set<object?>)
      requires Valid() && Separate(list, views, owned)
      requires owned !! mine && owned !! posted && owned !! cache.Repr && owned !! {this, cache, cache.repo}
      modifies this`held, this`mine, this`shadow
      ensures Valid() && mine == old(mine) + owned
      ensures shadow == old(shadow).(held := old(shadow).held + views)
    {
      Together(held, list, shadow.held, views, mine, owned);
      StillUnposted(held, list, views, owned, shadow.sent, posted);
      hide Record.View, Record.Footprint, Record.Unshared, StateCache.Valid, StateCache.Abs, Separate, Unposted, Frozen;
      held, mine, shadow := held + list, mine + owned, shadow.(held := shadow.held + views);
    }

    /** Puts a rewritten value in the place of a held record's. */
    ghost method Note(i: nat, c: Check, more: set<object?>)
      requires i < |shadow.held| && cache.Valid() && cache.Abs() == shadow.st && Apart() && Posts()
      requires Separate(held, shadow.held[i := c], more) && Unposted(held, sent, posted) && sent == shadow.sent
      requires cache.Repr !! more && this !in more && cache !in more && cache.repo !in more
      modifies this`shadow, this`mine
      ensures Valid() && shadow == old(shadow).(held := old(shadow).held[i := c]) && mine == more
    {
      hide Record.View, Record.Footprint, Record.Unshared, StateCache.Map, StateCache.Valid, StateCache.Abs, Frozen, Unposted, Separate;
      shadow := shadow.(held := shadow.held[i := c]);
      mine := more;
    }

    method Reassign(i: nat, to: Check)
      requires Valid() && i < |held|
      modifies this`mine, this`shadow, mine
      ensures Valid() && mine == old(mine) && i < |old(shadow).held|
      ensures shadow == old(shadow).(held := old(shadow).held[i := WithPlain(old(shadow).held[i], to)])
    {
      assert |held| == |shadow.held| && held[i] in mine;
      hide Record.View, Record.Footprint, Record.Unshared, StateCache.Map, StateCache.Valid, StateCache.Abs, Frozen, Unposted, Separate;
      AssignAt(held, shadow.held, mine, sent, events, shadow.events, posted, i, to);
      Note(i, WithPlain(shadow.held[i], to), mine);
    }

    method Redirect(i: nat, p: Pointers)
      requires Valid() && i < |held|
      modifies this`mine, this`shadow, mine
      ensures Valid() && mine >= old(mine) && fresh(mine - old(mine)) && i < |old(shadow).held|
      ensures shadow == old(shadow).(held := old(shadow).held[i := WithPointers(old(shadow).held[i], p)])
    {
      assert |held| == |shadow.held| && held[i] in mine;
      hide Record.View, Record.Footprint, Record.Unshared, StateCache.Map, StateCache.Valid, StateCache.Abs, Frozen, Unposted, Separate;
      ghost var more := RepointAt(held, shadow.held, mine, sent, events, shadow.events, posted, i, p);
      Note(i, WithPointers(shadow.held[i], p), more);
    }

    method Overwrite(i: nat, p: Pointers)
      requires Valid() && i < |held| && i !in sent
      modifies this`mine, this`shadow, mine
      ensures Valid() && mine == old(mine) && i < |old(shadow).held|
      ensures shadow == old(shadow).(held := old(shadow).held[i := Poked(old(shadow).held[i], p)])
    {
      assert |held| == |shadow.held| && held[i].Footprint() <= mine;
      hide Record.View, Record.Footprint, Record.Unshared, StateCache.Map, StateCache.Valid, StateCache.Abs, Frozen, Unposted, Separate;
      PokeAt(held, shadow.held, mine, sent, events, shadow.events, posted, i, p);
      Note(i, Poked(shadow.held[i], p), mine);
    }

    /** Assignments by a caller: only objects callers can reach change. */
    method Rewrite(a: Action)
      requires Valid() && (a.Assign? || a.Repoint? || a.Poke?)
      modifies this`mine, this`shadow, mine
      ensures Valid() && mine >= old(mine) && fresh(mine - old(mine)) && shadow == After(old(shadow), a, [])
    {
      AfterQuiet(shadow, a);
      assert |held| == |shadow.held| && sent == shadow.sent;
      hide World.Valid, After;
      if a.i >= |held| || (a.Poke? && a.i in sent) {
        return;
      }
      if a.Assign? {
        Reassign(a.i, a.to);
      } else if a.Repoint? {
        Redirect(a.i, a.p);
      } else {
        Overwrite(a.i, a.p);
      }
    }

    /** Get. */
    method Fetch(id: string) returns (ghost list: seq<Check>)
      requires Valid()
      modifies this`held, this`mine, this`shadow
      ensures Valid() && mine >= old(mine) && fresh(mine - old(mine))
      ensures HandsOut(old(shadow), Get(id), list) && shadow == After(old(shadow), Get(id), list)
    {
      list := [];
      var c := cache.Get(id);
      AfterQuiet(shadow, Get(id));
      assert c != null ==> c in c.Footprint();
      assert shadow.st.cache == cache.Map();
      hide Record.View, Record.Footprint, Record.Unshared, StateCache.Map, Frozen, Unposted;
      if c != null {
        list := [shadow.st.cache[id]];
        assert Separate([c], list, c.Footprint());
        Adopt([c], list, c.Footprint());
      }
    }

    /** Snapshot. */
    method CopyAll() returns (ghost list: seq<Check>)
      requires Valid()
      modifies this`held, this`mine, this`shadow
      ensures Valid() && mine >= old(mine) && fresh(mine - old(mine))
      ensures HandsOut(old(shadow), Action.Snapshot, list) && shadow == After(old(shadow), Action.Snapshot, list)
    {
      assert shadow.st.cache == cache.Map();
      hide Record.View, Record.Footprint, Record.Unshared, StateCache.Map, Frozen, Unposted, Separate, Enumerates;
      var records, views, order, owned := cache.Copies();
      list := views;
      Adopt(records, views, owned);
    }

    method Make(c: Check) returns (ghost list: seq<Check>)
      requires Valid()
      modifies this`held, this`mine, this`shadow
      ensures Valid() && mine >= old(mine) && fresh(mine - old(mine))
      ensures list == [c] && shadow == After(old(shadow), Build(c), list)
    {
      list := [c];
      var r := new Record.Of(c);
      assert r in r.Footprint();
      hide Record.View, Record.Footprint, Record.Unshared, StateCache.Map, Frozen, Unposted;
      assert Separate([r], list, r.Footprint());
      Adopt([r], list, r.Footprint());
    }

    /** The stores after a cache operation. */
    ghost method Restock()
      requires cache.Valid() && Callers() && Posts()
      requires cache.Repr !! mine && cache.Repr !! posted && this !in cache.Repr
      requires forall o: object :: o in {this, cache, cache.repo} ==> o !in mine && o !in posted
      modifies this`shadow
      ensures Valid() && shadow == old(shadow).(st := cache.Abs())
    {
      hide StateCache.Map, StateCache.Valid, StateCache.Abs, Frozen, Unposted, Separate;
      shadow := shadow.(st := cache.Abs());
    }

    /** Set through the cache: only objects the cache owns change. */
    method Save(i: nat, fault: bool)
      requires Valid() && i < |held|
      modifies this`shadow, cache`checks, cache`Repr, cache.repo`checks
      ensures Valid() && i < |old(shadow).held|
      ensures shadow == old(shadow).(st := WriteThrough.Set(old(shadow).st, old(shadow).held[i], fault).0)
    {
      assert |held| == |shadow.held| && held[i].View() == shadow.held[i] && held[i] in mine;
      assert Callers() && Posts() && Apart();
      assert forall o :: o in held ==> o in mine;
      assert forall o :: o in events ==> o in posted;
      hide *;
      var _ := cache.Set(held[i], fault);
      assert Callers();
      assert Posts();
      assert cache.Repr !! mine && cache.Repr !! posted;
      Restock();
    }

    /** The same for Create. */
    method Add(i: nat, fault: bool)
      requires Valid() && i < |held|
      modifies this`shadow, cache`checks, cache`Repr, cache.repo`checks
      ensures Valid() && i < |old(shadow).held|
      ensures shadow == old(shadow).(st := WriteThrough.Create(old(shadow).st, old(shadow).held[i], fault).0)
    {
      assert |held| == |shadow.held| && held[i].View() == shadow.held[i] && shadow.st == cache.Abs();
      hide *;
      AddToCache(i, fault);
      Restock();
    }

    method AddToCache(i: nat, fault: bool)
      requires Valid() && i < |held|
      modifies cache`checks, cache`Repr, cache.repo`checks
      ensures cache.Valid() && Callers() && Posts()
      ensures cache.Repr !! mine && cache.Repr !! posted && this !in cache.Repr
      ensures forall o: object :: o in {this, cache, cache.repo} ==> o !in mine && o !in posted
      ensures cache.Abs() == WriteThrough.Create(old(cache.Abs()), old(held[i].View()), fault).0
    {
      assert held[i] in mine && Callers() && Posts() && Apart();
      assert forall o :: o in held ==> o in mine;
      assert forall o :: o in events ==> o in posted;
      assert this !in cache.Repr;
      assert forall o: object :: o in {this, cache, cache.repo} ==> o !in mine && o !in posted;
      hide *;
      var _ := cache.Create(held[i], fault);
    }

    /** The same for Delete. */
    method Drop(id: string, fault: bool)
      requires Valid()
      modifies this`shadow, cache`checks, cache.repo`checks, cache.repo`pings, cache.repo`links, cache.repo`notes
      ensures Valid() && shadow == old(shadow).(st := WriteThrough.Delete(old(shadow).st, id, fault).0)
    {
      assert Callers() && Posts() && Apart();
      assert forall o :: o in held ==> o in mine;
      assert forall o :: o in events ==> o in posted;
      hide *;
      var _ := cache.Delete(id, fault);
      assert Callers();
      assert Posts();
      assert cache.Repr !! mine && cache.Repr !! posted;
      Restock();
    }

    /** Takes over the events after a send. */
    method Publish(i: nat, all: seq<Record>, ghost reach: set<object?>)
      requires Valid() && i < |shadow.held|
      requires Frozen(all, shadow.events + [shadow.held[i]], reach) && Unposted(held, shadow.sent + {i}, reach)
      requires cache.Repr !! reach && this !in reach && cache !in reach && cache.repo !in reach
      modifies this`events, this`sent, this`posted, this`shadow
      ensures Valid() && i < |old(shadow).held|
      ensures shadow == old(shadow).(events := old(shadow).events + [old(shadow).held[i]], sent := old(shadow).sent + {i})
    {
      hide Record.View, Record.Footprint, Record.Unshared, StateCache.Map, StateCache.Valid, StateCache.Abs, Frozen, Unposted, Separate;
      events, posted, sent := all, reach, sent + {i};
      shadow := shadow.(events := shadow.events + [shadow.held[i]], sent := sent);
    }

    /** AlertEvent{Check: *c}. */
    method Send(i: nat)
      requires Valid() && i < |held|
      modifies this`events, this`sent, this`posted, this`shadow
      ensures Valid() && i < |old(shadow).held|
      ensures shadow == old(shadow).(events := old(shadow).events + [old(shadow).held[i]], sent := old(shadow).sent + {i})
    {
      assert |held| == |shadow.held| && sent == shadow.sent;
      hide Record.View, Record.Footprint, Record.Unshared, StateCache.Map, StateCache.Valid, StateCache.Abs, Frozen, Unposted, Separate;
      var all, reach := Post(held, shadow.held, mine, sent, events, shadow.events, posted, i);
      Publish(i, all, reach);
    }

    /** One action. */
    method Do(a: Action) returns (ghost list: seq<Check>)
      requires Valid()
      modifies this, mine, cache`checks, cache`Repr, cache.repo`checks, cache.repo`pings, cache.repo`links, cache.repo`notes
      ensures Valid() && mine >= old(mine) && fresh(mine - old(mine))
      ensures HandsOut(old(shadow), a, list) && shadow == After(old(shadow), a, list)
    {
      list := [];
      AfterQuiet(shadow, a);
      assert |held| == |shadow.held|;
      hide World.Valid, After;
      if a.Get? {
        list := Fetch(a.id);
      } else if a.Snapshot? {
        list := CopyAll();
      } else if a.Build? {
        list := Make(a.c);
      } else if a.Delete? {
        Drop(a.id, a.fault);
      } else if a.Assign? || a.Repoint? || a.Poke? {
        Rewrite(a);
      } else if a.i >= |held| {
      } else if a.Commit? {
        Save(a.i, a.fault);
      } else if a.Insert? {
        Add(a.i, a.fault);
      } else {
        Send(a.i);
      }
    }

    /** Any sequence of actions on the heap replays on values. */
    method Run(actions: seq<Action>) returns (ghost trace: seq<Shadow>)
      requires Valid()
      modifies this, mine, cache`checks, cache`Repr, cache.repo`checks, cache.repo`pings, cache.repo`links, cache.repo`notes
      ensures Valid() && Replays(trace, actions) && trace[0] == old(shadow) && trace[|actions|] == shadow
    {
      trace := [shadow];
      if actions == [] {
        return;
      }
      ghost var s := shadow;
      hide World.Valid, After, HandsOut;
      ghost var list := Do(actions[0]);
      assert Step(s, actions[0], shadow);
      ghost var rest := Run(actions[1..]);
      ReplaysMore(s, actions[0], rest, actions[1..]);
      assert [actions[0]] + actions[1..] == actions;
      trace := [s] + rest;
    }
  }
}
