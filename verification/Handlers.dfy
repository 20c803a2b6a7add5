/** The request handlers on the heap: each edits its private copy in place and commits it through the cache.
    Each method is one request running alone; Protocol models how requests interleave. */
module Handlers {
  import opened Text
  import opened TimeCodec
  import opened Schedule
  import opened Model
  import opened CheckRows
  import opened Transitions
  import opened WriteThrough
  import opened Tables
  import opened Database
  import opened Records
  import opened StateCache
  import opened AlertQueue
  import Protocol

  /** A request in one step: the stores after it, and whether its Set went through. */
  function Serve(cal: Calendar, s: Stores, req: Request, fault: bool): (Stores, bool)
  {
    if req.id !in s.cache then (s, false) else
    match Respond(cal, s.cache[req.id], req)
    case None => (s, false)
    case Some(d) => var (t, out) := WriteThrough.Set(s, d, fault); (t, out == Done)
  }

  lemma RespondKeepsId(cal: Calendar, c: Check, req: Request)
    requires Respond(cal, c, req).Some?
    ensures Respond(cal, c, req).value.id == c.id
  {
    hide ParseCheckForm, NextExpectedAt;
  }

  /** Serve is the Atomic step of the protocol: the same stores, and the alerts of the request are called for exactly if
      its Set went through. */
  lemma ServeIsAtomicStep(cal: Calendar, s: Protocol.State, req: Request, fault: bool)
    requires req.id in s.st.cache ==> s.st.cache[req.id].id == req.id
    ensures var t, (st, done) := Protocol.Step(cal, s, Protocol.Atomic(req, fault)), Serve(cal, s.st, req, fault);
            && t.st == st && t.used == s.used
            && t.calls == if done then Protocol.Call(s.calls, req.id, AlertsFor(s.st.cache[req.id], req)) else s.calls
  {
    hide Respond, Updated, AlertsFor, Protocol.MarkStale, Protocol.Call;
    if req.id in s.st.cache && Respond(cal, s.st.cache[req.id], req).Some? {
      RespondKeepsId(cal, s.st.cache[req.id], req);
    }
  }

  /** Served exactly when the check is cached and stored, the request is answered and the statement goes through; then the
      entry and the row are those of the answer, and otherwise nothing changes. */
  lemma ServeExactly(cal: Calendar, s: Stores, req: Request, fault: bool)
    requires req.id in s.cache ==> s.cache[req.id].id == req.id
    ensures var (t, ok) := Serve(cal, s, req, fault);
            && (ok <==> req.id in s.cache && Respond(cal, s.cache[req.id], req).Some? && !fault && req.id in s.rows)
            && (!ok ==> t == s)
            && (ok ==> var d := Respond(cal, s.cache[req.id], req).value;
                       && t.cache == s.cache[req.id := d]
                       && t.rows == s.rows[req.id := RowOf(d).(id := s.rows[req.id].id, createdAt := s.rows[req.id].createdAt)])
  {
    hide RowOf, Respond;
    if req.id in s.cache && Respond(cal, s.cache[req.id], req).Some? {
      RespondKeepsId(cal, s.cache[req.id], req);
    }
  }

  /** One alert of a check on all its channels, or none. */
  function Burst(db: Db, c: Check, alert: AlertType, sent: bool): seq<AlertEvent>
  {
    if sent then EventsFor(db, c, alert) else []
  }

  /** The alerts of one request: those it asks for and whose channels could be listed, in order. */
  function RequestAlerts(db: Db, base: Check, copy: Check, req: Request, unlistedUp: bool, unlistedFail: bool): seq<AlertEvent>
  {
    Burst(db, copy, AlertUp, AlertUp in AlertsFor(base, req) && !unlistedUp) +
    Burst(db, copy, AlertFail, AlertFail in AlertsFor(base, req) && !unlistedFail)
  }

  /** Which of a ping's store accesses fail: the Set, the two channel listings, the ping row. */
  datatype PingFaults = PingFaults(commit: bool, unlistedUp: bool, unlistedFail: bool, record: bool)

  /** The queue after a ping whose Set went through, given the record it found. */
  function AfterAlerts(db: Db, buf: seq<AlertEvent>, base: Check, copy: Check, req: Request, faults: PingFaults): seq<AlertEvent>
  {
    Offered(buf, RequestAlerts(db, base, copy, req, faults.unlistedUp, faults.unlistedFail))
  }

  /** The queue after a ping: unchanged unless its Set went through. */
  function PingAlerts(cal: Calendar, s: Stores, db: Db, buf: seq<AlertEvent>, req: Request, faults: PingFaults): seq<AlertEvent>
  {
    if !Serve(cal, s, req, faults.commit).1 then buf
    else AfterAlerts(db, buf, s.cache[req.id], Respond(cal, s.cache[req.id], req).value, req, faults)
  }

  /** What a completed ping sends about the committed copy: one up alert per channel exactly if the record it found was
      down, then one fail alert per channel exactly if the ping is a fail and that record asks for them; each kind only
      if its look-up of the channels succeeded. */
  ghost predicate PingNews(base: Check, copy: Check, kind: PingType, channels: seq<Channel>, faults: PingFaults, news: seq<AlertEvent>)
  {
    var ups := if base.status == Down && !faults.unlistedUp then |channels| else 0;
    var fails := if kind == Fail && base.notifyOnFail && !faults.unlistedFail then |channels| else 0;
    && |news| == ups + fails
    && (forall k :: 0 <= k < ups ==> news[k] == AlertEvent(copy, channels[k], AlertUp))
    && (forall k :: ups <= k < |news| ==> news[k] == AlertEvent(copy, channels[k - ups], AlertFail))
  }

  lemma AlertsAreNews(db: Db, buf: seq<AlertEvent>, base: Check, copy: Check, req: Request, faults: PingFaults) returns (news: seq<AlertEvent>)
    requires req.Ping? && req.kind != Start
    ensures PingNews(base, copy, req.kind, ListChannels(db, copy.id), faults, news)
    ensures AfterAlerts(db, buf, base, copy, req, faults) == Offered(buf, news)
    ensures Fits(buf, news, AfterAlerts(db, buf, base, copy, req, faults))
  {
    news := RequestAlerts(db, base, copy, req, faults.unlistedUp, faults.unlistedFail);
    BurstsAreNews(db, base, copy, req, faults);
    assert AfterAlerts(db, buf, base, copy, req, faults) == Offered(buf, news);
    hide *;
    OfferedFits(buf, news);
  }

  lemma BurstIs(db: Db, c: Check, alert: AlertType, sent: bool)
    ensures var (r, channels) := (Burst(db, c, alert, sent), ListChannels(db, c.id));
            |r| == (if sent then |channels| else 0) && forall k :: 0 <= k < |r| ==> r[k] == AlertEvent(c, channels[k], alert)
  {
    hide ListChannels;
  }

  lemma BurstsAreNews(db: Db, base: Check, copy: Check, req: Request, faults: PingFaults)
    requires req.Ping? && req.kind != Start
    ensures PingNews(base, copy, req.kind, ListChannels(db, copy.id), faults,
              RequestAlerts(db, base, copy, req, faults.unlistedUp, faults.unlistedFail))
  {
    WhichAlerts(base, req);
    var up := Burst(db, copy, AlertUp, AlertUp in AlertsFor(base, req) && !faults.unlistedUp);
    var fail := Burst(db, copy, AlertFail, AlertFail in AlertsFor(base, req) && !faults.unlistedFail);
    var news := RequestAlerts(db, base, copy, req, faults.unlistedUp, faults.unlistedFail);
    assert news == up + fail;
    hide *;
    BurstIs(db, copy, AlertUp, AlertUp in AlertsFor(base, req) && !faults.unlistedUp);
    BurstIs(db, copy, AlertFail, AlertFail in AlertsFor(base, req) && !faults.unlistedFail);
    JoinedNews(base, copy, req.kind, ListChannels(db, copy.id), faults, up, fail);
  }

  lemma JoinedNews(
    base: Check, copy: Check, kind: PingType, channels: seq<Channel>, faults: PingFaults, up: seq<AlertEvent>, fail: seq<AlertEvent>
  )
    requires |up| == if base.status == Down && !faults.unlistedUp then |channels| else 0
    requires |fail| == if kind == Fail && base.notifyOnFail && !faults.unlistedFail then |channels| else 0
    requires forall k :: 0 <= k < |up| ==> up[k] == AlertEvent(copy, channels[k], AlertUp)
    requires forall k :: 0 <= k < |fail| ==> fail[k] == AlertEvent(copy, channels[k], AlertFail)
    ensures PingNews(base, copy, kind, channels, faults, up + fail)
  {
  }

  /** The listing reads only the links and the channels. */
  lemma ListingIgnoresChecks(cache: StateCache, db: Db, check: string)
    ensures ListChannels(RowsOnly(cache, db), check) == ListChannels(db, check)
  {
    var a, b := RowsOnly(cache, db), db;
    assert Attached(a, check) == Attached(b, check);
    assert ChannelStamps(a, check) == ChannelStamps(b, check);
    hide Ranking.Oldest;
  }

  /** enqueueAlerts, where it is called for. */
  method EnqueueAlerts(repo: Database, queue: AlertQueue, check: Record, alert: AlertType, wanted: bool, unlisted: bool)
    modifies queue
    ensures queue.buf == Offered(old(queue.buf), Burst(old(repo.Abs()), old(check.View()), alert, wanted && !unlisted))
  {
    OfferedNone(queue.buf);
    hide Offered;
    if !wanted {
      return;
    }
    var channels := repo.ListAttached(check.id, unlisted);
    if channels.None? {
      return;
    }
    assert check.View().id == check.id;
    queue.OfferAll(check.View(), channels.value, alert);
  }

  lemma OfferedNone(buf: seq<AlertEvent>)
    ensures Offered(buf, []) == buf
  {
  }

  /** The field assignments of handleStart. */
  method Extend(check: Record, now: Instant)
    modifies check
    ensures check.View() == AfterStart(old(check.View()), now)
  {
    var next := new Cell<Instant>(now + check.grace * MINUTE);
    check.nextExpectedAt := next;
    check.updatedAt := now;
  }

  /** The field assignments of handleComplete. */
  method Complete(cal: Calendar, check: Record, now: Instant)
    modifies check
    ensures check.View() == AfterComplete(cal, old(check.View()), now)
  {
    if check.status == New || check.status == Down {
      check.status := Up;
    }
    var t := new Cell<Instant>(now);
    check.lastPingAt := t;
    if Validate(cal, check.schedule) {
      var next := new Cell<Instant>(cal.next(check.schedule, now) + check.grace * MINUTE);
      check.nextExpectedAt := next;
    }
    check.updatedAt := now;
  }

  lemma WhichAlerts(base: Check, req: Request)
    requires req.Ping? && req.kind != Start
    ensures AlertUp in AlertsFor(base, req) <==> base.status == Down
    ensures AlertFail in AlertsFor(base, req) <==> req.kind == Fail && base.notifyOnFail
  {
  }

  /** The alerts that follow a completion. */
  method SendAlerts(repo: Database, queue: AlertQueue, check: Record, ghost base: Check, req: Request, wasDown: bool, faults: PingFaults)
    requires req.Ping? && req.kind != Start && wasDown == (base.status == Down) && check.notifyOnFail == base.notifyOnFail
    modifies queue
    ensures queue.buf == AfterAlerts(old(repo.Abs()), old(queue.buf), base, old(check.View()), req, faults)
  {
    ghost var was, db, copy := queue.buf, repo.Abs(), check.View();
    WhichAlerts(base, req);
    var wantFail := req.kind == Fail && check.notifyOnFail;
    OfferedTwice(was, Burst(db, copy, AlertUp, wasDown && !faults.unlistedUp), Burst(db, copy, AlertFail, wantFail && !faults.unlistedFail));
    hide Burst, Record.View, Offered, AlertsFor, Database.Abs;
    EnqueueAlerts(repo, queue, check, AlertUp, wasDown, faults.unlistedUp);
    EnqueueAlerts(repo, queue, check, AlertFail, wantFail, faults.unlistedFail);
  }

  /** The commit of a completed copy, and its alerts when it goes through. */
  method CommitComplete(cache: StateCache, queue: AlertQueue, check: Record, ghost base: Check, req: Request, wasDown: bool, faults: PingFaults)
    returns (out: Outcome)
    requires cache.Valid() && queue !in cache.Repr
    requires req.Ping? && req.kind != Start && wasDown == (base.status == Down) && check.notifyOnFail == base.notifyOnFail
    modifies queue, cache`checks, cache`Repr, cache.repo`checks
    ensures cache.Valid() && queue !in cache.Repr
    ensures (cache.Abs(), out) == WriteThrough.Set(old(cache.Abs()), old(check.View()), faults.commit)
    ensures queue.buf == if out != Done then old(queue.buf)
                         else AfterAlerts(cache.repo.Abs(), old(queue.buf), base, old(check.View()), req, faults)
  {
    hide *;
    out := cache.Set(check, faults.commit);
    if out == Done {
      SendAlerts(cache.repo, queue, check, base, req, wasDown, faults);
    }
  }

  lemma NoStartAlerts(cal: Calendar, s: Stores, db: Db, buf: seq<AlertEvent>, req: Request, faults: PingFaults)
    requires req.Ping? && req.kind == Start
    ensures PingAlerts(cal, s, db, buf, req, faults) == buf
  {
    if Serve(cal, s, req, faults.commit).1 {
      OfferedNone(buf);
      assert RequestAlerts(db, s.cache[req.id], Respond(cal, s.cache[req.id], req).value, req, faults.unlistedUp, faults.unlistedFail) == [];
    }
  }

  lemma ServedPing(cal: Calendar, s: Stores, db: Db, buf: seq<AlertEvent>, req: Request, faults: PingFaults)
    requires req.Ping?
    ensures if req.id !in s.cache || s.cache[req.id].status == Paused then
              Serve(cal, s, req, faults.commit) == (s, false) && PingAlerts(cal, s, db, buf, req, faults) == buf
            else
              var c := s.cache[req.id];
              var copy := if req.kind == Start then AfterStart(c, req.now) else AfterComplete(cal, c, req.now);
              var (t, out) := WriteThrough.Set(s, copy, faults.commit);
              && Serve(cal, s, req, faults.commit) == (t, out == Done)
              && PingAlerts(cal, s, db, buf, req, faults) == if out != Done then buf else AfterAlerts(db, buf, c, copy, req, faults)
  {
    hide AfterStart, AfterComplete, WriteThrough.Set, AfterAlerts;
  }

  /** handleStart: the edit of the private copy and its commit. */
  method HandleStart(cache: StateCache, check: Record, now: Instant, fault: bool) returns (out: Outcome)
    requires cache.Valid() && check !in cache.Repr
    modifies check, cache`checks, cache`Repr, cache.repo`checks
    ensures cache.Valid() && cache.Repr >= old(cache.Repr) && fresh(cache.Repr - old(cache.Repr))
    ensures (cache.Abs(), out) == WriteThrough.Set(old(cache.Abs()), AfterStart(old(check.View()), now), fault)
  {
    Extend(check, now);
    hide *;
    out := cache.Set(check, fault);
  }

  /** handleComplete: the edit, the commit, and the alerts of a commit that goes through. */
  method HandleComplete(cal: Calendar, cache: StateCache, queue: AlertQueue, check: Record, req: Request, faults: PingFaults)
    returns (out: Outcome)
    requires cache.Valid() && check !in cache.Repr && queue !in cache.Repr && req.Ping? && req.kind != Start
    modifies check, queue, cache`checks, cache`Repr, cache.repo`checks
    ensures cache.Valid() && queue !in cache.Repr
    ensures var copy := AfterComplete(cal, old(check.View()), req.now);
            && (cache.Abs(), out) == WriteThrough.Set(old(cache.Abs()), copy, faults.commit)
            && queue.buf == if out != Done then old(queue.buf)
                            else AfterAlerts(cache.repo.Abs(), old(queue.buf), old(check.View()), copy, req, faults)
    ensures var (base, copy) := (old(check.View()), AfterComplete(cal, old(check.View()), req.now));
            out == Done ==> exists news ::
              PingNews(base, copy, req.kind, ListChannels(cache.repo.Abs(), copy.id), faults, news) && Fits(old(queue.buf), news, queue.buf)
  {
    ghost var base := check.View();
    var wasDown := check.status == Down;
    Complete(cal, check, req.now);
    assert check.notifyOnFail == base.notifyOnFail by {
      assert check.View().notifyOnFail == base.notifyOnFail;
    }
    hide *;
    out := CommitComplete(cache, queue, check, base, req, wasDown, faults);
    ghost var news := AlertsAreNews(cache.repo.Abs(), old(queue.buf), base, AfterComplete(cal, base, req.now), req, faults);
  }

  /** The store as it was, with the checks table as it is. */
  ghost function RowsOnly(cache: StateCache, db: Db): Db
    reads cache.repo`checks
  {
    db.(checks := cache.repo.checks)
  }

  /** The part of handle between the look-up and the ping row. */
  method EditAndCommit(cal: Calendar, cache: StateCache, queue: AlertQueue, check: Record, req: Request, faults: PingFaults)
    requires cache.Valid() && check !in cache.Repr && queue !in cache.Repr && req.Ping?
    requires req.id in cache.Abs().cache && check.View() == cache.Abs().cache[req.id] && check.View().status != Paused
    modifies check, queue, cache`checks, cache`Repr, cache.repo`checks
    ensures cache.Valid() && queue !in cache.Repr
    ensures cache.Abs() == Serve(cal, old(cache.Abs()), req, faults.commit).0
    ensures cache.repo.Abs() == RowsOnly(cache, old(cache.repo.Abs()))
    ensures queue.buf == PingAlerts(cal, old(cache.Abs()), cache.repo.Abs(), old(queue.buf), req, faults)
  {
    ghost var s, buf := cache.Abs(), queue.buf;
    hide Record.View, Record.Footprint, StateCache.Map, StateCache.Valid, StateCache.Abs, AfterStart, AfterComplete, AfterAlerts,
         Serve, PingAlerts, WriteThrough.Set;
    if req.kind == Start {
      var _ := HandleStart(cache, check, req.now, faults.commit);
      NoStartAlerts(cal, s, cache.repo.Abs(), buf, req, faults);
    } else {
      var _ := HandleComplete(cal, cache, queue, check, req, faults);
    }
    ServedPing(cal, s, cache.repo.Abs(), buf, req, faults);
  }

  /** The part of handle after the look-up. */
  method EditCommitRecord(cal: Calendar, cache: StateCache, queue: AlertQueue, check: Record, req: Request, ip: string, faults: PingFaults)
    requires cache.Valid() && check !in cache.Repr && queue !in cache.Repr && req.Ping?
    requires req.id in cache.Abs().cache && check.View() == cache.Abs().cache[req.id] && check.View().status != Paused
    modifies check, queue, cache`checks, cache`Repr, cache.repo`checks, cache.repo`pings, cache.repo`nextPing
    ensures cache.Valid()
    ensures cache.Abs() == Serve(cal, old(cache.Abs()), req, faults.commit).0
    ensures queue.buf == PingAlerts(cal, old(cache.Abs()), RowsOnly(cache, old(cache.repo.Abs())), old(queue.buf), req, faults)
    ensures cache.repo.Abs() == InsertPing(RowsOnly(cache, old(cache.repo.Abs())), req.id, req.kind, req.now, ip, faults.record).0
  {
    hide Record.View, Record.Footprint, StateCache.Map, StateCache.Abs, Serve, PingAlerts, InsertPing, Respond, RowsOnly;
    EditAndCommit(cal, cache, queue, check, req, faults);
    var _ := cache.repo.CreatePing(req.id, req.kind, req.now, ip, faults.record);
  }

  /** The queue after a ping is the old one, or the old one with the news of a completed ping. */
  lemma PingAlertsAreNews(cal: Calendar, s: Stores, db: Db, buf: seq<AlertEvent>, uuid: string, kind: PingType, now: Instant, faults: PingFaults)
    requires uuid in s.cache ==> s.cache[uuid].id == uuid
    ensures var req := Ping(uuid, kind, now);
            var (t, q) := (Serve(cal, s, req, faults.commit).0, PingAlerts(cal, s, db, buf, req, faults));
            if uuid in s.cache && s.cache[uuid].status != Paused && kind != Start && !faults.commit && uuid in s.rows
            then uuid in t.cache && exists news ::
              PingNews(s.cache[uuid], t.cache[uuid], kind, ListChannels(db, uuid), faults, news) && Fits(buf, news, q)
            else q == buf
  {
    var req := Ping(uuid, kind, now);
    ServedPing(cal, s, db, buf, req, faults);
    if uuid in s.cache && s.cache[uuid].status != Paused {
      if kind == Start {
        NoStartAlerts(cal, s, db, buf, req, faults);
      } else {
        hide NextExpectedAt, PingNews, Fits, ListChannels, Updated;
        var copy := AfterComplete(cal, s.cache[uuid], now);
        var news := AlertsAreNews(db, buf, s.cache[uuid], copy, req, faults);
      }
    }
  }

  /** PingHandler.handle: nothing for unknown or paused checks; else the edit, the Set, its alerts, and the ping row. */
  method HandlePing(cal: Calendar, cache: StateCache, queue: AlertQueue, uuid: string, kind: PingType, now: Instant, ip: string, faults: PingFaults)
    requires cache.Valid() && queue !in cache.Repr
    modifies queue, cache`checks, cache`Repr, cache.repo`checks, cache.repo`pings, cache.repo`nextPing
    ensures cache.Valid()
    ensures cache.Abs() == Serve(cal, old(cache.Abs()), Ping(uuid, kind, now), faults.commit).0
    ensures queue.buf == PingAlerts(cal, old(cache.Abs()), RowsOnly(cache, old(cache.repo.Abs())), old(queue.buf), Ping(uuid, kind, now), faults)
    ensures cache.repo.Abs() ==
            var rows := RowsOnly(cache, old(cache.repo.Abs()));
            if uuid !in old(cache.Map()) || old(cache.Map())[uuid].status == Paused then rows
            else InsertPing(rows, uuid, kind, now, ip, faults.record).0
    ensures if && uuid in old(cache.Map()) && old(cache.Map())[uuid].status != Paused
               && kind != Start && !faults.commit && uuid in old(cache.repo.checks)
            then uuid in cache.Map() && exists news ::
              && PingNews(old(cache.Map())[uuid], cache.Map()[uuid], kind, ListChannels(old(cache.repo.Abs()), uuid), faults, news)
              && Fits(old(queue.buf), news, queue.buf)
            else queue.buf == old(queue.buf)
  {
    var check := cache.Get(uuid);
    var req := Ping(uuid, kind, now);
    assert cache.Abs().cache == cache.Map();
    assert check != null ==> check.status == check.View().status;
    assert RowsOnly(cache, cache.repo.Abs()) == cache.repo.Abs();
    hide *;
    if check == null || check.status == Paused {
      ServedPing(cal, cache.Abs(), cache.repo.Abs(), queue.buf, req, faults);
      return;
    }
    ghost var s, db := cache.Abs(), cache.repo.Abs();
    EditCommitRecord(cal, cache, queue, check, req, ip, faults);
    PingAlertsAreNews(cal, s, RowsOnly(cache, db), old(queue.buf), uuid, kind, now, faults);
    ListingIgnoresChecks(cache, db, uuid);
  }

  /** Commits a private copy edited for a request that is answered. */
  method CommitEdit(cal: Calendar, cache: StateCache, check: Record, ghost base: Check, ghost req: Request, fault: bool) returns (out: Outcome)
    requires cache.Valid() && req.id in cache.Abs().cache && cache.Abs().cache[req.id] == base
    requires Respond(cal, base, req) == Some(check.View())
    modifies cache`checks, cache`Repr, cache.repo`checks
    ensures cache.Valid()
    ensures (cache.Abs(), out == Done) == Serve(cal, old(cache.Abs()), req, fault)
  {
    hide Record.View, Record.Footprint, StateCache.Map, StateCache.Valid, StateCache.Abs, Respond, WriteThrough.Set;
    out := cache.Set(check, fault);
  }

  /** The field assignments of HandlePause. */
  method Toggle(check: Record, now: Instant)
    modifies check
    ensures check.View() == AfterPause(old(check.View()), now)
  {
    if check.status == Paused {
      check.status := if check.prePauseStatus != null then check.prePauseStatus.value else New;
      check.prePauseStatus := null;
    } else {
      var saved := new Cell(check.status);
      check.prePauseStatus := saved;
      check.status := Paused;
    }
    check.updatedAt := now;
  }

  lemma RespondsTo(cal: Calendar, c: Check, id: string, now: Instant)
    ensures Respond(cal, c, TogglePause(id, now)) == Some(AfterPause(c, now))
    ensures forall form :: Respond(cal, c, Edit(id, form, now)) ==
              var f := ParseCheckForm(cal, form); if f.None? then None else AfterEdit(cal, c, f.value, now)
  {
  }

  method ToggleAndCommit(cal: Calendar, cache: StateCache, check: Record, id: string, now: Instant, fault: bool) returns (out: Outcome)
    requires cache.Valid() && check !in cache.Repr && id in cache.Abs().cache && check.View() == cache.Abs().cache[id]
    modifies check, cache`checks, cache`Repr, cache.repo`checks
    ensures cache.Valid()
    ensures (cache.Abs(), out == Done) == Serve(cal, old(cache.Abs()), TogglePause(id, now), fault)
  {
    ghost var base, s := check.View(), cache.Abs();
    RespondsTo(cal, base, id, now);
    hide *;
    Toggle(check, now);
    assert cache.Valid() && cache.Abs() == s;
    out := CommitEdit(cal, cache, check, base, TogglePause(id, now), fault);
  }

  /** CheckHandler.HandlePause; true is a redirect, false not found or a server error. */
  method HandlePause(cal: Calendar, cache: StateCache, id: string, now: Instant, fault: bool) returns (ok: bool)
    requires cache.Valid()
    modifies cache`checks, cache`Repr, cache.repo`checks
    ensures cache.Valid()
    ensures (cache.Abs(), ok) == Serve(cal, old(cache.Abs()), TogglePause(id, now), fault)
  {
    var check := cache.Get(id);
    assert cache.Abs().cache == cache.Map();
    Unserved(cal, cache.Abs(), TogglePause(id, now), fault);
    if check == null {
      return false;
    }
    hide *;
    var out := ToggleAndCommit(cal, cache, check, id, now, fault);
    ok := out == Done;
  }

  /** The settings and the deadline of a form, written into a record. */
  method WriteSettings(check: Record, f: Settings, next: Instant, now: Instant)
    modifies check
    ensures check.View() == old(check.View()).(name := f.name, schedule := f.schedule, grace := f.grace, tags := f.tags,
              notifyOnFail := f.notifyOnFail, nextExpectedAt := Some(next), updatedAt := now)
  {
    check.name, check.schedule, check.grace := f.name, f.schedule, f.grace;
    check.tags, check.notifyOnFail := f.tags, f.notifyOnFail;
    var cell := new Cell<Instant>(next);
    check.nextExpectedAt := cell;
    check.updatedAt := now;
  }

  /** The field assignments of HandleUpdate, form already parsed. */
  method ApplyForm(cal: Calendar, check: Record, f: Settings, now: Instant) returns (ok: bool)
    modifies check
    ensures ok == AfterEdit(cal, old(check.View()), f, now).Some?
    ensures check.View() == if ok then AfterEdit(cal, old(check.View()), f, now).value else old(check.View())
  {
    var ref := if check.lastPingAt != null then check.lastPingAt.value else now;
    assert ref == (if check.View().lastPingAt.Some? then check.View().lastPingAt.value else now);
    hide NextExpectedAt, Record.View;
    var next := NextExpectedAt(cal, f.schedule, f.grace, ref);
    if next.None? {
      return false;
    }
    WriteSettings(check, f, next.value, now);
    ok := true;
  }

  method ApplyAndCommit(cal: Calendar, cache: StateCache, check: Record, id: string, form: Form, now: Instant, fault: bool) returns (ok: bool)
    requires cache.Valid() && check !in cache.Repr && id in cache.Abs().cache && check.View() == cache.Abs().cache[id]
    requires ParseCheckForm(cal, form).Some?
    modifies check, cache`checks, cache`Repr, cache.repo`checks
    ensures cache.Valid()
    ensures (cache.Abs(), ok) == Serve(cal, old(cache.Abs()), Edit(id, form, now), fault)
  {
    ghost var base, s := check.View(), cache.Abs();
    RespondsTo(cal, base, id, now);
    Unserved(cal, s, Edit(id, form, now), fault);
    hide *;
    ok := ApplyForm(cal, check, ParseCheckForm(cal, form).value, now);
    assert cache.Valid() && cache.Abs() == s;
    if ok {
      var out := CommitEdit(cal, cache, check, base, Edit(id, form, now), fault);
      ok := out == Done;
    }
  }

  lemma Unserved(cal: Calendar, s: Stores, req: Request, fault: bool)
    ensures req.id !in s.cache || Respond(cal, s.cache[req.id], req).None? ==> Serve(cal, s, req, fault) == (s, false)
    ensures req.Edit? && ParseCheckForm(cal, req.form).None? ==> Serve(cal, s, req, fault) == (s, false)
  {
  }

  /** CheckHandler.HandleUpdate. */
  method HandleUpdate(cal: Calendar, cache: StateCache, id: string, form: Form, now: Instant, fault: bool) returns (ok: bool)
    requires cache.Valid()
    modifies cache`checks, cache`Repr, cache.repo`checks
    ensures cache.Valid()
    ensures (cache.Abs(), ok) == Serve(cal, old(cache.Abs()), Edit(id, form, now), fault)
  {
    var check := cache.Get(id);
    assert cache.Abs().cache == cache.Map();
    Unserved(cal, cache.Abs(), Edit(id, form, now), fault);
    hide *;
    if check == null || ParseCheckForm(cal, form).None? {
      return false;
    }
    ok := ApplyAndCommit(cal, cache, check, id, form, now, fault);
  }

  lemma NewChecks(cal: Calendar, id: string, form: Form, now: Instant)
    ensures ParseCheckForm(cal, form).Some? ==>
              var c := NewCheck(cal, id, ParseCheckForm(cal, form).value, now); c.Some? && c.value.id == id
  {
    if ParseCheckForm(cal, form).Some? {
      NewCheckWellFormed(cal, id, form, now);
    }
  }

  /** CheckHandler.HandleCreate, with the id the generator gave. */
  method HandleCreate(cal: Calendar, cache: StateCache, id: string, form: Form, now: Instant, fault: bool) returns (ok: bool)
    requires cache.Valid()
    modifies cache`checks, cache`Repr, cache.repo`checks
    ensures cache.Valid()
    ensures forall s: Protocol.State :: s.st == old(cache.Abs()) && id !in s.used ==>
              cache.Abs() == Protocol.Step(cal, s, Protocol.CreateCheck(id, form, now, fault)).st
    ensures ok <==> ParseCheckForm(cal, form).Some? && !fault && id !in old(cache.repo.checks)
    ensures ok ==> id in cache.Map() && Some(cache.Map()[id]) == NewCheck(cal, id, ParseCheckForm(cal, form).value, now)
    ensures cache.Map() == if ok then old(cache.Map())[id := cache.Map()[id]] else old(cache.Map())
  {
    NewChecks(cal, id, form, now);
    hide NextExpectedAt, ParseCheckForm;
    var f := ParseCheckForm(cal, form);
    if f.None? {
      return false;
    }
    var check := NewCheck(cal, id, f.value, now);
    if check.None? {
      return false;
    }
    hide NewCheck;
    var record := new Record.Of(check.value);
    assert cache.Valid() && cache.Abs() == old(cache.Abs());
    var out := cache.Create(record, fault);
    ok := out == Done;
  }

  /** CheckHandler.HandleDelete: a missing check is a success. */
  method HandleDelete(cal: Calendar, cache: StateCache, id: string, fault: bool) returns (ok: bool)
    requires cache.Valid()
    modifies cache`checks, cache.repo`checks, cache.repo`pings, cache.repo`links, cache.repo`notes
    ensures cache.Valid()
    ensures forall s: Protocol.State :: s.st == old(cache.Abs()) ==>
              cache.Abs() == Protocol.Step(cal, s, Protocol.DeleteCheck(id, fault)).st
    ensures cache.repo.Abs() == DeleteCheck(old(cache.repo.Abs()), id, fault).0
    ensures ok <==> !fault
    ensures cache.Map() == if !fault && id in old(cache.repo.checks) then old(cache.Map()) - {id} else old(cache.Map())
  {
    hide Record.View, Record.Footprint, StateCache.Map, StateCache.Valid, NotesWithout;
    var out := cache.Delete(id, fault);
    ok := out != Failed;
  }
}
