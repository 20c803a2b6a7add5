/** Ping retention against the ping listing. */
module Retention {
  import opened Text
  import opened TimeCodec
  import opened Model
  import opened Ranking
  import opened Tables

  const KEEP: nat := 1000

  const GRID: nat := 30

  lemma StampsAfter(db: Db, check: string, n: nat, other: string)
    ensures var t := DeleteOldest(db, check, n, false).0;
            Stamps(t, other) == if other == check then SetOf(Recent(db, check, n)) else Stamps(db, other)
  {
    hide Newest;
    var t := DeleteOldest(db, check, n, false).0;
    var all := Stamps(db, check);
    assert forall s :: s in Recent(db, check, n) ==> s in Newest(all);
    if other == check {
      forall s | s in SetOf(Recent(db, check, n))
        ensures s in Stamps(t, other)
      {
        assert s in all;
        assert s.id in t.pings && t.pings[s.id] == db.pings[s.id];
      }
      forall s | s in Stamps(t, other)
        ensures s in SetOf(Recent(db, check, n))
      {
        var r :| r in Recent(db, check, n) && r.id == s.id;
        assert r in all;
      }
    } else {
      assert forall s :: s in Stamps(db, other) ==> s.id in t.pings && Stamp(s.id, t.pings[s.id].createdAt) == s;
    }
  }

  function Min(a: nat, b: nat): nat { if a < b then a else b }

  lemma KeptAreLater(all: set<Stamp>, m: nat, k: Stamp, r: Stamp)
    requires m <= |all| && k in Newest(all)[..m] && r in all && r !in Newest(all)[..m]
    ensures Later(k, r)
  {
    var list := Newest(all);
    hide Newest, Later;
    var i :| 0 <= i < m && list[i] == k;
    assert r in list && list == list[..m] + list[m..];
    var j :| 0 <= j < |list| - m && list[m..][j] == r;
    NewestDescends(all, i, m + j);
  }

  /** DeleteOldest keeps exactly the min(n, count) greatest pings of the check under (created_at, id). */
  lemma KeepsNewest(db: Db, check: string, n: nat)
    ensures var before, after := Stamps(db, check), Stamps(DeleteOldest(db, check, n, false).0, check);
            && after <= before && |after| == Min(n, |before|)
            && forall k, r :: k in after && r in before - after ==> Later(k, r)
  {
    hide Stamps, DeleteOldest, Newest, Later;
    var before := Stamps(db, check);
    var list := Newest(before);
    StampsAfter(db, check, n, check);
    var m := Min(n, |before|);
    assert Recent(db, check, n) == list[..m];
    NewestOfPrefix(before, m);
    forall k, r | k in SetOf(list[..m]) && r in before - SetOf(list[..m])
      ensures Later(k, r)
    {
      KeptAreLater(before, m, k, r);
    }
  }

  /** It changes no row: those kept are as they were, and every other check keeps all of its own. */
  lemma TouchesNothingElse(db: Db, check: string, n: int)
    ensures var t := DeleteOldest(db, check, n, false).0;
            && t.(pings := db.pings) == db
            && (forall p :: p in t.pings ==> p in db.pings && t.pings[p] == db.pings[p])
            && (forall p :: p in db.pings && db.pings[p].check != check ==> p in t.pings)
  {
  }

  /** The first k rows of a listing do not depend on what was dropped beyond the first n >= k. */
  lemma ListingKept(db: Db, check: string, n: nat, other: string, k: nat)
    requires k <= n
    ensures Recent(DeleteOldest(db, check, n, false).0, other, k) == Recent(db, other, k)
  {
    hide Stamps, DeleteOldest;
    StampsAfter(db, check, n, other);
    if other == check {
      var before := Stamps(db, check);
      var m := Min(n, |before|);
      NewestOfPrefix(before, m);
      assert Recent(db, check, n) == Newest(before)[..m];
    }
  }

  /** A second run drops nothing. */
  lemma Idempotent(db: Db, check: string, n: nat)
    ensures var t := DeleteOldest(db, check, n, false).0; DeleteOldest(t, check, n, false).0 == t
  {
    var t := DeleteOldest(db, check, n, false).0;
    ListingKept(db, check, n, check, n);
    assert forall p :: p in t.pings && t.pings[p].check == check ==> p in set s | s in Recent(db, check, n) :: s.id;
    hide Recent;
    assert DeleteOldest(t, check, n, false).0.pings == t.pings;
  }

  lemma FaultyDelete(db: Db, check: string, n: nat)
    ensures DeleteOldest(db, check, n, true).0 == db
  {
  }

  /** Every ping that is left is as it was. */
  ghost predicate KeepsRows(was: Db, now: Db)
  {
    forall p :: p in now.pings ==> p in was.pings && now.pings[p] == was.pings[p]
  }

  /** A cleanup pass over some checks: nothing within the first 1000 of any listing changes, every cleaned check
      keeps at most 1000 pings, and the others keep all. */
  ghost predicate Pruned(was: Db, now: Db, ids: seq<string>, faults: set<string>)
  {
    && (forall id, k: nat :: k <= KEEP ==> Recent(now, id, k) == Recent(was, id, k))
    && (forall id :: |Stamps(now, id)| == if id in ids && id !in faults then Min(KEEP, |Stamps(was, id)|) else |Stamps(was, id)|)
    && (forall id :: id !in ids || id in faults ==> Stamps(now, id) == Stamps(was, id))
    && (forall id :: Stamps(now, id) <= Stamps(was, id))
    && (forall id, k, r :: k in Stamps(now, id) && r in Stamps(was, id) - Stamps(now, id) ==> Later(k, r))
    && KeepsRows(was, now)
  }

  lemma PruneOneMore(was: Db, now: Db, ids: seq<string>, next: string, faults: set<string>)
    requires Pruned(was, now, ids, faults)
    ensures Pruned(was, DeleteOldest(now, next, KEEP, next in faults).0, ids + [next], faults)
  {
    hide Recent, Stamps, DeleteOldest;
    var t := DeleteOldest(now, next, KEEP, next in faults).0;
    if next in faults {
      FaultyDelete(now, next, KEEP);
    } else {
      TouchesNothingElse(now, next, KEEP);
      KeepsNewest(now, next, KEEP);
      forall id, k: nat | k <= KEEP
        ensures Recent(t, id, k) == Recent(now, id, k)
      {
        ListingKept(now, next, KEEP, id, k);
      }
      forall id | id != next
        ensures Stamps(t, id) == Stamps(now, id)
      {
        StampsAfter(now, next, KEEP, id);
      }
      hide Later;
    }
  }

  /** Newest first by text is newest first by time, for all dates the store can read back. */
  lemma LaterIsChronological(a: nat, b: nat, s: Instant, t: Instant)
    requires YearOf(s) <= 9999 && YearOf(t) <= 9999
    ensures Later(Stamp(a, FormatTime(s)), Stamp(b, FormatTime(t))) <==> Floor(s) > Floor(t) || (Floor(s) == Floor(t) && a > b)
  {
    TextOrder(t, s);
  }

  datatype Ping = Ping(id: nat, check: string, kind: PingType, createdAt: Instant, sourceIP: string)

  /** scanPing, for the row of a stamp: None stands for a scan error. */
  function ScanPing(db: Db, x: Stamp): Option<Ping>
  {
    if x.id !in db.pings then None else
    var row := db.pings[x.id];
    match ParseTime(row.createdAt)
    case None => None
    case Some(t) => Some(Ping(x.id, row.check, row.kind, t, row.sourceIP))
  }

  /** pingRepo.ListByCheckID: the newest pings of a check as records, or None when a row among them does not scan. */
  function ListPings(db: Db, check: string, limit: int): Option<seq<Ping>>
  {
    var rows := Recent(db, check, limit);
    if exists i :: 0 <= i < |rows| && ScanPing(db, rows[i]).None? then None
    else Some(seq(|rows|, i requires 0 <= i < |rows| => ScanPing(db, rows[i]).value))
  }

  lemma RecentStored(db: Db, check: string, limit: int, x: Stamp)
    requires x in Recent(db, check, limit)
    ensures x.id in db.pings
  {
    assert x in Newest(Stamps(db, check));
  }

  lemma ScanAll(db: Db, check: string, limit: int, list: seq<Ping>)
    requires var rows := Recent(db, check, limit); |list| == |rows| && forall j :: 0 <= j < |rows| ==> ScanPing(db, rows[j]) == Some(list[j])
    ensures ListPings(db, check, limit) == Some(list)
  {
    hide Recent, ScanPing;
    assert ListPings(db, check, limit).Some?;
    assert ListPings(db, check, limit).value == list;
  }

  lemma ScanFails(db: Db, check: string, limit: int, i: nat)
    requires i < |Recent(db, check, limit)| && ScanPing(db, Recent(db, check, limit)[i]).None?
    ensures ListPings(db, check, limit) == None
  {
    hide Recent, ScanPing;
  }

  /** Listings with the same stamps over the same rows are the same. */
  lemma SameListing(was: Db, now: Db, check: string, limit: int)
    requires KeepsRows(was, now) && Recent(now, check, limit) == Recent(was, check, limit)
    ensures ListPings(now, check, limit) == ListPings(was, check, limit)
  {
    var rows := Recent(was, check, limit);
    forall i | 0 <= i < |rows| ensures ScanPing(now, rows[i]) == ScanPing(was, rows[i]) {
      RecentStored(now, check, limit, rows[i]);
      hide Recent, ParseTime;
    }
    hide Recent, ScanPing;
    if ListPings(was, check, limit).Some? {
      ScanAll(now, check, limit, ListPings(was, check, limit).value);
    } else {
      var i :| 0 <= i < |rows| && ScanPing(was, rows[i]).None?;
      ScanFails(now, check, limit, i);
    }
  }

  /** The first rows of a listing: as many as there are or as the limit allows, strictly descending, and later than all
      that are left out. A negative limit is no limit. */
  lemma RecentExact(db: Db, check: string, limit: int)
    ensures var (all, r) := (Stamps(db, check), Recent(db, check, limit));
            && |r| == (if 0 <= limit < |all| then limit else |all|)
            && (forall x :: x in r ==> x in all)
            && (forall i, j :: 0 <= i < j < |r| ==> Later(r[i], r[j]))
            && (forall i, x :: 0 <= i < |r| && x in all && x !in r ==> Later(r[i], x))
            && (|r| != limit ==> forall x :: x in all ==> x in r)
  {
    var all, r := Stamps(db, check), Recent(db, check, limit);
    var list := Newest(all);
    hide Newest, Later, Stamps;
    assert forall x :: x in r ==> x in list;
    forall i, j | 0 <= i < j < |list| ensures Later(list[i], list[j]) {
      NewestDescends(all, i, j);
    }
    forall i, x | 0 <= i < |r| && x in all && x !in r ensures Later(r[i], x) {
      var j :| 0 <= j < |list| && list[j] == x;
      assert list[..|r|] == r && forall k :: 0 <= k < |r| ==> list[k] in r;
    }
  }

  /** The listing as the page shows it: stored pings of the check, field by field, newest first, by text and then by id,
      as many as the limit allows, and none left out that is later than one shown. */
  ghost predicate ListsPings(db: Db, check: string, limit: int, list: seq<Ping>)
  {
    && (forall i :: 0 <= i < |list| ==>
          && list[i].id in db.pings && list[i].check == check
          && var row := db.pings[list[i].id];
             && row.check == check && row.kind == list[i].kind && row.sourceIP == list[i].sourceIP
             && ParseTime(row.createdAt) == Some(list[i].createdAt))
    && (forall i, j :: 0 <= i < j < |list| ==> NewerPing(db, list[i].id, list[j].id))
    && (0 <= limit ==> |list| <= limit)
    && (forall p :: p in db.pings && db.pings[p].check == check ==>
          || (exists i :: 0 <= i < |list| && list[i].id == p)
          || (|list| == limit && forall i :: 0 <= i < |list| ==> NewerPing(db, list[i].id, p)))
  }

  ghost predicate NewerPing(db: Db, p: nat, q: nat)
  {
    && p in db.pings && q in db.pings
    && var (a, b) := (db.pings[p].createdAt, db.pings[q].createdAt);
       Precedes(b, a) || (a == b && p > q)
  }

  lemma ListsNewest(db: Db, check: string, limit: int, list: seq<Ping>)
    requires var rows := Recent(db, check, limit); |list| == |rows| && forall j :: 0 <= j < |rows| ==> ScanPing(db, rows[j]) == Some(list[j])
    ensures ListsPings(db, check, limit, list)
  {
    var all, rows := Stamps(db, check), Recent(db, check, limit);
    RecentExact(db, check, limit);
    hide Recent, Precedes, ParseTime;
    forall i | 0 <= i < |list|
      ensures rows[i].id == list[i].id && list[i].id in db.pings && rows[i].at == db.pings[list[i].id].createdAt
      ensures var row := db.pings[list[i].id];
              && row.check == check && list[i].check == check && row.kind == list[i].kind && row.sourceIP == list[i].sourceIP
              && ParseTime(row.createdAt) == Some(list[i].createdAt)
    {
      assert rows[i] in rows && ScanPing(db, rows[i]) == Some(list[i]);
    }
    hide ScanPing;
    forall p | p in db.pings && db.pings[p].check == check
      ensures Stamp(p, db.pings[p].createdAt) in all
      ensures Stamp(p, db.pings[p].createdAt) in rows ==> exists i :: 0 <= i < |list| && list[i].id == p
      ensures Stamp(p, db.pings[p].createdAt) !in rows ==> |list| == limit && forall i :: 0 <= i < |list| ==> NewerPing(db, list[i].id, p)
    {
      var x := Stamp(p, db.pings[p].createdAt);
      if x in rows {
        var i :| 0 <= i < |rows| && rows[i] == x;
        assert list[i].id == p;
      } else {
        assert forall i :: 0 <= i < |list| ==> Later(rows[i], x);
      }
    }
    hide NewerPing;
  }

  /** Every listing of at most n pings is the same before and after DeleteOldest(check, n), record by record. */
  lemma PingsKept(db: Db, check: string, n: nat, other: string, k: nat)
    requires k <= n
    ensures ListPings(DeleteOldest(db, check, n, false).0, other, k) == ListPings(db, other, k)
  {
    TouchesNothingElse(db, check, n);
    ListingKept(db, check, n, other, k);
    hide DeleteOldest, ListPings, Recent;
    SameListing(db, DeleteOldest(db, check, n, false).0, other, k);
  }

  /** One cell of the 30-cell history strip. */
  datatype Square = Square(class_: string, title: string)

  const NO_DATA := Square("empty", "no data")

  function KindText(k: PingType): string
  {
    match k case Success => "success" case Start => "start" case Fail => "fail"
  }

  function Cell(p: Ping): Square { Square(KindText(p.kind), FormatTime(p.createdAt)) }

  /** The strip reads oldest to newest; missing pings leave empty cells on the left. */
  function Strip(pings: seq<Ping>): (r: seq<Square>)
    ensures |r| == GRID
  {
    seq(GRID, i requires 0 <= i < GRID =>
      if GRID - 1 - i < |pings| then Cell(pings[GRID - 1 - i]) else NO_DATA)
  }

  lemma CellIs(p: Ping)
    ensures Cell(p).title == FormatTime(p.createdAt)
    ensures Cell(p).class_ == match p.kind case Success => "success" case Start => "start" case Fail => "fail"
  {
    hide FormatTime;
  }

  /** buildPingSquares, filling the newest cells from the end and then the empty ones from the start. */
  method BuildPingSquares(pings: seq<Ping>) returns (squares: array<Square>)
    ensures fresh(squares) && squares[..] == Strip(pings)
    ensures squares.Length == 30
    ensures forall k :: 0 <= k < 30 && k < |pings| ==>
              && squares[29 - k].title == FormatTime(pings[k].createdAt)
              && squares[29 - k].class_ == match pings[k].kind case Success => "success" case Start => "start" case Fail => "fail"
    ensures forall k :: 0 <= k < 30 - |pings| ==> squares[k].class_ == "empty" && squares[k].title == "no data"
  {
    hide FormatTime, KindText, Cell;
    squares := new Square[GRID](_ => Square("", ""));
    var i := 0;
    while i < |pings| && i < GRID
      invariant 0 <= i <= GRID && i <= |pings|
      invariant forall j :: 0 <= j < i ==> squares[GRID - 1 - j] == Cell(pings[j])
    {
      squares[GRID - 1 - i] := Cell(pings[i]);
      i := i + 1;
    }
    var k := 0;
    while k < GRID - |pings|
      invariant 0 <= k && (k <= GRID - |pings| || k == 0)
      invariant forall j :: 0 <= j < i ==> squares[GRID - 1 - j] == Cell(pings[j])
      invariant forall j :: 0 <= j < k ==> squares[j] == NO_DATA
    {
      squares[k] := NO_DATA;
      k := k + 1;
    }
    assert forall j :: 0 <= j < GRID ==> squares[..][j] == Strip(pings)[j];
    forall j | 0 <= j < GRID && j < |pings|
      ensures squares[29 - j].title == FormatTime(pings[j].createdAt)
      ensures squares[29 - j].class_ == match pings[j].kind case Success => "success" case Start => "start" case Fail => "fail"
    {
      CellIs(pings[j]);
    }
  }

  /** The history strip of a check's page; None when its pings cannot be listed. */
  function StripOf(db: Db, check: string): Option<seq<Square>>
  {
    match ListPings(db, check, GRID)
    case None => None
    case Some(pings) => Some(Strip(pings))
  }

  /** The strip is the same before and after pruning any check down to 30 pings or more. */
  lemma StripKept(db: Db, check: string, n: nat, other: string)
    requires n >= GRID
    ensures StripOf(DeleteOldest(db, check, n, false).0, other) == StripOf(db, other)
  {
    hide DeleteOldest, ListPings, Strip;
    PingsKept(db, check, n, other, GRID);
  }

  /** The strip of every check is the same before and after a cleanup pass. */
  lemma StripAfterCleanup(was: Db, now: Db, ids: seq<string>, faults: set<string>, check: string)
    requires Pruned(was, now, ids, faults)
    ensures StripOf(now, check) == StripOf(was, check)
  {
    hide Recent, ListPings, Strip, Stamps;
    assert Recent(now, check, GRID) == Recent(was, check, GRID);
    SameListing(was, now, check, GRID);
  }
}
