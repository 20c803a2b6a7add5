/** The write-through cache on the heap. The objects it owns are never handed out and never taken in:
    every record that crosses its boundary is a fresh deep copy. */
module StateCache {
  import opened Text
  import opened Model
  import opened CheckRows
  import opened WriteThrough
  import opened Tables
  import opened Database
  import opened Records

  /** The list names each key once. */
  ghost predicate Orders(order: seq<string>, keys: set<string>)
  {
    && (forall i, j :: 0 <= i < j < |order| ==> order[i] != order[j])
    && (forall id :: id in order <==> id in keys)
  }

  /** Go's map iteration: the keys in some order. */
  method AnyOrder(keys: set<string>) returns (order: seq<string>)
    ensures Orders(order, keys)
  {
    order := [];
    var todo := keys;
    while todo != {}
      invariant todo <= keys && Orders(order, keys - todo)
    {
      var id :| id in todo;
      assert forall x :: x in order + [id] <==> x in order || x == id;
      order, todo := order + [id], todo - {id};
    }
  }

  /** The list gives each entry of a map once, in the given order of keys. */
  ghost predicate Enumerates(list: seq<Check>, m: map<string, Check>, order: seq<string>)
  {
    Orders(order, m.Keys) && |list| == |order| && Follows(list, m, order)
  }

  ghost predicate Follows(list: seq<Check>, m: map<string, Check>, order: seq<string>)
  {
    |list| <= |order| && forall i :: 0 <= i < |list| ==> order[i] in m && list[i] == m[order[i]]
  }

  lemma FollowsOneMore(list: seq<Check>, m: map<string, Check>, order: seq<string>)
    requires Follows(list, m, order) && |list| < |order| && order[|list|] in m
    ensures Follows(list + [m[order[|list|]]], m, order)
  {
  }

  /** Records that share no object with each other, all of them within `owned`, and the values they denote. */
  ghost predicate Separate(list: seq<Record>, views: seq<Check>, owned: set<object?>)
    reads list, owned
  {
    && |list| == |views|
    && (forall i :: 0 <= i < |list| ==> list[i] in owned && list[i].Footprint() <= owned && list[i].View() == views[i] && list[i].Unshared())
    && (forall i, j :: 0 <= i < j < |list| ==> list[i].Footprint() !! list[j].Footprint())
  }

  /** One more deep copy at the end of a list of copies. */
  method CopyOnto(c: Record, list: seq<Record>, ghost views: seq<Check>, ghost owned: set<object?>)
    returns (more: seq<Record>, ghost moreViews: seq<Check>, ghost moreOwned: set<object?>)
    requires Separate(list, views, owned)
    ensures Separate(more, moreViews, moreOwned) && moreViews == views + [c.View()]
    ensures moreOwned >= owned && fresh(moreOwned - owned)
  {
    var cp := CloneCheck(c);
    assert cp in cp.Footprint();
    hide Record.View, Record.Footprint, Record.Unshared;
    assert cp.Footprint() !! owned;
    more, moreViews, moreOwned := list + [cp], views + [c.View()], owned + cp.Footprint();
  }

  class StateCache {
    var checks: map<string, Record>
    const repo: Database
    /** Every object the cache has ever owned. */
    ghost var Repr: set<object?>

    ghost predicate Valid()
      reads this, Repr
    {
      && this !in Repr && repo !in Repr
      && forall id :: id in checks ==> checks[id] in Repr && checks[id].Footprint() <= Repr && checks[id].id == id
    }

    /** The cached records as values. */
    ghost function Map(): map<string, Check>
      requires Valid()
      reads this, Repr
    {
      map id | id in checks :: checks[id].View()
    }

    /** Cache and table together. */
    ghost function Abs(): Stores
      requires Valid()
      reads this, Repr, repo`checks
    {
      Stores(Map(), repo.checks)
    }

    constructor (repo: Database)
      ensures Valid() && Map() == map[] && Repr == {} && this.repo == repo
    {
      this.repo := repo;
      checks := map[];
      Repr := {};
    }

    method Get(uuid: string) returns (c: Record?)
      requires Valid()
      ensures c == null <==> uuid !in Map()
      ensures c != null ==> c.id == uuid && fresh(c) && c !in Repr && fresh(c.Footprint()) && c.View() == Map()[uuid] && c.Unshared()
    {
      if uuid !in checks {
        return null;
      }
      c := CloneCheck(checks[uuid]);
      assert c in c.Footprint() && c.View().id == c.id;
    }

    /** Makes a record no one else holds an entry of the map. */
    method Install(c: Record)
      requires Valid() && this !in c.Footprint() && repo !in c.Footprint()
      modifies this`checks, this`Repr
      ensures Valid() && Repr == old(Repr) + c.Footprint()
      ensures Map() == old(Map())[c.View().id := c.View()]
    {
      assert c.View().id == c.id;
      hide Record.View;
      checks := checks[c.id := c];
      Repr := Repr + c.Footprint();
    }

    /** Puts a deep copy of the record into the map. */
    method Keep(c: Record)
      requires Valid()
      modifies this`checks, this`Repr
      ensures Valid() && Repr >= old(Repr) && fresh(Repr - old(Repr))
      ensures Map() == old(Map())[old(c.View()).id := old(c.View())]
    {
      var cp := CloneCheck(c);
      hide Record.View, Record.Footprint;
      assert Valid() && Map() == old(Map());
      Install(cp);
    }

    /** setLocked: the store first, the map only if the store accepted. */
    method SetLocked(c: Record, fault: bool) returns (out: Outcome)
      requires Valid()
      modifies this`checks, this`Repr, repo`checks
      ensures Valid() && Repr >= old(Repr) && fresh(Repr - old(Repr))
      ensures (Abs(), out) == WriteThrough.Set(old(Abs()), old(c.View()), fault)
      ensures repo.Abs() == UpdateCheck(old(repo.Abs()), old(c.View()), fault).0
    {
      hide RowOf, Updated, Record.View, Record.Footprint;
      out := repo.SaveCheck(c.View(), fault);
      if out == Done {
        Keep(c);
      }
    }

    method Set(c: Record, fault: bool) returns (out: Outcome)
      requires Valid()
      modifies this`checks, this`Repr, repo`checks
      ensures Valid() && Repr >= old(Repr) && fresh(Repr - old(Repr))
      ensures (Abs(), out) == WriteThrough.Set(old(Abs()), old(c.View()), fault)
      ensures repo.Abs() == UpdateCheck(old(repo.Abs()), old(c.View()), fault).0
    {
      hide RowOf, Updated, Record.View;
      var cp := CloneCheck(c);
      out := SetLocked(cp, fault);
    }

    method Create(c: Record, fault: bool) returns (out: Outcome)
      requires Valid()
      modifies this`checks, this`Repr, repo`checks
      ensures Valid() && Repr >= old(Repr) && fresh(Repr - old(Repr))
      ensures (Abs(), out) == WriteThrough.Create(old(Abs()), old(c.View()), fault)
      ensures repo.Abs() == InsertCheck(old(repo.Abs()), old(c.View()), fault).0
    {
      var cp := CloneCheck(c);
      hide RowOf, Updated, Record.View, Record.Footprint;
      assert Valid() && Map() == old(Map());
      out := repo.CreateCheck(cp.View(), fault);
      if out == Done {
        Keep(cp);
      }
    }

    method Delete(uuid: string, fault: bool) returns (out: Outcome)
      requires Valid()
      modifies this`checks, repo`checks, repo`pings, repo`links, repo`notes
      ensures Valid() && Repr == old(Repr)
      ensures (Abs(), out) == WriteThrough.Delete(old(Abs()), uuid, fault)
      ensures repo.Abs() == DeleteCheck(old(repo.Abs()), uuid, fault).0
    {
      hide RowOf, Record.View, Record.Footprint, NotesWithout;
      out := repo.RemoveCheck(uuid, fault);
      if out == Done {
        checks := checks - {uuid};
        assert Map() == old(Map()) - {uuid};
      }
    }

    /** A deep copy of one entry at the end of a list of copies. */
    method CopyEntry(id: string, list: seq<Record>, ghost views: seq<Check>, ghost owned: set<object?>)
      returns (more: seq<Record>, ghost moreViews: seq<Check>, ghost moreOwned: set<object?>)
      requires Valid() && id in Map() && Separate(list, views, owned)
      ensures Separate(more, moreViews, moreOwned) && moreViews == views + [Map()[id]]
      ensures moreOwned >= owned && fresh(moreOwned - owned)
    {
      hide Record.View, Record.Footprint, Separate;
      more, moreViews, moreOwned := CopyOnto(checks[id], list, views, owned);
    }

    method CopyInOrder(ids: seq<string>)
      returns (list: seq<Record>, ghost views: seq<Check>, ghost owned: set<object?>)
      requires Valid() && forall id :: id in ids ==> id in Map()
      ensures Separate(list, views, owned) && forall o :: o in owned ==> fresh(o)
      ensures |views| == |ids| && Follows(views, Map(), ids)
    {
      list, views, owned := [], [], {};
      ghost var m := Map();
      assert Separate(list, views, owned) && Follows(views, m, ids);
      hide Record.View, Record.Footprint, Separate, Follows, StateCache.Valid, StateCache.Map;
      for i := 0 to |ids|
        invariant (forall o :: o in owned ==> fresh(o)) && Separate(list, views, owned)
        invariant Map() == m && |views| == i && Follows(views, m, ids)
      {
        FollowsOneMore(views, m, ids);
        list, views, owned := CopyEntry(ids[i], list, views, owned);
      }
    }

    /** Deep copies of every record, in any order: Snapshot, and what WithWriteLock hands to its callback. */
    method Copies() returns (list: seq<Record>, ghost views: seq<Check>, ghost order: seq<string>, ghost owned: set<object?>)
      requires Valid()
      ensures fresh(owned) && owned !! Repr && Separate(list, views, owned)
      ensures Enumerates(views, Map(), order)
    {
      var ids := AnyOrder(checks.Keys);
      order := ids;
      assert Map().Keys == checks.Keys;
      hide Record.View, Record.Footprint, Separate, Follows, StateCache.Valid, StateCache.Map;
      list, views, owned := CopyInOrder(ids);
    }

    /** One scanned row as an entry of the map. */
    method KeepRow(r: Row)
      requires Valid() && Scan(r).Some?
      modifies this`checks, this`Repr
      ensures Valid() && Repr >= old(Repr) && fresh(Repr - old(Repr))
      ensures Map() == old(Map())[r.id := Scan(r).value]
    {
      ScanId(r);
      hide Record.View, Record.Footprint, Scan;
      var c := new Record.Of(Scan(r).value);
      assert Valid() && Map() == old(Map());
      hide StateCache.Valid, StateCache.Map;
      Keep(c);
    }

    /** Fills an empty map with the rows, in any order. */
    method KeepRows(rows: map<string, Row>)
      requires Valid() && Map() == map[] && forall id :: id in rows ==> rows[id].id == id && Scan(rows[id]).Some?
      modifies this`checks, this`Repr
      ensures Valid() && Repr >= old(Repr) && fresh(Repr - old(Repr))
      ensures Map() == ScannedRows(rows, rows.Keys)
    {
      hide StateCache.Valid, StateCache.Map, Scan;
      var todo := rows.Keys;
      ghost var read: set<string> := {};
      assert ScannedRows(rows, read) == map[];
      hide ScannedRows;
      while todo != {}
        invariant Valid() && Repr >= old(Repr) && fresh(Repr - old(Repr))
        invariant read + todo == rows.Keys && Map() == ScannedRows(rows, read)
        decreases |todo|
      {
        var id :| id in todo;
        ScannedMore(rows, read, id);
        KeepRow(rows[id]);
        todo, read := todo - {id}, read + {id};
      }
      assert read == rows.Keys;
    }

    /** Hydrate: replaces the map by the rows of the table; on any error the map stays. */
    method Hydrate(fault: bool) returns (ok: bool)
      requires Valid() && forall id :: id in repo.checks ==> repo.checks[id].id == id
      modifies this`checks, this`Repr
      ensures Valid() && Repr >= old(Repr) && fresh(Repr - old(Repr))
      ensures ok <==> !fault && WriteThrough.Hydrate(repo.checks).Some?
      ensures Map() == if ok then WriteThrough.Hydrate(repo.checks).value else old(Map())
    {
      hide Record.View, Record.Footprint, Scan;
      if fault || exists id :: id in repo.checks && Scan(repo.checks[id]).None? {
        return false;
      }
      checks := map[];
      assert Valid() && Map() == map[];
      ScannedAll(repo.checks);
      hide StateCache.Valid, StateCache.Map, ScannedRows, WriteThrough.Hydrate;
      KeepRows(repo.checks);
      ok := true;
    }
  }

  /** The records of some rows, all of which scan. */
  ghost function ScannedRows(rows: map<string, Row>, ids: set<string>): map<string, Check>
    requires ids <= rows.Keys && forall id :: id in rows ==> Scan(rows[id]).Some?
  {
    map id | id in ids :: Scan(rows[id]).value
  }

  lemma ScannedMore(rows: map<string, Row>, ids: set<string>, id: string)
    requires ids <= rows.Keys && id in rows && forall id :: id in rows ==> Scan(rows[id]).Some?
    ensures ScannedRows(rows, ids + {id}) == ScannedRows(rows, ids)[id := Scan(rows[id]).value]
  {
    hide Scan;
  }

  lemma ScannedAll(rows: map<string, Row>)
    requires forall id :: id in rows ==> Scan(rows[id]).Some?
    ensures WriteThrough.Hydrate(rows) == Some(ScannedRows(rows, rows.Keys))
  {
    hide Scan;
  }

  lemma ScanId(r: Row)
    ensures Scan(r).Some? ==> Scan(r).value.id == r.id
  {
  }
}
