/** The cache map and the checks table as one value, and what each cache operation does to the pair. */
module WriteThrough {
  import opened Text
  import opened TimeCodec
  import opened Model
  import opened CheckRows
  import opened Transitions

  datatype Stores = Stores(cache: map<string, Check>, rows: map<string, Row>)

  datatype Outcome = Done | NotFound | Failed

  /** UPDATE … WHERE id = ?; a faulty statement changes nothing. */
  function Update(rows: map<string, Row>, c: Check, fault: bool): (map<string, Row>, Outcome)
  {
    if fault then (rows, Failed)
    else if c.id !in rows then (rows, NotFound)
    else (rows[c.id := Updated(rows[c.id], c)], Done)
  }

  /** INSERT; the primary key refuses an id that is present. */
  function Insert(rows: map<string, Row>, c: Check, fault: bool): (map<string, Row>, Outcome)
  {
    if fault || c.id in rows then (rows, Failed) else (rows[c.id := RowOf(c)], Done)
  }

  function Remove(rows: map<string, Row>, id: string, fault: bool): (map<string, Row>, Outcome)
  {
    if fault then (rows, Failed)
    else if id !in rows then (rows, NotFound)
    else (rows - {id}, Done)
  }

  function Set(s: Stores, c: Check, fault: bool): (Stores, Outcome)
  {
    var (rows, out) := Update(s.rows, c, fault);
    (Stores(if out == Done then s.cache[c.id := c] else s.cache, rows), out)
  }

  function Create(s: Stores, c: Check, fault: bool): (Stores, Outcome)
  {
    var (rows, out) := Insert(s.rows, c, fault);
    (Stores(if out == Done then s.cache[c.id := c] else s.cache, rows), out)
  }

  function Delete(s: Stores, id: string, fault: bool): (Stores, Outcome)
  {
    var (rows, out) := Remove(s.rows, id, fault);
    (Stores(if out == Done then s.cache - {id} else s.cache, rows), out)
  }

  /** What each write does to the pair, entry by entry, and when it succeeds. */
  lemma WritesExactly(s: Stores, c: Check, id: string, fault: bool)
    ensures var (t, out) := Set(s, c, fault);
            && out == (if fault then Failed else if c.id in s.rows then Done else NotFound)
            && (out != Done ==> t == s)
            && (out == Done ==>
                  && t.cache == s.cache[c.id := c]
                  && t.rows == s.rows[c.id := RowOf(c).(id := s.rows[c.id].id, createdAt := s.rows[c.id].createdAt)])
    ensures var (t, out) := Create(s, c, fault);
            && out == (if fault || c.id in s.rows then Failed else Done)
            && (out != Done ==> t == s)
            && (out == Done ==> t.cache == s.cache[c.id := c] && t.rows == s.rows[c.id := RowOf(c)])
    ensures var (t, out) := Delete(s, id, fault);
            && out == (if fault then Failed else if id in s.rows then Done else NotFound)
            && (out != Done ==> t == s)
            && (out == Done ==> t.cache == s.cache - {id} && t.rows == s.rows - {id})
  {
    hide RowOf;
  }

  /** The checks an evaluation pass takes down: overdue ones whose update succeeds. */
  predicate Expires(s: Stores, id: string, now: Instant, faults: set<string>)
  {
    id in s.cache && Overdue(s.cache[id], now) && id in s.rows && id !in faults
  }

  function Expired(s: Stores, now: Instant, faults: set<string>): set<string>
  {
    set id | id in s.cache && Expires(s, id, now, faults)
  }

  /** One evaluation pass, as a pointwise map. */
  function Tick(s: Stores, now: Instant, faults: set<string>): Stores
  {
    Stores(
      map id | id in s.cache :: if Expires(s, id, now, faults) then MarkDown(s.cache[id], now) else s.cache[id],
      map id | id in s.rows ::
        if Expires(s, id, now, faults) then Updated(s.rows[id], MarkDown(s.cache[id], now)) else s.rows[id])
  }

  /** Hydrate: the map rebuilt from the table; None when some row does not scan. */
  function Hydrate(rows: map<string, Row>): Option<map<string, Check>>
  {
    if forall id :: id in rows ==> Scan(rows[id]).Some? then
      Some(map id | id in rows :: Scan(rows[id]).value)
    else None
  }

  /** Cache and table agree: same ids, and each row is its cache entry written as text. */
  ghost predicate Coherent(s: Stores)
  {
    && s.cache.Keys == s.rows.Keys
    && forall id :: id in s.cache ==> s.cache[id].id == id && s.rows[id] == RowOf(s.cache[id])
  }

  /** A write keeps coherence when the record carries the creation time of the entry it replaces. */
  lemma SetCoherent(s: Stores, c: Check, fault: bool)
    requires Coherent(s)
    requires c.id in s.cache ==> FormatTime(c.createdAt) == FormatTime(s.cache[c.id].createdAt)
    ensures Coherent(Set(s, c, fault).0)
    ensures Set(s, c, fault).1 == Done <==> !fault && c.id in s.cache
  {
    hide RowOf, Updated;
    if c.id in s.cache {
      UpdatedKeepsCreation(s.cache[c.id], c);
    }
  }

  /** … and only then: any other record leaves the table with the old creation time. */
  lemma SetIncoherent(s: Stores, c: Check)
    requires Coherent(s) && c.id in s.cache
    requires FormatTime(c.createdAt) != FormatTime(s.cache[c.id].createdAt)
    ensures !Coherent(Set(s, c, false).0)
  {
    var t := Set(s, c, false).0;
    assert t.rows[c.id].createdAt == s.rows[c.id].createdAt;
  }

  lemma TickCoherent(s: Stores, now: Instant, faults: set<string>)
    requires Coherent(s)
    ensures Coherent(Tick(s, now, faults))
  {
    var t := Tick(s, now, faults);
    forall id | id in t.cache
      ensures t.cache[id].id == id && t.rows[id] == RowOf(t.cache[id])
    {
      if Expires(s, id, now, faults) {
        UpdatedKeepsCreation(s.cache[id], t.cache[id]);
      }
    }
  }

  lemma EntryReadsBack(s: Stores, id: string)
    requires Coherent(s) && id in s.cache
    ensures Scan(s.rows[id]) == if Datable(s.cache[id]) then Some(Floored(s.cache[id])) else None
    ensures RowOf(Floored(s.cache[id])) == s.rows[id] && Floored(s.cache[id]).id == id
  {
    ScanRow(s.cache[id]);
    RowOfFloored(s.cache[id]);
  }

  /** A rebuilt cache is the old one without sub-second parts, and is coherent with the unchanged table. */
  lemma HydrateCoherent(s: Stores)
    requires Coherent(s)
    ensures Hydrate(s.rows).Some? <==> forall id :: id in s.cache ==> Datable(s.cache[id])
    ensures Hydrate(s.rows).Some? ==>
              && Hydrate(s.rows).value == (map id | id in s.cache :: Floored(s.cache[id]))
              && Coherent(Stores(Hydrate(s.rows).value, s.rows))
  {
    hide Scan, RowOf, Datable, Floored;
    forall id | id in s.cache
      ensures Scan(s.rows[id]) == if Datable(s.cache[id]) then Some(Floored(s.cache[id])) else None
      ensures RowOf(Floored(s.cache[id])) == s.rows[id] && Floored(s.cache[id]).id == id
    {
      EntryReadsBack(s, id);
    }
  }
}
