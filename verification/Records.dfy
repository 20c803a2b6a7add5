/** Check records on the heap: a struct whose optional fields are pointers to cells. */
module Records {
  import opened Text
  import opened TimeCodec
  import opened Model

  class Cell<T> {
    var value: T

    constructor (v: T)
      ensures value == v
    {
      value := v;
    }
  }

  function Read<T>(c: Cell?<T>): Option<T>
    reads c
  {
    if c == null then None else Some(c.value)
  }

  method NewCell<T>(v: Option<T>) returns (c: Cell?<T>)
    ensures Read(c) == v && (c != null ==> fresh(c))
  {
    if v.None? {
      c := null;
    } else {
      c := new Cell(v.value);
    }
  }

  class Record {
    var id: string
    var name: string
    var slug: Cell?<string>
    var schedule: string
    var grace: nat
    var status: Status
    var prePauseStatus: Cell?<Status>
    var lastPingAt: Cell?<Instant>
    var nextExpectedAt: Cell?<Instant>
    var createdAt: Instant
    var updatedAt: Instant
    var tags: string
    var notifyOnFail: bool

    /** The value this record denotes. */
    function View(): Check
      reads this, slug, prePauseStatus, lastPingAt, nextExpectedAt
    {
      Check(id, name, Read(slug), schedule, grace, status, Read(prePauseStatus), Read(lastPingAt),
            Read(nextExpectedAt), createdAt, updatedAt, tags, notifyOnFail)
    }

    /** The record and its pointer cells: everything a holder of the pointer can reach (nil left out). */
    ghost function Footprint(): set<object?>
      reads this
    {
      {this, slug, prePauseStatus, lastPingAt, nextExpectedAt} - {null}
    }

    /** The two time fields do not share a cell. */
    ghost predicate Unshared()
      reads this
    {
      lastPingAt == null || lastPingAt != nextExpectedAt
    }

    /** A record with the given value, all of it newly allocated. */
    constructor Of(c: Check)
      ensures fresh(Footprint()) && View() == c && Unshared()
    {
      id, name, schedule, grace, status := c.id, c.name, c.schedule, c.grace, c.status;
      createdAt, updatedAt, tags, notifyOnFail := c.createdAt, c.updatedAt, c.tags, c.notifyOnFail;
      slug, prePauseStatus, lastPingAt, nextExpectedAt := null, null, null, null;
      new;
      slug := NewCell(c.slug);
      prePauseStatus := NewCell(c.prePauseStatus);
      lastPingAt := NewCell(c.lastPingAt);
      nextExpectedAt := NewCell(c.nextExpectedAt);
    }

    /** A struct copy of `c` with the given pointer fields, which hold what those of `c` hold. */
    constructor Like(c: Record, slug: Cell?<string>, prePauseStatus: Cell?<Status>, lastPingAt: Cell?<Instant>, nextExpectedAt: Cell?<Instant>)
      requires Read(slug) == Read(c.slug) && Read(prePauseStatus) == Read(c.prePauseStatus)
      requires Read(lastPingAt) == Read(c.lastPingAt) && Read(nextExpectedAt) == Read(c.nextExpectedAt)
      ensures View() == c.View() && Footprint() == {this, slug, prePauseStatus, lastPingAt, nextExpectedAt} - {null}
      ensures Unshared() <==> lastPingAt == null || lastPingAt != nextExpectedAt
    {
      id, name, schedule, grace, status := c.id, c.name, c.schedule, c.grace, c.status;
      createdAt, updatedAt, tags, notifyOnFail := c.createdAt, c.updatedAt, c.tags, c.notifyOnFail;
      this.slug, this.prePauseStatus := slug, prePauseStatus;
      this.lastPingAt, this.nextExpectedAt := lastPingAt, nextExpectedAt;
    }
  }

  /** A new cell with the same contents, or nil for nil. */
  method CloneCell<T>(c: Cell?<T>) returns (cp: Cell?<T>)
    ensures Read(cp) == Read(c) && (cp != null ==> fresh(cp))
  {
    cp := null;
    if c != null {
      cp := new Cell(c.value);
    }
  }

  /** cloneCheck: a deep copy; no object of it existed before. */
  method CloneCheck(c: Record) returns (cp: Record)
    ensures fresh(cp.Footprint()) && cp.View() == c.View() && cp.Unshared()
  {
    var slug := CloneCell(c.slug);
    var prePauseStatus := CloneCell(c.prePauseStatus);
    var lastPingAt := CloneCell(c.lastPingAt);
    var nextExpectedAt := CloneCell(c.nextExpectedAt);
    hide Record.View, Record.Footprint, Record.Unshared;
    cp := new Record.Like(c, slug, prePauseStatus, lastPingAt, nextExpectedAt);
  }
}
