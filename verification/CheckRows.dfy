/** Rows of the checks table: timestamps are text, booleans are 0 or 1. */
module CheckRows {
  import opened Text
  import opened TimeCodec
  import opened Model

  datatype Row = Row(
    id: string,
    name: string,
    slug: Option<string>,
    schedule: string,
    grace: nat,
    status: Status,
    prePauseStatus: Option<Status>,
    lastPingAt: Option<string>,
    nextExpectedAt: Option<string>,
    createdAt: string,
    updatedAt: string,
    tags: string,
    notifyOnFail: int)

  function FormatTimePtr(t: Option<Instant>): Option<string>
  {
    match t case None => None case Some(v) => Some(FormatTime(v))
  }

  /** The row the INSERT statement writes. */
  function RowOf(c: Check): Row
  {
    Row(c.id, c.name, c.slug, c.schedule, c.grace, c.status, c.prePauseStatus,
        FormatTimePtr(c.lastPingAt), FormatTimePtr(c.nextExpectedAt),
        FormatTime(c.createdAt), FormatTime(c.updatedAt), c.tags, if c.notifyOnFail then 1 else 0)
  }

  /** The UPDATE statement: every column but id and created_at. */
  function Updated(was: Row, c: Check): Row
  {
    RowOf(c).(id := was.id, createdAt := was.createdAt)
  }

  /** Column by column: text and numbers as they are, times as text, the flag as 0 or 1. */
  lemma RowColumns(c: Check)
    ensures var r := RowOf(c);
            && r.id == c.id && r.name == c.name && r.slug == c.slug && r.schedule == c.schedule && r.grace == c.grace
            && r.status == c.status && r.prePauseStatus == c.prePauseStatus && r.tags == c.tags
            && r.createdAt == FormatTime(c.createdAt) && r.updatedAt == FormatTime(c.updatedAt)
            && (c.lastPingAt.Some? ==> r.lastPingAt == Some(FormatTime(c.lastPingAt.value)))
            && (c.nextExpectedAt.Some? ==> r.nextExpectedAt == Some(FormatTime(c.nextExpectedAt.value)))
            && (r.lastPingAt.None? <==> c.lastPingAt.None?) && (r.nextExpectedAt.None? <==> c.nextExpectedAt.None?)
            && (r.notifyOnFail == 1 <==> c.notifyOnFail) && (r.notifyOnFail == 0 <==> !c.notifyOnFail)
  {
    hide FormatTime;
  }

  /** parseTimePtr; the outer option is the parse error. */
  function ParseTimePtr(s: Option<string>): Option<Option<Instant>>
  {
    match s
    case None => Some(None)
    case Some(text) => (match ParseTime(text) case None => None case Some(t) => Some(Some(t)))
  }

  /** scanCheck: None stands for a scan error. */
  function Scan(r: Row): Option<Check>
  {
    var created, updated := ParseTime(r.createdAt), ParseTime(r.updatedAt);
    var last, next := ParseTimePtr(r.lastPingAt), ParseTimePtr(r.nextExpectedAt);
    if created.None? || updated.None? || last.None? || next.None? then None else
    Some(Check(r.id, r.name, r.slug, r.schedule, r.grace, r.status, r.prePauseStatus,
               last.value, next.value, created.value, updated.value, r.tags, r.notifyOnFail != 0))
  }

  function FloorPtr(t: Option<Instant>): Option<Instant>
  {
    match t case None => None case Some(v) => Some(Floor(v))
  }

  /** The record without the sub-second part of its timestamps. */
  function Floored(c: Check): Check
  {
    c.(lastPingAt := FloorPtr(c.lastPingAt), nextExpectedAt := FloorPtr(c.nextExpectedAt),
       createdAt := Floor(c.createdAt), updatedAt := Floor(c.updatedAt))
  }

  /** Every timestamp of the record lies in the years 0 to 9999. */
  predicate Datable(c: Check)
  {
    && YearOf(c.createdAt) <= 9999 && YearOf(c.updatedAt) <= 9999
    && (c.lastPingAt.Some? ==> YearOf(c.lastPingAt.value) <= 9999)
    && (c.nextExpectedAt.Some? ==> YearOf(c.nextExpectedAt.value) <= 9999)
  }

  lemma ParseFormattedPtr(t: Option<Instant>)
    ensures ParseTimePtr(FormatTimePtr(t)) ==
            if t.Some? && YearOf(t.value) > 9999 then None else Some(FloorPtr(t))
  {
    if t.Some? {
      RoundTrip(t.value);
    }
  }

  /** Reading a stored record gives it back floored to the second, precisely when all its years can be written in four digits. */
  lemma ScanRow(c: Check)
    ensures Scan(RowOf(c)) == if Datable(c) then Some(Floored(c)) else None
  {
    RoundTrip(c.createdAt);
    RoundTrip(c.updatedAt);
    ParseFormattedPtr(c.lastPingAt);
    ParseFormattedPtr(c.nextExpectedAt);
  }

  lemma PtrFloorSameText(t: Option<Instant>)
    ensures FormatTimePtr(FloorPtr(t)) == FormatTimePtr(t)
  {
    if t.Some? {
      FloorSameText(t.value);
    }
  }

  /** Flooring a record does not change the row it is stored as. */
  lemma RowOfFloored(c: Check)
    ensures RowOf(Floored(c)) == RowOf(c)
  {
    FloorSameText(c.createdAt);
    FloorSameText(c.updatedAt);
    PtrFloorSameText(c.lastPingAt);
    PtrFloorSameText(c.nextExpectedAt);
  }

  lemma FlooredTwice(c: Check)
    ensures Floored(Floored(c)) == Floored(c)
  {
    hide Floor;
    FloorTwice(c.createdAt);
    FloorTwice(c.updatedAt);
    if c.lastPingAt.Some? {
      FloorTwice(c.lastPingAt.value);
    }
    if c.nextExpectedAt.Some? {
      FloorTwice(c.nextExpectedAt.value);
    }
  }

  /** UPDATE after INSERT equals one INSERT of the new record exactly when id and stored creation time are kept. */
  lemma UpdatedKeepsCreation(c: Check, d: Check)
    ensures Updated(RowOf(c), d) == RowOf(d) <==> c.id == d.id && FormatTime(c.createdAt) == FormatTime(d.createdAt)
  {
  }
}
