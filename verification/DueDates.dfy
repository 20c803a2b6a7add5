/** What every deadline is, in any interleaved run. */
module DueDates {
  import opened Text
  import opened TimeCodec
  import opened Schedule
  import opened Model
  import opened CheckRows
  import opened Transitions
  import opened WriteThrough
  import opened Protocol
  import opened Coherence
  import opened Entries
  import opened StatusHistory
  import opened Deadlines

  /** Where a deadline comes from: the schedule, counted from a reference, or a start ping. */
  datatype Source = Counted(ref: Instant) | Extended(now: Instant)

  /** Counted: the grace, in minutes of 60 seconds, after the first occurrence later than the reference. Extended: the
      grace after the start ping, to the nanosecond or, once read back from the table, to the second. */
  ghost predicate Due(cal: Calendar, c: Check, src: Source)
  {
    && c.nextExpectedAt.Some?
    && var d, grace := c.nextExpectedAt.value, c.grace * 60_000_000_000;
       match src
       case Counted(ref) => d >= grace && IsLeastAfter(cal, c.schedule, ref, d - grace)
       case Extended(now) => d == now + grace || d == now + grace - (now + grace) % 1_000_000_000
  }

  /** The source after a request on a record: a start ping's own reading, a completion's own reading, the last ping for an
      edit or its reading if there was none; a pause keeps the source. */
  function Sourced(base: Check, req: Request, src: Source): Source
  {
    match req
    case Ping(_, Start, now) => Extended(now)
    case Ping(_, _, now) => Counted(now)
    case Edit(_, _, now) => Counted(if base.lastPingAt.Some? then base.lastPingAt.value else now)
    case TogglePause(_, _) => src
  }

  lemma CountedDue(cal: Calendar, c: Check, ref: Instant)
    requires Validate(cal, c.schedule) && c.nextExpectedAt == NextExpectedAt(cal, c.schedule, c.grace, ref)
    ensures Due(cal, c, Counted(ref))
  {
    hide NextExpectedAt, IsLeastAfter, Lawful;
    DeadlineExactly(cal, c.schedule, c.grace, ref, if c.nextExpectedAt.Some? then c.nextExpectedAt.value else 0);
  }

  lemma RespondDue(cal: Calendar, c: Check, req: Request, src: Source)
    requires WellFormed(cal, c) && Due(cal, c, src) && Respond(cal, c, req).Some?
    ensures Due(cal, Respond(cal, c, req).value, Sourced(c, req, src))
  {
    var d := Respond(cal, c, req).value;
    RespondWellFormed(cal, c, req);
    if (req.Ping? && req.kind != Start) || req.Edit? {
      var ref := Sourced(c, req, src).ref;
      assert d.nextExpectedAt == NextExpectedAt(cal, d.schedule, d.grace, ref) by {
        if req.Ping? {
          DeadlineShape(cal, c.schedule, c.grace, req.now);
        }
        hide NextExpectedAt, ParseCheckForm, Lawful;
      }
      hide Respond, ParseCheckForm, NextExpectedAt, IsLeastAfter, Lawful;
      CountedDue(cal, d, ref);
    }
  }

  lemma FlooredDue(cal: Calendar, c: Check, src: Source)
    requires Due(cal, c, src)
    ensures Due(cal, Floored(c), src)
  {
    var d, grace := c.nextExpectedAt.value, c.grace * MINUTE;
    assert Floored(c).nextExpectedAt == Some(Floor(d)) && Floored(c).schedule == c.schedule && Floored(c).grace == c.grace;
    match src
    case Counted(ref) =>
      WholeMinutes(d - grace, c.grace);
      assert Floor(d) == d;
      hide Floor, IsLeastAfter, Floored;
    case Extended(now) =>
      FloorTwice(now + grace);
      hide Floored;
  }

  lemma FloorTwice(t: Instant)
    ensures Floor(t) == t - t % 1_000_000_000 && Floor(Floor(t)) == Floor(t)
  {
    var k := t / SECOND;
    assert Floor(t) == k * SECOND && k * SECOND % SECOND == 0;
  }

  lemma NewDue(cal: Calendar, id: string, form: Form, now: Instant)
    requires ParseCheckForm(cal, form).Some?
    ensures var c := NewCheck(cal, id, ParseCheckForm(cal, form).value, now); c.Some? && c.value.id == id && Due(cal, c.value, Counted(now))
  {
    var f := ParseCheckForm(cal, form).value;
    NewCheckWellFormed(cal, id, form, now);
    hide ParseCheckForm, IsLeastAfter, Lawful;
    var c := NewCheck(cal, id, f, now).value;
    assert c.nextExpectedAt == NextExpectedAt(cal, c.schedule, c.grace, now) by { hide NextExpectedAt; }
    hide NewCheck, NextExpectedAt;
    CountedDue(cal, c, now);
  }

  // Sources in a run: a commit has the source that was in force when its record was read.

  /** The source of the deadline in the entry of a check. */
  ghost function SourceOf(cal: Calendar, evs: seq<Event>, id: string): Source
    decreases |evs|
  {
    if evs == [] then Counted(0) else
    var p, e := evs[..|evs| - 1], evs[|evs| - 1];
    var w := Writing(cal, Run(cal, p), e, id);
    if w.Some? then Sourced(w.value.base, w.value.req, if e.Commit? then ReadSource(cal, p, e.rid) else SourceOf(cal, p, id))
    else if e.CreateCheck? && id !in Run(cal, p).st.cache then Counted(e.now)
    else SourceOf(cal, p, id)
  }

  /** The source of the deadline in the record that a request in hand has read. */
  ghost function ReadSource(cal: Calendar, evs: seq<Event>, rid: nat): Source
    decreases |evs|
  {
    if evs == [] then Counted(0) else
    var p, e := evs[..|evs| - 1], evs[|evs| - 1];
    if e.Begin? && e.rid == rid && rid !in Run(cal, p).pending then SourceOf(cal, p, e.req.id) else ReadSource(cal, p, rid)
  }

  ghost predicate AllDue(cal: Calendar, evs: seq<Event>)
  {
    && (forall id :: id in Run(cal, evs).st.cache ==> Due(cal, Run(cal, evs).st.cache[id], SourceOf(cal, evs, id)))
    && (forall r :: r in Run(cal, evs).pending ==> Due(cal, Run(cal, evs).pending[r].base, ReadSource(cal, evs, r)))
  }

  lemma EntryDue(cal: Calendar, evs: seq<Event>, id: string)
    requires evs != [] && AllDue(cal, evs[..|evs| - 1]) && id in Run(cal, evs).st.cache
    ensures Due(cal, Run(cal, evs).st.cache[id], SourceOf(cal, evs, id))
  {
    var p, e := evs[..|evs| - 1], evs[|evs| - 1];
    var s := Run(cal, p);
    RunInv(cal, p);
    RunLast(cal, evs);
    hide Run, Step, Inv, Due, Sourced, Respond, WellFormed, Look, EntryAfter, Floored, MarkDown;
    var w := Writing(cal, s, e, id);
    if w.Some? {
      hide Writing;
      WrittenEntry(cal, s, e, id);
      WrittenAfter(cal, s, e, id);
      if e.Atomic? {
        AtomicBase(cal, s, e, id);
      } else {
        CommitBase(cal, s, e, id);
      }
      RespondDue(cal, w.value.base, w.value.req, if e.Commit? then ReadSource(cal, p, e.rid) else SourceOf(cal, p, id));
    } else if id in s.st.cache {
      EntryStep(cal, s, e, id);
      UnwrittenEntry(cal, s, e, id);
      FlooredDue(cal, s.st.cache[id], SourceOf(cal, p, id));
      MarkedDue(cal, s.st.cache[id], if e.Evaluate? then e.now else 0, SourceOf(cal, p, id));
    } else {
      AppearsDue(cal, s, e, id);
    }
  }

  lemma CommitBase(cal: Calendar, s: State, e: Event, id: string)
    requires e.Commit? && Writing(cal, s, e, id).Some?
    ensures e.rid in s.pending && Writing(cal, s, e, id).value == s.pending[e.rid]
  {
  }

  lemma MarkedDue(cal: Calendar, c: Check, now: Instant, src: Source)
    requires Due(cal, c, src)
    ensures Due(cal, MarkDown(c, now), src)
  {
  }

  lemma AppearsDue(cal: Calendar, s: State, e: Event, id: string)
    requires Inv(cal, s) && id !in s.st.cache && id in Step(cal, s, e).st.cache
    ensures e.CreateCheck? && Due(cal, Step(cal, s, e).st.cache[id], Counted(e.now))
  {
    Appears(cal, s, e, id);
    hide Due, NewCheck, ParseCheckForm, RowOf;
    if ParseCheckForm(cal, e.form).Some? {
      NewDue(cal, e.id, e.form, e.now);
    }
  }

  lemma ReadDue(cal: Calendar, evs: seq<Event>, rid: nat)
    requires evs != [] && AllDue(cal, evs[..|evs| - 1]) && rid in Run(cal, evs).pending
    ensures Due(cal, Run(cal, evs).pending[rid].base, ReadSource(cal, evs, rid))
  {
    var p, e := evs[..|evs| - 1], evs[|evs| - 1];
    var s := Run(cal, p);
    RunLast(cal, evs);
    hide Run, Due, Respond, SourceOf;
    hide Write, Pass, Look, NewCheck, ParseCheckForm, Hydrate, Create, Delete, WriteThrough.Set;
    if rid in s.pending {
      hide Step;
      StillRead(cal, s, e, rid);
    } else {
      NewlyRead(cal, s, e, rid);
    }
  }

  lemma NewlyRead(cal: Calendar, s: State, e: Event, rid: nat)
    requires rid !in s.pending && rid in Step(cal, s, e).pending
    ensures e.Begin? && e.rid == rid && e.req.id in s.st.cache && Step(cal, s, e).pending[rid].base == s.st.cache[e.req.id]
  {
    hide Respond, NewCheck, ParseCheckForm, Hydrate, Create, Delete, Tick, Expired, AlertsFor, Call, WriteThrough.Set;
  }

  lemma StillRead(cal: Calendar, s: State, e: Event, rid: nat)
    requires rid in s.pending && rid in Step(cal, s, e).pending
    ensures Step(cal, s, e).pending[rid].base == s.pending[rid].base
  {
    hide Look, NewCheck, ParseCheckForm, Hydrate, Create, Delete, Tick, Expired, AlertsFor, Call, WriteThrough.Set;
  }

  /** In every interleaved run the deadline of every check, and of every record a request holds, is exactly what its source
      says: the grace after the first occurrence later than the last completion, or than the last ping or reading of an
      edit, or than the creation, or the grace after a start ping. */
  lemma {:induction false} DeadlineMeaning(cal: Calendar, evs: seq<Event>)
    ensures AllDue(cal, evs)
  {
    if evs != [] {
      var p := evs[..|evs| - 1];
      DeadlineMeaning(cal, p);
      hide Run, Due, SourceOf, ReadSource;
      forall id | id in Run(cal, evs).st.cache ensures Due(cal, Run(cal, evs).st.cache[id], SourceOf(cal, evs, id)) {
        EntryDue(cal, evs, id);
      }
      forall r | r in Run(cal, evs).pending ensures Due(cal, Run(cal, evs).pending[r].base, ReadSource(cal, evs, r)) {
        ReadDue(cal, evs, r);
      }
    }
  }
}
