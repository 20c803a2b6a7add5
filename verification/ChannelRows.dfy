/** The rows of one check on one channel: what becomes of the alerts for it, whatever happens to other checks and channels. */
module ChannelRows {
  import opened Text
  import TimeCodec
  import opened Model
  import opened Tables
  import opened Integrity
  import opened AlertQueue
  import opened Pipeline

  /** The event is for the check on the channel. */
  predicate To(ev: AlertEvent, id: string, h: nat)
  {
    ev.check.id == id && ev.channel.id == h
  }

  /** The alerts for a check on a channel, in order. */
  function AlertsTo(events: seq<AlertEvent>, id: string, h: nat): seq<AlertType>
  {
    if events == [] then [] else
    var last := events[|events| - 1];
    AlertsTo(events[..|events| - 1], id, h) + if To(last, id, h) then [last.alert] else []
  }

  /** The rows of a check on a channel, in order. */
  function RowsTo(notes: seq<Note>, id: string, h: nat): seq<AlertType>
  {
    if notes == [] then [] else
    var last := notes[|notes| - 1];
    RowsTo(notes[..|notes| - 1], id, h) + if last.check == id && last.channel == Some(h) then [last.alert] else []
  }

  lemma {:induction false} AlertsJoin(a: seq<AlertEvent>, b: seq<AlertEvent>, id: string, h: nat)
    ensures AlertsTo(a + b, id, h) == AlertsTo(a, id, h) + AlertsTo(b, id, h)
  {
    if b == [] {
      assert a + b == a;
    } else {
      assert (a + b)[..|a + b| - 1] == a + b[..|b| - 1];
      AlertsJoin(a, b[..|b| - 1], id, h);
      hide To;
    }
  }

  lemma RowsMore(notes: seq<Note>, n: Note, id: string, h: nat)
    ensures RowsTo(notes + [n], id, h) == RowsTo(notes, id, h) + if n.check == id && n.channel == Some(h) then [n.alert] else []
  {
    assert (notes + [n])[..|notes|] == notes;
  }

  lemma AlertsMore(events: seq<AlertEvent>, ev: AlertEvent, id: string, h: nat)
    ensures AlertsTo(events + [ev], id, h) == AlertsTo(events, id, h) + if To(ev, id, h) then [ev.alert] else []
  {
    assert (events + [ev])[..|events|] == events;
    hide To;
  }

  /** The step does no harm to the check's rows on the channel: neither is deleted, and the first write for such an
      event goes through. */
  predicate Harmless(p: State, e: Event, id: string, h: nat)
  {
    match e
    case Record(luck) => p.inFlight.Some? && To(p.inFlight.value, id, h) ==> !luck.fault
    case Other(stmt, fault) => stmt == DropCheck(id) || stmt == DropChannel(h) ==> fault
    case _ => true
  }

  predicate Spares(p: State, e: Event, id: string, h: nat)
  {
    Harmless(p, e, id, h) && (e.Other? ==> NilSlug(e.stmt))
  }

  predicate SparesAll(p: State, events: seq<Event>, id: string, h: nat)
  {
    events != [] ==>
      var most := events[..|events| - 1];
      SparesAll(p, most, id, h) && Spares(Run(p, most), events[|events| - 1], id, h)
  }

  predicate Stored(db: Db, id: string, h: nat)
  {
    id in db.checks && h in db.channels
  }

  ghost predicate StoredIfListed(db: Db, enlisted: seq<AlertEvent>, id: string, h: nat)
  {
    forall ev :: ev in enlisted && To(ev, id, h) ==> Stored(db, id, h)
  }

  /** The rows so far are those of before and one for each alert dispatched, in order. */
  ghost predicate Follows(p: State, first: Db, id: string, h: nat)
  {
    && Sound(p.db) && StoredIfListed(p.db, p.enlisted, id, h)
    && RowsTo(p.db.notes, id, h) == RowsTo(first.notes, id, h) + AlertsTo(EventsOf(p.dispatched), id, h)
  }

  // What the statements leave of the rows.

  lemma WithoutLast(notes: seq<Note>, other: string)
    requires notes != []
    ensures var most, last := notes[..|notes| - 1], notes[|notes| - 1];
            notes == most + [last] && NotesWithout(notes, other) == if last.check == other then NotesWithout(most, other) else NotesWithout(most, other) + [last]
  {
    var most := notes[..|notes| - 1];
    assert NotesWithout(most, other) + [] == NotesWithout(most, other);
  }

  lemma {:induction false} WithoutRows(notes: seq<Note>, other: string, id: string, h: nat)
    requires other != id
    ensures RowsTo(NotesWithout(notes, other), id, h) == RowsTo(notes, id, h)
  {
    if notes != [] {
      hide *;
      var most, last := notes[..|notes| - 1], notes[|notes| - 1];
      WithoutLast(notes, other);
      WithoutRows(most, other, id, h);
      RowsMore(NotesWithout(most, other), last, id, h);
      RowsMore(most, last, id, h);
    }
  }

  lemma {:induction false} UnlinkedRows(notes: seq<Note>, other: nat, id: string, h: nat)
    requires other != h
    ensures RowsTo(NotesUnlinked(notes, other), id, h) == RowsTo(notes, id, h)
  {
    if notes != [] {
      var most, last := notes[..|notes| - 1], notes[|notes| - 1];
      UnlinkedRows(most, other, id, h);
      var all := NotesUnlinked(notes, other);
      assert all[..|all| - 1] == NotesUnlinked(most, other);
    }
  }

  lemma StatementRows(db: Db, stmt: Statement, fault: bool, id: string, h: nat)
    requires !stmt.Deliver? && (stmt == DropCheck(id) || stmt == DropChannel(h) ==> fault)
    ensures var t := Execute(db, stmt, fault);
            RowsTo(t.notes, id, h) == RowsTo(db.notes, id, h) && (Stored(db, id, h) ==> Stored(t, id, h))
  {
    match stmt {
      case DropCheck(other) => DropCheckRows(db, other, fault, id, h);
      case DropChannel(other) => DropChannelRows(db, other, fault, id, h);
      case _ => OtherRows(db, stmt, fault, id, h);
    }
  }

  lemma DropCheckRows(db: Db, other: string, fault: bool, id: string, h: nat)
    requires other == id ==> fault
    ensures var t := DeleteCheck(db, other, fault).0;
            RowsTo(t.notes, id, h) == RowsTo(db.notes, id, h) && (Stored(db, id, h) ==> Stored(t, id, h))
  {
    if other != id {
      WithoutRows(db.notes, other, id, h);
    }
    hide RowsTo, NotesWithout;
  }

  lemma DropChannelRows(db: Db, other: nat, fault: bool, id: string, h: nat)
    requires other == h ==> fault
    ensures var t := DeleteChannel(db, other, fault).0;
            RowsTo(t.notes, id, h) == RowsTo(db.notes, id, h) && (Stored(db, id, h) ==> Stored(t, id, h))
  {
    if other != h {
      UnlinkedRows(db.notes, other, id, h);
    }
    hide RowsTo, NotesUnlinked;
  }

  lemma OtherRows(db: Db, stmt: Statement, fault: bool, id: string, h: nat)
    requires !stmt.Deliver? && !stmt.DropCheck? && !stmt.DropChannel?
    ensures var t := Execute(db, stmt, fault); t.notes == db.notes && (Stored(db, id, h) ==> Stored(t, id, h))
  {
    hide Recent;
  }

  lemma DispatchRows(db: Db, ev: AlertEvent, luck: Luck, id: string, h: nat)
    requires To(ev, id, h) ==> Stored(db, id, h) && !luck.fault
    ensures var t := Dispatch(db, ev, luck);
            && RowsTo(t.notes, id, h) == RowsTo(db.notes, id, h) + (if To(ev, id, h) then [ev.alert] else [])
            && (Stored(db, id, h) ==> Stored(t, id, h))
  {
    hide Dispatch, TimeCodec.FormatTime, RowsTo;
    DispatchRecords(db, ev, luck);
    var t := Dispatch(db, ev, luck);
    if t != db {
      var n := t.notes[|db.notes|];
      assert t.notes == db.notes + [n];
      RowsMore(db.notes, n, id, h);
    }
  }

  // Listing.

  lemma ListedStored(db: Db, job: Job, fault: bool, id: string, h: nat)
    requires Sound(db)
    ensures var l := Listing(job, if fault then None else Some(ListChannels(db, job.check.id)));
            StoredIfListed(db, EventsOfListing(l), id, h)
  {
    if !fault {
      ListsAttachedOnce(db, job.check.id);
      var r := ListChannels(db, job.check.id);
      forall ev | ev in Events(job.check, r, job.alert) && To(ev, id, h) ensures Stored(db, id, h) {
        hide ListChannels, Older;
        var i :| 0 <= i < |r| && ev == AlertEvent(job.check, r[i], job.alert);
        assert h in Attached(db, id);
        assert (id, h) in db.links;
      }
    }
  }

  lemma StoredMore(db: Db, a: seq<AlertEvent>, b: seq<AlertEvent>, later: Db, id: string, h: nat)
    requires StoredIfListed(db, a, id, h) && StoredIfListed(db, b, id, h) && (Stored(db, id, h) ==> Stored(later, id, h))
    ensures StoredIfListed(later, a + b, id, h) && StoredIfListed(later, a, id, h)
  {
    hide To, Stored;
  }

  lemma InFlightEnlisted(p: State)
    requires Conserved(p) && p.inFlight.Some?
    ensures p.inFlight.value in p.enlisted
  {
    var ev := p.inFlight.value;
    assert ev in p.accepted;
    assert ev in multiset(p.accepted) && ev in multiset(p.attempted) && ev in multiset(p.enlisted);
  }

  // One step.

  lemma RecordStep(p: State, luck: Luck)
    requires p.inFlight.Some? && !p.panicked
    ensures var t, ev := Step(p, Record(luck)), p.inFlight.value;
            && t.db == Dispatch(p.db, ev, luck) && t.enlisted == p.enlisted
            && EventsOf(t.dispatched) == EventsOf(p.dispatched) + [ev]
  {
    hide Dispatch;
    assert Step(p, Record(luck)).dispatched == p.dispatched + [(p.inFlight.value, luck)];
  }

  lemma RecordFollows(p: State, luck: Luck, first: Db, id: string, h: nat)
    requires Conserved(p) && Follows(p, first, id, h) && Spares(p, Record(luck), id, h) && p.inFlight.Some? && !p.panicked
    ensures Follows(Step(p, Record(luck)), first, id, h)
  {
    var ev := p.inFlight.value;
    var t := Step(p, Record(luck));
    RecordStep(p, luck);
    InFlightEnlisted(p);
    hide Sound, Step, RowsTo, AlertsTo, To, Stored, Conserved, Dispatch, EventsOf;
    DispatchRows(p.db, ev, luck, id, h);
    DispatchSound(p.db, ev, luck);
    AlertsMore(EventsOf(p.dispatched), ev, id, h);
    StoredMore(p.db, p.enlisted, [], t.db, id, h);
    RowsJoin(RowsTo(first.notes, id, h), AlertsTo(EventsOf(p.dispatched), id, h), if To(ev, id, h) then [ev.alert] else []);
  }

  lemma RowsJoin(a: seq<AlertType>, b: seq<AlertType>, c: seq<AlertType>)
    ensures a + b + c == a + (b + c)
  {
  }

  lemma OtherFollows(p: State, stmt: Statement, fault: bool, first: Db, id: string, h: nat)
    requires Follows(p, first, id, h) && Spares(p, Other(stmt, fault), id, h) && !stmt.Deliver? && !p.panicked
    ensures Follows(Step(p, Other(stmt, fault)), first, id, h)
  {
    var t := Step(p, Other(stmt, fault));
    assert t == p.(db := Execute(p.db, stmt, fault));
    hide Sound, Step, RowsTo, AlertsTo, To, Stored, Execute, EventsOf;
    StatementRows(p.db, stmt, fault, id, h);
    ExecuteSound(p.db, stmt, fault);
    StoredMore(p.db, p.enlisted, [], t.db, id, h);
  }

  lemma EnlistFollows(p: State, i: nat, fault: bool, first: Db, id: string, h: nat)
    requires Follows(p, first, id, h) && Live(p, i) && p.senders[i].jobs != []
    ensures Follows(Enlisted(p, i, fault), first, id, h)
  {
    var job := p.senders[i].jobs[0];
    var l := Listing(job, if fault then None else Some(ListChannels(p.db, job.check.id)));
    var t := Enlisted(p, i, fault);
    assert t.enlisted == p.enlisted + EventsOfListing(l) && t.db == p.db && t.dispatched == p.dispatched;
    hide Sound, RowsTo, AlertsTo, To, Stored, EventsOf, Enlisted, ListChannels, EventsOfListing;
    ListedStored(p.db, job, fault, id, h);
    StoredMore(p.db, p.enlisted, EventsOfListing(l), p.db, id, h);
  }

  lemma QuietFollows(p: State, e: Event, first: Db, id: string, h: nat)
    requires Follows(p, first, id, h) && !e.Record? && !e.Other? && !e.Enlist?
    ensures Follows(Step(p, e), first, id, h)
  {
    hide Sound, RowsTo, AlertsTo, To, Stored, EventsOf, NoneLive, StoredIfListed;
  }

  lemma StepFollows(p: State, e: Event, first: Db, id: string, h: nat)
    requires Conserved(p) && Follows(p, first, id, h) && Spares(p, e, id, h)
    ensures Follows(Step(p, e), first, id, h)
  {
    hide Follows, Conserved, Spares, Dispatch, Execute, Enlisted, NoneLive;
    if Step(p, e) != p {
      match e {
        case Record(luck) => RecordFollows(p, luck, first, id, h);
        case Other(stmt, fault) => OtherFollows(p, stmt, fault, first, id, h);
        case Enlist(i, fault) => EnlistFollows(p, i, fault, first, id, h);
        case _ => QuietFollows(p, e, first, id, h);
      }
    }
  }

  /** In any run of the pipeline that spares the check and the channel, the check's rows on the channel are those of
      before and one for each of its dispatched alerts, in the order of the dispatches. */
  lemma {:induction false} RowsFollow(db: Db, events: seq<Event>, id: string, h: nat)
    requires Sound(db) && SparesAll(Init(db), events, id, h)
    ensures Follows(Run(Init(db), events), db, id, h)
  {
    if events == [] {
      assert Run(Init(db), events) == Init(db);
      assert RowsTo(db.notes, id, h) + [] == RowsTo(db.notes, id, h);
      hide Sound, Run;
    } else {
      var most := events[..|events| - 1];
      RowsFollow(db, most, id, h);
      RunInvariant(db, most);
      hide Follows, Step, Spares, Conserved, Ordered, Sound;
      StepFollows(Run(Init(db), most), events[|events| - 1], db, id, h);
    }
  }

  /** At the exit they are one for each alert the queue accepted, in the order it accepted them. */
  lemma RowsAtExit(db: Db, events: seq<Event>, id: string, h: nat)
    requires Sound(db) && SparesAll(Init(db), events, id, h) && Run(Init(db), events).main == Exited
    ensures var p := Run(Init(db), events); RowsTo(p.db.notes, id, h) == RowsTo(db.notes, id, h) + AlertsTo(p.accepted, id, h)
  {
    RowsFollow(db, events, id, h);
    ExitMeansDrained(db, events);
    hide Run, SparesAll, Sound, StoredIfListed, RowsTo, AlertsTo;
  }
}
