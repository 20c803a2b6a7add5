/** From a listed alert to its row: in a run without store faults, drops or deletions, the notification rows written
    between start and exit are one per alert and channel attached when the alert was listed. */
module Delivery {
  import opened Text
  import opened TimeCodec
  import opened Model
  import opened Tables
  import opened Integrity
  import opened Pipeline

  /** The event's check and channel are in the store. */
  predicate Backed(db: Db, ev: AlertEvent)
  {
    ev.check.id in db.checks && ev.channel.id in db.channels
  }

  /** The first write of a dispatch goes through, no check or channel is deleted, alerts are about stored checks. */
  predicate Quiet(s: State, e: Event)
  {
    match e
    case Record(luck) => !luck.fault
    case Other(stmt, _) => !stmt.DropCheck? && !stmt.DropChannel? && NilSlug(stmt)
    case Ask(_, wanted) => forall j :: j in wanted ==> j.check.id in s.db.checks
    case BeginPass(down) => forall j :: j in down ==> j.check.id in s.db.checks
    case _ => true
  }

  predicate QuietRun(s: State, events: seq<Event>)
  {
    events != [] ==>
      var most := events[..|events| - 1];
      QuietRun(s, most) && Quiet(Run(s, most), events[|events| - 1])
  }

  /** The rows of a log of dispatches: in order, numbered from `next`, each naming its channel. */
  function Rows(next: nat, log: seq<(AlertEvent, Luck)>): (r: seq<Note>)
    ensures |r| == |log|
  {
    seq(|log|, i requires 0 <= i < |log| =>
      Note(next + i, log[i].0.check.id, Some(log[i].0.channel.id), log[i].0.alert, FormatTime(log[i].1.at), NoteError(log[i].0, log[i].1)))
  }

  ghost predicate AllBacked(db: Db, events: seq<AlertEvent>)
  {
    forall ev :: ev in events ==> Backed(db, ev)
  }

  ghost predicate SenderBacked(db: Db, x: Sender)
  {
    (forall j :: j in x.jobs ==> j.check.id in db.checks) && AllBacked(db, x.outbox)
  }

  /** Everything on its way is backed by the store. */
  ghost predicate EnRoute(s: State) { OnTheWay(s.db, s.senders, s.queue, s.inFlight) }

  ghost predicate OnTheWay(db: Db, senders: seq<Sender>, queue: seq<AlertEvent>, inFlight: Option<AlertEvent>)
  {
    && Sound(db)
    && (forall i :: 0 <= i < |senders| ==> SenderBacked(db, senders[i]))
    && AllBacked(db, queue)
    && (inFlight.Some? ==> Backed(db, inFlight.value))
  }

  ghost predicate Written(s: State, first: Db)
  {
    && s.db.notes == first.notes + Rows(first.nextNote, s.dispatched)
    && s.db.nextNote == first.nextNote + |s.dispatched|
  }

  /** The checks and channels only grow. */
  ghost predicate Grows(a: Db, b: Db)
  {
    a.checks.Keys <= b.checks.Keys && a.channels.Keys <= b.channels.Keys
  }

  lemma StatementGrows(db: Db, stmt: Statement, fault: bool)
    requires !stmt.DropCheck? && !stmt.DropChannel? && !stmt.Deliver?
    ensures var t := Execute(db, stmt, fault); Grows(db, t) && t.notes == db.notes && t.nextNote == db.nextNote
  {
    hide FormatTime, Recent;
  }

  lemma RowWritten(db: Db, ev: AlertEvent, luck: Luck)
    requires Backed(db, ev) && !luck.fault
    ensures Dispatch(db, ev, luck) == db.(nextNote := db.nextNote + 1,
              notes := db.notes + [Note(db.nextNote, ev.check.id, Some(ev.channel.id), ev.alert, FormatTime(luck.at), NoteError(ev, luck))])
  {
    hide FormatTime;
  }

  lemma RowsOneMore(next: nat, log: seq<(AlertEvent, Luck)>, ev: AlertEvent, luck: Luck)
    ensures Rows(next, log + [(ev, luck)]) ==
            Rows(next, log) + [Note(next + |log|, ev.check.id, Some(ev.channel.id), ev.alert, FormatTime(luck.at), NoteError(ev, luck))]
  {
    hide FormatTime, NoteError;
  }

  lemma ListedBacked(db: Db, job: Job)
    requires Sound(db) && job.check.id in db.checks
    ensures AllBacked(db, EventsOfListing(Listing(job, Some(ListChannels(db, job.check.id)))))
  {
    ListsAttachedOnce(db, job.check.id);
    hide ListChannels, Sound, Older;
  }

  lemma StillOnTheWay(db: Db, senders: seq<Sender>, queue: seq<AlertEvent>, inFlight: Option<AlertEvent>, later: Db)
    requires OnTheWay(db, senders, queue, inFlight) && Sound(later) && Grows(db, later)
    ensures OnTheWay(later, senders, queue, inFlight) && OnTheWay(later, senders, queue, None)
  {
    hide Sound;
  }

  lemma QuietWritten(s: State, e: Event, first: Db)
    requires EnRoute(s) && Written(s, first) && Quiet(s, e)
    ensures Written(Step(s, e), first)
  {
    hide Sound, SenderBacked, AllBacked, Dispatch, Execute, EventsOfListing, ListChannels, NoneLive, Rows, FormatTime, NoteError;
    match e
    case Record(luck) =>
      if s.inFlight.Some? {
        RowWritten(s.db, s.inFlight.value, luck);
        RowsOneMore(first.nextNote, s.dispatched, s.inFlight.value, luck);
      }
    case Other(stmt, fault) =>
      if !stmt.Deliver? {
        StatementGrows(s.db, stmt, fault);
      }
    case _ =>
  }

  lemma EnlistEnRoute(s: State, i: nat, fault: bool)
    requires EnRoute(s) && Live(s, i) && s.senders[i].jobs != []
    ensures EnRoute(Enlisted(s, i, fault))
  {
    var x := s.senders[i];
    assert SenderBacked(s.db, x) && x.jobs[0] in x.jobs;
    ListedBacked(s.db, x.jobs[0]);
    hide Sound, ListChannels;
    assert SenderBacked(s.db, Enlisted(s, i, fault).senders[i]);
    hide SenderBacked, AllBacked, EventsOfListing;
  }

  lemma SendOnTheWay(db: Db, senders: seq<Sender>, queue: seq<AlertEvent>, inFlight: Option<AlertEvent>, i: nat)
    requires OnTheWay(db, senders, queue, inFlight) && i < |senders| && senders[i].outbox != []
    ensures var x := senders[i];
            var after := senders[i := x.(outbox := x.outbox[1..])];
            OnTheWay(db, after, queue, inFlight) && OnTheWay(db, after, queue + [x.outbox[0]], inFlight)
  {
    var x := senders[i];
    assert SenderBacked(db, x);
    assert SenderBacked(db, x.(outbox := x.outbox[1..]));
    assert AllBacked(db, queue + [x.outbox[0]]);
    hide Sound, SenderBacked, AllBacked, Backed;
  }

  lemma SendEnRoute(s: State, i: nat)
    requires EnRoute(s) && Live(s, i) && s.senders[i].outbox != []
    ensures EnRoute(Sent(s, i))
  {
    SendOnTheWay(s.db, s.senders, s.queue, s.inFlight, i);
    hide OnTheWay;
  }

  lemma AddedOnTheWay(db: Db, senders: seq<Sender>, queue: seq<AlertEvent>, inFlight: Option<AlertEvent>, x: Sender)
    requires OnTheWay(db, senders, queue, inFlight) && SenderBacked(db, x)
    ensures OnTheWay(db, senders + [x], queue, inFlight)
  {
    hide Sound, SenderBacked, AllBacked;
  }

  lemma UpdatedOnTheWay(db: Db, senders: seq<Sender>, queue: seq<AlertEvent>, inFlight: Option<AlertEvent>, i: nat, x: Sender)
    requires OnTheWay(db, senders, queue, inFlight) && SenderBacked(db, x) && i < |senders|
    ensures OnTheWay(db, senders[i := x], queue, inFlight)
  {
    hide Sound, SenderBacked, AllBacked;
  }

  lemma BeginEnRoute(s: State, down: seq<Job>)
    requires EnRoute(s) && forall j :: j in down ==> j.check.id in s.db.checks
    ensures EnRoute(Step(s, BeginPass(down)))
  {
    var x := Sender(Pass, down, 0, [], false);
    assert SenderBacked(s.db, x);
    hide NoneLive, OnTheWay;
    AddedOnTheWay(s.db, s.senders, s.queue, s.inFlight, x);
  }

  lemma ArriveEnRoute(s: State)
    requires EnRoute(s)
    ensures EnRoute(Step(s, Arrive))
  {
    var x := Sender(Handler, [], 0, [], false);
    assert SenderBacked(s.db, x);
    hide OnTheWay;
    AddedOnTheWay(s.db, s.senders, s.queue, s.inFlight, x);
  }

  lemma AskEnRoute(s: State, i: nat, wanted: seq<Job>)
    requires EnRoute(s) && forall j :: j in wanted ==> j.check.id in s.db.checks
    ensures EnRoute(Step(s, Ask(i, wanted)))
  {
    if Live(s, i) && s.senders[i].outbox == [] {
      var x := s.senders[i].(jobs := wanted);
      assert SenderBacked(s.db, x);
      hide OnTheWay;
      UpdatedOnTheWay(s.db, s.senders, s.queue, s.inFlight, i, x);
    }
  }

  lemma QuietEnRoute(s: State, e: Event)
    requires EnRoute(s) && Quiet(s, e)
    ensures EnRoute(Step(s, e))
  {
    hide Sound, Dispatch, Execute, NoneLive, Sent, Enlisted, EnRoute;
    match e
    case Arrive => ArriveEnRoute(s);
    case Ask(i, wanted) => AskEnRoute(s, i, wanted);
    case BeginPass(down) => BeginEnRoute(s, down);
    case Enlist(i, fault) =>
      if Live(s, i) && s.senders[i].jobs != [] {
        EnlistEnRoute(s, i, fault);
      }
    case Send(i) =>
      if Live(s, i) && s.senders[i].outbox != [] {
        SendEnRoute(s, i);
      }
    case Record(luck) => DeliverEnRoute(s, luck);
    case Other(stmt, fault) => OtherEnRoute(s, stmt, fault);
    case _ => QueueEnRoute(s, e);
  }

  lemma Delivered(s: State, luck: Luck)
    requires s.inFlight.Some? && !s.panicked
    ensures EnRoute(Step(s, Record(luck))) <==> OnTheWay(Dispatch(s.db, s.inFlight.value, luck), s.senders, s.queue, None)
  {
    hide OnTheWay, Dispatch;
  }

  lemma DeliverEnRoute(s: State, luck: Luck)
    requires EnRoute(s) && !luck.fault
    ensures EnRoute(Step(s, Record(luck)))
  {
    if s.inFlight.Some? && !s.panicked {
      var db := Dispatch(s.db, s.inFlight.value, luck);
      assert Sound(s.db) && Backed(s.db, s.inFlight.value) && OnTheWay(s.db, s.senders, s.queue, s.inFlight);
      assert Grows(s.db, db) by {
        RowWritten(s.db, s.inFlight.value, luck);
      }
      Delivered(s, luck);
      hide *;
      DispatchSound(s.db, s.inFlight.value, luck);
      StillOnTheWay(s.db, s.senders, s.queue, s.inFlight, db);
    }
  }

  lemma Executed(s: State, stmt: Statement, fault: bool)
    requires !stmt.Deliver? && !s.panicked
    ensures EnRoute(Step(s, Other(stmt, fault))) <==> OnTheWay(Execute(s.db, stmt, fault), s.senders, s.queue, s.inFlight)
  {
    hide OnTheWay, Execute;
  }

  lemma OtherEnRoute(s: State, stmt: Statement, fault: bool)
    requires EnRoute(s) && !stmt.DropCheck? && !stmt.DropChannel? && NilSlug(stmt)
    ensures EnRoute(Step(s, Other(stmt, fault)))
  {
    if !stmt.Deliver? && !s.panicked {
      assert Sound(s.db) && OnTheWay(s.db, s.senders, s.queue, s.inFlight);
      Executed(s, stmt, fault);
      hide *;
      ExecuteSound(s.db, stmt, fault);
      StatementGrows(s.db, stmt, fault);
      StillOnTheWay(s.db, s.senders, s.queue, s.inFlight, Execute(s.db, stmt, fault));
    }
  }

  /** The steps that add no alert. */
  lemma QueueEnRoute(s: State, e: Event)
    requires EnRoute(s)
    requires !e.Arrive? && !e.Ask? && !e.BeginPass? && !e.Enlist? && !e.Send? && !e.Record? && !e.Other?
    ensures EnRoute(Step(s, e))
  {
    hide Sound, NoneLive;
    if e.Finish? && Live(s, e.i) {
      assert SenderBacked(s.db, s.senders[e.i]);
    }
  }

  lemma {:induction false} QuietRunWrites(db: Db, events: seq<Event>)
    requires Sound(db) && QuietRun(Init(db), events)
    ensures EnRoute(Run(Init(db), events)) && Written(Run(Init(db), events), db)
  {
    if events != [] {
      var most, e := events[..|events| - 1], events[|events| - 1];
      QuietRunWrites(db, most);
      QuietEnRoute(Run(Init(db), most), e);
      QuietWritten(Run(Init(db), most), e, db);
      hide EnRoute, Written, Step, Quiet;
    }
  }

  // What a row says, and what an alert asked for.

  datatype Entry = Entry(check: string, channel: Option<nat>, alert: AlertType)

  function EntryOf(n: Note): Entry { Entry(n.check, n.channel, n.alert) }

  function Wanted(ev: AlertEvent): Entry { Entry(ev.check.id, Some(ev.channel.id), ev.alert) }

  function Entries(notes: seq<Note>): (r: seq<Entry>)
    ensures |r| == |notes| && forall i :: 0 <= i < |r| ==> r[i] == EntryOf(notes[i])
  {
    seq(|notes|, i requires 0 <= i < |notes| => EntryOf(notes[i]))
  }

  function AllWanted(events: seq<AlertEvent>): (r: seq<Entry>)
    ensures |r| == |events| && forall i :: 0 <= i < |r| ==> r[i] == Wanted(events[i])
  {
    seq(|events|, i requires 0 <= i < |events| => Wanted(events[i]))
  }

  lemma WantedSplits(a: seq<AlertEvent>, b: seq<AlertEvent>)
    ensures AllWanted(a + b) == AllWanted(a) + AllWanted(b)
  {
    hide Wanted;
  }

  lemma WantedAt(a: seq<AlertEvent>, k: nat)
    requires k < |a|
    ensures multiset(AllWanted(a)) == multiset{Wanted(a[k])} + multiset(AllWanted(a[..k] + a[k + 1..]))
  {
    var l, x, r := a[..k], a[k], a[k + 1..];
    assert a == l + [x] + r && AllWanted([x]) == [Wanted(x)];
    hide *;
    WantedSplits(l + [x], r);
    WantedSplits(l, [x]);
    WantedSplits(l, r);
  }

  lemma Extract<T>(a: seq<T>, b: seq<T>) returns (k: nat)
    requires a != [] && multiset(a) == multiset(b)
    ensures k < |b| && b[k] == a[0] && multiset(a[1..]) == multiset(b[..k] + b[k + 1..])
  {
    var x := a[0];
    assert a == [x] + a[1..];
    assert multiset(a[1..]) == multiset(a) - multiset{x};
    assert x in multiset(b);
    k :| 0 <= k < |b| && b[k] == x;
    var l, r := b[..k], b[k + 1..];
    assert b == l + [x] + r;
    assert multiset(b) == multiset(l) + multiset{x} + multiset(r);
    assert multiset(l + r) == multiset(l) + multiset(r);
    assert multiset(l + r) == multiset(b) - multiset{x};
  }

  /** Rearranging events only rearranges the entries they ask for. */
  lemma {:induction false} WantedRearranged(a: seq<AlertEvent>, b: seq<AlertEvent>)
    requires multiset(a) == multiset(b)
    ensures multiset(AllWanted(a)) == multiset(AllWanted(b))
    decreases |a|
  {
    if a == [] {
      assert |b| == |multiset(b)| == 0;
    } else {
      var k := Extract(a, b);
      assert a[..0] + a[1..] == a[1..];
      WantedAt(a, 0);
      WantedAt(b, k);
      hide AllWanted, Wanted;
      WantedRearranged(a[1..], b[..k] + b[k + 1..]);
    }
  }

  /** A quiet run to a graceful exit in which no event was dropped: the rows written are the dispatches in the order the
      events were accepted, and as a multiset exactly one per listed (alert, channel). */
  lemma OneRowPerAlert(db: Db, events: seq<Event>)
    requires Sound(db) && QuietRun(Init(db), events)
    requires var s := Run(Init(db), events); s.main == Exited && !s.forced && s.dropped == []
    ensures var s := Run(Init(db), events);
            && db.notes <= s.db.notes
            && var added := s.db.notes[|db.notes|..];
               && Entries(added) == AllWanted(s.accepted)
               && multiset(Entries(added)) == multiset(AllWanted(s.enlisted))
  {
    var s := Run(Init(db), events);
    QuietRunWrites(db, events);
    ExitMeansDrained(db, events);
    ExitMeansAllTried(db, events);
    Conservation(db, events);
    hide Run, QuietRun, Sound, Pending, EnRoute, FormatTime, NoteError;
    assert multiset(s.attempted) == multiset(s.accepted);
    WantedRearranged(s.enlisted, s.accepted);
    var added := s.db.notes[|db.notes|..];
    assert added == Rows(db.nextNote, s.dispatched);
    forall i | 0 <= i < |added|
      ensures EntryOf(added[i]) == Wanted(s.accepted[i])
    {
      assert EventsOf(s.dispatched)[i] == s.dispatched[i].0;
    }
  }
}
