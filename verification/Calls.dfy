/** What becomes of every call in one life: at any moment it has been accepted for a channel, or is still on its way. */
module Calls {
  import opened Schedule
  import opened Model
  import opened Transitions
  import opened WriteThrough
  import opened Tables
  import opened Integrity
  import opened Protocol
  import opened Coherence
  import opened AlertQueue
  import opened Announcements
  import opened Overtaking
  import opened Delivery
  import opened ChannelRows
  import opened Life
  import Q = Pipeline

  // The alerts of a check among jobs, and of a check and a channel among events, up to order.

  function Alerts(jobs: seq<Q.Job>): (r: seq<AlertType>)
    ensures |r| == |jobs| && forall k :: 0 <= k < |r| ==> r[k] == jobs[k].alert
  {
    seq(|jobs|, k requires 0 <= k < |jobs| => jobs[k].alert)
  }

  function JobAlerts(jobs: seq<Q.Job>, id: string): seq<AlertType>
  {
    Alerts(CallsOf(jobs, id))
  }

  lemma JobAlertsJoin(a: seq<Q.Job>, b: seq<Q.Job>, id: string)
    ensures JobAlerts(a + b, id) == JobAlerts(a, id) + JobAlerts(b, id)
  {
    CallsJoin(a, b, id);
    hide CallsOf;
    assert Alerts(CallsOf(a, id) + CallsOf(b, id)) == Alerts(CallsOf(a, id)) + Alerts(CallsOf(b, id));
  }

  lemma JobAlertsAt(a: seq<Q.Job>, k: nat, id: string)
    requires k < |a|
    ensures multiset(JobAlerts(a, id)) == multiset(JobAlerts([a[k]], id)) + multiset(JobAlerts(a[..k] + a[k + 1..], id))
  {
    var l, x, r := a[..k], [a[k]], a[k + 1..];
    assert a == l + x + r;
    hide *;
    JobAlertsJoin(l + x, r, id);
    JobAlertsJoin(l, x, id);
    JobAlertsJoin(l, r, id);
  }

  lemma {:induction false} JobsRearranged(a: seq<Q.Job>, b: seq<Q.Job>, id: string)
    requires multiset(a) == multiset(b)
    ensures multiset(JobAlerts(a, id)) == multiset(JobAlerts(b, id))
    decreases |a|
  {
    if a == [] {
      assert |b| == |multiset(b)| == 0;
    } else {
      hide JobAlerts;
      var k := Extract(a, b);
      assert a[..0] + a[1..] == a[1..];
      JobAlertsAt(a, 0, id);
      JobAlertsAt(b, k, id);
      JobsRearranged(a[1..], b[..k] + b[k + 1..], id);
    }
  }

  lemma AlertsAt(a: seq<AlertEvent>, k: nat, id: string, h: nat)
    requires k < |a|
    ensures multiset(AlertsTo(a, id, h)) == multiset(AlertsTo([a[k]], id, h)) + multiset(AlertsTo(a[..k] + a[k + 1..], id, h))
  {
    var l, x, r := a[..k], [a[k]], a[k + 1..];
    assert a == l + x + r;
    hide *;
    AlertsJoin(l + x, r, id, h);
    AlertsJoin(l, x, id, h);
    AlertsJoin(l, r, id, h);
  }

  lemma {:induction false} EventsRearranged(a: seq<AlertEvent>, b: seq<AlertEvent>, id: string, h: nat)
    requires multiset(a) == multiset(b)
    ensures multiset(AlertsTo(a, id, h)) == multiset(AlertsTo(b, id, h))
    decreases |a|
  {
    if a == [] {
      assert |b| == |multiset(b)| == 0;
    } else {
      hide AlertsTo;
      var k := Extract(a, b);
      assert a[..0] + a[1..] == a[1..];
      AlertsAt(a, 0, id, h);
      AlertsAt(b, k, id, h);
      EventsRearranged(a[1..], b[..k] + b[k + 1..], id, h);
    }
  }

  // What is listed.

  /** How often a listing has a channel. */
  function Times(channels: seq<Channel>, h: nat): nat
  {
    if channels == [] then 0
    else Times(channels[..|channels| - 1], h) + if channels[|channels| - 1].id == h then 1 else 0
  }

  /** The alert once for every time. */
  function Repeated(a: AlertType, n: nat): (r: seq<AlertType>)
    ensures |r| == n && forall k :: 0 <= k < n ==> r[k] == a
  {
    seq(n, k => a)
  }

  lemma {:induction false} EventsListed(c: Check, channels: seq<Channel>, alert: AlertType, id: string, h: nat)
    ensures AlertsTo(Events(c, channels, alert), id, h) == if c.id == id then Repeated(alert, Times(channels, h)) else []
  {
    if channels != [] {
      var most, last := channels[..|channels| - 1], channels[|channels| - 1];
      EventsListed(c, most, alert, id, h);
      assert Events(c, channels, alert) == Events(c, most, alert) + [AlertEvent(c, last, alert)];
      AlertsMore(Events(c, most, alert), AlertEvent(c, last, alert), id, h);
      hide AlertsTo, Events;
      assert Repeated(alert, Times(most, h)) + [alert] == Repeated(alert, Times(most, h) + 1);
    }
  }

  /** The channel is in the listing, once. */
  predicate Hears(l: Q.Listing, h: nat)
  {
    l.channels.Some? && Times(l.channels.value, h) == 1
  }

  /** Every listing for the check has the channel. */
  ghost predicate AlwaysHears(listings: seq<Q.Listing>, id: string, h: nat)
  {
    forall k :: 0 <= k < |listings| && listings[k].job.check.id == id ==> Hears(listings[k], h)
  }

  lemma ListingAlerts(l: Q.Listing, id: string, h: nat)
    requires l.job.check.id == id ==> Hears(l, h)
    ensures AlertsTo(Q.EventsOfListing(l), id, h) == JobAlerts([l.job], id)
  {
    assert [l.job][..0] == [];
    assert CallsOf([l.job], id) == if l.job.check.id == id then [l.job] else [];
    if l.channels.Some? {
      EventsListed(l.job.check, l.channels.value, l.job.alert, id, h);
      assert Repeated(l.job.alert, 1) == [l.job.alert];
    }
    hide AlertsTo, Events, Times, CallsOf;
  }

  lemma {:induction false} FlatAlerts(listings: seq<Q.Listing>, id: string, h: nat)
    requires AlwaysHears(listings, id, h)
    ensures AlertsTo(Q.Flat(listings), id, h) == JobAlerts(Q.JobsOf(listings), id)
  {
    if listings != [] {
      var most, last := listings[..|listings| - 1], listings[|listings| - 1];
      assert forall k :: 0 <= k < |most| ==> most[k] == listings[k];
      assert Q.JobsOf(listings) == Q.JobsOf(most) + [last.job];
      assert Q.Flat(listings) == Q.Flat(most) + Q.EventsOfListing(last);
      FlatAlerts(most, id, h);
      ListingAlerts(last, id, h);
      hide *;
      JobAlertsJoin(Q.JobsOf(most), [last.job], id);
      AlertsJoin(Q.Flat(most), Q.EventsOfListing(last), id, h);
    }
  }

  // What is still on its way.

  function AllJobs(senders: seq<Q.Sender>): (r: seq<Q.Job>)
    ensures multiset(r) == Q.Waiting(senders)
  {
    if senders == [] then [] else AllJobs(senders[..|senders| - 1]) + senders[|senders| - 1].jobs
  }

  function AllOutboxes(senders: seq<Q.Sender>): (r: seq<AlertEvent>)
    ensures multiset(r) == Q.Pending(senders)
  {
    if senders == [] then [] else AllOutboxes(senders[..|senders| - 1]) + senders[|senders| - 1].outbox
  }

  /** The alerts for a check and a channel that the senders still have, to list or to send. */
  function OnTheirWay(senders: seq<Q.Sender>, id: string, h: nat): seq<AlertType>
  {
    JobAlerts(AllJobs(senders), id) + AlertsTo(AllOutboxes(senders), id, h)
  }

  /** The queue refused nothing for the check and the channel. */
  ghost predicate NoneDropped(p: Q.State, id: string, h: nat)
  {
    AlertsTo(p.dropped, id, h) == []
  }

  /** The pipeline's account for one check and one channel, alert by alert. */
  lemma AskedAccounted(db: Db, events: seq<Q.Event>, id: string, h: nat)
    requires AlwaysHears(Q.Run(Q.Init(db), events).listings, id, h) && NoneDropped(Q.Run(Q.Init(db), events), id, h)
    ensures var p := Q.Run(Q.Init(db), events);
            multiset(JobAlerts(p.asked, id)) == multiset(AlertsTo(p.accepted, id, h)) + multiset(OnTheirWay(p.senders, id, h))
  {
    var p := Q.Run(Q.Init(db), events);
    Q.RunInvariant(db, events);
    assert multiset(p.asked) == multiset(Q.JobsOf(p.listings)) + Q.Waiting(p.senders) && p.enlisted == Q.Flat(p.listings);
    assert multiset(p.enlisted) == multiset(p.attempted) + Q.Pending(p.senders);
    assert multiset(p.attempted) == multiset(p.accepted) + multiset(p.dropped);
    hide Q.Run, AlwaysHears, Q.Conserved, Q.Ordered, JobAlerts, AlertsTo, AllJobs, AllOutboxes, Q.JobsOf, Q.Flat, Q.Waiting, Q.Pending;
    var jobs, boxes := AllJobs(p.senders), AllOutboxes(p.senders);
    FlatAlerts(p.listings, id, h);
    JobsRearranged(p.asked, Q.JobsOf(p.listings) + jobs, id);
    JobAlertsJoin(Q.JobsOf(p.listings), jobs, id);
    EventsRearranged(p.enlisted, p.accepted + p.dropped + boxes, id, h);
    AlertsJoin(p.accepted + p.dropped, boxes, id, h);
    AlertsJoin(p.accepted, p.dropped, id, h);
  }

  lemma NumberedAlerts(jobs: seq<Q.Job>, log: seq<AlertType>, n: nat)
    requires Numbered(jobs, log, n)
    ensures n <= |log| && Alerts(jobs) == log[n..]
  {
  }

  /** The calls of a check since a life began. */
  function Since(s: Joint, t: Joint, id: string): seq<AlertType>
  {
    var n := |Log(s.proto, id)|;
    if n <= |Log(t.proto, id)| then Log(t.proto, id)[n..] else []
  }

  /** At any moment of a life, for a check and a channel that every look-up for the check found, and for which the queue
      refused nothing: each call made since the life began has been accepted once, or is still on its way. */
  lemma CallsAccounted(cal: Calendar, s: Joint, moves: seq<Move>, id: string, h: nat)
    requires Begins(cal, s) && NoCrash(moves)
    requires var p := From(cal, s, moves).pipe; AlwaysHears(p.listings, id, h) && NoneDropped(p, id, h)
    ensures var t := From(cal, s, moves);
            multiset(Since(s, t, id)) == multiset(AlertsTo(t.pipe.accepted, id, h)) + multiset(OnTheirWay(t.pipe.senders, id, h))
  {
    var t, n := From(cal, s, moves), |Log(s.proto, id)|;
    LifeRuns(cal, s, moves);
    assert s.pipe == Q.Init(s.pipe.db);
    AskedForCalls(cal, s, moves, id);
    assert Numbered(CallsOf(t.pipe.asked, id), Log(t.proto, id), n);
    assert JobAlerts(t.pipe.asked, id) == Alerts(CallsOf(t.pipe.asked, id));
    assert n <= |Log(t.proto, id)| ==> Since(s, t, id) == Log(t.proto, id)[n..];
    hide *;
    AskedAccounted(s.pipe.db, PipeEvents(cal, s, moves), id, h);
    NumberedAlerts(CallsOf(t.pipe.asked, id), Log(t.proto, id), n);
  }

  // A channel that stays attached is in every listing.

  /** The move looks up the channels of the check. */
  predicate LooksUp(s: Joint, m: Move, id: string)
  {
    && m.Pipe? && m.e.Enlist? && !s.pipe.panicked && Q.Live(s.pipe, m.e.i)
    && var x := s.pipe.senders[m.e.i]; x.outbox == [] && x.jobs != [] && x.jobs[0].check.id == id
  }

  /** No look-up of the check's channels fails, and the channel is attached at each of them. */
  ghost predicate KeptAttached(cal: Calendar, s: Joint, moves: seq<Move>, id: string, h: nat)
  {
    moves != [] ==>
      var most, m := moves[..|moves| - 1], moves[|moves| - 1];
      var t := From(cal, s, most);
      KeptAttached(cal, s, most, id, h) && (LooksUp(t, m, id) ==> h in Attached(t.pipe.db, id) && !m.e.fault)
  }

  lemma {:induction false} NotThere(channels: seq<Channel>, h: nat)
    requires forall k :: 0 <= k < |channels| ==> channels[k].id != h
    ensures Times(channels, h) == 0
  {
    if channels != [] {
      var most := channels[..|channels| - 1];
      assert forall k :: 0 <= k < |most| ==> most[k] == channels[k];
      NotThere(most, h);
    }
  }

  lemma {:induction false} ThereOnce(channels: seq<Channel>, h: nat, i: nat)
    requires i < |channels| && channels[i].id == h
    requires forall j, k :: 0 <= j < k < |channels| ==> channels[j].id != channels[k].id
    ensures Times(channels, h) == 1
  {
    var most := channels[..|channels| - 1];
    assert forall k :: 0 <= k < |most| ==> most[k] == channels[k];
    if i == |most| {
      NotThere(most, h);
    } else {
      ThereOnce(most, h, i);
    }
  }

  lemma ListedOnce(db: Db, id: string, h: nat)
    requires Sound(db) && h in Attached(db, id)
    ensures Times(ListChannels(db, id), h) == 1
  {
    ListsAttachedOnce(db, id);
    hide Sound, ListChannels, Times, Older;
    var r := ListChannels(db, id);
    var i :| 0 <= i < |r| && r[i].id == h;
    ThereOnce(r, h, i);
  }

  lemma StepListings(p: Q.State, e: Q.Event)
    requires !e.Enlist?
    ensures Q.Step(p, e).listings == p.listings
  {
    hide Execute, Dispatch, Q.NoneLive;
  }

  lemma {:induction false} RunListings(p: Q.State, events: seq<Q.Event>)
    requires forall k :: 0 <= k < |events| ==> !events[k].Enlist?
    ensures Q.Run(p, events).listings == p.listings
  {
    hide Q.Step;
    if events != [] {
      var most := events[..|events| - 1];
      assert forall k :: 0 <= k < |most| ==> most[k] == events[k];
      RunListings(p, most);
      StepListings(Q.Run(p, most), events[|events| - 1]);
    }
  }

  lemma EnlistParts(cal: Calendar, s: Joint, m: Move)
    requires Coherent(s.proto.st)
    ensures var events := PipePart(cal, s, m);
            (m.Pipe? && m.e.Enlist? && events == [m.e]) || forall k :: 0 <= k < |events| ==> !events[k].Enlist?
  {
    if m.Set? && ProtoPart(s, m).Some? {
      SetNew(cal, s, m.i, m.fault);
    } else if m.Sweep? && ProtoPart(s, m).Some? {
      SweepNew(cal, s, m.now, m.faults, m.order);
    }
    hide AsksNew, ParseCheckForm, NewCheck, Saves, DownJobs, JobsFrom, ProtoPart, Coherent;
  }

  lemma EnlistStep(p: Q.State, i: nat, fault: bool, id: string, h: nat)
    requires AlwaysHears(p.listings, id, h) && Sound(p.db)
    requires !p.panicked && Q.Live(p, i) && p.senders[i].outbox == [] && p.senders[i].jobs != [] && p.senders[i].jobs[0].check.id == id ==>
               h in Attached(p.db, id) && !fault
    ensures AlwaysHears(Q.Step(p, Q.Enlist(i, fault)).listings, id, h)
  {
    var t := Q.Step(p, Q.Enlist(i, fault));
    if t.listings != p.listings && p.senders[i].jobs[0].check.id == id {
      ListedOnce(p.db, id, h);
    }
    hide Sound, Attached, ListChannels, Times;
  }

  lemma HearsStep(cal: Calendar, s: Joint, m: Move, id: string, h: nat)
    requires JointInv(cal, s) && Sound(s.pipe.db) && !m.Crash? && AlwaysHears(s.pipe.listings, id, h)
    requires LooksUp(s, m, id) ==> h in Attached(s.pipe.db, id) && !m.e.fault
    ensures AlwaysHears(Next(cal, s, m).pipe.listings, id, h)
  {
    AliveNext(cal, s, m);
    assert Inv(cal, s.proto);
    InvCoherent(cal, s.proto);
    EnlistParts(cal, s, m);
    var events := PipePart(cal, s, m);
    if m.Pipe? && m.e.Enlist? && events == [m.e] {
      assert m.e == Q.Enlist(m.e.i, m.e.fault);
      hide Next, JointInv, Sound, Inv, Q.Step, Q.Run, PipePart, Coherent, Attached, AlwaysHears;
      RunTwo(s.pipe, m.e, m.e);
      EnlistStep(s.pipe, m.e.i, m.e.fault, id, h);
    } else {
      hide Next, JointInv, Sound, Inv, Q.Run, PipePart, Coherent, Attached, AlwaysHears;
      RunListings(s.pipe, events);
    }
  }

  /** Then the condition of the theorems is met. */
  lemma {:induction false} AttachedHears(cal: Calendar, s: Joint, moves: seq<Move>, id: string, h: nat)
    requires Begins(cal, s) && NoCrash(moves) && KeptAttached(cal, s, moves, id, h)
    ensures AlwaysHears(From(cal, s, moves).pipe.listings, id, h)
  {
    if moves == [] {
      assert From(cal, s, moves) == s;
    } else {
      var most, m := moves[..|moves| - 1], moves[|moves| - 1];
      AlivePrefix(moves);
      AttachedHears(cal, s, most, id, h);
      FromKeeps(cal, s, most);
      AlwaysSoundStore(cal, s, most);
      assert From(cal, s, moves) == Next(cal, From(cal, s, most), m);
      hide From, Next, JointInv, Sound, AlwaysHears, LooksUp, Attached, NoCrash;
      HearsStep(cal, From(cal, s, most), m, id, h);
    }
  }
}
