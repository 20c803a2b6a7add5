/** Why order asks for settled transitions: a transition made while an earlier alert of its check is still to be announced
    can always be announced first. */
module Unsettled {
  import opened Text
  import opened TimeCodec
  import opened Schedule
  import opened Model
  import opened CheckRows
  import opened Transitions
  import opened WriteThrough
  import opened Tables
  import opened Integrity
  import opened Protocol
  import opened Coherence
  import opened Alternation
  import opened AlertQueue
  import opened Announcements
  import opened Overtaking
  import opened Life
  import Q = Pipeline

  predicate OnChannelOf(ev: AlertEvent, id: string, h: nat)
  {
    EventOf(ev, id) && ev.channel.id == h
  }

  /** The sender has a transition of the check to announce on the channel, if the channel is attached when it looks. */
  ghost predicate WaitsFor(x: Q.Sender, id: string, h: nat)
  {
    (exists j :: j in x.jobs && JobOf(j, id)) || (exists ev :: ev in x.outbox && OnChannelOf(ev, id, h))
  }

  /** All it has to announce of the check are calls in a range. */
  ghost predicate Ranged(x: Q.Sender, id: string, low: nat, high: nat)
  {
    && (forall j :: j in x.jobs && JobOf(j, id) ==> low <= j.n < high)
    && (forall ev :: ev in x.outbox && EventOf(ev, id) ==> low <= x.current < high)
  }

  /** The worker runs, the queue is open, and the channel is attached. */
  ghost predicate Open(p: Q.State, id: string, h: nat)
  {
    p.started && !p.panicked && p.main != Q.Closed && p.main != Q.Exited && Sound(p.db) && h in Attached(p.db, id)
    && |p.accepted| == |p.numbers|
  }

  /** The other senders are as they were, and more has been accepted. */
  ghost predicate Advanced(p: Q.State, t: Q.State, i: nat)
  {
    && |t.senders| == |p.senders| && (forall k :: 0 <= k < |p.senders| && k != i ==> t.senders[k] == p.senders[k])
    && |p.accepted| == |p.numbers| && |t.accepted| == |t.numbers| && Zip(p.accepted, p.numbers) <= Zip(t.accepted, t.numbers)
  }

  lemma AdvancedTwice(p: Q.State, t: Q.State, u: Q.State, i: nat)
    requires Advanced(p, t, i) && Advanced(t, u, i)
    ensures Advanced(p, u, i)
  {
    hide Zip;
  }

  predicate Piped(events: seq<Q.Event>)
  {
    forall k :: 0 <= k < |events| ==> IsPiped(events[k])
  }

  lemma PipedJoin(a: seq<Q.Event>, b: seq<Q.Event>)
    requires Piped(a) && Piped(b)
    ensures Piped(a + b)
  {
    hide IsPiped;
  }

  lemma RunJoin(p: Q.State, a: seq<Q.Event>, b: seq<Q.Event>)
    ensures Q.Run(p, a + b) == Q.Run(Q.Run(p, a), b)
  {
    Q.RunFrom(p, a, b);
  }

  const FINE := Luck({}, None, 0, false, false)

  /** The worker can always make room. */
  lemma MakeRoom(p: Q.State, id: string, h: nat, i: nat) returns (events: seq<Q.Event>)
    requires Open(p, id, h) && |p.queue| <= CAPACITY
    ensures var t := Q.Run(p, events);
            Piped(events) && Open(t, id, h) && Advanced(p, t, i) && t.senders == p.senders && |t.queue| < CAPACITY
  {
    RunNothing(p);
    if |p.queue| < CAPACITY {
      events := [];
    } else {
      events := [Q.Record(FINE)] + [Q.Receive];
      var t := Q.Step(p, Q.Record(FINE));
      RunTwo(p, Q.Record(FINE), Q.Receive);
      RecordOpen(p, id, h);
      hide Q.Run, Open, Dispatch, Attached, Sound;
      ReceiveOpen(t, id, h);
      SameAdvanced(p, Q.Step(t, Q.Receive), i);
    }
  }

  lemma SameAdvanced(p: Q.State, t: Q.State, i: nat)
    requires t.senders == p.senders && t.accepted == p.accepted && t.numbers == p.numbers && |p.accepted| == |p.numbers|
    ensures Advanced(p, t, i)
  {
  }

  lemma RecordOpen(p: Q.State, id: string, h: nat)
    requires Open(p, id, h)
    ensures var t := Q.Step(p, Q.Record(FINE));
            && Open(t, id, h) && t.inFlight.None? && t.senders == p.senders && t.queue == p.queue
            && t.accepted == p.accepted && t.numbers == p.numbers
  {
    var t := Q.Step(p, Q.Record(FINE));
    if p.inFlight.Some? {
      DispatchRecords(p.db, p.inFlight.value, FINE);
      DispatchSound(p.db, p.inFlight.value, FINE);
      assert t.db.links == p.db.links && t.db.channels == p.db.channels;
    }
    hide Dispatch, Sound;
  }

  lemma ReceiveOpen(p: Q.State, id: string, h: nat)
    requires Open(p, id, h) && p.inFlight.None? && |p.queue| >= CAPACITY
    ensures var t := Q.Step(p, Q.Receive);
            && Open(t, id, h) && t.senders == p.senders && |t.queue| == |p.queue| - 1
            && t.accepted == p.accepted && t.numbers == p.numbers
  {
    hide Sound, Attached;
  }

  lemma SendAdvances(p: Q.State, i: nat, id: string, h: nat)
    requires Open(p, id, h) && Q.Live(p, i) && p.senders[i].outbox != [] && |p.queue| < CAPACITY
    ensures var t, x := Q.Step(p, Q.Send(i)), p.senders[i];
            && Open(t, id, h) && Advanced(p, t, i) && |t.queue| <= CAPACITY && t.senders[i] == x.(outbox := x.outbox[1..])
            && Zip(t.accepted, t.numbers) == Zip(p.accepted, p.numbers) + [Sent(x.outbox[0], x.current)]
  {
    hide Sound, Attached;
    var t, x := Q.Step(p, Q.Send(i)), p.senders[i];
    assert t.accepted == p.accepted + [x.outbox[0]] && t.numbers == p.numbers + [x.current];
  }

  /** The sender after it looked up the channels for its next alert. */
  function AfterLookUp(x: Q.Sender, r: seq<Channel>): Q.Sender
    requires x.jobs != []
  {
    x.(jobs := x.jobs[1..], current := x.jobs[0].n, outbox := Events(x.jobs[0].check, r, x.jobs[0].alert))
  }

  lemma EnlistAdvances(p: Q.State, i: nat, id: string, h: nat)
    requires Open(p, id, h) && Q.Live(p, i) && p.senders[i].outbox == [] && p.senders[i].jobs != [] && |p.queue| <= CAPACITY
    ensures var t, x := Q.Step(p, Q.Enlist(i, false)), p.senders[i];
            && Open(t, id, h) && Advanced(p, t, i) && |t.queue| <= CAPACITY
            && t.accepted == p.accepted && t.numbers == p.numbers
            && t.senders[i] == AfterLookUp(x, ListChannels(p.db, x.jobs[0].check.id))
  {
    hide Sound, Attached, ListChannels;
  }

  lemma StillWaits(x: Q.Sender, id: string, h: nat, low: nat, high: nat)
    requires WaitsFor(x, id, h) && Ranged(x, id, low, high) && x.outbox != []
    ensures Ranged(x.(outbox := x.outbox[1..]), id, low, high)
    ensures OnChannelOf(x.outbox[0], id, h) ==> low <= x.current < high
    ensures !OnChannelOf(x.outbox[0], id, h) ==> WaitsFor(x.(outbox := x.outbox[1..]), id, h)
  {
    var y := x.(outbox := x.outbox[1..]);
    assert x.outbox[0] in x.outbox;
    assert x.outbox == [x.outbox[0]] + y.outbox;
    hide JobOf, EventOf;
  }

  lemma LookUpRanged(x: Q.Sender, r: seq<Channel>, id: string, low: nat, high: nat)
    requires Ranged(x, id, low, high) && x.jobs != []
    ensures Ranged(AfterLookUp(x, r), id, low, high)
  {
    var j, y := x.jobs[0], AfterLookUp(x, r);
    assert j in x.jobs && x.jobs == [j] + y.jobs;
    forall ev | ev in y.outbox && EventOf(ev, id) ensures low <= y.current < high {
      assert JobOf(j, id);
    }
  }

  lemma ListingWaits(db: Db, x: Q.Sender, id: string, h: nat, low: nat, high: nat)
    requires WaitsFor(x, id, h) && Ranged(x, id, low, high) && x.outbox == [] && Sound(db) && h in Attached(db, id) && x.jobs != []
    ensures var y := AfterLookUp(x, ListChannels(db, x.jobs[0].check.id)); WaitsFor(y, id, h) && Ranged(y, id, low, high)
  {
    var j, r := x.jobs[0], ListChannels(db, x.jobs[0].check.id);
    LookUpRanged(x, r, id, low, high);
    hide Sound, ListChannels, Attached, Ranged;
    assert x.jobs == [j] + x.jobs[1..];
    if JobOf(j, id) {
      ListedOn(db, j, id, h);
    }
    hide JobOf, OnChannelOf;
  }

  lemma ListedOn(db: Db, j: Q.Job, id: string, h: nat)
    requires Sound(db) && h in Attached(db, id) && JobOf(j, id)
    ensures exists ev :: ev in Events(j.check, ListChannels(db, j.check.id), j.alert) && OnChannelOf(ev, id, h)
  {
    ListsAttachedOnce(db, id);
    hide Sound, ListChannels, Attached, Older;
    var r := ListChannels(db, id);
    var k :| 0 <= k < |r| && r[k].id == h;
    var events := Events(j.check, r, j.alert);
    assert events[k] == AlertEvent(j.check, r[k], j.alert) && events[k] in events;
  }

  /** A sent transition of the check on the channel, in a range, after everything sent before. */
  ghost predicate SentNow(p: Q.State, t: Q.State, x: Sent, id: string, h: nat, low: nat, high: nat)
  {
    && |p.accepted| == |p.numbers| && |t.accepted| == |t.numbers|
    && EndsWith(Zip(p.accepted, p.numbers), Zip(t.accepted, t.numbers), x)
    && OnChannelOf(x.event, id, h) && low <= x.n < high
  }

  predicate EndsWith(before: seq<Sent>, after: seq<Sent>, x: Sent)
  {
    before <= after && |before| < |after| && after[|after| - 1] == x
  }

  lemma SentLater(p: Q.State, t: Q.State, u: Q.State, x: Sent, i: nat, id: string, h: nat, low: nat, high: nat)
    requires Advanced(p, t, i) && SentNow(t, u, x, id, h, low, high)
    ensures SentNow(p, u, x, id, h, low, high)
  {
    hide Zip, OnChannelOf;
  }

  lemma SentByStep(p: Q.State, t: Q.State, x: Q.Sender, id: string, h: nat, low: nat, high: nat)
    requires |p.accepted| == |p.numbers| && |t.accepted| == |t.numbers| && x.outbox != []
    requires Zip(t.accepted, t.numbers) == Zip(p.accepted, p.numbers) + [Sent(x.outbox[0], x.current)]
    requires OnChannelOf(x.outbox[0], id, h) && low <= x.current < high
    ensures SentNow(p, t, Sent(x.outbox[0], x.current), id, h, low, high)
  {
    hide Zip, OnChannelOf;
  }

  /** One sender, left to itself with the worker making room, announces its transition on the channel. */
  lemma {:induction false} Announce(p: Q.State, i: nat, id: string, h: nat, low: nat, high: nat) returns (events: seq<Q.Event>, x: Sent)
    requires Open(p, id, h) && |p.queue| <= CAPACITY && Q.Live(p, i)
    requires WaitsFor(p.senders[i], id, h) && Ranged(p.senders[i], id, low, high)
    ensures var t := Q.Run(p, events);
            Piped(events) && Open(t, id, h) && |t.queue| <= CAPACITY && Advanced(p, t, i) && SentNow(p, t, x, id, h, low, high)
    decreases |p.senders[i].jobs|, |p.senders[i].outbox|
  {
    var y := p.senders[i];
    var first: seq<Q.Event>;
    var e: Q.Event;
    if y.outbox != [] {
      first := MakeRoom(p, id, h, i);
      e := Q.Send(i);
      StillWaits(y, id, h, low, high);
      SendAdvances(Q.Run(p, first), i, id, h);
    } else {
      assert y.jobs != [];
      first := [];
      RunNothing(p);
      SameAdvanced(p, p, i);
      e := Q.Enlist(i, false);
      ListingWaits(p.db, y, id, h, low, high);
      EnlistAdvances(p, i, id, h);
    }
    var q := Q.Run(p, first);
    var t := Q.Step(q, e);
    assert Piped(first + [e]);
    hide *;
    Q.RunOneMore(p, first, e);
    AdvancedTwice(p, q, t, i);
    if y.outbox != [] && OnChannelOf(y.outbox[0], id, h) {
      events := first + [e];
      x := Sent(y.outbox[0], y.current);
      SentByStep(q, t, y, id, h, low, high) by { Counted(q, id, h); Counted(t, id, h); }
      SentLater(p, q, t, x, i, id, h, low, high);
    } else {
      var rest;
      StillLive(t, i, y);
      rest, x := Announce(t, i, id, h, low, high);
      events := first + [e] + rest;
      RunJoin(p, first + [e], rest);
      PipedJoin(first + [e], rest);
      AdvancedTwice(p, t, Q.Run(t, rest), i);
      SentLater(p, t, Q.Run(t, rest), x, i, id, h, low, high);
    }
  }

  lemma Counted(p: Q.State, id: string, h: nat)
    requires Open(p, id, h)
    ensures |p.accepted| == |p.numbers|
  {
  }

  lemma StillLive(t: Q.State, i: nat, y: Q.Sender)
    requires i < |t.senders| && t.senders[i].done == y.done && !y.done
    ensures Q.Live(t, i)
  {
  }

  /** The later one first, and then the earlier one: out of order. */
  lemma OutOfOrder(p: Q.State, t: Q.State, u: Q.State, x: Sent, y: Sent, past: seq<Sent>, id: string, h: nat, n: nat, high: nat)
    requires SentNow(p, t, x, id, h, n, high) && SentNow(t, u, y, id, h, 0, n)
    ensures !InCallOrder(past + Zip(u.accepted, u.numbers), id)
  {
    var mid, all := Zip(t.accepted, t.numbers), past + Zip(u.accepted, u.numbers);
    hide Zip;
    assert all[|past| + |mid| - 1] == x && all[|all| - 1] == y;
  }

  // The transition.

  /** What a move that writes to checks does to the pipeline: the asking, and rows of checks. */
  ghost predicate SameButAsked(p: Q.State, t: Q.State)
  {
    && t.started == p.started && t.panicked == p.panicked && t.main == p.main && t.queue == p.queue
    && t.accepted == p.accepted && t.numbers == p.numbers && t.db.channels == p.db.channels && t.db.links == p.db.links
  }

  /** A sender of the check's new transition. */
  ghost predicate Announcer(t: Q.State, i: nat, id: string, h: nat, n: nat)
  {
    && Q.Live(t, i) && WaitsFor(t.senders[i], id, h) && t.senders[i].outbox == []
    && forall j :: j in t.senders[i].jobs && JobOf(j, id) ==> j.n >= n
  }

  lemma AskedPipe(p: Q.State, c: Check, i: nat, wanted: seq<Q.Job>)
    requires Idle(p, i) && !p.panicked
    ensures var t := Q.Step(Q.Step(p, Q.Other(SaveCheck(c), false)), Q.Ask(i, wanted));
            SameButAsked(p, t) && t.senders == p.senders[i := p.senders[i].(jobs := wanted)]
  {
    SaveStep(p, c, false);
    var q := Q.Step(p, Q.Other(SaveCheck(c), false));
    hide Update, Q.Step;
    AskedStep(q, i, wanted);
  }

  lemma AskedStep(p: Q.State, i: nat, wanted: seq<Q.Job>)
    requires Idle(p, i) && !p.panicked
    ensures Q.Step(p, Q.Ask(i, wanted)) == p.(senders := p.senders[i := p.senders[i].(jobs := wanted)], asked := p.asked + wanted)
  {
  }

  lemma {:induction false} SomeTurn(alerts: seq<AlertType>) returns (k: nat)
    requires Turns(alerts) != []
    ensures k < |alerts| && alerts[k] != AlertFail
  {
    if alerts[|alerts| - 1] != AlertFail {
      k := |alerts| - 1;
    } else {
      k := SomeTurn(alerts[..|alerts| - 1]);
    }
  }

  lemma AskAnnounces(t: Q.State, i: nat, c: Check, alerts: seq<AlertType>, n: nat, id: string, h: nat)
    requires i < |t.senders| && !t.senders[i].done && t.senders[i].outbox == []
    requires t.senders[i].jobs == JobsFrom(c, alerts, n) && c.id == id && Turns(alerts) != []
    ensures Announcer(t, i, id, h, n)
  {
    var k := SomeTurn(alerts);
    var j := JobsFrom(c, alerts, n)[k];
    assert j in t.senders[i].jobs && JobOf(j, id);
  }

  lemma NoTurnsJoin(log: seq<AlertType>, more: seq<AlertType>)
    requires Turns(log + more) != Turns(log)
    ensures Turns(more) != []
  {
    TurnsAppend(log, more);
    assert Turns(log) + [] == Turns(log);
  }

  lemma SetIs(cal: Calendar, s: Joint, i: nat, fault: bool)
    requires ProtoPart(s, Set(i, fault)).Some?
    ensures Next(cal, s, Set(i, fault)).proto == Step(cal, s.proto, Commit(i, fault)) && i in s.proto.pending
    ensures Idle(s.pipe, i) && !s.pipe.panicked
    ensures Next(cal, s, Set(i, fault)).pipe == Q.Run(s.pipe, PipePart(cal, s, Set(i, fault)))
  {
    hide Idle, PipePart, Q.Run, Step;
  }

  /** The Set that makes a transition of the check. */
  lemma SetTurns(cal: Calendar, s: Joint, i: nat, fault: bool, id: string)
    requires JointInv(cal, s) && ProtoPart(s, Set(i, fault)).Some? && i in s.proto.pending
    requires Turns(Log(Step(cal, s.proto, Commit(i, fault)), id)) != Turns(Log(s.proto, id))
    ensures var p := s.proto.pending[i];
            !fault && p.copy.id == id && id in s.proto.st.rows && Turns(AlertsFor(p.base, p.req)) != []
  {
    assert Inv(cal, s.proto);
    hide *;
    SetLogs(cal, s.proto, i, fault, id);
    var p := s.proto.pending[i];
    var added := if !fault && p.copy.id == id && id in s.proto.st.rows then AlertsFor(p.base, p.req) else [];
    TurnsAdded(Log(s.proto, id), Log(Step(cal, s.proto, Commit(i, fault)), id), added);
  }

  lemma TurnsAdded(log: seq<AlertType>, after: seq<AlertType>, added: seq<AlertType>)
    requires after == log + added && Turns(after) != Turns(log)
    ensures added != [] && Turns(added) != []
  {
    NoTurnsJoin(log, added);
    assert Turns([]) == [];
  }

  lemma SetPart(cal: Calendar, s: Joint, i: nat, id: string)
    requires ProtoPart(s, Set(i, false)).Some? && i in s.proto.pending && s.proto.pending[i].copy.id == id && id in s.proto.st.rows
    ensures var p := s.proto.pending[i];
            PipePart(cal, s, Set(i, false)) ==
            [Q.Other(SaveCheck(p.copy), false)] + [Q.Ask(i, JobsFrom(p.copy, AlertsFor(p.base, p.req), |Log(s.proto, id)|))]
  {
    hide *;
    SetParts(cal, s, i, false);
  }

  lemma SetAnnounces(cal: Calendar, s: Joint, i: nat, fault: bool, id: string, h: nat)
    requires JointInv(cal, s) && ProtoPart(s, Set(i, fault)).Some?
    requires Turns(Log(Next(cal, s, Set(i, fault)).proto, id)) != Turns(Log(s.proto, id))
    ensures var t := Next(cal, s, Set(i, fault)).pipe;
            SameButAsked(s.pipe, t) && Announcer(t, i, id, h, |Log(s.proto, id)|)
  {
    hide *;
    SetIs(cal, s, i, fault);
    SetTurns(cal, s, i, fault, id);
    SetPart(cal, s, i, id);
    var p := s.proto.pending[i];
    var alerts := AlertsFor(p.base, p.req);
    RunTwo(s.pipe, Q.Other(SaveCheck(p.copy), false), Q.Ask(i, JobsFrom(p.copy, alerts, |Log(s.proto, id)|)));
    AskedAnnounces(s.pipe, p.copy, i, alerts, |Log(s.proto, id)|, id, h);
  }

  lemma AskedAnnounces(p: Q.State, c: Check, i: nat, alerts: seq<AlertType>, n: nat, id: string, h: nat)
    requires Idle(p, i) && !p.panicked && c.id == id && Turns(alerts) != []
    ensures var t := Q.Step(Q.Step(p, Q.Other(SaveCheck(c), false)), Q.Ask(i, JobsFrom(c, alerts, n)));
            SameButAsked(p, t) && Announcer(t, i, id, h, n)
  {
    hide *;
    AskedPipe(p, c, i, JobsFrom(c, alerts, n));
    IdleFacts(p, i);
    AskAnnounces(Q.Step(Q.Step(p, Q.Other(SaveCheck(c), false)), Q.Ask(i, JobsFrom(c, alerts, n))), i, c, alerts, n, id, h);
  }

  lemma IdleFacts(p: Q.State, i: nat)
    requires Idle(p, i)
    ensures i < |p.senders| && !p.senders[i].done && p.senders[i].outbox == []
  {
  }

  lemma SweepIs(cal: Calendar, s: Joint, now: Instant, faults: set<string>, order: seq<string>)
    requires ProtoPart(s, Sweep(now, faults, order)).Some?
    ensures Next(cal, s, Sweep(now, faults, order)).proto == Step(cal, s.proto, Evaluate(now, faults))
    ensures Next(cal, s, Sweep(now, faults, order)).pipe == Q.Run(s.pipe, PipePart(cal, s, Sweep(now, faults, order)))
  {
    hide PipePart, Q.Run, Step, Lists, Expired, Q.NoneLive;
  }

  lemma BeganPass(p: Q.State, q: Q.State, rows: map<string, Row>, down: seq<Q.Job>)
    requires q == p.(db := p.db.(checks := rows)) && !p.panicked && (p.main == Q.Serving || p.main == Q.ServerDown)
    requires Q.NoneLive(p.senders, Q.Pass)
    ensures var t := Q.Step(q, Q.BeginPass(down));
            SameButAsked(p, t) && t.senders == p.senders + [Q.Sender(Q.Pass, down, 0, [], false)]
  {
    hide Q.NoneLive;
  }

  lemma PassAnnounces(t: Q.State, before: seq<Q.Sender>, down: seq<Q.Job>, j: Q.Job, n: nat, id: string, h: nat)
    requires t.senders == before + [Q.Sender(Q.Pass, down, 0, [], false)] && j in down && JobOf(j, id)
    requires forall k :: k in down && JobOf(k, id) ==> k.n >= n
    ensures Announcer(t, |before|, id, h, n)
  {
    hide JobOf;
  }

  lemma DownJobIn(s: State, order: seq<string>, now: Instant, id: string) returns (j: Q.Job)
    requires forall k :: 0 <= k < |order| ==> order[k] in s.st.cache && s.st.cache[order[k]].id == order[k]
    requires id in order
    ensures j in DownJobs(s, order, now) && JobOf(j, id)
  {
    var k :| 0 <= k < |order| && order[k] == id;
    j := DownJobs(s, order, now)[k];
    hide Log;
  }

  lemma DownJobsAt(jobs: seq<Q.Job>, s: State, id: string)
    requires forall j :: j in jobs ==> j.n >= |Log(s, j.check.id)|
    ensures forall j :: j in jobs && JobOf(j, id) ==> j.n >= |Log(s, id)|
  {
    hide Log;
  }

  lemma SweepAnnounces(cal: Calendar, s: Joint, now: Instant, faults: set<string>, order: seq<string>, id: string, h: nat)
    requires JointInv(cal, s) && ProtoPart(s, Sweep(now, faults, order)).Some?
    requires Turns(Log(Next(cal, s, Sweep(now, faults, order)).proto, id)) != Turns(Log(s.proto, id))
    ensures var t := Next(cal, s, Sweep(now, faults, order)).pipe;
            SameButAsked(s.pipe, t) && Announcer(t, |s.pipe.senders|, id, h, |Log(s.proto, id)|)
  {
    assert Inv(cal, s.proto) && s.pipe.db.checks == s.proto.st.rows;
    hide *;
    SweepIs(cal, s, now, faults, order);
    SweepParts(cal, s, now, faults, order);
    SweepMain(s, now, faults, order);
    InvCoherent(cal, s.proto);
    NoSlugs(cal, s.proto);
    ListsDistinct(order, Expired(s.proto.st, now, faults));
    SweepLogs(cal, s.proto, now, faults, order, id);
    TurnsAdded(Log(s.proto, id), Log(Step(cal, s.proto, Evaluate(now, faults)), id), if id in order then [AlertDown] else []);
    var cache, down := s.proto.st.cache, DownJobs(s.proto, order, now);
    var saves, begin := Saves(cache, order, now), Q.BeginPass(down);
    SavesAre(cache, order, now);
    SavesRun(s.pipe, s.proto.st, order, |order|, now);
    ChecksSetIs(s.pipe, Q.Run(s.pipe, saves), SavedRows(s.proto.st, order, |order|, now));
    Q.RunOneMore(s.pipe, saves, begin);
    BeganAnnounces(s, Q.Run(s.pipe, saves), SavedRows(s.proto.st, order, |order|, now), order, now, id, h);
  }

  lemma BeganAnnounces(s: Joint, q: Q.State, rows: map<string, Row>, order: seq<string>, now: Instant, id: string, h: nat)
    requires q == s.pipe.(db := s.pipe.db.(checks := rows)) && !s.pipe.panicked && (s.pipe.main == Q.Serving || s.pipe.main == Q.ServerDown)
    requires Q.NoneLive(s.pipe.senders, Q.Pass) && Coherent(s.proto.st) && id in order
    requires forall k :: 0 <= k < |order| ==> order[k] in s.proto.st.cache && s.proto.st.cache[order[k]].id == order[k]
    ensures var t := Q.Step(q, Q.BeginPass(DownJobs(s.proto, order, now)));
            SameButAsked(s.pipe, t) && Announcer(t, |s.pipe.senders|, id, h, |Log(s.proto, id)|)
  {
    hide *;
    var down := DownJobs(s.proto, order, now);
    BeganPass(s.pipe, q, rows, down);
    var j := DownJobIn(s.proto, order, now, id);
    DownJobsNew(s.proto, order, now);
    DownJobsAt(down, s.proto, id);
    PassAnnounces(Q.Step(q, Q.BeginPass(down)), s.pipe.senders, down, j, |Log(s.proto, id)|, id, h);
  }

  /** A move that makes a transition leaves a sender that has it to announce, and nothing else of the pipeline differs. */
  lemma TurnAnnounced(cal: Calendar, s: Joint, m: Move, id: string, h: nat) returns (i: nat)
    requires JointInv(cal, s) && Turns(Log(Next(cal, s, m).proto, id)) != Turns(Log(s.proto, id))
    ensures var t := Next(cal, s, m).pipe;
            SameButAsked(s.pipe, t) && Announcer(t, i, id, h, |Log(s.proto, id)|) && Next(cal, s, m).past == s.past && !m.Crash?
    ensures i < |s.pipe.senders| ==> s.pipe.senders[i].jobs == [] && s.pipe.senders[i].outbox == []
  {
    assert Inv(cal, s.proto);
    if Plain(s, m) {
      PlainLogs(cal, s, m, id);
    } else {
      AliveNext(cal, s, m);
      hide Next, JointInv, Inv, SameButAsked, Announcer, Turns, Log;
      if m.Set? {
        SetAnnounces(cal, s, m.i, m.fault, id, h);
        i := m.i;
      } else {
        SweepAnnounces(cal, s, m.now, m.faults, m.order, id, h);
        i := |s.pipe.senders|;
      }
    }
  }

  lemma OpenAfter(p: Q.State, t: Q.State, id: string, h: nat)
    requires Open(p, id, h) && SameButAsked(p, t) && Sound(t.db)
    ensures Open(t, id, h)
  {
    hide Sound;
  }

  lemma OldRange(calls: map<string, seq<AlertType>>, s: State, x: Q.Sender, id: string)
    requires SenderLabelled(calls, x) && calls == s.calls
    ensures Ranged(x, id, 0, |Log(s, id)|)
  {
    LogIs(s, id);
    hide Log;
  }

  /** The moves that the pipeline makes by itself. */
  function Moves(events: seq<Q.Event>): (r: seq<Move>)
    ensures |r| == |events| && forall k :: 0 <= k < |r| ==> r[k] == Pipe(events[k])
  {
    seq(|events|, k requires 0 <= k < |events| => Pipe(events[k]))
  }

  lemma {:induction false} MovesRun(cal: Calendar, s: Joint, events: seq<Q.Event>)
    requires Piped(events)
    ensures From(cal, s, Moves(events)) == s.(pipe := Q.Run(s.pipe, events))
  {
    if events == [] {
      assert Moves(events) == [];
      RunNothing(s.pipe);
    } else {
      var most, e := events[..|events| - 1], events[|events| - 1];
      assert forall k :: 0 <= k < |most| ==> most[k] == events[k];
      MovesRun(cal, s, most);
      assert Moves(events) == Moves(most) + [Pipe(e)] && IsPiped(e);
      hide Q.Step, Next, IsPiped;
      FromOne(cal, s, Moves(most), Pipe(e));
      PipeMove(cal, s.(pipe := Q.Run(s.pipe, most)), e);
    }
  }

  lemma SentLogIs(s: Joint)
    requires |s.pipe.accepted| == |s.pipe.numbers|
    ensures SentLog(s) == s.past + Zip(s.pipe.accepted, s.pipe.numbers)
  {
  }

  lemma LiveWaiter(p: Q.State, k: nat, id: string, h: nat)
    requires Q.Ordered(p) && k < |p.senders| && WaitsFor(p.senders[k], id, h)
    ensures Q.Live(p, k) && p.started && !Silent(p.senders[k], id)
  {
    var x := p.senders[k];
    assert x.jobs != [] || x.outbox != [];
    assert (exists j :: j in x.jobs && JobOf(j, id)) || (exists ev :: ev in x.outbox && EventOf(ev, id)) by {
      if ev :| ev in x.outbox && OnChannelOf(ev, id, h) {
        assert EventOf(ev, id);
      }
    }
    hide JobOf, EventOf, OnChannelOf, WaitsFor;
  }

  /** The waiting sender through the transition. */
  lemma StillThere(cal: Calendar, s: Joint, m: Move, k: nat, id: string)
    requires JointInv(cal, s) && Turns(Log(Next(cal, s, m).proto, id)) != Turns(Log(s.proto, id)) && !m.Crash?
    requires k < |s.pipe.senders| && !Silent(s.pipe.senders[k], id)
    ensures var t := Next(cal, s, m).pipe; k < |t.senders| && t.senders[k] == s.pipe.senders[k]
  {
    assert Inv(cal, s.proto);
    hide *;
    TurnParts(cal, s, m, id);
    AliveNext(cal, s, m);
    StillWaiting(s.pipe, PipePart(cal, s, m), k, id);
  }

  /** From two waiting senders, the later one announced first. */
  lemma LaterFirst(p: Q.State, i: nat, k: nat, past: seq<Sent>, id: string, h: nat, n: nat) returns (events: seq<Q.Event>)
    requires Open(p, id, h) && |p.queue| <= CAPACITY && i != k
    requires Announcer(p, i, id, h, n)
    requires Q.Live(p, k) && WaitsFor(p.senders[k], id, h) && Ranged(p.senders[k], id, 0, n)
    ensures Piped(events) && var t := Q.Run(p, events); |t.accepted| == |t.numbers| && !InCallOrder(past + Zip(t.accepted, t.numbers), id)
  {
    var high := Highest(p.senders[i].jobs);
    assert Ranged(p.senders[i], id, n, high);
    assert Q.Live(p, i) && WaitsFor(p.senders[i], id, h);
    hide WaitsFor, Ranged, Announcer, Open, Zip, InCallOrder;
    var first, x := Announce(p, i, id, h, n, high);
    var t := Q.Run(p, first);
    assert k < |t.senders| && t.senders[k] == p.senders[k] && Q.Live(t, k);
    var then2, y := Announce(t, k, id, h, 0, n);
    var u := Q.Run(t, then2);
    hide *;
    RunJoin(p, first, then2);
    PipedJoin(first, then2);
    OutOfOrder(p, t, u, x, y, past, id, h, n, high);
    Counted(u, id, h);
    events := first + then2;
  }

  /** More than any number of a job. */
  function Highest(jobs: seq<Q.Job>): (n: nat)
    ensures forall j :: j in jobs ==> j.n < n
  {
    if jobs == [] then 0 else
    var most, last := jobs[..|jobs| - 1], jobs[|jobs| - 1];
    assert jobs == most + [last];
    if Highest(most) <= last.n then last.n + 1 else Highest(most)
  }

  /** The converse of order: if, while the queue is open, a check makes a transition with an earlier one still to be
      announced on a channel that is attached, then the run can go on so that the later alert enters the queue before the
      earlier one. */
  lemma UnsettledCanOvertake(cal: Calendar, s: Joint, moves: seq<Move>, m: Move, id: string, h: nat, k: nat) returns (rest: seq<Move>)
    requires Begins(cal, s) && NoCrash(moves)
    requires var t := From(cal, s, moves);
             && Turns(Log(Next(cal, t, m).proto, id)) != Turns(Log(t.proto, id))
             && t.pipe.main != Q.Closed && t.pipe.main != Q.Exited && !t.pipe.panicked && h in Attached(t.pipe.db, id)
             && k < |t.pipe.senders| && WaitsFor(t.pipe.senders[k], id, h)
    ensures !InCallOrder(SentLog(From(cal, s, moves + [m] + rest)), id)
  {
    var t := From(cal, s, moves);
    var u := Next(cal, t, m);
    assert JointInv(cal, s) && Sound(s.pipe.db) && s.pipe == Q.Init(s.pipe.db);
    LifeRuns(cal, s, moves);
    Q.RunInvariant(s.pipe.db, PipeEvents(cal, s, moves));
    FromKeeps(cal, s, moves);
    AlwaysSoundStore(cal, s, moves);
    assert |t.pipe.accepted| == |t.pipe.numbers| && |t.pipe.queue| <= CAPACITY && SenderLabelled(t.proto.calls, t.pipe.senders[k]);
    LiveWaiter(t.pipe, k, id, h);
    assert Open(t.pipe, id, h);
    NextSound(cal, t, m);
    hide *;
    var i := TurnAnnounced(cal, t, m, id, h);
    OpenAfter(t.pipe, u.pipe, id, h);
    OldRange(t.proto.calls, t.proto, t.pipe.senders[k], id);
    StillThere(cal, t, m, k, id);
    StillLive(u.pipe, k, t.pipe.senders[k]) by { LiveIs(t.pipe, k); }
    NotIdle(t.pipe.senders[k], id, h);
    QueueSame(t.pipe, u.pipe);
    var events := LaterFirst(u.pipe, i, k, u.past, id, h, |Log(t.proto, id)|);
    rest := Moves(events);
    MovesRun(cal, u, events);
    SentLogIs(From(cal, u, rest));
    FromOne(cal, s, moves, m);
    FromTwice(cal, s, moves + [m], rest);
  }

  lemma QueueSame(p: Q.State, t: Q.State)
    requires SameButAsked(p, t)
    ensures t.queue == p.queue
  {
  }

  lemma LiveIs(p: Q.State, k: nat)
    requires Q.Live(p, k)
    ensures k < |p.senders| && !p.senders[k].done
  {
  }

  lemma NotIdle(x: Q.Sender, id: string, h: nat)
    requires WaitsFor(x, id, h)
    ensures x.jobs != [] || x.outbox != []
  {
  }
}
