/** Checks and alerts together. The protocol's writes call for alerts; a separate phase, in the sending goroutine, lists
    the channels and sends them, with any number of other steps in between. */
module Announcements {
  import opened Text
  import opened TimeCodec
  import opened Schedule
  import opened Model
  import opened CheckRows
  import opened Transitions
  import opened WriteThrough
  import opened Tables
  import opened Integrity
  import opened Protocol
  import opened Coherence
  import opened Alternation
  import Q = Pipeline

  /** An event the queue accepted, and the number of the call it is for among the calls of its check. */
  datatype Sent = Sent(event: AlertEvent, n: nat)

  /** `past` is what the queue accepted in earlier lives of the process. */
  datatype Joint = Joint(proto: State, pipe: Q.State, past: seq<Sent>)

  /** A request is the handler that serves it: its number is its place among the senders. */
  datatype Move =
    | Get(i: nat, req: Request)
    | Set(i: nat, fault: bool)
    | Sweep(now: Instant, faults: set<string>, order: seq<string>)  // the locked phase, taking checks down in some order
    | Make(id: string, form: Form, now: Instant, fault: bool)
    | Drop(id: string, fault: bool)
    | Pipe(e: Q.Event)
    | Crash                                                          // the process ends, and another one starts

  ghost const Start := Joint(Protocol.Init, Q.Init(Empty), [])

  /** What the pipeline does by itself: everything but writes to checks and the alerts they call for. */
  predicate IsPiped(e: Q.Event)
  {
    match e
    case Ask(_, _) => false
    case BeginPass(_) => false
    case Other(stmt, _) => !stmt.MakeCheck? && !stmt.SaveCheck? && !stmt.DropCheck? && !stmt.Deliver?
    case _ => true
  }

  /** The alerts called for, numbered on from those before. */
  function JobsFrom(c: Check, alerts: seq<AlertType>, n: nat): (r: seq<Q.Job>)
    ensures |r| == |alerts| && forall k :: 0 <= k < |r| ==> r[k] == Q.Job(c, alerts[k], n + k)
  {
    seq(|alerts|, k requires 0 <= k < |alerts| => Q.Job(c, alerts[k], n + k))
  }

  predicate Lists(order: seq<string>, ids: set<string>)
  {
    && (forall k :: 0 <= k < |order| ==> order[k] in ids)
    && (forall id :: id in ids ==> id in order)
    && (forall j, k :: 0 <= j < k < |order| ==> order[j] != order[k])
  }

  /** One update per check taken down. */
  function Saves(cache: map<string, Check>, order: seq<string>, now: Instant): (r: seq<Q.Event>)
    requires forall k :: 0 <= k < |order| ==> order[k] in cache
    ensures |r| == |order|
  {
    seq(|order|, k requires 0 <= k < |order| => Q.Other(SaveCheck(MarkDown(cache[order[k]], now)), false))
  }

  /** One alert per check taken down. */
  function DownJobs(s: State, order: seq<string>, now: Instant): (r: seq<Q.Job>)
    requires forall k :: 0 <= k < |order| ==> order[k] in s.st.cache
    ensures |r| == |order|
    ensures forall k :: 0 <= k < |r| ==> r[k] == Q.Job(MarkDown(s.st.cache[order[k]], now), AlertDown, |Log(s, order[k])|)
  {
    seq(|order|, k requires 0 <= k < |order| => Q.Job(MarkDown(s.st.cache[order[k]], now), AlertDown, |Log(s, order[k])|))
  }

  predicate Idle(s: Q.State, i: nat)
  {
    Q.Live(s, i) && s.senders[i].role == Q.Handler && s.senders[i].jobs == [] && s.senders[i].outbox == []
  }

  /** The protocol's part of a move; None when the move is not enabled or has none. */
  function ProtoPart(s: Joint, m: Move): Option<Event>
  {
    if s.pipe.panicked && !m.Crash? then None else
    match m
    case Get(i, req) => if Idle(s.pipe, i) then Some(Begin(i, req)) else None
    case Set(i, fault) => if Idle(s.pipe, i) && i in s.proto.pending then Some(Commit(i, fault)) else None
    case Sweep(now, faults, order) =>
      if (s.pipe.main == Q.Serving || s.pipe.main == Q.ServerDown) && Q.NoneLive(s.pipe.senders, Q.Pass)
         && Lists(order, Expired(s.proto.st, now, faults)) then Some(Evaluate(now, faults))
      else None
    case Make(id, form, now, fault) => if s.pipe.main == Q.Serving then Some(CreateCheck(id, form, now, fault)) else None
    case Drop(id, fault) => if s.pipe.main == Q.Serving then Some(DeleteCheck(id, fault)) else None
    case Pipe(_) => None
    case Crash => if Hydrate(s.proto.st.rows).Some? then Some(Restart) else None
  }

  /** The pipeline's part: the statements on the store, and the alerts called for. */
  function PipePart(cal: Calendar, s: Joint, m: Move): seq<Q.Event>
  {
    match m
    case Get(_, _) => []
    case Pipe(e) => if IsPiped(e) then [e] else []
    case Crash => []
    case Set(i, fault) =>
      if ProtoPart(s, m).None? then [] else
      var p := s.proto.pending[i];
      [Q.Other(SaveCheck(p.copy), fault)] +
      if !fault && p.copy.id in s.proto.st.rows then [Q.Ask(i, JobsFrom(p.copy, AlertsFor(p.base, p.req), |Log(s.proto, p.copy.id)|))] else []
    case Sweep(now, _, order) =>
      if ProtoPart(s, m).None? then [] else
      Saves(s.proto.st.cache, order, now) + [Q.BeginPass(DownJobs(s.proto, order, now))]
    case Make(id, form, now, fault) =>
      if ProtoPart(s, m).None? || id in s.proto.used || ParseCheckForm(cal, form).None? then [] else
      (match NewCheck(cal, id, ParseCheckForm(cal, form).value, now)
       case None => []
       case Some(c) => [Q.Other(MakeCheck(c), fault)])
    case Drop(id, fault) => if ProtoPart(s, m).None? then [] else [Q.Other(DropCheck(id), fault)]
  }

  function Zip(events: seq<AlertEvent>, numbers: seq<nat>): (r: seq<Sent>)
    requires |events| == |numbers|
    ensures |r| == |events| && forall k :: 0 <= k < |r| ==> r[k] == Sent(events[k], numbers[k])
  {
    seq(|events|, k requires 0 <= k < |events| => Sent(events[k], numbers[k]))
  }

  /** Everything the queue ever accepted. */
  function SentLog(s: Joint): seq<Sent>
  {
    s.past + if |s.pipe.accepted| == |s.pipe.numbers| then Zip(s.pipe.accepted, s.pipe.numbers) else []
  }

  ghost function Next(cal: Calendar, s: Joint, m: Move): Joint
  {
    var e := ProtoPart(s, m);
    if m.Crash? then
      if e.None? then s else Joint(Step(cal, s.proto, e.value), Q.Init(s.pipe.db), SentLog(s))
    else
      Joint(if e.Some? then Step(cal, s.proto, e.value) else s.proto, Q.Run(s.pipe, PipePart(cal, s, m)), s.past)
  }

  ghost function Play(cal: Calendar, moves: seq<Move>): Joint
  {
    if moves == [] then Start else Next(cal, Play(cal, moves[..|moves| - 1]), moves[|moves| - 1])
  }

  // What every run keeps: the store is the protocol's table, and every alert on its way is one that was called for.

  function LogOf(calls: map<string, seq<AlertType>>, id: string): seq<AlertType>
  {
    if id in calls then calls[id] else []
  }

  /** The log of a check has this alert at that place. */
  predicate Labelled(calls: map<string, seq<AlertType>>, c: Check, alert: AlertType, n: nat)
  {
    n < |LogOf(calls, c.id)| && LogOf(calls, c.id)[n] == alert
  }

  ghost predicate JobsLabelled(calls: map<string, seq<AlertType>>, jobs: seq<Q.Job>)
  {
    forall j :: j in jobs ==> Labelled(calls, j.check, j.alert, j.n)
  }

  ghost predicate SenderLabelled(calls: map<string, seq<AlertType>>, x: Q.Sender)
  {
    JobsLabelled(calls, x.jobs) && forall ev :: ev in x.outbox ==> Labelled(calls, ev.check, ev.alert, x.current)
  }

  ghost predicate SentLabelled(calls: map<string, seq<AlertType>>, sent: seq<Sent>)
  {
    forall k :: 0 <= k < |sent| ==> Labelled(calls, sent[k].event.check, sent[k].event.alert, sent[k].n)
  }

  ghost predicate PipeLabelled(calls: map<string, seq<AlertType>>, p: Q.State)
  {
    && (forall i :: 0 <= i < |p.senders| ==> SenderLabelled(calls, p.senders[i]))
    && |p.accepted| == |p.numbers| && SentLabelled(calls, Zip(p.accepted, p.numbers))
  }

  ghost predicate Grown(a: map<string, seq<AlertType>>, b: map<string, seq<AlertType>>)
  {
    forall id :: LogOf(a, id) <= LogOf(b, id)
  }

  lemma LabelsGrow(a: map<string, seq<AlertType>>, b: map<string, seq<AlertType>>, p: Q.State, past: seq<Sent>)
    requires Grown(a, b) && PipeLabelled(a, p) && SentLabelled(a, past)
    ensures PipeLabelled(b, p) && SentLabelled(b, past)
  {
    forall c: Check, alert, n: nat | Labelled(a, c, alert, n) ensures Labelled(b, c, alert, n) {
      assert LogOf(a, c.id) <= LogOf(b, c.id);
    }
    hide Labelled, Grown;
    forall i | 0 <= i < |p.senders| ensures SenderLabelled(b, p.senders[i]) {
      assert SenderLabelled(a, p.senders[i]);
    }
  }

  /** The pipeline sends only what it was asked to send. */
  ghost predicate AskLabelled(calls: map<string, seq<AlertType>>, e: Q.Event)
  {
    (e.Ask? ==> JobsLabelled(calls, e.wanted)) && (e.BeginPass? ==> JobsLabelled(calls, e.down))
  }

  lemma SendLabelled(calls: map<string, seq<AlertType>>, p: Q.State, i: nat)
    requires PipeLabelled(calls, p) && Q.Live(p, i) && p.senders[i].outbox != []
    ensures PipeLabelled(calls, Q.Sent(p, i))
  {
    hide Labelled, JobsLabelled;
    var x := p.senders[i];
    assert SenderLabelled(calls, x) && SenderLabelled(calls, x.(outbox := x.outbox[1..]));
    hide SenderLabelled;
    var t := Q.Sent(p, i);
    if t.accepted != p.accepted {
      assert Zip(t.accepted, t.numbers) == Zip(p.accepted, p.numbers) + [Sent(x.outbox[0], x.current)];
    }
  }

  lemma EnlistLabelled(calls: map<string, seq<AlertType>>, p: Q.State, i: nat, fault: bool)
    requires PipeLabelled(calls, p) && Q.Live(p, i) && p.senders[i].jobs != []
    ensures PipeLabelled(calls, Q.Enlisted(p, i, fault))
  {
    hide Labelled, ListChannels;
    var x, t := p.senders[i], Q.Enlisted(p, i, fault);
    assert SenderLabelled(calls, x) && x.jobs[0] in x.jobs;
    assert SenderLabelled(calls, t.senders[i]);
    hide SenderLabelled;
  }

  lemma AddedLabelled(calls: map<string, seq<AlertType>>, p: Q.State, x: Q.Sender, t: Q.State)
    requires PipeLabelled(calls, p) && SenderLabelled(calls, x) && t.accepted == p.accepted && t.numbers == p.numbers
    requires t.senders == p.senders + [x]
    ensures PipeLabelled(calls, t)
  {
    hide SenderLabelled, SentLabelled;
  }

  lemma UpdatedLabelled(calls: map<string, seq<AlertType>>, p: Q.State, i: nat, x: Q.Sender, t: Q.State)
    requires PipeLabelled(calls, p) && SenderLabelled(calls, x) && t.accepted == p.accepted && t.numbers == p.numbers
    requires i < |p.senders| && t.senders == p.senders[i := x]
    ensures PipeLabelled(calls, t)
  {
    hide SenderLabelled, SentLabelled;
  }

  lemma PipeStepLabelled(calls: map<string, seq<AlertType>>, p: Q.State, e: Q.Event)
    requires PipeLabelled(calls, p) && AskLabelled(calls, e)
    ensures PipeLabelled(calls, Q.Step(p, e))
  {
    hide Labelled, JobsLabelled, Dispatch, Execute, Q.NoneLive, Q.Sent, Q.Enlisted, PipeLabelled;
    if p.panicked {
      return;
    }
    match e
    case Arrive =>
      if p.main == Q.Serving {
        NothingLabelled(calls);
        AddedLabelled(calls, p, Q.Sender(Q.Handler, [], 0, [], false), Q.Step(p, e));
      }
    case Ask(i, wanted) =>
      if Idle(p, i) {
        UpdatedLabelled(calls, p, i, p.senders[i].(jobs := wanted), Q.Step(p, e));
      }
    case BeginPass(down) =>
      if Q.Step(p, e) != p {
        AddedLabelled(calls, p, Q.Sender(Q.Pass, down, 0, [], false), Q.Step(p, e));
      }
    case Enlist(i, fault) =>
      if Q.Live(p, i) && p.senders[i].jobs != [] {
        EnlistLabelled(calls, p, i, fault);
      }
    case Send(i) =>
      if Q.Live(p, i) && p.senders[i].outbox != [] {
        SendLabelled(calls, p, i);
      }
    case Finish(i) =>
      if Q.Step(p, e) != p {
        SenderAt(calls, p, i);
        UpdatedLabelled(calls, p, i, p.senders[i].(done := true), Q.Step(p, e));
      }
    case _ => OnlySenders(calls, p, Q.Step(p, e));
  }

  lemma NothingLabelled(calls: map<string, seq<AlertType>>)
    ensures JobsLabelled(calls, [])
  {
  }

  lemma SenderAt(calls: map<string, seq<AlertType>>, p: Q.State, i: nat)
    requires PipeLabelled(calls, p) && i < |p.senders|
    ensures SenderLabelled(calls, p.senders[i])
  {
  }

  lemma OnlySenders(calls: map<string, seq<AlertType>>, p: Q.State, t: Q.State)
    requires PipeLabelled(calls, p) && t.senders == p.senders && t.accepted == p.accepted && t.numbers == p.numbers
    ensures PipeLabelled(calls, t)
  {
    hide SenderLabelled, SentLabelled;
  }

  lemma {:induction false} PipeRunLabelled(calls: map<string, seq<AlertType>>, p: Q.State, events: seq<Q.Event>)
    requires PipeLabelled(calls, p) && forall k :: 0 <= k < |events| ==> AskLabelled(calls, events[k])
    ensures PipeLabelled(calls, Q.Run(p, events))
  {
    hide PipeLabelled, AskLabelled, Q.Step;
    if events != [] {
      var most := events[..|events| - 1];
      assert forall k :: 0 <= k < |most| ==> most[k] == events[k];
      PipeRunLabelled(calls, p, most);
      PipeStepLabelled(calls, Q.Run(p, most), events[|events| - 1]);
    }
  }

  // The store is the protocol's table.

  lemma DispatchKeepsChecks(db: Db, ev: AlertEvent, luck: Luck)
    ensures Dispatch(db, ev, luck).checks == db.checks
  {
    hide FormatTime, NoteError;
  }

  lemma OtherKeepsChecks(db: Db, stmt: Statement, fault: bool)
    requires !stmt.MakeCheck? && !stmt.SaveCheck? && !stmt.DropCheck? && !stmt.Deliver?
    ensures Execute(db, stmt, fault).checks == db.checks
  {
    hide FormatTime, Recent;
  }

  lemma PipedKeepsChecks(p: Q.State, e: Q.Event)
    requires IsPiped(e)
    ensures Q.Step(p, e).db.checks == p.db.checks
  {
    hide ListChannels, Q.EventsOfListing, Q.NoneLive, Dispatch, Execute;
    if e.Record? && p.inFlight.Some? {
      DispatchKeepsChecks(p.db, p.inFlight.value, e.luck);
    } else if e.Other? {
      OtherKeepsChecks(p.db, e.stmt, e.fault);
    }
  }

  lemma RunTwo(p: Q.State, a: Q.Event, b: Q.Event)
    ensures Q.Run(p, [a]) == Q.Step(p, a) && Q.Run(p, [a] + [b]) == Q.Step(Q.Step(p, a), b)
  {
    assert Q.Run(p, []) == p;
    hide Q.Step;
    Q.RunOneMore(p, [], a);
    assert [] + [a] == [a];
    Q.RunOneMore(p, [a], b);
  }

  lemma SaveStep(p: Q.State, c: Check, fault: bool)
    requires !p.panicked
    ensures Q.Step(p, Q.Other(SaveCheck(c), fault)) == p.(db := p.db.(checks := Update(p.db.checks, c, fault).0))
    ensures Q.Step(p, Q.Other(MakeCheck(c), fault)) == p.(db := p.db.(checks := Insert(p.db.checks, c, fault).0))
  {
    hide RowOf, Updated;
  }

  lemma DropStep(p: Q.State, id: string, fault: bool)
    requires !p.panicked
    ensures Q.Step(p, Q.Other(DropCheck(id), fault)).db.checks == Remove(p.db.checks, id, fault).0
  {
  }

  lemma AskStep(p: Q.State, e: Q.Event)
    requires e.Ask? || e.BeginPass?
    ensures Q.Step(p, e).db == p.db && Q.Step(p, e).panicked == p.panicked
  {
    hide Q.NoneLive;
  }

  /** The rows after the first updates of a pass. */
  function SavedRows(st: Stores, order: seq<string>, n: nat, now: Instant): map<string, Row>
    requires st.cache.Keys == st.rows.Keys && n <= |order| && forall k :: 0 <= k < |order| ==> order[k] in st.cache
  {
    map id | id in st.rows :: if id in order[..n] then Updated(st.rows[id], MarkDown(st.cache[id], now)) else st.rows[id]
  }

  lemma SavedMore(st: Stores, order: seq<string>, n: nat, now: Instant)
    requires Coherent(st) && n < |order| && (forall k :: 0 <= k < |order| ==> order[k] in st.cache)
    requires forall j, k :: 0 <= j < k < |order| ==> order[j] != order[k]
    ensures SavedRows(st, order, n + 1, now) == Update(SavedRows(st, order, n, now), MarkDown(st.cache[order[n]], now), false).0
  {
    hide RowOf, Updated;
    assert order[..n + 1] == order[..n] + [order[n]];
    assert order[n] !in order[..n];
  }

  lemma SavesSplit(cache: map<string, Check>, order: seq<string>, n: nat, now: Instant)
    requires n < |order| && forall k :: 0 <= k < |order| ==> order[k] in cache
    ensures var events := Saves(cache, order, now);
            events[..0] == [] && events[..n + 1] == events[..n] + [Q.Other(SaveCheck(MarkDown(cache[order[n]], now)), false)]
  {
    hide MarkDown;
  }

  /** Only the checks table differs. */
  ghost predicate ChecksSet(p: Q.State, t: Q.State, rows: map<string, Row>)
  {
    t == p.(db := p.db.(checks := rows))
  }

  lemma ChecksSetTwice(p: Q.State, t: Q.State, u: Q.State, c: Check, rows: map<string, Row>)
    requires ChecksSet(p, t, rows) && !p.panicked && u == Q.Step(t, Q.Other(SaveCheck(c), false))
    ensures ChecksSet(p, u, Update(rows, c, false).0)
  {
    hide Update, Q.Step;
    SaveStep(t, c, false);
  }

  lemma NothingSaved(p: Q.State, st: Stores, order: seq<string>, now: Instant)
    requires st.cache.Keys == st.rows.Keys && p.db.checks == st.rows && forall k :: 0 <= k < |order| ==> order[k] in st.cache
    ensures ChecksSet(p, Q.Run(p, Saves(st.cache, order, now)[..0]), SavedRows(st, order, 0, now))
  {
    assert SavedRows(st, order, 0, now) == st.rows;
    assert Saves(st.cache, order, now)[..0] == [];
    assert Q.Run(p, []) == p;
    hide *;
    assert ChecksSet(p, p, st.rows) by { SameChecks(p); }
  }

  lemma SameChecks(p: Q.State)
    ensures ChecksSet(p, p, p.db.checks)
  {
  }

  lemma {:induction false} SavesRun(p: Q.State, st: Stores, order: seq<string>, n: nat, now: Instant)
    requires Coherent(st) && st.cache.Keys == st.rows.Keys && p.db.checks == st.rows && !p.panicked && n <= |order|
    requires (forall k :: 0 <= k < |order| ==> order[k] in st.cache) && forall j, k :: 0 <= j < k < |order| ==> order[j] != order[k]
    ensures ChecksSet(p, Q.Run(p, Saves(st.cache, order, now)[..n]), SavedRows(st, order, n, now))
  {
    hide *;
    if n == 0 {
      NothingSaved(p, st, order, now);
    } else {
      SavesRun(p, st, order, n - 1, now);
      SavedMore(st, order, n - 1, now);
      SavesSplit(st.cache, order, n - 1, now);
      var before, c := Saves(st.cache, order, now)[..n - 1], MarkDown(st.cache[order[n - 1]], now);
      Q.RunOneMore(p, before, Q.Other(SaveCheck(c), false));
      ChecksSetTwice(p, Q.Run(p, before), Q.Run(p, Saves(st.cache, order, now)[..n]), c, SavedRows(st, order, n - 1, now));
    }
  }

  lemma SavedAll(st: Stores, order: seq<string>, now: Instant, faults: set<string>)
    requires Coherent(st) && Lists(order, Expired(st, now, faults))
    ensures forall k :: 0 <= k < |order| ==> order[k] in st.cache
    ensures SavedRows(st, order, |order|, now) == Tick(st, now, faults).rows
  {
    hide RowOf, Updated, Overdue;
    assert order[..|order|] == order;
  }

  ghost predicate JointInv(cal: Calendar, s: Joint)
  {
    && Inv(cal, s.proto) && s.pipe.db.checks == s.proto.st.rows
    && PipeLabelled(s.proto.calls, s.pipe) && SentLabelled(s.proto.calls, s.past)
  }

  lemma CallsGrow(cal: Calendar, s: State, e: Event)
    requires Inv(cal, s)
    ensures Grown(s.calls, Step(cal, s, e).calls)
  {
    hide Inv, Step, Logged;
    forall id ensures LogOf(s.calls, id) <= LogOf(Step(cal, s, e).calls, id) {
      LogStep(cal, s, e, id);
    }
  }

  lemma CommitRows(cal: Calendar, s: State, i: nat, fault: bool)
    requires i in s.pending
    ensures Step(cal, s, Commit(i, fault)).st.rows == Update(s.st.rows, s.pending[i].copy, fault).0
  {
    hide AlertsFor, Updated, MarkStale, Call;
  }

  lemma SameKeys(cal: Calendar, s: State)
    requires Inv(cal, s)
    ensures s.st.cache.Keys == s.st.rows.Keys
  {
    InvCoherent(cal, s);
    hide Inv, RowOf;
  }

  lemma CommitStores(cal: Calendar, s: State, i: nat, fault: bool)
    requires Inv(cal, s) && i in s.pending
    ensures Step(cal, s, Commit(i, fault)).st.rows == Update(s.st.rows, s.pending[i].copy, fault).0
    ensures var p := s.pending[i];
            !fault && p.copy.id in s.st.rows ==> Log(Step(cal, s, Commit(i, fault)), p.copy.id) == Log(s, p.copy.id) + AlertsFor(p.base, p.req)
  {
    hide *;
    var p := s.pending[i];
    CommitRows(cal, s, i, fault);
    SameKeys(cal, s);
    LogStep(cal, s, Commit(i, fault), p.copy.id);
    CommitLogged(cal, s, i, fault, p.copy.id);
  }

  lemma JobsFromLabelled(calls: map<string, seq<AlertType>>, c: Check, alerts: seq<AlertType>, log: seq<AlertType>)
    requires LogOf(calls, c.id) == log + alerts
    ensures JobsLabelled(calls, JobsFrom(c, alerts, |log|))
  {
    var jobs := JobsFrom(c, alerts, |log|);
    forall j | j in jobs ensures Labelled(calls, j.check, j.alert, j.n) {
      var k :| 0 <= k < |jobs| && jobs[k] == j;
      assert (log + alerts)[|log| + k] == alerts[k];
    }
  }

  ghost predicate AsksLabelled(calls: map<string, seq<AlertType>>, events: seq<Q.Event>)
  {
    forall k :: 0 <= k < |events| ==> AskLabelled(calls, events[k])
  }

  lemma AsksJoin(calls: map<string, seq<AlertType>>, a: seq<Q.Event>, e: Q.Event)
    requires AsksLabelled(calls, a) && AskLabelled(calls, e)
    ensures AsksLabelled(calls, a + [e])
  {
    hide AskLabelled;
  }

  lemma QuietAsks(calls: map<string, seq<AlertType>>, e: Q.Event)
    ensures AsksLabelled(calls, [])
    ensures !e.Ask? && !e.BeginPass? ==> AsksLabelled(calls, [e])
  {
  }

  lemma RunNothing(p: Q.State)
    ensures Q.Run(p, []) == p
  {
  }

  lemma SetParts(cal: Calendar, s: Joint, i: nat, fault: bool)
    requires ProtoPart(s, Set(i, fault)).Some?
    ensures i in s.proto.pending && ProtoPart(s, Set(i, fault)) == Some(Commit(i, fault)) && !s.pipe.panicked
    ensures var p := s.proto.pending[i];
            PipePart(cal, s, Set(i, fault)) ==
            [Q.Other(SaveCheck(p.copy), fault)] +
            if !fault && p.copy.id in s.proto.st.rows then [Q.Ask(i, JobsFrom(p.copy, AlertsFor(p.base, p.req), |Log(s.proto, p.copy.id)|))] else []
  {
    hide JobsFrom, AlertsFor, Log;
  }

  /** After the pipeline's part the store is the protocol's table, and what was asked for was called for. */
  ghost predicate Agrees(cal: Calendar, s: Joint, m: Move, t: State)
  {
    Q.Run(s.pipe, PipePart(cal, s, m)).db.checks == t.st.rows && AsksLabelled(t.calls, PipePart(cal, s, m))
  }

  lemma SetKeeps(cal: Calendar, s: Joint, i: nat, fault: bool)
    requires Inv(cal, s.proto) && s.pipe.db.checks == s.proto.st.rows && ProtoPart(s, Set(i, fault)).Some?
    ensures Agrees(cal, s, Set(i, fault), Step(cal, s.proto, Commit(i, fault)))
  {
    hide PipePart, ProtoPart, Inv, Step, Q.Step, Q.Run, JobsFrom, AlertsFor, Update, AsksLabelled, Log, AskLabelled;
    SetParts(cal, s, i, fault);
    var p := s.proto.pending[i];
    var save, log := Q.Other(SaveCheck(p.copy), fault), Log(s.proto, p.copy.id);
    var ask := Q.Ask(i, JobsFrom(p.copy, AlertsFor(p.base, p.req), |log|));
    var t := Step(cal, s.proto, Commit(i, fault));
    CommitStores(cal, s.proto, i, fault);
    RunTwo(s.pipe, save, ask);
    SaveStep(s.pipe, p.copy, fault);
    QuietAsks(t.calls, save);
    if !fault && p.copy.id in s.proto.st.rows {
      AskStep(Q.Step(s.pipe, save), ask);
      LogIs(t, p.copy.id);
      JobsFromLabelled(t.calls, p.copy, AlertsFor(p.base, p.req), log);
      AskedIs(t.calls, ask);
      AsksJoin(t.calls, [save], ask);
    } else {
      assert [save] + [] == [save];
    }
  }

  lemma LogIs(s: State, id: string)
    ensures LogOf(s.calls, id) == Log(s, id)
  {
  }

  lemma ExpiredStored(s: State, now: Instant, faults: set<string>, id: string)
    requires Coherent(s.st) && id in Expired(s.st, now, faults)
    ensures Expires(s.st, id, now, faults) && id in s.st.cache && s.st.cache[id].id == id
  {
    hide RowOf, Overdue;
  }

  lemma EvaluateIsPass(cal: Calendar, s: State, now: Instant, faults: set<string>)
    ensures Step(cal, s, Evaluate(now, faults)) == Pass(s, now, faults)
  {
    hide Pass, Look, Write, Hydrate;
  }

  lemma EvaluateLogs(cal: Calendar, s: State, now: Instant, faults: set<string>, id: string)
    requires Inv(cal, s) && id in Expired(s.st, now, faults)
    ensures Log(Step(cal, s, Evaluate(now, faults)), id) == Log(s, id) + [AlertDown] && id in s.st.cache && s.st.cache[id].id == id
  {
    hide *;
    EvaluateIsPass(cal, s, now, faults);
    InvCoherent(cal, s);
    ExpiredStored(s, now, faults, id);
    PassLog(s, now, faults, id);
  }

  lemma DownJobLabelled(cal: Calendar, s: State, now: Instant, faults: set<string>, id: string)
    requires Inv(cal, s) && id in Expired(s.st, now, faults) && id in s.st.cache
    ensures Labelled(Step(cal, s, Evaluate(now, faults)).calls, MarkDown(s.st.cache[id], now), AlertDown, |Log(s, id)|)
  {
    hide Inv, Step, Expired, Log;
    EvaluateLogs(cal, s, now, faults, id);
    LogIs(Step(cal, s, Evaluate(now, faults)), id);
  }

  lemma DownJobsLabelled(cal: Calendar, s: State, now: Instant, faults: set<string>, order: seq<string>)
    requires Inv(cal, s) && Lists(order, Expired(s.st, now, faults))
    requires forall k :: 0 <= k < |order| ==> order[k] in s.st.cache
    ensures JobsLabelled(Step(cal, s, Evaluate(now, faults)).calls, DownJobs(s, order, now))
  {
    hide Inv, Step, Expired, Log, Labelled, MarkDown;
    var jobs, t := DownJobs(s, order, now), Step(cal, s, Evaluate(now, faults));
    forall j | j in jobs ensures Labelled(t.calls, j.check, j.alert, j.n) {
      var k :| 0 <= k < |jobs| && jobs[k] == j;
      DownJobLabelled(cal, s, now, faults, order[k]);
    }
  }

  lemma SweepParts(cal: Calendar, s: Joint, now: Instant, faults: set<string>, order: seq<string>)
    requires ProtoPart(s, Sweep(now, faults, order)).Some?
    ensures Lists(order, Expired(s.proto.st, now, faults)) && !s.pipe.panicked
    ensures ProtoPart(s, Sweep(now, faults, order)) == Some(Evaluate(now, faults))
    ensures forall k :: 0 <= k < |order| ==> order[k] in s.proto.st.cache
    ensures PipePart(cal, s, Sweep(now, faults, order)) == Saves(s.proto.st.cache, order, now) + [Q.BeginPass(DownJobs(s.proto, order, now))]
  {
    hide Expires, Saves, DownJobs;
  }

  lemma EvaluateRows(cal: Calendar, s: State, now: Instant, faults: set<string>)
    ensures Step(cal, s, Evaluate(now, faults)).st == Tick(s.st, now, faults)
  {
    hide Tick, Expired;
  }

  lemma SweepRows(p: Q.State, st: Stores, order: seq<string>, now: Instant, faults: set<string>, begin: Q.Event)
    requires Coherent(st) && Lists(order, Expired(st, now, faults)) && p.db.checks == st.rows && !p.panicked && begin.BeginPass?
    requires forall k :: 0 <= k < |order| ==> order[k] in st.cache
    ensures Q.Run(p, Saves(st.cache, order, now) + [begin]).db.checks == Tick(st, now, faults).rows
  {
    var saves := Saves(st.cache, order, now);
    assert saves[..|order|] == saves;
    hide *;
    CoherentKeys(st);
    SavedAll(st, order, now, faults);
    ListsDistinct(order, Expired(st, now, faults));
    SavesRun(p, st, order, |order|, now);
    ChecksSetIs(p, Q.Run(p, saves), SavedRows(st, order, |order|, now));
    Q.RunOneMore(p, saves, begin);
    AskStep(Q.Run(p, saves), begin);
  }

  lemma SweepAsks(cal: Calendar, s: State, now: Instant, faults: set<string>, order: seq<string>)
    requires Inv(cal, s) && Lists(order, Expired(s.st, now, faults)) && forall k :: 0 <= k < |order| ==> order[k] in s.st.cache
    ensures AsksLabelled(Step(cal, s, Evaluate(now, faults)).calls, Saves(s.st.cache, order, now) + [Q.BeginPass(DownJobs(s, order, now))])
  {
    hide *;
    var t, begin := Step(cal, s, Evaluate(now, faults)), Q.BeginPass(DownJobs(s, order, now));
    SavesAskNothing(t.calls, s.st.cache, order, now);
    DownJobsLabelled(cal, s, now, faults, order);
    AskedIs(t.calls, begin);
    AsksJoin(t.calls, Saves(s.st.cache, order, now), begin);
  }

  lemma SweepKeeps(cal: Calendar, s: Joint, now: Instant, faults: set<string>, order: seq<string>)
    requires Inv(cal, s.proto) && s.pipe.db.checks == s.proto.st.rows && ProtoPart(s, Sweep(now, faults, order)).Some?
    ensures Agrees(cal, s, Sweep(now, faults, order), Step(cal, s.proto, Evaluate(now, faults)))
  {
    hide PipePart, ProtoPart, Inv, Step, Q.Run, Saves, DownJobs, Tick, Expired, Coherent, Lists, AsksLabelled;
    SweepParts(cal, s, now, faults, order);
    InvCoherent(cal, s.proto);
    EvaluateRows(cal, s.proto, now, faults);
    SweepRows(s.pipe, s.proto.st, order, now, faults, Q.BeginPass(DownJobs(s.proto, order, now)));
    SweepAsks(cal, s.proto, now, faults, order);
  }

  lemma AskedIs(calls: map<string, seq<AlertType>>, e: Q.Event)
    ensures AskLabelled(calls, e) <==> (e.Ask? ==> JobsLabelled(calls, e.wanted)) && (e.BeginPass? ==> JobsLabelled(calls, e.down))
  {
  }

  lemma ChecksSetIs(p: Q.State, t: Q.State, rows: map<string, Row>)
    requires ChecksSet(p, t, rows)
    ensures t == p.(db := p.db.(checks := rows))
  {
  }

  lemma CoherentKeys(st: Stores)
    requires Coherent(st)
    ensures st.cache.Keys == st.rows.Keys
  {
  }

  lemma ListsDistinct(order: seq<string>, ids: set<string>)
    requires Lists(order, ids)
    ensures forall j, k :: 0 <= j < k < |order| ==> order[j] != order[k]
  {
  }

  lemma SavesAskNothing(calls: map<string, seq<AlertType>>, cache: map<string, Check>, order: seq<string>, now: Instant)
    requires forall k :: 0 <= k < |order| ==> order[k] in cache
    ensures AsksLabelled(calls, Saves(cache, order, now))
  {
  }

  lemma MakeParts(cal: Calendar, s: Joint, m: Move)
    requires (m.Make? || m.Drop?) && ProtoPart(s, m).Some?
    ensures !s.pipe.panicked
    ensures var e := ProtoPart(s, m).value; var t := Step(cal, s.proto, e);
            if m.Drop? then PipePart(cal, s, m) == [Q.Other(DropCheck(m.id), m.fault)] && t.st.rows == Remove(s.proto.st.rows, m.id, m.fault).0
            else if PipePart(cal, s, m) == [] then t == s.proto
            else exists c :: PipePart(cal, s, m) == [Q.Other(MakeCheck(c), m.fault)] && t.st.rows == Insert(s.proto.st.rows, c, m.fault).0
  {
    hide ParseCheckForm, NewCheck, Insert, Remove;
    if m.Make? && PipePart(cal, s, m) != [] {
      var c := NewCheck(cal, m.id, ParseCheckForm(cal, m.form).value, m.now).value;
      assert PipePart(cal, s, m) == [Q.Other(MakeCheck(c), m.fault)];
    }
  }

  lemma MakeKeeps(cal: Calendar, s: Joint, m: Move)
    requires s.pipe.db.checks == s.proto.st.rows && (m.Make? || m.Drop?) && ProtoPart(s, m).Some?
    ensures Agrees(cal, s, m, Step(cal, s.proto, ProtoPart(s, m).value))
  {
    MakeParts(cal, s, m);
    var events, t := PipePart(cal, s, m), Step(cal, s.proto, ProtoPart(s, m).value);
    hide PipePart, ProtoPart, Step, Insert, Remove, Q.Run, Q.Step, AsksLabelled;
    if events == [] {
      RunNothing(s.pipe);
      QuietAsks(t.calls, Q.Arrive);
    } else {
      RunTwo(s.pipe, events[0], events[0]);
      QuietAsks(t.calls, events[0]);
      if m.Make? {
        SaveStep(s.pipe, events[0].stmt.check, m.fault);
      } else {
        DropStep(s.pipe, m.id, m.fault);
      }
    }
  }

  lemma PipeKeeps(cal: Calendar, s: Joint, e: Q.Event)
    requires s.pipe.db.checks == s.proto.st.rows
    ensures Agrees(cal, s, Pipe(e), s.proto)
  {
    hide Q.Step, Q.Run, AsksLabelled;
    RunTwo(s.pipe, e, e);
    RunNothing(s.pipe);
    QuietAsks(s.proto.calls, e);
    if IsPiped(e) {
      PipedKeepsChecks(s.pipe, e);
    }
  }

  /** The parts a move does not have. */
  lemma NoPart(cal: Calendar, s: Joint, m: Move)
    requires !m.Crash? && !m.Pipe? && (m.Get? || ProtoPart(s, m).None?)
    ensures PipePart(cal, s, m) == []
  {
  }

  lemma MoveAgrees(cal: Calendar, s: Joint, m: Move)
    requires Inv(cal, s.proto) && s.pipe.db.checks == s.proto.st.rows && !m.Crash?
    ensures Agrees(cal, s, m, Next(cal, s, m).proto)
  {
    var t := Next(cal, s, m).proto;
    assert t == if ProtoPart(s, m).Some? then Step(cal, s.proto, ProtoPart(s, m).value) else s.proto;
    PartKinds(s, m);
    hide Inv, Next, ProtoPart, PipePart, Step, Q.Run, AsksLabelled, Agrees;
    if m.Pipe? {
      PipeKeeps(cal, s, m.e);
    } else if m.Get? || ProtoPart(s, m).None? {
      GetKeeps(cal, s, m);
    } else if m.Set? {
      SetKeeps(cal, s, m.i, m.fault);
    } else if m.Sweep? {
      SweepKeeps(cal, s, m.now, m.faults, m.order);
    } else {
      MakeKeeps(cal, s, m);
    }
  }

  lemma PartKinds(s: Joint, m: Move)
    ensures m.Pipe? ==> ProtoPart(s, m).None?
    ensures m.Set? && ProtoPart(s, m).Some? ==> ProtoPart(s, m).value == Commit(m.i, m.fault)
    ensures m.Sweep? && ProtoPart(s, m).Some? ==> ProtoPart(s, m).value == Evaluate(m.now, m.faults)
    ensures m.Get? && ProtoPart(s, m).Some? ==> ProtoPart(s, m).value == Begin(m.i, m.req)
  {
  }

  lemma GetKeeps(cal: Calendar, s: Joint, m: Move)
    requires s.pipe.db.checks == s.proto.st.rows && !m.Crash? && !m.Pipe?
    requires ProtoPart(s, m).None? || (m.Get? && ProtoPart(s, m).value.Begin?)
    ensures Agrees(cal, s, m, if ProtoPart(s, m).Some? then Step(cal, s.proto, ProtoPart(s, m).value) else s.proto)
  {
    NoPart(cal, s, m);
    RunNothing(s.pipe);
    QuietAsks(s.proto.calls, Q.Arrive);
    BeginStores(cal, s.proto, ProtoPart(s, m));
    hide PipePart, ProtoPart, Step, Q.Run;
  }

  lemma BeginStores(cal: Calendar, s: State, e: Option<Event>)
    ensures e.Some? && e.value.Begin? ==> Step(cal, s, e.value).st == s.st && Step(cal, s, e.value).calls == s.calls
  {
    hide Look;
  }

  lemma NextKeeps(cal: Calendar, s: Joint, m: Move)
    requires JointInv(cal, s)
    ensures JointInv(cal, Next(cal, s, m))
  {
    var e, t := ProtoPart(s, m), Next(cal, s, m);
    if m.Crash? {
      if e.Some? {
        CrashKeeps(cal, s);
      }
    } else {
      assert t.proto == (if e.Some? then Step(cal, s.proto, e.value) else s.proto) && t.past == s.past
             && t.pipe == Q.Run(s.pipe, PipePart(cal, s, m));
      MoveAgrees(cal, s, m);
      assert t.pipe.db.checks == t.proto.st.rows && AsksLabelled(t.proto.calls, PipePart(cal, s, m));
      hide Next, ProtoPart, PipePart, Step, Q.Run, Inv, PipeLabelled, SentLabelled, Agrees;
      if e.Some? {
        StepKeeps(cal, s.proto, e.value);
        CallsGrow(cal, s.proto, e.value);
      } else {
        GrownSelf(s.proto.calls);
      }
      LabelsGrow(s.proto.calls, t.proto.calls, s.pipe, s.past);
      PipeRunLabelled(t.proto.calls, s.pipe, PipePart(cal, s, m));
    }
  }

  lemma GrownSelf(calls: map<string, seq<AlertType>>)
    ensures Grown(calls, calls)
  {
  }

  lemma CrashKeeps(cal: Calendar, s: Joint)
    requires JointInv(cal, s) && ProtoPart(s, Crash).Some?
    ensures JointInv(cal, Next(cal, s, Crash))
  {
    var t := Next(cal, s, Crash);
    assert t == Joint(Step(cal, s.proto, Restart), Q.Init(s.pipe.db), SentLog(s));
    RestartStores(cal, s.proto);
    StepKeeps(cal, s.proto, Restart);
    assert PipeLabelled(s.proto.calls, Q.Init(s.pipe.db));
    hide Next, ProtoPart, Step, Inv, Labelled;
    assert SentLabelled(s.proto.calls, SentLog(s));
  }

  lemma RestartStores(cal: Calendar, s: State)
    ensures Step(cal, s, Restart).st.rows == s.st.rows && Step(cal, s, Restart).calls == s.calls
  {
    hide Hydrate;
  }

  /** After every run of the whole, the store is the protocol's table, and every alert that waits, is being sent or was
      ever accepted by the queue is one that a committed write of its check called for, under its own number. */
  lemma {:induction false} PlayKeeps(cal: Calendar, moves: seq<Move>)
    ensures JointInv(cal, Play(cal, moves))
  {
    if moves == [] {
      StartKeeps(cal);
      hide JointInv;
    } else {
      hide JointInv, Next;
      PlayKeeps(cal, moves[..|moves| - 1]);
      NextKeeps(cal, Play(cal, moves[..|moves| - 1]), moves[|moves| - 1]);
    }
  }

  lemma StartKeeps(cal: Calendar)
    ensures JointInv(cal, Start)
  {
    RunInv(cal, []);
  }

  // Moves from any state.

  ghost function From(cal: Calendar, s: Joint, moves: seq<Move>): Joint
  {
    if moves == [] then s else Next(cal, From(cal, s, moves[..|moves| - 1]), moves[|moves| - 1])
  }

  lemma FromOne(cal: Calendar, s: Joint, moves: seq<Move>, m: Move)
    ensures From(cal, s, moves + [m]) == Next(cal, From(cal, s, moves), m)
  {
    assert (moves + [m])[..|moves|] == moves;
  }

  lemma {:induction false} PlayFrom(cal: Calendar, a: seq<Move>, b: seq<Move>)
    ensures Play(cal, a + b) == From(cal, Play(cal, a), b)
  {
    hide Next;
    if b == [] {
      assert a + b == a;
    } else {
      PlayFrom(cal, a, b[..|b| - 1]);
      assert (a + b)[..|a + b| - 1] == a + b[..|b| - 1];
    }
  }

  lemma {:induction false} FromKeeps(cal: Calendar, s: Joint, moves: seq<Move>)
    requires JointInv(cal, s)
    ensures JointInv(cal, From(cal, s, moves))
  {
    hide JointInv, Next;
    if moves != [] {
      FromKeeps(cal, s, moves[..|moves| - 1]);
      NextKeeps(cal, From(cal, s, moves[..|moves| - 1]), moves[|moves| - 1]);
    }
  }

  lemma {:induction false} FromTwice(cal: Calendar, s: Joint, a: seq<Move>, b: seq<Move>)
    ensures From(cal, s, a + b) == From(cal, From(cal, s, a), b)
  {
    hide Next;
    if b == [] {
      assert a + b == a;
    } else {
      FromTwice(cal, s, a, b[..|b| - 1]);
      assert (a + b)[..|a + b| - 1] == a + b[..|b| - 1];
    }
  }

  lemma PipeMove(cal: Calendar, s: Joint, e: Q.Event)
    requires IsPiped(e)
    ensures Next(cal, s, Pipe(e)) == s.(pipe := Q.Step(s.pipe, e))
  {
    RunTwo(s.pipe, e, e);
    hide Q.Step, Q.Run;
  }
}
