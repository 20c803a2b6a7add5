/** The alert pipeline from the first send to shutdown: handlers and scheduler passes sending without blocking, one
    worker receiving and recording, and main's start-up and shutdown sequence, as steps in any interleaving. */
module Pipeline {
  import opened Text
  import opened Model
  import opened Tables
  import opened Integrity
  import opened AlertQueue

  datatype Role = Handler | Pass

  /** An alert that is called for: the record, the alert, and its number among the calls of its check. */
  datatype Job = Job(check: Check, alert: AlertType, n: nat)

  /** A look-up of the channels for a job; None when it failed. */
  datatype Listing = Listing(job: Job, channels: Option<seq<Channel>>)

  /** One goroutine that sends: the alerts it still has to list channels for, the events it still has to send, and the
      number of the call they are for. */
  datatype Sender = Sender(role: Role, jobs: seq<Job>, current: nat, outbox: seq<AlertEvent>, done: bool)

  /** How far main.run has come. */
  datatype Main = Starting | Serving | ServerDown | SchedulerStopped | Closed | Exited

  datatype State = State(
    db: Db,
    senders: seq<Sender>,
    queue: seq<AlertEvent>,
    main: Main,
    started: bool,                 // the worker's startOnce
    inFlight: Option<AlertEvent>,  // the event in dispatch
    finished: bool,                // the worker's range loop has ended
    panicked: bool,                // a send on the closed channel
    // history
    asked: seq<Job>,
    listings: seq<Listing>,
    enlisted: seq<AlertEvent>,
    attempted: seq<AlertEvent>,
    accepted: seq<AlertEvent>,
    numbers: seq<nat>,             // the calls the accepted events are for
    dropped: seq<AlertEvent>,
    dispatched: seq<(AlertEvent, Luck)>,
    forced: bool)                  // the server went down with handlers in flight

  ghost function Init(db: Db): State
  {
    State(db, [], [], Starting, false, None, false, false, [], [], [], [], [], [], [], [], false)
  }

  datatype Event =
    | StartWorker
    | Serve                                      // sched.Start, ListenAndServe
    | Arrive                                     // a request handler starts
    | Ask(i: nat, wanted: seq<Job>)              // it is past its Set, and wants these alerts
    | BeginPass(down: seq<Job>)                  // phase 2 of evaluateAll
    | Enlist(i: nat, fault: bool)                // ListByCheckID for the next alert of sender i
    | Send(i: nat)
    | Finish(i: nat)
    | Receive
    | Record(luck: Luck)                         // the end of dispatch
    | EndRange
    | StopServer(graceful: bool)                 // Shutdown returned nil, or gave up waiting
    | StopScheduler
    | CloseQueue
    | Wait
    | Other(stmt: Statement, fault: bool)        // any other statement on the store

  predicate Live(s: State, i: nat) { i < |s.senders| && !s.senders[i].done }

  predicate NoneLive(senders: seq<Sender>, role: Role)
  {
    forall i :: 0 <= i < |senders| ==> senders[i].role == role ==> senders[i].done
  }

  /** select { case ch <- event: default: }, on a queue that may have been closed. */
  function Sent(s: State, i: nat): State
    requires Live(s, i) && s.senders[i].outbox != []
  {
    var x := s.senders[i];
    if s.main == Closed || s.main == Exited then s.(panicked := true) else
    var ev := x.outbox[0];
    var t := s.(senders := s.senders[i := x.(outbox := x.outbox[1..])], attempted := s.attempted + [ev]);
    if |s.queue| < CAPACITY then t.(queue := s.queue + [ev], accepted := s.accepted + [ev], numbers := s.numbers + [x.current])
    else t.(dropped := s.dropped + [ev])
  }

  function EventsOfListing(l: Listing): seq<AlertEvent>
  {
    if l.channels.None? then [] else Events(l.job.check, l.channels.value, l.job.alert)
  }

  /** ListByCheckID for the next alert of a sender; a failed look-up gives up the alert. */
  function Enlisted(s: State, i: nat, fault: bool): State
    requires Live(s, i) && s.senders[i].jobs != []
  {
    var x := s.senders[i];
    var listing := Listing(x.jobs[0], if fault then None else Some(ListChannels(s.db, x.jobs[0].check.id)));
    var events := EventsOfListing(listing);
    s.(senders := s.senders[i := x.(jobs := x.jobs[1..], current := x.jobs[0].n, outbox := events)],
       enlisted := s.enlisted + events, listings := s.listings + [listing])
  }

  /** One step; a step that is not enabled changes nothing, and nothing happens after a panic. */
  function Step(s: State, e: Event): State
  {
    if s.panicked then s else
    match e
    case StartWorker => s.(started := true)
    case Serve => if s.main == Starting && s.started then s.(main := Serving) else s
    case Arrive => if s.main == Serving then s.(senders := s.senders + [Sender(Handler, [], 0, [], false)]) else s
    case Ask(i, wanted) =>
      if Live(s, i) && s.senders[i].role == Handler && s.senders[i].jobs == [] && s.senders[i].outbox == [] then
        s.(senders := s.senders[i := s.senders[i].(jobs := wanted)], asked := s.asked + wanted)
      else s
    case BeginPass(down) =>
      if (s.main == Serving || s.main == ServerDown) && NoneLive(s.senders, Pass) then
        s.(senders := s.senders + [Sender(Pass, down, 0, [], false)], asked := s.asked + down)
      else s
    case Enlist(i, fault) =>
      if Live(s, i) && s.senders[i].outbox == [] && s.senders[i].jobs != [] then Enlisted(s, i, fault) else s
    case Send(i) => if Live(s, i) && s.senders[i].outbox != [] then Sent(s, i) else s
    case Finish(i) =>
      if Live(s, i) && s.senders[i].outbox == [] && s.senders[i].jobs == [] then
        s.(senders := s.senders[i := s.senders[i].(done := true)])
      else s
    case Receive =>
      if s.started && s.inFlight.None? && s.queue != [] then s.(inFlight := Some(s.queue[0]), queue := s.queue[1..]) else s
    case Record(luck) =>
      if s.inFlight.Some? then
        s.(db := Dispatch(s.db, s.inFlight.value, luck), inFlight := None,
           dispatched := s.dispatched + [(s.inFlight.value, luck)])
      else s
    case EndRange =>
      if s.started && s.inFlight.None? && s.queue == [] && (s.main == Closed || s.main == Exited) then s.(finished := true) else s
    case StopServer(graceful) =>
      if s.main == Serving && (graceful ==> NoneLive(s.senders, Handler)) then
        s.(main := ServerDown, forced := !NoneLive(s.senders, Handler))
      else s
    case StopScheduler => if s.main == ServerDown && NoneLive(s.senders, Pass) then s.(main := SchedulerStopped) else s
    case CloseQueue => if s.main == SchedulerStopped then s.(main := Closed) else s
    case Wait => if s.main == Closed && s.finished then s.(main := Exited) else s
    case Other(stmt, fault) => if stmt.Deliver? then s else s.(db := Execute(s.db, stmt, fault))
  }

  function Run(s: State, events: seq<Event>): State
  {
    if events == [] then s else Step(Run(s, events[..|events| - 1]), events[|events| - 1])
  }

  // The invariant of every run.

  function EventsOf(log: seq<(AlertEvent, Luck)>): (r: seq<AlertEvent>)
    ensures |r| == |log| && forall i :: 0 <= i < |r| ==> r[i] == log[i].0
  {
    seq(|log|, i requires 0 <= i < |log| => log[i].0)
  }

  /** Everything listed and not yet sent. */
  function Pending(senders: seq<Sender>): multiset<AlertEvent>
  {
    if senders == [] then multiset{} else
    Pending(senders[..|senders| - 1]) + multiset(senders[|senders| - 1].outbox)
  }

  /** Everything asked for and not yet listed. */
  function Waiting(senders: seq<Sender>): multiset<Job>
  {
    if senders == [] then multiset{} else
    Waiting(senders[..|senders| - 1]) + multiset(senders[|senders| - 1].jobs)
  }

  /** One more part on either side of a balance. */
  lemma Balance<T>(a: multiset<T>, b: multiset<T>, x: multiset<T>, y: multiset<T>, last: multiset<T>)
    requires a + x == b + y
    ensures (a + last) + x == (b + last) + y
  {
    forall e ensures ((a + last) + x)[e] == ((b + last) + y)[e] {
      assert (a + x)[e] == (b + y)[e];
    }
  }

  lemma Cancel<T>(p: multiset<T>, q: multiset<T>, x: multiset<T>, rest: multiset<T>)
    requires q + (x + rest) == p + rest
    ensures p == x + q
  {
    forall e ensures p[e] == (x + q)[e] {
      assert (q + (x + rest))[e] == (p + rest)[e];
    }
  }

  lemma {:induction false} PendingUpdated(senders: seq<Sender>, i: nat, x: Sender)
    requires i < |senders|
    ensures Pending(senders[i := x]) + multiset(senders[i].outbox) == Pending(senders) + multiset(x.outbox)
  {
    var n := |senders| - 1;
    var most, last := senders[..n], senders[n];
    var changed := senders[i := x];
    assert Pending(senders) == Pending(most) + multiset(last.outbox);
    if i < n {
      assert changed[..n] == most[i := x] && changed[n] == last;
      assert Pending(changed) == Pending(most[i := x]) + multiset(last.outbox);
      PendingUpdated(most, i, x);
      hide Pending;
      Balance(Pending(most[i := x]), Pending(most), multiset(senders[i].outbox), multiset(x.outbox), multiset(last.outbox));
    } else {
      assert changed[..n] == most;
      assert Pending(changed) == Pending(most) + multiset(x.outbox);
      hide Pending;
    }
  }

  lemma {:induction false} WaitingUpdated(senders: seq<Sender>, i: nat, x: Sender)
    requires i < |senders|
    ensures Waiting(senders[i := x]) + multiset(senders[i].jobs) == Waiting(senders) + multiset(x.jobs)
  {
    var n := |senders| - 1;
    var most, last := senders[..n], senders[n];
    var changed := senders[i := x];
    assert Waiting(senders) == Waiting(most) + multiset(last.jobs);
    if i < n {
      assert changed[..n] == most[i := x] && changed[n] == last;
      assert Waiting(changed) == Waiting(most[i := x]) + multiset(last.jobs);
      WaitingUpdated(most, i, x);
      hide Waiting;
      Balance(Waiting(most[i := x]), Waiting(most), multiset(senders[i].jobs), multiset(x.jobs), multiset(last.jobs));
    } else {
      assert changed[..n] == most;
      assert Waiting(changed) == Waiting(most) + multiset(x.jobs);
      hide Waiting;
    }
  }

  lemma SendersAdded(senders: seq<Sender>, x: Sender)
    ensures Pending(senders + [x]) == Pending(senders) + multiset(x.outbox)
    ensures Waiting(senders + [x]) == Waiting(senders) + multiset(x.jobs)
  {
    assert (senders + [x])[..|senders|] == senders;
  }

  lemma {:induction false} NonePending(senders: seq<Sender>)
    requires forall i :: 0 <= i < |senders| ==> senders[i].outbox == [] && senders[i].jobs == []
    ensures Pending(senders) == multiset{} && Waiting(senders) == multiset{}
  {
    if senders != [] {
      NonePending(senders[..|senders| - 1]);
    }
  }

  function JobsOf(listings: seq<Listing>): (r: seq<Job>)
    ensures |r| == |listings| && forall i :: 0 <= i < |r| ==> r[i] == listings[i].job
  {
    seq(|listings|, i requires 0 <= i < |listings| => listings[i].job)
  }

  /** The events of a series of look-ups. */
  function Flat(listings: seq<Listing>): seq<AlertEvent>
  {
    if listings == [] then [] else Flat(listings[..|listings| - 1]) + EventsOfListing(listings[|listings| - 1])
  }

  /** What was asked for has been listed, once, or is still to be; what came of it is what was enlisted. */
  ghost predicate Accounted(asked: seq<Job>, listings: seq<Listing>, enlisted: seq<AlertEvent>, senders: seq<Sender>)
  {
    && multiset(asked) == multiset(JobsOf(listings)) + Waiting(senders)
    && enlisted == Flat(listings)
  }

  /** What was listed has been tried, or is still to be. */
  ghost predicate Balanced(enlisted: seq<AlertEvent>, attempted: seq<AlertEvent>, senders: seq<Sender>)
  {
    multiset(enlisted) == multiset(attempted) + Pending(senders)
  }

  /** What was tried was taken or dropped. */
  ghost predicate Partitioned(attempted: seq<AlertEvent>, accepted: seq<AlertEvent>, dropped: seq<AlertEvent>)
  {
    && multiset(attempted) == multiset(accepted) + multiset(dropped)
    && |attempted| == |accepted| + |dropped|
  }

  /** What was taken has been dispatched, is in dispatch, or is queued, in that order. */
  ghost predicate Fifo(accepted: seq<AlertEvent>, log: seq<(AlertEvent, Luck)>, inFlight: Option<AlertEvent>, queue: seq<AlertEvent>)
  {
    accepted == EventsOf(log) + (if inFlight.Some? then [inFlight.value] else []) + queue
  }

  /** Nothing is lost, duplicated or reordered between the calls and the worker. */
  ghost predicate Conserved(s: State)
  {
    && |s.queue| <= CAPACITY && |s.numbers| == |s.accepted|
    && Accounted(s.asked, s.listings, s.enlisted, s.senders)
    && Balanced(s.enlisted, s.attempted, s.senders)
    && Partitioned(s.attempted, s.accepted, s.dropped)
    && Fifo(s.accepted, s.dispatched, s.inFlight, s.queue)
  }

  /** What main has waited for, of its senders. */
  ghost predicate Waited(senders: seq<Sender>, main: Main, forced: bool)
  {
    && (forall i :: 0 <= i < |senders| ==> senders[i].done ==> senders[i].jobs == [] && senders[i].outbox == [])
    && (!forced && main != Starting && main != Serving ==> NoneLive(senders, Handler))
    && (main == SchedulerStopped || main == Closed || main == Exited ==> NoneLive(senders, Pass))
    && (main == Starting ==> senders == [])
  }

  ghost predicate Ordered(s: State)
  {
    && Waited(s.senders, s.main, s.forced)
    && (s.forced ==> s.main != Starting && s.main != Serving)
    && (s.main != Starting ==> s.started)
    && (s.panicked ==> s.forced)
    && (s.finished ==> s.queue == [] && s.inFlight.None? && (s.main == Closed || s.main == Exited))
    && (s.main == Exited ==> s.finished)
  }

  lemma UpdateWaited(senders: seq<Sender>, main: Main, forced: bool, i: nat, y: Sender)
    requires Waited(senders, main, forced) && i < |senders| && !senders[i].done
    requires y.role == senders[i].role && (y.done ==> y.jobs == [] && y.outbox == [])
    ensures Waited(senders[i := y], main, forced)
  {
  }

  lemma AddWaited(senders: seq<Sender>, main: Main, forced: bool, x: Sender)
    requires Waited(senders, main, forced) && !x.done
    requires main == Serving || (main == ServerDown && x.role == Pass)
    ensures Waited(senders + [x], main, forced)
  {
  }

  lemma SentPending(senders: seq<Sender>, i: nat)
    requires i < |senders| && senders[i].outbox != []
    ensures var x := senders[i];
            Pending(senders) == multiset{x.outbox[0]} + Pending(senders[i := x.(outbox := x.outbox[1..])])
  {
    var x := senders[i];
    var y := x.(outbox := x.outbox[1..]);
    PendingUpdated(senders, i, y);
    assert x.outbox == [x.outbox[0]] + y.outbox;
    hide Pending;
    Cancel(Pending(senders), Pending(senders[i := y]), multiset{x.outbox[0]}, multiset(y.outbox));
  }

  lemma SentBalanced(enlisted: seq<AlertEvent>, attempted: seq<AlertEvent>, senders: seq<Sender>, i: nat)
    requires Balanced(enlisted, attempted, senders) && i < |senders| && senders[i].outbox != []
    ensures var x := senders[i];
            Balanced(enlisted, attempted + [x.outbox[0]], senders[i := x.(outbox := x.outbox[1..])])
  {
    SentPending(senders, i);
    hide Pending;
  }

  lemma UpdatedBalanced(enlisted: seq<AlertEvent>, attempted: seq<AlertEvent>, senders: seq<Sender>, i: nat, y: Sender)
    requires Balanced(enlisted, attempted, senders) && i < |senders| && senders[i].outbox == []
    ensures Balanced(enlisted + y.outbox, attempted, senders[i := y])
  {
    PendingUpdated(senders, i, y);
    hide Pending;
    assert Pending(senders[i := y]) == Pending(senders[i := y]) + multiset(senders[i].outbox);
    assert Pending(senders[i := y]) == Pending(senders) + multiset(y.outbox);
  }

  lemma AddedBalanced(enlisted: seq<AlertEvent>, attempted: seq<AlertEvent>, senders: seq<Sender>, x: Sender)
    requires Balanced(enlisted, attempted, senders) && x.outbox == []
    ensures Balanced(enlisted, attempted, senders + [x])
  {
    SendersAdded(senders, x);
  }

  /** A sender whose jobs stay as they are. */
  lemma SameJobsAccounted(asked: seq<Job>, listings: seq<Listing>, enlisted: seq<AlertEvent>, senders: seq<Sender>, i: nat, y: Sender)
    requires Accounted(asked, listings, enlisted, senders) && i < |senders| && y.jobs == senders[i].jobs
    ensures Accounted(asked, listings, enlisted, senders[i := y])
  {
    WaitingUpdated(senders, i, y);
    hide Waiting, Flat, JobsOf;
    Cancel(Waiting(senders[i := y]), Waiting(senders), multiset{}, multiset(y.jobs));
  }

  lemma AskedAccounted(asked: seq<Job>, listings: seq<Listing>, enlisted: seq<AlertEvent>, senders: seq<Sender>, i: nat, wanted: seq<Job>)
    requires Accounted(asked, listings, enlisted, senders) && i < |senders| && senders[i].jobs == []
    ensures Accounted(asked + wanted, listings, enlisted, senders[i := senders[i].(jobs := wanted)])
  {
    var y := senders[i].(jobs := wanted);
    WaitingUpdated(senders, i, y);
    hide Waiting, Flat, JobsOf;
    assert Waiting(senders[i := y]) == Waiting(senders[i := y]) + multiset(senders[i].jobs);
  }

  lemma AddedAccounted(asked: seq<Job>, listings: seq<Listing>, enlisted: seq<AlertEvent>, senders: seq<Sender>, x: Sender)
    requires Accounted(asked, listings, enlisted, senders)
    ensures Accounted(asked + x.jobs, listings, enlisted, senders + [x])
  {
    SendersAdded(senders, x);
    hide Waiting, Flat, JobsOf;
  }

  lemma Moves<T>(a: multiset<T>, l: multiset<T>, w: multiset<T>, x: multiset<T>, rest: multiset<T>)
    requires a == l + w && w == x + rest
    ensures a == (l + x) + rest
  {
  }

  lemma OneMoreJob(listings: seq<Listing>, l: Listing)
    ensures multiset(JobsOf(listings + [l])) == multiset(JobsOf(listings)) + multiset{l.job}
    ensures Flat(listings + [l]) == Flat(listings) + EventsOfListing(l)
  {
    assert (listings + [l])[..|listings|] == listings;
    assert JobsOf(listings + [l]) == JobsOf(listings) + [l.job];
  }

  lemma FewerWaiting(senders: seq<Sender>, i: nat, y: Sender)
    requires i < |senders| && senders[i].jobs != [] && y.jobs == senders[i].jobs[1..]
    ensures Waiting(senders) == multiset{senders[i].jobs[0]} + Waiting(senders[i := y])
  {
    var jobs := senders[i].jobs;
    WaitingUpdated(senders, i, y);
    assert jobs == [jobs[0]] + y.jobs;
    hide Waiting;
    Cancel(Waiting(senders), Waiting(senders[i := y]), multiset{jobs[0]}, multiset(y.jobs));
  }

  lemma ListedAccounted(asked: seq<Job>, listings: seq<Listing>, enlisted: seq<AlertEvent>, senders: seq<Sender>, i: nat, l: Listing, y: Sender)
    requires Accounted(asked, listings, enlisted, senders) && i < |senders| && senders[i].jobs != []
    requires l.job == senders[i].jobs[0] && y.jobs == senders[i].jobs[1..]
    ensures Accounted(asked, listings + [l], enlisted + EventsOfListing(l), senders[i := y])
  {
    hide Waiting, Flat, JobsOf, EventsOfListing;
    FewerWaiting(senders, i, y);
    OneMoreJob(listings, l);
    Moves(multiset(asked), multiset(JobsOf(listings)), Waiting(senders), multiset{l.job}, Waiting(senders[i := y]));
  }

  lemma OneMorePartitioned(attempted: seq<AlertEvent>, accepted: seq<AlertEvent>, dropped: seq<AlertEvent>, ev: AlertEvent)
    requires Partitioned(attempted, accepted, dropped)
    ensures Partitioned(attempted + [ev], accepted + [ev], dropped) && Partitioned(attempted + [ev], accepted, dropped + [ev])
  {
  }

  lemma FifoMoves(accepted: seq<AlertEvent>, log: seq<(AlertEvent, Luck)>, inFlight: Option<AlertEvent>, queue: seq<AlertEvent>, ev: AlertEvent)
    requires Fifo(accepted, log, inFlight, queue)
    ensures Fifo(accepted + [ev], log, inFlight, queue + [ev])
    ensures inFlight.None? && queue != [] ==> Fifo(accepted, log, Some(queue[0]), queue[1..])
    ensures forall luck :: inFlight.Some? ==> Fifo(accepted, log + [(inFlight.value, luck)], None, queue)
  {
    if inFlight.None? && queue != [] {
      assert queue == [queue[0]] + queue[1..];
    }
    forall luck | inFlight.Some?
      ensures Fifo(accepted, log + [(inFlight.value, luck)], None, queue)
    {
      assert EventsOf(log + [(inFlight.value, luck)]) == EventsOf(log) + [inFlight.value];
    }
  }

  lemma SendConserved(s: State, i: nat)
    requires Conserved(s) && Live(s, i) && s.senders[i].outbox != []
    ensures Conserved(Sent(s, i))
  {
    hide Balanced, Partitioned, Fifo, Accounted, EventsOf, Pending, NoneLive;
    var ev := s.senders[i].outbox[0];
    SentBalanced(s.enlisted, s.attempted, s.senders, i);
    SameJobsAccounted(s.asked, s.listings, s.enlisted, s.senders, i, s.senders[i].(outbox := s.senders[i].outbox[1..]));
    OneMorePartitioned(s.attempted, s.accepted, s.dropped, ev);
    FifoMoves(s.accepted, s.dispatched, s.inFlight, s.queue, ev);
  }

  lemma EnlistConserved(s: State, i: nat, fault: bool)
    requires Conserved(s) && Live(s, i) && s.senders[i].outbox == [] && s.senders[i].jobs != []
    ensures Conserved(Enlisted(s, i, fault))
  {
    hide Balanced, Partitioned, Fifo, Accounted, EventsOfListing, ListChannels, NoneLive;
    var t := Enlisted(s, i, fault);
    UpdatedBalanced(s.enlisted, s.attempted, s.senders, i, t.senders[i]);
    ListedAccounted(s.asked, s.listings, s.enlisted, s.senders, i, t.listings[|s.listings|], t.senders[i]);
  }

  lemma AskConserved(s: State, i: nat, wanted: seq<Job>)
    requires Conserved(s)
    ensures Conserved(Step(s, Ask(i, wanted)))
  {
    hide Balanced, Partitioned, Fifo, Accounted, NoneLive;
    if Live(s, i) && s.senders[i].jobs == [] && s.senders[i].outbox == [] {
      UpdatedBalanced(s.enlisted, s.attempted, s.senders, i, s.senders[i].(jobs := wanted));
      assert s.enlisted + [] == s.enlisted;
      AskedAccounted(s.asked, s.listings, s.enlisted, s.senders, i, wanted);
    }
  }

  lemma AddConserved(s: State, x: Sender)
    requires Conserved(s) && x.outbox == []
    ensures Conserved(s.(senders := s.senders + [x], asked := s.asked + x.jobs))
  {
    hide Balanced, Partitioned, Fifo, Accounted;
    AddedBalanced(s.enlisted, s.attempted, s.senders, x);
    AddedAccounted(s.asked, s.listings, s.enlisted, s.senders, x);
  }

  lemma FinishConserved(s: State, i: nat)
    requires Conserved(s)
    ensures Conserved(Step(s, Finish(i)))
  {
    hide Balanced, Partitioned, Fifo, Accounted, NoneLive;
    if Live(s, i) && s.senders[i].outbox == [] {
      var y := s.senders[i].(done := true);
      UpdatedBalanced(s.enlisted, s.attempted, s.senders, i, y);
      assert s.enlisted + [] == s.enlisted;
      SameJobsAccounted(s.asked, s.listings, s.enlisted, s.senders, i, y);
    }
  }

  lemma StepConserved(s: State, e: Event)
    requires Conserved(s)
    ensures Conserved(Step(s, e))
  {
    hide Balanced, Partitioned, Fifo, Accounted, Dispatch, Execute, NoneLive, Sent, Enlisted;
    match e
    case Arrive =>
      AddConserved(s, Sender(Handler, [], 0, [], false));
      assert s.asked + [] == s.asked;
    case Ask(i, wanted) => AskConserved(s, i, wanted);
    case BeginPass(down) => AddConserved(s, Sender(Pass, down, 0, [], false));
    case Enlist(i, fault) =>
      if Live(s, i) && s.senders[i].outbox == [] && s.senders[i].jobs != [] {
        EnlistConserved(s, i, fault);
      }
    case Send(i) =>
      if Live(s, i) && s.senders[i].outbox != [] {
        SendConserved(s, i);
      }
    case Finish(i) => FinishConserved(s, i);
    case Receive =>
      if s.queue != [] {
        FifoMoves(s.accepted, s.dispatched, s.inFlight, s.queue, s.queue[0]);
      }
    case Record(luck) =>
      if s.inFlight.Some? {
        FifoMoves(s.accepted, s.dispatched, s.inFlight, s.queue, s.inFlight.value);
      }
    case _ =>
  }

  /** A live sender on a closed queue means that the server stopped by force. */
  lemma LateSender(s: State, i: nat)
    requires Ordered(s) && Live(s, i) && (s.main == Closed || s.main == Exited)
    ensures s.forced
  {
    var role := s.senders[i].role;
    assert role == Handler || role == Pass;
  }

  lemma SenderOrdered(s: State, e: Event)
    requires Ordered(s) && (e.Arrive? || e.Ask? || e.BeginPass? || e.Enlist? || e.Send? || e.Finish?)
    ensures Ordered(Step(s, e))
  {
    hide Waited, EventsOfListing, ListChannels, NoneLive;
    if e.Arrive? {
      if s.main == Serving {
        AddWaited(s.senders, s.main, s.forced, Sender(Handler, [], 0, [], false));
      }
    } else if e.BeginPass? {
      if s.main == Serving || s.main == ServerDown {
        AddWaited(s.senders, s.main, s.forced, Sender(Pass, e.down, 0, [], false));
      }
    } else if Live(s, e.i) && !s.panicked {
      if s.main == Closed || s.main == Exited {
        LateSender(s, e.i);
      }
      var t := Step(s, e);
      if t != s && !t.panicked {
        assert t.senders == s.senders[e.i := t.senders[e.i]];
        UpdateWaited(s.senders, s.main, s.forced, e.i, t.senders[e.i]);
      }
    }
  }

  lemma StepOrdered(s: State, e: Event)
    requires Ordered(s)
    ensures Ordered(Step(s, e))
  {
    if e.Arrive? || e.Ask? || e.BeginPass? || e.Enlist? || e.Send? || e.Finish? {
      SenderOrdered(s, e);
    } else {
      hide Dispatch, Execute, EventsOfListing, ListChannels;
    }
  }

  lemma {:induction false} RunInvariant(db: Db, events: seq<Event>)
    ensures Conserved(Run(Init(db), events)) && Ordered(Run(Init(db), events))
  {
    if events != [] {
      var s := Run(Init(db), events[..|events| - 1]);
      RunInvariant(db, events[..|events| - 1]);
      StepConserved(s, events[|events| - 1]);
      StepOrdered(s, events[|events| - 1]);
      hide Conserved, Ordered, Step;
    }
  }

  // What every run keeps.

  /** Every alert asked for was listed once, or is still to be; what came of the listings was tried, or its sender is
      still at work; every attempt was accepted or dropped; accepted events leave in the order they came in, none lost
      and none twice; and never more than 64 wait. */
  lemma Conservation(db: Db, events: seq<Event>)
    ensures var s := Run(Init(db), events);
            && multiset(s.asked) == multiset(JobsOf(s.listings)) + Waiting(s.senders)
            && s.enlisted == Flat(s.listings)
            && |s.attempted| == |s.accepted| + |s.dropped|
            && multiset(s.attempted) == multiset(s.accepted) + multiset(s.dropped)
            && s.accepted == EventsOf(s.dispatched) + (if s.inFlight.Some? then [s.inFlight.value] else []) + s.queue
            && |s.queue| <= 64
            && multiset(s.attempted) <= multiset(s.enlisted)
            && (multiset(s.attempted) == multiset(s.enlisted) <==> Pending(s.senders) == multiset{})
  {
    RunInvariant(db, events);
    hide Run, EventsOf, Pending, Waiting, Flat, JobsOf, Ordered;
  }

  /** Runs in which Shutdown never gave up on a request still being handled. */
  lemma NeverPanics(db: Db, events: seq<Event>)
    requires !Run(Init(db), events).forced
    ensures !Run(Init(db), events).panicked
  {
    RunInvariant(db, events);
  }

  lemma OnceClosed(s: State, e: Event)
    requires Ordered(s) && !s.forced && (s.main == Closed || s.main == Exited)
    ensures var t := Step(s, e);
            && (t.main == Closed || t.main == Exited) && !t.forced && !t.panicked
            && t.attempted == s.attempted && t.accepted == s.accepted && t.enlisted == s.enlisted
  {
    hide Dispatch, Execute, EventsOfListing, ListChannels;
  }

  lemma RunFrom(s: State, a: seq<Event>, b: seq<Event>)
    ensures Run(s, a + b) == Run(Run(s, a), b)
    decreases |b|
  {
    if b == [] {
      assert a + b == a;
    } else {
      assert (a + b)[..|a + b| - 1] == a + b[..|b| - 1];
      RunFrom(s, a, b[..|b| - 1]);
    }
  }

  predicate Stopped(m: Main) { m == SchedulerStopped || m == Closed || m == Exited }

  lemma StepNeverReverts(s: State, e: Event)
    ensures s.started ==> Step(s, e).started
    ensures Stopped(s.main) ==> Stopped(Step(s, e).main)
  {
    hide Dispatch, Execute, EventsOfListing, ListChannels, NoneLive;
  }

  lemma {:induction false} NeverReverts(s: State, events: seq<Event>)
    ensures s.started ==> Run(s, events).started
    ensures Stopped(s.main) ==> Stopped(Run(s, events).main)
  {
    if events != [] {
      NeverReverts(s, events[..|events| - 1]);
      StepNeverReverts(Run(s, events[..|events| - 1]), events[|events| - 1]);
      hide Step;
    }
  }

  /** Once the worker runs another Start, and once the scheduler has stopped another Stop, changes nothing whenever it
      comes and whatever follows. */
  lemma RepeatsChangeNothing(s: State, before: seq<Event>, e: Event, after: seq<Event>)
    requires (e == StartWorker && s.started) || (e == StopScheduler && Stopped(s.main))
    ensures Run(s, before + [e] + after) == Run(s, before + after)
  {
    NeverReverts(s, before);
    assert Step(Run(s, before), e) == Run(s, before) by {
      hide Run;
    }
    hide Run, Step;
    RunOneMore(s, before, e);
    RunFrom(s, before + [e], after);
    RunFrom(s, before, after);
  }

  /** No send follows close(alertCh): whatever happens later, what was sent and accepted stays as it was. */
  lemma {:induction false} NothingSentAfterClose(db: Db, before: seq<Event>, after: seq<Event>)
    requires var s := Run(Init(db), before); !s.forced && (s.main == Closed || s.main == Exited)
    ensures var s, t := Run(Init(db), before), Run(Init(db), before + after);
            t.attempted == s.attempted && t.accepted == s.accepted && !t.panicked && !t.forced
            && (t.main == Closed || t.main == Exited)
    decreases |after|
  {
    if after == [] {
      assert before + after == before;
      NeverPanics(db, before);
    } else {
      var most := after[..|after| - 1];
      assert (before + after)[..|before + after| - 1] == before + most;
      NothingSentAfterClose(db, before, most);
      RunInvariant(db, before + most);
      OnceClosed(Run(Init(db), before + most), after[|after| - 1]);
    }
  }

  /** run returns only when every accepted event has been dispatched. */
  lemma ExitMeansDrained(db: Db, events: seq<Event>)
    requires Run(Init(db), events).main == Exited
    ensures var s := Run(Init(db), events); EventsOf(s.dispatched) == s.accepted && s.queue == [] && s.inFlight.None?
  {
    RunInvariant(db, events);
    hide Run;
  }

  /** … and if the server stopped gracefully, every alert asked for had been listed, and every listed one tried. */
  lemma ExitMeansAllTried(db: Db, events: seq<Event>)
    requires Run(Init(db), events).main == Exited && !Run(Init(db), events).forced
    ensures var s := Run(Init(db), events);
            multiset(s.enlisted) == multiset(s.attempted) && multiset(s.asked) == multiset(JobsOf(s.listings))
  {
    var s := Run(Init(db), events);
    RunInvariant(db, events);
    forall i | 0 <= i < |s.senders|
      ensures s.senders[i].outbox == [] && s.senders[i].jobs == []
    {
      assert s.senders[i].role == Handler || s.senders[i].role == Pass;
    }
    NonePending(s.senders);
  }

  lemma RunOneMore(s: State, events: seq<Event>, e: Event)
    ensures Run(s, events + [e]) == Step(Run(s, events), e)
  {
    assert (events + [e])[..|events|] == events;
  }

  lemma RunFirst(s: State, events: seq<Event>)
    requires events != []
    ensures Run(s, events) == Run(Step(s, events[0]), events[1..])
  {
    RunFrom(s, [events[0]], events[1..]);
    RunOneMore(s, [], events[0]);
    assert [events[0]] + events[1..] == events && [] + [events[0]] == [events[0]];
  }

  function Sends(i: nat, n: nat): seq<Event> { if n == 0 then [] else [Send(i)] + Sends(i, n - 1) }

  lemma OneSend(s: State, i: nat)
    requires Live(s, i) && s.senders[i].outbox != [] && !s.panicked && s.main != Closed && s.main != Exited
    ensures var t := Step(s, Send(i));
            && Live(t, i) && !t.panicked && t.main == s.main && t.db == s.db
            && t.senders[i].outbox == s.senders[i].outbox[1..] && t.senders[i].jobs == s.senders[i].jobs
            && t.queue == Offered(s.queue, [s.senders[i].outbox[0]])
  {
    hide NoneLive;
  }

  /** From s to t, sender i sent all it had: what fits is queued, and nothing else of interest moved. */
  ghost predicate SentAll(s: State, t: State, i: nat)
  {
    && Live(s, i) && Live(t, i) && t.senders[i].outbox == [] && t.queue == Offered(s.queue, s.senders[i].outbox)
    && !t.panicked && t.main == s.main && t.db == s.db && t.senders[i].jobs == s.senders[i].jobs
  }

  lemma SentOneMore(s: State, t: State, u: State, i: nat)
    requires Live(s, i) && s.senders[i].outbox != [] && Live(t, i) && t.main == s.main && t.db == s.db
    requires t.senders[i].outbox == s.senders[i].outbox[1..] && t.senders[i].jobs == s.senders[i].jobs
    requires t.queue == Offered(s.queue, [s.senders[i].outbox[0]]) && SentAll(t, u, i)
    ensures SentAll(s, u, i)
  {
    var outbox := s.senders[i].outbox;
    OfferedTwice(s.queue, [outbox[0]], outbox[1..]);
    assert [outbox[0]] + outbox[1..] == outbox;
    hide Offered;
  }

  lemma {:induction false} SendsEmpty(s: State, i: nat, n: nat)
    requires Ready(s, i, n)
    ensures SentAll(s, Run(s, Sends(i, n)), i)
    decreases n
  {
    hide *;
    if n == 0 {
      SentNothing(s, i);
    } else {
      ReadyOnce(s, i, n);
      SendsEmpty(Step(s, Send(i)), i, n - 1);
      SendsStep(s, i, n);
    }
  }

  /** Sender i has n events to send, on a queue that is open. */
  ghost predicate Ready(s: State, i: nat, n: nat)
  {
    Live(s, i) && |s.senders[i].outbox| == n && !s.panicked && s.main != Closed && s.main != Exited
  }

  lemma ReadyOnce(s: State, i: nat, n: nat)
    requires Ready(s, i, n) && n > 0
    ensures Ready(Step(s, Send(i)), i, n - 1)
  {
    OneSend(s, i);
    hide Step;
  }

  lemma SendsStep(s: State, i: nat, n: nat)
    requires Ready(s, i, n) && n > 0
    requires var t := Step(s, Send(i)); SentAll(t, Run(t, Sends(i, n - 1)), i)
    ensures SentAll(s, Run(s, Sends(i, n)), i)
  {
    hide Run, Step, Sends, SentAll;
    var t := Step(s, Send(i));
    OneSend(s, i);
    SendsMore(i, n);
    RunFirst(s, Sends(i, n));
    SentOneMore(s, t, Run(t, Sends(i, n - 1)), i);
  }

  lemma SentNothing(s: State, i: nat)
    requires Ready(s, i, 0)
    ensures SentAll(s, Run(s, Sends(i, 0)), i)
  {
  }

  /** A sender that is not interrupted leaves the queue that the handlers' and the scheduler's own loops leave. */
  lemma BurstIsOffered(s: State, i: nat)
    requires Live(s, i) && !s.panicked && s.main != Closed && s.main != Exited
    ensures var t := Run(s, Sends(i, |s.senders[i].outbox|));
            && Live(t, i) && t.senders[i].outbox == [] && t.queue == Offered(s.queue, s.senders[i].outbox)
            && !t.panicked && t.main == s.main && t.db == s.db && t.senders[i].jobs == s.senders[i].jobs
  {
    hide Run, Sends, Offered;
    SendsEmpty(s, i, |s.senders[i].outbox|);
  }

  lemma SendsMore(i: nat, n: nat)
    requires n > 0
    ensures Sends(i, n) != [] && Sends(i, n)[0] == Send(i) && Sends(i, n)[1..] == Sends(i, n - 1)
  {
  }
}
