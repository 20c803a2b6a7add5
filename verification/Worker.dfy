/** The notification worker: one goroutine that ranges over the alert queue and records each outcome. */
module Worker {
  import opened Text
  import opened TimeCodec
  import opened Model
  import opened WriteThrough
  import opened Tables
  import opened Database
  import opened AlertQueue
  import P = Pipeline

  /** The store after dispatching a queue front to back. */
  function DispatchAll(db: Db, queue: seq<AlertEvent>, luck: nat -> Luck, from: nat): Db
    decreases |queue|
  {
    if queue == [] then db else DispatchAll(Dispatch(db, queue[0], luck(from)), queue[1..], luck, from + 1)
  }

  class Worker {
    const queue: AlertQueue
    const repo: Database
    var started: bool
    /** How many goroutines run the range loop. */
    var goroutines: nat

    ghost predicate Valid()
      reads this
    {
      goroutines == if started then 1 else 0
    }

    constructor (queue: AlertQueue, repo: Database)
      ensures Valid() && !started && this.queue == queue && this.repo == repo
    {
      this.queue, this.repo, started, goroutines := queue, repo, false, 0;
    }

    /** startOnce: any number of calls leaves exactly one goroutine. */
    method Start()
      requires Valid()
      modifies this
      ensures Valid() && started && goroutines == 1
    {
      if !started {
        started := true;
        goroutines := goroutines + 1;
      }
    }

    /** dispatch: one notification built up, written, and written again without its channel if that failed. */
    method DispatchEvent(event: AlertEvent, luck: Luck)
      modifies repo`notes, repo`nextNote
      ensures repo.Abs() == Dispatch(old(repo.Abs()), event, luck)
    {
      var channelID: Option<nat> := Some(event.channel.id);
      var error: Option<string> := None;
      if event.channel.kind !in luck.kinds {
        error := Some("no notifier registered for channel type " + Quoted(event.channel.kind));
      } else if luck.sendError.Some? {
        error := luck.sendError;
      }
      hide FormatTime;
      var out := repo.CreateNote(event.check.id, channelID, event.alert, luck.at, error, luck.fault);
      if out != Done {
        channelID := None;
        var _ := repo.CreateNote(event.check.id, channelID, event.alert, luck.at, error, luck.retryFault);
      }
    }

    /** run, once the queue is closed: the loop ends with the queue empty and every event dispatched in order. */
    method Run(luck: nat -> Luck)
      modifies queue`buf, repo`notes, repo`nextNote
      ensures queue.buf == []
      ensures repo.Abs() == DispatchAll(old(repo.Abs()), old(queue.buf), luck, 0)
    {
      ghost var db, all := repo.Abs(), queue.buf;
      var n := 0;
      hide Dispatch, Database.Abs;
      while queue.buf != []
        invariant DispatchAll(repo.Abs(), queue.buf, luck, n) == DispatchAll(db, all, luck, 0)
        decreases |queue.buf|
      {
        var event := queue.buf[0];
        queue.buf := queue.buf[1..];
        DispatchEvent(event, luck(n));
        n := n + 1;
      }
    }
  }

  /** The worker's turns on a queue of that length, as steps of the pipeline. */
  function TurnsFor(n: nat, luck: nat -> Luck, from: nat): seq<P.Event>
  {
    if n == 0 then [] else [P.Receive, P.Record(luck(from))] + TurnsFor(n - 1, luck, from + 1)
  }

  lemma OneTurn(s: P.State, l: Luck)
    requires s.started && !s.panicked && s.inFlight.None? && s.queue != []
    ensures P.Run(s, [P.Receive, P.Record(l)]) ==
            s.(db := Dispatch(s.db, s.queue[0], l), queue := s.queue[1..], dispatched := s.dispatched + [(s.queue[0], l)])
  {
    hide Dispatch;
    var t := P.Step(s, P.Receive);
    assert t == s.(inFlight := Some(s.queue[0]), queue := s.queue[1..]);
    assert P.Step(t, P.Record(l)) ==
           s.(db := Dispatch(s.db, s.queue[0], l), queue := s.queue[1..], dispatched := s.dispatched + [(s.queue[0], l)]);
    assert P.Run(s, []) == s;
    hide P.Step, P.Run;
    P.RunOneMore(s, [], P.Receive);
    P.RunOneMore(s, [P.Receive], P.Record(l));
    assert [] + [P.Receive] == [P.Receive] && [P.Receive] + [P.Record(l)] == [P.Receive, P.Record(l)];
  }

  /** The loop is the pipeline's worker: taking its turns without interruption gives the same store and an empty queue. */
  lemma {:induction false} RunIsWorkerTurns(s: P.State, luck: nat -> Luck, from: nat)
    requires s.started && !s.panicked && s.inFlight.None?
    ensures var t := P.Run(s, TurnsFor(|s.queue|, luck, from));
            && t.queue == [] && t.db == DispatchAll(s.db, s.queue, luck, from)
            && P.EventsOf(t.dispatched) == P.EventsOf(s.dispatched) + s.queue
    decreases |s.queue|
  {
    if s.queue == [] {
      assert P.Run(s, []) == s;
    } else {
      var two, rest := [P.Receive, P.Record(luck(from))], TurnsFor(|s.queue| - 1, luck, from + 1);
      var t := P.Run(s, two);
      assert TurnsFor(|s.queue|, luck, from) == two + rest;
      assert DispatchAll(s.db, s.queue, luck, from) == DispatchAll(Dispatch(s.db, s.queue[0], luck(from)), s.queue[1..], luck, from + 1);
      var log := s.dispatched + [(s.queue[0], luck(from))];
      assert P.EventsOf(log) + s.queue[1..] == P.EventsOf(s.dispatched) + s.queue;
      hide *;
      assert t.started && !t.panicked && t.inFlight.None? && t.queue == s.queue[1..] && t.dispatched == log
             && t.db == Dispatch(s.db, s.queue[0], luck(from)) by {
        OneTurn(s, luck(from));
      }
      P.RunFrom(s, two, rest);
      RunIsWorkerTurns(t, luck, from + 1);
    }
  }
}
