/** Shutdown drains the pipeline, and when nothing fails or is dropped every listed alert leaves one row. */
module Drain {
  import opened Tables
  import opened Integrity
  import opened AlertQueue
  import opened Pipeline

  // Termination.

  /** The worker's remaining turns: two per queued event, one for the event in dispatch, one to leave its loop. */
  function Left(s: State): nat
  {
    2 * |s.queue| + (if s.inFlight.Some? then 1 else 0) + (if s.finished then 0 else 1)
  }

  /** What the worker does next. */
  function Turn(s: State, luck: Luck): Event
  {
    if s.inFlight.Some? then Record(luck) else if s.queue != [] then Receive else EndRange
  }

  predicate Closing(s: State) { s.main == Closed || s.main == Exited }

  /** After the close the worker can always go on until it is finished, whatever comes of its dispatches, and each turn
      brings it nearer to the end. */
  lemma TurnsShrink(s: State, luck: Luck)
    requires Ordered(s) && !s.forced && Closing(s) && !s.finished
    ensures Left(Step(s, Turn(s, luck))) == Left(s) - 1
  {
    hide Dispatch, NoneLive;
  }

  /** No step of anyone else gives it more work. */
  lemma NothingGrows(s: State, e: Event)
    requires Ordered(s) && !s.forced && Closing(s)
    ensures Left(Step(s, e)) <= Left(s) && Ordered(Step(s, e)) && !Step(s, e).forced && Closing(Step(s, e))
  {
    StepOrdered(s, e);
    hide Dispatch, Execute, EventsOfListing, ListChannels;
  }

  /** How many of the steps bring the worker nearer to the end. */
  function Turns(s: State, events: seq<Event>): nat
    decreases |events|
  {
    if events == [] then 0 else
    Turns(Step(s, events[0]), events[1..]) + if Left(Step(s, events[0])) < Left(s) then 1 else 0
  }

  /** After the close the worker finishes within a fixed number of its own turns, however they are interleaved. */
  lemma {:induction false} DrainIsBounded(s: State, events: seq<Event>)
    requires Ordered(s) && !s.forced && Closing(s)
    ensures Left(Run(s, events)) + Turns(s, events) <= Left(s)
    ensures Left(Run(s, events)) == 0 ==> Run(s, events).finished && Run(s, events).queue == []
    decreases |events|
  {
    hide Ordered, Closing, Step;
    if events != [] {
      NothingGrows(s, events[0]);
      RunFirst(s, events);
      DrainIsBounded(Step(s, events[0]), events[1..]);
    }
  }

  lemma ClosedTurn(s: State, luck: Luck)
    requires Ordered(s) && !s.forced && s.main == Closed
    ensures s.finished ==> Step(s, Wait).main == Exited && Left(s) == 0
    ensures !s.finished ==> Step(s, Turn(s, luck)).main == Closed
  {
    hide Dispatch, NoneLive;
  }

  lemma {:induction false} WorkerFinishes(s: State, luck: Luck) returns (after: seq<Event>)
    requires Ordered(s) && !s.forced && s.main == Closed
    ensures |after| == Left(s) + 1 && Run(s, after).main == Exited
    decreases Left(s)
  {
    ClosedTurn(s, luck);
    if s.finished {
      RunOneMore(s, [], Wait);
      assert [] + [Wait] == [Wait];
      after := [Wait];
    } else {
      var e := Turn(s, luck);
      TurnsShrink(s, luck);
      NothingGrows(s, e);
      hide Ordered, Step, Left, Turn, Run;
      var rest := WorkerFinishes(Step(s, e), luck);
      after := [e] + rest;
      RunFirst(s, after);
    }
  }

  /** From the close on, the worker's own turns and main's Wait lead to the exit, whatever comes of each dispatch,
      and by then everything accepted has been dispatched. */
  lemma DrainsToExit(db: Db, before: seq<Event>, luck: Luck) returns (after: seq<Event>)
    requires var s := Run(Init(db), before); !s.forced && s.main == Closed
    ensures |after| <= 2 * CAPACITY + 3
    ensures var t := Run(Init(db), before + after);
            t.main == Exited && EventsOf(t.dispatched) == t.accepted == Run(Init(db), before).accepted
  {
    var s := Run(Init(db), before);
    RunInvariant(db, before);
    hide Run, Ordered;
    after := WorkerFinishes(s, luck);
    RunFrom(Init(db), before, after);
    NothingSentAfterClose(db, before, after);
    ExitMeansDrained(db, before + after);
  }
}
