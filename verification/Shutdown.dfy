/** Why the drain claims ask for a graceful stop: what a stop that gives up on a handler can lead to. */
module Shutdown {
  import opened Model
  import opened CheckRows
  import opened Ranking
  import opened Tables
  import opened Integrity
  import opened Pipeline

  /** A sender of which nothing is left to do, and all others as before. */
  ghost predicate OnlyRetires(s: State, t: State, j: nat)
  {
    && !t.panicked && t.main == s.main && t.forced == s.forced && |t.senders| == |s.senders|
    && j < |s.senders| && t.senders[j].done && t.senders[j].role == s.senders[j].role
    && forall k :: 0 <= k < |s.senders| && k != j ==> t.senders[k] == s.senders[k]
  }

  /** What a sender does next when its look-ups fail. */
  function Onward(s: State, j: nat): Event
    requires Live(s, j)
  {
    if s.senders[j].outbox != [] then Send(j) else if s.senders[j].jobs != [] then Enlist(j, true) else Finish(j)
  }

  lemma OneOnward(s: State, j: nat)
    requires Live(s, j) && !s.panicked && s.main != Closed && s.main != Exited
    ensures var t := Step(s, Onward(s, j));
            && !t.panicked && t.main == s.main && t.forced == s.forced && |t.senders| == |s.senders|
            && t.senders[j].role == s.senders[j].role
            && (forall k :: 0 <= k < |s.senders| && k != j ==> t.senders[k] == s.senders[k])
            && if Onward(s, j).Finish? then t.senders[j].done
               else !t.senders[j].done
                    && (|t.senders[j].jobs| < |s.senders[j].jobs|
                        || (t.senders[j].jobs == s.senders[j].jobs && |t.senders[j].outbox| < |s.senders[j].outbox|))
  {
    hide ListChannels, NoneLive;
  }

  /** A sender can always run to its end: its look-ups fail, its events are sent or dropped. */
  lemma {:induction false} Retire(s: State, j: nat) returns (events: seq<Event>)
    requires Live(s, j) && !s.panicked && s.main != Closed && s.main != Exited
    ensures OnlyRetires(s, Run(s, events), j)
    decreases |s.senders[j].jobs|, |s.senders[j].outbox|
  {
    var e := Onward(s, j);
    var t := Step(s, e);
    OneOnward(s, j);
    hide Run, Step, Onward;
    RunSingle(s, e);
    if e.Finish? {
      events := [e];
    } else {
      var rest := Retire(t, j);
      events := [e] + rest;
      RunFrom(s, [e], rest);
    }
  }

  lemma RunSingle(s: State, e: Event)
    ensures Run(s, [e]) == Step(s, e)
  {
    RunOneMore(s, [], e);
    assert [] + [e] == [e];
    assert Run(s, []) == s;
    hide Step;
  }

  /** The passes among the first n senders are over, and everything else of the senders is as it was. */
  ghost predicate PassesOver(s: State, t: State, n: nat)
  {
    && !t.panicked && t.main == s.main && t.forced == s.forced && |t.senders| == |s.senders|
    && (forall k :: 0 <= k < |s.senders| ==> t.senders[k].role == s.senders[k].role)
    && (forall k :: 0 <= k < |s.senders| && s.senders[k].role == Handler ==> t.senders[k] == s.senders[k])
    && (forall k :: 0 <= k < n && k < |s.senders| && s.senders[k].role == Pass ==> t.senders[k].done)
  }

  lemma {:induction false} EndPasses(s: State, n: nat) returns (events: seq<Event>)
    requires n <= |s.senders| && !s.panicked && s.main != Closed && s.main != Exited
    ensures PassesOver(s, Run(s, events), n)
  {
    if n == 0 {
      events := [];
      assert Run(s, []) == s;
    } else {
      hide Step;
      events := EndPasses(s, n - 1);
      var t := Run(s, events);
      hide Run;
      if t.senders[n - 1].role == Pass && !t.senders[n - 1].done {
        var more := Retire(t, n - 1);
        RunFrom(s, events, more);
        events := events + more;
      }
    }
  }

  /** What follows once the passes are over: the scheduler stops, the queue closes, and the handler's send hits it. */
  lemma ThenPanics(s: State, i: nat)
    requires s.main == ServerDown && !s.panicked && Live(s, i) && s.senders[i].outbox != [] && NoneLive(s.senders, Pass)
    ensures Run(s, [StopScheduler] + [CloseQueue] + [Send(i)]).panicked
  {
    hide NoneLive;
    var t := Step(s, StopScheduler);
    var u := Step(t, CloseQueue);
    assert t == s.(main := SchedulerStopped) && u == s.(main := Closed);
    assert Step(u, Send(i)).panicked;
    hide Step;
    RunSingle(s, StopScheduler);
    RunOneMore(s, [StopScheduler], CloseQueue);
    RunOneMore(s, [StopScheduler] + [CloseQueue], Send(i));
  }

  /** From every state in which a handler still has events to send, a stop that does not wait for it can be followed by
      a send on the closed channel, whatever passes are under way. */
  lemma ForcedStopCanPanic(s: State, i: nat) returns (events: seq<Event>)
    requires s.main == Serving && !s.panicked && Live(s, i) && s.senders[i].role == Handler && s.senders[i].outbox != []
    ensures Run(s, [StopServer(false)] + events).panicked
  {
    var t := Step(s, StopServer(false));
    assert t.main == ServerDown && t.senders == s.senders && !t.panicked;
    RunSingle(s, StopServer(false));
    hide Step, Run;
    var first := EndPasses(t, |t.senders|);
    var u := Run(t, first);
    assert NoneLive(u.senders, Pass);
    var last := [StopScheduler] + [CloseQueue] + [Send(i)];
    ThenPanics(u, i);
    RunFrom(t, first, last);
    events := first + last;
    RunFrom(s, [StopServer(false)], events);
  }

  lemma FirstAsk(init: State, job: Job)
    requires init == Init(init.db)
    ensures Step(Step(Step(Step(init, StartWorker), Serve), Arrive), Ask(0, [job])) ==
            init.(started := true, main := Serving, senders := [Sender(Handler, [job], 0, [], false)], asked := [job])
  {
    hide ListChannels, NoneLive, Dispatch, Execute;
    var s2 := Step(Step(init, StartWorker), Serve);
    assert s2 == init.(started := true, main := Serving);
    var s3 := Step(s2, Arrive);
    assert s3 == s2.(senders := [Sender(Handler, [], 0, [], false)]);
  }

  lemma FirstAlert(init: State, job: Job)
    requires init == Init(init.db) && ListChannels(init.db, job.check.id) != []
    ensures var s := Step(Step(Step(Step(Step(init, StartWorker), Serve), Arrive), Ask(0, [job])), Enlist(0, false));
            s.main == Serving && !s.panicked && Live(s, 0) && s.senders[0].role == Handler && s.senders[0].outbox != []
  {
    var s4 := init.(started := true, main := Serving, senders := [Sender(Handler, [job], 0, [], false)], asked := [job]);
    assert s4.main == Serving && !s4.panicked && s4.db == init.db;
    hide *;
    FirstAsk(init, job);
    OneListed(s4, job);
  }

  lemma OneListed(s: State, job: Job)
    requires s.main == Serving && !s.panicked && s.senders == [Sender(Handler, [job], 0, [], false)] && ListChannels(s.db, job.check.id) != []
    ensures var t := Step(s, Enlist(0, false));
            t.main == Serving && !t.panicked && Live(t, 0) && t.senders[0].role == Handler && t.senders[0].outbox != []
  {
    var x := s.senders[0];
    assert Live(s, 0) && x.jobs[0] == job && x.role == Handler;
    StepIsEnlisted(s);
    hide *;
    EnlistedOne(s);
  }

  lemma StepIsEnlisted(s: State)
    requires !s.panicked && Live(s, 0) && s.senders[0].outbox == [] && s.senders[0].jobs != []
    ensures Step(s, Enlist(0, false)) == Enlisted(s, 0, false)
  {
    hide Enlisted, NoneLive, Sent, Dispatch, Execute;
  }

  lemma EnlistedOne(s: State)
    requires Live(s, 0) && s.senders[0].jobs != []
    ensures var t, x := Enlisted(s, 0, false), s.senders[0];
            var job := x.jobs[0];
            && t.main == s.main && t.panicked == s.panicked && Live(t, 0) && t.senders[0].role == x.role
            && |t.senders[0].outbox| == |ListChannels(s.db, job.check.id)|
  {
    hide ListChannels;
  }

  /** Such states are reached: a stored check with one channel attached, and a request that wants an alert for it. */
  lemma HandlerWithAlert(c: Check, ch: Channel) returns (db: Db, events: seq<Event>)
    requires c.slug.None? && ch.kind in CHANNEL_KINDS
    ensures Sound(db) && c.id in db.checks
    ensures var s := Run(Init(db), events);
            s.main == Serving && !s.panicked && Live(s, 0) && s.senders[0].role == Handler && s.senders[0].outbox != []
  {
    db := OneAttached(c, ch);
    var job := Job(c, AlertUp, 0);
    FirstAlert(Init(db), job);
    hide Step, Run, Init, Sound;
    RunSingle(Init(db), StartWorker);
    RunOneMore(Init(db), [StartWorker], Serve);
    RunOneMore(Init(db), [StartWorker] + [Serve], Arrive);
    RunOneMore(Init(db), [StartWorker] + [Serve] + [Arrive], Ask(0, [job]));
    RunOneMore(Init(db), [StartWorker] + [Serve] + [Arrive] + [Ask(0, [job])], Enlist(0, false));
    events := [StartWorker] + [Serve] + [Arrive] + [Ask(0, [job])] + [Enlist(0, false)];
  }

  lemma OneAttached(c: Check, ch: Channel) returns (db: Db)
    requires c.slug.None? && ch.kind in CHANNEL_KINDS
    ensures Sound(db) && c.id in db.checks && ListChannels(db, c.id) != []
  {
    db := Empty.(checks := map[c.id := RowOf(c)], channels := map[ch.id := ch], links := {(c.id, ch.id)}, nextChannel := ch.id + 1);
    assert (c.id, ch.id) in db.links && ch.id in Attached(db, c.id);
    assert Stamp(ch.id, ch.createdAt) in ChannelStamps(db, c.id);
  }
}
