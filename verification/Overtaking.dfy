/** When an alert can be overtaken: exactly when a check makes a transition while an earlier one is still to be announced. */
module Overtaking {
  import opened TimeCodec
  import opened Schedule
  import opened Model
  import opened Transitions
  import opened WriteThrough
  import opened Tables
  import opened Integrity
  import opened Protocol
  import opened Coherence
  import opened Alternation
  import opened Announcements
  import opened Announced
  import Q = Pipeline

  /** The number of the last transition among the calls. */
  function LastTurn(log: seq<AlertType>): (n: nat)
    ensures n <= |log| && (n == |log| ==> log == [])
  {
    if log == [] then 0
    else if log[|log| - 1] != AlertFail then |log| - 1
    else LastTurn(log[..|log| - 1])
  }

  predicate JobOf(j: Q.Job, id: string) { j.check.id == id && j.alert != AlertFail }

  predicate EventOf(ev: AlertEvent, id: string) { ev.check.id == id && ev.alert != AlertFail }

  /** Nothing is left to announce for the check. */
  ghost predicate Silent(x: Q.Sender, id: string)
  {
    (forall j :: j in x.jobs ==> !JobOf(j, id)) && forall ev :: ev in x.outbox ==> !EventOf(ev, id)
  }

  ghost predicate AllSilent(p: Q.State, id: string)
  {
    forall k :: 0 <= k < |p.senders| ==> Silent(p.senders[k], id)
  }

  /** What is left to announce for the check is the n-th call. */
  ghost predicate About(x: Q.Sender, id: string, n: nat)
  {
    && (forall j :: j in x.jobs && JobOf(j, id) ==> j.n == n)
    && (forall ev :: ev in x.outbox && EventOf(ev, id) ==> x.current == n)
  }

  ghost predicate AllAbout(p: Q.State, id: string, n: nat)
  {
    forall k :: 0 <= k < |p.senders| ==> About(p.senders[k], id, n)
  }

  /** Whatever is left to announce for the check is its latest transition. */
  ghost predicate Latest(s: Joint, id: string)
  {
    AllAbout(s.pipe, id, LastTurn(Log(s.proto, id)))
  }

  // The last transition of a log that grows.

  lemma {:induction false} TurnsPositive(log: seq<AlertType>, k: nat)
    requires k < |log| && log[k] != AlertFail
    ensures Turns(log) != [] && k <= LastTurn(log) < |log|
  {
    if k < |log| - 1 {
      TurnsPositive(log[..|log| - 1], k);
    }
  }

  lemma {:induction false} NoTurnAdded(log: seq<AlertType>, more: seq<AlertType>)
    requires Turns(more) == []
    ensures LastTurn(log + more) == LastTurn(log)
    ensures forall k :: |log| <= k < |log + more| ==> (log + more)[k] == AlertFail
  {
    if more == [] {
      assert log + more == log;
    } else {
      var most := more[..|more| - 1];
      assert (log + more)[..|log + more| - 1] == log + most;
      NoTurnAdded(log, most);
      assert forall k :: |log| <= k < |log + most| ==> (log + more)[k] == (log + most)[k];
    }
  }

  lemma {:induction false} OneTurnAdded(log: seq<AlertType>, more: seq<AlertType>, k: nat)
    requires |Turns(more)| == 1
    ensures |log| <= LastTurn(log + more)
    ensures |log| <= k < |log + more| && (log + more)[k] != AlertFail ==> k == LastTurn(log + more)
  {
    var most := more[..|more| - 1];
    assert (log + more)[..|log + more| - 1] == log + most;
    if more[|more| - 1] == AlertFail {
      OneTurnAdded(log, most, k);
      assert k < |log + most| ==> (log + most)[k] == (log + more)[k];
    } else {
      assert Turns(most) == [];
      NoTurnAdded(log, most);
      assert k < |log + most| ==> (log + most)[k] == (log + more)[k];
    }
  }

  // The senders through one step of the pipeline.

  ghost predicate AskAbout(e: Q.Event, id: string, n: nat)
  {
    && (e.Ask? ==> forall j :: j in e.wanted && JobOf(j, id) ==> j.n == n)
    && (e.BeginPass? ==> forall j :: j in e.down && JobOf(j, id) ==> j.n == n)
  }

  lemma ReplacedAbout(p: Q.State, t: Q.State, i: nat, x: Q.Sender, id: string, n: nat)
    requires AllAbout(p, id, n) && i < |p.senders| && t.senders == p.senders[i := x] && About(x, id, n)
    ensures AllAbout(t, id, n)
  {
    hide About;
  }

  lemma AddedAbout(p: Q.State, t: Q.State, x: Q.Sender, id: string, n: nat)
    requires AllAbout(p, id, n) && t.senders == p.senders + [x] && About(x, id, n)
    ensures AllAbout(t, id, n)
  {
    hide About;
  }

  lemma SameAbout(p: Q.State, t: Q.State, id: string, n: nat)
    requires AllAbout(p, id, n) && t.senders == p.senders
    ensures AllAbout(t, id, n)
  {
  }

  lemma FreshAbout(role: Q.Role, jobs: seq<Q.Job>, id: string, n: nat)
    requires forall j :: j in jobs && JobOf(j, id) ==> j.n == n
    ensures About(Q.Sender(role, jobs, 0, [], false), id, n)
  {
  }

  /** What a live sender can become by itself. */
  lemma SentAbout(x: Q.Sender, id: string, n: nat)
    requires About(x, id, n)
    ensures x.outbox != [] ==> About(x.(outbox := x.outbox[1..]), id, n)
    ensures About(x.(done := true), id, n)
  {
  }

  lemma AskedAbout(x: Q.Sender, wanted: seq<Q.Job>, id: string, n: nat)
    requires About(x, id, n) && forall j :: j in wanted && JobOf(j, id) ==> j.n == n
    ensures About(x.(jobs := wanted), id, n)
  {
  }

  lemma ListedAbout(x: Q.Sender, events: seq<AlertEvent>, id: string, n: nat)
    requires About(x, id, n) && x.jobs != []
    requires forall ev :: ev in events ==> ev.check == x.jobs[0].check && ev.alert == x.jobs[0].alert
    ensures About(x.(jobs := x.jobs[1..], current := x.jobs[0].n, outbox := events), id, n)
  {
    assert x.jobs[0] in x.jobs;
    forall ev | ev in events && EventOf(ev, id) ensures x.jobs[0].n == n {
      assert JobOf(x.jobs[0], id);
    }
  }

  lemma AboutAt(p: Q.State, k: nat, id: string, n: nat)
    requires AllAbout(p, id, n) && k < |p.senders|
    ensures About(p.senders[k], id, n)
  {
  }

  lemma EnlistAbout(p: Q.State, i: nat, fault: bool, id: string, n: nat)
    requires AllAbout(p, id, n) && Q.Live(p, i) && p.senders[i].jobs != []
    ensures AllAbout(Q.Enlisted(p, i, fault), id, n)
  {
    var x, t := p.senders[i], Q.Enlisted(p, i, fault);
    AboutAt(p, i, id, n);
    ListedAbout(x, t.senders[i].outbox, id, n);
    hide AllAbout, About, ListChannels;
    ReplacedAbout(p, t, i, t.senders[i], id, n);
  }

  lemma PipeStepAbout(p: Q.State, e: Q.Event, id: string, n: nat)
    requires AllAbout(p, id, n) && AskAbout(e, id, n)
    ensures AllAbout(Q.Step(p, e), id, n)
  {
    hide AllAbout, About, JobOf, Dispatch, Execute, Q.NoneLive, Q.Enlisted;
    var t := Q.Step(p, e);
    if t.senders == p.senders {
      SameAbout(p, t, id, n);
    } else if e.Arrive? {
      FreshAbout(Q.Handler, [], id, n);
      AddedAbout(p, t, Q.Sender(Q.Handler, [], 0, [], false), id, n);
    } else if e.BeginPass? {
      FreshAbout(Q.Pass, e.down, id, n);
      AddedAbout(p, t, Q.Sender(Q.Pass, e.down, 0, [], false), id, n);
    } else if e.Enlist? {
      EnlistAbout(p, e.i, e.fault, id, n);
    } else {
      assert e.Ask? || e.Send? || e.Finish?;
      var x := p.senders[e.i];
      AboutAt(p, e.i, id, n);
      SentAbout(x, id, n);
      if e.Ask? {
        AskedAbout(x, e.wanted, id, n);
      }
      ReplacedAbout(p, t, e.i, t.senders[e.i], id, n);
    }
  }

  ghost predicate AsksAbout(events: seq<Q.Event>, id: string, n: nat)
  {
    forall k :: 0 <= k < |events| ==> AskAbout(events[k], id, n)
  }

  lemma {:induction false} PipeRunAbout(p: Q.State, events: seq<Q.Event>, id: string, n: nat)
    requires AllAbout(p, id, n) && AsksAbout(events, id, n)
    ensures AllAbout(Q.Run(p, events), id, n)
  {
    hide AllAbout, AskAbout, Q.Step;
    if events != [] {
      var most := events[..|events| - 1];
      assert forall k :: 0 <= k < |most| ==> most[k] == events[k];
      PipeRunAbout(p, most, id, n);
      PipeStepAbout(Q.Run(p, most), events[|events| - 1], id, n);
    }
  }

  lemma StepWaiting(p: Q.State, e: Q.Event, k: nat, x: Q.Sender)
    requires e.Other? || e.Ask? || e.BeginPass?
    requires k < |p.senders| && p.senders[k] == x && (x.jobs == [] ==> x.outbox != [])
    ensures k < |Q.Step(p, e).senders| && Q.Step(p, e).senders[k] == x
  {
    hide Execute, Q.NoneLive;
  }

  /** The statements and the asking of a write to a check leave every sender that has something to announce as it is. */
  lemma {:induction false} StillWaiting(p: Q.State, events: seq<Q.Event>, k: nat, id: string)
    requires forall j :: 0 <= j < |events| ==> events[j].Other? || events[j].Ask? || events[j].BeginPass?
    requires k < |p.senders| && !Silent(p.senders[k], id)
    ensures k < |Q.Run(p, events).senders| && Q.Run(p, events).senders[k] == p.senders[k]
  {
    hide Q.Step;
    if events != [] {
      var most, e := events[..|events| - 1], events[|events| - 1];
      assert forall j :: 0 <= j < |most| ==> most[j] == events[j];
      StillWaiting(p, most, k, id);
      assert p.senders[k].jobs == [] ==> p.senders[k].outbox != [];
      StepWaiting(Q.Run(p, most), e, k, p.senders[k]);
    }
  }

  // One move of the whole.

  /** What a move asks the senders for comes after everything in the logs. */
  ghost predicate AskNew(s: State, e: Q.Event)
  {
    && (e.Ask? ==> forall j :: j in e.wanted ==> j.n >= |Log(s, j.check.id)|)
    && (e.BeginPass? ==> forall j :: j in e.down ==> j.n >= |Log(s, j.check.id)|)
  }

  ghost predicate AsksNew(s: State, events: seq<Q.Event>)
  {
    forall k :: 0 <= k < |events| ==> AskNew(s, events[k])
  }

  lemma JobsFromNew(s: State, c: Check, alerts: seq<AlertType>)
    ensures forall j :: j in JobsFrom(c, alerts, |Log(s, c.id)|) ==> j.n >= |Log(s, j.check.id)|
  {
    hide Log;
  }

  lemma DownJobsNew(s: State, order: seq<string>, now: Instant)
    requires forall k :: 0 <= k < |order| ==> order[k] in s.st.cache
    requires Coherent(s.st)
    ensures forall j :: j in DownJobs(s, order, now) ==> j.n >= |Log(s, j.check.id)|
  {
    var jobs := DownJobs(s, order, now);
    assert forall c, t :: MarkDown(c, t).id == c.id;
    forall j | j in jobs ensures j.n >= |Log(s, j.check.id)| {
      hide Log, MarkDown;
      var k :| 0 <= k < |jobs| && jobs[k] == j;
      assert s.st.cache[order[k]].id == order[k];
    }
  }

  lemma SavesOnly(cache: map<string, Check>, order: seq<string>, now: Instant)
    requires forall k :: 0 <= k < |order| ==> order[k] in cache
    ensures forall k :: 0 <= k < |order| ==> Saves(cache, order, now)[k].Other?
  {
    hide MarkDown;
  }

  lemma OthersNew(s: State, e: Q.Event)
    requires !e.Ask? && !e.BeginPass?
    ensures AskNew(s, e)
  {
  }

  lemma AskIsNew(s: State, e: Q.Event)
    requires e.Ask? ==> forall j :: j in e.wanted ==> j.n >= |Log(s, j.check.id)|
    requires e.BeginPass? ==> forall j :: j in e.down ==> j.n >= |Log(s, j.check.id)|
    ensures AskNew(s, e)
  {
  }

  lemma SetNew(cal: Calendar, s: Joint, i: nat, fault: bool)
    requires ProtoPart(s, Set(i, fault)).Some?
    ensures AsksNew(s.proto, PipePart(cal, s, Set(i, fault)))
    ensures forall k :: 0 <= k < |PipePart(cal, s, Set(i, fault))| ==> PipePart(cal, s, Set(i, fault))[k].Other? || PipePart(cal, s, Set(i, fault))[k].Ask?
  {
    hide ProtoPart, PipePart, AskNew, JobsFrom, AlertsFor, Log;
    SetParts(cal, s, i, fault);
    var p := s.proto.pending[i];
    var alerts := AlertsFor(p.base, p.req);
    JobsFromNew(s.proto, p.copy, alerts);
    OthersNew(s.proto, Q.Other(SaveCheck(p.copy), fault));
    AskIsNew(s.proto, Q.Ask(i, JobsFrom(p.copy, alerts, |Log(s.proto, p.copy.id)|)));
  }

  lemma SweepNew(cal: Calendar, s: Joint, now: Instant, faults: set<string>, order: seq<string>)
    requires ProtoPart(s, Sweep(now, faults, order)).Some? && Coherent(s.proto.st)
    ensures AsksNew(s.proto, PipePart(cal, s, Sweep(now, faults, order)))
    ensures forall k :: 0 <= k < |PipePart(cal, s, Sweep(now, faults, order))| ==>
              PipePart(cal, s, Sweep(now, faults, order))[k].Other? || PipePart(cal, s, Sweep(now, faults, order))[k].BeginPass?
  {
    hide ProtoPart, PipePart, Lists, Expired, Coherent, AskNew, Saves, DownJobs;
    SweepParts(cal, s, now, faults, order);
    SavesOnly(s.proto.st.cache, order, now);
    DownJobsNew(s.proto, order, now);
    AskIsNew(s.proto, Q.BeginPass(DownJobs(s.proto, order, now)));
    forall k | 0 <= k < |order| ensures AskNew(s.proto, Saves(s.proto.st.cache, order, now)[k]) {
      OthersNew(s.proto, Saves(s.proto.st.cache, order, now)[k]);
    }
  }

  /** A move of the process itself that is not a write to a check, or not a move at all. */
  predicate Plain(s: Joint, m: Move)
  {
    m.Get? || m.Pipe? || m.Make? || m.Drop? || m.Crash? || ProtoPart(s, m).None?
  }

  lemma PlainParts(cal: Calendar, s: Joint, m: Move)
    requires Plain(s, m)
    ensures forall k :: 0 <= k < |PipePart(cal, s, m)| ==> !PipePart(cal, s, m)[k].Ask? && !PipePart(cal, s, m)[k].BeginPass?
  {
    hide ParseCheckForm, NewCheck, Hydrate, Expired, Idle, Lists;
  }

  lemma PlainLogs(cal: Calendar, s: Joint, m: Move, id: string)
    requires Plain(s, m) && Inv(cal, s.proto)
    ensures Log(Next(cal, s, m).proto, id) == Log(s.proto, id)
  {
    var e := ProtoPart(s, m);
    assert Next(cal, s, m).proto == if e.Some? then Step(cal, s.proto, e.value) else s.proto;
    if e.Some? {
      assert !e.value.Commit? && !e.value.Atomic? && !e.value.Evaluate?;
      hide Next, ProtoPart, Inv, Step;
      QuietLog(cal, s.proto, e.value, id);
    }
  }

  lemma MoveNew(cal: Calendar, s: Joint, m: Move)
    requires Inv(cal, s.proto)
    ensures AsksNew(s.proto, PipePart(cal, s, m))
  {
    if Plain(s, m) {
      PlainParts(cal, s, m);
      hide PipePart, Plain, Inv;
      forall k | 0 <= k < |PipePart(cal, s, m)| ensures AskNew(s.proto, PipePart(cal, s, m)[k]) {
        OthersNew(s.proto, PipePart(cal, s, m)[k]);
      }
    } else {
      InvCoherent(cal, s.proto);
      hide PipePart, ProtoPart, Inv, AsksNew;
      if m.Set? {
        SetNew(cal, s, m.i, m.fault);
      } else {
        SweepNew(cal, s, m.now, m.faults, m.order);
      }
    }
  }

  /** Every move adds at most one transition of a check. */
  lemma MoveLogs(cal: Calendar, s: Joint, m: Move, id: string) returns (more: seq<AlertType>)
    requires Inv(cal, s.proto)
    ensures Log(Next(cal, s, m).proto, id) == Log(s.proto, id) + more && |Turns(more)| <= 1
    ensures Turns(Log(Next(cal, s, m).proto, id)) == Turns(Log(s.proto, id)) + Turns(more)
  {
    var e := ProtoPart(s, m);
    assert Next(cal, s, m).proto == if e.Some? then Step(cal, s.proto, e.value) else s.proto;
    hide Next, ProtoPart, Inv, Step, Log, Turns;
    if e.Some? {
      more := Logged(cal, s.proto, e.value, id);
      hide Logged;
      LogStep(cal, s.proto, e.value, id);
      Turned(cal, s.proto, e.value, id);
    } else {
      more := [];
      TurnsOfNone();
      assert Log(s.proto, id) + more == Log(s.proto, id) && Turns(Log(s.proto, id)) + [] == Turns(Log(s.proto, id));
    }
  }

  lemma JobIsLatest(s: State, t: State, more: seq<AlertType>, j: Q.Job, id: string)
    requires Log(t, id) == Log(s, id) + more && |Turns(more)| <= 1
    requires JobOf(j, id) && j.n >= |Log(s, id)| && Labelled(t.calls, j.check, j.alert, j.n)
    ensures j.n == LastTurn(Log(t, id))
  {
    var log := Log(s, id);
    LogIs(t, id);
    assert (log + more)[j.n] == j.alert;
    hide Log, LastTurn, Turns;
    if Turns(more) == [] {
      NoTurnAdded(log, more);
    } else {
      OneTurnAdded(log, more, j.n);
    }
  }

  /** What a move asks for a check is its latest transition. */
  lemma AsksLatest(s: State, t: State, events: seq<Q.Event>, more: seq<AlertType>, id: string)
    requires Log(t, id) == Log(s, id) + more && |Turns(more)| <= 1
    requires AsksNew(s, events) && AsksLabelled(t.calls, events)
    ensures AsksAbout(events, id, LastTurn(Log(t, id)))
  {
    hide LastTurn, Turns, Log, Labelled;
    forall k | 0 <= k < |events| ensures AskAbout(events[k], id, LastTurn(Log(t, id))) {
      var e := events[k];
      assert AskNew(s, e) && AskLabelled(t.calls, e);
      if e.Ask? {
        forall j | j in e.wanted && JobOf(j, id) ensures j.n == LastTurn(Log(t, id)) {
          JobIsLatest(s, t, more, j, id);
        }
      } else if e.BeginPass? {
        forall j | j in e.down && JobOf(j, id) ensures j.n == LastTurn(Log(t, id)) {
          JobIsLatest(s, t, more, j, id);
        }
      }
    }
  }

  lemma SilentIsAbout(p: Q.State, id: string, n: nat)
    requires AllSilent(p, id)
    ensures AllAbout(p, id, n)
  {
    hide JobOf, EventOf;
  }

  /** A transition made while one of the check is still to be announced leaves that alert behind. */
  lemma LeftBehind(s: Joint, p: Q.State, id: string, k: nat, n: nat)
    requires AllAbout(s.pipe, id, LastTurn(Log(s.proto, id))) && PipeLabelled(s.proto.calls, s.pipe)
    requires k < |s.pipe.senders| && !Silent(s.pipe.senders[k], id) && n >= |Log(s.proto, id)|
    requires k < |p.senders| && p.senders[k] == s.pipe.senders[k]
    ensures !AllAbout(p, id, n)
  {
    var x, log := s.pipe.senders[k], Log(s.proto, id);
    AboutAt(s.pipe, k, id, LastTurn(log));
    SenderAt(s.proto.calls, s.pipe, k);
    LogIs(s.proto, id);
    hide AllAbout, PipeLabelled, LastTurn, Log;
    assert !About(x, id, n);
    if AllAbout(p, id, n) {
      AboutAt(p, k, id, n);
    }
  }

  /** One move keeps what is left to announce to the latest transition exactly if it makes no transition of a check that
      has one still to be announced. */
  lemma LatestStep(cal: Calendar, s: Joint, m: Move, id: string)
    requires JointInv(cal, s) && Latest(s, id)
    ensures Latest(Next(cal, s, m), id) <==> (Turns(Log(Next(cal, s, m).proto, id)) != Turns(Log(s.proto, id)) ==> AllSilent(s.pipe, id))
  {
    var t := Next(cal, s, m);
    var more := MoveLogs(cal, s, m, id);
    if m.Crash? {
      CrashLatest(cal, s, id);
    } else {
      assert t.pipe == Q.Run(s.pipe, PipePart(cal, s, m));
      MoveAgrees(cal, s, m);
      MoveNew(cal, s, m);
      var events := PipePart(cal, s, m);
      AsksLatest(s.proto, t.proto, events, more, id);
      var n := LastTurn(Log(t.proto, id));
      if Turns(more) == [] {
        NoTurnAdded(Log(s.proto, id), more);
        hide Next, PipePart, Inv, AllAbout, AsksAbout, Q.Run, LastTurn, Turns, Log;
        PipeRunAbout(s.pipe, events, id, n);
      } else if AllSilent(s.pipe, id) {
        hide Next, PipePart, Inv, AllAbout, AsksAbout, Q.Run, LastTurn, Turns, Log;
        SilentIsAbout(s.pipe, id, n);
        PipeRunAbout(s.pipe, events, id, n);
      } else {
        OneTurnAdded(Log(s.proto, id), more, 0);
        assert Turns(Log(t.proto, id)) != Turns(Log(s.proto, id));
        TurnParts(cal, s, m, id);
        hide Next, PipePart, Inv, AllAbout, AsksAbout, Q.Run, LastTurn, Turns, Log, Silent;
        var k :| 0 <= k < |s.pipe.senders| && !Silent(s.pipe.senders[k], id);
        StillWaiting(s.pipe, events, k, id);
        LeftBehind(s, t.pipe, id, k, n);
      }
    }
  }

  lemma CrashLatest(cal: Calendar, s: Joint, id: string)
    requires JointInv(cal, s) && Latest(s, id)
    ensures Latest(Next(cal, s, Crash), id) && Log(Next(cal, s, Crash).proto, id) == Log(s.proto, id)
  {
    PlainLogs(cal, s, Crash, id);
    hide JointInv, LastTurn, Log, Step;
  }

  /** Only a Set and a pass make transitions. */
  lemma TurnParts(cal: Calendar, s: Joint, m: Move, id: string)
    requires Inv(cal, s.proto) && Turns(Log(Next(cal, s, m).proto, id)) != Turns(Log(s.proto, id))
    ensures var events := PipePart(cal, s, m);
            forall k :: 0 <= k < |events| ==> events[k].Other? || events[k].Ask? || events[k].BeginPass?
  {
    if Plain(s, m) {
      PlainLogs(cal, s, m, id);
    } else {
      InvCoherent(cal, s.proto);
      hide Next, PipePart, ProtoPart, Inv, AsksNew, Log, Turns;
      if m.Set? {
        SetNew(cal, s, m.i, m.fault);
      } else {
        SweepNew(cal, s, m.now, m.faults, m.order);
      }
    }
  }

  // Runs, from any state in which nothing is overdue to be announced: the start, or the beginning of another life.

  ghost predicate AlwaysLatest(cal: Calendar, s: Joint, moves: seq<Move>, id: string)
  {
    Latest(From(cal, s, moves), id) && (moves != [] ==> AlwaysLatest(cal, s, moves[..|moves| - 1], id))
  }

  /** Every transition of the check is made when all earlier ones have been announced, given up or lost. */
  ghost predicate Settled(cal: Calendar, s: Joint, moves: seq<Move>, id: string)
  {
    moves != [] ==>
      var most := moves[..|moves| - 1];
      var t, u := From(cal, s, most), From(cal, s, moves);
      && Settled(cal, s, most, id)
      && (Turns(Log(u.proto, id)) != Turns(Log(t.proto, id)) ==> AllSilent(t.pipe, id))
  }

  /** Every alert is about the latest transition of its check for as long as it is on its way to the queue, exactly if
      each transition is made when no earlier one is still to be announced. */
  lemma {:induction false} LatestExactly(cal: Calendar, s: Joint, moves: seq<Move>, id: string)
    requires JointInv(cal, s) && Latest(s, id)
    ensures AlwaysLatest(cal, s, moves, id) <==> Settled(cal, s, moves, id)
  {
    if moves == [] {
      assert From(cal, s, moves) == s;
    } else {
      var most := moves[..|moves| - 1];
      assert From(cal, s, moves) == Next(cal, From(cal, s, most), moves[|moves| - 1]);
      hide From, Next, JointInv, Latest, AllSilent, Turns, Log;
      LatestExactly(cal, s, most, id);
      if AlwaysLatest(cal, s, most, id) {
        FromKeeps(cal, s, most);
        LatestStep(cal, From(cal, s, most), moves[|moves| - 1], id);
      }
    }
  }

  // What has been accepted.

  lemma StepAccepts(p: Q.State, e: Q.Event)
    requires !e.Send?
    ensures Q.Step(p, e).accepted == p.accepted && Q.Step(p, e).numbers == p.numbers
  {
    hide Execute, Dispatch, Q.NoneLive, ListChannels, Q.EventsOfListing;
  }

  lemma {:induction false} RunAccepts(p: Q.State, events: seq<Q.Event>)
    requires forall j :: 0 <= j < |events| ==> !events[j].Send?
    ensures Q.Run(p, events).accepted == p.accepted && Q.Run(p, events).numbers == p.numbers
  {
    hide Q.Step;
    if events != [] {
      var most := events[..|events| - 1];
      assert forall j :: 0 <= j < |most| ==> most[j] == events[j];
      RunAccepts(p, most);
      StepAccepts(Q.Run(p, most), events[|events| - 1]);
    }
  }

  lemma SendParts(cal: Calendar, s: Joint, m: Move)
    requires Coherent(s.proto.st)
    ensures var events := PipePart(cal, s, m);
            (m.Pipe? && m.e.Send? && events == [m.e]) || forall k :: 0 <= k < |events| ==> !events[k].Send?
  {
    if m.Set? && ProtoPart(s, m).Some? {
      SetNew(cal, s, m.i, m.fault);
    } else if m.Sweep? && ProtoPart(s, m).Some? {
      SweepNew(cal, s, m.now, m.faults, m.order);
    }
    hide AsksNew, ParseCheckForm, NewCheck, Saves, DownJobs, JobsFrom, ProtoPart, Coherent;
  }

  /** A move adds to what the queue ever accepted by a send alone, and then the event and the number of its sender. */
  lemma SentLogStep(cal: Calendar, s: Joint, m: Move)
    requires JointInv(cal, s)
    ensures var t := Next(cal, s, m);
            || SentLog(t) == SentLog(s)
            || (m.Pipe? && m.e.Send? && Q.Live(s.pipe, m.e.i) && s.pipe.senders[m.e.i].outbox != []
                && SentLog(t) == SentLog(s) + [Sent(s.pipe.senders[m.e.i].outbox[0], s.pipe.senders[m.e.i].current)])
  {
    var t := Next(cal, s, m);
    var p := s.pipe;
    assert |p.accepted| == |p.numbers|;
    InvCoherent(cal, s.proto);
    SendParts(cal, s, m);
    hide PipePart, ProtoPart, Step, JointInv;
    if m.Crash? {
      assert Zip([], []) == [];
      assert SentLog(s) + [] == SentLog(s);
    } else if m.Pipe? && m.e.Send? && PipePart(cal, s, m) == [m.e] {
      Q.RunOneMore(p, [], m.e);
      assert [] + [m.e] == [m.e] && Q.Run(p, []) == p;
      assert t.pipe == Q.Step(p, m.e);
      hide Next, Q.Run;
      SendLogs(p, m.e.i);
    } else {
      RunAccepts(p, PipePart(cal, s, m));
    }
  }

  lemma SendLogs(p: Q.State, i: nat)
    requires |p.accepted| == |p.numbers|
    ensures var t := Q.Step(p, Q.Send(i));
            || (t.accepted == p.accepted && t.numbers == p.numbers)
            || (Q.Live(p, i) && p.senders[i].outbox != [] && |t.accepted| == |t.numbers|
                && Zip(t.accepted, t.numbers) == Zip(p.accepted, p.numbers) + [Sent(p.senders[i].outbox[0], p.senders[i].current)])
  {
    var t := Q.Step(p, Q.Send(i));
    if t.accepted != p.accepted {
      var x := p.senders[i];
      assert t.accepted == p.accepted + [x.outbox[0]] && t.numbers == p.numbers + [x.current];
    }
  }

  /** No alert of the check stands before one for an earlier call, on whatever channels. */
  ghost predicate InCallOrder(sent: seq<Sent>, id: string)
  {
    forall j, k :: 0 <= j < k < |sent| && EventOf(sent[j].event, id) && EventOf(sent[k].event, id) ==> sent[j].n <= sent[k].n
  }

  lemma SentBefore(cal: Calendar, s: Joint, id: string)
    requires JointInv(cal, s)
    ensures forall j :: 0 <= j < |SentLog(s)| && EventOf(SentLog(s)[j].event, id) ==> SentLog(s)[j].n <= LastTurn(Log(s.proto, id))
  {
    var sent := SentLog(s);
    assert SentLabelled(s.proto.calls, sent) by {
      hide Labelled;
    }
    hide JointInv, SentLog;
    forall j | 0 <= j < |sent| && EventOf(sent[j].event, id) ensures sent[j].n <= LastTurn(Log(s.proto, id)) {
      assert Labelled(s.proto.calls, sent[j].event.check, sent[j].event.alert, sent[j].n);
      LogIs(s.proto, id);
      TurnsPositive(Log(s.proto, id), sent[j].n);
    }
  }

  lemma OrderStep(cal: Calendar, s: Joint, m: Move, id: string)
    requires JointInv(cal, s) && Latest(s, id) && InCallOrder(SentLog(s), id)
    ensures InCallOrder(SentLog(Next(cal, s, m)), id)
  {
    SentLogStep(cal, s, m);
    SentBefore(cal, s, id);
    hide JointInv, Next, SentLog, LastTurn, Log, EventOf;
    if SentLog(Next(cal, s, m)) != SentLog(s) {
      var x := s.pipe.senders[m.e.i];
      AboutAt(s.pipe, m.e.i, id, LastTurn(Log(s.proto, id)));
      assert x.outbox[0] in x.outbox;
    }
  }

  /** Then no alert is overtaken: a check's alerts enter the queue in the order of its transitions, through lost alerts,
      failed look-ups, drops, deletions, crashes and restarts. */
  lemma {:induction false} NoneOvertaken(cal: Calendar, s: Joint, moves: seq<Move>, id: string)
    requires JointInv(cal, s) && Latest(s, id) && InCallOrder(SentLog(s), id) && Settled(cal, s, moves, id)
    ensures InCallOrder(SentLog(From(cal, s, moves)), id)
  {
    if moves == [] {
      assert From(cal, s, moves) == s;
    } else {
      var most := moves[..|moves| - 1];
      assert From(cal, s, moves) == Next(cal, From(cal, s, most), moves[|moves| - 1]);
      hide From, Next, JointInv, Latest, AllSilent, Turns, Log, InCallOrder, SentLog;
      LatestExactly(cal, s, most, id);
      FromKeeps(cal, s, most);
      NoneOvertaken(cal, s, most, id);
      OrderStep(cal, From(cal, s, most), moves[|moves| - 1], id);
    }
  }

  /** Being in step is settled when an alert is sent: a move takes no accepted alert back, and leaves the place of each
      among the transitions as it is. */
  lemma InStepStays(cal: Calendar, s: Joint, m: Move, id: string, channel: nat, k: nat)
    requires JointInv(cal, s) && k < |OnChannel(SentLog(s), id, channel)|
    ensures var t := Next(cal, s, m);
            && OnChannel(SentLog(s), id, channel) <= OnChannel(SentLog(t), id, channel)
            && var n := OnChannel(SentLog(s), id, channel)[k].n;
               Place(Log(t.proto, id), n) == Place(Log(s.proto, id), n)
  {
    var t, x := Next(cal, s, m), OnChannel(SentLog(s), id, channel)[k];
    LabelledOnChannel(cal, s, id, channel, k);
    SentLogStep(cal, s, m);
    var more := MoveLogs(cal, s, m, id);
    hide JointInv, Next, SentLog, Log, OnChannel, Place;
    PlaceStays(Log(s.proto, id), more, x.n);
    if SentLog(t) != SentLog(s) {
      ChannelGrows(SentLog(s), SentLog(t)[|SentLog(s)|], id, channel);
    }
  }
}
