/** What a channel hears of a check in one life: its transitions, in their order, none missing and none twice. */
module ChannelOrder {
  import opened Schedule
  import opened Model
  import opened WriteThrough
  import opened Tables
  import opened Integrity
  import opened Protocol
  import opened Coherence
  import opened Reduction
  import opened Alternation
  import opened Announcements
  import opened Announced
  import opened Overtaking
  import opened ChannelRows
  import opened Life
  import opened Calls
  import Q = Pipeline

  /** The Down and Up alerts of a check that the queue ever accepted for a channel. */
  function Heard(s: Joint, id: string, h: nat): seq<AlertType>
  {
    AlertsIn(OnChannel(SentLog(s), id, h))
  }

  lemma {:induction false} OnChannelJoin(a: seq<Sent>, b: seq<Sent>, id: string, h: nat)
    ensures OnChannel(a + b, id, h) == OnChannel(a, id, h) + OnChannel(b, id, h)
  {
    if b == [] {
      assert a + b == a;
    } else {
      assert (a + b)[..|a + b| - 1] == a + b[..|b| - 1];
      OnChannelJoin(a, b[..|b| - 1], id, h);
    }
  }

  lemma OneTurn(a: AlertType)
    ensures Turns([a]) == if a == AlertFail then [] else [a]
  {
    assert [a][..0] == [];
  }

  lemma ZipLast(events: seq<AlertEvent>, numbers: seq<nat>)
    requires |events| == |numbers| && events != []
    ensures var n := |events| - 1; Zip(events, numbers) == Zip(events[..n], numbers[..n]) + [Sent(events[n], numbers[n])]
  {
  }

  lemma AlertsInJoin(a: seq<Sent>, b: seq<Sent>)
    ensures AlertsIn(a + b) == AlertsIn(a) + AlertsIn(b)
  {
  }

  /** One alert more. */
  lemma HeardMore(most: seq<Sent>, x: Sent, alerts: seq<AlertType>, more: seq<AlertType>, id: string, h: nat)
    requires AlertsIn(OnChannel(most, id, h)) == Turns(alerts) && more == if To(x.event, id, h) then [x.event.alert] else []
    ensures AlertsIn(OnChannel(most + [x], id, h)) == Turns(alerts + more)
  {
    OnChannelMore(most, x, id, h);
    assert AlertsIn([x]) == [x.event.alert] && AlertsIn([]) == [];
    hide OnChannel, AlertsIn;
    var added: seq<Sent> := if To(x.event, id, h) && x.event.alert != AlertFail then [x] else [];
    assert OnChannel(most + [x], id, h) == OnChannel(most, id, h) + added;
    hide Turns;
    AlertsInJoin(OnChannel(most, id, h), added);
    TurnsAppend(alerts, more);
    OneTurn(x.event.alert);
    TurnsOfNone();
  }

  lemma {:induction false} HeardOf(events: seq<AlertEvent>, numbers: seq<nat>, id: string, h: nat)
    requires |events| == |numbers|
    ensures AlertsIn(OnChannel(Zip(events, numbers), id, h)) == Turns(AlertsTo(events, id, h))
  {
    if events == [] {
      assert Zip(events, numbers) == [];
    } else {
      var n := |events| - 1;
      assert events == events[..n] + [events[n]];
      hide *;
      HeardOf(events[..n], numbers[..n], id, h);
      ZipLast(events, numbers);
      AlertsMore(events[..n], events[n], id, h);
      HeardMore(Zip(events[..n], numbers[..n]), Sent(events[n], numbers[n]), AlertsTo(events[..n], id, h),
                if To(events[n], id, h) then [events[n].alert] else [], id, h);
    }
  }

  /** What a channel heard in a life comes after what it heard before. */
  lemma HeardSince(s: Joint, t: Joint, id: string, h: nat)
    requires s.pipe == Q.Init(s.pipe.db) && t.past == s.past && |t.pipe.accepted| == |t.pipe.numbers|
    ensures Heard(t, id, h) == Heard(s, id, h) + Turns(AlertsTo(t.pipe.accepted, id, h))
  {
    assert SentLog(s) == s.past + Zip([], []) && Zip([], []) == [];
    assert s.past + [] == s.past;
    var now := Zip(t.pipe.accepted, t.pipe.numbers);
    assert SentLog(t) == s.past + now;
    hide SentLog, OnChannel, Zip, AlertsTo, Turns;
    OnChannelJoin(s.past, now, id, h);
    HeardOf(t.pipe.accepted, t.pipe.numbers, id, h);
    assert AlertsIn(OnChannel(s.past, id, h) + OnChannel(now, id, h)) == AlertsIn(OnChannel(s.past, id, h)) + AlertsIn(OnChannel(now, id, h));
  }

  // Counting.

  lemma {:induction false} TurnsSize(log: seq<AlertType>)
    ensures |Turns(log)| == multiset(log)[AlertDown] + multiset(log)[AlertUp]
  {
    if log != [] {
      assert log == log[..|log| - 1] + [log[|log| - 1]];
      TurnsSize(log[..|log| - 1]);
    }
  }

  /** Nothing but fail alerts. */
  predicate OnlyFails(alerts: seq<AlertType>)
  {
    forall k :: 0 <= k < |alerts| ==> alerts[k] == AlertFail
  }

  lemma {:induction false} SilentEvents(events: seq<AlertEvent>, id: string, h: nat)
    requires forall ev :: ev in events ==> !EventOf(ev, id)
    ensures OnlyFails(AlertsTo(events, id, h))
  {
    if events != [] {
      var most := events[..|events| - 1];
      assert forall ev :: ev in most ==> ev in events;
      assert events[|events| - 1] in events;
      SilentEvents(most, id, h);
    }
  }

  lemma SilentJobs(jobs: seq<Q.Job>, id: string)
    requires forall j :: j in jobs ==> !JobOf(j, id)
    ensures OnlyFails(JobAlerts(jobs, id))
  {
    var calls := CallsOf(jobs, id);
    forall k | 0 <= k < |calls| ensures calls[k].alert == AlertFail {
      assert calls[k] in calls && !JobOf(calls[k], id);
    }
    hide CallsOf;
  }

  lemma {:induction false} SilentSenders(senders: seq<Q.Sender>, id: string)
    requires forall k :: 0 <= k < |senders| ==> Silent(senders[k], id)
    ensures forall j :: j in AllJobs(senders) ==> !JobOf(j, id)
    ensures forall ev :: ev in AllOutboxes(senders) ==> !EventOf(ev, id)
  {
    if senders != [] {
      var most := senders[..|senders| - 1];
      assert forall k :: 0 <= k < |most| ==> most[k] == senders[k];
      SilentSenders(most, id);
      assert Silent(senders[|senders| - 1], id);
      hide JobOf, EventOf;
    }
  }

  lemma FailsJoin(a: seq<AlertType>, b: seq<AlertType>)
    requires OnlyFails(a) && OnlyFails(b)
    ensures multiset(a + b)[AlertDown] == 0 && multiset(a + b)[AlertUp] == 0
  {
    assert OnlyFails(a + b);
    assert AlertDown !in a + b && AlertUp !in a + b;
  }

  lemma SilentWay(p: Q.State, id: string, h: nat)
    requires AllSilent(p, id)
    ensures multiset(OnTheirWay(p.senders, id, h))[AlertDown] == 0 && multiset(OnTheirWay(p.senders, id, h))[AlertUp] == 0
  {
    SilentSenders(p.senders, id);
    hide AllSilent, JobOf, EventOf, AllJobs, AllOutboxes, JobAlerts, AlertsTo, OnlyFails;
    SilentJobs(AllJobs(p.senders), id);
    SilentEvents(AllOutboxes(p.senders), id, h);
    FailsJoin(JobAlerts(AllJobs(p.senders), id), AlertsTo(AllOutboxes(p.senders), id, h));
  }

  /** Never more alerts than transitions, and as many when none is on its way. */
  lemma Sizes(cal: Calendar, s: Joint, moves: seq<Move>, id: string, h: nat)
    requires Begins(cal, s) && NoCrash(moves)
    requires var p := From(cal, s, moves).pipe; AlwaysHears(p.listings, id, h) && NoneDropped(p, id, h)
    ensures var t := From(cal, s, moves);
            var sent, turns := Turns(AlertsTo(t.pipe.accepted, id, h)), Turns(Since(s, t, id));
            |sent| <= |turns| && (AllSilent(t.pipe, id) ==> |sent| == |turns|)
  {
    var t := From(cal, s, moves);
    hide *;
    CallsAccounted(cal, s, moves, id, h);
    TurnsSize(AlertsTo(t.pipe.accepted, id, h));
    TurnsSize(Since(s, t, id));
    if AllSilent(t.pipe, id) {
      SilentWay(t.pipe, id, h);
    }
  }

  // One move.

  /** All transitions since the life began have been heard, or all but the last. */
  ghost predicate UpToDate(s: Joint, t: Joint, id: string, h: nat)
  {
    AllButLast(Turns(AlertsTo(t.pipe.accepted, id, h)), Turns(Since(s, t, id)))
  }

  predicate AllButLast(sent: seq<AlertType>, turns: seq<AlertType>)
  {
    sent == turns || (turns != [] && sent == turns[..|turns| - 1])
  }

  lemma {:induction false} LastTurnIs(log: seq<AlertType>)
    requires Turns(log) != []
    ensures LastTurn(log) < |log| && log[LastTurn(log)] == Turns(log)[|Turns(log)| - 1] != AlertFail
  {
    if log[|log| - 1] == AlertFail {
      LastTurnIs(log[..|log| - 1]);
    }
  }

  lemma {:induction false} TurnIn(log: seq<AlertType>, k: nat)
    requires k < |log| && log[k] != AlertFail
    ensures Turns(log) != []
  {
    TurnsPositive(log, k);
  }

  lemma SendAccepts(p: Q.State, i: nat)
    ensures var t := Q.Step(p, Q.Send(i));
            || t.accepted == p.accepted
            || (Q.Live(p, i) && p.senders[i].outbox != [] && t.accepted == p.accepted + [p.senders[i].outbox[0]])
  {
  }

  lemma MoveAccepts(cal: Calendar, s: Joint, m: Move)
    requires JointInv(cal, s) && !m.Crash?
    ensures var t := Next(cal, s, m);
            || t.pipe.accepted == s.pipe.accepted
            || (m.Pipe? && m.e.Send? && Q.Live(s.pipe, m.e.i) && s.pipe.senders[m.e.i].outbox != []
                && t.pipe.accepted == s.pipe.accepted + [s.pipe.senders[m.e.i].outbox[0]])
  {
    assert Inv(cal, s.proto);
    InvCoherent(cal, s.proto);
    AliveNext(cal, s, m);
    hide JointInv, Inv, Next, PipePart, Q.Step, Q.Run, Coherent;
    SendParts(cal, s, m);
    if m.Pipe? && m.e.Send? && PipePart(cal, s, m) == [m.e] {
      RunTwo(s.pipe, m.e, m.e);
      SendAccepts(s.pipe, m.e.i);
    } else {
      RunAccepts(s.pipe, PipePart(cal, s, m));
    }
  }

  /** What is sent of the check is its latest transition. */
  lemma SentIsLast(cal: Calendar, s: Joint, i: nat, id: string)
    requires JointInv(cal, s) && Latest(s, id) && Q.Live(s.pipe, i) && s.pipe.senders[i].outbox != []
    requires EventOf(s.pipe.senders[i].outbox[0], id)
    ensures var turns := Turns(Log(s.proto, id)); turns != [] && s.pipe.senders[i].outbox[0].alert == turns[|turns| - 1]
  {
    var x, log := s.pipe.senders[i], Log(s.proto, id);
    assert PipeLabelled(s.proto.calls, s.pipe) && AllAbout(s.pipe, id, LastTurn(log));
    assert x.outbox[0] in x.outbox;
    hide JointInv, PipeLabelled, AllAbout, Turns, LastTurn, Log;
    SenderAt(s.proto.calls, s.pipe, i);
    AboutAt(s.pipe, i, id, LastTurn(log));
    LogIs(s.proto, id);
    assert Labelled(s.proto.calls, x.outbox[0].check, x.outbox[0].alert, x.current);
    TurnIn(log, x.current);
    LastTurnIs(log);
  }

  lemma SinceSplits(s: Joint, t: Joint, id: string)
    requires |Log(s.proto, id)| <= |Log(t.proto, id)| && Log(s.proto, id) <= Log(t.proto, id)
    ensures Turns(Log(t.proto, id)) == Turns(Log(s.proto, id)) + Turns(Since(s, t, id))
  {
    var was, now := Log(s.proto, id), Log(t.proto, id);
    assert now == was + now[|was|..];
    hide Log, Turns;
    TurnsAppend(was, now[|was|..]);
  }

  lemma SinceMore(s: Joint, t: Joint, u: Joint, more: seq<AlertType>, id: string)
    requires Log(s.proto, id) <= Log(t.proto, id) && Log(u.proto, id) == Log(t.proto, id) + more
    ensures Log(s.proto, id) <= Log(u.proto, id) && Since(s, u, id) == Since(s, t, id) + more
  {
    hide Log;
  }

  lemma {:induction false} LogsGrow(cal: Calendar, s: Joint, moves: seq<Move>, id: string)
    requires JointInv(cal, s)
    ensures Log(s.proto, id) <= Log(From(cal, s, moves).proto, id)
  {
    if moves == [] {
      assert From(cal, s, moves) == s;
    } else {
      var most := moves[..|moves| - 1];
      LogsGrow(cal, s, most, id);
      FromKeeps(cal, s, most);
      assert From(cal, s, moves) == Next(cal, From(cal, s, most), moves[|moves| - 1]);
      assert JointInv(cal, From(cal, s, most)) ==> Inv(cal, From(cal, s, most).proto);
      hide From, Next, JointInv, Inv, Log;
      var more := MoveLogs(cal, From(cal, s, most), moves[|moves| - 1], id);
    }
  }

  /** What the queue accepted in the move, for the check on the channel. */
  lemma SentTurns(cal: Calendar, t: Joint, m: Move, id: string, h: nat) returns (y: seq<AlertType>)
    requires JointInv(cal, t) && Latest(t, id) && !m.Crash?
    ensures Turns(AlertsTo(Next(cal, t, m).pipe.accepted, id, h)) == Turns(AlertsTo(t.pipe.accepted, id, h)) + y && |y| <= 1
    ensures y != [] ==> m.Pipe? && var turns := Turns(Log(t.proto, id)); turns != [] && y[0] == turns[|turns| - 1]
  {
    var a, b := t.pipe.accepted, Next(cal, t, m).pipe.accepted;
    MoveAccepts(cal, t, m);
    hide JointInv, Latest, Next, Turns, AlertsTo, Log;
    y := [];
    assert Turns(AlertsTo(a, id, h)) + [] == Turns(AlertsTo(a, id, h));
    if b != a {
      var ev := t.pipe.senders[m.e.i].outbox[0];
      AlertsMore(a, ev, id, h);
      if To(ev, id, h) {
        TurnsAppend(AlertsTo(a, id, h), [ev.alert]);
        OneTurn(ev.alert);
        y := Turns([ev.alert]);
        if ev.alert != AlertFail {
          SentIsLast(cal, t, m.e.i, id);
        }
      } else {
        assert AlertsTo(a, id, h) + [] == AlertsTo(a, id, h);
      }
    }
  }

  /** The last of the transitions since the life began, if there is one, is the last of all. */
  lemma LastOfSince(s: Joint, t: Joint, id: string)
    requires Log(s.proto, id) <= Log(t.proto, id) && Turns(Since(s, t, id)) != []
    ensures var all, turns := Turns(Log(t.proto, id)), Turns(Since(s, t, id)); all != [] && turns[|turns| - 1] == all[|all| - 1]
  {
    hide Log, Turns, Since;
    SinceSplits(s, t, id);
  }

  lemma StepUpToDate(cal: Calendar, s: Joint, most: seq<Move>, m: Move, id: string, h: nat)
    requires Begins(cal, s) && NoCrash(most + [m]) && NoCrash(most)
    requires var t, u := From(cal, s, most), From(cal, s, most + [m]);
             && JointInv(cal, t) && Latest(t, id) && UpToDate(s, t, id, h) && u == Next(cal, t, m) && !m.Crash?
             && (Turns(Log(u.proto, id)) != Turns(Log(t.proto, id)) ==> AllSilent(t.pipe, id))
             && AlwaysHears(t.pipe.listings, id, h) && NoneDropped(t.pipe, id, h)
             && AlwaysHears(u.pipe.listings, id, h) && NoneDropped(u.pipe, id, h)
    ensures UpToDate(s, From(cal, s, most + [m]), id, h)
  {
    var t, u := From(cal, s, most), From(cal, s, most + [m]);
    assert Inv(cal, t.proto) && JointInv(cal, s);
    hide *;
    LogsGrow(cal, s, most, id);
    Sizes(cal, s, most, id, h);
    Sizes(cal, s, most + [m], id, h);
    var more := MoveLogs(cal, t, m, id);
    var y := SentTurns(cal, t, m, id, h);
    SinceMore(s, t, u, more, id);
    TurnsAppend(Since(s, t, id), more);
    if y != [] {
      PipeIsPlain(t, m);
      PlainLogs(cal, t, m, id);
      NothingMore(Log(t.proto, id), more);
    }
    MoreUpToDate(s, t, u, more, y, id, h);
  }

  lemma PipeIsPlain(t: Joint, m: Move)
    ensures m.Pipe? ==> Plain(t, m)
  {
  }

  lemma NothingMore(log: seq<AlertType>, more: seq<AlertType>)
    ensures log + more == log ==> more == []
    ensures Turns([]) == []
  {
    assert |log + more| == |log| + |more|;
  }

  lemma MoreUpToDate(s: Joint, t: Joint, u: Joint, more: seq<AlertType>, y: seq<AlertType>, id: string, h: nat)
    requires UpToDate(s, t, id, h) && Log(s.proto, id) <= Log(t.proto, id)
    requires var before, after := Turns(AlertsTo(t.pipe.accepted, id, h)), Turns(AlertsTo(u.pipe.accepted, id, h));
             var turns, later := Turns(Since(s, t, id)), Turns(Since(s, u, id));
             && after == before + y && |y| <= 1 && later == turns + Turns(more) && |Turns(more)| <= 1
             && |before| <= |turns| && |after| <= |later|
             && (AllSilent(t.pipe, id) ==> |before| == |turns|)
    requires Turns(Log(u.proto, id)) == Turns(Log(t.proto, id)) + Turns(more)
    requires Turns(Log(u.proto, id)) != Turns(Log(t.proto, id)) ==> AllSilent(t.pipe, id)
    requires y != [] ==> more == [] && Turns([]) == [] && var all := Turns(Log(t.proto, id)); all != [] && y[0] == all[|all| - 1]
    ensures UpToDate(s, u, id, h)
  {
    var before, after := Turns(AlertsTo(t.pipe.accepted, id, h)), Turns(AlertsTo(u.pipe.accepted, id, h));
    var turns, later := Turns(Since(s, t, id)), Turns(Since(s, u, id));
    hide Turns, AlertsTo, Since, Log, AllSilent;
    if y != [] {
      assert turns + [] == turns && turns != [];
      LastOfSince(s, t, id);
    } else {
      assert before + [] == before;
      if Turns(more) != [] {
        assert |Turns(Log(u.proto, id))| != |Turns(Log(t.proto, id))|;
      } else {
        assert turns + [] == turns;
      }
    }
  }

  // What grows.

  lemma StepGrowing(p: Q.State, e: Q.Event)
    ensures p.listings <= Q.Step(p, e).listings && p.dropped <= Q.Step(p, e).dropped
  {
    hide Execute, Dispatch, Q.NoneLive, ListChannels, Q.EventsOfListing;
  }

  lemma {:induction false} RunGrowing(p: Q.State, events: seq<Q.Event>)
    ensures p.listings <= Q.Run(p, events).listings && p.dropped <= Q.Run(p, events).dropped
  {
    hide Q.Step;
    if events != [] {
      RunGrowing(p, events[..|events| - 1]);
      StepGrowing(Q.Run(p, events[..|events| - 1]), events[|events| - 1]);
    }
  }

  lemma StillHears(p: Q.State, t: Q.State, id: string, h: nat)
    requires p.listings <= t.listings && p.dropped <= t.dropped && AlwaysHears(t.listings, id, h) && NoneDropped(t, id, h)
    ensures AlwaysHears(p.listings, id, h) && NoneDropped(p, id, h)
  {
    hide Hears, AlertsTo;
    assert t.dropped == p.dropped + t.dropped[|p.dropped|..];
    AlertsJoin(p.dropped, t.dropped[|p.dropped|..], id, h);
    assert forall k :: 0 <= k < |p.listings| ==> p.listings[k] == t.listings[k];
  }

  lemma BeginsUpToDate(cal: Calendar, s: Joint, id: string, h: nat)
    requires Begins(cal, s)
    ensures Latest(s, id) && UpToDate(s, s, id, h)
  {
    hide JointInv, Sound, Log, LastTurn;
    assert AlertsTo([], id, h) == [] && Turns([]) == [];
  }

  lemma FromNothing(cal: Calendar, s: Joint)
    ensures From(cal, s, []) == s
  {
  }

  lemma SettledLast(cal: Calendar, s: Joint, most: seq<Move>, m: Move, id: string)
    requires JointInv(cal, s) && Latest(s, id) && NoCrash(most + [m]) && Settled(cal, s, most + [m], id)
    ensures NoCrash(most) && !m.Crash? && Settled(cal, s, most, id)
    ensures var t, u := From(cal, s, most), From(cal, s, most + [m]);
            && u == Next(cal, t, m) && Latest(t, id)
            && (Turns(Log(u.proto, id)) != Turns(Log(t.proto, id)) ==> AllSilent(t.pipe, id))
  {
    var moves := most + [m];
    assert moves[..|moves| - 1] == most && moves[|moves| - 1] == m;
    AlivePrefix(moves);
    hide From, Next, JointInv, Latest, AllSilent, Turns, Log, NoCrash;
    FromOne(cal, s, most, m);
    LatestExactly(cal, s, most, id);
  }

  lemma HearsBefore(cal: Calendar, s: Joint, most: seq<Move>, m: Move, id: string, h: nat)
    requires !m.Crash? && From(cal, s, most + [m]) == Next(cal, From(cal, s, most), m)
    requires var p := From(cal, s, most + [m]).pipe; AlwaysHears(p.listings, id, h) && NoneDropped(p, id, h)
    ensures var p := From(cal, s, most).pipe; AlwaysHears(p.listings, id, h) && NoneDropped(p, id, h)
  {
    hide *;
    var t := From(cal, s, most);
    AliveNext(cal, t, m);
    RunGrowing(t.pipe, PipePart(cal, t, m));
    StillHears(t.pipe, From(cal, s, most + [m]).pipe, id, h);
  }

  lemma LastMove(moves: seq<Move>)
    requires moves != []
    ensures moves == moves[..|moves| - 1] + [moves[|moves| - 1]]
  {
  }

  /** The conditions of the theorem hold of the run before its last move. */
  lemma Favourable(cal: Calendar, s: Joint, most: seq<Move>, m: Move, id: string, h: nat)
    requires Begins(cal, s) && Latest(s, id) && NoCrash(most + [m]) && Settled(cal, s, most + [m], id)
    requires var p := From(cal, s, most + [m]).pipe; AlwaysHears(p.listings, id, h) && NoneDropped(p, id, h)
    ensures NoCrash(most) && Settled(cal, s, most, id)
    ensures var p := From(cal, s, most).pipe; AlwaysHears(p.listings, id, h) && NoneDropped(p, id, h)
  {
    assert JointInv(cal, s);
    hide *;
    SettledLast(cal, s, most, m, id);
    HearsBefore(cal, s, most, m, id, h);
  }

  lemma LastUpToDate(cal: Calendar, s: Joint, most: seq<Move>, m: Move, id: string, h: nat)
    requires Begins(cal, s) && Latest(s, id) && NoCrash(most + [m]) && Settled(cal, s, most + [m], id)
    requires var p := From(cal, s, most + [m]).pipe; AlwaysHears(p.listings, id, h) && NoneDropped(p, id, h)
    requires UpToDate(s, From(cal, s, most), id, h)
    ensures UpToDate(s, From(cal, s, most + [m]), id, h)
  {
    assert JointInv(cal, s);
    hide *;
    SettledLast(cal, s, most, m, id);
    FromKeeps(cal, s, most);
    HearsBefore(cal, s, most, m, id, h);
    StepUpToDate(cal, s, most, m, id, h);
  }

  /** In a life in which every transition of the check is made when no earlier one is still to be announced, a channel that
      every look-up for the check finds, and for which the queue refuses nothing, hears the check's transitions in their
      order, each once: all of them, or all but the last while that is on its way. Other checks and channels may do and
      suffer anything, and this check's other alerts too. */
  lemma {:induction false} ChannelFollows(cal: Calendar, s: Joint, moves: seq<Move>, id: string, h: nat)
    requires Begins(cal, s) && NoCrash(moves) && Settled(cal, s, moves, id)
    requires var p := From(cal, s, moves).pipe; AlwaysHears(p.listings, id, h) && NoneDropped(p, id, h)
    ensures UpToDate(s, From(cal, s, moves), id, h)
  {
    hide *;
    BeginsUpToDate(cal, s, id, h);
    if moves == [] {
      FromNothing(cal, s);
    } else {
      var most, m := moves[..|moves| - 1], moves[|moves| - 1];
      LastMove(moves);
      Favourable(cal, s, most, m, id, h);
      ChannelFollows(cal, s, most, id, h);
      LastUpToDate(cal, s, most, m, id, h);
    }
  }

  /** So the alerts on the channel go on from those before the life with a prefix of the transitions in it, with all of
      them as soon as no sender has one of the check to announce. */
  lemma HeardIsPrefix(cal: Calendar, s: Joint, moves: seq<Move>, id: string, h: nat)
    requires Begins(cal, s) && NoCrash(moves) && Settled(cal, s, moves, id)
    requires var p := From(cal, s, moves).pipe; AlwaysHears(p.listings, id, h) && NoneDropped(p, id, h)
    ensures var t := From(cal, s, moves);
            var turns, heard := Turns(Since(s, t, id)), Heard(t, id, h);
            && Heard(s, id, h) <= heard
            && heard[|Heard(s, id, h)|..] <= turns
            && |turns| - 1 <= |heard| - |Heard(s, id, h)|
            && (AllSilent(t.pipe, id) ==> heard == Heard(s, id, h) + turns)
  {
    var t := From(cal, s, moves);
    FromKeeps(cal, s, moves) by { assert JointInv(cal, s); }
    assert |t.pipe.accepted| == |t.pipe.numbers| && s.pipe == Q.Init(s.pipe.db);
    hide Begins, From, JointInv, Settled, AlwaysHears, NoneDropped, Turns, Since, Heard, AllSilent, AlertsTo, NoCrash;
    ChannelFollows(cal, s, moves, id, h);
    LifeRuns(cal, s, moves);
    HeardSince(s, t, id, h);
    Sizes(cal, s, moves, id, h);
    var sent := Turns(AlertsTo(t.pipe.accepted, id, h));
    assert (Heard(s, id, h) + sent)[|Heard(s, id, h)|..] == sent;
  }

  /** From the empty database on, and without stale commits, the channel's alerts alternate, beginning with Down. */
  lemma HeardAlternates(cal: Calendar, moves: seq<Move>, id: string, h: nat)
    requires NoCrash(moves) && Settled(cal, Announcements.Start, moves, id) && ConflictFree(cal, ProtoEvents(cal, moves))
    requires var p := Play(cal, moves).pipe; AlwaysHears(p.listings, id, h) && NoneDropped(p, id, h)
    ensures var s := Play(cal, moves);
            var turns := Turns(Log(s.proto, id));
            && Heard(s, id, h) <= turns && |turns| - 1 <= |Heard(s, id, h)| && Alternating(Heard(s, id, h))
            && (AllSilent(s.pipe, id) ==> Heard(s, id, h) == turns)
            && InStep(Log(s.proto, id), OnChannel(SentLog(s), id, h))
  {
    var s := Play(cal, moves);
    FromStart(cal, moves, id, h);
    LivesBegin(cal, []);
    ProtoRuns(cal, moves);
    TransitionsAlternate(cal, ProtoEvents(cal, moves), id);
    assert Alternating(Turns(Log(s.proto, id)));
    assert TurnsMatch(s.proto, id);
    hide Play, From, Begins, NoCrash, Settled, AlwaysHears, NoneDropped, Turns, Log, Heard, AllSilent, ConflictFree, ProtoEvents, TurnsMatch, InStep;
    HeardIsPrefix(cal, Announcements.Start, moves, id, h);
    AlternatingPrefix(Heard(s, id, h), Turns(Log(s.proto, id)));
    AnnouncedAlternateExactly(cal, moves, id, h);
    HeardIs(s, id, h);
  }

  lemma HeardIs(s: Joint, id: string, h: nat)
    ensures Heard(s, id, h) == AlertsIn(OnChannel(SentLog(s), id, h))
  {
  }

  lemma FromStart(cal: Calendar, moves: seq<Move>, id: string, h: nat)
    ensures From(cal, Announcements.Start, moves) == Play(cal, moves)
    ensures Heard(Announcements.Start, id, h) == [] && Since(Announcements.Start, Play(cal, moves), id) == Log(Play(cal, moves).proto, id)
  {
    assert Play(cal, []) == Announcements.Start && [] + moves == moves;
    PlayFrom(cal, [], moves);
    assert SentLog(Announcements.Start) == [] && Log(Announcements.Start.proto, id) == [];
    hide Play, From;
  }

  lemma AlternatingPrefix(a: seq<AlertType>, b: seq<AlertType>)
    requires a <= b && Alternating(b)
    ensures Alternating(a)
  {
    assert forall i :: 0 <= i < |a| ==> a[i] == b[i];
  }
}
