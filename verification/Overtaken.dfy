/** A run in which an alert is overtaken: a check goes down, a recovery ping announces Up, and only then the pass gets
    round to announcing Down, or never does. No private copy is stale in it: the transitions alternate, the alerts do not. */
module Overtaken {
  import opened Text
  import opened TimeCodec
  import opened Schedule
  import opened Model
  import opened CheckRows
  import opened Transitions
  import opened WriteThrough
  import opened Tables
  import opened Integrity
  import opened AlertQueue
  import opened Protocol
  import opened Coherence
  import opened Announcements
  import opened Overtaking
  import Q = Pipeline

  /** What the run depends on: the senders, what the queue accepted, room in it, and the one channel attached. */
  ghost predicate At(p: Q.State, senders: seq<Q.Sender>, sent: seq<Sent>, room: nat, id: string, ch: Channel)
  {
    && p.main == Q.Serving && !p.panicked && p.senders == senders && |p.queue| + room <= CAPACITY
    && |p.accepted| == |p.numbers| && Zip(p.accepted, p.numbers) == sent && ListChannels(p.db, id) == [ch]
  }

  lemma SameListing(a: Db, b: Db, id: string)
    requires a.channels == b.channels && a.links == b.links
    ensures ListChannels(a, id) == ListChannels(b, id)
  {
    assert Attached(a, id) == Attached(b, id);
    assert ChannelStamps(a, id) == ChannelStamps(b, id);
  }

  lemma AtSave(p: Q.State, senders: seq<Q.Sender>, sent: seq<Sent>, room: nat, id: string, ch: Channel, c: Check)
    requires At(p, senders, sent, room, id, ch)
    ensures At(Q.Step(p, Q.Other(SaveCheck(c), false)), senders, sent, room, id, ch)
  {
    SaveStep(p, c, false);
    SameListing(p.db, Q.Step(p, Q.Other(SaveCheck(c), false)).db, id);
    hide Q.Step, ListChannels, Update;
  }

  lemma AtBeginPass(p: Q.State, senders: seq<Q.Sender>, sent: seq<Sent>, room: nat, id: string, ch: Channel, down: seq<Q.Job>)
    requires At(p, senders, sent, room, id, ch) && Q.NoneLive(senders, Q.Pass)
    ensures At(Q.Step(p, Q.BeginPass(down)), senders + [Q.Sender(Q.Pass, down, 0, [], false)], sent, room, id, ch)
  {
    hide ListChannels, Q.NoneLive;
  }

  lemma AtArrive(p: Q.State, senders: seq<Q.Sender>, sent: seq<Sent>, room: nat, id: string, ch: Channel)
    requires At(p, senders, sent, room, id, ch)
    ensures At(Q.Step(p, Q.Arrive), senders + [Q.Sender(Q.Handler, [], 0, [], false)], sent, room, id, ch)
  {
    hide ListChannels, Q.NoneLive;
  }

  lemma AtAsk(p: Q.State, senders: seq<Q.Sender>, sent: seq<Sent>, room: nat, id: string, ch: Channel, i: nat, wanted: seq<Q.Job>)
    requires At(p, senders, sent, room, id, ch) && i < |senders| && senders[i] == Q.Sender(Q.Handler, [], 0, [], false)
    ensures At(Q.Step(p, Q.Ask(i, wanted)), senders[i := Q.Sender(Q.Handler, wanted, 0, [], false)], sent, room, id, ch)
  {
    hide ListChannels, Q.NoneLive;
  }

  /** One alert, listed. */
  function Listed(x: Q.Sender, ch: Channel, fault: bool): Q.Sender
    requires x.jobs != []
  {
    var j := x.jobs[0];
    x.(jobs := x.jobs[1..], current := j.n, outbox := if fault then [] else [AlertEvent(j.check, ch, j.alert)])
  }

  lemma AtEnlist(p: Q.State, senders: seq<Q.Sender>, sent: seq<Sent>, room: nat, id: string, ch: Channel, i: nat, fault: bool)
    requires At(p, senders, sent, room, id, ch) && i < |senders| && !senders[i].done && senders[i].outbox == []
    requires senders[i].jobs != [] && senders[i].jobs[0].check.id == id
    ensures At(Q.Step(p, Q.Enlist(i, fault)), senders[i := Listed(senders[i], ch, fault)], sent, room, id, ch)
  {
    var j := senders[i].jobs[0];
    assert Events(j.check, [ch], j.alert) == [AlertEvent(j.check, ch, j.alert)];
    hide ListChannels, Q.NoneLive;
  }

  lemma AtSend(p: Q.State, senders: seq<Q.Sender>, sent: seq<Sent>, room: nat, id: string, ch: Channel, i: nat)
    requires At(p, senders, sent, room, id, ch) && i < |senders| && !senders[i].done && senders[i].outbox != [] && room > 0
    ensures var x := senders[i];
            At(Q.Step(p, Q.Send(i)), senders[i := x.(outbox := x.outbox[1..])], sent + [Sent(x.outbox[0], x.current)], room - 1, id, ch)
  {
    hide ListChannels, Q.NoneLive;
    var x := senders[i];
    assert Zip(p.accepted + [x.outbox[0]], p.numbers + [x.current]) == Zip(p.accepted, p.numbers) + [Sent(x.outbox[0], x.current)];
  }

  // Moves one by one.

  lemma OtherMove(cal: Calendar, s: Joint, m: Move, a: Q.Event, b: Q.Event)
    requires !m.Crash? && ProtoPart(s, m).Some? && (PipePart(cal, s, m) == [a] + [b] || PipePart(cal, s, m) == [a])
    ensures Next(cal, s, m).proto == Step(cal, s.proto, ProtoPart(s, m).value) && Next(cal, s, m).past == s.past
    ensures Next(cal, s, m).pipe == if PipePart(cal, s, m) == [a] + [b] then Q.Step(Q.Step(s.pipe, a), b) else Q.Step(s.pipe, a)
  {
    RunTwo(s.pipe, a, b);
    hide Q.Step, Q.Run, Step, ProtoPart, PipePart;
  }

  /** The server runs, no pass is under way, nothing about the check is waiting, the queue has room, the check has one
      channel, and it alone is overdue. */
  ghost predicate Ready(cal: Calendar, s: Joint, id: string, ch: Channel, now: Instant)
  {
    && JointInv(cal, s) && At(s.pipe, s.pipe.senders, Zip(s.pipe.accepted, s.pipe.numbers), 2, id, ch)
    && Q.NoneLive(s.pipe.senders, Q.Pass) && AllSilent(s.pipe, id) && |s.pipe.senders| + 1 !in s.proto.pending
    && id in s.proto.st.cache && Expired(s.proto.st, now, {}) == {id}
  }

  /** Between the phases of a pass and with a recovery ping past its Set: both alerts are called for, none is sent. */
  ghost predicate Both(cal: Calendar, s: Joint, t: Joint, down: Check, up: Check, id: string, ch: Channel)
  {
    && JointInv(cal, t) && t.past == s.past && down.id == id && up.id == id && |s.pipe.accepted| == |s.pipe.numbers|
    && Log(t.proto, id) == Log(s.proto, id) + [AlertDown] + [AlertUp]
    && At(t.pipe, s.pipe.senders + [Q.Sender(Q.Pass, [Q.Job(down, AlertDown, |Log(s.proto, id)|)], 0, [], false)]
                  + [Q.Sender(Q.Handler, [Q.Job(up, AlertUp, |Log(s.proto, id)| + 1)], 0, [], false)],
          Zip(s.pipe.accepted, s.pipe.numbers), 2, id, ch)
  }

  lemma OneSaved(s: State, id: string, now: Instant)
    requires id in s.st.cache
    ensures Lists([id], {id})
    ensures Saves(s.st.cache, [id], now) == [Q.Other(SaveCheck(MarkDown(s.st.cache[id], now)), false)]
    ensures DownJobs(s, [id], now) == [Q.Job(MarkDown(s.st.cache[id], now), AlertDown, |Log(s, id)|)]
  {
    hide MarkDown, Log;
  }

  lemma SweepEnabled(s: Joint, id: string, now: Instant)
    requires s.pipe.main == Q.Serving && !s.pipe.panicked && Q.NoneLive(s.pipe.senders, Q.Pass)
    requires Lists([id], Expired(s.proto.st, now, {}))
    ensures ProtoPart(s, Sweep(now, {}, [id])) == Some(Evaluate(now, {}))
  {
    hide Lists, Expired, Q.NoneLive;
  }

  lemma OnlySweep(cal: Calendar, s: Joint, id: string, now: Instant)
    requires Inv(cal, s.proto) && s.pipe.main == Q.Serving && !s.pipe.panicked && Q.NoneLive(s.pipe.senders, Q.Pass)
    requires id in s.proto.st.cache && Expired(s.proto.st, now, {}) == {id}
    ensures var m, down := Sweep(now, {}, [id]), MarkDown(s.proto.st.cache[id], now);
            && ProtoPart(s, m) == Some(Evaluate(now, {})) && down.id == id
            && PipePart(cal, s, m) == [Q.Other(SaveCheck(down), false)] + [Q.BeginPass([Q.Job(down, AlertDown, |Log(s.proto, id)|)])]
  {
    assert s.proto.st.cache[id].id == id by {
      InvCoherent(cal, s.proto);
    }
    assert MarkDown(s.proto.st.cache[id], now).id == s.proto.st.cache[id].id;
    hide *;
    OneSaved(s.proto, id, now);
    SweepEnabled(s, id, now);
    SweepParts(cal, s, now, {}, [id]);
  }

  /** The locked phase of the pass. */
  lemma Swept(cal: Calendar, s: Joint, id: string, ch: Channel, now: Instant) returns (down: Check)
    requires Ready(cal, s, id, ch, now)
    ensures var t := Next(cal, s, Sweep(now, {}, [id]));
            && JointInv(cal, t) && t.past == s.past && down.id == id
            && t.proto == Step(cal, s.proto, Evaluate(now, {}))
            && At(t.pipe, s.pipe.senders + [Q.Sender(Q.Pass, [Q.Job(down, AlertDown, |Log(s.proto, id)|)], 0, [], false)],
                  Zip(s.pipe.accepted, s.pipe.numbers), 2, id, ch)
  {
    down := MarkDown(s.proto.st.cache[id], now);
    var job, sent := Q.Job(down, AlertDown, |Log(s.proto, id)|), Zip(s.pipe.accepted, s.pipe.numbers);
    var m, save, begin := Sweep(now, {}, [id]), Q.Other(SaveCheck(down), false), Q.BeginPass([job]);
    OnlySweep(cal, s, id, now);
    NextKeeps(cal, s, m);
    assert At(s.pipe, s.pipe.senders, sent, 2, id, ch) && Q.NoneLive(s.pipe.senders, Q.Pass);
    hide *;
    OtherMove(cal, s, m, save, begin);
    AtSave(s.pipe, s.pipe.senders, sent, 2, id, ch, down);
    AtBeginPass(Q.Step(s.pipe, save), s.pipe.senders, sent, 2, id, ch, [job]);
  }

  lemma TickedDown(cal: Calendar, s: State, id: string, now: Instant)
    requires id in s.st.cache && id in Expired(s.st, now, {})
    ensures var t := Step(cal, s, Evaluate(now, {}));
            && id in t.st.cache && t.st.cache[id] == MarkDown(s.st.cache[id], now) && t.st.cache[id].id == s.st.cache[id].id
            && t.pending.Keys == s.pending.Keys
  {
    hide Updated, Overdue, Log;
  }

  /** Down, with the call in the log. */
  lemma SweptDown(cal: Calendar, s: State, id: string, now: Instant)
    requires Inv(cal, s) && id in s.st.cache && Expired(s.st, now, {}) == {id}
    ensures var t := Step(cal, s, Evaluate(now, {}));
            && id in t.st.cache && t.st.cache[id] == MarkDown(s.st.cache[id], now) && t.st.cache[id].id == id
            && t.pending.Keys == s.pending.Keys && Log(t, id) == Log(s, id) + [AlertDown]
  {
    assert id in Expired(s.st, now, {});
    EvaluateLogs(cal, s, now, {}, id);
    TickedDown(cal, s, id, now);
    hide *;
  }

  /** The Get of a recovery ping. */
  lemma Got(cal: Calendar, s: State, id: string, at: Instant, i: nat)
    requires id in s.st.cache && s.st.cache[id].id == id && s.st.cache[id].status == Down && i !in s.pending
    ensures var req := Ping(id, Success, at);
            var t := Step(cal, s, Begin(i, req));
            && t == s.(pending := s.pending[i := Pending(req, s.st.cache[id], AfterComplete(cal, s.st.cache[id], at), false)])
            && t.pending[i].copy.id == id && AlertsFor(t.pending[i].base, req) == [AlertUp]
  {
    hide NextExpectedAt;
  }

  lemma GetMove(cal: Calendar, s: Joint, i: nat, req: Request)
    requires Idle(s.pipe, i) && !s.pipe.panicked
    ensures Next(cal, s, Get(i, req)) == s.(proto := Step(cal, s.proto, Begin(i, req)))
  {
    RunNothing(s.pipe);
    hide Idle, Step, Q.Run;
  }

  lemma OneJob(c: Check, n: nat)
    ensures JobsFrom(c, [AlertUp], n) == [Q.Job(c, AlertUp, n)]
  {
  }

  lemma SetEnabled(cal: Calendar, s: Joint, senders: seq<Q.Sender>, sent: seq<Sent>, room: nat, i: nat, id: string, ch: Channel)
    requires JointInv(cal, s) && i in s.proto.pending && At(s.pipe, senders, sent, room, id, ch)
    requires i < |senders| && senders[i] == Q.Sender(Q.Handler, [], 0, [], false)
    ensures ProtoPart(s, Set(i, false)) == Some(Commit(i, false)) && Inv(cal, s.proto)
    ensures Next(cal, s, Set(i, false)).proto == Step(cal, s.proto, Commit(i, false))
  {
    hide Inv, PipeLabelled, SentLabelled, ListChannels, Step, Q.Run, PipePart;
  }

  /** The Set of the recovery ping. */
  lemma SetUp(cal: Calendar, s: Joint, senders: seq<Q.Sender>, sent: seq<Sent>, room: nat, i: nat, id: string, ch: Channel)
    requires JointInv(cal, s) && i in s.proto.pending && At(s.pipe, senders, sent, room, id, ch)
    requires i < |senders| && senders[i] == Q.Sender(Q.Handler, [], 0, [], false)
    requires var p := s.proto.pending[i]; p.copy.id == id && AlertsFor(p.base, p.req) == [AlertUp]
    requires id in s.proto.st.rows
    ensures var t, up := Next(cal, s, Set(i, false)), s.proto.pending[i].copy;
            && JointInv(cal, t) && t.past == s.past && Log(t.proto, id) == Log(s.proto, id) + [AlertUp]
            && At(t.pipe, senders[i := Q.Sender(Q.Handler, [Q.Job(up, AlertUp, |Log(s.proto, id)|)], 0, [], false)], sent, room, id, ch)
  {
    var m, p := Set(i, false), s.proto.pending[i];
    var n := |Log(s.proto, id)|;
    var save, ask := Q.Other(SaveCheck(p.copy), false), Q.Ask(i, [Q.Job(p.copy, AlertUp, n)]);
    SetEnabled(cal, s, senders, sent, room, i, id, ch);
    hide *;
    OneJob(p.copy, n);
    NextKeeps(cal, s, m);
    SetParts(cal, s, i, false);
    CommitStores(cal, s.proto, i, false);
    OtherMove(cal, s, m, save, ask);
    AtSave(s.pipe, senders, sent, room, id, ch, p.copy);
    AtAsk(Q.Step(s.pipe, save), senders, sent, room, id, ch, i, [Q.Job(p.copy, AlertUp, n)]);
  }

  /** No commit of a stale copy. */
  ghost predicate Careful(cal: Calendar, s: Joint, moves: seq<Move>)
  {
    moves != [] ==>
      var most, m := moves[..|moves| - 1], moves[|moves| - 1];
      var t := From(cal, s, most);
      Careful(cal, s, most) && (m.Set? && m.i in t.proto.pending ==> !t.proto.pending[m.i].stale)
  }

  lemma CarefulMore(cal: Calendar, s: Joint, moves: seq<Move>, m: Move)
    requires Careful(cal, s, moves)
    requires m.Set? ==> m.i in From(cal, s, moves).proto.pending ==> !From(cal, s, moves).proto.pending[m.i].stale
    ensures Careful(cal, s, moves + [m])
  {
    assert (moves + [m])[..|moves|] == moves;
    hide From;
  }

  /** An event the queue holds for the check and its channel. */
  ghost predicate Announces(x: Sent, id: string, ch: Channel, alert: AlertType, n: nat)
  {
    x.event.check.id == id && x.event.channel == ch && x.event.alert == alert && x.n == n
  }

  /** The pass's locked phase, and a recovery ping as far as its Set. */
  function FirstMoves(s: Joint, id: string, now: Instant, at: Instant): seq<Move>
  {
    var b := |s.pipe.senders| + 1;
    [Sweep(now, {}, [id])] + [Pipe(Q.Arrive)] + [Get(b, Ping(id, Success, at))] + [Set(b, false)]
  }

  lemma ReadyFacts(cal: Calendar, s: Joint, id: string, ch: Channel, now: Instant)
    requires Ready(cal, s, id, ch, now)
    ensures Inv(cal, s.proto) && |s.pipe.accepted| == |s.pipe.numbers| && |s.pipe.senders| + 1 !in s.proto.pending
    ensures id in s.proto.st.cache && id in s.proto.st.rows && Expired(s.proto.st, now, {}) == {id}
  {
    assert id in Expired(s.proto.st, now, {});
    hide Inv, PipeLabelled, SentLabelled, ListChannels, Overdue;
  }

  lemma MarkedDown(c: Check, now: Instant)
    ensures MarkDown(c, now).status == Down
  {
  }

  lemma EvaluateKeepsIds(cal: Calendar, s: State, now: Instant)
    ensures Step(cal, s, Evaluate(now, {})).st.rows.Keys == s.st.rows.Keys
  {
    hide Updated, Expires, MarkDown, Log;
  }

  lemma IdleAt(p: Q.State, senders: seq<Q.Sender>, sent: seq<Sent>, room: nat, id: string, ch: Channel, i: nat)
    requires At(p, senders, sent, room, id, ch) && i < |senders| && senders[i] == Q.Sender(Q.Handler, [], 0, [], false)
    ensures Idle(p, i) && !p.panicked
  {
    hide ListChannels;
  }

  /** After the Get: the check is Down, and the ping holds a fresh copy that calls for Up. */
  ghost predicate Halfway(cal: Calendar, s: Joint, t: Joint, down: Check, b: nat, id: string, ch: Channel)
  {
    && JointInv(cal, t) && t.past == s.past && down.id == id && |s.pipe.accepted| == |s.pipe.numbers|
    && Log(t.proto, id) == Log(s.proto, id) + [AlertDown] && id in t.proto.st.rows
    && b == |s.pipe.senders| + 1 && b in t.proto.pending && !t.proto.pending[b].stale
    && t.proto.pending[b].copy.id == id && AlertsFor(t.proto.pending[b].base, t.proto.pending[b].req) == [AlertUp]
    && At(t.pipe, s.pipe.senders + [Q.Sender(Q.Pass, [Q.Job(down, AlertDown, |Log(s.proto, id)|)], 0, [], false)]
                  + [Q.Sender(Q.Handler, [], 0, [], false)],
          Zip(s.pipe.accepted, s.pipe.numbers), 2, id, ch)
  }

  lemma PingPending(cal: Calendar, s: State, t: State, id: string, at: Instant, b: nat)
    requires id in s.st.cache && s.st.cache[id].id == id && s.st.cache[id].status == Down && b !in s.pending
    requires t == Step(cal, s, Begin(b, Ping(id, Success, at)))
    ensures t.st == s.st && Log(t, id) == Log(s, id) && b in t.pending && !t.pending[b].stale
    ensures t.pending[b].copy.id == id && AlertsFor(t.pending[b].base, t.pending[b].req) == [AlertUp]
  {
    Got(cal, s, id, at, b);
    hide Step, AfterComplete, AlertsFor;
  }

  /** A handler arrives and reads its check. */
  lemma ArriveAndGet(cal: Calendar, s: Joint, senders: seq<Q.Sender>, sent: seq<Sent>, room: nat, id: string, ch: Channel, at: Instant)
    requires JointInv(cal, s) && At(s.pipe, senders, sent, room, id, ch) && |senders| !in s.proto.pending
    requires id in s.proto.st.cache && s.proto.st.cache[id].id == id && s.proto.st.cache[id].status == Down
    ensures var t := Next(cal, Next(cal, s, Pipe(Q.Arrive)), Get(|senders|, Ping(id, Success, at)));
            && JointInv(cal, t) && t.past == s.past && t.proto == Step(cal, s.proto, Begin(|senders|, Ping(id, Success, at)))
            && At(t.pipe, senders + [Q.Sender(Q.Handler, [], 0, [], false)], sent, room, id, ch)
  {
    assert IsPiped(Q.Arrive);
    hide *;
    var idle, b := Q.Sender(Q.Handler, [], 0, [], false), |senders|;
    AtArrive(s.pipe, senders, sent, room, id, ch);
    PipeMove(cal, s, Q.Arrive);
    NextKeeps(cal, s, Pipe(Q.Arrive));
    var t := Next(cal, s, Pipe(Q.Arrive));
    IdleAt(t.pipe, senders + [idle], sent, room, id, ch, b);
    GetMove(cal, t, b, Ping(id, Success, at));
    NextKeeps(cal, t, Get(b, Ping(id, Success, at)));
  }

  lemma HalfwayThere(cal: Calendar, s: Joint, id: string, ch: Channel, now: Instant, at: Instant) returns (down: Check)
    requires Ready(cal, s, id, ch, now)
    ensures var b := |s.pipe.senders| + 1;
            Halfway(cal, s, Next(cal, Next(cal, Next(cal, s, Sweep(now, {}, [id])), Pipe(Q.Arrive)), Get(b, Ping(id, Success, at))), down, b, id, ch)
  {
    var b, sent := |s.pipe.senders| + 1, Zip(s.pipe.accepted, s.pipe.numbers);
    ReadyFacts(cal, s, id, ch, now);
    hide *;
    down := Swept(cal, s, id, ch, now);
    SweptDown(cal, s.proto, id, now);
    EvaluateKeepsIds(cal, s.proto, now);
    MarkedDown(s.proto.st.cache[id], now);
    var t := Next(cal, s, Sweep(now, {}, [id]));
    var one := s.pipe.senders + [Q.Sender(Q.Pass, [Q.Job(down, AlertDown, |Log(s.proto, id)|)], 0, [], false)];
    assert |one| == b;
    ArriveAndGet(cal, t, one, sent, 2, id, ch, at);
    PingPending(cal, t.proto, Step(cal, t.proto, Begin(b, Ping(id, Success, at))), id, at, b);
    HalfwayIs(cal, s, t, Next(cal, Next(cal, t, Pipe(Q.Arrive)), Get(b, Ping(id, Success, at))), down, b, id, ch);
  }

  lemma HalfwayIs(cal: Calendar, s: Joint, t: Joint, u: Joint, down: Check, b: nat, id: string, ch: Channel)
    requires JointInv(cal, u) && u.past == s.past && down.id == id && |s.pipe.accepted| == |s.pipe.numbers|
    requires Log(t.proto, id) == Log(s.proto, id) + [AlertDown] && id in t.proto.st.rows
    requires u.proto.st == t.proto.st && Log(u.proto, id) == Log(t.proto, id)
    requires b == |s.pipe.senders| + 1 && b in u.proto.pending && !u.proto.pending[b].stale
    requires u.proto.pending[b].copy.id == id && AlertsFor(u.proto.pending[b].base, u.proto.pending[b].req) == [AlertUp]
    requires At(u.pipe, s.pipe.senders + [Q.Sender(Q.Pass, [Q.Job(down, AlertDown, |Log(s.proto, id)|)], 0, [], false)]
                        + [Q.Sender(Q.Handler, [], 0, [], false)],
                Zip(s.pipe.accepted, s.pipe.numbers), 2, id, ch)
    ensures Halfway(cal, s, u, down, b, id, ch)
  {
    hide JointInv, Log, At, AlertsFor;
  }

  lemma {:induction false} CarefulSplit(cal: Calendar, s: Joint, a: seq<Move>, b: seq<Move>)
    requires Careful(cal, s, a) && Careful(cal, From(cal, s, a), b)
    ensures Careful(cal, s, a + b) && From(cal, s, a + b) == From(cal, From(cal, s, a), b)
  {
    hide Next;
    if b == [] {
      assert a + b == a;
    } else {
      CarefulSplit(cal, s, a, b[..|b| - 1]);
      assert (a + b)[..|a + b| - 1] == a + b[..|b| - 1];
    }
  }

  lemma FourMoves(cal: Calendar, s: Joint, m1: Move, m2: Move, m3: Move, m4: Move)
    requires !m1.Set? && !m2.Set? && !m3.Set?
    requires var t := Next(cal, Next(cal, Next(cal, s, m1), m2), m3);
             m4.Set? ==> m4.i in t.proto.pending ==> !t.proto.pending[m4.i].stale
    ensures From(cal, s, [m1] + [m2] + [m3] + [m4]) == Next(cal, Next(cal, Next(cal, Next(cal, s, m1), m2), m3), m4)
    ensures Careful(cal, s, [m1] + [m2] + [m3] + [m4])
  {
    assert From(cal, s, []) == s && Careful(cal, s, []);
    hide *;
    FromOne(cal, s, [], m1);
    CarefulMore(cal, s, [], m1);
    assert [] + [m1] == [m1];
    FromOne(cal, s, [m1], m2);
    CarefulMore(cal, s, [m1], m2);
    FromOne(cal, s, [m1] + [m2], m3);
    CarefulMore(cal, s, [m1] + [m2], m3);
    FromOne(cal, s, [m1] + [m2] + [m3], m4);
    CarefulMore(cal, s, [m1] + [m2] + [m3], m4);
  }

  lemma HalfwayFacts(cal: Calendar, s: Joint, t: Joint, down: Check, b: nat, id: string, ch: Channel)
    requires Halfway(cal, s, t, down, b, id, ch)
    ensures JointInv(cal, t) && t.past == s.past && down.id == id && |s.pipe.accepted| == |s.pipe.numbers|
    ensures Log(t.proto, id) == Log(s.proto, id) + [AlertDown] && id in t.proto.st.rows
    ensures b == |s.pipe.senders| + 1 && b in t.proto.pending && !t.proto.pending[b].stale
    ensures t.proto.pending[b].copy.id == id && AlertsFor(t.proto.pending[b].base, t.proto.pending[b].req) == [AlertUp]
    ensures At(t.pipe, s.pipe.senders + [Q.Sender(Q.Pass, [Q.Job(down, AlertDown, |Log(s.proto, id)|)], 0, [], false)]
                       + [Q.Sender(Q.Handler, [], 0, [], false)],
               Zip(s.pipe.accepted, s.pipe.numbers), 2, id, ch)
  {
    hide JointInv, Log, At, AlertsFor;
  }

  /** Both transitions are in the log before either alert is listed. */
  lemma BothCalled(cal: Calendar, s: Joint, id: string, ch: Channel, now: Instant, at: Instant) returns (down: Check, up: Check)
    requires Ready(cal, s, id, ch, now)
    ensures Both(cal, s, From(cal, s, FirstMoves(s, id, now, at)), down, up, id, ch)
    ensures Careful(cal, s, FirstMoves(s, id, now, at))
  {
    var b := |s.pipe.senders| + 1;
    var m1, m2, m3, m4 := Sweep(now, {}, [id]), Pipe(Q.Arrive), Get(b, Ping(id, Success, at)), Set(b, false);
    assert FirstMoves(s, id, now, at) == [m1] + [m2] + [m3] + [m4];
    hide *;
    down := HalfwayThere(cal, s, id, ch, now, at);
    var t := Next(cal, Next(cal, Next(cal, s, m1), m2), m3);
    HalfwayFacts(cal, s, t, down, b, id, ch);
    up := t.proto.pending[b].copy;
    var senders := s.pipe.senders + [Q.Sender(Q.Pass, [Q.Job(down, AlertDown, |Log(s.proto, id)|)], 0, [], false)]
                   + [Q.Sender(Q.Handler, [], 0, [], false)];
    SetUp(cal, t, senders, Zip(s.pipe.accepted, s.pipe.numbers), 2, b, id, ch);
    FourMoves(cal, s, m1, m2, m3, m4);
    BothIs(cal, s, Next(cal, t, m4), t, down, up, id, ch);
  }

  lemma BothIs(cal: Calendar, s: Joint, u: Joint, t: Joint, down: Check, up: Check, id: string, ch: Channel)
    requires JointInv(cal, u) && u.past == s.past && down.id == id && up.id == id && |s.pipe.accepted| == |s.pipe.numbers|
    requires Log(t.proto, id) == Log(s.proto, id) + [AlertDown] && Log(u.proto, id) == Log(t.proto, id) + [AlertUp]
    requires var pass := Q.Sender(Q.Pass, [Q.Job(down, AlertDown, |Log(s.proto, id)|)], 0, [], false);
             var senders := s.pipe.senders + [pass] + [Q.Sender(Q.Handler, [], 0, [], false)];
             At(u.pipe, senders[|s.pipe.senders| + 1 := Q.Sender(Q.Handler, [Q.Job(up, AlertUp, |Log(t.proto, id)|)], 0, [], false)],
                Zip(s.pipe.accepted, s.pipe.numbers), 2, id, ch)
    ensures Both(cal, s, u, down, up, id, ch)
  {
    hide JointInv, Log, At;
    var pass := Q.Sender(Q.Pass, [Q.Job(down, AlertDown, |Log(s.proto, id)|)], 0, [], false);
    var idle, asked := Q.Sender(Q.Handler, [], 0, [], false), Q.Sender(Q.Handler, [Q.Job(up, AlertUp, |Log(t.proto, id)|)], 0, [], false);
    assert (s.pipe.senders + [pass] + [idle])[|s.pipe.senders| + 1 := asked] == s.pipe.senders + [pass] + [asked];
  }

  /** A sender with one alert to list, its listing and its send, as pipeline steps. */
  lemma ListAndSend(p: Q.State, senders: seq<Q.Sender>, sent: seq<Sent>, room: nat, id: string, ch: Channel, i: nat)
    requires At(p, senders, sent, room, id, ch) && i < |senders| && room > 0
    requires |senders[i].jobs| == 1 && senders[i].jobs[0].check.id == id && senders[i].outbox == [] && !senders[i].done
    ensures var j := senders[i].jobs[0];
            At(Q.Step(Q.Step(p, Q.Enlist(i, false)), Q.Send(i)), senders[i := senders[i].(jobs := [], current := j.n, outbox := [])],
               sent + [Sent(AlertEvent(j.check, ch, j.alert), j.n)], room - 1, id, ch)
  {
    var x := senders[i];
    var y, t := Listed(x, ch, false), Q.Step(p, Q.Enlist(i, false));
    assert y == x.(jobs := [], current := x.jobs[0].n, outbox := [AlertEvent(x.jobs[0].check, ch, x.jobs[0].alert)]);
    assert y.outbox[1..] == [];
    AtEnlist(p, senders, sent, room, id, ch, i, false);
    AtSend(t, senders[i := y], sent, room, id, ch, i);
    hide At, Q.Step;
    assert senders[i := y][i := y.(outbox := [])] == senders[i := y.(outbox := [])];
  }

  lemma LastSends(p: Q.State, before: seq<Q.Sender>, j: Q.Job, sent: seq<Sent>, room: nat, id: string, ch: Channel)
    requires At(p, before + [Q.Sender(Q.Handler, [j], 0, [], false)], sent, room, id, ch) && room > 0 && j.check.id == id
    ensures At(Q.Step(Q.Step(p, Q.Enlist(|before|, false)), Q.Send(|before|)), before + [Q.Sender(Q.Handler, [], j.n, [], false)],
               sent + [Sent(AlertEvent(j.check, ch, j.alert), j.n)], room - 1, id, ch)
  {
    hide *;
    var asked, sentAll := Q.Sender(Q.Handler, [j], 0, [], false), Q.Sender(Q.Handler, [], j.n, [], false);
    ListAndSend(p, before + [asked], sent, room, id, ch, |before|);
    assert (before + [asked])[|before| := sentAll] == before + [sentAll];
  }

  /** The same as two moves. */
  lemma ListAndSendMoves(cal: Calendar, s: Joint, i: nat)
    ensures From(cal, s, [Pipe(Q.Enlist(i, false))] + [Pipe(Q.Send(i))]) ==
            s.(pipe := Q.Step(Q.Step(s.pipe, Q.Enlist(i, false)), Q.Send(i)))
    ensures Careful(cal, s, [Pipe(Q.Enlist(i, false))] + [Pipe(Q.Send(i))])
  {
    var m1, m2 := Pipe(Q.Enlist(i, false)), Pipe(Q.Send(i));
    assert From(cal, s, []) == s && Careful(cal, s, []) && IsPiped(m1.e) && IsPiped(m2.e);
    hide *;
    FromOne(cal, s, [], m1);
    CarefulMore(cal, s, [], m1);
    assert [] + [m1] == [m1];
    PipeMove(cal, s, m1.e);
    FromOne(cal, s, [m1], m2);
    CarefulMore(cal, s, [m1], m2);
    PipeMove(cal, Next(cal, s, m1), m2.e);
  }

  /** What became of the Down alert once the Up alert was in the queue. */
  datatype Fate = SentLate | NotListed | LostInCrash

  function LastMoves(a: nat, fate: Fate): seq<Move>
  {
    match fate
    case SentLate => [Pipe(Q.Enlist(a, false))] + [Pipe(Q.Send(a))]
    case NotListed => [Pipe(Q.Enlist(a, true))]
    case LostInCrash => [Crash]
  }

  /** The whole run: the two writes, the handler's send, and then the pass's. */
  function Overtake(s: Joint, id: string, now: Instant, at: Instant, fate: Fate): seq<Move>
  {
    var a := |s.pipe.senders|;
    FirstMoves(s, id, now, at) + ([Pipe(Q.Enlist(a + 1, false))] + [Pipe(Q.Send(a + 1))]) + LastMoves(a, fate)
  }

  lemma BothFacts(cal: Calendar, s: Joint, t: Joint, down: Check, up: Check, id: string, ch: Channel)
    requires Both(cal, s, t, down, up, id, ch)
    ensures JointInv(cal, t) && t.past == s.past && down.id == id && up.id == id && |s.pipe.accepted| == |s.pipe.numbers|
    ensures Log(t.proto, id) == Log(s.proto, id) + [AlertDown] + [AlertUp]
    ensures At(t.pipe, s.pipe.senders + [Q.Sender(Q.Pass, [Q.Job(down, AlertDown, |Log(s.proto, id)|)], 0, [], false)]
                       + [Q.Sender(Q.Handler, [Q.Job(up, AlertUp, |Log(s.proto, id)| + 1)], 0, [], false)],
               Zip(s.pipe.accepted, s.pipe.numbers), 2, id, ch)
  {
    hide JointInv, Log, At;
  }

  lemma AtLog(s: Joint, senders: seq<Q.Sender>, sent: seq<Sent>, room: nat, id: string, ch: Channel)
    requires At(s.pipe, senders, sent, room, id, ch)
    ensures SentLog(s) == s.past + sent && s.pipe.senders == senders
  {
    hide ListChannels;
  }

  /** Up is in the queue, Down is not. */
  ghost predicate UpFirst(cal: Calendar, s: Joint, t: Joint, up: Sent, down: Check, id: string, ch: Channel)
  {
    && t.past == s.past && |s.pipe.accepted| == |s.pipe.numbers| && down.id == id
    && Announces(up, id, ch, AlertUp, |Log(s.proto, id)| + 1)
    && Log(t.proto, id) == Log(s.proto, id) + [AlertDown] + [AlertUp]
    && At(t.pipe, s.pipe.senders + [Q.Sender(Q.Pass, [Q.Job(down, AlertDown, |Log(s.proto, id)|)], 0, [], false)]
                  + [Q.Sender(Q.Handler, [], |Log(s.proto, id)| + 1, [], false)],
          Zip(s.pipe.accepted, s.pipe.numbers) + [up], 1, id, ch)
  }

  lemma UpSent(cal: Calendar, s: Joint, id: string, ch: Channel, now: Instant, at: Instant) returns (up: Sent, down: Check)
    requires Ready(cal, s, id, ch, now)
    ensures var a := |s.pipe.senders|;
            var moves := FirstMoves(s, id, now, at) + ([Pipe(Q.Enlist(a + 1, false))] + [Pipe(Q.Send(a + 1))]);
            UpFirst(cal, s, From(cal, s, moves), up, down, id, ch) && Careful(cal, s, moves)
  {
    var a, n, sent := |s.pipe.senders|, |Log(s.proto, id)|, Zip(s.pipe.accepted, s.pipe.numbers);
    hide *;
    var first, rest := FirstMoves(s, id, now, at), [Pipe(Q.Enlist(a + 1, false))] + [Pipe(Q.Send(a + 1))];
    var record: Check;
    down, record := BothCalled(cal, s, id, ch, now, at);
    var t := From(cal, s, first);
    BothFacts(cal, s, t, down, record, id, ch);
    up := Sent(AlertEvent(record, ch, AlertUp), n + 1);
    var pass := Q.Sender(Q.Pass, [Q.Job(down, AlertDown, n)], 0, [], false);
    assert |s.pipe.senders + [pass]| == a + 1;
    LastSends(t.pipe, s.pipe.senders + [pass], Q.Job(record, AlertUp, n + 1), sent, 2, id, ch);
    ListAndSendMoves(cal, t, a + 1);
    CarefulSplit(cal, s, first, rest);
    UpFirstIs(cal, s, t, From(cal, t, rest), up, down, id, ch);
  }

  lemma UpFirstIs(cal: Calendar, s: Joint, t: Joint, u: Joint, up: Sent, down: Check, id: string, ch: Channel)
    requires u.past == t.past == s.past && u.proto == t.proto && |s.pipe.accepted| == |s.pipe.numbers| && down.id == id
    requires up.event.check.id == id && up == Sent(AlertEvent(up.event.check, ch, AlertUp), |Log(s.proto, id)| + 1)
    requires Log(t.proto, id) == Log(s.proto, id) + [AlertDown] + [AlertUp]
    requires At(u.pipe, s.pipe.senders + [Q.Sender(Q.Pass, [Q.Job(down, AlertDown, |Log(s.proto, id)|)], 0, [], false)]
                        + [Q.Sender(Q.Handler, [], |Log(s.proto, id)| + 1, [], false)],
                Zip(s.pipe.accepted, s.pipe.numbers) + [up], 1, id, ch)
    ensures UpFirst(cal, s, u, up, down, id, ch)
  {
    hide At, Log;
  }

  lemma UpFirstFacts(cal: Calendar, s: Joint, t: Joint, up: Sent, down: Check, id: string, ch: Channel)
    requires UpFirst(cal, s, t, up, down, id, ch)
    ensures t.past == s.past && |s.pipe.accepted| == |s.pipe.numbers| && down.id == id
    ensures Announces(up, id, ch, AlertUp, |Log(s.proto, id)| + 1)
    ensures Log(t.proto, id) == Log(s.proto, id) + [AlertDown] + [AlertUp]
    ensures At(t.pipe, s.pipe.senders + [Q.Sender(Q.Pass, [Q.Job(down, AlertDown, |Log(s.proto, id)|)], 0, [], false)]
                       + [Q.Sender(Q.Handler, [], |Log(s.proto, id)| + 1, [], false)],
               Zip(s.pipe.accepted, s.pipe.numbers) + [up], 1, id, ch)
  {
    hide At, Log, Announces;
  }

  /** The pass's own alert, after all. */
  lemma DownSent(cal: Calendar, s: Joint, t: Joint, up: Sent, down: Check, id: string, ch: Channel)
    requires UpFirst(cal, s, t, up, down, id, ch)
    ensures var u, n := From(cal, t, LastMoves(|s.pipe.senders|, SentLate)), |Log(s.proto, id)|;
            && u.proto == t.proto && u.past == s.past && |s.pipe.accepted| == |s.pipe.numbers|
            && SentLog(u) == s.past + (Zip(s.pipe.accepted, s.pipe.numbers) + [up] + [Sent(AlertEvent(down, ch, AlertDown), n)])
    ensures Careful(cal, t, LastMoves(|s.pipe.senders|, SentLate))
  {
    var a, n, sent := |s.pipe.senders|, |Log(s.proto, id)|, Zip(s.pipe.accepted, s.pipe.numbers) + [up];
    var job := Q.Job(down, AlertDown, n);
    var senders := s.pipe.senders + [Q.Sender(Q.Pass, [job], 0, [], false)] + [Q.Sender(Q.Handler, [], n + 1, [], false)];
    assert LastMoves(a, SentLate) == [Pipe(Q.Enlist(a, false))] + [Pipe(Q.Send(a))];
    hide *;
    UpFirstFacts(cal, s, t, up, down, id, ch);
    ListAndSend(t.pipe, senders, sent, 1, id, ch, a);
    ListAndSendMoves(cal, t, a);
    var u := From(cal, t, LastMoves(a, SentLate));
    AtLog(u, senders[a := Q.Sender(Q.Pass, [], n, [], false)], sent + [Sent(AlertEvent(down, ch, AlertDown), n)], 0, id, ch);
  }

  lemma PassUnlisted(p: Q.State, before: seq<Q.Sender>, j: Q.Job, idle: Q.Sender, sent: seq<Sent>, id: string, ch: Channel)
    requires At(p, before + [Q.Sender(Q.Pass, [j], 0, [], false)] + [idle], sent, 1, id, ch) && j.check.id == id
    ensures At(Q.Step(p, Q.Enlist(|before|, true)), before + [Q.Sender(Q.Pass, [], j.n, [], false)] + [idle], sent, 1, id, ch)
  {
    var pass, gone := Q.Sender(Q.Pass, [j], 0, [], false), Q.Sender(Q.Pass, [], j.n, [], false);
    assert Listed(pass, ch, true) == gone;
    hide *;
    AtEnlist(p, before + [pass] + [idle], sent, 1, id, ch, |before|, true);
    assert (before + [pass] + [idle])[|before| := gone] == before + [gone] + [idle];
  }

  /** A look-up that fails: the alert is gone. */
  lemma DownUnlisted(cal: Calendar, s: Joint, t: Joint, up: Sent, down: Check, id: string, ch: Channel)
    requires UpFirst(cal, s, t, up, down, id, ch) && AllSilent(s.pipe, id)
    ensures var u := From(cal, t, LastMoves(|s.pipe.senders|, NotListed));
            && u.proto == t.proto && |s.pipe.accepted| == |s.pipe.numbers|
            && SentLog(u) == s.past + (Zip(s.pipe.accepted, s.pipe.numbers) + [up]) && AllSilent(u.pipe, id)
    ensures Careful(cal, t, LastMoves(|s.pipe.senders|, NotListed))
  {
    var a, n, sent := |s.pipe.senders|, |Log(s.proto, id)|, Zip(s.pipe.accepted, s.pipe.numbers) + [up];
    var idle := Q.Sender(Q.Handler, [], n + 1, [], false);
    var m := Pipe(Q.Enlist(a, true));
    assert LastMoves(a, NotListed) == [m] && IsPiped(m.e) && From(cal, t, []) == t && Careful(cal, t, []);
    var gone := Q.Sender(Q.Pass, [], n, [], false);
    assert AllSilentWith(s.pipe.senders, id);
    hide *;
    UpFirstFacts(cal, s, t, up, down, id, ch);
    FromOne(cal, t, [], m);
    CarefulMore(cal, t, [], m);
    assert [] + [m] == [m];
    PipeMove(cal, t, m.e);
    PassUnlisted(t.pipe, s.pipe.senders, Q.Job(down, AlertDown, n), idle, sent, id, ch);
    var u := From(cal, t, LastMoves(a, NotListed));
    AtLog(u, s.pipe.senders + [gone] + [idle], sent, 1, id, ch);
    BothSilent(s.pipe.senders, gone, idle, id);
    SilentIs(u.pipe, id);
  }

  ghost predicate AllSilentWith(senders: seq<Q.Sender>, id: string)
  {
    forall k :: 0 <= k < |senders| ==> Silent(senders[k], id)
  }

  lemma SilentIs(p: Q.State, id: string)
    ensures AllSilent(p, id) <==> AllSilentWith(p.senders, id)
  {
    hide Silent;
  }

  lemma BothSilent(senders: seq<Q.Sender>, x: Q.Sender, y: Q.Sender, id: string)
    requires AllSilentWith(senders, id) && x.jobs == [] && x.outbox == [] && y.jobs == [] && y.outbox == []
    ensures AllSilentWith(senders + [x] + [y], id)
  {
    assert Silent(x, id) && Silent(y, id);
    hide Silent;
  }

  /** A crash: whatever was on its way is gone. */
  lemma DownLost(cal: Calendar, s: Joint, t: Joint, up: Sent, down: Check, id: string, ch: Channel)
    requires UpFirst(cal, s, t, up, down, id, ch)
    ensures var u := From(cal, t, LastMoves(|s.pipe.senders|, LostInCrash));
            && SentLog(u) == s.past + (Zip(s.pipe.accepted, s.pipe.numbers) + [up]) && |s.pipe.accepted| == |s.pipe.numbers|
            && Log(u.proto, id) == Log(t.proto, id)
            && u.proto.st.rows == t.proto.st.rows && (Hydrate(t.proto.st.rows).Some? ==> AllSilent(u.pipe, id))
    ensures Careful(cal, t, LastMoves(|s.pipe.senders|, LostInCrash))
  {
    var sent := Zip(s.pipe.accepted, s.pipe.numbers) + [up];
    var senders := s.pipe.senders + [Q.Sender(Q.Pass, [Q.Job(down, AlertDown, |Log(s.proto, id)|)], 0, [], false)]
                   + [Q.Sender(Q.Handler, [], |Log(s.proto, id)| + 1, [], false)];
    assert LastMoves(|s.pipe.senders|, LostInCrash) == [Crash] && From(cal, t, []) == t && Careful(cal, t, []);
    hide *;
    UpFirstFacts(cal, s, t, up, down, id, ch);
    FromOne(cal, t, [], Crash);
    CarefulMore(cal, t, [], Crash);
    assert [] + [Crash] == [Crash];
    AtLog(t, senders, sent, 1, id, ch);
    CrashLogs(cal, t, id);
  }

  lemma CrashLogs(cal: Calendar, t: Joint, id: string)
    ensures var u := Next(cal, t, Crash);
            && SentLog(u) == SentLog(t) && Log(u.proto, id) == Log(t.proto, id) && u.proto.st.rows == t.proto.st.rows
            && (Hydrate(t.proto.st.rows).Some? ==> AllSilent(u.pipe, id))
  {
    var u := Next(cal, t, Crash);
    assert Hydrate(t.proto.st.rows).None? ==> u == t;
    assert Hydrate(t.proto.st.rows).Some? ==> u == Joint(Step(cal, t.proto, Restart), Q.Init(t.pipe.db), SentLog(t));
    hide *;
    if Hydrate(t.proto.st.rows).Some? {
      RestartStores(cal, t.proto);
      SameLog(u.proto, t.proto, id);
      InitSilent(t.pipe.db, id);
      SentLogAfter(u, t.pipe.db, SentLog(t));
    }
  }

  lemma SameLog(a: State, b: State, id: string)
    requires a.calls == b.calls
    ensures Log(a, id) == Log(b, id)
  {
  }

  lemma InitSilent(db: Db, id: string)
    ensures AllSilent(Q.Init(db), id)
  {
  }

  lemma SentLogAfter(u: Joint, db: Db, past: seq<Sent>)
    requires u.pipe == Q.Init(db) && u.past == past
    ensures SentLog(u) == past
  {
    assert Zip([], []) == [];
    assert past + [] == past;
  }

  lemma SentLogOf(s: Joint, up: Sent, down: Sent)
    requires |s.pipe.accepted| == |s.pipe.numbers|
    ensures s.past + (Zip(s.pipe.accepted, s.pipe.numbers) + [up]) == SentLog(s) + [up]
    ensures s.past + (Zip(s.pipe.accepted, s.pipe.numbers) + [up] + [down]) == SentLog(s) + [up] + [down]
  {
  }

  /** From every state in which a check alone is overdue and nothing about it is on its way, a pass and a recovery ping
      can run so that the check goes Down and Up, while its channel is told Up first; Down follows late, is given up
      because its look-up fails, or is lost in a crash. No stale copy is committed. */
  lemma OvertakesFrom(cal: Calendar, s: Joint, id: string, ch: Channel, now: Instant, at: Instant, fate: Fate) returns (up: Sent, down: Sent)
    requires Ready(cal, s, id, ch, now)
    ensures Careful(cal, s, Overtake(s, id, now, at, fate))
    ensures var t, n := From(cal, s, Overtake(s, id, now, at, fate)), |Log(s.proto, id)|;
            && Log(t.proto, id) == Log(s.proto, id) + [AlertDown] + [AlertUp]
            && Announces(up, id, ch, AlertUp, n + 1) && Announces(down, id, ch, AlertDown, n)
            && SentLog(t) == (if fate == SentLate then SentLog(s) + [up] + [down] else SentLog(s) + [up])
            && (fate == NotListed || (fate == LostInCrash && Hydrate(t.proto.st.rows).Some?) ==> AllSilent(t.pipe, id))
  {
    var a := |s.pipe.senders|;
    var first, last := FirstMoves(s, id, now, at) + ([Pipe(Q.Enlist(a + 1, false))] + [Pipe(Q.Send(a + 1))]), LastMoves(a, fate);
    assert Overtake(s, id, now, at, fate) == first + last && AllSilent(s.pipe, id);
    hide *;
    var record: Check;
    up, record := UpSent(cal, s, id, ch, now, at);
    var t := From(cal, s, first);
    UpFirstFacts(cal, s, t, up, record, id, ch);
    down := Sent(AlertEvent(record, ch, AlertDown), |Log(s.proto, id)|);
    assert Announces(down, id, ch, AlertDown, |Log(s.proto, id)|) by {
      AnnouncesIs(record, id, ch, AlertDown, |Log(s.proto, id)|);
    }
    SentLogOf(s, up, down);
    if fate == SentLate {
      DownSent(cal, s, t, up, record, id, ch);
    } else if fate == NotListed {
      DownUnlisted(cal, s, t, up, record, id, ch);
    } else {
      DownLost(cal, s, t, up, record, id, ch);
    }
    CarefulSplit(cal, s, first, last);
  }

  lemma AnnouncesIs(c: Check, id: string, ch: Channel, alert: AlertType, n: nat)
    requires c.id == id
    ensures Announces(Sent(AlertEvent(c, ch, alert), n), id, ch, alert, n)
  {
  }
}
