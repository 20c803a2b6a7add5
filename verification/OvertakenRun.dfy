/** The overtaking run from the empty database on. */
module OvertakenRun {
  import opened Text
  import opened TimeCodec
  import opened Schedule
  import opened Model
  import opened CheckRows
  import opened Ranking
  import opened Transitions
  import opened WriteThrough
  import opened Tables
  import opened Integrity
  import opened Protocol
  import opened Reduction
  import opened Alternation
  import opened Announcements
  import opened Announced
  import opened Overtaking
  import opened Overtaken
  import Q = Pipeline

  // Runs without stale commits, as runs of the protocol.

  lemma {:induction false} CarefulIsConflictFree(cal: Calendar, moves: seq<Move>)
    requires Careful(cal, Announcements.Start, moves)
    ensures Play(cal, moves) == From(cal, Announcements.Start, moves)
    ensures ConflictFree(cal, ProtoEvents(cal, moves))
  {
    if moves != [] {
      var most, m := moves[..|moves| - 1], moves[|moves| - 1];
      CarefulIsConflictFree(cal, most);
      ProtoRuns(cal, most);
      var s := Play(cal, most);
      PartCareful(s, m);
      PartsOne(cal, most, m);
      hide Next, ProtoPart, Careful, ProtoEvents, Play, From, Parts;
      if ProtoPart(s, m).Some? {
        FreeMore(cal, ProtoEvents(cal, most), ProtoPart(s, m).value);
      } else {
        assert ProtoEvents(cal, most) + [] == ProtoEvents(cal, most);
      }
    }
  }

  lemma PartsOne(cal: Calendar, most: seq<Move>, m: Move)
    ensures ProtoEvents(cal, most + [m]) ==
            ProtoEvents(cal, most) + if ProtoPart(Play(cal, most), m).Some? then [ProtoPart(Play(cal, most), m).value] else []
  {
    assert (most + [m])[..|most|] == most;
    hide ProtoPart, Play;
  }

  lemma PartCareful(s: Joint, m: Move)
    requires m.Set? && m.i in s.proto.pending ==> !s.proto.pending[m.i].stale
    ensures var e := ProtoPart(s, m);
            e.Some? && e.value.Commit? && e.value.rid in s.proto.pending ==> !s.proto.pending[e.value.rid].stale
  {
    hide Idle, Lists, Hydrate, Expired;
  }

  lemma FreeMore(cal: Calendar, evs: seq<Event>, e: Event)
    requires ConflictFree(cal, evs)
    requires e.Commit? && e.rid in Run(cal, evs).pending ==> !Run(cal, evs).pending[e.rid].stale
    ensures ConflictFree(cal, evs + [e])
  {
    assert (evs + [e])[..|evs|] == evs;
    hide Run;
  }

  // A state in which a check is about to be overdue.

  lemma OneListed(db: Db, id: string, ch: Channel)
    requires db.channels == map[ch.id := ch] && db.links == {(id, ch.id)}
    ensures ListChannels(db, id) == [ch]
  {
    assert (id, ch.id) in db.links;
    assert ch.id in Attached(db, id) && Attached(db, id) == {ch.id};
    var x := Stamp(ch.id, ch.createdAt);
    assert ChannelStamps(db, id) == {x};
    var r := Oldest({x});
    assert Newest({x}) == [x] by { assert x in Newest({x}); }
    hide Newest, Attached, ChannelStamps;
    assert Reverse([x]) == [x];
  }

  function Opening(id: string, form: Form, kind: string, at: Instant): seq<Move>
  {
    [Pipe(Q.StartWorker)] + [Pipe(Q.Serve)] + [Pipe(Q.Other(MakeChannel(kind, "", "", at), false))] + [Make(id, form, at, false)]
    + [Pipe(Q.Other(Link(id, 1), false))] + [Pipe(Q.Arrive)] + [Get(0, Ping(id, Success, at))] + [Set(0, false)]
  }

  function FirstChannel(kind: string, at: Instant): Channel { Channel(1, kind, "", "", FormatTime(at)) }

  /** The pipeline before a request: nothing asked for, one channel, perhaps linked. */
  ghost predicate Fresh(p: Q.State, senders: seq<Q.Sender>, ch: Channel, links: set<(string, nat)>)
  {
    && p.main == Q.Serving && !p.panicked && p.senders == senders && p.queue == [] && p.accepted == [] && p.numbers == []
    && p.db.channels == map[ch.id := ch] && p.db.links == links
  }

  lemma Opened(cal: Calendar, kind: string, at: Instant)
    requires kind in CHANNEL_KINDS
    ensures var s := Next(cal, Next(cal, Next(cal, Announcements.Start, Pipe(Q.StartWorker)), Pipe(Q.Serve)),
                          Pipe(Q.Other(MakeChannel(kind, "", "", at), false)));
            s.proto == Protocol.Init && s.past == [] && Fresh(s.pipe, [], FirstChannel(kind, at), {})
  {
    hide FormatTime, Next, Q.NoneLive, Dispatch;
    var s0 := Announcements.Start;
    PipeMove(cal, s0, Q.StartWorker);
    var s1 := s0.(pipe := Q.Step(s0.pipe, Q.StartWorker));
    assert s1.pipe == s0.pipe.(started := true);
    PipeMove(cal, s1, Q.Serve);
    var s2 := s1.(pipe := Q.Step(s1.pipe, Q.Serve));
    assert s2.pipe == s1.pipe.(main := Q.Serving);
    var make := Q.Other(MakeChannel(kind, "", "", at), false);
    PipeMove(cal, s2, make);
  }

  /** The protocol's part of the opening. */
  lemma Made(cal: Calendar, s: Joint, id: string, form: Form, f: Settings, at: Instant, ch: Channel)
    requires ParseCheckForm(cal, form) == Some(f) && NextExpectedAt(cal, f.schedule, f.grace, at).Some?
    requires s.proto == Protocol.Init && s.past == [] && Fresh(s.pipe, [], ch, {})
    ensures var t := Next(cal, s, Make(id, form, at, false));
            && t.proto == Step(cal, Protocol.Init, CreateCheck(id, form, at, false)) && t.past == []
            && Fresh(t.pipe, [], ch, {}) && id in t.pipe.db.checks && t.proto.pending == map[]
  {
    hide ParseCheckForm, NextExpectedAt, RowOf, Q.NoneLive;
    var m := Make(id, form, at, false);
    var c := NewCheck(cal, id, f, at).value;
    assert ProtoPart(s, m) == Some(CreateCheck(id, form, at, false));
    assert PipePart(cal, s, m) == [Q.Other(MakeCheck(c), false)];
    OtherMove(cal, s, m, Q.Other(MakeCheck(c), false), Q.Arrive);
    SaveStep(s.pipe, c, false);
    assert [Q.Other(MakeCheck(c), false)] != [Q.Other(MakeCheck(c), false)] + [Q.Arrive];
    hide Next, PipePart, ProtoPart, Q.Step;
  }

  lemma Linked(cal: Calendar, s: Joint, id: string, ch: Channel)
    requires Fresh(s.pipe, [], ch, {}) && id in s.pipe.db.checks
    ensures var t := Next(cal, Next(cal, s, Pipe(Q.Other(Link(id, ch.id), false))), Pipe(Q.Arrive));
            && t.proto == s.proto && t.past == s.past
            && Fresh(t.pipe, [Q.Sender(Q.Handler, [], 0, [], false)], ch, {(id, ch.id)})
  {
    hide Next, Q.NoneLive, Dispatch;
    var link := Q.Other(Link(id, ch.id), false);
    PipeMove(cal, s, link);
    var t := s.(pipe := Q.Step(s.pipe, link));
    assert Fresh(t.pipe, [], ch, {(id, ch.id)});
    PipeMove(cal, t, Q.Arrive);
  }

  lemma FirstPing(cal: Calendar, s: Joint, id: string, form: Form, f: Settings, at: Instant, due: Instant, ch: Channel)
    requires ParseCheckForm(cal, form) == Some(f) && NextExpectedAt(cal, f.schedule, f.grace, at) == Some(due)
    requires s.proto == Step(cal, Protocol.Init, CreateCheck(id, form, at, false)) && s.proto.pending == map[]
    requires Fresh(s.pipe, [Q.Sender(Q.Handler, [], 0, [], false)], ch, {(id, ch.id)})
    ensures var t := Next(cal, s, Get(0, Ping(id, Success, at)));
            var u := Next(cal, t, Set(0, false));
            && 0 in t.proto.pending && !t.proto.pending[0].stale && u.past == s.past
            && u.proto == Step(cal, s.proto, Atomic(Ping(id, Success, at), false))
            && Looks(u.proto, id, f, Up, at, due, []) && u.proto.pending == map[]
            && Fresh(u.pipe, [Q.Sender(Q.Handler, [], 0, [], false)], ch, {(id, ch.id)})
  {
    var req := Ping(id, Success, at);
    CreatedAndPinged(cal, id, form, f, at, due);
    FirstGet(cal, s.proto, id, form, f, at, due);
    BeginCommit(cal, s.proto, 0, req);
    assert Idle(s.pipe, 0) && !s.pipe.panicked;
    hide *;
    GetMove(cal, s, 0, req);
    var t := Next(cal, s, Get(0, req));
    FirstSet(cal, t, id, ch);
  }

  /** The Get of the first ping: a new check calls for nothing. */
  lemma FirstGet(cal: Calendar, s: State, id: string, form: Form, f: Settings, at: Instant, due: Instant)
    requires ParseCheckForm(cal, form) == Some(f) && NextExpectedAt(cal, f.schedule, f.grace, at) == Some(due)
    requires s == Step(cal, Protocol.Init, CreateCheck(id, form, at, false))
    ensures var t := Step(cal, s, Begin(0, Ping(id, Success, at)));
            && 0 in t.pending && !t.pending[0].stale && t.pending[0].copy.id == id && AlertsFor(t.pending[0].base, t.pending[0].req) == []
  {
    hide RowOf, ParseCheckForm, NextExpectedAt;
    assert id in s.st.cache && s.st.cache[id] == NewCheck(cal, id, f, at).value;
  }

  lemma BeginCommit(cal: Calendar, s: State, i: nat, req: Request)
    requires s.pending == map[]
    ensures Step(cal, Step(cal, s, Begin(i, req)), Commit(i, false)) == Step(cal, s, Atomic(req, false))
  {
    AtomicIsBeginCommit(cal, s, i, req, false);
    var evs := [Begin(i, req), Commit(i, false)];
    assert evs[..1] == [Begin(i, req)] && evs[..1][..0] == [];
    assert Steps(cal, s, []) == s;
    hide Step;
  }

  lemma SaveFresh(p: Q.State, c: Check, senders: seq<Q.Sender>, ch: Channel, links: set<(string, nat)>)
    requires Fresh(p, senders, ch, links)
    ensures Fresh(Q.Step(p, Q.Other(SaveCheck(c), false)), senders, ch, links)
  {
    SaveStep(p, c, false);
    hide Q.Step, Update;
  }

  lemma AskFresh(p: Q.State, ask: Q.Event, ch: Channel, links: set<(string, nat)>)
    requires Fresh(p, [Q.Sender(Q.Handler, [], 0, [], false)], ch, links) && ask == Q.Ask(0, [])
    ensures Fresh(Q.Step(p, ask), [Q.Sender(Q.Handler, [], 0, [], false)], ch, links)
  {
    var idle := Q.Sender(Q.Handler, [], 0, [], false);
    assert [idle][0 := idle] == [idle];
  }

  lemma FirstSet(cal: Calendar, s: Joint, id: string, ch: Channel)
    requires 0 in s.proto.pending && s.proto.pending[0].copy.id == id
    requires AlertsFor(s.proto.pending[0].base, s.proto.pending[0].req) == []
    requires Fresh(s.pipe, [Q.Sender(Q.Handler, [], 0, [], false)], ch, {(id, ch.id)})
    ensures var t := Next(cal, s, Set(0, false));
            && t.proto == Step(cal, s.proto, Commit(0, false)) && t.past == s.past
            && Fresh(t.pipe, [Q.Sender(Q.Handler, [], 0, [], false)], ch, {(id, ch.id)})
  {
    var m, p := Set(0, false), s.proto.pending[0];
    var save, ask := Q.Other(SaveCheck(p.copy), false), Q.Ask(0, JobsFrom(p.copy, [], |Log(s.proto, id)|));
    assert JobsFrom(p.copy, [], |Log(s.proto, id)|) == [];
    assert ProtoPart(s, m) == Some(Commit(0, false));
    hide *;
    SetParts(cal, s, 0, false);
    SaveFresh(s.pipe, p.copy, [Q.Sender(Q.Handler, [], 0, [], false)], ch, {(id, ch.id)});
    AskFresh(Q.Step(s.pipe, save), ask, ch, {(id, ch.id)});
    OtherMove(cal, s, m, save, ask);
    assert [save] + [] == [save];
  }

  lemma OnlyOne(cal: Calendar, id: string, form: Form, at: Instant)
    ensures Step(cal, Step(cal, Protocol.Init, CreateCheck(id, form, at, false)), Atomic(Ping(id, Success, at), false)).st.cache.Keys <= {id}
  {
    hide RowOf, ParseCheckForm, NextExpectedAt, Updated, Validate;
    var s := Step(cal, Protocol.Init, CreateCheck(id, form, at, false));
    assert s.st.cache.Keys <= {id};
    if id in s.st.cache {
      assert s.st.cache[id].id == id;
    }
  }

  lemma SoonOverdue(s: State, id: string, f: Settings, at: Instant, due: Instant, now: Instant)
    requires Looks(s, id, f, Up, at, due, []) && due < now && s.st.cache.Keys <= {id}
    ensures id in s.st.cache && Expired(s.st, now, {}) == {id} && Log(s, id) == []
  {
    assert Expires(s.st, id, now, {});
  }

  lemma FreshAt(p: Q.State, id: string, ch: Channel)
    requires Fresh(p, [Q.Sender(Q.Handler, [], 0, [], false)], ch, {(id, ch.id)})
    ensures At(p, p.senders, Zip(p.accepted, p.numbers), 2, id, ch) && Q.NoneLive(p.senders, Q.Pass) && AllSilent(p, id)
    ensures |p.senders| == 1 && Zip(p.accepted, p.numbers) == [] && |p.accepted| == |p.numbers|
  {
    OneListed(p.db, id, ch);
    hide ListChannels;
  }

  lemma NothingSent(s: Joint)
    requires s.past == [] && |s.pipe.accepted| == |s.pipe.numbers| && Zip(s.pipe.accepted, s.pipe.numbers) == []
    ensures SentLog(s) == []
  {
  }

  lemma FreshReady(cal: Calendar, s: Joint, id: string, ch: Channel, now: Instant)
    requires JointInv(cal, s) && Fresh(s.pipe, [Q.Sender(Q.Handler, [], 0, [], false)], ch, {(id, ch.id)})
    requires s.proto.pending == map[] && id in s.proto.st.cache && Expired(s.proto.st, now, {}) == {id} && s.past == []
    ensures Ready(cal, s, id, ch, now) && SentLog(s) == []
  {
    FreshAt(s.pipe, id, ch);
    NothingSent(s);
    hide JointInv, Expired, At, AllSilent, Q.NoneLive, Fresh, SentLog;
  }

  lemma NoSet(cal: Calendar, s: Joint, moves: seq<Move>)
    requires forall k :: 0 <= k < |moves| ==> !moves[k].Set?
    ensures Careful(cal, s, moves)
  {
    if moves != [] {
      var most := moves[..|moves| - 1];
      assert forall k :: 0 <= k < |most| ==> most[k] == moves[k];
      NoSet(cal, s, most);
      assert !moves[|moves| - 1].Set?;
      hide From;
    }
  }

  lemma EightMoves(cal: Calendar, s: Joint, a: Move, b: Move, c: Move, d: Move, e: Move, f: Move, g: Move, h: Move)
    ensures From(cal, s, [a] + [b] + [c] + [d] + [e] + [f] + [g] + [h]) ==
            Next(cal, Next(cal, Next(cal, Next(cal, Next(cal, Next(cal, Next(cal, Next(cal, s, a), b), c), d), e), f), g), h)
    ensures From(cal, s, [a] + [b] + [c] + [d] + [e] + [f] + [g]) ==
            Next(cal, Next(cal, Next(cal, Next(cal, Next(cal, Next(cal, Next(cal, s, a), b), c), d), e), f), g)
  {
    assert From(cal, s, []) == s;
    hide *;
    FromOne(cal, s, [], a);
    assert [] + [a] == [a];
    FromOne(cal, s, [a], b);
    FromOne(cal, s, [a] + [b], c);
    FromOne(cal, s, [a] + [b] + [c], d);
    FromOne(cal, s, [a] + [b] + [c] + [d], e);
    FromOne(cal, s, [a] + [b] + [c] + [d] + [e], f);
    FromOne(cal, s, [a] + [b] + [c] + [d] + [e] + [f], g);
    FromOne(cal, s, [a] + [b] + [c] + [d] + [e] + [f] + [g], h);
  }

  lemma OpeningIs(id: string, form: Form, kind: string, at: Instant)
    ensures Opening(id, form, kind, at) ==
            [Pipe(Q.StartWorker)] + [Pipe(Q.Serve)] + [Pipe(Q.Other(MakeChannel(kind, "", "", at), false))] + [Make(id, form, at, false)]
            + [Pipe(Q.Other(Link(id, 1), false))] + [Pipe(Q.Arrive)] + [Get(0, Ping(id, Success, at))] + [Set(0, false)]
  {
  }

  /** Its moves but the last: none is a Set. */
  function BeforeSet(id: string, form: Form, kind: string, at: Instant): (r: seq<Move>)
    ensures forall k :: 0 <= k < |r| ==> !r[k].Set?
  {
    [Pipe(Q.StartWorker)] + [Pipe(Q.Serve)] + [Pipe(Q.Other(MakeChannel(kind, "", "", at), false))] + [Make(id, form, at, false)]
    + [Pipe(Q.Other(Link(id, 1), false))] + [Pipe(Q.Arrive)] + [Get(0, Ping(id, Success, at))]
  }

  lemma OpeningEnds(id: string, form: Form, kind: string, at: Instant)
    ensures Opening(id, form, kind, at) == BeforeSet(id, form, kind, at) + [Set(0, false)]
  {
  }

  /** The opening leads to a state from which the alert can be overtaken. */
  lemma OpeningReady(cal: Calendar, id: string, form: Form, kind: string, at: Instant, now: Instant)
    requires ParseCheckForm(cal, form).Some? && kind in CHANNEL_KINDS
    requires var f := ParseCheckForm(cal, form).value;
             NextExpectedAt(cal, f.schedule, f.grace, at).Some? && NextExpectedAt(cal, f.schedule, f.grace, at).value < now
    ensures var moves := Opening(id, form, kind, at);
            var s := From(cal, Announcements.Start, moves);
            && Careful(cal, Announcements.Start, moves) && Ready(cal, s, id, FirstChannel(kind, at), now)
            && SentLog(s) == [] && Log(s.proto, id) == []
  {
    var f := ParseCheckForm(cal, form).value;
    var due, ch := NextExpectedAt(cal, f.schedule, f.grace, at).value, FirstChannel(kind, at);
    var s0 := Announcements.Start;
    var s3 := Next(cal, Next(cal, Next(cal, s0, Pipe(Q.StartWorker)), Pipe(Q.Serve)), Pipe(Q.Other(MakeChannel(kind, "", "", at), false)));
    var s4 := Next(cal, s3, Make(id, form, at, false));
    var s6 := Next(cal, Next(cal, s4, Pipe(Q.Other(Link(id, 1), false))), Pipe(Q.Arrive));
    var s7 := Next(cal, s6, Get(0, Ping(id, Success, at)));
    var s8 := Next(cal, s7, Set(0, false));
    assert ch.id == 1;
    hide *;
    Opened(cal, kind, at);
    Made(cal, s3, id, form, f, at, ch);
    Linked(cal, s4, id, ch);
    FirstPing(cal, s6, id, form, f, at, due, ch);
    OpeningState(cal, id, form, kind, at, s7, s8);
    OnlyOne(cal, id, form, at);
    CarefulIsConflictFree(cal, Opening(id, form, kind, at));
    PlayKeeps(cal, Opening(id, form, kind, at));
    SoonOverdue(s8.proto, id, f, at, due, now);
    FreshReady(cal, s8, id, ch, now);
  }

  lemma OpeningState(cal: Calendar, id: string, form: Form, kind: string, at: Instant, s7: Joint, s8: Joint)
    requires var s0 := Announcements.Start;
             var s3 := Next(cal, Next(cal, Next(cal, s0, Pipe(Q.StartWorker)), Pipe(Q.Serve)), Pipe(Q.Other(MakeChannel(kind, "", "", at), false)));
             var s4 := Next(cal, s3, Make(id, form, at, false));
             var s6 := Next(cal, Next(cal, s4, Pipe(Q.Other(Link(id, 1), false))), Pipe(Q.Arrive));
             s7 == Next(cal, s6, Get(0, Ping(id, Success, at))) && s8 == Next(cal, s7, Set(0, false))
    requires 0 in s7.proto.pending && !s7.proto.pending[0].stale
    ensures From(cal, Announcements.Start, Opening(id, form, kind, at)) == s8
    ensures Careful(cal, Announcements.Start, Opening(id, form, kind, at))
  {
    var before := BeforeSet(id, form, kind, at);
    assert before == [Pipe(Q.StartWorker)] + [Pipe(Q.Serve)] + [Pipe(Q.Other(MakeChannel(kind, "", "", at), false))]
                     + [Make(id, form, at, false)] + [Pipe(Q.Other(Link(id, 1), false))] + [Pipe(Q.Arrive)] + [Get(0, Ping(id, Success, at))];
    OpeningIs(id, form, kind, at);
    OpeningEnds(id, form, kind, at);
    hide *;
    EightMoves(cal, Announcements.Start, Pipe(Q.StartWorker), Pipe(Q.Serve), Pipe(Q.Other(MakeChannel(kind, "", "", at), false)),
               Make(id, form, at, false), Pipe(Q.Other(Link(id, 1), false)), Pipe(Q.Arrive), Get(0, Ping(id, Success, at)), Set(0, false));
    NoSet(cal, Announcements.Start, before);
    CarefulMore(cal, Announcements.Start, before, Set(0, false));
  }

  lemma TurnsOfTwo()
    ensures Turns([] + [AlertDown] + [AlertUp]) == [AlertDown, AlertUp]
  {
    TurnsAppend([AlertDown], [AlertUp]);
    assert [] + [AlertDown] + [AlertUp] == [AlertDown] + [AlertUp];
    assert Turns([AlertDown]) == [AlertDown] && Turns([AlertUp]) == [AlertUp];
  }

  lemma ChannelSees(up: Sent, down: Sent, id: string, ch: Channel, m: nat, n: nat)
    requires Announces(up, id, ch, AlertUp, m) && Announces(down, id, ch, AlertDown, n)
    ensures AlertsIn(OnChannel([] + [up] + [down], id, ch.id)) == [AlertUp, AlertDown]
    ensures AlertsIn(OnChannel([] + [up], id, ch.id)) == [AlertUp]
  {
    assert OnChannel([], id, ch.id) == [];
    OnChannelMore([], up, id, ch.id);
    OnChannelMore([] + [up], down, id, ch.id);
  }

  /** In a run from the empty database that commits no stale copy, the transitions of a check are Down and Up while its
      channel is sent Up and then Down, or Up alone: for any check that can be created, at any clock readings, with the
      Down alert sent late, given up for want of a listing, or lost in a crash; when it is given up, or lost in a crash
      after which the store can be read back, no sender has it any more. */
  lemma Overtakes(cal: Calendar, id: string, form: Form, kind: string, at: Instant, now: Instant, again: Instant, fate: Fate)
      returns (moves: seq<Move>)
    requires ParseCheckForm(cal, form).Some? && kind in CHANNEL_KINDS
    requires var f := ParseCheckForm(cal, form).value;
             NextExpectedAt(cal, f.schedule, f.grace, at).Some? && NextExpectedAt(cal, f.schedule, f.grace, at).value < now
    ensures ConflictFree(cal, ProtoEvents(cal, moves))
    ensures var s := Play(cal, moves);
            && Turns(Log(s.proto, id)) == [AlertDown, AlertUp]
            && AlertsIn(OnChannel(SentLog(s), id, 1)) == (if fate == SentLate then [AlertUp, AlertDown] else [AlertUp])
            && (fate == NotListed || (fate == LostInCrash && Hydrate(s.proto.st.rows).Some?) ==> AllSilent(s.pipe, id))
  {
    var s := From(cal, Announcements.Start, Opening(id, form, kind, at));
    var ch := FirstChannel(kind, at);
    assert ch.id == 1;
    OpeningReady(cal, id, form, kind, at, now);
    var first, rest := Opening(id, form, kind, at), Overtake(s, id, now, again, fate);
    hide *;
    var up, down := OvertakesFrom(cal, s, id, ch, now, again, fate);
    CarefulSplit(cal, Announcements.Start, first, rest);
    moves := first + rest;
    CarefulIsConflictFree(cal, moves);
    Concluded(s, Play(cal, moves), up, down, id, ch, fate);
  }

  lemma Concluded(s: Joint, t: Joint, up: Sent, down: Sent, id: string, ch: Channel, fate: Fate)
    requires SentLog(s) == [] && Log(s.proto, id) == [] && Log(t.proto, id) == Log(s.proto, id) + [AlertDown] + [AlertUp]
    requires Announces(up, id, ch, AlertUp, |Log(s.proto, id)| + 1) && Announces(down, id, ch, AlertDown, |Log(s.proto, id)|)
    requires SentLog(t) == (if fate == SentLate then SentLog(s) + [up] + [down] else SentLog(s) + [up])
    ensures Turns(Log(t.proto, id)) == [AlertDown, AlertUp]
    ensures AlertsIn(OnChannel(SentLog(t), id, ch.id)) == (if fate == SentLate then [AlertUp, AlertDown] else [AlertUp])
  {
    hide *;
    TurnsOfTwo();
    ChannelSees(up, down, id, ch, 1, 0);
  }
}
