/** One life of the process, from its start to its end without a crash in between: the pipeline makes a run of its own in
    it, and is asked for each call of each check once, in order. Any store may be there when it begins. */
module Life {
  import opened TimeCodec
  import opened Schedule
  import opened Model
  import opened CheckRows
  import opened Transitions
  import opened WriteThrough
  import opened Tables
  import opened Integrity
  import opened Protocol
  import opened Coherence
  import opened Alternation
  import opened Announcements
  import opened Overtaking
  import opened Delivery
  import opened ChannelRows
  import Q = Pipeline

  /** A process has just started, on a store that is sound. */
  ghost predicate Begins(cal: Calendar, s: Joint)
  {
    JointInv(cal, s) && s.pipe == Q.Init(s.pipe.db) && Sound(s.pipe.db)
  }

  predicate NoCrash(moves: seq<Move>)
  {
    forall k :: 0 <= k < |moves| ==> !moves[k].Crash?
  }

  /** No crash, no deletion of a check or a channel, no failed look-up of channels, no failed first write of a row. */
  predicate Calm(m: Move)
  {
    match m
    case Crash => false
    case Drop(_, _) => false
    case Pipe(e) => (!e.Record? || !e.luck.fault) && (!e.Enlist? || !e.fault) && (!e.Other? || !e.stmt.DropChannel?)
    case _ => true
  }

  predicate CalmRun(moves: seq<Move>)
  {
    forall k :: 0 <= k < |moves| ==> Calm(moves[k])
  }

  lemma CalmPrefix(moves: seq<Move>)
    requires CalmRun(moves) && moves != []
    ensures CalmRun(moves[..|moves| - 1]) && Calm(moves[|moves| - 1])
  {
    hide Calm;
    assert forall k :: 0 <= k < |moves| - 1 ==> moves[..|moves| - 1][k] == moves[k];
  }

  lemma CalmIsAlive(moves: seq<Move>)
    requires CalmRun(moves)
    ensures NoCrash(moves)
  {
  }

  lemma AlivePrefix(moves: seq<Move>)
    requires NoCrash(moves) && moves != []
    ensures NoCrash(moves[..|moves| - 1]) && !moves[|moves| - 1].Crash?
  {
    assert forall k :: 0 <= k < |moves| - 1 ==> moves[..|moves| - 1][k] == moves[k];
  }

  /** The move does no harm to what one check gets on one channel: no crash, neither is deleted, and the first write for
      such an event goes through. Other checks and channels may come and go, and their writes fail. */
  predicate SparesMove(s: Joint, m: Move, id: string, h: nat)
  {
    match m
    case Crash => false
    case Drop(other, fault) => other == id ==> fault
    case Pipe(e) => Harmless(s.pipe, e, id, h)
    case _ => true
  }

  ghost predicate SparedLife(cal: Calendar, s: Joint, moves: seq<Move>, id: string, h: nat)
  {
    moves != [] ==>
      var most := moves[..|moves| - 1];
      SparedLife(cal, s, most, id, h) && SparesMove(From(cal, s, most), moves[|moves| - 1], id, h)
  }

  lemma AliveMore(moves: seq<Move>)
    requires moves != [] && NoCrash(moves[..|moves| - 1]) && !moves[|moves| - 1].Crash?
    ensures NoCrash(moves)
  {
    assert forall k :: 0 <= k < |moves| - 1 ==> moves[k] == moves[..|moves| - 1][k];
  }

  lemma SparedMoveIsNoCrash(s: Joint, m: Move, id: string, h: nat)
    requires SparesMove(s, m, id, h)
    ensures !m.Crash?
  {
  }

  lemma {:induction false} SparedIsAlive(cal: Calendar, s: Joint, moves: seq<Move>, id: string, h: nat)
    requires SparedLife(cal, s, moves, id, h)
    ensures NoCrash(moves)
  {
    hide From, SparesMove;
    if moves != [] {
      var most := moves[..|moves| - 1];
      hide NoCrash;
      SparedIsAlive(cal, s, most, id, h);
      SparedMoveIsNoCrash(From(cal, s, most), moves[|moves| - 1], id, h);
      AliveMore(moves);
    }
  }

  /** The pipeline's events of a run. */
  ghost function PipeEvents(cal: Calendar, s: Joint, moves: seq<Move>): seq<Q.Event>
  {
    if moves == [] then [] else
    var most := moves[..|moves| - 1];
    PipeEvents(cal, s, most) + PipePart(cal, From(cal, s, most), moves[|moves| - 1])
  }

  /** The pipeline of a life makes a run of its own. */
  lemma {:induction false} LifeRuns(cal: Calendar, s: Joint, moves: seq<Move>)
    requires NoCrash(moves)
    ensures From(cal, s, moves).past == s.past && From(cal, s, moves).pipe == Q.Run(s.pipe, PipeEvents(cal, s, moves))
  {
    if moves == [] {
      RunNothing(s.pipe);
    } else {
      var most, m := moves[..|moves| - 1], moves[|moves| - 1];
      AlivePrefix(moves);
      LifeRuns(cal, s, most);
      var t := From(cal, s, most);
      AliveNext(cal, t, m);
      hide Next, PipePart, Q.Run, NoCrash;
      Q.RunFrom(s.pipe, PipeEvents(cal, s, most), PipePart(cal, t, m));
    }
  }

  lemma AliveNext(cal: Calendar, t: Joint, m: Move)
    requires !m.Crash?
    ensures Next(cal, t, m).past == t.past && Next(cal, t, m).pipe == Q.Run(t.pipe, PipePart(cal, t, m))
  {
    hide PipePart, ProtoPart, Q.Run, Step;
  }

  // The store is sound at any time, so that any life begins on a sound one.

  lemma StepSound(p: Q.State, e: Q.Event)
    requires Sound(p.db) && (e.Other? ==> NilSlug(e.stmt))
    ensures Sound(Q.Step(p, e).db)
  {
    hide Sound, Dispatch, Execute, Q.NoneLive, ListChannels, Q.EventsOfListing;
    if e.Record? && p.inFlight.Some? {
      DispatchSound(p.db, p.inFlight.value, e.luck);
    } else if e.Other? {
      ExecuteSound(p.db, e.stmt, e.fault);
    }
  }

  predicate NoSlugIn(events: seq<Q.Event>)
  {
    forall k :: 0 <= k < |events| ==> events[k].Other? ==> NilSlug(events[k].stmt)
  }

  lemma {:induction false} RunSound(p: Q.State, events: seq<Q.Event>)
    requires Sound(p.db) && NoSlugIn(events)
    ensures Sound(Q.Run(p, events).db)
  {
    hide Sound, Q.Step;
    if events != [] {
      var most := events[..|events| - 1];
      assert forall k :: 0 <= k < |most| ==> most[k] == events[k];
      RunSound(p, most);
      StepSound(Q.Run(p, most), events[|events| - 1]);
    }
  }

  lemma {:induction false} QuietJoin(p: Q.State, a: seq<Q.Event>, b: seq<Q.Event>)
    requires QuietRun(p, a) && QuietRun(Q.Run(p, a), b)
    ensures QuietRun(p, a + b) && Q.Run(p, a + b) == Q.Run(Q.Run(p, a), b)
  {
    hide Q.Step, Quiet;
    if b == [] {
      assert a + b == a;
    } else {
      assert (a + b)[..|a + b| - 1] == a + b[..|b| - 1];
      QuietJoin(p, a, b[..|b| - 1]);
    }
  }

  lemma QuietOne(p: Q.State, e: Q.Event)
    requires Quiet(p, e)
    ensures QuietRun(p, [e])
  {
    assert [e][..0] == [];
    assert Q.Run(p, []) == p;
    hide Quiet;
  }

  lemma {:induction false} SavesQuiet(p: Q.State, events: seq<Q.Event>)
    requires forall k :: 0 <= k < |events| ==> events[k].Other? && events[k].stmt.SaveCheck? && events[k].stmt.check.slug.None?
    ensures QuietRun(p, events)
  {
    if events != [] {
      var most := events[..|events| - 1];
      assert forall k :: 0 <= k < |most| ==> most[k] == events[k];
      SavesQuiet(p, most);
      hide Q.Run;
      assert Quiet(Q.Run(p, most), events[|events| - 1]);
    }
  }

  lemma AskQuiet(p: Q.State, e: Q.Event)
    requires e.Ask? ==> forall j :: j in e.wanted ==> j.check.id in p.db.checks
    requires e.BeginPass? ==> forall j :: j in e.down ==> j.check.id in p.db.checks
    requires e.Ask? || e.BeginPass?
    ensures Quiet(p, e)
  {
  }

  lemma NoSlugs(cal: Calendar, s: State)
    requires Inv(cal, s)
    ensures forall id :: id in s.st.cache ==> s.st.cache[id].slug.None? && s.st.cache[id].id == id
    ensures forall r :: r in s.pending ==> s.pending[r].copy.slug.None?
    ensures s.st.cache.Keys == s.st.rows.Keys
  {
    hide Respond, RowOf;
  }

  lemma JobsFromIds(c: Check, alerts: seq<AlertType>, n: nat)
    ensures forall j :: j in JobsFrom(c, alerts, n) ==> j.check == c
  {
  }

  lemma UpdateKeepsIds(rows: map<string, Row>, c: Check, fault: bool)
    ensures Update(rows, c, fault).0.Keys == rows.Keys
  {
    hide Updated;
  }

  lemma SaveQuiet(p: Q.State, c: Check, fault: bool)
    requires c.slug.None?
    ensures Quiet(p, Q.Other(SaveCheck(c), fault)) && Quiet(p, Q.Other(MakeCheck(c), fault))
  {
  }

  lemma SetQuiet(cal: Calendar, s: Joint, i: nat, fault: bool)
    requires JointInv(cal, s) && ProtoPart(s, Set(i, fault)).Some?
    ensures QuietRun(s.pipe, PipePart(cal, s, Set(i, fault)))
  {
    assert Inv(cal, s.proto) && s.pipe.db.checks == s.proto.st.rows;
    hide *;
    SetParts(cal, s, i, fault);
    NoSlugs(cal, s.proto);
    var p := s.proto.pending[i];
    var save, ask := Q.Other(SaveCheck(p.copy), fault), Q.Ask(i, JobsFrom(p.copy, AlertsFor(p.base, p.req), |Log(s.proto, p.copy.id)|));
    SaveQuiet(s.pipe, p.copy, fault);
    QuietOne(s.pipe, save);
    if !fault && p.copy.id in s.proto.st.rows {
      RunTwo(s.pipe, save, ask);
      SaveStep(s.pipe, p.copy, fault);
      UpdateKeepsIds(s.pipe.db.checks, p.copy, fault);
      JobsFromIds(p.copy, AlertsFor(p.base, p.req), |Log(s.proto, p.copy.id)|);
      AskQuiet(Q.Step(s.pipe, save), ask);
      QuietOne(Q.Step(s.pipe, save), ask);
      QuietJoin(s.pipe, [save], [ask]);
    } else {
      assert [save] + [] == [save];
    }
  }

  lemma DownJobsStored(s: State, order: seq<string>, now: Instant)
    requires forall k :: 0 <= k < |order| ==> order[k] in s.st.cache && s.st.cache[order[k]].id == order[k]
    ensures forall j :: j in DownJobs(s, order, now) ==> j.check.id in s.st.cache
  {
    hide Log;
  }

  lemma SavedKeys(st: Stores, order: seq<string>, n: nat, now: Instant)
    requires st.cache.Keys == st.rows.Keys && n <= |order| && forall k :: 0 <= k < |order| ==> order[k] in st.cache
    ensures SavedRows(st, order, n, now).Keys == st.rows.Keys
  {
    hide Updated, MarkDown;
  }

  lemma SavesAre(cache: map<string, Check>, order: seq<string>, now: Instant)
    requires forall k :: 0 <= k < |order| ==> order[k] in cache && cache[order[k]].slug.None?
    ensures Saves(cache, order, now)[..|order|] == Saves(cache, order, now)
    ensures forall k :: 0 <= k < |order| ==>
              var e := Saves(cache, order, now)[k]; e.Other? && e.stmt.SaveCheck? && e.stmt.check.slug.None?
  {
  }

  lemma SweepQuiet(cal: Calendar, s: Joint, now: Instant, faults: set<string>, order: seq<string>)
    requires JointInv(cal, s) && ProtoPart(s, Sweep(now, faults, order)).Some?
    ensures QuietRun(s.pipe, PipePart(cal, s, Sweep(now, faults, order)))
  {
    assert Inv(cal, s.proto) && s.pipe.db.checks == s.proto.st.rows;
    InvCoherent(cal, s.proto);
    hide *;
    SweepParts(cal, s, now, faults, order);
    NoSlugs(cal, s.proto);
    ListsDistinct(order, Expired(s.proto.st, now, faults));
    var cache := s.proto.st.cache;
    var saves, begin := Saves(cache, order, now), Q.BeginPass(DownJobs(s.proto, order, now));
    SavesAre(cache, order, now);
    SavesQuiet(s.pipe, saves);
    SavesRun(s.pipe, s.proto.st, order, |order|, now);
    ChecksSetIs(s.pipe, Q.Run(s.pipe, saves), SavedRows(s.proto.st, order, |order|, now));
    SavedKeys(s.proto.st, order, |order|, now);
    DownJobsStored(s.proto, order, now);
    AskQuiet(Q.Run(s.pipe, saves), begin);
    QuietOne(Q.Run(s.pipe, saves), begin);
    QuietJoin(s.pipe, saves, [begin]);
  }

  lemma OtherQuiet(cal: Calendar, s: Joint, m: Move)
    requires Calm(m) && (m.Get? || m.Pipe? || m.Make? || ProtoPart(s, m).None?)
    ensures QuietRun(s.pipe, PipePart(cal, s, m))
  {
    hide ParseCheckForm, NextExpectedAt, Idle, Expired, Lists;
    if PipePart(cal, s, m) != [] {
      var e := PipePart(cal, s, m)[0];
      assert PipePart(cal, s, m) == [e] && Quiet(s.pipe, e);
      QuietOne(s.pipe, e);
    }
  }

  lemma MoveQuiet(cal: Calendar, s: Joint, m: Move)
    requires JointInv(cal, s) && Calm(m)
    ensures QuietRun(s.pipe, PipePart(cal, s, m))
  {
    assert !m.Crash? && !m.Drop?;
    hide JointInv, ProtoPart, PipePart, QuietRun;
    if m.Set? && ProtoPart(s, m).Some? {
      SetQuiet(cal, s, m.i, m.fault);
    } else if m.Sweep? && ProtoPart(s, m).Some? {
      SweepQuiet(cal, s, m.now, m.faults, m.order);
    } else {
      OtherQuiet(cal, s, m);
    }
  }

  /** The pipeline of a calm life makes a quiet run of its own. */
  lemma {:induction false} CalmIsQuiet(cal: Calendar, s: Joint, moves: seq<Move>)
    requires Begins(cal, s) && CalmRun(moves)
    ensures QuietRun(s.pipe, PipeEvents(cal, s, moves))
  {
    if moves != [] {
      var most, m := moves[..|moves| - 1], moves[|moves| - 1];
      CalmPrefix(moves);
      CalmIsAlive(most);
      CalmIsQuiet(cal, s, most);
      LifeRuns(cal, s, most);
      FromKeeps(cal, s, most);
      var t := From(cal, s, most);
      hide Next, JointInv, PipePart, QuietRun, Q.Run, Calm, CalmRun, From, Sound;
      MoveQuiet(cal, t, m);
      QuietJoin(s.pipe, PipeEvents(cal, s, most), PipePart(cal, t, m));
    }
  }

  // No statement of the program writes a slug, and the statements of a move spare what the move spares.

  lemma SetStatements(cal: Calendar, s: Joint, i: nat, fault: bool)
    requires JointInv(cal, s) && ProtoPart(s, Set(i, fault)).Some?
    ensures Writes(PipePart(cal, s, Set(i, fault)))
  {
    assert Inv(cal, s.proto);
    hide *;
    SetParts(cal, s, i, fault);
    NoSlugs(cal, s.proto);
    var p := s.proto.pending[i];
    OneWrite(p.copy, fault);
    AskWrites([Q.Other(SaveCheck(p.copy), fault)], Q.Ask(i, JobsFrom(p.copy, AlertsFor(p.base, p.req), |Log(s.proto, p.copy.id)|)));
    assert [Q.Other(SaveCheck(p.copy), fault)] + [] == [Q.Other(SaveCheck(p.copy), fault)];
  }

  lemma SweepStatements(cal: Calendar, s: Joint, now: Instant, faults: set<string>, order: seq<string>)
    requires JointInv(cal, s) && ProtoPart(s, Sweep(now, faults, order)).Some?
    ensures Writes(PipePart(cal, s, Sweep(now, faults, order)))
  {
    assert Inv(cal, s.proto);
    hide *;
    SweepParts(cal, s, now, faults, order);
    NoSlugs(cal, s.proto);
    SavesAre(s.proto.st.cache, order, now);
    SavesWrite(Saves(s.proto.st.cache, order, now));
    AskWrites(Saves(s.proto.st.cache, order, now), Q.BeginPass(DownJobs(s.proto, order, now)));
  }

  /** Only records without a slug are written, and senders asked. */
  predicate Writes(events: seq<Q.Event>)
  {
    forall k :: 0 <= k < |events| ==>
      || events[k].Ask? || events[k].BeginPass?
      || (events[k].Other? && (events[k].stmt.SaveCheck? || events[k].stmt.MakeCheck?) && events[k].stmt.check.slug.None?)
  }

  lemma OneWrite(c: Check, fault: bool)
    requires c.slug.None?
    ensures Writes([Q.Other(SaveCheck(c), fault)]) && Writes([Q.Other(MakeCheck(c), fault)])
  {
  }

  lemma AskWrites(events: seq<Q.Event>, e: Q.Event)
    requires Writes(events) && (e.Ask? || e.BeginPass?)
    ensures Writes(events + [e])
  {
  }

  lemma SavesWrite(events: seq<Q.Event>)
    requires forall k :: 0 <= k < |events| ==> events[k].Other? && events[k].stmt.SaveCheck? && events[k].stmt.check.slug.None?
    ensures Writes(events)
  {
  }

  /** What a move does to the store: one statement or step of its own kind, or writes to checks. */
  lemma MoveStatements(cal: Calendar, s: Joint, m: Move)
    requires JointInv(cal, s)
    ensures var events := PipePart(cal, s, m);
            || Writes(events)
            || (m.Pipe? && events == [m.e] && IsPiped(m.e))
            || (m.Drop? && events == [Q.Other(DropCheck(m.id), m.fault)])
  {
    if m.Set? && ProtoPart(s, m).Some? {
      SetStatements(cal, s, m.i, m.fault);
    } else if m.Sweep? && ProtoPart(s, m).Some? {
      SweepStatements(cal, s, m.now, m.faults, m.order);
    } else {
      hide JointInv, ParseCheckForm, NextExpectedAt, Idle, Expired, Lists, Hydrate;
    }
  }

  lemma PartHasNoSlug(cal: Calendar, s: Joint, m: Move)
    requires JointInv(cal, s)
    ensures NoSlugIn(PipePart(cal, s, m))
  {
    MoveStatements(cal, s, m);
    hide PipePart, JointInv;
  }

  lemma {:induction false} WritesSpare(p: Q.State, events: seq<Q.Event>, id: string, h: nat)
    requires Writes(events)
    ensures SparesAll(p, events, id, h)
  {
    if events != [] {
      var most := events[..|events| - 1];
      assert forall k :: 0 <= k < |most| ==> most[k] == events[k];
      WritesSpare(p, most, id, h);
      hide Q.Run;
      assert Spares(Q.Run(p, most), events[|events| - 1], id, h);
    }
  }

  lemma SparesOne(p: Q.State, e: Q.Event, id: string, h: nat)
    requires Spares(p, e, id, h)
    ensures SparesAll(p, [e], id, h)
  {
    assert [e][..0] == [];
    RunNothing(p);
    hide Spares, Q.Run;
  }

  lemma MoveSpares(cal: Calendar, s: Joint, m: Move, id: string, h: nat)
    requires JointInv(cal, s) && SparesMove(s, m, id, h)
    ensures SparesAll(s.pipe, PipePart(cal, s, m), id, h)
  {
    MoveStatements(cal, s, m);
    var events := PipePart(cal, s, m);
    hide PipePart, JointInv, SparesAll;
    if Writes(events) {
      WritesSpare(s.pipe, events, id, h);
    } else {
      assert Spares(s.pipe, events[0], id, h);
      SparesOne(s.pipe, events[0], id, h);
    }
  }

  lemma {:induction false} SparesJoin(p: Q.State, a: seq<Q.Event>, b: seq<Q.Event>, id: string, h: nat)
    requires SparesAll(p, a, id, h) && SparesAll(Q.Run(p, a), b, id, h)
    ensures SparesAll(p, a + b, id, h)
  {
    hide Q.Step, Spares, Q.Run;
    if b == [] {
      assert a + b == a;
    } else {
      assert (a + b)[..|a + b| - 1] == a + b[..|b| - 1];
      SparesJoin(p, a, b[..|b| - 1], id, h);
      Q.RunFrom(p, a, b[..|b| - 1]);
    }
  }

  /** The pipeline of a life that spares a check and a channel makes a run that does. */
  lemma {:induction false} LifeSpares(cal: Calendar, s: Joint, moves: seq<Move>, id: string, h: nat)
    requires JointInv(cal, s) && SparedLife(cal, s, moves, id, h)
    ensures SparesAll(s.pipe, PipeEvents(cal, s, moves), id, h)
  {
    if moves != [] {
      var most := moves[..|moves| - 1];
      LifeSpares(cal, s, most, id, h);
      SparedIsAlive(cal, s, most, id, h);
      LifeRuns(cal, s, most);
      FromKeeps(cal, s, most);
      var t := From(cal, s, most);
      hide From, JointInv, PipePart, SparesAll, SparesMove, Q.Run, NoCrash;
      MoveSpares(cal, t, moves[|moves| - 1], id, h);
      SparesJoin(s.pipe, PipeEvents(cal, s, most), PipePart(cal, t, moves[|moves| - 1]), id, h);
    }
  }

  lemma NextSound(cal: Calendar, s: Joint, m: Move)
    requires JointInv(cal, s) && Sound(s.pipe.db)
    ensures Sound(Next(cal, s, m).pipe.db)
  {
    if m.Crash? {
      hide Sound, JointInv, Step, Hydrate;
    } else {
      PartHasNoSlug(cal, s, m);
      AliveNext(cal, s, m);
      hide Next, JointInv, PipePart, Sound;
      RunSound(s.pipe, PipePart(cal, s, m));
    }
  }

  /** The store of any run of checks and alerts is sound, through crashes and restarts. */
  lemma {:induction false} AlwaysSoundStore(cal: Calendar, s: Joint, moves: seq<Move>)
    requires JointInv(cal, s) && Sound(s.pipe.db)
    ensures Sound(From(cal, s, moves).pipe.db)
  {
    hide Sound, JointInv, Next;
    if moves != [] {
      var most := moves[..|moves| - 1];
      AlwaysSoundStore(cal, s, most);
      FromKeeps(cal, s, most);
      NextSound(cal, From(cal, s, most), moves[|moves| - 1]);
    }
  }

  /** So a life begins at the start of any run, and after any crash that the store can be read back from. */
  lemma LivesBegin(cal: Calendar, moves: seq<Move>)
    ensures Begins(cal, Announcements.Start)
    ensures var s := Play(cal, moves); ProtoPart(s, Crash).Some? ==> Begins(cal, Next(cal, s, Crash))
  {
    var s := Play(cal, moves);
    StartKeeps(cal);
    assert Sound(Announcements.Start.pipe.db);
    assert Announcements.Start == Play(cal, []) && [] + moves == moves;
    PlayFrom(cal, [], moves);
    AlwaysSoundStore(cal, Announcements.Start, moves);
    PlayKeeps(cal, moves);
    NextKeeps(cal, s, Crash);
    NextSound(cal, s, Crash);
    hide Play, From, JointInv, Sound, Step, Hydrate;
  }

  // What the pipeline is asked for.

  /** The jobs for one check, in order. */
  function CallsOf(jobs: seq<Q.Job>, id: string): (r: seq<Q.Job>)
    ensures forall j :: j in r <==> j in jobs && j.check.id == id
  {
    if jobs == [] then [] else
    var most, last := jobs[..|jobs| - 1], jobs[|jobs| - 1];
    assert jobs == most + [last];
    CallsOf(most, id) + if last.check.id == id then [last] else []
  }

  lemma {:induction false} CallsJoin(a: seq<Q.Job>, b: seq<Q.Job>, id: string)
    ensures CallsOf(a + b, id) == CallsOf(a, id) + CallsOf(b, id)
  {
    if b == [] {
      assert a + b == a;
    } else {
      assert (a + b)[..|a + b| - 1] == a + b[..|b| - 1];
      CallsJoin(a, b[..|b| - 1], id);
    }
  }

  /** Number by number, the calls of a log from the n-th on. */
  predicate Numbered(jobs: seq<Q.Job>, log: seq<AlertType>, n: nat)
  {
    n + |jobs| == |log| && forall k :: 0 <= k < |jobs| ==> jobs[k].n == n + k && jobs[k].alert == log[n + k]
  }

  /** The check's senders were asked for exactly what its writes called for, from the n-th call on. */
  ghost predicate Asked(s: Joint, id: string, n: nat)
  {
    Numbered(CallsOf(s.pipe.asked, id), Log(s.proto, id), n)
  }

  lemma {:induction false} AllOf(jobs: seq<Q.Job>, id: string)
    requires forall j :: j in jobs ==> j.check.id == id
    ensures CallsOf(jobs, id) == jobs
  {
    if jobs != [] {
      var most := jobs[..|jobs| - 1];
      assert jobs == most + [jobs[|jobs| - 1]];
      assert forall j :: j in most ==> j in jobs;
      AllOf(most, id);
    }
  }

  lemma {:induction false} NoneOf(jobs: seq<Q.Job>, id: string)
    requires forall j :: j in jobs ==> j.check.id != id
    ensures CallsOf(jobs, id) == []
  {
    if jobs != [] {
      var most := jobs[..|jobs| - 1];
      assert jobs == most + [jobs[|jobs| - 1]];
      assert forall j :: j in most ==> j in jobs;
      NoneOf(most, id);
    }
  }

  lemma NumberedMore(jobs: seq<Q.Job>, log: seq<AlertType>, more: seq<Q.Job>, alerts: seq<AlertType>, n: nat)
    requires Numbered(jobs, log, n) && |more| == |alerts|
    requires forall k :: 0 <= k < |more| ==> more[k].n == |log| + k && more[k].alert == alerts[k]
    ensures Numbered(jobs + more, log + alerts, n)
  {
  }

  lemma StepAsks(p: Q.State, e: Q.Event)
    requires !e.Ask? && !e.BeginPass?
    ensures Q.Step(p, e).asked == p.asked
  {
    hide Execute, Dispatch, Q.NoneLive, ListChannels, Q.EventsOfListing;
  }

  lemma {:induction false} RunAsks(p: Q.State, events: seq<Q.Event>)
    requires forall k :: 0 <= k < |events| ==> !events[k].Ask? && !events[k].BeginPass?
    ensures Q.Run(p, events).asked == p.asked
  {
    hide Q.Step;
    if events != [] {
      var most := events[..|events| - 1];
      assert forall k :: 0 <= k < |most| ==> most[k] == events[k];
      RunAsks(p, most);
      StepAsks(Q.Run(p, most), events[|events| - 1]);
    }
  }

  lemma AskTaken(p: Q.State, i: nat, wanted: seq<Q.Job>)
    requires Idle(p, i) && !p.panicked
    ensures Q.Step(p, Q.Ask(i, wanted)).asked == p.asked + wanted
  {
  }

  lemma PassTaken(p: Q.State, down: seq<Q.Job>)
    requires (p.main == Q.Serving || p.main == Q.ServerDown) && Q.NoneLive(p.senders, Q.Pass) && !p.panicked
    ensures Q.Step(p, Q.BeginPass(down)).asked == p.asked + down
  {
    hide Q.NoneLive;
  }

  lemma IdleOnSenders(p: Q.State, t: Q.State, i: nat)
    requires t.senders == p.senders
    ensures Idle(t, i) == Idle(p, i)
  {
  }

  lemma SetIdle(s: Joint, i: nat, fault: bool)
    requires ProtoPart(s, Set(i, fault)).Some?
    ensures Idle(s.pipe, i)
  {
    hide Idle;
  }

  lemma SetJobs(c: Check, alerts: seq<AlertType>, n: nat, id: string)
    ensures CallsOf(JobsFrom(c, alerts, n), id) == if c.id == id then JobsFrom(c, alerts, n) else []
  {
    JobsFromIds(c, alerts, n);
    hide JobsFrom, CallsOf;
    if c.id == id {
      AllOf(JobsFrom(c, alerts, n), id);
    } else {
      NoneOf(JobsFrom(c, alerts, n), id);
    }
  }

  lemma JobsFromNumbered(jobs: seq<Q.Job>, log: seq<AlertType>, c: Check, alerts: seq<AlertType>, n: nat)
    requires Numbered(jobs, log, n)
    ensures Numbered(jobs + JobsFrom(c, alerts, |log|), log + alerts, n)
  {
    NumberedMore(jobs, log, JobsFrom(c, alerts, |log|), alerts, n);
  }

  lemma SetLogs(cal: Calendar, s: State, i: nat, fault: bool, id: string)
    requires Inv(cal, s) && i in s.pending
    ensures var p := s.pending[i];
            Log(Step(cal, s, Commit(i, fault)), id) ==
            Log(s, id) + if !fault && p.copy.id == id && id in s.st.rows then AlertsFor(p.base, p.req) else []
  {
    NoSlugs(cal, s);
    hide *;
    LogStep(cal, s, Commit(i, fault), id);
    CommitLogged(cal, s, i, fault, id);
  }

  lemma SetAsks(cal: Calendar, s: Joint, i: nat, fault: bool)
    requires ProtoPart(s, Set(i, fault)).Some?
    ensures var p, t := s.proto.pending[i], Q.Run(s.pipe, PipePart(cal, s, Set(i, fault)));
            t.asked == s.pipe.asked +
              if !fault && p.copy.id in s.proto.st.rows then JobsFrom(p.copy, AlertsFor(p.base, p.req), |Log(s.proto, p.copy.id)|) else []
  {
    hide *;
    SetParts(cal, s, i, fault);
    SetIdle(s, i, fault);
    var p := s.proto.pending[i];
    var jobs := JobsFrom(p.copy, AlertsFor(p.base, p.req), |Log(s.proto, p.copy.id)|);
    var save, ask := Q.Other(SaveCheck(p.copy), fault), Q.Ask(i, jobs);
    RunTwo(s.pipe, save, ask);
    SaveStep(s.pipe, p.copy, fault);
    var t := Q.Step(s.pipe, save);
    if !fault && p.copy.id in s.proto.st.rows {
      IdleOnSenders(s.pipe, t, i);
      AskTaken(t, i, jobs);
    } else {
      assert [save] + [] == [save];
      assert s.pipe.asked + [] == s.pipe.asked;
    }
  }

  lemma SetAsked(cal: Calendar, s: Joint, i: nat, fault: bool, id: string, n: nat)
    requires Inv(cal, s.proto) && Asked(s, id, n) && ProtoPart(s, Set(i, fault)).Some?
    ensures Numbered(CallsOf(Q.Run(s.pipe, PipePart(cal, s, Set(i, fault))).asked, id), Log(Step(cal, s.proto, Commit(i, fault)), id), n)
  {
    hide Inv, ProtoPart, PipePart, Numbered, CallsOf, JobsFrom, AlertsFor, Log, Step, Q.Run;
    SetParts(cal, s, i, fault);
    SetAsks(cal, s, i, fault);
    SetLogs(cal, s.proto, i, fault, id);
    var p, log := s.proto.pending[i], Log(s.proto, id);
    var alerts := AlertsFor(p.base, p.req);
    var jobs := JobsFrom(p.copy, alerts, |Log(s.proto, p.copy.id)|);
    var calls := CallsOf(s.pipe.asked, id);
    assert calls + [] == calls && log + [] == log && s.pipe.asked + [] == s.pipe.asked;
    CallsJoin(s.pipe.asked, jobs, id);
    SetJobs(p.copy, alerts, |Log(s.proto, p.copy.id)|, id);
    if p.copy.id == id {
      JobsFromNumbered(calls, log, p.copy, alerts, n);
    }
  }

  lemma {:induction false} CallsOfDown(s: State, order: seq<string>, now: Instant, id: string)
    requires forall k :: 0 <= k < |order| ==> order[k] in s.st.cache && s.st.cache[order[k]].id == order[k]
    requires forall j, k :: 0 <= j < k < |order| ==> order[j] != order[k]
    ensures CallsOf(DownJobs(s, order, now), id) ==
            if id in order && id in s.st.cache then [Q.Job(MarkDown(s.st.cache[id], now), AlertDown, |Log(s, id)|)] else []
  {
    hide Log;
    if order != [] {
      var most, last := order[..|order| - 1], order[|order| - 1];
      assert order == most + [last] && last !in most;
      CallsOfDown(s, most, now, id);
      var jobs := DownJobs(s, order, now);
      assert jobs[..|jobs| - 1] == DownJobs(s, most, now);
      assert jobs[|jobs| - 1] == Q.Job(MarkDown(s.st.cache[last], now), AlertDown, |Log(s, last)|);
    }
  }

  lemma SweepLogs(cal: Calendar, s: State, now: Instant, faults: set<string>, order: seq<string>, id: string)
    requires Inv(cal, s) && Lists(order, Expired(s.st, now, faults))
    ensures Log(Step(cal, s, Evaluate(now, faults)), id) == Log(s, id) + if id in order then [AlertDown] else []
    ensures id in order ==> id in s.st.cache
  {
    LogStep(cal, s, Evaluate(now, faults), id);
    assert id in order <==> id in Expired(s.st, now, faults);
    hide Inv, Step, Log, Expires;
  }

  lemma SweepAsked(cal: Calendar, s: Joint, now: Instant, faults: set<string>, order: seq<string>, id: string, n: nat)
    requires Inv(cal, s.proto) && Asked(s, id, n) && ProtoPart(s, Sweep(now, faults, order)).Some?
    requires s.pipe.db.checks == s.proto.st.rows
    ensures Numbered(CallsOf(Q.Run(s.pipe, PipePart(cal, s, Sweep(now, faults, order))).asked, id),
                     Log(Step(cal, s.proto, Evaluate(now, faults)), id), n)
  {
    hide Inv, ProtoPart, PipePart, Numbered, CallsOf, Log, Step, Q.Run, Lists, Expired, DownJobs, Saves, MarkDown;
    SweepTakes(cal, s, now, faults, order);
    SweepParts(cal, s, now, faults, order);
    NoSlugs(cal, s.proto);
    ListsDistinct(order, Expired(s.proto.st, now, faults));
    SweepLogs(cal, s.proto, now, faults, order, id);
    CallsJoin(s.pipe.asked, DownJobs(s.proto, order, now), id);
    CallsOfDown(s.proto, order, now, id);
    var calls, log := CallsOf(s.pipe.asked, id), Log(s.proto, id);
    assert calls + [] == calls && log + [] == log;
    if id in order {
      NumberedMore(calls, log, [Q.Job(MarkDown(s.proto.st.cache[id], now), AlertDown, |log|)], [AlertDown], n);
    }
  }

  lemma SweepMain(s: Joint, now: Instant, faults: set<string>, order: seq<string>)
    requires ProtoPart(s, Sweep(now, faults, order)).Some?
    ensures (s.pipe.main == Q.Serving || s.pipe.main == Q.ServerDown) && Q.NoneLive(s.pipe.senders, Q.Pass) && !s.pipe.panicked
  {
    hide Q.NoneLive, Lists, Expired;
  }

  lemma SweepTakes(cal: Calendar, s: Joint, now: Instant, faults: set<string>, order: seq<string>)
    requires Inv(cal, s.proto) && ProtoPart(s, Sweep(now, faults, order)).Some? && s.pipe.db.checks == s.proto.st.rows
    ensures forall k :: 0 <= k < |order| ==> order[k] in s.proto.st.cache
    ensures Q.Run(s.pipe, PipePart(cal, s, Sweep(now, faults, order))).asked == s.pipe.asked + DownJobs(s.proto, order, now)
  {
    hide *;
    SweepParts(cal, s, now, faults, order);
    SweepMain(s, now, faults, order);
    InvCoherent(cal, s.proto);
    NoSlugs(cal, s.proto);
    ListsDistinct(order, Expired(s.proto.st, now, faults));
    var saves, begin := Saves(s.proto.st.cache, order, now), Q.BeginPass(DownJobs(s.proto, order, now));
    SavesAre(s.proto.st.cache, order, now);
    SavesRun(s.pipe, s.proto.st, order, |order|, now);
    ChecksSetIs(s.pipe, Q.Run(s.pipe, saves), SavedRows(s.proto.st, order, |order|, now));
    Q.RunOneMore(s.pipe, saves, begin);
    PassTaken(Q.Run(s.pipe, saves), DownJobs(s.proto, order, now));
  }

  lemma StepAsked(cal: Calendar, s: Joint, m: Move, id: string, n: nat)
    requires JointInv(cal, s) && Asked(s, id, n) && !m.Crash?
    ensures Asked(Next(cal, s, m), id, n)
  {
    var t := Next(cal, s, m);
    assert t.pipe == Q.Run(s.pipe, PipePart(cal, s, m));
    assert t.proto == if ProtoPart(s, m).Some? then Step(cal, s.proto, ProtoPart(s, m).value) else s.proto;
    assert Inv(cal, s.proto) && s.pipe.db.checks == s.proto.st.rows;
    PartKinds(s, m);
    if Plain(s, m) {
      PlainParts(cal, s, m);
      PlainLogs(cal, s, m, id);
      hide *;
      RunAsks(s.pipe, PipePart(cal, s, m));
      SameAsked(s, t, id, n);
    } else {
      hide Next, JointInv, Inv, ProtoPart, PipePart, Step, Q.Run, Numbered, CallsOf, Log;
      if m.Set? {
        SetAsked(cal, s, m.i, m.fault, id, n);
      } else {
        SweepAsked(cal, s, m.now, m.faults, m.order, id, n);
      }
    }
  }

  lemma SameAsked(s: Joint, t: Joint, id: string, n: nat)
    requires Asked(s, id, n) && t.pipe.asked == s.pipe.asked && Log(t.proto, id) == Log(s.proto, id)
    ensures Asked(t, id, n)
  {
  }

  lemma NothingAsked(cal: Calendar, s: Joint, id: string)
    requires Begins(cal, s)
    ensures Asked(s, id, |Log(s.proto, id)|)
  {
    hide JointInv, Sound, Log;
  }

  /** In a life the senders are asked for every call that a check's committed writes make in it, once, in order and under
      its number. */
  lemma {:induction false} AskedForCalls(cal: Calendar, s: Joint, moves: seq<Move>, id: string)
    requires Begins(cal, s) && NoCrash(moves)
    ensures Asked(From(cal, s, moves), id, |Log(s.proto, id)|)
  {
    if moves == [] {
      NothingAsked(cal, s, id);
      assert From(cal, s, moves) == s;
    } else {
      var most, m := moves[..|moves| - 1], moves[|moves| - 1];
      AlivePrefix(moves);
      AskedForCalls(cal, s, most, id);
      FromKeeps(cal, s, most);
      assert From(cal, s, moves) == Next(cal, From(cal, s, most), m);
      hide Next, From, JointInv, Asked, NoCrash, Sound, Log;
      StepAsked(cal, From(cal, s, most), m, id, |Log(s.proto, id)|);
    }
  }
}
