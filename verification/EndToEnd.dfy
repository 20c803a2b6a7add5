/** From a transition to its row: what the notifications table holds at the end of one life of the process, whatever store
    it began on. */
module EndToEnd {
  import opened Schedule
  import opened Model
  import opened Tables
  import opened Integrity
  import opened Protocol
  import opened Coherence
  import opened Reduction
  import opened Alternation
  import opened Announcements
  import opened Announced
  import opened Overtaking
  import opened Delivery
  import opened ChannelRows
  import opened Life
  import opened Calls
  import opened ChannelOrder
  import E = Entries
  import Q = Pipeline

  /** run has returned, after a graceful stop of the server. */
  predicate EndsWell(p: Q.State)
  {
    p.main == Q.Exited && !p.forced
  }

  // All rows, when nothing is dropped, deleted or faulty.

  /** The rows a life added are one for each channel of each listing, and each call of each check was listed once. */
  lemma RowsAreListings(cal: Calendar, s: Joint, moves: seq<Move>)
    requires Begins(cal, s) && CalmRun(moves)
    requires var p := From(cal, s, moves).pipe; EndsWell(p) && p.dropped == []
    ensures var p, before := From(cal, s, moves).pipe, s.pipe.db.notes;
            && before <= p.db.notes
            && multiset(Delivery.Entries(p.db.notes[|before|..])) == multiset(AllWanted(Q.Flat(p.listings)))
            && multiset(Q.JobsOf(p.listings)) == multiset(p.asked)
  {
    var p, events := From(cal, s, moves).pipe, PipeEvents(cal, s, moves);
    assert Sound(s.pipe.db) && s.pipe == Q.Init(s.pipe.db);
    assert p.main == Q.Exited && !p.forced;
    hide *;
    CalmIsAlive(moves);
    LifeRuns(cal, s, moves);
    CalmIsQuiet(cal, s, moves);
    RowsFrom(s.pipe.db, events);
  }

  lemma RowsFrom(db: Db, events: seq<Q.Event>)
    requires Sound(db) && QuietRun(Q.Init(db), events)
    requires var p := Q.Run(Q.Init(db), events); p.main == Q.Exited && !p.forced && p.dropped == []
    ensures var p := Q.Run(Q.Init(db), events);
            && db.notes <= p.db.notes
            && multiset(Delivery.Entries(p.db.notes[|db.notes|..])) == multiset(AllWanted(Q.Flat(p.listings)))
            && multiset(Q.JobsOf(p.listings)) == multiset(p.asked)
  {
    hide *;
    OneRowPerAlert(db, events);
    Q.ExitMeansAllTried(db, events);
    Q.Conservation(db, events);
  }

  // Every call is listed.

  lemma OneMore<T>(s: seq<T>, x: T, y: T)
    ensures multiset(s + [x])[y] == multiset(s)[y] + if x == y then 1 else 0
  {
  }

  lemma OneCall(j: Q.Job, id: string)
    ensures CallsOf([j], id) == (if j.check.id == id then [j] else []) && CallsOf([], id) == []
  {
    assert [j][..0] == [];
  }

  /** A job of the check is among its jobs as often as among all. */
  lemma {:induction false} CallsCount(jobs: seq<Q.Job>, id: string, j: Q.Job)
    requires j.check.id == id
    ensures multiset(CallsOf(jobs, id))[j] == multiset(jobs)[j]
  {
    hide *;
    OneCall(j, id);
    if jobs != [] {
      var most, last := jobs[..|jobs| - 1], jobs[|jobs| - 1];
      assert jobs == most + [last];
      CallsCount(most, id, j);
      CallsJoin(most, [last], id);
      OneCall(last, id);
      OneMore(most, last, j);
      OneMore(CallsOf(most, id), last, j);
      assert CallsOf(most, id) + [] == CallsOf(most, id);
    }
  }

  lemma {:induction false} OnceIn<T>(s: seq<T>, i: nat)
    requires i < |s| && forall j, k :: 0 <= j < k < |s| ==> s[j] != s[k]
    ensures multiset(s)[s[i]] == 1
  {
    var l, x, r := s[..i], s[i], s[i + 1..];
    assert s == l + [x] + r;
    assert x !in l && x !in r;
  }

  lemma NumberedOnce(jobs: seq<Q.Job>, log: seq<AlertType>, n: nat, k: nat)
    requires Numbered(jobs, log, n) && n <= k < |log|
    ensures multiset(jobs)[jobs[k - n]] == 1 && jobs[k - n].n == k && jobs[k - n].alert == log[k]
    ensures forall j :: j in jobs && j.n == k ==> j == jobs[k - n]
  {
    OnceIn(jobs, k - n);
  }

  /** The one job with that number. */
  ghost predicate OnlyListing(listed: multiset<Q.Job>, j: Q.Job, id: string, n: nat)
  {
    && listed[j] == 1 && j.check.id == id && j.n == n
    && forall k :: k in listed && k.check.id == id && k.n == n ==> k == j
  }

  /** Every call that a check's writes made in a life is listed under its number, once: whatever is dropped, deleted or
      fails. */
  lemma OneListingPerCall(cal: Calendar, s: Joint, moves: seq<Move>, id: string, k: nat) returns (j: Q.Job)
    requires Begins(cal, s) && NoCrash(moves) && EndsWell(From(cal, s, moves).pipe)
    requires |Log(s.proto, id)| <= k < |Log(From(cal, s, moves).proto, id)|
    ensures var t := From(cal, s, moves);
            OnlyListing(multiset(Q.JobsOf(t.pipe.listings)), j, id, k) && j.alert == Log(t.proto, id)[k]
  {
    var t, n := From(cal, s, moves), |Log(s.proto, id)|;
    AskedForCalls(cal, s, moves, id);
    var calls := CallsOf(t.pipe.asked, id);
    assert Numbered(calls, Log(t.proto, id), n) && n + |calls| == |Log(t.proto, id)|;
    assert s.pipe == Q.Init(s.pipe.db) && t.pipe.main == Q.Exited && !t.pipe.forced;
    LifeRuns(cal, s, moves);
    hide From, NoCrash, EndsWell, Log, CallsOf, Q.JobsOf, Numbered, Begins, Q.Run, PipeEvents;
    Q.ExitMeansAllTried(s.pipe.db, PipeEvents(cal, s, moves));
    NumberedOnce(calls, Log(t.proto, id), n, k);
    j := calls[k - n];
    assert j in calls;
    CallsCount(t.pipe.asked, id, j);
    var listed := multiset(Q.JobsOf(t.pipe.listings));
    forall i | i in listed && i.check.id == id && i.n == k ensures i == j {
      assert i in multiset(t.pipe.asked);
      assert i in t.pipe.asked && i in calls;
    }
  }

  // The rows of one check on one channel.

  lemma {:induction false} NothingLeft(senders: seq<Q.Sender>)
    requires forall i :: 0 <= i < |senders| ==> senders[i].outbox == [] && senders[i].jobs == []
    ensures AllJobs(senders) == [] && AllOutboxes(senders) == []
  {
    if senders != [] {
      var most := senders[..|senders| - 1];
      assert forall i :: 0 <= i < |most| ==> most[i] == senders[i];
      NothingLeft(most);
    }
  }

  /** After a graceful stop nothing is on its way when run returns. */
  lemma ExitIsSilent(db: Db, events: seq<Q.Event>, id: string, h: nat)
    requires EndsWell(Q.Run(Q.Init(db), events))
    ensures var p := Q.Run(Q.Init(db), events); OnTheirWay(p.senders, id, h) == [] && AllSilent(p, id)
  {
    var p := Q.Run(Q.Init(db), events);
    Q.RunInvariant(db, events);
    forall i | 0 <= i < |p.senders| ensures p.senders[i].outbox == [] && p.senders[i].jobs == [] {
      assert p.senders[i].role == Q.Handler || p.senders[i].role == Q.Pass;
    }
    hide Q.Run, Q.Conserved, Q.Ordered, AllJobs, AllOutboxes;
    NothingLeft(p.senders);
  }

  /** The life did no harm to the check's alerts on the channel: neither was deleted, every look-up for the check found the
      channel, the queue had room, and the first write of each row went through. */
  ghost predicate Favoured(cal: Calendar, s: Joint, moves: seq<Move>, id: string, h: nat)
  {
    var p := From(cal, s, moves).pipe;
    SparedLife(cal, s, moves, id, h) && AlwaysHears(p.listings, id, h) && NoneDropped(p, id, h)
  }

  lemma RowsAreAccepted(cal: Calendar, s: Joint, moves: seq<Move>, id: string, h: nat)
    requires Begins(cal, s) && Favoured(cal, s, moves, id, h) && EndsWell(From(cal, s, moves).pipe)
    ensures var p := From(cal, s, moves).pipe;
            && RowsTo(p.db.notes, id, h) == RowsTo(s.pipe.db.notes, id, h) + AlertsTo(p.accepted, id, h)
            && OnTheirWay(p.senders, id, h) == [] && AllSilent(p, id) && NoCrash(moves)
  {
    var p, events := From(cal, s, moves).pipe, PipeEvents(cal, s, moves);
    assert Sound(s.pipe.db) && s.pipe == Q.Init(s.pipe.db) && JointInv(cal, s);
    assert p.main == Q.Exited && SparedLife(cal, s, moves, id, h);
    hide *;
    SparedIsAlive(cal, s, moves, id, h);
    LifeRuns(cal, s, moves);
    LifeSpares(cal, s, moves, id, h);
    RowsAtExit(s.pipe.db, events, id, h);
    ExitIsSilent(s.pipe.db, events, id, h);
  }

  /** Each alert that the check's writes called for in the life left exactly one row on the channel, of its kind, and
      nothing else did: whatever happened to other checks and channels. */
  lemma OneRowPerCall(cal: Calendar, s: Joint, moves: seq<Move>, id: string, h: nat)
    requires Begins(cal, s) && Favoured(cal, s, moves, id, h) && EndsWell(From(cal, s, moves).pipe)
    ensures var t := From(cal, s, moves);
            multiset(RowsTo(t.pipe.db.notes, id, h)) == multiset(RowsTo(s.pipe.db.notes, id, h)) + multiset(Since(s, t, id))
  {
    RowsAreAccepted(cal, s, moves, id, h);
    var p := From(cal, s, moves).pipe;
    assert AlwaysHears(p.listings, id, h) && NoneDropped(p, id, h);
    hide *;
    CallsAccounted(cal, s, moves, id, h);
    assert multiset(OnTheirWay(p.senders, id, h)) == multiset{};
  }

  /** If moreover each transition was made when no earlier one was still to be announced, the Down and Up rows of the life
      are its transitions, in their order. */
  lemma RowsInOrder(cal: Calendar, s: Joint, moves: seq<Move>, id: string, h: nat)
    requires Begins(cal, s) && Favoured(cal, s, moves, id, h) && EndsWell(From(cal, s, moves).pipe) && Settled(cal, s, moves, id)
    ensures var t := From(cal, s, moves);
            Turns(RowsTo(t.pipe.db.notes, id, h)) == Turns(RowsTo(s.pipe.db.notes, id, h)) + Turns(Since(s, t, id))
  {
    RowsAreAccepted(cal, s, moves, id, h);
    var p := From(cal, s, moves).pipe;
    assert AlwaysHears(p.listings, id, h) && NoneDropped(p, id, h);
    hide *;
    ChannelFollows(cal, s, moves, id, h);
    Sizes(cal, s, moves, id, h);
    AllOfThem(s, From(cal, s, moves), id, h);
    TurnsAppend(RowsTo(s.pipe.db.notes, id, h), AlertsTo(p.accepted, id, h));
  }

  lemma AllOfThem(s: Joint, t: Joint, id: string, h: nat)
    requires UpToDate(s, t, id, h) && |Turns(AlertsTo(t.pipe.accepted, id, h))| == |Turns(Since(s, t, id))|
    ensures Turns(AlertsTo(t.pipe.accepted, id, h)) == Turns(Since(s, t, id))
  {
    hide Turns, AlertsTo, Since;
  }

  // Rows and state.

  lemma {:induction false} TurnsCounted(log: seq<AlertType>, a: AlertType)
    requires a != AlertFail
    ensures multiset(Turns(log))[a] == multiset(log)[a]
  {
    if log != [] {
      var most := log[..|log| - 1];
      assert log == most + [log[|log| - 1]];
      TurnsCounted(most, a);
    }
  }

  lemma AlternatingLess(turns: seq<AlertType>)
    requires Alternating(turns) && turns != []
    ensures Alternating(turns[..|turns| - 1])
    ensures turns[|turns| - 1] == if |turns| % 2 == 1 then AlertDown else AlertUp
    ensures |turns[..|turns| - 1]| % 2 == 1 - |turns| % 2
  {
    var most := turns[..|turns| - 1];
    assert forall i :: 0 <= i < |most| ==> most[i] == turns[i];
  }

  lemma {:induction false} AlternatingCounted(turns: seq<AlertType>)
    requires Alternating(turns)
    ensures multiset(turns)[AlertDown] == multiset(turns)[AlertUp] + |turns| % 2
  {
    hide *;
    if turns == [] {
      assert multiset(turns)[AlertDown] == 0 && multiset(turns)[AlertUp] == 0;
    } else {
      var most, last := turns[..|turns| - 1], turns[|turns| - 1];
      AlternatingLess(turns);
      AlternatingCounted(most);
      assert turns == most + [last];
      OneMore(most, last, AlertDown);
      OneMore(most, last, AlertUp);
    }
  }

  /** 1 if the check is effectively down. */
  function Downs(s: State, id: string): nat
  {
    if id in s.st.cache && s.st.cache[id].Effective() == Down then 1 else 0
  }

  lemma {:induction false} ConflictFreePrefix(cal: Calendar, evs: seq<Event>, n: nat)
    requires ConflictFree(cal, evs) && n <= |evs|
    ensures ConflictFree(cal, evs[..n])
    decreases |evs|
  {
    hide Run;
    if n == |evs| {
      assert evs[..n] == evs;
    } else {
      var most := evs[..|evs| - 1];
      assert most[..n] == evs[..n];
      ConflictFreePrefix(cal, most, n);
    }
  }

  lemma {:induction false} EventsPrefix(cal: Calendar, a: seq<Move>, b: seq<Move>)
    ensures ProtoEvents(cal, a) <= ProtoEvents(cal, a + b)
  {
    hide Play, Parts;
    if b == [] {
      assert a + b == a;
    } else {
      assert (a + b)[..|a + b| - 1] == a + b[..|b| - 1];
      EventsPrefix(cal, a, b[..|b| - 1]);
    }
  }

  lemma Matching(cal: Calendar, moves: seq<Move>, id: string)
    requires ConflictFree(cal, ProtoEvents(cal, moves))
    ensures TurnsMatch(Play(cal, moves).proto, id)
  {
    hide TurnsMatch, Play, ConflictFree, ProtoEvents;
    ProtoRuns(cal, moves);
    TransitionsAlternate(cal, ProtoEvents(cal, moves), id);
  }

  /** What the log says about the state of a check that exists, or has not existed yet. */
  lemma CountedState(s: State, id: string)
    requires TurnsMatch(s, id) && (id in s.st.cache || id !in s.used)
    ensures multiset(Log(s, id))[AlertDown] == multiset(Log(s, id))[AlertUp] + Downs(s, id)
  {
    var turns := Turns(Log(s, id));
    assert Alternating(turns);
    assert id in s.st.cache ==> (s.st.cache[id].Effective() == Down <==> |turns| % 2 == 1);
    assert id !in s.st.cache ==> |turns| % 2 == 0;
    AlternatingCounted(turns);
    hide Turns, Alternating, TurnsMatch;
    TurnsCounted(Log(s, id), AlertDown);
    TurnsCounted(Log(s, id), AlertUp);
  }

  lemma SinceCounted(s: Joint, t: Joint, id: string, a: AlertType)
    requires Log(s.proto, id) <= Log(t.proto, id)
    ensures multiset(Log(t.proto, id))[a] == multiset(Log(s.proto, id))[a] + multiset(Since(s, t, id))[a]
  {
    var before, after := Log(s.proto, id), Log(t.proto, id);
    assert after == before + after[|before|..];
    hide Log;
  }

  /** A check that is there after a life was there before it, or had never been. */
  lemma {:induction false} NeverReturns(cal: Calendar, s: Joint, moves: seq<Move>, id: string)
    requires JointInv(cal, s) && id in s.proto.used && id !in s.proto.st.cache
    ensures var t := From(cal, s, moves); id in t.proto.used && id !in t.proto.st.cache
  {
    if moves == [] {
      assert From(cal, s, moves) == s;
    } else {
      var most, m := moves[..|moves| - 1], moves[|moves| - 1];
      NeverReturns(cal, s, most, id);
      FromKeeps(cal, s, most);
      var t := From(cal, s, most);
      assert From(cal, s, moves) == Next(cal, t, m) && Inv(cal, t.proto);
      NextProto(cal, t, m);
      hide From, Next, JointInv, Inv, Step, ProtoPart;
      if ProtoPart(t, m).Some? {
        E.UsedGrows(cal, t.proto, ProtoPart(t, m).value);
        if id in Step(cal, t.proto, ProtoPart(t, m).value).st.cache {
          E.Appears(cal, t.proto, ProtoPart(t, m).value, id);
        }
      }
    }
  }

  lemma ConflictFreeBefore(cal: Calendar, first: seq<Move>, moves: seq<Move>)
    requires ConflictFree(cal, ProtoEvents(cal, first + moves))
    ensures ConflictFree(cal, ProtoEvents(cal, first))
  {
    hide *;
    EventsPrefix(cal, first, moves);
    var before, all := ProtoEvents(cal, first), ProtoEvents(cal, first + moves);
    assert all[..|before|] == before;
    ConflictFreePrefix(cal, all, |before|);
  }

  lemma BothCounted(s: Joint, t: Joint, id: string)
    requires TurnsMatch(s.proto, id) && TurnsMatch(t.proto, id) && Log(s.proto, id) <= Log(t.proto, id)
    requires id in t.proto.st.cache && (id in s.proto.st.cache || id !in s.proto.used)
    ensures var calls := multiset(Since(s, t, id)); calls[AlertDown] + Downs(s.proto, id) == calls[AlertUp] + Downs(t.proto, id)
  {
    hide *;
    CountedState(s.proto, id);
    CountedState(t.proto, id);
    SinceCounted(s, t, id, AlertDown);
    SinceCounted(s, t, id, AlertUp);
  }

  /** The calls of each kind in a life, and the state at its ends. */
  lemma StatesCounted(cal: Calendar, first: seq<Move>, moves: seq<Move>, id: string)
    requires JointInv(cal, Play(cal, first)) && ConflictFree(cal, ProtoEvents(cal, first + moves))
    requires id in Play(cal, first + moves).proto.st.cache
    ensures var s, t := Play(cal, first), Play(cal, first + moves);
            var calls := multiset(Since(s, t, id));
            calls[AlertDown] + Downs(s.proto, id) == calls[AlertUp] + Downs(t.proto, id)
  {
    var s, t := Play(cal, first), Play(cal, first + moves);
    hide *;
    PlayFrom(cal, first, moves);
    ConflictFreeBefore(cal, first, moves);
    Matching(cal, first, id);
    Matching(cal, first + moves, id);
    LogsGrow(cal, s, moves, id);
    if id in s.proto.used && id !in s.proto.st.cache {
      NeverReturns(cal, s, moves, id);
    }
    BothCounted(s, t, id);
  }

  /** The rows tell the state. In a run that commits no stale copy, the Down rows of a life less its Up rows are what being
      effectively down counts at its end (1 or 0) less what it counted at its beginning: from an empty store on there is
      one Down row more exactly if the check is down. */
  lemma RowsTellState(cal: Calendar, first: seq<Move>, moves: seq<Move>, id: string, h: nat)
    requires Begins(cal, Play(cal, first)) && Favoured(cal, Play(cal, first), moves, id, h)
    requires EndsWell(Play(cal, first + moves).pipe) && ConflictFree(cal, ProtoEvents(cal, first + moves))
    requires id in Play(cal, first + moves).proto.st.cache
    ensures var s, t := Play(cal, first), Play(cal, first + moves);
            var before, after := multiset(RowsTo(s.pipe.db.notes, id, h)), multiset(RowsTo(t.pipe.db.notes, id, h));
            after[AlertDown] - before[AlertDown] + Downs(s.proto, id) == after[AlertUp] - before[AlertUp] + Downs(t.proto, id)
  {
    assert JointInv(cal, Play(cal, first));
    hide *;
    PlayFrom(cal, first, moves);
    OneRowPerCall(cal, Play(cal, first), moves, id, h);
    StatesCounted(cal, first, moves, id);
  }
}
