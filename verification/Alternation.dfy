/** When the transitions of a check alternate: exactly when no commit disagrees with the entry about being Down. */
module Alternation {
  import opened Text
  import opened TimeCodec
  import opened Schedule
  import opened Model
  import opened CheckRows
  import opened Transitions
  import opened WriteThrough
  import opened Protocol
  import opened Coherence
  import opened Reduction
  import opened Entries
  import opened StatusHistory

  /** The transitions among a check's calls: fail alerts left out. */
  function Turns(log: seq<AlertType>): seq<AlertType>
  {
    if log == [] then []
    else Turns(log[..|log| - 1]) + if log[|log| - 1] == AlertFail then [] else [log[|log| - 1]]
  }

  predicate Alternating(turns: seq<AlertType>)
  {
    forall i :: 0 <= i < |turns| ==> turns[i] == if i % 2 == 0 then AlertDown else AlertUp
  }

  lemma {:induction false} TurnsAppend(a: seq<AlertType>, b: seq<AlertType>)
    ensures Turns(a + b) == Turns(a) + Turns(b)
  {
    if b == [] {
      assert a + b == a;
    } else {
      TurnsAppend(a, b[..|b| - 1]);
      assert (a + b)[..|a + b| - 1] == a + b[..|b| - 1];
    }
  }

  /** The transitions of a check alternate, from Down on, and the last one is what its entry shows. */
  ghost predicate TurnsMatch(s: State, id: string)
  {
    var turns := Turns(Log(s, id));
    && Alternating(turns)
    && (id in s.st.cache ==> (s.st.cache[id].Effective() == Down <==> |turns| % 2 == 1))
    && (id !in s.used ==> turns == [])
  }

  /** A commit comes from a record that was effectively Down exactly if the entry is effectively Down now. */
  predicate KeepsDown(cal: Calendar, s: State, e: Event, id: string)
  {
    var w := Writing(cal, s, e, id);
    w.Some? ==> (w.value.base.Effective() == Down <==> s.st.cache[id].Effective() == Down)
  }

  /** What one step adds to the log of a check. */
  function Logged(cal: Calendar, s: State, e: Event, id: string): seq<AlertType>
  {
    var w := Writing(cal, s, e, id);
    if w.Some? then AlertsFor(w.value.base, w.value.req)
    else if e.Evaluate? && Expires(s.st, id, e.now, e.faults) then [AlertDown]
    else []
  }

  lemma WriteLog(s: State, p: Pending, fault: bool, id: string)
    requires Coherent(s.st)
    ensures Log(Write(s, p, fault), id) ==
            Log(s, id) + if !fault && p.copy.id == id && id in s.st.cache then AlertsFor(p.base, p.req) else []
  {
    hide RowOf, Updated, AlertsFor, MarkStale;
    assert Log(s, id) + [] == Log(s, id);
  }

  lemma PassLog(s: State, now: Instant, faults: set<string>, id: string)
    ensures Log(Pass(s, now, faults), id) == Log(s, id) + if Expires(s.st, id, now, faults) then [AlertDown] else []
  {
    hide Updated, MarkStale, Tick, Overdue;
    assert Log(s, id) + [] == Log(s, id);
  }

  /** The other events log nothing. */
  lemma QuietLog(cal: Calendar, s: State, e: Event, id: string)
    requires !e.Commit? && !e.Atomic? && !e.Evaluate?
    ensures Log(Step(cal, s, e), id) == Log(s, id) + []
  {
    hide Look, NewCheck, ParseCheckForm, Hydrate, Create, Delete;
  }

  lemma InvIds(cal: Calendar, s: State)
    requires Inv(cal, s)
    ensures Coherent(s.st) && forall r :: r in s.pending ==> s.pending[r].copy.id == s.pending[r].req.id
  {
    hide Coherent, WellFormed, Respond;
  }

  lemma CommitLogged(cal: Calendar, s: State, rid: nat, fault: bool, id: string)
    requires rid in s.pending
    ensures var p := s.pending[rid];
            Logged(cal, s, Commit(rid, fault), id) == if !fault && p.copy.id == id && id in s.st.cache then AlertsFor(p.base, p.req) else []
  {
    hide AlertsFor;
  }

  lemma CommitLog(cal: Calendar, s: State, rid: nat, fault: bool, id: string)
    requires Inv(cal, s)
    ensures Log(Step(cal, s, Commit(rid, fault)), id) == Log(s, id) + Logged(cal, s, Commit(rid, fault), id)
  {
    hide Inv, Logged, Write, AlertsFor;
    if rid in s.pending {
      var p, u := s.pending[rid], s.(pending := s.pending - {rid});
      assert Log(u, id) == Log(s, id) && Step(cal, s, Commit(rid, fault)) == Write(u, p, fault);
      hide *;
      InvIds(cal, s);
      CommitLogged(cal, s, rid, fault, id);
      WriteLog(u, p, fault, id);
    } else {
      assert Logged(cal, s, Commit(rid, fault), id) == [] by {
        Unlogged(cal, s, rid, fault, id);
      }
      assert Log(s, id) + [] == Log(s, id);
    }
  }

  lemma Unlogged(cal: Calendar, s: State, rid: nat, fault: bool, id: string)
    requires rid !in s.pending
    ensures Logged(cal, s, Commit(rid, fault), id) == []
  {
  }

  lemma AtomicLogged(cal: Calendar, s: State, req: Request, fault: bool, id: string)
    requires Look(cal, s, req).Some? ==> req.id in s.st.cache && Look(cal, s, req).value.copy.id == req.id
    ensures var look := Look(cal, s, req);
            Logged(cal, s, Atomic(req, fault), id) ==
            if look.Some? && !fault && look.value.copy.id == id then AlertsFor(look.value.base, look.value.req) else []
  {
    hide Look, AlertsFor;
  }

  lemma AtomicLog(cal: Calendar, s: State, req: Request, fault: bool, id: string)
    requires Inv(cal, s)
    ensures Log(Step(cal, s, Atomic(req, fault)), id) == Log(s, id) + Logged(cal, s, Atomic(req, fault), id)
  {
    hide Look, Write, Coherent, Inv, Logged;
    var look := Look(cal, s, req);
    assert Step(cal, s, Atomic(req, fault)) == if look.Some? then Write(s, look.value, fault) else s;
    hide *;
    InvIds(cal, s);
    if look.Some? {
      LookedAt(cal, s, req);
    }
    AtomicLogged(cal, s, req, fault, id);
    if look.Some? {
      WriteLog(s, look.value, fault, id);
    } else {
      assert Log(s, id) + [] == Log(s, id);
    }
  }

  lemma LogStep(cal: Calendar, s: State, e: Event, id: string)
    requires Inv(cal, s)
    ensures Log(Step(cal, s, e), id) == Log(s, id) + Logged(cal, s, e, id)
  {
    hide Inv, Pass, Look, Hydrate, Write, Expires, AlertsFor, Log;
    match e
    case Commit(rid, fault) => CommitLog(cal, s, rid, fault, id);
    case Atomic(req, fault) => AtomicLog(cal, s, req, fault, id);
    case Evaluate(now, faults) => PassLog(s, now, faults, id);
    case _ => QuietLog(cal, s, e, id);
  }

  lemma LookedAt(cal: Calendar, s: State, req: Request)
    requires Coherent(s.st) && Look(cal, s, req).Some?
    ensures req.id in s.st.cache && Look(cal, s, req).value.copy.id == req.id
  {
    hide RowOf, NextExpectedAt, ParseCheckForm;
  }

  lemma TurnsOfOne(a: AlertType)
    ensures Turns([a]) == if a == AlertFail then [] else [a]
  {
    assert [a][..0] == [];
  }

  lemma TurnsOfRequest(c: Check, r: Request)
    ensures Turns(AlertsFor(c, r)) == if r.Ping? && r.kind != Start && c.status == Down then [AlertUp] else []
  {
    TurnsOfNone();
    TurnsOfOne(AlertUp);
    TurnsOfOne(AlertFail);
    var a: seq<AlertType> := if c.status == Down then [AlertUp] else [];
    var b: seq<AlertType> := if r.Ping? && r.kind == Fail && c.notifyOnFail then [AlertFail] else [];
    assert AlertsFor(c, r) == if r.Ping? && r.kind != Start then a + b else [];
    hide Turns, AlertsFor;
    TurnsAppend(a, b);
  }

  lemma TurnsOfNone()
    ensures Turns([]) == [] && Turns([AlertDown]) == [AlertDown]
  {
  }

  /** What a step adds to the transitions of a check. */
  lemma Turned(cal: Calendar, s: State, e: Event, id: string)
    requires Inv(cal, s)
    ensures Turns(Log(Step(cal, s, e), id)) == Turns(Log(s, id)) + Turns(Logged(cal, s, e, id))
    ensures Turns(Logged(cal, s, e, id)) ==
            if Completes(cal, s, e, id) && Writing(cal, s, e, id).value.base.status == Down then [AlertUp]
            else if e.Evaluate? && Expires(s.st, id, e.now, e.faults) then [AlertDown]
            else []
  {
    hide Inv, Step, Log, Turns, AlertsFor, Look, Expires;
    LogStep(cal, s, e, id);
    TurnsAppend(Log(s, id), Logged(cal, s, e, id));
    TurnsOfNone();
    var w := Writing(cal, s, e, id);
    if w.Some? {
      TurnsOfRequest(w.value.base, w.value.req);
    }
  }

  lemma ExpiresIsMiss(cal: Calendar, s: State, e: Event, id: string)
    requires Inv(cal, s) && e.Evaluate?
    ensures Expires(s.st, id, e.now, e.faults) <==> Misses(s, e, id) && s.st.cache[id].Effective() == Up
  {
    hide RowOf, PendingOk;
    if id in s.st.cache {
      EntryStatuses(cal, s, id);
    }
    hide WellFormed;
  }

  lemma CompletedBase(cal: Calendar, s: State, e: Event, id: string)
    requires Inv(cal, s) && Completes(cal, s, e, id)
    ensures var b := Writing(cal, s, e, id).value.base; b.Effective() == Down <==> b.status == Down
  {
    WritingOk(cal, s, e, id);
    hide Inv, Writing, NextExpectedAt, WellFormed;
  }

  lemma AlternatingMore(turns: seq<AlertType>, last: AlertType)
    requires Alternating(turns)
    ensures Alternating(turns + [last]) <==> last == if |turns| % 2 == 0 then AlertDown else AlertUp
    ensures |turns + [last]| % 2 != |turns| % 2
  {
    var more := turns + [last];
    assert more[|turns|] == last;
    if last == (if |turns| % 2 == 0 then AlertDown else AlertUp) {
      forall i | 0 <= i < |more| ensures more[i] == if i % 2 == 0 then AlertDown else AlertUp {
        assert i < |turns| ==> more[i] == turns[i];
      }
    }
  }

  /** One step keeps the alternation exactly if what it writes agrees with the entry on being effectively Down. */
  lemma AlternatesStep(cal: Calendar, s: State, e: Event, id: string)
    requires Inv(cal, s) && TurnsMatch(s, id)
    ensures TurnsMatch(Step(cal, s, e), id) <==> KeepsDown(cal, s, e, id)
  {
    hide Step, Log, Inv, Turns, Writing, Expires, Logged, Alternating;
    var t, turns := Step(cal, s, e), Turns(Log(s, id));
    Turned(cal, s, e, id);
    UsedGrows(cal, s, e);
    NoWrite(cal, s, e, id);
    AlternatingMore(turns, AlertDown);
    AlternatingMore(turns, AlertUp);
    assert turns + [] == turns;
    WrittenIsNoPass(cal, s, e, id);
    if e.Evaluate? {
      ExpiresIsMiss(cal, s, e, id);
    }
    if id in s.st.cache {
      EntryStatuses(cal, s, id);
      if Completes(cal, s, e, id) {
        CompletedBase(cal, s, e, id);
      }
      if id in t.st.cache {
        EffectiveStep(cal, s, e, id);
      } else {
        EntryStep(cal, s, e, id);
      }
    } else if id in t.st.cache {
      Appears(cal, s, e, id);
    }
  }

  /** The transitions match after every event. */
  ghost predicate AlwaysMatch(cal: Calendar, evs: seq<Event>, id: string)
  {
    TurnsMatch(Run(cal, evs), id) && (evs != [] ==> AlwaysMatch(cal, evs[..|evs| - 1], id))
  }

  predicate AllKeepDown(cal: Calendar, evs: seq<Event>, id: string)
  {
    evs != [] ==>
      var p, e := evs[..|evs| - 1], evs[|evs| - 1];
      AllKeepDown(cal, p, id) && KeepsDown(cal, Run(cal, p), e, id)
  }

  /** The transitions of a check alternate after every event of an interleaved run, through pauses, edits, failures and
      restarts, exactly if every commit comes from a record that agrees with the entry, at the moment of the commit, on
      being effectively Down. */
  lemma {:induction false} TransitionsAlternateExactly(cal: Calendar, evs: seq<Event>, id: string)
    ensures AlwaysMatch(cal, evs, id) <==> AllKeepDown(cal, evs, id)
  {
    hide Run, Step, Inv, TurnsMatch, KeepsDown;
    if evs == [] {
      NoTurns(cal, id);
    } else {
      var p := evs[..|evs| - 1];
      TransitionsAlternateExactly(cal, p, id);
      if AlwaysMatch(cal, p, id) {
        RunInv(cal, p);
        RunLast(cal, evs);
        AlternatesStep(cal, Run(cal, p), evs[|p|], id);
      }
    }
  }

  lemma NoTurns(cal: Calendar, id: string)
    ensures TurnsMatch(Run(cal, []), id)
  {
  }

  lemma {:induction false} ConflictFreeKeepsDown(cal: Calendar, evs: seq<Event>, id: string)
    requires ConflictFree(cal, evs)
    ensures AllKeepDown(cal, evs, id)
  {
    if evs != [] {
      FreshLast(cal, evs, id);
      hide Run, Writing, ConflictFree;
      ConflictFreeKeepsDown(cal, evs[..|evs| - 1], id);
    }
  }

  /** Conflict-free runs, and with them runs in which every request is one step, meet the condition. */
  lemma TransitionsAlternate(cal: Calendar, evs: seq<Event>, id: string)
    requires IsAtomic(evs) || ConflictFree(cal, evs)
    ensures TurnsMatch(Run(cal, evs), id)
  {
    if IsAtomic(evs) {
      AtomicIsConflictFree(cal, evs);
    }
    hide TurnsMatch, Run, ConflictFree;
    ConflictFreeKeepsDown(cal, evs, id);
    TransitionsAlternateExactly(cal, evs, id);
  }

  /** The log is what its name says: a step that meets the condition calls for Down exactly if it takes the check's
      effective status to Down, and for Up exactly if it takes it from Down. */
  lemma CallsAreTransitions(cal: Calendar, s: State, e: Event, id: string)
    requires Inv(cal, s) && id in s.st.cache && id in Step(cal, s, e).st.cache && KeepsDown(cal, s, e, id)
    ensures var c, d := s.st.cache[id], Step(cal, s, e).st.cache[id];
            && (Turns(Logged(cal, s, e, id)) == [AlertDown] <==> c.Effective() != Down && d.Effective() == Down)
            && (Turns(Logged(cal, s, e, id)) == [AlertUp] <==> c.Effective() == Down && d.Effective() != Down)
  {
    hide Step, Log, Inv, Turns, Writing, Expires, Logged;
    Turned(cal, s, e, id);
    WrittenIsNoPass(cal, s, e, id);
    if e.Evaluate? {
      ExpiresIsMiss(cal, s, e, id);
    }
    EntryStatuses(cal, s, id);
    EffectiveStep(cal, s, e, id);
    if Completes(cal, s, e, id) {
      CompletedBase(cal, s, e, id);
    }
  }

  /** A record with a given status and deadline, pinged at a given time. */
  ghost predicate Reads(c: Check, id: string, f: Settings, status: Status, at: Instant, due: Instant)
  {
    && c.id == id && c.status == status && c.lastPingAt == Some(at) && c.nextExpectedAt == Some(due)
    && c.schedule == f.schedule && c.grace == f.grace
  }

  ghost predicate Looks(s: State, id: string, f: Settings, status: Status, at: Instant, due: Instant, log: seq<AlertType>)
  {
    id in s.st.cache && id in s.st.rows && Log(s, id) == log && Reads(s.st.cache[id], id, f, status, at, due)
  }

  lemma CreatedAndPinged(cal: Calendar, id: string, form: Form, f: Settings, at: Instant, due: Instant)
    requires ParseCheckForm(cal, form) == Some(f) && NextExpectedAt(cal, f.schedule, f.grace, at) == Some(due)
    ensures var s := Step(cal, Step(cal, Init, CreateCheck(id, form, at, false)), Atomic(Ping(id, Success, at), false));
            Looks(s, id, f, Up, at, due, []) && s.pending == map[]
  {
    hide RowOf, Updated, NextExpectedAt, ParseCheckForm;
    var s1 := Step(cal, Init, CreateCheck(id, form, at, false));
    assert id in s1.st.cache && id in s1.st.rows && s1.pending == map[] && Log(s1, id) == [];
    assert s1.st.cache[id] == NewCheck(cal, id, f, at).value;
  }

  lemma EditBegun(cal: Calendar, s: State, id: string, form: Form, f: Settings, at: Instant, due: Instant)
    requires ParseCheckForm(cal, form) == Some(f) && NextExpectedAt(cal, f.schedule, f.grace, at) == Some(due)
    requires Looks(s, id, f, Up, at, due, []) && s.pending == map[]
    ensures var t := Step(cal, s, Begin(0, Edit(id, form, at)));
            && Looks(t, id, f, Up, at, due, []) && 0 in t.pending
            && t.pending[0].req.Edit? && Reads(t.pending[0].copy, id, f, Up, at, due)
  {
    hide RowOf, Updated, NextExpectedAt, ParseCheckForm;
  }

  lemma TakenDown(cal: Calendar, s: State, id: string, f: Settings, at: Instant, due: Instant, log: seq<AlertType>, now: Instant)
    requires Looks(s, id, f, Up, at, due, log) && now > due
    ensures var t := Step(cal, s, Evaluate(now, {}));
            && Looks(t, id, f, Down, at, due, log + [AlertDown])
            && forall r :: r in s.pending && s.pending[r].copy.id == id ==>
                 r in t.pending && t.pending[r] == s.pending[r].(stale := true)
  {
    hide RowOf, Updated;
  }

  lemma StaleCommitted(cal: Calendar, s: State, id: string, f: Settings, at: Instant, due: Instant)
    requires Looks(s, id, f, Down, at, due, [AlertDown]) && 0 in s.pending
    requires s.pending[0].req.Edit? && Reads(s.pending[0].copy, id, f, Up, at, due)
    ensures Looks(Step(cal, s, Commit(0, false)), id, f, Up, at, due, [AlertDown])
  {
    hide RowOf, Updated;
  }

  lemma LooksLog(s: State, id: string, f: Settings, status: Status, at: Instant, due: Instant, log: seq<AlertType>)
    requires Looks(s, id, f, status, at, due, log)
    ensures Log(s, id) == log
  {
  }

  lemma OutageTwice(cal: Calendar, s: State, id: string, form: Form, f: Settings, at: Instant, due: Instant, first: Instant, second: Instant)
    requires ParseCheckForm(cal, form) == Some(f) && NextExpectedAt(cal, f.schedule, f.grace, at) == Some(due)
    requires Looks(s, id, f, Up, at, due, []) && s.pending == map[] && due < first && due < second
    ensures var s4 := Step(cal, Step(cal, s, Begin(0, Edit(id, form, at))), Evaluate(first, {}));
            && 0 in s4.pending && s4.pending[0].stale
            && Log(Step(cal, Step(cal, s4, Commit(0, false)), Evaluate(second, {})), id) == [AlertDown, AlertDown]
  {
    hide Step, NextExpectedAt, ParseCheckForm, Lawful, Looks, Log;
    var s3 := Step(cal, s, Begin(0, Edit(id, form, at)));
    EditBegun(cal, s, id, form, f, at, due);
    var s4 := Step(cal, s3, Evaluate(first, {}));
    TakenDown(cal, s3, id, f, at, due, [], first);
    assert [] + [AlertDown] == [AlertDown];
    var s5 := Step(cal, s4, Commit(0, false));
    StaleCommitted(cal, s4, id, f, at, due);
    var s6 := Step(cal, s5, Evaluate(second, {}));
    TakenDown(cal, s5, id, f, at, due, [AlertDown], second);
    assert [AlertDown] + [AlertDown] == [AlertDown, AlertDown];
    LooksLog(s6, id, f, Down, at, due, [AlertDown, AlertDown]);
  }

  lemma StaleRun(cal: Calendar, id: string, form: Form, f: Settings, at: Instant, due: Instant, first: Instant, second: Instant)
    requires ParseCheckForm(cal, form) == Some(f) && NextExpectedAt(cal, f.schedule, f.grace, at) == Some(due) && due < first && due < second
    ensures var most := [CreateCheck(id, form, at, false)] + [Atomic(Ping(id, Success, at), false)] + [Begin(0, Edit(id, form, at))]
                        + [Evaluate(first, {})];
            && 0 in Run(cal, most).pending && Run(cal, most).pending[0].stale
            && Log(Run(cal, most + [Commit(0, false)] + [Evaluate(second, {})]), id) == [AlertDown, AlertDown]
  {
    hide Step, NextExpectedAt, ParseCheckForm, Run, Looks, Log, Lawful;
    var made, pinged := CreateCheck(id, form, at, false), Atomic(Ping(id, Success, at), false);
    CreatedAndPinged(cal, id, form, f, at, due);
    RunEmpty(cal);
    RunOne(cal, [], made);
    assert [] + [made] == [made];
    RunOne(cal, [made], pinged);
    OutageTwice(cal, Run(cal, [made] + [pinged]), id, form, f, at, due, first, second);
    var evs := [made] + [pinged];
    RunOne(cal, evs, Begin(0, Edit(id, form, at)));
    evs := evs + [Begin(0, Edit(id, form, at))];
    RunOne(cal, evs, Evaluate(first, {}));
    evs := evs + [Evaluate(first, {})];
    RunOne(cal, evs, Commit(0, false));
    RunOne(cal, evs + [Commit(0, false)], Evaluate(second, {}));
  }

  /** The condition at work, at any clock reading: an edit that straddles an evaluation undoes the Down transition, and
      the next pass makes it again. */
  lemma StaleCommitRepeatsDown(cal: Calendar, id: string, form: Form, at: Instant, first: Instant, second: Instant) returns (evs: seq<Event>)
    requires ParseCheckForm(cal, form).Some?
    requires var f := ParseCheckForm(cal, form).value;
             NextExpectedAt(cal, f.schedule, f.grace, at).value < first < second
    ensures evs == [CreateCheck(id, form, at, false)] + [Atomic(Ping(id, Success, at), false)] + [Begin(0, Edit(id, form, at))]
                   + [Evaluate(first, {})] + [Commit(0, false)] + [Evaluate(second, {})]
    ensures !ConflictFree(cal, evs)
    ensures Turns(Log(Run(cal, evs), id)) == [AlertDown, AlertDown]
  {
    var f := ParseCheckForm(cal, form).value;
    var due := NextExpectedAt(cal, f.schedule, f.grace, at).value;
    hide *;
    StaleRun(cal, id, form, f, at, due, first, second);
    var most := [CreateCheck(id, form, at, false)] + [Atomic(Ping(id, Success, at), false)] + [Begin(0, Edit(id, form, at))]
                + [Evaluate(first, {})];
    evs := most + [Commit(0, false)] + [Evaluate(second, {})];
    StaleIsConflict(cal, most, 0, Evaluate(second, {}));
    TwoDowns();
  }

  lemma TwoDowns()
    ensures Turns([AlertDown, AlertDown]) == [AlertDown, AlertDown]
  {
    assert [AlertDown, AlertDown] == [AlertDown] + [AlertDown];
    TurnsAppend([AlertDown], [AlertDown]);
    assert Turns([AlertDown]) == [AlertDown];
  }

  lemma StaleIsConflict(cal: Calendar, evs: seq<Event>, rid: nat, last: Event)
    requires rid in Run(cal, evs).pending && Run(cal, evs).pending[rid].stale
    ensures !ConflictFree(cal, evs + [Commit(rid, false)] + [last])
  {
    hide Run;
    var most := evs + [Commit(rid, false)];
    assert (most + [last])[..|most|] == most;
    assert most[..|evs|] == evs;
  }
}
