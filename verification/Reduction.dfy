/** Interleaved runs without conflicting writes are equivalent to runs in which every request is one step. */
module Reduction {
  import opened TimeCodec
  import opened Schedule
  import opened CheckRows
  import opened Transitions
  import opened WriteThrough
  import opened Protocol
  import opened Coherence

  /** No request commits after another write to its check was committed since its Get.
      Deletes of the check, and any traffic on other checks, are allowed. */
  predicate ConflictFree(cal: Calendar, evs: seq<Event>)
  {
    evs == [] ||
    var before, e := evs[..|evs| - 1], evs[|evs| - 1];
    && ConflictFree(cal, before)
    && (e.Commit? && e.rid in Run(cal, before).pending ==> !Run(cal, before).pending[e.rid].stale)
  }

  /** The atomic counterpart of one event: a request stands at its Set, an early return at its Get. */
  function AtomicOf(cal: Calendar, s: State, e: Event): seq<Event>
  {
    match e
    case Begin(rid, req) => if rid !in s.pending && Look(cal, s, req).None? then [Atomic(req, false)] else []
    case Commit(rid, fault) => if rid in s.pending then [Atomic(s.pending[rid].req, fault)] else []
    case _ => [e]
  }

  function Atomized(cal: Calendar, evs: seq<Event>): seq<Event>
  {
    if evs == [] then [] else
    var before := evs[..|evs| - 1];
    Atomized(cal, before) + AtomicOf(cal, Run(cal, before), evs[|evs| - 1])
  }

  /** The record a private copy was made from is still the current one, unless the copy is stale or the check is gone. */
  ghost predicate Current(s: State, p: Pending)
  {
    !p.stale && p.copy.id in s.st.cache ==> s.st.cache[p.copy.id] == p.base
  }

  ghost predicate Tracked(s: State)
  {
    forall r :: r in s.pending ==> Current(s, s.pending[r])
  }

  /** The same state, disregarding private copies. */
  ghost predicate Same(s: State, t: State)
  {
    s.st == t.st && s.used == t.used && s.calls == t.calls
  }

  lemma WriteTracks(s: State, p: Pending, fault: bool)
    requires Tracked(s)
    ensures Tracked(Write(s, p, fault))
  {
    hide Updated, AlertsFor;
    var t := Write(s, p, fault);
    forall r | r in t.pending ensures Current(t, t.pending[r]) {
      assert Current(s, s.pending[r]);
    }
  }

  lemma PassTracks(s: State, now: Instant, faults: set<string>)
    requires Tracked(s)
    ensures Tracked(Pass(s, now, faults))
  {
    hide Updated, Overdue;
    var t := Pass(s, now, faults);
    forall r | r in t.pending ensures Current(t, t.pending[r]) {
      assert Current(s, s.pending[r]);
    }
  }

  lemma CreateTracks(cal: Calendar, s: State, e: Event)
    requires Inv(cal, s) && Tracked(s) && e.CreateCheck?
    ensures Tracked(Step(cal, s, e))
  {
    assert forall r :: r in s.pending ==> PendingOk(cal, s, s.pending[r]);
    if ParseCheckForm(cal, e.form).Some? {
      NewCheckWellFormed(cal, e.id, e.form, e.now);
    }
    hide RowOf, NewCheck, ParseCheckForm, Inv, WellFormed, Respond;
    var t := Step(cal, s, e);
    forall r | r in t.pending ensures Current(t, t.pending[r]) {
      assert Current(s, s.pending[r]) && PendingOk(cal, s, s.pending[r]);
    }
  }

  lemma OneMoreTracked(s: State, rid: nat, p: Pending)
    requires Tracked(s) && Current(s, p)
    ensures Tracked(s.(pending := s.pending[rid := p]))
  {
  }

  lemma BeginTracks(cal: Calendar, s: State, rid: nat, req: Request)
    requires Inv(cal, s) && Tracked(s)
    ensures Tracked(Step(cal, s, Begin(rid, req)))
  {
    hide Look, Inv, Tracked;
    var look := Look(cal, s, req);
    assert Step(cal, s, Begin(rid, req)) == if rid in s.pending || look.None? then s else s.(pending := s.pending[rid := look.value]);
    if look.Some? {
      LookCurrent(cal, s, req);
      LookOk(cal, s, req);
      hide WellFormed, Respond;
      OneMoreTracked(s, rid, look.value);
    }
  }

  lemma LookCurrent(cal: Calendar, s: State, req: Request)
    requires Look(cal, s, req).Some?
    ensures req.id in s.st.cache && Look(cal, s, req).value.base == s.st.cache[req.id] && Look(cal, s, req).value.req == req
  {
    hide Respond;
  }

  lemma StepTracks(cal: Calendar, s: State, e: Event)
    requires Inv(cal, s) && Tracked(s)
    ensures Tracked(Step(cal, s, e))
  {
    hide Inv, Tracked, Write, Pass, Look, NewCheck, ParseCheckForm, Hydrate;
    match e
    case Begin(rid, req) => BeginTracks(cal, s, rid, req);
    case Commit(rid, fault) =>
      if rid in s.pending {
        FewerTracked(s, s.pending - {rid});
        WriteTracks(s.(pending := s.pending - {rid}), s.pending[rid], fault);
      }
    case Atomic(req, fault) =>
      if Look(cal, s, req).Some? {
        WriteTracks(s, Look(cal, s, req).value, fault);
      }
    case CreateCheck(_, _, _, _) => CreateTracks(cal, s, e);
    case DeleteCheck(id, fault) => DeleteTracks(s, id, fault);
    case Evaluate(now, faults) => PassTracks(s, now, faults);
    case Restart => FewerTracked(Step(cal, s, e), map[]);
  }

  lemma FewerTracked(s: State, pending: map<nat, Pending>)
    requires Tracked(s) || pending == map[]
    requires pending.Keys <= s.pending.Keys && forall r :: r in pending ==> pending[r] == s.pending[r]
    ensures Tracked(s.(pending := pending))
  {
  }

  lemma DeleteTracks(s: State, id: string, fault: bool)
    requires Tracked(s)
    ensures Tracked(s.(st := Delete(s.st, id, fault).0))
  {
  }

  /** A non-stale commit does what the request would do in one step at that moment. */
  lemma CommitIsAtomic(cal: Calendar, s: State, t: State, rid: nat, fault: bool)
    requires Inv(cal, s) && Tracked(s) && Same(s, t) && t.pending == map[]
    requires rid in s.pending && !s.pending[rid].stale
    ensures var u := Step(cal, t, Atomic(s.pending[rid].req, fault));
            Same(Step(cal, s, Commit(rid, fault)), u) && u.pending == map[]
  {
    hide RowOf, Updated, AlertsFor, Scan, Respond, WellFormed;
    var p := s.pending[rid];
    assert Current(s, p) && PendingOk(cal, s, p);
  }

  lemma OtherStepIsSame(cal: Calendar, s: State, t: State, e: Event)
    requires Same(s, t) && t.pending == map[] && !e.Begin? && !e.Commit?
    ensures var u := Step(cal, t, e); Same(Step(cal, s, e), u) && u.pending == map[]
  {
    hide RowOf, Updated, AlertsFor, Scan, Respond, NewCheck, ParseCheckForm, Hydrate, Set, Create, Delete, Tick, Expired;
  }

  lemma {:induction false} RunTracked(cal: Calendar, evs: seq<Event>)
    ensures Tracked(Run(cal, evs))
  {
    if evs != [] {
      RunTracked(cal, evs[..|evs| - 1]);
      RunInv(cal, evs[..|evs| - 1]);
      hide Step, Inv;
      StepTracks(cal, Run(cal, evs[..|evs| - 1]), evs[|evs| - 1]);
    }
  }

  lemma RunEmpty(cal: Calendar)
    ensures Run(cal, []) == Init
  {
  }

  lemma RunOne(cal: Calendar, evs: seq<Event>, e: Event)
    ensures Run(cal, evs + [e]) == Step(cal, Run(cal, evs), e)
  {
    assert (evs + [e])[..|evs|] == evs;
  }

  lemma AtomizedOne(cal: Calendar, s: State, e: Event)
    ensures IsAtomic(AtomicOf(cal, s, e))
  {
    hide Look;
  }

  lemma {:induction false} AtomizedIsAtomic(cal: Calendar, evs: seq<Event>)
    ensures IsAtomic(Atomized(cal, evs))
  {
    hide Run, AtomicOf;
    if evs != [] {
      var before := evs[..|evs| - 1];
      AtomizedIsAtomic(cal, before);
      AtomizedOne(cal, Run(cal, before), evs[|evs| - 1]);
    }
  }

  lemma AtomizedLast(cal: Calendar, evs: seq<Event>)
    requires evs != []
    ensures var before, e := evs[..|evs| - 1], evs[|evs| - 1];
            && Run(cal, evs) == Step(cal, Run(cal, before), e)
            && Atomized(cal, evs) == Atomized(cal, before) + AtomicOf(cal, Run(cal, before), e)
  {
    hide Step, AtomicOf;
  }

  /** Reduction: a conflict-free interleaved run ends with the same cache, table and transition log as the atomic run
      that places each request at its Set. */
  lemma {:induction false} Reduces(cal: Calendar, evs: seq<Event>)
    requires ConflictFree(cal, evs)
    ensures IsAtomic(Atomized(cal, evs))
    ensures var t := Run(cal, Atomized(cal, evs)); Same(Run(cal, evs), t) && t.pending == map[]
  {
    hide *;
    AtomizedIsAtomic(cal, evs);
    if evs == [] {
      EmptyReduces(cal);
    } else {
      var before, e := evs[..|evs| - 1], evs[|evs| - 1];
      LastCommit(cal, evs);
      Reduces(cal, before);
      RunInv(cal, before);
      RunTracked(cal, before);
      AtomizedLast(cal, evs);
      ReducesOne(cal, Run(cal, before), Atomized(cal, before), e);
    }
  }

  lemma EmptyReduces(cal: Calendar)
    ensures Atomized(cal, []) == [] && Same(Run(cal, []), Run(cal, [])) && Run(cal, []).pending == map[]
  {
  }

  lemma LastCommit(cal: Calendar, evs: seq<Event>)
    requires evs != [] && ConflictFree(cal, evs)
    ensures ConflictFree(cal, evs[..|evs| - 1])
    ensures var s, e := Run(cal, evs[..|evs| - 1]), evs[|evs| - 1];
            e.Commit? && e.rid in s.pending ==> !s.pending[e.rid].stale
  {
    hide Step;
  }

  lemma ReducesOne(cal: Calendar, s: State, atomic: seq<Event>, e: Event)
    requires Inv(cal, s) && Tracked(s) && Same(s, Run(cal, atomic)) && Run(cal, atomic).pending == map[]
    requires e.Commit? && e.rid in s.pending ==> !s.pending[e.rid].stale
    ensures var t := Run(cal, atomic + AtomicOf(cal, s, e)); Same(Step(cal, s, e), t) && t.pending == map[]
  {
    var t := Run(cal, atomic);
    assert atomic + [] == atomic;
    hide Inv, Tracked, Run, Write, Pass, Create, Delete, Hydrate, Respond;
    if e.Begin? {
      if e.rid !in s.pending && Look(cal, s, e.req).None? {
        RunOne(cal, atomic, Atomic(e.req, false));
      }
    } else if e.Commit? {
      if e.rid in s.pending {
        CommitIsAtomic(cal, s, t, e.rid, e.fault);
        RunOne(cal, atomic, Atomic(s.pending[e.rid].req, e.fault));
      }
    } else {
      OtherStepIsSame(cal, s, t, e);
      RunOne(cal, atomic, e);
    }
  }

  /** Conversely, a request in one step is its Get directly followed by its Set. */
  lemma AtomicIsBeginCommit(cal: Calendar, s: State, rid: nat, req: Request, fault: bool)
    requires rid !in s.pending
    ensures Steps(cal, s, [Begin(rid, req), Commit(rid, fault)]) == Step(cal, s, Atomic(req, fault))
  {
    var evs := [Begin(rid, req), Commit(rid, fault)];
    assert evs[..1] == [Begin(rid, req)];
    assert [Begin(rid, req)][..0] == [];
    assert Steps(cal, s, evs[..1]) == Step(cal, s, Begin(rid, req));
    hide Write, Look;
    if Look(cal, s, req).Some? {
      assert s.pending[rid := Look(cal, s, req).value] - {rid} == s.pending;
    }
  }
}
