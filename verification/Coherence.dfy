/** What every interleaved run keeps: cache and table agree, records are well formed, deleted checks stay deleted. */
module Coherence {
  import opened Text
  import opened TimeCodec
  import opened Schedule
  import opened Model
  import opened CheckRows
  import opened Transitions
  import opened WriteThrough
  import opened Protocol

  /** A private copy is the answer to its request from a well-formed record, belongs to a generated id, and still has
      the creation time of its check. */
  ghost predicate PendingOk(cal: Calendar, s: State, p: Pending)
  {
    && p.copy.id == p.base.id == p.req.id
    && p.copy.id in s.used
    && WellFormed(cal, p.base) && Respond(cal, p.base, p.req) == Some(p.copy)
    && WellFormed(cal, p.copy)
    && (p.copy.id in s.st.cache ==> p.copy.createdAt == s.st.cache[p.copy.id].createdAt)
  }

  ghost predicate Inv(cal: Calendar, s: State)
  {
    && Coherent(s.st)
    && s.st.cache.Keys <= s.used
    && (forall id :: id in s.st.cache ==> WellFormed(cal, s.st.cache[id]))
    && (forall r :: r in s.pending ==> PendingOk(cal, s, s.pending[r]))
  }

  lemma WriteKeeps(cal: Calendar, s: State, p: Pending, fault: bool)
    requires Inv(cal, s) && PendingOk(cal, s, p)
    ensures Inv(cal, Write(s, p, fault))
  {
    hide RowOf, Updated, WellFormed, Respond;
    SetCoherent(s.st, p.copy, fault);
    var t := Write(s, p, fault);
    forall r | r in t.pending
      ensures PendingOk(cal, t, t.pending[r])
    {
      assert PendingOk(cal, s, s.pending[r]);
    }
  }

  lemma PassKeeps(cal: Calendar, s: State, now: Instant, faults: set<string>)
    requires Inv(cal, s)
    ensures Inv(cal, Pass(s, now, faults))
  {
    hide RowOf, Updated, Respond;
    TickCoherent(s.st, now, faults);
    var t := Pass(s, now, faults);
    forall r | r in t.pending
      ensures PendingOk(cal, t, t.pending[r])
    {
      assert PendingOk(cal, s, s.pending[r]);
    }
  }

  lemma CreateKeeps(cal: Calendar, s: State, c: Check, fault: bool)
    requires Inv(cal, s) && c.id !in s.used && WellFormed(cal, c)
    ensures Inv(cal, s.(st := Create(s.st, c, fault).0, used := s.used + {c.id}))
  {
    hide RowOf, WellFormed, Updated, Respond;
    var t := s.(st := Create(s.st, c, fault).0, used := s.used + {c.id});
    forall r | r in t.pending
      ensures PendingOk(cal, t, t.pending[r])
    {
      assert PendingOk(cal, s, s.pending[r]);
    }
  }

  lemma DeleteKeeps(cal: Calendar, s: State, id: string, fault: bool)
    requires Inv(cal, s)
    ensures Inv(cal, s.(st := Delete(s.st, id, fault).0))
  {
    hide RowOf, WellFormed, Updated, Respond;
    var t := s.(st := Delete(s.st, id, fault).0);
    forall r | r in t.pending
      ensures PendingOk(cal, t, t.pending[r])
    {
      assert PendingOk(cal, s, s.pending[r]);
    }
  }

  lemma FlooredWellFormed(cal: Calendar, c: Check)
    requires WellFormed(cal, c)
    ensures WellFormed(cal, Floored(c))
  {
  }

  lemma RestartKeeps(cal: Calendar, s: State)
    requires Inv(cal, s) && Hydrate(s.st.rows).Some?
    ensures Inv(cal, s.(st := s.st.(cache := Hydrate(s.st.rows).value), pending := map[]))
  {
    hide Hydrate, Coherent, WellFormed, Floored, RowOf, Scan, Datable, PendingOk;
    HydrateCoherent(s.st);
    var cache := Hydrate(s.st.rows).value;
    assert cache == map id | id in s.st.cache :: Floored(s.st.cache[id]);
    assert cache.Keys == s.st.cache.Keys;
    forall id | id in cache
      ensures WellFormed(cal, cache[id])
    {
      FlooredWellFormed(cal, s.st.cache[id]);
    }
  }

  lemma LookOk(cal: Calendar, s: State, req: Request)
    requires Inv(cal, s) && Look(cal, s, req).Some?
    ensures PendingOk(cal, s, Look(cal, s, req).value)
  {
    hide RowOf;
    assert WellFormed(cal, s.st.cache[req.id]);
    RespondWellFormed(cal, s.st.cache[req.id], req);
  }

  lemma PendingKeeps(cal: Calendar, s: State, pending: map<nat, Pending>)
    requires Inv(cal, s)
    requires forall r :: r in pending ==> PendingOk(cal, s, pending[r])
    ensures Inv(cal, s.(pending := pending))
  {
    hide RowOf, WellFormed, Coherent, Respond;
    var t := s.(pending := pending);
    forall r | r in t.pending
      ensures PendingOk(cal, t, t.pending[r])
    {
      assert PendingOk(cal, s, pending[r]);
    }
  }

  lemma CommitKeeps(cal: Calendar, s: State, rid: nat, fault: bool)
    requires Inv(cal, s) && rid in s.pending
    ensures Inv(cal, Write(s.(pending := s.pending - {rid}), s.pending[rid], fault))
  {
    hide Write, RowOf, WellFormed, Coherent, Respond;
    var t := s.(pending := s.pending - {rid});
    PendingKeeps(cal, s, t.pending);
    assert PendingOk(cal, s, s.pending[rid]);
    assert PendingOk(cal, t, s.pending[rid]);
    WriteKeeps(cal, t, s.pending[rid], fault);
  }

  lemma StepKeeps(cal: Calendar, s: State, e: Event)
    requires Inv(cal, s)
    ensures Inv(cal, Step(cal, s, e))
  {
    hide Write, Pass, Look, Hydrate, Create, Delete, NewCheck, ParseCheckForm, WellFormed, Coherent, PendingOk;
    match e {
      case Begin(rid, req) =>
        if Look(cal, s, req).Some? {
          LookOk(cal, s, req);
          PendingKeeps(cal, s, s.pending[rid := Look(cal, s, req).value]);
        }
      case Commit(rid, fault) =>
        if rid in s.pending {
          CommitKeeps(cal, s, rid, fault);
        }
      case Atomic(req, fault) =>
        if Look(cal, s, req).Some? {
          LookOk(cal, s, req);
          WriteKeeps(cal, s, Look(cal, s, req).value, fault);
        }
      case CreateCheck(id, f, now, fault) =>
        if ParseCheckForm(cal, f).Some? && id !in s.used {
          NewCheckWellFormed(cal, id, f, now);
          CreateKeeps(cal, s, NewCheck(cal, id, ParseCheckForm(cal, f).value, now).value, fault);
        }
      case DeleteCheck(id, fault) => DeleteKeeps(cal, s, id, fault);
      case Evaluate(now, faults) => PassKeeps(cal, s, now, faults);
      case Restart =>
        if Hydrate(s.st.rows).Some? {
          RestartKeeps(cal, s);
        }
    }
  }

  lemma {:induction false} StepsKeep(cal: Calendar, s: State, evs: seq<Event>)
    requires Inv(cal, s)
    ensures Inv(cal, Steps(cal, s, evs))
  {
    if evs != [] {
      StepsKeep(cal, s, evs[..|evs| - 1]);
      StepKeeps(cal, Steps(cal, s, evs[..|evs| - 1]), evs[|evs| - 1]);
    }
  }

  lemma {:induction false} RunInv(cal: Calendar, evs: seq<Event>)
    ensures Inv(cal, Run(cal, evs))
  {
    if evs != [] {
      RunInv(cal, evs[..|evs| - 1]);
      StepKeeps(cal, Run(cal, evs[..|evs| - 1]), evs[|evs| - 1]);
    }
  }

  /** Coherence: after any interleaved run, with stale commits and any store failures, both hold the same checks
      and every row is its cache entry with each timestamp written at whole seconds. */
  lemma CoherenceHolds(cal: Calendar, evs: seq<Event>)
    ensures var s := Run(cal, evs).st;
            && s.cache.Keys == s.rows.Keys
            && forall id :: id in s.cache ==>
                 && s.rows[id] == RowOf(s.cache[id])
                 && Scan(s.rows[id]) == if Datable(s.cache[id]) then Some(Floored(s.cache[id])) else None
  {
    RunInv(cal, evs);
    var s := Run(cal, evs).st;
    hide RowOf, Scan, Datable, Floored, Run;
    forall id | id in s.cache
      ensures Scan(s.rows[id]) == if Datable(s.cache[id]) then Some(Floored(s.cache[id])) else None
    {
      EntryReadsBack(s, id);
    }
  }

  /** Stored records and pending private copies alike are well formed in every interleaved run. */
  lemma RecordsWellFormed(cal: Calendar, evs: seq<Event>)
    ensures var s := Run(cal, evs);
            && (forall id :: id in s.st.cache ==> WellFormed(cal, s.st.cache[id]))
            && (forall r :: r in s.pending ==> WellFormed(cal, s.pending[r].copy))
  {
    RunInv(cal, evs);
    hide WellFormed, Run;
    var s := Run(cal, evs);
    forall r | r in s.pending
      ensures WellFormed(cal, s.pending[r].copy)
    {
      assert PendingOk(cal, s, s.pending[r]);
    }
  }

  /** Once an id has been generated and is not in the cache, it never comes back, whatever late commits follow. */
  lemma {:induction false} NeverResurrected(cal: Calendar, s: State, id: string, evs: seq<Event>)
    requires Inv(cal, s) && id in s.used && id !in s.st.cache
    ensures var t := Steps(cal, s, evs); id !in t.st.cache && id !in t.st.rows && id in t.used
  {
    if evs != [] {
      var u := Steps(cal, s, evs[..|evs| - 1]);
      NeverResurrected(cal, s, id, evs[..|evs| - 1]);
      StepsKeep(cal, s, evs[..|evs| - 1]);
      hide Steps, RowOf, Updated, WellFormed, Respond, AlertsFor, Scan;
      StaysGone(cal, u, id, evs[|evs| - 1]);
    }
  }

  lemma StaysGone(cal: Calendar, s: State, id: string, e: Event)
    requires Inv(cal, s) && id in s.used && id !in s.st.cache
    ensures var t := Step(cal, s, e); id !in t.st.cache && id !in t.st.rows && id in t.used
  {
    hide RowOf, Updated, WellFormed, Respond, AlertsFor, Scan;
    if e.CreateCheck? && ParseCheckForm(cal, e.form).Some? {
      NewCheckWellFormed(cal, e.id, e.form, e.now);
    }
  }

  lemma InvCoherent(cal: Calendar, s: State)
    requires Inv(cal, s)
    ensures Coherent(s.st)
  {
    hide Coherent;
  }
}
