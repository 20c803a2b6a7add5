/** How late a missed deadline can be detected, and what a restart changes about it. */
module Detection {
  import opened Text
  import opened TimeCodec
  import opened Schedule
  import opened Model
  import opened CheckRows
  import opened Transitions
  import opened WriteThrough
  import opened Protocol
  import opened Coherence
  import opened Entries
  import opened StatusHistory

  /** The event may write to the check other than by an evaluation, or an evaluation's write to it fails. A restart
      writes nothing: it reads the entry back as it was stored. */
  predicate Touches(s: State, e: Event, id: string)
  {
    match e
    case Begin(_, _) => false
    case Commit(rid, _) => rid in s.pending && s.pending[rid].copy.id == id
    case Atomic(req, _) => req.id == id
    case CreateCheck(_, _, _, _) => false
    case DeleteCheck(x, _) => x == id
    case Evaluate(_, faults) => id in faults
    case Restart => false
  }

  predicate Untouched(cal: Calendar, s: State, evs: seq<Event>, id: string)
  {
    evs == [] ||
    (Untouched(cal, s, evs[..|evs| - 1], id) && !Touches(Steps(cal, s, evs[..|evs| - 1]), evs[|evs| - 1], id))
  }

  /** The time of the last evaluation pass. */
  function LastPass(evs: seq<Event>): Option<Instant>
  {
    if evs == [] then None
    else if evs[|evs| - 1].Evaluate? then Some(evs[|evs| - 1].now)
    else LastPass(evs[..|evs| - 1])
  }

  /** Successive passes are at most `gap` apart. */
  predicate PassesWithin(evs: seq<Event>, gap: nat)
  {
    evs == [] ||
    var p, e := evs[..|evs| - 1], evs[|evs| - 1];
    && PassesWithin(p, gap)
    && (e.Evaluate? && LastPass(p).Some? ==> e.now <= LastPass(p).value + gap)
  }

  predicate PassAfter(evs: seq<Event>, k: nat, due: Instant)
  {
    k < |evs| && evs[k].Evaluate? && evs[k].now > due
  }

  /** The record, or the record as a restart reads it back. */
  predicate AsStored(c: Check, d: Check) { d == c || d == Floored(c) }

  predicate NoRestart(evs: seq<Event>)
  {
    forall k :: 0 <= k < |evs| ==> !evs[k].Restart?
  }

  lemma NotTouched(cal: Calendar, s: State, e: Event, id: string)
    requires Inv(cal, s) && !Touches(s, e, id)
    ensures Writing(cal, s, e, id).None?
    ensures (e.DeleteCheck? ==> e.id != id) && (e.Evaluate? ==> id !in e.faults)
  {
    hide Inv, Look;
  }

  /** A step that does not touch a check leaves it alone unless it is a pass that takes it down, or a restart. */
  lemma UntouchedStep(cal: Calendar, s: State, e: Event, id: string)
    requires Inv(cal, s) && id in s.st.cache && !Touches(s, e, id)
    ensures id in Step(cal, s, e).st.cache
    ensures var c, d := s.st.cache[id], Step(cal, s, e).st.cache[id];
            if e.Evaluate? && Overdue(c, e.now) then d == MarkDown(c, e.now)
            else AsStored(c, d) && (!e.Restart? ==> d == c)
  {
    hide Step, Inv, Overdue, MarkDown, Floored, Touches, Writing, Hydrate, EntryAfter;
    NotTouched(cal, s, e, id);
    EntryStep(cal, s, e, id);
    UnwrittenEntry(cal, s, e, id);
  }

  /** Pass k finds the check overdue. */
  predicate Detects(cal: Calendar, s: State, evs: seq<Event>, id: string, k: nat)
  {
    && k < |evs| && evs[k].Evaluate?
    && id in Steps(cal, s, evs[..k]).st.cache && Overdue(Steps(cal, s, evs[..k]).st.cache[id], evs[k].now)
  }

  lemma StoredDeadline(c: Check, d: Check, due: Instant)
    requires AsStored(c, d) && c.status == Up && c.nextExpectedAt == Some(due)
    ensures d.status == Up && d.nextExpectedAt.Some? && Floor(due) <= d.nextExpectedAt.value <= due
    ensures d != c ==> d.nextExpectedAt == Some(Floor(due))
    ensures AsStored(c, Floored(d))
  {
    FlooredTwice(c);
    FloorBelow(due);
    hide Floor;
  }

  lemma FloorBelow(t: Instant)
    ensures Floor(t) <= t
  {
  }

  lemma StepsLast(cal: Calendar, s: State, evs: seq<Event>)
    requires evs != []
    ensures Steps(cal, s, evs) == Step(cal, Steps(cal, s, evs[..|evs| - 1]), evs[|evs| - 1])
  {
    hide Step;
  }

  lemma {:induction false} StaysUp(cal: Calendar, s: State, evs: seq<Event>, id: string, due: Instant)
    requires Inv(cal, s) && id in s.st.cache && s.st.cache[id].status == Up && s.st.cache[id].nextExpectedAt == Some(due)
    requires Untouched(cal, s, evs, id)
    requires forall k: nat :: !Detects(cal, s, evs, id, k)
    ensures var t := Steps(cal, s, evs);
            && id in t.st.cache && AsStored(s.st.cache[id], t.st.cache[id])
            && (NoRestart(evs) ==> t.st.cache[id] == s.st.cache[id])
    ensures LastPass(evs).Some? ==> LastPass(evs).value <= due
  {
    hide Step, Inv, Touches, AsStored;
    if evs == [] {
      assert AsStored(s.st.cache[id], s.st.cache[id]) by { StoredSelf(s.st.cache[id]); }
    } else {
      var p, e := evs[..|evs| - 1], evs[|evs| - 1];
      forall k: nat
        ensures !Detects(cal, s, p, id, k)
      {
        if k < |p| {
          assert p[..k] == evs[..k];
          assert !Detects(cal, s, evs, id, k);
        }
      }
      StaysUp(cal, s, p, id, due);
      StepsKeep(cal, s, p);
      StepsLast(cal, s, evs);
      assert !Detects(cal, s, evs, id, |evs| - 1);
      hide Steps;
      var t := Steps(cal, s, p);
      UntouchedStep(cal, t, e, id);
      StoredDeadline(s.st.cache[id], t.st.cache[id], due);
      StoredTwice(t.st.cache[id], Step(cal, t, e).st.cache[id]);
    }
  }

  lemma StoredSelf(c: Check)
    ensures AsStored(c, c)
  {
  }

  lemma StoredTwice(c: Check, d: Check)
    ensures AsStored(c, d) ==> d == c || d == Floored(c)
  {
  }

  /** Pass k is the one that detects the miss: the check was still as it was, or as a restart read it back, and past its
      deadline, and is Down from then on. */
  ghost predicate DetectedAt(cal: Calendar, s: State, evs: seq<Event>, id: string, k: nat)
    requires id in s.st.cache
  {
    && k < |evs| && evs[k].Evaluate?
    && id in Steps(cal, s, evs[..k]).st.cache && id in Steps(cal, s, evs[..k + 1]).st.cache
    && var c, d := s.st.cache[id], Steps(cal, s, evs[..k]).st.cache[id];
       && AsStored(c, d) && (NoRestart(evs[..k]) ==> d == c)
       && Steps(cal, s, evs[..k + 1]).st.cache[id] == MarkDown(d, evs[k].now)
  }

  /** The first pass that finds the check overdue. */
  lemma {:induction false} FirstDetection(cal: Calendar, s: State, evs: seq<Event>, id: string, due: Instant, gap: nat, some: nat)
    returns (k: nat)
    requires Inv(cal, s) && id in s.st.cache && s.st.cache[id].status == Up && s.st.cache[id].nextExpectedAt == Some(due)
    requires Untouched(cal, s, evs, id) && PassesWithin(evs, gap) && Detects(cal, s, evs, id, some)
    ensures DetectedAt(cal, s, evs, id, k) && evs[k].now > Floor(due)
    ensures NoRestart(evs[..k]) ==> evs[k].now > due
    ensures LastPass(evs[..k]).Some? ==> evs[k].now <= due + gap
  {
    hide Step, Inv, Touches, AsStored, MarkDown;
    var p, e := evs[..|evs| - 1], evs[|evs| - 1];
    if j: nat :| Detects(cal, s, p, id, j) {
      k := FirstDetection(cal, s, p, id, due, gap, j);
      assert p[..k] == evs[..k] && p[..k + 1] == evs[..k + 1];
    } else {
      k := |evs| - 1;
      if some < k {
        assert p[..some] == evs[..some];
        assert Detects(cal, s, p, id, some);
      }
      StaysUp(cal, s, p, id, due);
      StepsKeep(cal, s, p);
      StepsLast(cal, s, evs);
      hide Steps;
      UntouchedStep(cal, Steps(cal, s, p), e, id);
      StoredDeadline(s.st.cache[id], Steps(cal, s, p).st.cache[id], due);
      assert evs[..k + 1] == evs;
    }
  }

  lemma {:induction false} UntouchedPart(cal: Calendar, s: State, evs: seq<Event>, n: nat, id: string)
    requires Untouched(cal, s, evs, id) && n <= |evs|
    ensures Untouched(cal, s, evs[..n], id)
  {
    if n < |evs| {
      UntouchedPart(cal, s, evs[..|evs| - 1], n, id);
      assert evs[..|evs| - 1][..n] == evs[..n];
    } else {
      assert evs[..n] == evs;
    }
  }

  /** With passes at most `gap` apart, the start-up passes of restarts included, and nothing else writing to it, an Up
      check with deadline `due` is taken Down by a pass at some time in (due, due + gap], or by the first pass when that
      is already later. A restart in between can only bring it forward, to (floor(due), due + gap]. Other checks and
      requests may do anything. */
  lemma DetectionBound(cal: Calendar, s: State, evs: seq<Event>, id: string, due: Instant, gap: nat, late: nat)
    returns (k: nat)
    requires Inv(cal, s) && id in s.st.cache && s.st.cache[id].status == Up && s.st.cache[id].nextExpectedAt == Some(due)
    requires Untouched(cal, s, evs, id) && PassesWithin(evs, gap) && PassAfter(evs, late, due)
    ensures DetectedAt(cal, s, evs, id, k) && evs[k].now > Floor(due)
    ensures NoRestart(evs[..k]) ==> evs[k].now > due
    ensures LastPass(evs[..k]).Some? ==> evs[k].now <= due + gap
  {
    hide Steps, Inv, PassesWithin, Untouched, AsStored, DetectedAt, LastPass, NoRestart;
    var p := evs[..late];
    var some: nat;
    if j: nat :| Detects(cal, s, p, id, j) {
      some := j;
      assert p[..j] == evs[..j];
    } else {
      some := late;
      UntouchedPart(cal, s, evs, late, id);
      StaysUp(cal, s, p, id, due);
      StoredDeadline(s.st.cache[id], Steps(cal, s, p).st.cache[id], due);
    }
    k := FirstDetection(cal, s, evs, id, due, gap, some);
  }

  /** In every interleaved run an evaluation takes a check down only strictly after the deadline stored for it at that moment. */
  lemma DownOnlyPastDeadline(cal: Calendar, evs: seq<Event>, now: Instant, faults: set<string>, id: string)
    requires id in Run(cal, evs).st.cache && Run(cal, evs).st.cache[id].status != Down
    requires Step(cal, Run(cal, evs), Evaluate(now, faults)).st.cache[id].status == Down
    ensures var s := Run(cal, evs).st;
            && s.cache[id].nextExpectedAt.Some? && now > s.cache[id].nextExpectedAt.value
            && id in s.rows && s.rows[id].nextExpectedAt == Some(FormatTime(s.cache[id].nextExpectedAt.value))
  {
    hide Run, Step, FormatTime;
    RunInv(cal, evs);
    EvaluateEntry(cal, Run(cal, evs), now, faults, id);
    RowHolds(cal, Run(cal, evs), id);
  }

  lemma RowHolds(cal: Calendar, s: State, id: string)
    requires Inv(cal, s) && id in s.st.cache
    ensures s.st.cache[id].id == id && id in s.st.rows && s.st.rows[id] == RowOf(s.st.cache[id])
  {
    hide PendingOk, WellFormed, FormatTime;
  }

  /** The deadline has passed only because storage dropped its sub-second part. */
  predicate DueByFloor(c: Check, now: Instant)
  {
    c.status == Up && c.nextExpectedAt.Some? && Floor(c.nextExpectedAt.value) < now <= c.nextExpectedAt.value
  }

  /** Floors move the overdue test of a check by less than a second, in one direction. */
  lemma OverdueByFloor(c: Check, now: Instant)
    ensures Overdue(Floored(c), now) <==> Overdue(c, now) || DueByFloor(c, now)
    ensures !(Overdue(c, now) && DueByFloor(c, now))
  {
    hide Floor;
    if c.nextExpectedAt.Some? {
      FloorTwice(c.nextExpectedAt.value);
    }
  }

  lemma MarkDownFloored(c: Check, now: Instant)
    ensures Floored(MarkDown(Floored(c), now)) == Floored(MarkDown(c, now))
    ensures RowOf(MarkDown(Floored(c), now)) == RowOf(MarkDown(c, now))
  {
    FlooredTwice(c);
    RowOfFloored(c);
    hide Floor, FormatTime;
  }

  /** The same pass over a record and over its floored copy. */
  lemma PassOverBoth(s: Stores, back: map<string, Check>, now: Instant, id: string)
    requires Coherent(s) && Coherent(Stores(back, s.rows)) && id in s.cache && back.Keys == s.cache.Keys
    requires back[id] == Floored(s.cache[id])
    ensures var c := s.cache[id];
            var a, b := Tick(s, now, {}), Tick(Stores(back, s.rows), now, {});
            && a.cache[id] == (if Overdue(c, now) then MarkDown(c, now) else c)
            && b.cache[id] == (if Overdue(c, now) || DueByFloor(c, now) then MarkDown(Floored(c), now) else Floored(c))
            && a.rows[id] == RowOf(a.cache[id]) && b.rows[id] == RowOf(b.cache[id])
  {
    hide Floored, RowOf, Updated, Overdue, DueByFloor, Coherent;
    OverdueByFloor(s.cache[id], now);
    TickCoherent(s, now, {});
    TickCoherent(Stores(back, s.rows), now, {});
    CoherentAt(s, id);
    CoherentAt(Tick(s, now, {}), id);
    CoherentAt(Tick(Stores(back, s.rows), now, {}), id);
  }

  lemma CoherentAt(s: Stores, id: string)
    requires Coherent(s)
    ensures s.cache.Keys == s.rows.Keys
    ensures id in s.cache ==> s.cache[id].id == id && s.rows[id] == RowOf(s.cache[id])
  {
  }

  /** Restart: from any reachable state, a rebuilt cache and its start-up pass agree with the pass of the running process,
      up to sub-second parts, on every check but those due only by the floor of their deadline; those it takes down early. */
  lemma RestartSimulates(cal: Calendar, evs: seq<Event>, now: Instant, id: string)
    requires Hydrate(Run(cal, evs).st.rows).Some?
    requires id in Run(cal, evs).st.cache
    ensures var s := Run(cal, evs).st;
            var live, back := Tick(s, now, {}), Tick(Stores(Hydrate(s.rows).value, s.rows), now, {});
            var c := s.cache[id];
            && live.cache.Keys == back.cache.Keys == s.cache.Keys
            && (live.cache[id].status == Down ==> back.cache[id].status == Down)
            && (if DueByFloor(c, now) then live.cache[id] == c && back.cache[id] == MarkDown(Floored(c), now)
                else Floored(back.cache[id]) == Floored(live.cache[id]) && back.rows[id] == live.rows[id])
  {
    hide Run, Hydrate, Scan, RowOf, Updated, Floor, FloorPtr, Datable, Coherent;
    RunInv(cal, evs);
    var s := Run(cal, evs).st;
    InvCoherent(cal, Run(cal, evs));
    HydrateCoherent(s);
    var c := s.cache[id];
    PassOverBoth(s, Hydrate(s.rows).value, now, id);
    MarkDownFloored(c, now);
    FlooredTwice(c);
    RowOfFloored(c);
    OverdueByFloor(c, now);
  }
}
