/** Deadline arithmetic over whole runs, with any interleaving. */
module Deadlines {
  import opened Text
  import opened TimeCodec
  import opened Schedule
  import opened Model
  import opened CheckRows
  import opened Transitions
  import opened WriteThrough
  import opened Protocol
  import opened Coherence
  import opened Reduction
  import opened Entries
  import opened StatusHistory

  /** Once pinged, the deadline leaves the whole grace after the last ping. */
  ghost predicate Covers(c: Check)
  {
    c.lastPingAt.Some? ==> c.nextExpectedAt.Some? && c.nextExpectedAt.value >= c.lastPingAt.value + c.grace * MINUTE
  }

  function LastPing(c: Check): Instant { if c.lastPingAt.Some? then c.lastPingAt.value else 0 }

  /** A start ping whose clock reading precedes the last ping of the record it edits. */
  predicate EarlyStart(c: Check, r: Request)
  {
    r.Ping? && r.kind == Start && c.lastPingAt.Some? && r.now < c.lastPingAt.value
  }

  lemma FloorKeepsGap(a: Instant, b: Instant, grace: nat)
    requires b >= a + grace * MINUTE
    ensures Floor(b) >= Floor(a) + grace * MINUTE && Floor(a) <= a
  {
    var j, k, g := a / SECOND, b / SECOND, grace * 60;
    FloorBySeconds(a, b);
    FloorBySeconds(b, a);
    assert j * SECOND <= a && b < (k + 1) * SECOND && grace * MINUTE == g * SECOND;
    assert (j + g) * SECOND < (k + 1) * SECOND;
    assert j + g <= k;
    assert (j + g) * SECOND <= k * SECOND;
  }

  lemma RequestCovers(cal: Calendar, c: Check, r: Request)
    requires WellFormed(cal, c) && Covers(c) && Respond(cal, c, r).Some?
    ensures Covers(Respond(cal, c, r).value) <==> !EarlyStart(c, r)
    ensures LastPing(Respond(cal, c, r).value) <= if LastPing(c) <= r.now then r.now else LastPing(c)
  {
    hide NextExpectedAt, Lawful;
    match r {
      case Ping(_, kind, now) => DeadlineShape(cal, c.schedule, c.grace, now);
      case Edit(_, form, now) =>
        if ParseCheckForm(cal, form).Some? && c.lastPingAt.Some? {
          var f := ParseCheckForm(cal, form).value;
          DeadlineShape(cal, f.schedule, f.grace, c.lastPingAt.value);
        }
        hide ParseCheckForm;
      case _ =>
    }
  }

  lemma PassiveCovers(c: Check, now: Instant)
    requires c.nextExpectedAt.Some? && Covers(c)
    ensures Covers(MarkDown(c, now)) && LastPing(MarkDown(c, now)) == LastPing(c)
    ensures Covers(Floored(c)) && LastPing(Floored(c)) <= LastPing(c)
  {
    hide Floor;
    if c.lastPingAt.Some? {
      FloorKeepsGap(c.lastPingAt.value, c.nextExpectedAt.value, c.grace);
    }
  }

  /** Every entry, every private copy and every record one was made from. */
  ghost predicate AllCover(s: State)
  {
    && (forall id :: id in s.st.cache ==> Covers(s.st.cache[id]))
    && (forall r :: r in s.pending ==> Covers(s.pending[r].base) && Covers(s.pending[r].copy))
  }

  /** The event reads a record for a start ping whose clock reading precedes the record's last ping. */
  predicate StartsEarly(cal: Calendar, s: State, e: Event)
  {
    match e
    case Begin(rid, req) => rid !in s.pending && req.id in s.st.cache && s.st.cache[req.id].status != Paused && EarlyStart(s.st.cache[req.id], req)
    case Atomic(req, fault) => !fault && req.id in s.st.cache && s.st.cache[req.id].status != Paused && EarlyStart(s.st.cache[req.id], req)
    case _ => false
  }

  lemma LooksUp(cal: Calendar, s: State, req: Request)
    ensures Look(cal, s, req).Some? <==> req.id in s.st.cache && Respond(cal, s.st.cache[req.id], req).Some?
    ensures Look(cal, s, req).Some? ==>
              Look(cal, s, req).value == Pending(req, s.st.cache[req.id], Respond(cal, s.st.cache[req.id], req).value, false)
  {
    hide Respond;
  }

  lemma LookCovers(cal: Calendar, s: State, req: Request)
    requires Inv(cal, s) && AllCover(s) && Look(cal, s, req).Some?
    ensures var p := Look(cal, s, req).value;
            && req.id in s.st.cache && p.base == s.st.cache[req.id] && p.copy.id == req.id
            && (req.Ping? ==> p.base.status != Paused)
            && Covers(p.base) && (Covers(p.copy) <==> !EarlyStart(p.base, req))
  {
    assert req.Ping? && Look(cal, s, req).Some? ==> s.st.cache[req.id].status != Paused;
    hide *;
    LooksUp(cal, s, req);
    AtEntry(cal, s, req.id);
    CoversAt(s, req.id);
    RequestCovers(cal, s.st.cache[req.id], req);
    LookOk(cal, s, req);
    PendingId(cal, s, Look(cal, s, req).value);
  }

  lemma CoversAt(s: State, id: string)
    requires AllCover(s) && id in s.st.cache
    ensures Covers(s.st.cache[id])
  {
  }

  /** Every written entry covers its grace exactly if the written copy does; the others stay as they were. */
  lemma WriteCovers(s: State, p: Pending, fault: bool)
    requires AllCover(s) && Coherent(s.st)
    ensures AllCover(Write(s, p, fault)) <==> fault || p.copy.id !in s.st.cache || Covers(p.copy)
  {
    hide RowOf, Updated, AlertsFor, Covers;
    var t := Write(s, p, fault);
    if !fault && p.copy.id in s.st.cache {
      assert t.st.cache[p.copy.id] == p.copy;
    }
  }

  lemma AddedCovers(s: State, rid: nat, p: Pending)
    requires AllCover(s) && rid !in s.pending
    ensures AllCover(s.(pending := s.pending[rid := p])) <==> Covers(p.base) && Covers(p.copy)
  {
    hide Covers;
    var t := s.(pending := s.pending[rid := p]);
    assert t.pending[rid] == p;
  }

  lemma BeginCovers(cal: Calendar, s: State, rid: nat, req: Request)
    requires Inv(cal, s) && AllCover(s)
    ensures AllCover(Step(cal, s, Begin(rid, req))) <==> !StartsEarly(cal, s, Begin(rid, req))
  {
    hide Look, EarlyStart, AllCover, Inv;
    var look := Look(cal, s, req);
    assert Step(cal, s, Begin(rid, req)) == if rid in s.pending || look.None? then s else s.(pending := s.pending[rid := look.value]);
    if rid !in s.pending {
      if look.Some? {
        LookCovers(cal, s, req);
        NotPaused(req, look.value.base);
        AddedCovers(s, rid, look.value);
      } else {
        Unanswered(cal, s, req);
        if req.id in s.st.cache {
          NotPaused(req, s.st.cache[req.id]);
        }
      }
    }
  }

  lemma NotPaused(req: Request, c: Check)
    ensures EarlyStart(c, req) ==> req.Ping?
  {
  }

  lemma Unanswered(cal: Calendar, s: State, req: Request)
    requires Look(cal, s, req).None?
    ensures req.id in s.st.cache && req.Ping? ==> s.st.cache[req.id].status == Paused
  {
  }

  lemma AtomicCovers(cal: Calendar, s: State, req: Request, fault: bool)
    requires Inv(cal, s) && AllCover(s)
    ensures AllCover(Step(cal, s, Atomic(req, fault))) <==> !StartsEarly(cal, s, Atomic(req, fault))
  {
    hide Look, EarlyStart, AllCover, Inv, Write;
    var look := Look(cal, s, req);
    assert Step(cal, s, Atomic(req, fault)) == if look.None? then s else Write(s, look.value, fault);
    if look.Some? {
      LookCovers(cal, s, req);
      NotPaused(req, look.value.base);
      InvCoherent(cal, s);
      WriteCovers(s, look.value, fault);
    } else {
      Unanswered(cal, s, req);
      if req.id in s.st.cache {
        NotPaused(req, s.st.cache[req.id]);
      }
    }
  }

  lemma PassiveStepCovers(cal: Calendar, s: State, e: Event)
    requires Inv(cal, s) && AllCover(s) && !e.Begin? && !e.Commit? && !e.Atomic?
    ensures AllCover(Step(cal, s, e))
  {
    var t := Step(cal, s, e);
    forall id | id in t.st.cache ensures Covers(t.st.cache[id]) {
      if id in s.st.cache {
        EntryStep(cal, s, e, id);
        UnwrittenEntry(cal, s, e, id) by { NotWritten(cal, s, e, id); }
        AtEntry(cal, s, id);
        PassiveCovers(s.st.cache[id], if e.Evaluate? then e.now else 0) by { HasDeadline(cal, s.st.cache[id]); CoversAt(s, id); }
      } else {
        Appears(cal, s, e, id);
        StepKeeps(cal, s, e);
        AtEntry(cal, t, id);
        NewIsUnpinged(cal, t.st.cache[id]);
      }
    }
    PendingStay(cal, s, e);
    hide Step, Inv, Covers;
  }

  lemma NotWritten(cal: Calendar, s: State, e: Event, id: string)
    requires !e.Commit? && !e.Atomic?
    ensures Writing(cal, s, e, id).None?
  {
  }

  lemma HasDeadline(cal: Calendar, c: Check)
    requires WellFormed(cal, c)
    ensures c.nextExpectedAt.Some?
  {
  }

  lemma PendingStay(cal: Calendar, s: State, e: Event)
    requires !e.Begin? && !e.Commit? && !e.Atomic?
    ensures var t := Step(cal, s, e);
            forall r :: r in t.pending ==> r in s.pending && t.pending[r].base == s.pending[r].base && t.pending[r].copy == s.pending[r].copy
                                           && t.pending[r].req == s.pending[r].req
  {
    hide NewCheck, ParseCheckForm, Hydrate, Create, Delete, Tick, Expired;
  }

  lemma TakenCovers(s: State, rid: nat)
    requires AllCover(s) && rid in s.pending
    ensures AllCover(s.(pending := s.pending - {rid})) && Covers(s.pending[rid].copy)
  {
    hide Covers;
  }

  lemma CommitCovers(cal: Calendar, s: State, rid: nat, fault: bool)
    requires Inv(cal, s) && AllCover(s)
    ensures AllCover(Step(cal, s, Commit(rid, fault)))
  {
    hide Inv, AllCover, Write;
    if rid in s.pending {
      var u := s.(pending := s.pending - {rid});
      assert Step(cal, s, Commit(rid, fault)) == Write(u, s.pending[rid], fault);
      hide *;
      InvCoherent(cal, s);
      TakenCovers(s, rid);
      WriteCovers(u, s.pending[rid], fault);
    }
  }

  /** One step keeps the grace covered everywhere exactly if it is not a start ping that comes too early. */
  lemma CoverStep(cal: Calendar, s: State, e: Event)
    requires Inv(cal, s) && AllCover(s)
    ensures AllCover(Step(cal, s, e)) <==> !StartsEarly(cal, s, e)
  {
    hide Step, Inv, AllCover, EarlyStart;
    match e
    case Begin(rid, req) => BeginCovers(cal, s, rid, req);
    case Commit(rid, fault) => CommitCovers(cal, s, rid, fault);
    case Atomic(req, fault) => AtomicCovers(cal, s, req, fault);
    case _ => PassiveStepCovers(cal, s, e);
  }

  /** The grace is covered everywhere after every event. */
  ghost predicate AlwaysCover(cal: Calendar, evs: seq<Event>)
  {
    AllCover(Run(cal, evs)) && (evs != [] ==> AlwaysCover(cal, evs[..|evs| - 1]))
  }

  predicate NoneStartsEarly(cal: Calendar, evs: seq<Event>)
  {
    evs != [] ==>
      var p, e := evs[..|evs| - 1], evs[|evs| - 1];
      NoneStartsEarly(cal, p) && !StartsEarly(cal, Run(cal, p), e)
  }

  lemma NothingToCover(cal: Calendar)
    ensures AllCover(Run(cal, []))
  {
  }

  /** After every event of an interleaved run every entry and every private copy covers its grace, exactly if no start
      ping reads a record whose last ping is later than its own clock reading. */
  lemma {:induction false} CoverExactly(cal: Calendar, evs: seq<Event>)
    ensures AlwaysCover(cal, evs) <==> NoneStartsEarly(cal, evs)
  {
    hide Run, Step, Inv, AllCover, StartsEarly;
    if evs == [] {
      NothingToCover(cal);
    } else {
      var p := evs[..|evs| - 1];
      CoverExactly(cal, p);
      if AlwaysCover(cal, p) {
        RunInv(cal, p);
        RunLast(cal, evs);
        CoverStep(cal, Run(cal, p), evs[|p|]);
      }
    }
  }

  // Readings as steps of their own: a ping reads the clock before its Get.

  /** What happens, in order: a handler reads the clock, or the protocol makes a step. An edit or a pause reads the clock
      after its Get; nothing here depends on when. */
  datatype Act = Read(rid: nat, now: Instant) | Do(e: Event)

  /** The protocol's run among the acts. */
  function Events(acts: seq<Act>): seq<Event>
  {
    if acts == [] then [] else
    Events(acts[..|acts| - 1]) + if acts[|acts| - 1].Do? then [acts[|acts| - 1].e] else []
  }

  /** The clock as it is read in an act. */
  function Clock(a: Act): Option<Instant>
  {
    match a
    case Read(_, now) => Some(now)
    case Do(Atomic(req, _)) => Some(req.now)
    case Do(CreateCheck(_, _, now, _)) => Some(now)
    case Do(Evaluate(now, _)) => Some(now)
    case _ => None
  }

  ghost predicate NeverBack(acts: seq<Act>)
  {
    forall j, k :: 0 <= j < k < |acts| && Clock(acts[j]).Some? && Clock(acts[k]).Some? ==> Clock(acts[j]).value <= Clock(acts[k]).value
  }

  /** The last reading of a request's handler. */
  function LastRead(acts: seq<Act>, rid: nat): (r: Option<nat>)
    ensures r.Some? ==> r.value < |acts| && acts[r.value].Read? && acts[r.value].rid == rid
  {
    if acts == [] then None
    else if acts[|acts| - 1].Read? && acts[|acts| - 1].rid == rid then Some(|acts| - 1)
    else LastRead(acts[..|acts| - 1], rid)
  }

  /** The ping that an act is the Get of, if any. */
  function PingOf(a: Act): Option<Request>
  {
    match a
    case Do(Begin(_, req)) => if req.Ping? then Some(req) else None
    case Do(Atomic(req, _)) => if req.Ping? then Some(req) else None
    case _ => None
  }

  /** Where a ping read the clock: before its Get, or in the same act if it is one step. */
  function TakenAt(acts: seq<Act>, k: nat): Option<nat>
    requires k < |acts|
  {
    match acts[k]
    case Do(Begin(rid, _)) => LastRead(acts[..k], rid)
    case _ => Some(k)
  }

  /** Every ping uses the reading its handler took. */
  ghost predicate UsesReadings(acts: seq<Act>)
  {
    forall k :: 0 <= k < |acts| && PingOf(acts[k]).Some? ==>
      TakenAt(acts, k).Some? && TakenAt(acts, k).value < |acts| && Clock(acts[TakenAt(acts, k).value]) == Some(PingOf(acts[k]).value.now)
  }

  predicate Completing(a: Act, id: string)
  {
    PingOf(a).Some? && PingOf(a).value.id == id && PingOf(a).value.kind != Start
  }

  predicate Starting(a: Act)
  {
    PingOf(a).Some? && PingOf(a).value.kind == Start
  }

  /** The Get of a start ping, with a completion of its check that read the clock after it and did its own Get before. */
  ghost predicate StartOvertaken(acts: seq<Act>, k: nat)
    requires k < |acts|
  {
    && Starting(acts[k]) && TakenAt(acts, k).Some?
    && exists j :: 0 <= j < k && Completing(acts[j], PingOf(acts[k]).value.id) && TakenAt(acts, j).Some?
                   && TakenAt(acts, k).value < TakenAt(acts, j).value
  }

  ghost predicate NoStartOvertaken(acts: seq<Act>)
  {
    forall k :: 0 <= k < |acts| ==> !StartOvertaken(acts, k)
  }

  /** The latest reading among the completions of a check. */
  function Bound(acts: seq<Act>, id: string): Instant
  {
    if acts == [] then 0 else
    var before, last := Bound(acts[..|acts| - 1], id), acts[|acts| - 1];
    if Completing(last, id) && before < PingOf(last).value.now then PingOf(last).value.now else before
  }

  lemma {:induction false} BoundTaken(acts: seq<Act>, id: string) returns (j: nat)
    requires Bound(acts, id) > 0
    ensures j < |acts| && Completing(acts[j], id) && PingOf(acts[j]).value.now == Bound(acts, id)
  {
    var most, last := acts[..|acts| - 1], acts[|acts| - 1];
    if Bound(most, id) == Bound(acts, id) {
      j := BoundTaken(most, id);
    } else {
      j := |most|;
    }
  }

  /** No record of the check was completed later than the given time. */
  ghost predicate PingedBy(s: State, id: string, time: Instant)
  {
    && (id in s.st.cache ==> LastPing(s.st.cache[id]) <= time)
    && (forall r :: r in s.pending && s.pending[r].copy.id == id ==> LastPing(s.pending[r].copy) <= time)
  }

  predicate LaterThan(r: Request, time: Instant)
  {
    r.Ping? && r.kind != Start && r.now > time
  }

  lemma RequestPinged(cal: Calendar, c: Check, r: Request, time: Instant)
    requires Respond(cal, c, r).Some? && LastPing(c) <= time && !LaterThan(r, time)
    ensures LastPing(Respond(cal, c, r).value) <= time
  {
    hide NextExpectedAt, ParseCheckForm;
  }

  lemma LookPinged(cal: Calendar, s: State, req: Request, id: string, time: Instant)
    requires Inv(cal, s) && PingedBy(s, id, time) && Look(cal, s, req).Some? && (req.id == id ==> !LaterThan(req, time))
    ensures Look(cal, s, req).value.copy.id == req.id
    ensures req.id == id ==> LastPing(Look(cal, s, req).value.copy) <= time
  {
    LooksUp(cal, s, req);
    LookOk(cal, s, req);
    PendingId(cal, s, Look(cal, s, req).value);
    hide Respond, LastPing, Inv, Look, LaterThan;
    if req.id == id {
      RequestPinged(cal, s.st.cache[req.id], req, time);
    }
  }

  lemma WritePinged(s: State, p: Pending, fault: bool, id: string, time: Instant)
    requires PingedBy(s, id, time) && (p.copy.id == id ==> LastPing(p.copy) <= time)
    ensures PingedBy(Write(s, p, fault), id, time)
  {
    hide Updated, AlertsFor, LastPing;
  }

  lemma PassivePinged(cal: Calendar, s: State, e: Event, id: string, time: Instant)
    requires Inv(cal, s) && PingedBy(s, id, time) && !e.Begin? && !e.Commit? && !e.Atomic?
    ensures PingedBy(Step(cal, s, e), id, time)
  {
    hide Step, Inv, LastPing, Floored, MarkDown;
    var t := Step(cal, s, e);
    if id in t.st.cache {
      if id in s.st.cache {
        EntryStep(cal, s, e, id);
        UnwrittenEntry(cal, s, e, id) by { NotWritten(cal, s, e, id); }
        FlooredPing(s.st.cache[id]);
        hide EntryAfter;
      } else {
        Appears(cal, s, e, id);
        StepKeeps(cal, s, e);
        AtEntry(cal, t, id);
        NewIsUnpinged(cal, t.st.cache[id]);
        assert LastPing(t.st.cache[id]) == 0 by { NoPing(t.st.cache[id]); }
      }
    }
    PendingStay(cal, s, e);
  }

  lemma NoPing(c: Check)
    requires c.lastPingAt.None?
    ensures LastPing(c) == 0
  {
  }

  lemma FlooredPing(c: Check)
    ensures LastPing(Floored(c)) <= LastPing(c)
    ensures forall now :: LastPing(MarkDown(c, now)) == LastPing(c)
  {
    if c.lastPingAt.Some? {
      FloorKeepsGap(c.lastPingAt.value, c.lastPingAt.value, 0);
    }
    hide Floor;
  }

  /** The request an event is the Get of. */
  function GetOf(e: Event): Option<Request>
  {
    match e
    case Begin(_, req) => Some(req)
    case Atomic(req, _) => Some(req)
    case _ => None
  }

  lemma PingedStep(cal: Calendar, s: State, e: Event, id: string, time: Instant)
    requires Inv(cal, s) && PingedBy(s, id, time)
    requires GetOf(e).Some? && GetOf(e).value.id == id ==> !LaterThan(GetOf(e).value, time)
    ensures PingedBy(Step(cal, s, e), id, time)
  {
    hide LastPing, Inv, Look, Write, PingedBy, LaterThan;
    match e
    case Begin(rid, req) =>
      if Look(cal, s, req).Some? {
        LookPinged(cal, s, req, id, time);
        BeginPinged(cal, s, rid, req, id, time);
      }
    case Commit(rid, fault) =>
      if rid in s.pending {
        CommitPinged(cal, s, rid, fault, id, time);
      }
    case Atomic(req, fault) =>
      if Look(cal, s, req).Some? {
        LookPinged(cal, s, req, id, time);
        WritePinged(s, Look(cal, s, req).value, fault, id, time);
      }
    case _ => PassivePinged(cal, s, e, id, time);
  }

  lemma BeginPinged(cal: Calendar, s: State, rid: nat, req: Request, id: string, time: Instant)
    requires PingedBy(s, id, time) && Look(cal, s, req).Some?
    requires var p := Look(cal, s, req).value; p.copy.id == id ==> LastPing(p.copy) <= time
    ensures PingedBy(Step(cal, s, Begin(rid, req)), id, time)
  {
    hide Look, LastPing;
  }

  lemma CommitPinged(cal: Calendar, s: State, rid: nat, fault: bool, id: string, time: Instant)
    requires PingedBy(s, id, time) && rid in s.pending
    ensures PingedBy(Step(cal, s, Commit(rid, fault)), id, time)
  {
    hide Write, LastPing;
    var u := s.(pending := s.pending - {rid});
    assert PingedBy(u, id, time);
    WritePinged(u, s.pending[rid], fault, id, time);
  }

  lemma NothingPinged(cal: Calendar, id: string)
    ensures PingedBy(Run(cal, []), id, 0)
  {
  }

  lemma LaterPinged(s: State, id: string, before: Instant, after: Instant)
    requires PingedBy(s, id, before) && before <= after
    ensures PingedBy(s, id, after)
  {
  }

  lemma BoundMore(acts: seq<Act>, id: string)
    requires acts != []
    ensures Bound(acts[..|acts| - 1], id) <= Bound(acts, id)
    ensures var a := acts[|acts| - 1];
            a.Do? && GetOf(a.e).Some? && GetOf(a.e).value.id == id ==> !LaterThan(GetOf(a.e).value, Bound(acts, id))
  {
  }

  lemma EventsLast(acts: seq<Act>)
    requires acts != []
    ensures acts[|acts| - 1].Do? ==> Events(acts) == Events(acts[..|acts| - 1]) + [acts[|acts| - 1].e]
    ensures acts[|acts| - 1].Read? ==> Events(acts) == Events(acts[..|acts| - 1])
  {
  }

  lemma {:induction false} RunPinged(cal: Calendar, acts: seq<Act>, id: string)
    ensures PingedBy(Run(cal, Events(acts)), id, Bound(acts, id))
  {
    hide Run, Step, Inv, PingedBy, Bound, Events, LaterThan;
    if acts == [] {
      NothingPinged(cal, id);
      NoActs(id);
    } else {
      var p, a := acts[..|acts| - 1], acts[|acts| - 1];
      RunPinged(cal, p, id);
      EventsLast(acts);
      BoundMore(acts, id);
      var s := Run(cal, Events(p));
      LaterPinged(s, id, Bound(p, id), Bound(acts, id));
      if a.Do? {
        RunInv(cal, Events(p));
        RunOne(cal, Events(p), a.e);
        PingedStep(cal, s, a.e, id, Bound(acts, id));
      }
    }
  }

  lemma NoActs(id: string)
    ensures Events([]) == [] && Bound([], id) == 0
  {
  }

  /** A start ping whose reading precedes the last ping it finds was overtaken. */
  lemma EarlyIsOvertaken(cal: Calendar, acts: seq<Act>, k: nat)
    requires k < |acts| && acts[k].Do? && StartsEarly(cal, Run(cal, Events(acts[..k])), acts[k].e)
    requires NeverBack(acts) && UsesReadings(acts)
    ensures StartOvertaken(acts, k)
  {
    var s, req := Run(cal, Events(acts[..k])), PingOf(acts[k]).value;
    RunPinged(cal, acts[..k], req.id);
    assert req.id in s.st.cache && req.now < LastPing(s.st.cache[req.id]) <= Bound(acts[..k], req.id);
    hide Run, Events, PingedBy, Bound, StartsEarly;
    var j := BoundTaken(acts[..k], req.id);
    assert acts[..k][j] == acts[j];
    var a, b := TakenAt(acts, k).value, TakenAt(acts, j).value;
    assert Clock(acts[a]) == Some(req.now) && Clock(acts[b]) == Some(PingOf(acts[j]).value.now);
    hide TakenAt, Clock;
  }

  lemma {:induction false} NoneEarly(cal: Calendar, acts: seq<Act>, n: nat)
    requires NeverBack(acts) && UsesReadings(acts) && NoStartOvertaken(acts) && n <= |acts|
    ensures NoneStartsEarly(cal, Events(acts[..n]))
  {
    hide Run, StartsEarly, Events, StartOvertaken, NeverBack, UsesReadings;
    if n == 0 {
      assert acts[..n] == [];
      NoActs("");
    } else {
      NoneEarly(cal, acts, n - 1);
      assert acts[..n][..n - 1] == acts[..n - 1] && acts[..n][n - 1] == acts[n - 1];
      EventsLast(acts[..n]);
      if acts[n - 1].Do? {
        var evs, e := Events(acts[..n - 1]), acts[n - 1].e;
        assert (evs + [e])[..|evs|] == evs;
        if StartsEarly(cal, Run(cal, evs), e) {
          EarlyIsOvertaken(cal, acts, n - 1);
        }
      }
    }
  }

  /** If the clock never goes back and no start ping is overtaken by a completion of its check between its reading and
      its Get, a pinged check's deadline is at least its last ping plus its grace: through any other interleaving, stale
      commits and restarts included. */
  lemma DeadlineCoversGrace(cal: Calendar, acts: seq<Act>, id: string)
    requires NeverBack(acts) && UsesReadings(acts) && NoStartOvertaken(acts) && id in Run(cal, Events(acts)).st.cache
    ensures Covers(Run(cal, Events(acts)).st.cache[id])
  {
    hide Run, Covers, StartsEarly, NeverBack, UsesReadings, NoStartOvertaken, Events;
    assert acts[..|acts|] == acts;
    NoneEarly(cal, acts, |acts|);
    CoverExactly(cal, Events(acts));
  }

  /** The condition is needed. */
  function OvertakenStart(id: string, form: Form, made: Instant, a: Instant, b: Instant): seq<Act>
  {
    [Do(CreateCheck(id, form, made, false))] + [Read(0, a)] + [Do(Atomic(Ping(id, Success, b), false))]
    + [Do(Begin(0, Ping(id, Start, a)))] + [Do(Commit(0, false))]
  }

  lemma MadeAndPinged(cal: Calendar, id: string, form: Form, f: Settings, made: Instant, b: Instant)
    requires ParseCheckForm(cal, form) == Some(f)
    ensures var s := Step(cal, Step(cal, Protocol.Init, CreateCheck(id, form, made, false)), Atomic(Ping(id, Success, b), false));
            && s.pending == map[] && id in s.st.cache && id in s.st.rows && s.st.cache[id].id == id
            && s.st.cache[id].status == Up && s.st.cache[id].lastPingAt == Some(b) && s.st.cache[id].grace == f.grace
  {
    hide RowOf, Updated, NextExpectedAt, ParseCheckForm;
    NewCheckWellFormed(cal, id, form, made);
    var s := Step(cal, Protocol.Init, CreateCheck(id, form, made, false));
    assert id in s.st.cache && id in s.st.rows && s.st.cache[id] == NewCheck(cal, id, f, made).value;
  }

  lemma StartedLate(cal: Calendar, s: State, id: string, a: Instant, b: Instant)
    requires s.pending == map[] && id in s.st.cache && id in s.st.rows && s.st.cache[id].id == id
    requires s.st.cache[id].status == Up && s.st.cache[id].lastPingAt == Some(b) && a < b
    ensures var t := Step(cal, Step(cal, s, Begin(0, Ping(id, Start, a))), Commit(0, false));
            id in t.st.cache && !Covers(t.st.cache[id])
  {
    hide RowOf, Updated, NextExpectedAt;
    var t := Step(cal, s, Begin(0, Ping(id, Start, a)));
    assert t == s.(pending := map[0 := Pending(Ping(id, Start, a), s.st.cache[id], AfterStart(s.st.cache[id], a), false)]);
  }

  lemma OvertakenStartEvents(id: string, form: Form, made: Instant, a: Instant, b: Instant)
    ensures Events(OvertakenStart(id, form, made, a, b)) ==
            [CreateCheck(id, form, made, false)] + [Atomic(Ping(id, Success, b), false)] + [Begin(0, Ping(id, Start, a))] + [Commit(0, false)]
  {
    var acts := OvertakenStart(id, form, made, a, b);
    NoActs("");
    assert acts[..5] == acts;
    forall n | 0 <= n < 5 ensures acts[..n + 1][..n] == acts[..n] && acts[..n + 1][n] == acts[n] {
    }
    hide Events;
    assert acts[..0] == [];
    EventsLast(acts[..1]);
    EventsLast(acts[..2]);
    EventsLast(acts[..3]);
    EventsLast(acts[..4]);
    EventsLast(acts[..5]);
  }

  lemma OvertakenStartReads(id: string, form: Form, made: Instant, a: Instant, b: Instant)
    requires made <= a <= b
    ensures NeverBack(OvertakenStart(id, form, made, a, b)) && UsesReadings(OvertakenStart(id, form, made, a, b))
  {
    var acts := OvertakenStart(id, form, made, a, b);
    assert acts[..3][..2] == acts[..2];
    assert acts[..2][1] == Read(0, a);
    assert LastRead(acts[..2], 0) == Some(1);
    assert LastRead(acts[..3], 0) == Some(1);
  }

  /** A start ping reads the clock, a success ping reads it later and is done, and only then the start ping does its Get
      and its Set: the clock never goes back, and the deadline is less than the grace after the last ping. */
  lemma OvertakenStartUncovers(cal: Calendar, id: string, form: Form, made: Instant, a: Instant, b: Instant)
    requires ParseCheckForm(cal, form).Some? && made <= a < b
    ensures var acts := OvertakenStart(id, form, made, a, b);
            && NeverBack(acts) && UsesReadings(acts)
            && id in Run(cal, Events(acts)).st.cache && !Covers(Run(cal, Events(acts)).st.cache[id])
  {
    hide *;
    OvertakenStartReads(id, form, made, a, b);
    OvertakenStartEvents(id, form, made, a, b);
    MadeAndPinged(cal, id, form, ParseCheckForm(cal, form).value, made, b);
    var create, ping, start := CreateCheck(id, form, made, false), Atomic(Ping(id, Success, b), false), Begin(0, Ping(id, Start, a));
    RunEmpty(cal);
    RunOne(cal, [], create);
    assert [] + [create] == [create];
    RunOne(cal, [create], ping);
    RunOne(cal, [create] + [ping], start);
    RunOne(cal, [create] + [ping] + [start], Commit(0, false));
    StartedLate(cal, Run(cal, [create] + [ping]), id, a, b);
  }

  lemma NewIsUnpinged(cal: Calendar, c: Check)
    requires WellFormed(cal, c) && c.status == New
    ensures c.lastPingAt.None?
  {
  }

  /** The form, if it is accepted at all, carries the given schedule and grace. */
  predicate Resaves(cal: Calendar, form: Form, schedule: string, grace: nat)
  {
    match ParseCheckForm(cal, form)
    case None => true
    case Some(f) => f.schedule == schedule && f.grace == grace
  }

  ghost predicate SameTerms(c: Check, id: string, schedule: string, grace: nat, pinged: Instant)
  {
    && c.id == id && c.schedule == schedule && c.grace == grace
    && c.lastPingAt.Some? && Floor(c.lastPingAt.value) == Floor(pinged)
  }

  /** What the event writes to the check has the same schedule, grace and last ping: a copy committed late is judged by
      what it holds, a request in one step by what it asks. */
  ghost predicate KeepsTerms(cal: Calendar, s: State, e: Event, id: string, schedule: string, grace: nat, pinged: Instant)
  {
    var w := Writing(cal, s, e, id);
    w.Some? ==>
      if e.Commit? then SameTerms(w.value.copy, id, schedule, grace, pinged)
      else (w.value.req.Ping? ==> w.value.req.kind == Start)
           && (w.value.req.Edit? ==> Resaves(cal, w.value.req.form, schedule, grace))
  }

  ghost predicate AllKeepTerms(cal: Calendar, s: State, evs: seq<Event>, id: string, schedule: string, grace: nat, pinged: Instant)
  {
    evs != [] ==>
      var p, e := evs[..|evs| - 1], evs[|evs| - 1];
      AllKeepTerms(cal, s, p, id, schedule, grace, pinged) && KeepsTerms(cal, Steps(cal, s, p), e, id, schedule, grace, pinged)
  }

  lemma RequestKeepsTerms(cal: Calendar, c: Check, r: Request, id: string, schedule: string, grace: nat, pinged: Instant)
    requires SameTerms(c, id, schedule, grace, pinged) && Respond(cal, c, r).Some?
    requires (r.Ping? ==> r.kind == Start) && (r.Edit? ==> Resaves(cal, r.form, schedule, grace))
    ensures SameTerms(Respond(cal, c, r).value, id, schedule, grace, pinged)
  {
    hide NextExpectedAt, Floor, ParseCheckForm;
  }

  lemma PassiveTerms(c: Check, now: Instant, id: string, schedule: string, grace: nat, pinged: Instant)
    requires SameTerms(c, id, schedule, grace, pinged)
    ensures SameTerms(MarkDown(c, now), id, schedule, grace, pinged) && SameTerms(Floored(c), id, schedule, grace, pinged)
  {
    FloorTwice(c.lastPingAt.value);
    hide Floor;
  }

  lemma WrittenAfter(cal: Calendar, s: State, e: Event, id: string)
    requires Writing(cal, s, e, id).Some?
    ensures id in s.st.cache && EntryAfter(cal, s, e, id) == Writing(cal, s, e, id).value.copy && (e.Commit? || e.Atomic?)
  {
    hide Look;
  }

  lemma EntryKeepsTerms(cal: Calendar, s: State, e: Event, id: string, schedule: string, grace: nat, pinged: Instant)
    requires Inv(cal, s) && id in s.st.cache && SameTerms(s.st.cache[id], id, schedule, grace, pinged)
    requires KeepsTerms(cal, s, e, id, schedule, grace, pinged)
    ensures SameTerms(EntryAfter(cal, s, e, id), id, schedule, grace, pinged)
  {
    hide EntryAfter, Inv, Resaves, Respond, Writing, SameTerms, MarkDown, Floored;
    var w := Writing(cal, s, e, id);
    if w.Some? {
      WrittenAfter(cal, s, e, id);
      if e.Atomic? {
        WritingOk(cal, s, e, id);
        AtomicBase(cal, s, e, id);
        RequestKeepsTerms(cal, s.st.cache[id], w.value.req, id, schedule, grace, pinged);
      }
    } else {
      UnwrittenEntry(cal, s, e, id);
      PassiveTerms(s.st.cache[id], if e.Evaluate? then e.now else 0, id, schedule, grace, pinged);
    }
  }

  lemma AtomicBase(cal: Calendar, s: State, e: Event, id: string)
    requires e.Atomic? && Writing(cal, s, e, id).Some?
    ensures id in s.st.cache && Writing(cal, s, e, id).value.base == s.st.cache[id]
  {
    hide Respond;
  }

  lemma {:induction false} TermsKept(cal: Calendar, s: State, evs: seq<Event>, id: string, schedule: string, grace: nat, pinged: Instant)
    requires Inv(cal, s) && id in s.st.cache && SameTerms(s.st.cache[id], id, schedule, grace, pinged)
    requires AllKeepTerms(cal, s, evs, id, schedule, grace, pinged)
    requires id in Steps(cal, s, evs).st.cache
    ensures SameTerms(Steps(cal, s, evs).st.cache[id], id, schedule, grace, pinged)
  {
    hide Step, Inv, SameTerms, EntryAfter, KeepsTerms;
    if evs != [] {
      var p, e := evs[..|evs| - 1], evs[|evs| - 1];
      var t := Steps(cal, s, p);
      StepsKeep(cal, s, p);
      if id in t.st.cache {
        TermsKept(cal, s, p, id, schedule, grace, pinged);
        EntryStep(cal, t, e, id);
        EntryKeepsTerms(cal, t, e, id, schedule, grace, pinged);
      } else {
        UsedStays(cal, s, p, id);
        Appears(cal, t, e, id);
      }
    }
  }

  lemma {:induction false} UsedStays(cal: Calendar, s: State, evs: seq<Event>, id: string)
    requires Inv(cal, s) && id in s.st.cache
    ensures id in Steps(cal, s, evs).used
  {
    if evs == [] {
    } else {
      UsedStays(cal, s, evs[..|evs| - 1], id);
      UsedGrows(cal, Steps(cal, s, evs[..|evs| - 1]), evs[|evs| - 1]);
    }
  }

  /** The event saves an edit with the given terms; if it was read before, then from a record with them. */
  ghost predicate Resaving(cal: Calendar, s: State, e: Event, id: string, schedule: string, grace: nat, pinged: Instant)
  {
    var w := Writing(cal, s, e, id);
    && w.Some? && w.value.req.Edit? && Resaves(cal, w.value.req.form, schedule, grace)
    && (e.Commit? ==> SameTerms(w.value.base, id, schedule, grace, pinged))
  }

  lemma WrittenEntry(cal: Calendar, s: State, e: Event, id: string)
    requires Inv(cal, s) && Writing(cal, s, e, id).Some?
    ensures var w := Writing(cal, s, e, id).value;
            && id in s.st.cache && id in Step(cal, s, e).st.cache && Step(cal, s, e).st.cache[id] == w.copy
            && Respond(cal, w.base, w.req) == Some(w.copy) && WellFormed(cal, w.base) && w.base.id == id
  {
    hide Step, Inv, Respond, WellFormed;
    WritingOk(cal, s, e, id);
    EntryStep(cal, s, e, id);
  }

  lemma CompletionDeadline(cal: Calendar, c: Check, r: Request)
    requires WellFormed(cal, c) && r.Ping? && r.kind != Start && Respond(cal, c, r).Some?
    ensures var d := Respond(cal, c, r).value;
            && d.nextExpectedAt == NextExpectedAt(cal, c.schedule, c.grace, r.now) && d.nextExpectedAt.Some?
            && Floor(d.nextExpectedAt.value) == d.nextExpectedAt.value
            && SameTerms(d, c.id, c.schedule, c.grace, r.now) && Validate(cal, c.schedule)
  {
    ScheduleValid(cal, c);
    DeadlineShape(cal, c.schedule, c.grace, r.now);
    hide NextExpectedAt, Lawful, Floor;
  }

  /** Saving the edit form with unchanged schedule and grace gives back the deadline that the last completion set,
      whatever starts, pauses, passes, failures, restarts and late commits lie in between, as long as none of them writes
      another schedule, grace or last ping to the check; that deadline is a whole second. */
  lemma ResaveRestoresDeadline(cal: Calendar, s: State, id: string, ping: Event, evs: seq<Event>, save: Event)
    requires Inv(cal, s) && Completes(cal, s, ping, id)
    requires var w := Writing(cal, s, ping, id).value; var done := Step(cal, s, ping);
             && AllKeepTerms(cal, done, evs, id, w.copy.schedule, w.copy.grace, w.req.now)
             && Resaving(cal, Steps(cal, done, evs), save, id, w.copy.schedule, w.copy.grace, w.req.now)
    ensures var done := Step(cal, s, ping);
            var saved := Step(cal, Steps(cal, done, evs), save);
            && id in done.st.cache && id in saved.st.cache
            && saved.st.cache[id].nextExpectedAt == done.st.cache[id].nextExpectedAt
            && done.st.cache[id].nextExpectedAt.Some?
            && Floor(done.st.cache[id].nextExpectedAt.value) == done.st.cache[id].nextExpectedAt.value
  {
    hide Step, Steps, Inv, NextExpectedAt, ParseCheckForm, Lawful, WellFormed, Respond, Writing, SameTerms, Floor, Resaves, AllKeepTerms;
    var w, done := Writing(cal, s, ping, id).value, Step(cal, s, ping);
    WrittenEntry(cal, s, ping, id);
    StepKeeps(cal, s, ping);
    CompletionDeadline(cal, w.base, w.req);
    TermsOf(w.copy, w.base, w.req.now);
    var t := Steps(cal, done, evs);
    StepsKeep(cal, done, evs);
    var v := Writing(cal, t, save, id).value;
    WrittenEntry(cal, t, save, id);
    TermsKept(cal, done, evs, id, w.copy.schedule, w.copy.grace, w.req.now);
    if !save.Commit? {
      WrittenAfter(cal, t, save, id);
      AtomicBase(cal, t, save, id);
    }
    EditRestores(cal, v.base, v.req, id, w.copy.schedule, w.copy.grace, w.req.now);
  }

  lemma TermsOf(d: Check, c: Check, pinged: Instant)
    requires SameTerms(d, c.id, c.schedule, c.grace, pinged)
    ensures d.schedule == c.schedule && d.grace == c.grace
  {
  }

  lemma AtEntry(cal: Calendar, s: State, id: string)
    requires Inv(cal, s) && id in s.st.cache
    ensures s.st.cache[id].id == id && WellFormed(cal, s.st.cache[id])
  {
    hide RowOf, PendingOk;
  }

  lemma ScheduleValid(cal: Calendar, c: Check)
    requires WellFormed(cal, c)
    ensures Validate(cal, c.schedule)
  {
  }

  lemma EditRestores(cal: Calendar, c: Check, r: Request, id: string, schedule: string, grace: nat, pinged: Instant)
    requires SameTerms(c, id, schedule, grace, pinged) && r.Edit? && Resaves(cal, r.form, schedule, grace)
    requires Respond(cal, c, r).Some? && Validate(cal, schedule)
    ensures Respond(cal, c, r).value.nextExpectedAt == NextExpectedAt(cal, schedule, grace, pinged)
  {
    DeadlineFromFloor(cal, schedule, grace, pinged);
    DeadlineFromFloor(cal, schedule, grace, c.lastPingAt.value);
    hide ParseCheckForm, Lawful, Floor;
  }
}
