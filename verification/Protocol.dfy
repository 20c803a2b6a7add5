/** The check protocol as a step function.
    A request takes a private copy (Begin) and commits it later (Commit), with anything in between;
    Atomic is the same request in one step. An event that is not enabled changes nothing. */
module Protocol {
  import opened Text
  import opened TimeCodec
  import opened Schedule
  import opened Model
  import opened Transitions
  import opened WriteThrough

  /** A request between its Get and its Set: the record it read and the copy it will write.
      `stale` records that another write to the same check has been committed since the Get. */
  datatype Pending = Pending(req: Request, base: Check, copy: Check, stale: bool)

  /** `used` are the ids ever generated. `calls` is the transition log: check by check and in commit order, the alerts
      its committed writes call for. A Down or Up call is a transition as its writer saw it, made in the step that writes
      it; the alert itself is sent later, in a phase of its own, which Announcements models. */
  datatype State = State(
    st: Stores,
    pending: map<nat, Pending>,
    used: set<string>,
    calls: map<string, seq<AlertType>>)

  datatype Event =
    | Begin(rid: nat, req: Request)
    | Commit(rid: nat, fault: bool)
    | Atomic(req: Request, fault: bool)
    | CreateCheck(id: string, form: Form, now: Instant, fault: bool)
    | DeleteCheck(id: string, fault: bool)
    | Evaluate(now: Instant, faults: set<string>)
    | Restart

  const Init := State(Stores(map[], map[]), map[], {}, map[])

  function Log(s: State, id: string): seq<AlertType>
  {
    if id in s.calls then s.calls[id] else []
  }

  /** Get and the edit of the private copy; None is an early return. */
  function Look(cal: Calendar, s: State, req: Request): Option<Pending>
  {
    if req.id !in s.st.cache then None else
    var base := s.st.cache[req.id];
    match Respond(cal, base, req)
    case None => None
    case Some(copy) => Some(Pending(req, base, copy, false))
  }

  function MarkStale(pending: map<nat, Pending>, ids: set<string>): map<nat, Pending>
  {
    map r | r in pending :: if pending[r].copy.id in ids then pending[r].(stale := true) else pending[r]
  }

  function Call(calls: map<string, seq<AlertType>>, id: string, more: seq<AlertType>): map<string, seq<AlertType>>
  {
    calls[id := (if id in calls then calls[id] else []) + more]
  }

  /** Set, and the alerts a successful one calls for. */
  function Write(s: State, p: Pending, fault: bool): State
  {
    var (st, out) := Set(s.st, p.copy, fault);
    if out != Done then s else
    s.(st := st, pending := MarkStale(s.pending, {p.copy.id}),
       calls := Call(s.calls, p.copy.id, AlertsFor(p.base, p.req)))
  }

  function Pass(s: State, now: Instant, faults: set<string>): State
  {
    var gone := Expired(s.st, now, faults);
    s.(st := Tick(s.st, now, faults), pending := MarkStale(s.pending, gone),
       calls := map id | id in s.calls.Keys + gone :: Log(s, id) + if id in gone then [AlertDown] else [])
  }

  function Step(cal: Calendar, s: State, e: Event): State
  {
    match e
    case Begin(rid, req) =>
      if rid in s.pending || Look(cal, s, req).None? then s
      else s.(pending := s.pending[rid := Look(cal, s, req).value])
    case Commit(rid, fault) =>
      if rid !in s.pending then s else Write(s.(pending := s.pending - {rid}), s.pending[rid], fault)
    case Atomic(req, fault) =>
      if Look(cal, s, req).None? then s else Write(s, Look(cal, s, req).value, fault)
    case CreateCheck(id, form, now, fault) =>
      if id in s.used || ParseCheckForm(cal, form).None? then s else
      (match NewCheck(cal, id, ParseCheckForm(cal, form).value, now)
       case None => s
       case Some(c) => s.(st := Create(s.st, c, fault).0, used := s.used + {id}))
    case DeleteCheck(id, fault) => s.(st := Delete(s.st, id, fault).0)
    case Evaluate(now, faults) => Pass(s, now, faults)
    case Restart =>
      (match Hydrate(s.st.rows)
       case None => s
       case Some(cache) => s.(st := s.st.(cache := cache), pending := map[]))
  }

  /** The state after a run from the empty database. */
  function Run(cal: Calendar, evs: seq<Event>): State
  {
    if evs == [] then Init else Step(cal, Run(cal, evs[..|evs| - 1]), evs[|evs| - 1])
  }

  function Steps(cal: Calendar, s: State, evs: seq<Event>): State
  {
    if evs == [] then s else Step(cal, Steps(cal, s, evs[..|evs| - 1]), evs[|evs| - 1])
  }

  lemma {:induction false} RunSplits(cal: Calendar, a: seq<Event>, b: seq<Event>)
    ensures Run(cal, a + b) == Steps(cal, Run(cal, a), b)
  {
    if b == [] {
      assert a + b == a;
    } else {
      RunSplits(cal, a, b[..|b| - 1]);
      assert (a + b)[..|a + b| - 1] == a + b[..|b| - 1];
    }
  }

  /** A run in which every request is one step. */
  predicate IsAtomic(evs: seq<Event>)
  {
    forall i :: 0 <= i < |evs| ==> !evs[i].Begin? && !evs[i].Commit?
  }
}
