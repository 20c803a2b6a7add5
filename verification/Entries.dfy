/** How one step of any run moves a single cache entry. */
module Entries {
  import opened Text
  import opened TimeCodec
  import opened Schedule
  import opened Model
  import opened CheckRows
  import opened Transitions
  import opened WriteThrough
  import opened Protocol
  import opened Coherence

  /** The request whose copy a step puts into the entry of a check, whether it was read just now or long before. */
  function Writing(cal: Calendar, s: State, e: Event, id: string): Option<Pending>
  {
    if id !in s.st.cache then None else
    match e
    case Commit(rid, fault) => if rid in s.pending && !fault && s.pending[rid].copy.id == id then Some(s.pending[rid]) else None
    case Atomic(req, fault) => if !fault && req.id == id then Look(cal, s, req) else None
    case _ => None
  }

  function EntryAfter(cal: Calendar, s: State, e: Event, id: string): Check
    requires id in s.st.cache
  {
    var c := s.st.cache[id];
    match e
    case Evaluate(now, faults) => if Overdue(c, now) && id !in faults then MarkDown(c, now) else c
    case Restart => if Hydrate(s.st.rows).Some? then Floored(c) else c
    case _ => if Writing(cal, s, e, id).Some? then Writing(cal, s, e, id).value.copy else c
  }

  lemma CommitEntry(cal: Calendar, s: State, rid: nat, fault: bool, id: string)
    requires Inv(cal, s) && id in s.st.cache
    ensures var t := Step(cal, s, Commit(rid, fault));
            id in t.st.cache && t.st.cache[id] == EntryAfter(cal, s, Commit(rid, fault), id)
  {
    hide RowOf, Updated, AlertsFor, Respond, WellFormed, PendingOk, MarkStale, Call;
  }

  lemma AtomicEntry(cal: Calendar, s: State, req: Request, fault: bool, id: string)
    requires Inv(cal, s) && id in s.st.cache
    ensures var t := Step(cal, s, Atomic(req, fault));
            id in t.st.cache && t.st.cache[id] == EntryAfter(cal, s, Atomic(req, fault), id)
  {
    hide RowOf, Updated, AlertsFor, Respond, WellFormed, PendingOk, MarkStale, Call;
    if Look(cal, s, req).Some? {
      assert Look(cal, s, req).value.copy.id == req.id by { LookOk(cal, s, req); PendingId(cal, s, Look(cal, s, req).value); }
    }
  }

  lemma PendingId(cal: Calendar, s: State, p: Pending)
    ensures PendingOk(cal, s, p) ==> p.copy.id == p.base.id == p.req.id
  {
  }

  /** What a step writes answers its request from a well-formed record of that check. */
  lemma WritingOk(cal: Calendar, s: State, e: Event, id: string)
    requires Inv(cal, s) && Writing(cal, s, e, id).Some?
    ensures var p := Writing(cal, s, e, id).value;
            && p.copy.id == p.base.id == p.req.id == id
            && WellFormed(cal, p.base) && WellFormed(cal, p.copy) && Respond(cal, p.base, p.req) == Some(p.copy)
  {
    hide RowOf, WellFormed, Respond, Coherent;
    if e.Atomic? {
      LookOk(cal, s, e.req);
    } else {
      assert PendingOk(cal, s, s.pending[e.rid]);
    }
  }

  lemma BeginEntry(cal: Calendar, s: State, e: Event, id: string)
    requires id in s.st.cache && e.Begin?
    ensures id in Step(cal, s, e).st.cache && Step(cal, s, e).st.cache[id] == EntryAfter(cal, s, e, id)
  {
    hide Look;
  }

  lemma CreateEntry(cal: Calendar, s: State, e: Event, id: string)
    requires Inv(cal, s) && id in s.st.cache && e.CreateCheck?
    ensures id in Step(cal, s, e).st.cache && Step(cal, s, e).st.cache[id] == EntryAfter(cal, s, e, id)
  {
    hide RowOf, Updated, WellFormed, PendingOk, NewCheck, ParseCheckForm, Coherent, Look;
    if ParseCheckForm(cal, e.form).Some? {
      NewCheckWellFormed(cal, e.id, e.form, e.now);
    }
  }

  lemma EvaluateEntry(cal: Calendar, s: State, now: Instant, faults: set<string>, id: string)
    requires Inv(cal, s) && id in s.st.cache
    ensures var t := Step(cal, s, Evaluate(now, faults));
            id in t.st.cache && t.st.cache[id] == EntryAfter(cal, s, Evaluate(now, faults), id)
  {
    hide RowOf, Updated, WellFormed, PendingOk, MarkStale, Overdue;
  }

  lemma DeleteEntry(cal: Calendar, s: State, e: Event, id: string)
    requires Inv(cal, s) && id in s.st.cache && e.DeleteCheck?
    ensures if id in Step(cal, s, e).st.cache then Step(cal, s, e).st.cache[id] == EntryAfter(cal, s, e, id) else e.id == id
  {
    hide RowOf, WellFormed, PendingOk, Look;
  }

  lemma RestartEntry(cal: Calendar, s: State, id: string)
    requires Inv(cal, s) && id in s.st.cache
    ensures id in Step(cal, s, Restart).st.cache
    ensures Step(cal, s, Restart).st.cache[id] == EntryAfter(cal, s, Restart, id)
  {
    hide Hydrate, RowOf, Scan, WellFormed, PendingOk, Floored, Datable;
    HydrateCoherent(s.st);
  }

  /** An entry that survives a step has moved as EntryAfter says; only its own delete removes it. */
  lemma EntryStep(cal: Calendar, s: State, e: Event, id: string)
    requires Inv(cal, s) && id in s.st.cache
    ensures id in Step(cal, s, e).st.cache ==> Step(cal, s, e).st.cache[id] == EntryAfter(cal, s, e, id)
    ensures id !in Step(cal, s, e).st.cache ==> e.DeleteCheck? && e.id == id
  {
    hide Step, Inv, EntryAfter;
    match e {
      case Begin(_, _) => BeginEntry(cal, s, e, id);
      case Commit(rid, fault) => CommitEntry(cal, s, rid, fault, id);
      case Atomic(req, fault) => AtomicEntry(cal, s, req, fault, id);
      case CreateCheck(_, _, _, _) => CreateEntry(cal, s, e, id);
      case DeleteCheck(_, _) => DeleteEntry(cal, s, e, id);
      case Evaluate(now, faults) => EvaluateEntry(cal, s, now, faults, id);
      case Restart => RestartEntry(cal, s, id);
    }
  }

  /** A check that appears is new and unpaused, and its id was not generated before. */
  lemma Appears(cal: Calendar, s: State, e: Event, id: string)
    requires Inv(cal, s) && id !in s.st.cache && id in Step(cal, s, e).st.cache
    ensures id !in s.used && Step(cal, s, e).st.cache[id].status == New && e.CreateCheck?
  {
    hide RowOf, Updated, AlertsFor, Respond, MarkStale, Call, WellFormed, PendingOk, Hydrate, NewCheck, Floored, Scan, Datable, Look;
    if e.Restart? {
      HydrateCoherent(s.st);
    } else if e.CreateCheck? {
      if ParseCheckForm(cal, e.form).Some? {
        CreatedNew(cal, e.id, e.form, e.now);
      }
      hide ParseCheckForm;
    } else {
      hide ParseCheckForm;
    }
  }

  lemma CreatedNew(cal: Calendar, id: string, form: Form, now: Instant)
    requires ParseCheckForm(cal, form).Some?
    ensures var c := NewCheck(cal, id, ParseCheckForm(cal, form).value, now); c.Some? && c.value.id == id && c.value.status == New
  {
    NewCheckWellFormed(cal, id, form, now);
    hide ParseCheckForm, NextExpectedAt;
  }

  lemma UsedGrows(cal: Calendar, s: State, e: Event)
    ensures s.used <= Step(cal, s, e).used
  {
    hide RowOf, Updated, AlertsFor, Scan, NewCheck, ParseCheckForm, MarkStale, Respond, Hydrate;
  }

  /** How far a write makes the copies of its check stale, and no others. */
  lemma WriteStale(cal: Calendar, s: State, u: State, p: Pending, fault: bool, rid: nat)
    requires Inv(cal, s) && u == s.(pending := u.pending) && rid in u.pending
    ensures var t := Write(u, p, fault);
            && rid in t.pending && t.pending[rid].(stale := u.pending[rid].stale) == u.pending[rid]
            && (t.pending[rid].stale <==>
                  u.pending[rid].stale || (!fault && p.copy.id in s.st.cache && p.copy.id == u.pending[rid].copy.id))
  {
    hide RowOf, Updated, WellFormed, AlertsFor, Call, PendingOk;
  }

  ghost predicate Disturbs(cal: Calendar, s: State, e: Event, id: string)
  {
    || Writing(cal, s, e, id).Some?
    || (e.Evaluate? && id in s.st.cache && id !in e.faults && Overdue(s.st.cache[id], e.now))
  }

  lemma CommitStale(cal: Calendar, s: State, other: nat, fault: bool, rid: nat)
    requires Inv(cal, s) && rid in s.pending && rid in Step(cal, s, Commit(other, fault)).pending
    ensures var q, p := s.pending[rid], Step(cal, s, Commit(other, fault)).pending[rid];
            p.(stale := q.stale) == q && (p.stale <==> q.stale || Disturbs(cal, s, Commit(other, fault), q.copy.id))
  {
    hide Inv, Write, Overdue;
    if other in s.pending {
      var u := s.(pending := s.pending - {other});
      assert rid != other by {
        if rid == other {
          WriteDrops(u, s.pending[other], fault, rid);
        }
      }
      WriteStale(cal, s, u, s.pending[other], fault, rid);
    }
  }

  lemma WriteDrops(u: State, p: Pending, fault: bool, rid: nat)
    requires rid !in u.pending
    ensures rid !in Write(u, p, fault).pending
  {
    hide Set, AlertsFor, Call;
  }

  lemma LookFound(cal: Calendar, s: State, req: Request)
    ensures Look(cal, s, req).Some? ==> Look(cal, s, req).value.req == req && req.id in s.st.cache
  {
    hide Respond;
  }

  lemma AtomicStale(cal: Calendar, s: State, req: Request, fault: bool, rid: nat)
    requires Inv(cal, s) && rid in s.pending && rid in Step(cal, s, Atomic(req, fault)).pending
    ensures var q, p := s.pending[rid], Step(cal, s, Atomic(req, fault)).pending[rid];
            p.(stale := q.stale) == q && (p.stale <==> q.stale || Disturbs(cal, s, Atomic(req, fault), q.copy.id))
  {
    hide Inv, Write, Overdue, Look;
    var look := Look(cal, s, req);
    LookFound(cal, s, req);
    if look.Some? {
      LookOk(cal, s, req);
      PendingId(cal, s, look.value);
      WriteStale(cal, s, s, look.value, fault, rid);
    }
  }

  lemma OtherStale(cal: Calendar, s: State, e: Event, rid: nat)
    requires Inv(cal, s) && rid in s.pending && rid in Step(cal, s, e).pending && !e.Commit? && !e.Atomic?
    ensures var q, p := s.pending[rid], Step(cal, s, e).pending[rid];
            p.(stale := q.stale) == q && (p.stale <==> q.stale || Disturbs(cal, s, e, q.copy.id))
  {
    hide RowOf, Updated, WellFormed, PendingOk, NewCheck, ParseCheckForm, Hydrate, Create, Delete, Overdue, Look;
  }

  lemma BeginsFresh(cal: Calendar, s: State, e: Event, rid: nat)
    requires rid !in s.pending && rid in Step(cal, s, e).pending
    ensures e.Begin? && e.rid == rid && Step(cal, s, e).pending[rid].req == e.req && !Step(cal, s, e).pending[rid].stale
  {
    hide Respond, NewCheck, ParseCheckForm, Hydrate, Create, Delete, Tick, Expired, AlertsFor, Call, Set;
  }

  /** A private copy begins fresh, and becomes stale exactly by a write to its check: another request's copy that goes in, or
      an evaluation that takes the check down. */
  lemma StaleExactly(cal: Calendar, s: State, e: Event, rid: nat)
    requires Inv(cal, s) && rid in Step(cal, s, e).pending
    ensures var p := Step(cal, s, e).pending[rid];
            if rid !in s.pending then e.Begin? && e.rid == rid && e.req == p.req && !p.stale
            else
              && p.(stale := s.pending[rid].stale) == s.pending[rid]
              && (p.stale <==>
                    || s.pending[rid].stale
                    || Writing(cal, s, e, p.copy.id).Some?
                    || (e.Evaluate? && p.copy.id in s.st.cache && p.copy.id !in e.faults && Overdue(s.st.cache[p.copy.id], e.now)))
  {
    hide Step, Inv, Writing, Overdue;
    if rid !in s.pending {
      BeginsFresh(cal, s, e, rid);
    } else {
      match e {
        case Commit(other, fault) => CommitStale(cal, s, other, fault, rid);
        case Atomic(req, fault) => AtomicStale(cal, s, req, fault, rid);
        case _ => OtherStale(cal, s, e, rid);
      }
    }
  }
}
