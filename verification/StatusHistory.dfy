/** What a check's status says about its history, in runs with any interleaving: exactly when it means what it should. */
module StatusHistory {
  import opened Text
  import opened TimeCodec
  import opened Schedule
  import opened Model
  import opened CheckRows
  import opened Transitions
  import opened WriteThrough
  import opened Protocol
  import opened Coherence
  import opened Reduction
  import opened Entries

  /** The event commits a completion ping that the check accepted. */
  predicate Completes(cal: Calendar, s: State, e: Event, id: string)
  {
    var w := Writing(cal, s, e, id);
    w.Some? && w.value.req.Ping? && w.value.req.kind != Start
  }

  /** The event is an evaluation that finds the check unpaused and past the deadline then in force. */
  predicate Misses(s: State, e: Event, id: string)
  {
    && e.Evaluate? && id !in e.faults && id in s.st.cache && s.st.cache[id].status != Paused
    && s.st.cache[id].nextExpectedAt.Some? && e.now > s.st.cache[id].nextExpectedAt.value
  }

  /** The event commits a pause toggle. */
  predicate Toggles(cal: Calendar, s: State, e: Event, id: string)
  {
    Writing(cal, s, e, id).Some? && Writing(cal, s, e, id).value.req.TogglePause?
  }

  /** A commit other than a completion comes from a record with the effective status the entry has now. */
  predicate KeepsStatus(cal: Calendar, s: State, e: Event, id: string)
  {
    var w := Writing(cal, s, e, id);
    w.Some? && !Completes(cal, s, e, id) ==> w.value.base.Effective() == s.st.cache[id].Effective()
  }

  /** A commit comes from a record that was paused exactly if the entry is paused now. */
  predicate KeepsPause(cal: Calendar, s: State, e: Event, id: string)
  {
    var w := Writing(cal, s, e, id);
    w.Some? ==> (w.value.base.status == Paused <==> s.st.cache[id].status == Paused)
  }

  predicate Completed(cal: Calendar, evs: seq<Event>, k: nat, id: string)
  {
    k < |evs| && Completes(cal, Run(cal, evs[..k]), evs[k], id)
  }

  predicate Missed(cal: Calendar, evs: seq<Event>, k: nat, id: string)
  {
    k < |evs| && Misses(Run(cal, evs[..k]), evs[k], id)
  }

  ghost predicate EverCompleted(cal: Calendar, evs: seq<Event>, id: string)
  {
    exists k: nat :: Completed(cal, evs, k, id)
  }

  /** Some evaluation after a completion found the deadline missed, and nothing completed since. */
  ghost predicate LastRunMissed(cal: Calendar, evs: seq<Event>, id: string)
  {
    exists m: nat :: Missed(cal, evs, m, id) && EverCompleted(cal, evs[..m], id)
                     && forall k: nat :: m < k ==> !Completed(cal, evs, k, id)
  }

  lemma RequestMoves(cal: Calendar, c: Check, r: Request)
    requires WellFormed(cal, c) && Respond(cal, c, r).Some?
    ensures var d := Respond(cal, c, r).value;
            && d.Effective() == (if r.Ping? && r.kind != Start then Up else c.Effective())
            && (d.status == Paused) == (if r.TogglePause? then c.status != Paused else c.status == Paused)
  {
    hide NextExpectedAt, ParseCheckForm, Validate;
  }

  /** The effective status of a check after a step: that of the record a commit comes from, unless it is a completion. */
  function EffectiveAfter(cal: Calendar, s: State, e: Event, id: string): Status
    requires id in s.st.cache
  {
    var c := s.st.cache[id];
    if Completes(cal, s, e, id) then Up
    else if Writing(cal, s, e, id).Some? then Writing(cal, s, e, id).value.base.Effective()
    else if Misses(s, e, id) && c.Effective() == Up then Down
    else c.Effective()
  }

  predicate PausedAfter(cal: Calendar, s: State, e: Event, id: string)
    requires id in s.st.cache
  {
    if Toggles(cal, s, e, id) then Writing(cal, s, e, id).value.base.status != Paused
    else if Writing(cal, s, e, id).Some? then Writing(cal, s, e, id).value.base.status == Paused
    else s.st.cache[id].status == Paused
  }

  lemma WrittenMoves(cal: Calendar, s: State, e: Event, id: string)
    requires Inv(cal, s) && Writing(cal, s, e, id).Some?
    ensures id in s.st.cache && EntryAfter(cal, s, e, id).Effective() == EffectiveAfter(cal, s, e, id)
    ensures (EntryAfter(cal, s, e, id).status == Paused) == PausedAfter(cal, s, e, id)
  {
    WritingOk(cal, s, e, id);
    var p := Writing(cal, s, e, id).value;
    assert id in s.st.cache && EntryAfter(cal, s, e, id) == p.copy;
    hide Inv, WellFormed, Respond, Writing, EntryAfter;
    RequestMoves(cal, p.base, p.req);
  }

  /** Apart from writes, an entry is taken down, or floored by a restart, or left alone. */
  lemma UnwrittenEntry(cal: Calendar, s: State, e: Event, id: string)
    requires id in s.st.cache && Writing(cal, s, e, id).None?
    ensures var c, d := s.st.cache[id], EntryAfter(cal, s, e, id);
            if e.Evaluate? && Overdue(c, e.now) && id !in e.faults then d == MarkDown(c, e.now)
            else d == c || (e.Restart? && d == Floored(c))
  {
    hide Hydrate, Floored, Overdue, MarkDown, Look;
  }

  lemma OverdueMoves(c: Check, now: Instant)
    requires c.status == Paused || c.status == c.Effective()
    ensures Overdue(c, now) <==> c.status != Paused && c.Effective() == Up && c.nextExpectedAt.Some? && now > c.nextExpectedAt.value
    ensures MarkDown(c, now).status == Down && MarkDown(c, now).Effective() == Down
    ensures Floored(c).Effective() == c.Effective() && Floored(c).status == c.status
  {
    hide FloorPtr, Floor;
  }

  lemma UnwrittenMoves(cal: Calendar, s: State, e: Event, id: string)
    requires Inv(cal, s) && Writing(cal, s, e, id).None? && id in s.st.cache
    ensures EntryAfter(cal, s, e, id).Effective() == EffectiveAfter(cal, s, e, id)
    ensures (EntryAfter(cal, s, e, id).status == Paused) == PausedAfter(cal, s, e, id)
  {
    hide Writing, EntryAfter, Inv;
    var c, d := s.st.cache[id], EntryAfter(cal, s, e, id);
    var missed := e.Evaluate? && id !in e.faults && c.status != Paused && c.nextExpectedAt.Some? && e.now > c.nextExpectedAt.value;
    assert EffectiveAfter(cal, s, e, id) == (if missed && c.Effective() == Up then Down else c.Effective());
    assert PausedAfter(cal, s, e, id) == (c.status == Paused);
    hide *;
    EntryStatuses(cal, s, id);
    UnwrittenEntry(cal, s, e, id);
    OverdueMoves(c, if e.Evaluate? then e.now else 0);
    assert d == c || d == Floored(c) || (e.Evaluate? && d == MarkDown(c, e.now));
  }

  /** How one step of any run moves the status of a check. */
  lemma EffectiveStep(cal: Calendar, s: State, e: Event, id: string)
    requires Inv(cal, s) && id in s.st.cache && id in Step(cal, s, e).st.cache
    ensures Step(cal, s, e).st.cache[id].Effective() == EffectiveAfter(cal, s, e, id)
    ensures (Step(cal, s, e).st.cache[id].status == Paused) == PausedAfter(cal, s, e, id)
  {
    hide Step, Inv, EffectiveAfter, PausedAfter, EntryAfter, Writing;
    EntryStep(cal, s, e, id);
    if Writing(cal, s, e, id).Some? {
      WrittenMoves(cal, s, e, id);
    } else {
      UnwrittenMoves(cal, s, e, id);
    }
  }

  lemma EntryStatuses(cal: Calendar, s: State, id: string)
    requires Inv(cal, s) && id in s.st.cache
    ensures s.st.cache[id].id == id && id in s.used
    ensures s.st.cache[id].Effective() in {New, Up, Down}
    ensures s.st.cache[id].status in {s.st.cache[id].Effective(), Paused}
  {
    hide RowOf, PendingOk;
    assert WellFormed(cal, s.st.cache[id]);
  }

  lemma {:induction false} UsedLater(cal: Calendar, evs: seq<Event>, k: nat, id: string)
    requires k <= |evs| && id in Run(cal, evs[..k]).st.cache
    ensures id in Run(cal, evs).used
  {
    if k == |evs| {
      assert evs[..k] == evs;
      RunInv(cal, evs);
    } else {
      var p := evs[..|evs| - 1];
      assert p[..k] == evs[..k];
      UsedLater(cal, p, k, id);
      UsedGrows(cal, Run(cal, p), evs[|evs| - 1]);
    }
  }

  lemma PrefixSame(cal: Calendar, evs: seq<Event>, n: nat, k: nat, id: string)
    requires k < n <= |evs|
    ensures Completed(cal, evs[..n], k, id) == Completed(cal, evs, k, id)
    ensures Missed(cal, evs[..n], k, id) == Missed(cal, evs, k, id)
  {
    assert evs[..n][..k] == evs[..k];
  }

  lemma LastEvent(cal: Calendar, evs: seq<Event>, id: string)
    requires evs != []
    ensures var n := |evs| - 1;
            && Completed(cal, evs, n, id) == Completes(cal, Run(cal, evs[..n]), evs[n], id)
            && Missed(cal, evs, n, id) == Misses(Run(cal, evs[..n]), evs[n], id)
  {
  }

  lemma MissedAfterCompletion(cal: Calendar, evs: seq<Event>, id: string)
    ensures LastRunMissed(cal, evs, id) ==> EverCompleted(cal, evs, id)
  {
    hide Run, Completes, Misses;
    if LastRunMissed(cal, evs, id) {
      var m: nat :| Missed(cal, evs, m, id) && EverCompleted(cal, evs[..m], id);
      var c: nat :| Completed(cal, evs[..m], c, id);
      PrefixSame(cal, evs, m, c, id);
    }
  }

  lemma NothingBeforeCreation(cal: Calendar, evs: seq<Event>, id: string)
    requires evs != [] && id !in Run(cal, evs[..|evs| - 1]).used && evs[|evs| - 1].CreateCheck?
    ensures !EverCompleted(cal, evs, id) && !LastRunMissed(cal, evs, id)
  {
    hide Run, Look;
    var p := evs[..|evs| - 1];
    forall k: nat
      ensures !Completed(cal, evs, k, id)
    {
      if k < |p| && Completed(cal, evs, k, id) {
        assert p[..k] == evs[..k];
        UsedLater(cal, p, k, id);
      }
    }
    MissedAfterCompletion(cal, evs, id);
  }

  lemma NotBoth(cal: Calendar, s: State, e: Event, id: string)
    ensures !(Completes(cal, s, e, id) && Misses(s, e, id))
  {
  }

  lemma EverCompletedStep(cal: Calendar, evs: seq<Event>, id: string)
    requires evs != []
    ensures EverCompleted(cal, evs, id) <==>
            EverCompleted(cal, evs[..|evs| - 1], id) || Completed(cal, evs, |evs| - 1, id)
  {
    hide Run, Completes;
    var n := |evs| - 1;
    forall k: nat | k < n
      ensures Completed(cal, evs[..n], k, id) == Completed(cal, evs, k, id)
    {
      PrefixSame(cal, evs, n, k, id);
    }
    if EverCompleted(cal, evs, id) {
      var k: nat :| Completed(cal, evs, k, id);
      assert k < n ==> Completed(cal, evs[..n], k, id);
    }
    if EverCompleted(cal, evs[..n], id) {
      var k: nat :| Completed(cal, evs[..n], k, id);
      assert Completed(cal, evs, k, id);
    }
  }

  lemma LastRunMissedStep(cal: Calendar, evs: seq<Event>, id: string)
    requires evs != []
    ensures var n := |evs| - 1;
            LastRunMissed(cal, evs, id) <==>
            !Completed(cal, evs, n, id) &&
            (LastRunMissed(cal, evs[..n], id) || (Missed(cal, evs, n, id) && EverCompleted(cal, evs[..n], id)))
  {
    hide Run, Completes, Misses, EverCompleted;
    var n := |evs| - 1;
    var p := evs[..n];
    forall k: nat | k < n
      ensures Completed(cal, p, k, id) == Completed(cal, evs, k, id)
      ensures Missed(cal, p, k, id) == Missed(cal, evs, k, id)
      ensures p[..k] == evs[..k]
    {
      PrefixSame(cal, evs, n, k, id);
    }
    if LastRunMissed(cal, evs, id) {
      var m: nat :| Missed(cal, evs, m, id) && EverCompleted(cal, evs[..m], id)
                    && forall k: nat :: m < k ==> !Completed(cal, evs, k, id);
      if m < n {
        assert forall k: nat :: m < k ==> !Completed(cal, p, k, id);
        assert Missed(cal, p, m, id);
        assert LastRunMissed(cal, p, id);
      } else if Completed(cal, evs, n, id) {
        NotBoth(cal, Run(cal, evs[..n]), evs[n], id);
        assert false;
      }
    }
    if !Completed(cal, evs, n, id) {
      if LastRunMissed(cal, p, id) {
        var m: nat :| Missed(cal, p, m, id) && EverCompleted(cal, p[..m], id)
                      && forall k: nat :: m < k ==> !Completed(cal, p, k, id);
        assert Missed(cal, evs, m, id);
        assert forall k: nat :: m < k ==> !Completed(cal, evs, k, id);
      } else if Missed(cal, evs, n, id) && EverCompleted(cal, p, id) {
        assert forall k: nat :: n < k ==> !Completed(cal, evs, k, id);
      }
    }
  }

  /** What the effective status is meant to say: New exactly when no completion was ever accepted; Down exactly when the
      last completion is followed by a missed deadline; Up otherwise. */
  ghost predicate Means(cal: Calendar, evs: seq<Event>, id: string)
  {
    id in Run(cal, evs).st.cache ==>
      Tells(Run(cal, evs).st.cache[id].Effective(), EverCompleted(cal, evs, id), LastRunMissed(cal, evs, id))
  }

  lemma RunLast(cal: Calendar, evs: seq<Event>)
    requires evs != []
    ensures Run(cal, evs) == Step(cal, Run(cal, evs[..|evs| - 1]), evs[|evs| - 1])
  {
    hide Step;
  }

  /** The three statuses are told apart by the two questions about the history. */
  ghost predicate Tells(status: Status, ever: bool, missed: bool)
  {
    && (status == New <==> !ever)
    && (status == Down <==> missed)
    && (status == Up <==> ever && !missed)
  }

  lemma TellsStep(was: Status, ever: bool, missed: bool, completes: bool, misses: bool, base: Option<Status>, now: Status)
    requires Tells(was, ever, missed) && (base.Some? ==> !misses) && (completes ==> base.Some?)
    requires was != Paused && (base.Some? ==> base.value != Paused)
    requires now == if completes then Up else if base.Some? then base.value else if misses && was == Up then Down else was
    ensures Tells(now, ever || completes, !completes && (missed || (misses && ever))) <==> completes || base.None? || base.value == was
  {
  }

  lemma BaseStatus(cal: Calendar, s: State, e: Event, id: string)
    requires Inv(cal, s) && Writing(cal, s, e, id).Some?
    ensures Writing(cal, s, e, id).value.base.Effective() != Paused
  {
    WritingOk(cal, s, e, id);
    hide Inv, Writing, Respond, Validate;
  }

  /** One more event keeps the meaning exactly if it keeps the status. */
  lemma MeansStep(cal: Calendar, evs: seq<Event>, id: string)
    requires evs != [] && Means(cal, evs[..|evs| - 1], id)
    ensures Means(cal, evs, id) <==> KeepsStatus(cal, Run(cal, evs[..|evs| - 1]), evs[|evs| - 1], id)
  {
    hide Step, Run, Inv, Writing, Misses, EverCompleted, LastRunMissed, Completed, Missed, Tells;
    var n := |evs| - 1;
    var p, e := evs[..n], evs[n];
    var s, t := Run(cal, p), Run(cal, evs);
    RunInv(cal, p);
    RunInv(cal, evs);
    RunLast(cal, evs);
    if id in s.st.cache {
      if id in t.st.cache {
        MeansEntry(cal, evs, id);
      } else {
        EntryStep(cal, s, e, id);
        NoWrite(cal, s, e, id);
      }
    } else {
      NoWrite(cal, s, e, id);
      if id in t.st.cache {
        Appears(cal, s, e, id);
        NothingBeforeCreation(cal, evs, id);
        EntryStatuses(cal, t, id);
        TellsNothing(t.st.cache[id].status);
      }
    }
  }

  lemma TellsNothing(status: Status)
    ensures status == New ==> Tells(status, false, false)
  {
  }

  lemma NoWrite(cal: Calendar, s: State, e: Event, id: string)
    ensures id !in s.st.cache || e.DeleteCheck? ==> Writing(cal, s, e, id).None?
  {
  }

  lemma MeansEntry(cal: Calendar, evs: seq<Event>, id: string)
    requires evs != [] && Means(cal, evs[..|evs| - 1], id)
    requires id in Run(cal, evs[..|evs| - 1]).st.cache && id in Run(cal, evs).st.cache
    ensures Means(cal, evs, id) <==> KeepsStatus(cal, Run(cal, evs[..|evs| - 1]), evs[|evs| - 1], id)
  {
    hide Step, Run, Inv, Writing, Misses, EverCompleted, LastRunMissed, Completed, Missed, Tells;
    var n := |evs| - 1;
    var p, e := evs[..n], evs[n];
    var s := Run(cal, p);
    RunInv(cal, p);
    RunLast(cal, evs);
    EntryStatuses(cal, s, id);
    EffectiveStep(cal, s, e, id);
    LastEvent(cal, evs, id);
    EverCompletedStep(cal, evs, id);
    LastRunMissedStep(cal, evs, id);
    WrittenIsNoPass(cal, s, e, id);
    var w := Writing(cal, s, e, id);
    if w.Some? {
      BaseStatus(cal, s, e, id);
    }
    TellsStep(s.st.cache[id].Effective(), EverCompleted(cal, p, id), LastRunMissed(cal, p, id), Completes(cal, s, e, id), Misses(s, e, id),
              if w.Some? then Some(w.value.base.Effective()) else None, Run(cal, evs).st.cache[id].Effective());
  }

  lemma WrittenIsNoPass(cal: Calendar, s: State, e: Event, id: string)
    ensures Writing(cal, s, e, id).Some? ==> !Misses(s, e, id)
  {
  }

  /** The status means what it should after every event. */
  ghost predicate AlwaysMeans(cal: Calendar, evs: seq<Event>, id: string)
  {
    Means(cal, evs, id) && (evs != [] ==> AlwaysMeans(cal, evs[..|evs| - 1], id))
  }

  predicate AllKeepStatus(cal: Calendar, evs: seq<Event>, id: string)
  {
    evs != [] ==>
      var p, e := evs[..|evs| - 1], evs[|evs| - 1];
      AllKeepStatus(cal, p, id) && KeepsStatus(cal, Run(cal, p), e, id)
  }

  /** The status means what it should after every event of an interleaved run exactly if every commit that is not a
      completion comes from a record with the effective status the entry has at that moment. */
  lemma {:induction false} StatusMeaningExactly(cal: Calendar, evs: seq<Event>, id: string)
    ensures AlwaysMeans(cal, evs, id) <==> AllKeepStatus(cal, evs, id)
  {
    hide Run, Means, KeepsStatus;
    if evs == [] {
      NothingMeans(cal, id);
    } else {
      var p := evs[..|evs| - 1];
      StatusMeaningExactly(cal, p, id);
      if AlwaysMeans(cal, p, id) {
        MeansStep(cal, evs, id);
      }
    }
  }

  lemma NothingMeans(cal: Calendar, id: string)
    ensures Means(cal, [], id)
  {
  }

  /** What the event writes comes from the entry as it is now. */
  predicate Fresh(cal: Calendar, s: State, e: Event, id: string)
  {
    var w := Writing(cal, s, e, id);
    w.Some? ==> w.value.base == s.st.cache[id]
  }

  lemma FreshWrite(cal: Calendar, s: State, e: Event, id: string)
    requires Tracked(s) && (e.Commit? && e.rid in s.pending ==> !s.pending[e.rid].stale)
    ensures Fresh(cal, s, e, id)
  {
    hide Respond;
    if e.Commit? && e.rid in s.pending {
      assert Current(s, s.pending[e.rid]);
    }
  }

  /** In a conflict-free run the last event, too, writes from the entry as it is. */
  lemma FreshLast(cal: Calendar, evs: seq<Event>, id: string)
    requires evs != [] && ConflictFree(cal, evs)
    ensures ConflictFree(cal, evs[..|evs| - 1]) && Fresh(cal, Run(cal, evs[..|evs| - 1]), evs[|evs| - 1], id)
  {
    hide Run;
    RunTracked(cal, evs[..|evs| - 1]);
    LastCommit(cal, evs);
    FreshWrite(cal, Run(cal, evs[..|evs| - 1]), evs[|evs| - 1], id);
  }

  lemma {:induction false} AtomicIsConflictFree(cal: Calendar, evs: seq<Event>)
    requires IsAtomic(evs)
    ensures ConflictFree(cal, evs)
  {
    hide Run;
    if evs != [] {
      AtomicIsConflictFree(cal, evs[..|evs| - 1]);
    }
  }

  lemma {:induction false} ConflictFreeKeeps(cal: Calendar, evs: seq<Event>, id: string)
    requires ConflictFree(cal, evs)
    ensures AllKeepStatus(cal, evs, id) && AllKeepPause(cal, evs, id)
  {
    if evs != [] {
      FreshLast(cal, evs, id);
      hide Run, Writing, ConflictFree;
      ConflictFreeKeeps(cal, evs[..|evs| - 1], id);
    }
  }

  /** Conflict-free runs, and with them runs in which every request is one step, meet the condition. */
  lemma StatusMeaning(cal: Calendar, evs: seq<Event>, id: string)
    requires IsAtomic(evs) || ConflictFree(cal, evs)
    ensures Means(cal, evs, id)
  {
    if IsAtomic(evs) {
      AtomicIsConflictFree(cal, evs);
    }
    hide Means, Run, ConflictFree;
    ConflictFreeKeeps(cal, evs, id);
    StatusMeaningExactly(cal, evs, id);
  }

  /** How many pause toggles of a check were carried out. */
  function ToggleCount(cal: Calendar, evs: seq<Event>, id: string): nat
  {
    if evs == [] then 0 else
    ToggleCount(cal, evs[..|evs| - 1], id) +
    if Toggles(cal, Run(cal, evs[..|evs| - 1]), evs[|evs| - 1], id) then 1 else 0
  }

  lemma {:induction false} NoToggleBeforeCreation(cal: Calendar, evs: seq<Event>, id: string)
    requires id !in Run(cal, evs).used
    ensures ToggleCount(cal, evs, id) == 0
  {
    if evs != [] {
      var p := evs[..|evs| - 1];
      UsedGrows(cal, Run(cal, p), evs[|evs| - 1]);
      NoToggleBeforeCreation(cal, p, id);
      RunInv(cal, p);
      hide Step, WellFormed, Coherent, PendingOk, Look;
    }
  }

  /** Paused exactly after an odd number of toggles. */
  predicate CountsPauses(cal: Calendar, evs: seq<Event>, id: string)
  {
    id in Run(cal, evs).st.cache ==>
      (Run(cal, evs).st.cache[id].status == Paused <==> ToggleCount(cal, evs, id) % 2 == 1)
  }

  lemma CountsStep(cal: Calendar, evs: seq<Event>, id: string)
    requires evs != [] && CountsPauses(cal, evs[..|evs| - 1], id)
    ensures CountsPauses(cal, evs, id) <==> KeepsPause(cal, Run(cal, evs[..|evs| - 1]), evs[|evs| - 1], id)
  {
    hide Step, Run, Inv, Writing;
    var p, e := evs[..|evs| - 1], evs[|evs| - 1];
    var s, t := Run(cal, p), Run(cal, evs);
    RunInv(cal, p);
    RunLast(cal, evs);
    NoWrite(cal, s, e, id);
    if id in s.st.cache {
      if id in t.st.cache {
        EffectiveStep(cal, s, e, id);
      } else {
        EntryStep(cal, s, e, id);
      }
    } else if id in t.st.cache {
      Appears(cal, s, e, id);
      NoToggleBeforeCreation(cal, p, id);
    }
  }

  predicate AlwaysCounts(cal: Calendar, evs: seq<Event>, id: string)
  {
    CountsPauses(cal, evs, id) && (evs != [] ==> AlwaysCounts(cal, evs[..|evs| - 1], id))
  }

  predicate AllKeepPause(cal: Calendar, evs: seq<Event>, id: string)
  {
    evs != [] ==>
      var p, e := evs[..|evs| - 1], evs[|evs| - 1];
      AllKeepPause(cal, p, id) && KeepsPause(cal, Run(cal, p), e, id)
  }

  /** The count of toggles tells whether a check is paused, after every event of an interleaved run, exactly if every
      commit comes from a record that was paused exactly if the entry is paused at that moment. */
  lemma {:induction false} PausedMeaningExactly(cal: Calendar, evs: seq<Event>, id: string)
    ensures AlwaysCounts(cal, evs, id) <==> AllKeepPause(cal, evs, id)
  {
    if evs == [] {
      assert CountsPauses(cal, [], id);
    } else {
      hide Run, CountsPauses, KeepsPause;
      var p := evs[..|evs| - 1];
      PausedMeaningExactly(cal, p, id);
      if AlwaysCounts(cal, p, id) {
        CountsStep(cal, evs, id);
      }
    }
  }

  /** Conflict-free runs, and with them runs in which every request is one step, meet the condition. */
  lemma PausedMeaning(cal: Calendar, evs: seq<Event>, id: string)
    requires IsAtomic(evs) || ConflictFree(cal, evs)
    ensures CountsPauses(cal, evs, id)
  {
    if IsAtomic(evs) {
      AtomicIsConflictFree(cal, evs);
    }
    hide CountsPauses, Run, ConflictFree;
    ConflictFreeKeeps(cal, evs, id);
    PausedMeaningExactly(cal, evs, id);
  }
}
