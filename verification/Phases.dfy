/** The sending phases of the handlers' and the scheduler's own code as steps of the pipeline: a goroutine that is not
    interrupted leaves the same queue. */
module Phases {
  import opened TimeCodec
  import opened Model
  import opened Transitions
  import opened WriteThrough
  import opened Tables
  import opened StateCache
  import opened AlertQueue
  import opened Handlers
  import opened Scheduler
  import A = Announcements
  import Q = Pipeline
  import Protocol

  /** The steps of a sender with these jobs when nothing comes between: for each job one look-up, then its sends. */
  function Steps(db: Db, i: nat, jobs: seq<Q.Job>, fails: seq<bool>): seq<Q.Event>
    requires |fails| == |jobs|
  {
    if jobs == [] then [] else
    var n := |jobs| - 1;
    Steps(db, i, jobs[..n], fails[..n]) + ([Q.Enlist(i, fails[n])] + Q.Sends(i, |Told(db, jobs[n], fails[n])|))
  }

  function Told(db: Db, job: Q.Job, fail: bool): seq<AlertEvent>
  {
    if fail then [] else EventsFor(db, job.check, job.alert)
  }

  /** The events of those jobs. */
  function AllTold(db: Db, jobs: seq<Q.Job>, fails: seq<bool>): seq<AlertEvent>
    requires |fails| == |jobs|
  {
    if jobs == [] then [] else
    var n := |jobs| - 1;
    AllTold(db, jobs[..n], fails[..n]) + Told(db, jobs[n], fails[n])
  }

  /** The sender is between two jobs, and the queue is open. */
  ghost predicate Between(s: Q.State, i: nat, jobs: seq<Q.Job>, db: Db)
  {
    && Q.Live(s, i) && s.senders[i].jobs == jobs && s.senders[i].outbox == []
    && !s.panicked && s.main != Q.Closed && s.main != Q.Exited && s.db == db
  }

  lemma OneEnlist(s: Q.State, i: nat, jobs: seq<Q.Job>, fail: bool)
    requires jobs != [] && Between(s, i, jobs, s.db)
    ensures var t := Q.Step(s, Q.Enlist(i, fail));
            && Q.Live(t, i) && t.senders[i].jobs == jobs[1..] && t.senders[i].outbox == Told(s.db, jobs[0], fail)
            && t.db == s.db && t.queue == s.queue && t.main == s.main && !t.panicked
  {
    hide ListChannels, Q.NoneLive;
  }

  lemma OneJob(s: Q.State, i: nat, jobs: seq<Q.Job>, fail: bool)
    requires jobs != [] && Between(s, i, jobs, s.db)
    ensures var t := Q.Run(s, [Q.Enlist(i, fail)] + Q.Sends(i, |Told(s.db, jobs[0], fail)|));
            Between(t, i, jobs[1..], s.db) && t.queue == Offered(s.queue, Told(s.db, jobs[0], fail))
  {
    var e, events := Q.Enlist(i, fail), Q.Sends(i, |Told(s.db, jobs[0], fail)|);
    OneEnlist(s, i, jobs, fail);
    hide Q.Run, Q.Step, Q.Sends, Told;
    Q.RunFirst(s, [e] + events);
    assert ([e] + events)[1..] == events;
    Q.BurstIsOffered(Q.Step(s, e), i);
  }

  lemma {:induction false} JobsServed(s: Q.State, i: nat, jobs: seq<Q.Job>, fails: seq<bool>, rest: seq<Q.Job>)
    requires |fails| == |jobs| && Between(s, i, jobs + rest, s.db)
    ensures var t := Q.Run(s, Steps(s.db, i, jobs, fails));
            Between(t, i, rest, s.db) && t.queue == Offered(s.queue, AllTold(s.db, jobs, fails))
  {
    if jobs == [] {
      assert jobs + rest == rest;
      OfferedNone(s.queue);
      return;
    }
    var n := |jobs| - 1;
    var most, last := jobs[..n], [jobs[n]] + rest;
    assert jobs + rest == most + last && last[1..] == rest;
    var t := Q.Run(s, Steps(s.db, i, most, fails[..n]));
    var tail := [Q.Enlist(i, fails[n])] + Q.Sends(i, |Told(s.db, jobs[n], fails[n])|);
    assert Steps(s.db, i, jobs, fails) == Steps(s.db, i, most, fails[..n]) + tail;
    assert AllTold(s.db, jobs, fails) == AllTold(s.db, most, fails[..n]) + Told(s.db, jobs[n], fails[n]);
    assert Between(t, i, last, s.db) ==> t.db == s.db;
    hide *;
    JobsServed(s, i, most, fails[..n], last);
    OneJob(t, i, last, fails[n]);
    Q.RunFrom(s, Steps(s.db, i, most, fails[..n]), tail);
    OfferedTwice(s.queue, AllTold(s.db, most, fails[..n]), Told(s.db, jobs[n], fails[n]));
  }

  // A ping.

  /** Which look-ups of a request fail. */
  function Unlisted(alerts: seq<AlertType>, faults: PingFaults): (r: seq<bool>)
    ensures |r| == |alerts|
  {
    seq(|alerts|, k requires 0 <= k < |alerts| => if alerts[k] == AlertUp then faults.unlistedUp else faults.unlistedFail)
  }

  lemma AllToldMore(db: Db, jobs: seq<Q.Job>, fails: seq<bool>, job: Q.Job, fail: bool)
    requires |fails| == |jobs|
    ensures AllTold(db, jobs + [job], fails + [fail]) == AllTold(db, jobs, fails) + Told(db, job, fail)
  {
    assert (jobs + [job])[..|jobs|] == jobs && (fails + [fail])[..|jobs|] == fails;
    hide Told;
  }

  lemma AlertsShape(base: Check, req: Request)
    ensures var (alerts, up) := (AlertsFor(base, req), AlertUp in AlertsFor(base, req));
            alerts == (if up then [AlertUp] else []) + if AlertFail in alerts then [AlertFail] else []
  {
  }

  lemma UpTold(db: Db, copy: Check, up: seq<AlertType>, n: nat, faults: PingFaults)
    requires up == [] || up == [AlertUp]
    ensures AllTold(db, A.JobsFrom(copy, up, n), Unlisted(up, faults)) == Burst(db, copy, AlertUp, up != [] && !faults.unlistedUp)
  {
    if up == [] {
      return;
    }
    var job, fail := Q.Job(copy, AlertUp, n), faults.unlistedUp;
    AllToldMore(db, [], [], job, fail);
    assert A.JobsFrom(copy, up, n) == [] + [job] && Unlisted(up, faults) == [] + [fail];
    assert AllTold(db, [], []) == [];
    hide AllTold, EventsFor;
    assert [] + Told(db, job, fail) == Told(db, job, fail);
  }

  lemma FailTold(db: Db, copy: Check, up: seq<AlertType>, wanted: bool, n: nat, faults: PingFaults)
    ensures var alerts := up + if wanted then [AlertFail] else [];
            AllTold(db, A.JobsFrom(copy, alerts, n), Unlisted(alerts, faults)) ==
            AllTold(db, A.JobsFrom(copy, up, n), Unlisted(up, faults)) + Burst(db, copy, AlertFail, wanted && !faults.unlistedFail)
  {
    var alerts := up + if wanted then [AlertFail] else [];
    if wanted {
      var job, fail := Q.Job(copy, AlertFail, n + |up|), faults.unlistedFail;
      assert A.JobsFrom(copy, alerts, n) == A.JobsFrom(copy, up, n) + [job];
      assert Unlisted(alerts, faults) == Unlisted(up, faults) + [fail];
      AllToldMore(db, A.JobsFrom(copy, up, n), Unlisted(up, faults), job, fail);
    } else {
      assert alerts == up;
    }
    hide AllTold, EventsFor;
  }

  lemma JobsTold(db: Db, base: Check, copy: Check, req: Request, faults: PingFaults, n: nat)
    ensures var alerts := AlertsFor(base, req);
            AllTold(db, A.JobsFrom(copy, alerts, n), Unlisted(alerts, faults)) ==
            RequestAlerts(db, base, copy, req, faults.unlistedUp, faults.unlistedFail)
  {
    AlertsShape(base, req);
    hide AlertsFor, AllTold, Unlisted, A.JobsFrom, Burst;
    var alerts := AlertsFor(base, req);
    var up := if AlertUp in alerts then [AlertUp] else [];
    UpTold(db, copy, up, n, faults);
    FailTold(db, copy, up, AlertFail in alerts, n, faults);
  }

  /** A handler past its Set, alone: the alerts the protocol calls for, listed and sent, leave the queue that the code of
      the handler leaves. */
  lemma PingIsPipeline(p: Q.State, i: nat, base: Check, copy: Check, req: Request, n: nat, faults: PingFaults)
    requires Between(p, i, [], p.db) && p.senders[i].role == Q.Handler
    ensures var jobs := A.JobsFrom(copy, AlertsFor(base, req), n);
            Q.Run(p, [Q.Ask(i, jobs)] + Steps(p.db, i, jobs, Unlisted(AlertsFor(base, req), faults))).queue ==
            AfterAlerts(p.db, p.queue, base, copy, req, faults)
  {
    var alerts := AlertsFor(base, req);
    var jobs := A.JobsFrom(copy, alerts, n);
    var ask, steps := Q.Ask(i, jobs), Steps(p.db, i, jobs, Unlisted(alerts, faults));
    var t := Q.Step(p, ask);
    assert t == p.(senders := p.senders[i := p.senders[i].(jobs := jobs)], asked := p.asked + jobs);
    assert jobs + [] == jobs && Between(t, i, jobs, t.db);
    assert t.db == p.db && t.queue == p.queue;
    assert ([ask] + steps)[1..] == steps;
    hide Q.Run, Q.Step, Steps, AllTold, Between, A.JobsFrom, AlertsFor, Unlisted, Offered, RequestAlerts;
    JobsTold(p.db, base, copy, req, faults, n);
    JobsServed(t, i, jobs, Unlisted(alerts, faults), []);
    Q.RunFirst(p, [ask] + steps);
  }

  // A pass.

  /** The order of the checks taken down. */
  function Ids(taken: seq<Check>): (r: seq<string>)
    ensures |r| == |taken| && forall k :: 0 <= k < |r| ==> r[k] == taken[k].id
  {
    seq(|taken|, k requires 0 <= k < |taken| => taken[k].id)
  }

  function UnlistedIds(ids: seq<string>, unlisted: set<string>): (r: seq<bool>)
    ensures |r| == |ids| && forall k :: 0 <= k < |r| ==> (r[k] <==> ids[k] in unlisted)
  {
    seq(|ids|, k requires 0 <= k < |ids| => ids[k] in unlisted)
  }

  lemma {:induction false} PassTold(db: Db, taken: seq<Check>, jobs: seq<Q.Job>, unlisted: set<string>)
    requires |jobs| == |taken| && forall k :: 0 <= k < |jobs| ==> jobs[k].check == taken[k] && jobs[k].alert == AlertDown
    ensures AllTold(db, jobs, UnlistedIds(Ids(taken), unlisted)) == PassAlerts(db, taken, unlisted)
  {
    if taken != [] {
      var n := |taken| - 1;
      assert UnlistedIds(Ids(taken), unlisted)[..n] == UnlistedIds(Ids(taken[..n]), unlisted);
      PassTold(db, taken[..n], jobs[..n], unlisted);
      hide EventsFor;
    }
  }

  /** The second phase of a pass, alone: the alerts of the checks the pass takes down, in the order of its loop, are those
      the protocol calls for, and listing and sending them leaves the queue that the code of the scheduler leaves. */
  lemma PassIsPipeline(p: Q.State, s: Protocol.State, order: seq<string>, now: Instant, faults: set<string>, unlisted: set<string>)
    requires (p.main == Q.Serving || p.main == Q.ServerDown) && !p.panicked && Q.NoneLive(p.senders, Q.Pass)
    requires Orders(order, s.st.cache.Keys) && forall id :: id in s.st.cache ==> s.st.cache[id].id == id
    ensures var ids := Ids(TakenDown(s.st, order, now, faults));
            && A.Lists(ids, Expired(s.st, now, faults))
            && var jobs := A.DownJobs(s, ids, now);
               Q.Run(p, [Q.BeginPass(jobs)] + Steps(p.db, |p.senders|, jobs, UnlistedIds(ids, unlisted))).queue ==
               Offered(p.queue, PassAlerts(p.db, TakenDown(s.st, order, now, faults), unlisted))
  {
    var taken := TakenDown(s.st, order, now, faults);
    var ids := Ids(taken);
    TakenDownExact(s.st, order, now, faults);
    IdsList(s.st, order, now, faults);
    var jobs := A.DownJobs(s, ids, now);
    forall k | 0 <= k < |jobs| ensures jobs[k].check == taken[k] && jobs[k].alert == AlertDown {
      assert taken[k] in taken;
    }
    PassTold(p.db, taken, jobs, unlisted);
    hide TakenDown, Expires, A.DownJobs, PassAlerts, A.Lists;
    PassServed(p, jobs, UnlistedIds(ids, unlisted));
  }

  lemma IdsList(s: Stores, order: seq<string>, now: Instant, faults: set<string>)
    requires Orders(order, s.cache.Keys) && forall id :: id in s.cache ==> s.cache[id].id == id
    ensures A.Lists(Ids(TakenDown(s, order, now, faults)), Expired(s, now, faults))
  {
    var taken := TakenDown(s, order, now, faults);
    TakenDownExact(s, order, now, faults);
    hide TakenDown, Overdue;
    var ids := Ids(taken);
    forall k | 0 <= k < |ids| ensures ids[k] in Expired(s, now, faults) {
      assert taken[k] in taken;
    }
    forall id | id in Expired(s, now, faults) ensures id in ids {
      assert MarkDown(s.cache[id], now) in taken;
      var k :| 0 <= k < |taken| && taken[k] == MarkDown(s.cache[id], now);
      assert ids[k] == id;
    }
  }

  lemma PassServed(p: Q.State, jobs: seq<Q.Job>, fails: seq<bool>)
    requires (p.main == Q.Serving || p.main == Q.ServerDown) && !p.panicked && Q.NoneLive(p.senders, Q.Pass)
    requires |fails| == |jobs|
    ensures Q.Run(p, [Q.BeginPass(jobs)] + Steps(p.db, |p.senders|, jobs, fails)).queue == Offered(p.queue, AllTold(p.db, jobs, fails))
  {
    var i := |p.senders|;
    var begin, steps := Q.BeginPass(jobs), Steps(p.db, i, jobs, fails);
    var t := Q.Step(p, begin);
    assert t == p.(senders := p.senders + [Q.Sender(Q.Pass, jobs, 0, [], false)], asked := p.asked + jobs);
    assert jobs + [] == jobs && Between(t, i, jobs, t.db);
    assert t.db == p.db && t.queue == p.queue;
    assert ([begin] + steps)[1..] == steps;
    hide *;
    JobsServed(t, i, jobs, fails, []);
    Q.RunFirst(p, [begin] + steps);
  }
}
