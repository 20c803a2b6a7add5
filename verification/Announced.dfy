/** What the alerts that reach the queue say about the transitions they announce, and when they come in their order. */
module Announced {
  import opened Schedule
  import opened Model
  import opened Protocol
  import opened Coherence
  import opened Reduction
  import opened Alternation
  import opened Announcements
  import Q = Pipeline

  /** The Down and Up alerts of a check that the queue accepted for a channel, in order. */
  function OnChannel(sent: seq<Sent>, id: string, channel: nat): (r: seq<Sent>)
    ensures forall x :: x in r ==> x in sent && x.event.check.id == id && x.event.channel.id == channel && x.event.alert != AlertFail
  {
    if sent == [] then [] else
    var most, last := sent[..|sent| - 1], sent[|sent| - 1];
    assert sent == most + [last];
    OnChannel(most, id, channel) +
    if last.event.check.id == id && last.event.channel.id == channel && last.event.alert != AlertFail then [last] else []
  }

  lemma OnChannelMore(sent: seq<Sent>, x: Sent, id: string, channel: nat)
    ensures OnChannel(sent + [x], id, channel) == OnChannel(sent, id, channel) +
            if x.event.check.id == id && x.event.channel.id == channel && x.event.alert != AlertFail then [x] else []
  {
    assert (sent + [x])[..|sent|] == sent;
  }

  function AlertsIn(sent: seq<Sent>): (r: seq<AlertType>)
    ensures |r| == |sent| && forall i :: 0 <= i < |r| ==> r[i] == sent[i].event.alert
  {
    seq(|sent|, i requires 0 <= i < |sent| => sent[i].event.alert)
  }

  /** How many transitions of a check come before a call. */
  function Place(log: seq<AlertType>, n: nat): nat
  {
    if n <= |log| then |Turns(log[..n])| else 0
  }

  /** A call that is a transition is the one at its place. */
  lemma {:induction false} TurnAt(log: seq<AlertType>, n: nat)
    requires n < |log| && log[n] != AlertFail
    ensures Place(log, n) < |Turns(log)| && Turns(log)[Place(log, n)] == log[n]
  {
    var most := log[..|log| - 1];
    if n < |most| {
      TurnAt(most, n);
      assert most[..n] == log[..n];
    } else {
      assert log[..n] == most;
    }
  }

  /** The k-th alert on the channel announces a transition with as many others before it, counted modulo two: an even
      number of the earlier ones is missing, or ahead. */
  ghost predicate InStep(log: seq<AlertType>, sent: seq<Sent>)
  {
    forall k :: 0 <= k < |sent| ==> Place(log, sent[k].n) % 2 == k % 2
  }

  lemma LabelledOnChannel(cal: Calendar, s: Joint, id: string, channel: nat, k: nat)
    requires JointInv(cal, s) && k < |OnChannel(SentLog(s), id, channel)|
    ensures var x := OnChannel(SentLog(s), id, channel)[k];
            x.n < |Log(s.proto, id)| && Log(s.proto, id)[x.n] == x.event.alert != AlertFail
  {
    var all := SentLog(s);
    var x := OnChannel(all, id, channel)[k];
    assert x in OnChannel(all, id, channel);
    hide Inv, OnChannel;
    var i :| 0 <= i < |all| && all[i] == x;
    assert Labelled(s.proto.calls, x.event.check, x.event.alert, x.n) by {
      SentLogLabelled(s);
    }
  }

  lemma SentLogLabelled(s: Joint)
    requires PipeLabelled(s.proto.calls, s.pipe) && SentLabelled(s.proto.calls, s.past)
    ensures SentLabelled(s.proto.calls, SentLog(s))
  {
    hide Labelled;
  }

  /** Each alert that the queue accepted announces a transition of its check, of its kind, under its number. */
  lemma AnnouncesTransition(cal: Calendar, moves: seq<Move>, id: string, channel: nat, k: nat)
    requires k < |OnChannel(SentLog(Play(cal, moves)), id, channel)|
    ensures var s := Play(cal, moves);
            var x := OnChannel(SentLog(s), id, channel)[k];
            x.n < |Log(s.proto, id)| && Log(s.proto, id)[x.n] == x.event.alert != AlertFail
  {
    hide Play, JointInv;
    PlayKeeps(cal, moves);
    LabelledOnChannel(cal, Play(cal, moves), id, channel, k);
  }

  /** Where the transitions of a check alternate, the alerts on a channel do exactly if each of them is in step: a test on
      what was sent. */
  lemma AnnouncedAlternateExactly(cal: Calendar, moves: seq<Move>, id: string, channel: nat)
    requires TurnsMatch(Play(cal, moves).proto, id)
    ensures var s := Play(cal, moves);
            var sent := OnChannel(SentLog(s), id, channel);
            Alternating(AlertsIn(sent)) <==> InStep(Log(s.proto, id), sent)
  {
    var s := Play(cal, moves);
    var log, sent := Log(s.proto, id), OnChannel(SentLog(s), id, channel);
    hide Play, JointInv, OnChannel, SentLog, Turns, Log, Place;
    forall k | 0 <= k < |sent|
      ensures AlertsIn(sent)[k] == (if k % 2 == 0 then AlertDown else AlertUp) <==> Place(log, sent[k].n) % 2 == k % 2
    {
      AnnouncesTransition(cal, moves, id, channel, k);
      TurnAt(log, sent[k].n);
    }
  }

  // The protocol's run inside.

  function Parts(s: Joint, m: Move): seq<Event>
  {
    if ProtoPart(s, m).Some? then [ProtoPart(s, m).value] else []
  }

  /** The protocol's events of a run. */
  ghost function ProtoEvents(cal: Calendar, moves: seq<Move>): seq<Event>
  {
    if moves == [] then [] else
    var most := moves[..|moves| - 1];
    ProtoEvents(cal, most) + Parts(Play(cal, most), moves[|moves| - 1])
  }

  /** The check records of a run of the whole are those of its protocol events: everything proved of protocol runs holds. */
  lemma {:induction false} ProtoRuns(cal: Calendar, moves: seq<Move>)
    ensures Play(cal, moves).proto == Run(cal, ProtoEvents(cal, moves))
  {
    if moves != [] {
      var most, m := moves[..|moves| - 1], moves[|moves| - 1];
      ProtoRuns(cal, most);
      var s := Play(cal, most);
      NextProto(cal, s, m);
      hide Next, Step, ProtoPart;
      if ProtoPart(s, m).Some? {
        RunOne(cal, ProtoEvents(cal, most), ProtoPart(s, m).value);
      } else {
        assert ProtoEvents(cal, most) + [] == ProtoEvents(cal, most);
      }
    }
  }

  lemma NextProto(cal: Calendar, s: Joint, m: Move)
    ensures Next(cal, s, m).proto == if ProtoPart(s, m).Some? then Step(cal, s.proto, ProtoPart(s, m).value) else s.proto
  {
    hide ProtoPart, Step, PipePart, Q.Run;
  }

  lemma {:induction false} PlaceStays(log: seq<AlertType>, more: seq<AlertType>, n: nat)
    requires n <= |log|
    ensures Place(log + more, n) == Place(log, n)
  {
    assert (log + more)[..n] == log[..n];
  }

  lemma ChannelGrows(sent: seq<Sent>, x: Sent, id: string, channel: nat)
    ensures OnChannel(sent, id, channel) <= OnChannel(sent + [x], id, channel)
  {
    OnChannelMore(sent, x, id, channel);
  }
}
