/** The bounded alert queue and its non-blocking send. */
module AlertQueue {
  import opened Model
  import opened Tables

  const CAPACITY: nat := 64

  /** One event per channel, in the given order. */
  function Events(c: Check, channels: seq<Channel>, alert: AlertType): (r: seq<AlertEvent>)
    ensures |r| == |channels| && forall i :: 0 <= i < |r| ==> r[i] == AlertEvent(c, channels[i], alert)
  {
    seq(|channels|, i requires 0 <= i < |channels| => AlertEvent(c, channels[i], alert))
  }

  /** One event per attached channel, in listing order. */
  function EventsFor(db: Db, c: Check, alert: AlertType): seq<AlertEvent>
  {
    Events(c, ListChannels(db, c.id), alert)
  }

  /** A burst of sends to a queue no one is draining: what fits is kept in order, the rest is dropped. */
  function Offered(buf: seq<AlertEvent>, more: seq<AlertEvent>): (r: seq<AlertEvent>)
    ensures |buf| <= CAPACITY ==> |r| <= CAPACITY
  {
    if |buf| + |more| <= CAPACITY then buf + more
    else if |buf| >= CAPACITY then buf
    else buf + more[..CAPACITY - |buf|]
  }

  lemma OfferedTwice(buf: seq<AlertEvent>, a: seq<AlertEvent>, b: seq<AlertEvent>)
    ensures Offered(Offered(buf, a), b) == Offered(buf, a + b)
  {
    var room := CAPACITY - |buf|;
    if room < 0 {
      assert a == [] ==> a + b == b;
    } else if |a| + |b| <= room {
      assert (buf + a) + b == buf + (a + b);
    } else if |a| <= room {
      assert Offered(buf, a) == buf + a;
      assert (a + b)[..room] == a + b[..room - |a|];
      assert (buf + a) + b[..room - |a|] == buf + (a + b)[..room];
    } else {
      assert (a + b)[..room] == a[..room];
    }
  }

  /** What a burst leaves in a queue of 64 that no one drains: as many of the events as there was room for, in order. */
  ghost predicate Fits(was: seq<AlertEvent>, more: seq<AlertEvent>, buf: seq<AlertEvent>)
  {
    && was <= buf <= was + more
    && (|buf| < |was| + |more| ==> |buf| >= 64)
    && (|buf| > |was| ==> |buf| <= 64)
  }

  lemma OfferedFits(buf: seq<AlertEvent>, more: seq<AlertEvent>)
    ensures Fits(buf, more, Offered(buf, more))
  {
    var r := Offered(buf, more);
    if |buf| < CAPACITY < |buf| + |more| {
      assert r == (buf + more)[..|r|];
    }
  }

  class AlertQueue {
    var buf: seq<AlertEvent>
    ghost var attempts: nat
    ghost var dropped: nat

    constructor ()
      ensures buf == [] && attempts == dropped == 0
    {
      buf, attempts, dropped := [], 0, 0;
    }

    /** select { case ch <- event: default: }: never blocks. */
    method Offer(event: AlertEvent) returns (sent: bool)
      modifies this
      ensures buf == Offered(old(buf), [event])
      ensures sent <==> |old(buf)| < 64
      ensures buf == if sent then old(buf) + [event] else old(buf)
      ensures attempts == old(attempts) + 1
      ensures |buf| + dropped + old(attempts) == |old(buf)| + old(dropped) + attempts
    {
      attempts := attempts + 1;
      sent := |buf| < CAPACITY;
      if sent {
        buf := buf + [event];
      } else {
        dropped := dropped + 1;
      }
    }

    /** Sends one event per channel, one by one. */
    method OfferAll(c: Check, channels: seq<Channel>, alert: AlertType)
      modifies this
      ensures buf == Offered(old(buf), Events(c, channels, alert))
      ensures Fits(old(buf), seq(|channels|, i requires 0 <= i < |channels| => AlertEvent(c, channels[i], alert)), buf)
      ensures attempts == old(attempts) + |channels|
      ensures |buf| + dropped + old(attempts) == |old(buf)| + old(dropped) + attempts
    {
      ghost var events := Events(c, channels, alert);
      for i := 0 to |channels|
        invariant buf == Offered(old(buf), events[..i])
        invariant attempts == old(attempts) + i
        invariant |buf| + dropped + old(attempts) == |old(buf)| + old(dropped) + attempts
      {
        var event := AlertEvent(c, channels[i], alert);
        OfferedTwice(old(buf), events[..i], [event]);
        assert events[..i + 1] == events[..i] + [event];
        var _ := Offer(event);
      }
      assert events[..|channels|] == events;
      OfferedFits(old(buf), events);
      assert events == seq(|channels|, i requires 0 <= i < |channels| => AlertEvent(c, channels[i], alert));
    }
  }
}
