/** The store as an object: the repositories' statements update its tables in place. */
module Database {
  import opened Text
  import opened TimeCodec
  import opened Model
  import opened CheckRows
  import opened WriteThrough
  import opened Ranking
  import opened Tables
  import opened Integrity
  import opened Retention

  class Database {
    var checks: map<string, Row>
    var pings: map<nat, PingRow>
    var channels: map<nat, Channel>
    var links: set<(string, nat)>
    var notes: seq<Note>
    var nextPing: nat
    var nextChannel: nat
    var nextNote: nat

    /** The tables as a value. */
    ghost function Abs(): Db
      reads this
    {
      Db(checks, pings, channels, links, notes, nextPing, nextChannel, nextNote)
    }

    constructor ()
      ensures Abs() == Empty
    {
      checks, pings, channels, links, notes := map[], map[], map[], {}, [];
      nextPing, nextChannel, nextNote := 1, 1, 1;
    }

    // checkRepo

    method CreateCheck(c: Check, fault: bool) returns (out: Outcome)
      modifies this`checks
      ensures (Abs(), out) == InsertCheck(old(Abs()), c, fault)
      ensures out == if fault || c.id in old(checks) then Failed else Done
      ensures checks == if out == Done then old(checks)[c.id := RowOf(c)] else old(checks)
    {
      if fault || c.id in checks {
        return Failed;
      }
      checks := checks[c.id := RowOf(c)];
      out := Done;
    }

    /** The UPDATE statement, then RowsAffected. */
    method SaveCheck(c: Check, fault: bool) returns (out: Outcome)
      modifies this`checks
      ensures (Abs(), out) == UpdateCheck(old(Abs()), c, fault)
      ensures out == if fault then Failed else if c.id in old(checks) then Done else NotFound
      ensures out != Done ==> checks == old(checks)
      ensures out == Done ==>
                checks == old(checks)[c.id := RowOf(c).(id := old(checks)[c.id].id, createdAt := old(checks)[c.id].createdAt)]
    {
      if fault {
        return Failed;
      }
      var affected := 0;
      if c.id in checks {
        checks := checks[c.id := Updated(checks[c.id], c)];
        affected := 1;
      }
      out := if affected == 0 then NotFound else Done;
    }

    method RemoveCheck(id: string, fault: bool) returns (out: Outcome)
      modifies this`checks, this`pings, this`links, this`notes
      ensures (Abs(), out) == DeleteCheck(old(Abs()), id, fault)
      ensures out == if fault then Failed else if id in old(checks) then Done else NotFound
      ensures out != Done ==> Abs() == old(Abs())
      ensures out == Done ==> checks == old(checks) - {id} && links == (set l | l in old(links) && l.0 != id)
      ensures out == Done ==> pings == map p | p in old(pings) && old(pings)[p].check != id :: old(pings)[p]
      ensures out == Done ==> forall n :: n in notes <==> n in old(notes) && n.check != id
    {
      if fault {
        return Failed;
      }
      if id !in checks {
        return NotFound;
      }
      checks := checks - {id};
      pings := map p | p in pings && pings[p].check != id :: pings[p];
      links := set l | l in links && l.0 != id;
      notes := NotesWithout(notes, id);
      out := Done;
    }

    // pingRepo

    method CreatePing(check: string, kind: PingType, at: Instant, ip: string, fault: bool) returns (id: Option<nat>)
      modifies this`pings, this`nextPing
      ensures Abs() == InsertPing(old(Abs()), check, kind, at, ip, fault).0
      ensures id == if fault || check !in old(checks) then None else Some(old(nextPing))
      ensures id.None? ==> pings == old(pings) && nextPing == old(nextPing)
      ensures id.Some? ==>
                && nextPing == id.value + 1 && pings.Keys == old(pings).Keys + {id.value}
                && (forall p :: p in old(pings) && p != id.value ==> pings[p] == old(pings)[p])
                && var row := pings[id.value];
                   row.check == check && row.kind == kind && row.createdAt == FormatTime(at) && row.sourceIP == ip
    {
      if fault || check !in checks {
        return None;
      }
      pings := pings[nextPing := PingRow(check, kind, FormatTime(at), ip)];
      id := Some(nextPing);
      nextPing := nextPing + 1;
    }

    method DeleteOldestPings(check: string, keepN: int, fault: bool) returns (out: Outcome)
      modifies this`pings
      ensures (Abs(), out) == DeleteOldest(old(Abs()), check, keepN, fault)
    {
      if fault {
        return Failed;
      }
      var stamps := set p | p in pings && pings[p].check == check :: Stamp(p, pings[p].createdAt);
      ghost var was := Abs();
      assert stamps == Stamps(was, check);
      var kept := set s | s in Limit(Newest(stamps), keepN) :: s.id;
      assert kept == set s | s in Recent(was, check, keepN) :: s.id;
      pings := map p | p in pings && (pings[p].check == check ==> p in kept) :: pings[p];
      assert pings == DeleteOldest(was, check, keepN, false).0.pings;
      out := Done;
    }

    // notificationRepo

    method CreateNote(check: string, channel: Option<nat>, alert: AlertType, at: Instant, error: Option<string>, fault: bool)
      returns (out: Outcome)
      modifies this`notes, this`nextNote
      ensures (Abs(), out) == InsertNote(old(Abs()), check, channel, alert, at, error, fault)
      ensures out == if fault || check !in checks || (channel.Some? && channel.value !in channels) then Failed else Done
      ensures out != Done ==> notes == old(notes) && nextNote == old(nextNote)
      ensures out == Done ==>
                && nextNote == old(nextNote) + 1 && |notes| == |old(notes)| + 1 && notes[..|old(notes)|] == old(notes)
                && var n := notes[|old(notes)|];
                   && n.id == old(nextNote) && n.check == check && n.channel == channel
                   && n.alert == alert && n.sentAt == FormatTime(at) && n.error == error
    {
      if fault || check !in checks || (channel.Some? && channel.value !in channels) {
        return Failed;
      }
      hide FormatTime;
      notes := notes + [Note(nextNote, check, channel, alert, FormatTime(at), error)];
      assert notes[..|old(notes)|] == old(notes);
      nextNote := nextNote + 1;
      out := Done;
    }

    // channelRepo

    method RemoveChannel(id: nat, fault: bool) returns (out: Outcome)
      modifies this`channels, this`links, this`notes
      ensures (Abs(), out) == DeleteChannel(old(Abs()), id, fault)
      ensures out == if fault then Failed else if id in old(channels) then Done else NotFound
      ensures out != Done ==> Abs() == old(Abs())
      ensures out == Done ==> channels == old(channels) - {id} && links == (set l | l in old(links) && l.1 != id)
      ensures out == Done ==> |notes| == |old(notes)| && forall i :: 0 <= i < |notes| ==>
                notes[i] == if old(notes)[i].channel == Some(id) then old(notes)[i].(channel := None) else old(notes)[i]
    {
      if fault {
        return Failed;
      }
      if id !in channels {
        return NotFound;
      }
      channels := channels - {id};
      links := set l | l in links && l.1 != id;
      notes := NotesUnlinked(notes, id);
      out := Done;
    }

    method AttachToCheck(check: string, channel: nat, fault: bool) returns (out: Outcome)
      modifies this`links
      ensures (Abs(), out) == Attach(old(Abs()), check, channel, fault)
      ensures out == Done <==> !fault && ((check, channel) in old(links) || (check in checks && channel in channels))
      ensures links == if out == Done then old(links) + {(check, channel)} else old(links)
      ensures out == Done || out == Failed
    {
      if fault || ((check, channel) !in links && (check !in checks || channel !in channels)) {
        return Failed;
      }
      links := links + {(check, channel)};
      assert (check, channel) in old(links) ==> links == old(links);
      out := Done;
    }

    method DetachFromCheck(check: string, channel: nat, fault: bool) returns (out: Outcome)
      modifies this`links
      ensures (Abs(), out) == Detach(old(Abs()), check, channel, fault)
      ensures out == if fault then Failed else Done
      ensures links == if fault then old(links) else old(links) - {(check, channel)}
    {
      if fault {
        return Failed;
      }
      links := links - {(check, channel)};
      out := Done;
    }

    /** channelRepo.ListByCheckID: the attached channels, each once, oldest first, or an error. */
    method ListAttached(check: string, fault: bool) returns (r: Option<seq<Channel>>)
      ensures r == if fault then None else Some(ListChannels(Abs(), check))
      ensures r.Some? && Sound(Abs()) ==> ListsAttached(Abs(), check, r.value)
      ensures r.Some? && Sound(Abs()) ==>
                forall h: nat :: (check, h) in links <==> exists i :: 0 <= i < |r.value| && r.value[i].id == h
      ensures r.Some? && Sound(Abs()) ==>
                forall i, j :: 0 <= i < j < |r.value| ==>
                  var a, b := r.value[i], r.value[j]; Precedes(a.createdAt, b.createdAt) || (a.createdAt == b.createdAt && a.id < b.id)
    {
      if fault {
        return None;
      }
      if Sound(Abs()) {
        ListsAttachedOnce(Abs(), check);
      }
      hide Sound, ListChannels, Attached, Precedes;
      r := Some(ListChannels(Db(checks, pings, channels, links, notes, nextPing, nextChannel, nextNote), check));
    }

    /** pingRepo.ListByCheckID: scans the newest rows one by one; one that cannot be read fails the listing. */
    method ListPings(check: string, limit: int, fault: bool) returns (r: Option<seq<Ping>>)
      ensures r == if fault then None else Retention.ListPings(Abs(), check, limit)
      ensures r.Some? ==> ListsPings(Abs(), check, limit, r.value)
    {
      if fault {
        return None;
      }
      var db := Db(checks, pings, channels, links, notes, nextPing, nextChannel, nextNote);
      var rows := Recent(db, check, limit);
      var list := [];
      hide ScanPing, Recent, Retention.ListPings;
      for i := 0 to |rows|
        invariant |list| == i && forall j :: 0 <= j < i ==> ScanPing(db, rows[j]) == Some(list[j])
      {
        var p := ScanPing(db, rows[i]);
        if p.None? {
          ScanFails(db, check, limit, i);
          return None;
        }
        list := list + [p.value];
      }
      ScanAll(db, check, limit, list);
      ListsNewest(db, check, limit, list);
      r := Some(list);
    }
  }

  /** cleanupOldPings: retention for every listed check; a failed delete is skipped. */
  method CleanupOldPings(db: Database, ids: seq<string>, faults: set<string>)
    modifies db`pings
    ensures Pruned(old(db.Abs()), db.Abs(), ids, faults)
    ensures forall id :: var (was, now) := (Stamps(old(db.Abs()), id), Stamps(db.Abs(), id));
              && now <= was && (forall k, r :: k in now && r in was - now ==> Later(k, r))
              && |now| == if id in ids && id !in faults && |was| > 1000 then 1000 else |was|
    ensures forall id :: StripOf(db.Abs(), id) == StripOf(old(db.Abs()), id)
  {
    for i := 0 to |ids|
      invariant Pruned(old(db.Abs()), db.Abs(), ids[..i], faults)
    {
      PruneOneMore(old(db.Abs()), db.Abs(), ids[..i], ids[i], faults);
      assert ids[..i + 1] == ids[..i] + [ids[i]];
      hide Pruned;
      var _ := db.DeleteOldestPings(ids[i], KEEP, ids[i] in faults);
    }
    assert ids[..|ids|] == ids;
    forall id ensures StripOf(db.Abs(), id) == StripOf(old(db.Abs()), id) {
      StripAfterCleanup(old(db.Abs()), db.Abs(), ids, faults, id);
    }
  }
}
