/** Referential integrity over any sequence of statements and dispatches. */
module Integrity {
  import opened Text
  import opened TimeCodec
  import opened Model
  import opened CheckRows
  import opened WriteThrough
  import opened Ranking
  import opened Tables

  /** Every reference points at an existing row, keys are unique, CHECKs hold. Slugs are nil, as the program writes
      them, so that no two rows can share one. */
  ghost predicate Sound(db: Db)
  {
    && (forall c :: c in db.checks ==> db.checks[c].id == c && db.checks[c].slug.None?)
    && (forall p :: p in db.pings ==> p < db.nextPing && db.pings[p].check in db.checks)
    && (forall h :: h in db.channels ==> h < db.nextChannel && db.channels[h].id == h && db.channels[h].kind in CHANNEL_KINDS)
    && (forall l :: l in db.links ==> l.0 in db.checks && l.1 in db.channels)
    && (forall n :: n in db.notes ==> (n.id < db.nextNote && n.check in db.checks
                                      && (n.channel.Some? ==> n.channel.value in db.channels)))
    && Increasing(db.notes)
  }

  ghost predicate Increasing(notes: seq<Note>)
  {
    forall i, j :: 0 <= i < j < |notes| ==> notes[i].id < notes[j].id
  }

  datatype Statement =
    | MakeCheck(check: Check)
    | SaveCheck(check: Check)
    | DropCheck(checkId: string)
    | AddPing(checkId: string, kind: PingType, at: Instant, ip: string)
    | Prune(checkId: string, keepN: int)
    | MakeChannel(channelType: string, name: string, config: string, at: Instant)
    | DropChannel(channelId: nat)
    | Link(checkId: string, channelId: nat)
    | Unlink(checkId: string, channelId: nat)
    | Deliver(event: AlertEvent, luck: Luck)

  /** The program writes no slugs; with one, the UNIQUE rule would have a say. */
  predicate NilSlug(s: Statement)
  {
    match s
    case MakeCheck(c) => c.slug.None?
    case SaveCheck(c) => c.slug.None?
    case _ => true
  }

  function Execute(db: Db, s: Statement, fault: bool): Db
  {
    match s
    case MakeCheck(c) => InsertCheck(db, c, fault).0
    case SaveCheck(c) => UpdateCheck(db, c, fault).0
    case DropCheck(id) => DeleteCheck(db, id, fault).0
    case AddPing(id, kind, at, ip) => InsertPing(db, id, kind, at, ip, fault).0
    case Prune(id, n) => DeleteOldest(db, id, n, fault).0
    case MakeChannel(kind, name, config, at) => InsertChannel(db, kind, name, config, at, fault).0
    case DropChannel(id) => DeleteChannel(db, id, fault).0
    case Link(c, h) => Attach(db, c, h, fault).0
    case Unlink(c, h) => Detach(db, c, h, fault).0
    case Deliver(ev, luck) => Dispatch(db, ev, luck)
  }

  function ExecuteAll(db: Db, script: seq<(Statement, bool)>): Db
  {
    if script == [] then db else
    var last := script[|script| - 1];
    Execute(ExecuteAll(db, script[..|script| - 1]), last.0, last.1)
  }

  lemma IncreasingAppend(notes: seq<Note>, last: Note)
    requires Increasing(notes) && forall n :: n in notes ==> n.id < last.id
    ensures Increasing(notes + [last])
  {
    assert forall i :: 0 <= i < |notes| ==> notes[i] in notes;
  }

  lemma LastIsGreatest(notes: seq<Note>, n: Note)
    requires notes != [] && Increasing(notes) && n in notes[..|notes| - 1]
    ensures n.id < notes[|notes| - 1].id
  {
    var k :| 0 <= k < |notes| - 1 && notes[k] == n;
  }

  lemma {:induction false} WithoutIncreasing(notes: seq<Note>, check: string)
    requires Increasing(notes)
    ensures Increasing(NotesWithout(notes, check))
  {
    if notes != [] {
      var most, last := notes[..|notes| - 1], notes[|notes| - 1];
      assert Increasing(most);
      WithoutIncreasing(most, check);
      hide Increasing;
      forall n | n in NotesWithout(most, check)
        ensures n.id < last.id
      {
        LastIsGreatest(notes, n);
      }
      IncreasingAppend(NotesWithout(most, check), last);
    }
  }

  lemma DeleteCheckSound(db: Db, id: string, fault: bool)
    requires Sound(db)
    ensures Sound(DeleteCheck(db, id, fault).0)
  {
    WithoutIncreasing(db.notes, id);
    hide Increasing;
  }

  lemma DeleteChannelSound(db: Db, id: nat, fault: bool)
    requires Sound(db)
    ensures Sound(DeleteChannel(db, id, fault).0)
  {
    var t := DeleteChannel(db, id, fault).0;
    assert forall i :: 0 <= i < |t.notes| ==> t.notes[i].id == db.notes[i].id;
    assert Increasing(t.notes);
    hide Increasing;
    forall n | n in t.notes
      ensures n.id < t.nextNote && n.check in t.checks && (n.channel.Some? ==> n.channel.value in t.channels)
    {
      var i :| 0 <= i < |t.notes| && t.notes[i] == n;
      assert db.notes[i] in db.notes;
    }
  }

  lemma InsertNoteSound(db: Db, check: string, channel: Option<nat>, alert: AlertType, at: Instant, error: Option<string>, fault: bool)
    requires Sound(db)
    ensures Sound(InsertNote(db, check, channel, alert, at, error, fault).0)
  {
    hide FormatTime, Increasing;
    IncreasingAppend(db.notes, Note(db.nextNote, check, channel, alert, FormatTime(at), error));
  }

  lemma DispatchSound(db: Db, ev: AlertEvent, luck: Luck)
    requires Sound(db)
    ensures Sound(Dispatch(db, ev, luck))
  {
    hide FormatTime, Sound, InsertNote;
    var error := NoteError(ev, luck);
    InsertNoteSound(db, ev.check.id, Some(ev.channel.id), ev.alert, luck.at, error, luck.fault);
    InsertNoteSound(db, ev.check.id, None, ev.alert, luck.at, error, luck.retryFault);
  }

  lemma CheckWritesSound(db: Db, c: Check, fault: bool)
    requires Sound(db) && c.slug.None?
    ensures Sound(InsertCheck(db, c, fault).0) && Sound(UpdateCheck(db, c, fault).0)
  {
    hide FormatTime, FormatTimePtr, Increasing;
  }

  lemma PingWritesSound(db: Db, check: string, kind: PingType, at: Instant, ip: string, keepN: int, fault: bool)
    requires Sound(db)
    ensures Sound(InsertPing(db, check, kind, at, ip, fault).0) && Sound(DeleteOldest(db, check, keepN, fault).0)
  {
    hide FormatTime, Recent, Increasing;
  }

  lemma ChannelWritesSound(db: Db, kind: string, name: string, config: string, at: Instant, check: string, channel: nat, fault: bool)
    requires Sound(db)
    ensures Sound(InsertChannel(db, kind, name, config, at, fault).0)
    ensures Sound(Attach(db, check, channel, fault).0) && Sound(Detach(db, check, channel, fault).0)
  {
    hide FormatTime;
  }

  lemma ExecuteSound(db: Db, s: Statement, fault: bool)
    requires Sound(db) && NilSlug(s)
    ensures Sound(Execute(db, s, fault))
  {
    hide Sound, InsertCheck, UpdateCheck, InsertPing, DeleteOldest, InsertChannel, Attach, Detach, Dispatch, DeleteCheck, DeleteChannel;
    match s {
      case MakeCheck(c) => CheckWritesSound(db, c, fault);
      case SaveCheck(c) => CheckWritesSound(db, c, fault);
      case DropCheck(id) => DeleteCheckSound(db, id, fault);
      case AddPing(id, kind, at, ip) => PingWritesSound(db, id, kind, at, ip, 0, fault);
      case Prune(id, n) => PingWritesSound(db, id, Success, 0, "", n, fault);
      case MakeChannel(kind, name, config, at) => ChannelWritesSound(db, kind, name, config, at, "", 0, fault);
      case DropChannel(id) => DeleteChannelSound(db, id, fault);
      case Link(c, h) => ChannelWritesSound(db, "", "", "", 0, c, h, fault);
      case Unlink(c, h) => ChannelWritesSound(db, "", "", "", 0, c, h, fault);
      case Deliver(ev, luck) => DispatchSound(db, ev, luck);
    }
  }

  /** From the empty database, any statements and dispatches in any order, failing at will, leave every reference intact. */
  lemma {:induction false} AlwaysSound(script: seq<(Statement, bool)>)
    requires forall i :: 0 <= i < |script| ==> NilSlug(script[i].0)
    ensures Sound(ExecuteAll(Empty, script))
  {
    if script != [] {
      AlwaysSound(script[..|script| - 1]);
      hide Sound, Execute;
      var last := script[|script| - 1];
      ExecuteSound(ExecuteAll(Empty, script[..|script| - 1]), last.0, last.1);
    }
  }

  /** Deleting a channel keeps every notification, in place and in number, and only clears its references to that channel;
      nothing else but its links goes with it. */
  lemma DeleteChannelKeepsHistory(db: Db, id: nat)
    requires Sound(db) && id in db.channels
    ensures var t := DeleteChannel(db, id, false).0;
            && |t.notes| == |db.notes|
            && (forall i :: 0 <= i < |t.notes| ==>
                  && t.notes[i].(channel := db.notes[i].channel) == db.notes[i]
                  && (t.notes[i].channel != db.notes[i].channel <==> db.notes[i].channel == Some(id))
                  && t.notes[i].channel != Some(id))
            && t.checks == db.checks && t.pings == db.pings
            && (forall l :: l in t.links <==> l in db.links && l.1 != id)
  {
  }

  /** Deleting a check takes exactly its own pings, links and notifications with it. */
  lemma DeleteCheckCascades(db: Db, id: string)
    requires Sound(db) && id in db.checks
    ensures var t := DeleteCheck(db, id, false).0;
            && t.checks == db.checks - {id} && t.channels == db.channels
            && (forall p :: p in t.pings <==> p in db.pings && db.pings[p].check != id)
            && (forall l :: l in t.links <==> l in db.links && l.0 != id)
            && (forall n :: n in t.notes <==> n in db.notes && n.check != id)
            && Stamps(t, id) == {} && Attached(t, id) == {}
  {
    var t := DeleteCheck(db, id, false).0;
    assert forall p :: p in t.pings ==> t.pings[p].check != id;
  }

  /** An INSERT INTO notifications either appends one row or changes nothing. */
  lemma NoteInserted(db: Db, check: string, channel: Option<nat>, alert: AlertType, at: Instant, error: Option<string>, fault: bool)
    ensures var (t, out) := InsertNote(db, check, channel, alert, at, error, fault);
            if !fault && check in db.checks && (channel.Some? ==> channel.value in db.channels) then
              out == Done && t == db.(notes := db.notes + [Note(db.nextNote, check, channel, alert, FormatTime(at), error)], nextNote := db.nextNote + 1)
            else t == db && out != Done
  {
    hide FormatTime;
  }

  lemma ErrorText(ev: AlertEvent, luck: Luck)
    ensures NoteError(ev, luck) == if ev.channel.kind in luck.kinds then luck.sendError
                                   else Some("no notifier registered for channel type \"" + ev.channel.kind + "\"")
  {
    var kind := ev.channel.kind;
    var text := "no notifier registered for channel type ";
    assert text + ("\"" + kind + "\"") == ((text + "\"") + kind) + "\"";
    assert text + "\"" == "no notifier registered for channel type \"";
  }

  /** dispatch adds one notification exactly when the check still exists and one of the two writes goes through,
      and that row names the channel exactly when the channel still exists and the first write succeeded. */
  lemma DispatchRecords(db: Db, ev: AlertEvent, luck: Luck)
    ensures var t := Dispatch(db, ev, luck);
            var kept := ev.channel.id in db.channels && !luck.fault;
            && (t == db || |t.notes| == |db.notes| + 1)
            && (t != db <==> ev.check.id in db.checks && (kept || !luck.retryFault))
            && (t != db ==>
                  && t == db.(notes := t.notes, nextNote := db.nextNote + 1) && t.notes[..|db.notes|] == db.notes
                  && var n := t.notes[|db.notes|];
                     && n.id == db.nextNote && n.check == ev.check.id && n.alert == ev.alert
                     && n.channel == (if kept then Some(ev.channel.id) else None)
                     && n.sentAt == FormatTime(luck.at)
                     && n.error == if ev.channel.kind in luck.kinds then luck.sendError
                                   else Some("no notifier registered for channel type \"" + ev.channel.kind + "\""))
  {
    var error := NoteError(ev, luck);
    ErrorText(ev, luck);
    hide FormatTime, InsertNote, NoteError;
    NoteInserted(db, ev.check.id, Some(ev.channel.id), ev.alert, luck.at, error, luck.fault);
    NoteInserted(db, ev.check.id, None, ev.alert, luck.at, error, luck.retryFault);
    var t := Dispatch(db, ev, luck);
    if t != db {
      assert t.notes[..|db.notes|] == db.notes;
    }
  }

  lemma OldestAt(stamps: set<Stamp>, i: nat)
    requires i < |Oldest(stamps)|
    ensures |Oldest(stamps)| == |Newest(stamps)| && Oldest(stamps)[i] == Newest(stamps)[|Newest(stamps)| - 1 - i]
  {
    hide Newest, Reverse;
    assert Oldest(stamps) == Reverse(Newest(stamps));
  }

  lemma ListedAt(db: Db, check: string, i: nat)
    requires Sound(db) && i < |ListChannels(db, check)|
    ensures var c, x := ListChannels(db, check)[i], Oldest(ChannelStamps(db, check))[i];
            c.id in Attached(db, check) && c.id in db.channels && c == db.channels[c.id] && x == Stamp(c.id, c.createdAt)
  {
    hide Newest, Reverse, Oldest;
    var stamps := ChannelStamps(db, check);
    OldestAt(stamps, i);
    var x := Oldest(stamps)[i];
    assert x in Newest(stamps) && x in stamps;
    hide Attached;
  }

  lemma ListedSomewhere(db: Db, check: string, h: nat) returns (i: nat)
    requires Sound(db) && h in Attached(db, check)
    ensures i < |ListChannels(db, check)| && ListChannels(db, check)[i].id == h
  {
    var newest := Newest(ChannelStamps(db, check));
    var x := Stamp(h, db.channels[h].createdAt);
    assert x in ChannelStamps(db, check) && x in newest;
    var k :| 0 <= k < |newest| && newest[k] == x;
    i := |newest| - 1 - k;
    ListedAt(db, check, i);
  }

  lemma OldestAscends(stamps: set<Stamp>, i: nat, j: nat)
    requires i < j < |Oldest(stamps)|
    ensures Later(Oldest(stamps)[j], Oldest(stamps)[i])
  {
    hide *;
    OldestAt(stamps, i);
    OldestAt(stamps, j);
    NewestDescends(stamps, |Newest(stamps)| - 1 - j, |Newest(stamps)| - 1 - i);
  }

  /** Strictly ascending under (created_at, id). */
  predicate Older(a: Channel, b: Channel)
  {
    Precedes(a.createdAt, b.createdAt) || (a.createdAt == b.createdAt && a.id < b.id)
  }

  lemma ListedInOrder(db: Db, check: string, i: nat, j: nat)
    requires Sound(db) && i < j < |ListChannels(db, check)|
    ensures Older(ListChannels(db, check)[i], ListChannels(db, check)[j])
    ensures ListChannels(db, check)[i].id != ListChannels(db, check)[j].id
  {
    ListedAt(db, check, i);
    ListedAt(db, check, j);
    assert |Oldest(ChannelStamps(db, check))| == |ListChannels(db, check)|;
    var x, y := Oldest(ChannelStamps(db, check))[i], Oldest(ChannelStamps(db, check))[j];
    hide Sound, ListChannels, Oldest, ChannelStamps, Attached, Precedes;
    OldestAscends(ChannelStamps(db, check), i, j);
    LaterIsStrictOrder(x, y, x);
  }

  /** Each attached channel once, with its stored record, oldest first and among equals by id. */
  ghost predicate ListsAttached(db: Db, check: string, r: seq<Channel>)
  {
    && (forall i :: 0 <= i < |r| ==> r[i].id in Attached(db, check) && r[i].id in db.channels && r[i] == db.channels[r[i].id])
    && (forall h :: h in Attached(db, check) ==> exists i :: 0 <= i < |r| && r[i].id == h)
    && (forall i, j :: 0 <= i < j < |r| ==> r[i].id != r[j].id && Older(r[i], r[j]))
  }

  lemma ListsEachOnce(db: Db, check: string)
    requires Sound(db)
    ensures var r := ListChannels(db, check); forall i, j :: 0 <= i < j < |r| ==> r[i].id != r[j].id && Older(r[i], r[j])
  {
    hide *;
    var r := ListChannels(db, check);
    forall i, j | 0 <= i < j < |r| ensures r[i].id != r[j].id && Older(r[i], r[j]) {
      ListedInOrder(db, check, i, j);
    }
  }

  lemma ListsAll(db: Db, check: string)
    requires Sound(db)
    ensures var r := ListChannels(db, check);
            && (forall i :: 0 <= i < |r| ==> r[i].id in Attached(db, check) && r[i].id in db.channels && r[i] == db.channels[r[i].id])
            && (forall h :: h in Attached(db, check) ==> exists i :: 0 <= i < |r| && r[i].id == h)
  {
    hide *;
    var r := ListChannels(db, check);
    forall i | 0 <= i < |r| ensures r[i].id in Attached(db, check) && r[i].id in db.channels && r[i] == db.channels[r[i].id] {
      ListedAt(db, check, i);
    }
    forall h | h in Attached(db, check) ensures exists i :: 0 <= i < |r| && r[i].id == h {
      var i := ListedSomewhere(db, check, h);
    }
  }

  /** Listing gives the attached channels, each once, oldest first. */
  lemma ListsAttachedOnce(db: Db, check: string)
    requires Sound(db)
    ensures ListsAttached(db, check, ListChannels(db, check))
    ensures var r := ListChannels(db, check); forall h: nat :: (check, h) in db.links <==> exists i :: 0 <= i < |r| && r[i].id == h
  {
    assert forall h: nat :: h in Attached(db, check) <==> (check, h) in db.links;
    hide Sound, ListChannels, Attached, Older;
    ListsAll(db, check);
    ListsEachOnce(db, check);
  }

  lemma OlderIsStrict(a: Channel, b: Channel, c: Channel)
    ensures !(Older(a, b) && Older(b, a))
    ensures Older(a, b) && Older(b, c) ==> Older(a, c)
  {
    PrecedesIrreflexive(a.createdAt);
    if Precedes(a.createdAt, b.createdAt) && Precedes(b.createdAt, a.createdAt) {
      PrecedesTransitive(a.createdAt, b.createdAt, a.createdAt);
    }
    if Precedes(a.createdAt, b.createdAt) && Precedes(b.createdAt, c.createdAt) {
      PrecedesTransitive(a.createdAt, b.createdAt, c.createdAt);
    }
    hide Precedes;
  }

  /** The order leaves no choice: two listings of the same channels are the same list. */
  lemma {:induction false} ListingUnique(a: seq<Channel>, b: seq<Channel>)
    requires forall i, j :: 0 <= i < j < |a| ==> Older(a[i], a[j])
    requires forall i, j :: 0 <= i < j < |b| ==> Older(b[i], b[j])
    requires forall c :: c in a <==> c in b
    ensures a == b
    decreases |a|
  {
    hide Older;
    assert (forall i :: 0 <= i < |a| ==> a[i] in b) && (forall i :: 0 <= i < |b| ==> b[i] in a);
    if a != [] && b != [] {
      assert a[0] in b && b[0] in a;
      if a[0] != b[0] {
        var i: nat :| i < |b| && b[i] == a[0];
        var j: nat :| j < |a| && a[j] == b[0];
        OlderIsStrict(a[0], b[0], a[0]);
      }
      forall c ensures c in a[1..] <==> c in b[1..] {
        OlderIsStrict(a[0], a[0], a[0]);
        if c in a[1..] {
          var i :| 0 <= i < |a[1..]| && a[1..][i] == c;
          assert Older(a[0], a[i + 1]) && c in b;
        }
        if c in b[1..] {
          var i :| 0 <= i < |b[1..]| && b[1..][i] == c;
          assert Older(b[0], b[i + 1]) && c in a;
        }
      }
      ListingUnique(a[1..], b[1..]);
    }
  }
}
