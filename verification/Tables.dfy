/** The relational store as a value: five tables, their keys and CHECKs, CASCADE and SET NULL, statement by statement.
    Every statement is all-or-nothing; `fault` stands for any failure of the store itself. */
module Tables {
  import opened Text
  import opened TimeCodec
  import opened Model
  import opened CheckRows
  import opened WriteThrough
  import opened Ranking

  datatype PingRow = PingRow(check: string, kind: PingType, createdAt: string, sourceIP: string)

  datatype Note = Note(id: nat, check: string, channel: Option<nat>, alert: AlertType, sentAt: string, error: Option<string>)

  datatype Db = Db(
    checks: map<string, Row>,
    pings: map<nat, PingRow>,
    channels: map<nat, Channel>,
    links: set<(string, nat)>,
    notes: seq<Note>,
    nextPing: nat,
    nextChannel: nat,
    nextNote: nat)

  const Empty := Db(map[], map[], map[], {}, [], 1, 1, 1)

  const CHANNEL_KINDS: set<string> := {"email", "slack", "webhook"}

  // checks

  function InsertCheck(db: Db, c: Check, fault: bool): (Db, Outcome)
  {
    var (rows, out) := Insert(db.checks, c, fault);
    (db.(checks := rows), out)
  }

  function UpdateCheck(db: Db, c: Check, fault: bool): (Db, Outcome)
  {
    var (rows, out) := Update(db.checks, c, fault);
    (db.(checks := rows), out)
  }

  function NotesWithout(notes: seq<Note>, check: string): (r: seq<Note>)
    ensures forall n :: n in r <==> n in notes && n.check != check
  {
    if notes == [] then [] else
    var most, last := notes[..|notes| - 1], notes[|notes| - 1];
    assert notes == most + [last];
    NotesWithout(most, check) + if last.check == check then [] else [last]
  }

  /** DELETE FROM checks: pings, links and notifications cascade. */
  function DeleteCheck(db: Db, id: string, fault: bool): (Db, Outcome)
  {
    var (rows, out) := Remove(db.checks, id, fault);
    if out != Done then (db, out) else
    (db.(checks := rows,
         pings := (map p | p in db.pings && db.pings[p].check != id :: db.pings[p]),
         links := (set l | l in db.links && l.0 != id),
         notes := NotesWithout(db.notes, id)), Done)
  }

  // pings

  function InsertPing(db: Db, check: string, kind: PingType, at: Instant, ip: string, fault: bool): (Db, Outcome)
  {
    if fault || check !in db.checks then (db, Failed) else
    (db.(pings := db.pings[db.nextPing := PingRow(check, kind, FormatTime(at), ip)], nextPing := db.nextPing + 1), Done)
  }

  function Stamps(db: Db, check: string): set<Stamp>
  {
    set p | p in db.pings && db.pings[p].check == check :: Stamp(p, db.pings[p].createdAt)
  }

  /** SELECT … WHERE check_id = ? ORDER BY created_at DESC, id DESC LIMIT ?. */
  function Recent(db: Db, check: string, limit: int): seq<Stamp>
  {
    Limit(Newest(Stamps(db, check)), limit)
  }

  /** DELETE … WHERE check_id = ? AND id NOT IN (the keepN most recent). */
  function DeleteOldest(db: Db, check: string, keepN: int, fault: bool): (Db, Outcome)
  {
    if fault then (db, Failed) else
    var kept := set s | s in Recent(db, check, keepN) :: s.id;
    (db.(pings := (map p | p in db.pings && (db.pings[p].check == check ==> p in kept) :: db.pings[p])), Done)
  }

  // channels

  function InsertChannel(db: Db, kind: string, name: string, config: string, at: Instant, fault: bool): (Db, Outcome)
  {
    if fault || kind !in CHANNEL_KINDS then (db, Failed) else
    (db.(channels := db.channels[db.nextChannel := Channel(db.nextChannel, kind, name, config, FormatTime(at))],
         nextChannel := db.nextChannel + 1), Done)
  }

  /** INSERT INTO channels: a kind that is one of three, the next id, and the row as given. */
  lemma ChannelAdded(db: Db, kind: string, name: string, config: string, at: Instant, fault: bool)
    ensures var (t, out) := InsertChannel(db, kind, name, config, at, fault);
            if !fault && (kind == "email" || kind == "slack" || kind == "webhook") then
              && out == Done && t == db.(channels := t.channels, nextChannel := db.nextChannel + 1)
              && t.channels.Keys == db.channels.Keys + {db.nextChannel}
              && (forall h :: h in db.channels && h != db.nextChannel ==> t.channels[h] == db.channels[h])
              && var c := t.channels[db.nextChannel];
                 c.id == db.nextChannel && c.kind == kind && c.name == name && c.config == config && c.createdAt == FormatTime(at)
            else t == db && out == Failed
  {
    hide FormatTime;
  }

  function NotesUnlinked(notes: seq<Note>, channel: nat): (r: seq<Note>)
    ensures |r| == |notes|
    ensures forall i :: 0 <= i < |r| ==>
              r[i] == if notes[i].channel == Some(channel) then notes[i].(channel := None) else notes[i]
  {
    seq(|notes|, i requires 0 <= i < |notes| =>
      if notes[i].channel == Some(channel) then notes[i].(channel := None) else notes[i])
  }

  /** DELETE FROM channels: links cascade, notifications lose their channel. */
  function DeleteChannel(db: Db, id: nat, fault: bool): (Db, Outcome)
  {
    if fault then (db, Failed)
    else if id !in db.channels then (db, NotFound)
    else (db.(channels := db.channels - {id},
              links := (set l | l in db.links && l.1 != id),
              notes := NotesUnlinked(db.notes, id)), Done)
  }

  /** INSERT OR IGNORE: an existing link is ignored, a missing check or channel is a foreign-key error. */
  function Attach(db: Db, check: string, channel: nat, fault: bool): (Db, Outcome)
  {
    if fault then (db, Failed)
    else if (check, channel) in db.links then (db, Done)
    else if check !in db.checks || channel !in db.channels then (db, Failed)
    else (db.(links := db.links + {(check, channel)}), Done)
  }

  function Detach(db: Db, check: string, channel: nat, fault: bool): (Db, Outcome)
  {
    if fault then (db, Failed) else (db.(links := db.links - {(check, channel)}), Done)
  }

  /** The channels attached to a check. */
  function Attached(db: Db, check: string): set<nat>
  {
    set l | l in db.links && l.0 == check && l.1 in db.channels :: l.1
  }

  function ChannelStamps(db: Db, check: string): set<Stamp>
  {
    set c | c in Attached(db, check) && c in db.channels :: Stamp(c, db.channels[c].createdAt)
  }

  /** channelRepo.ListByCheckID: the attached channels, oldest first. */
  function ListChannels(db: Db, check: string): (r: seq<Channel>)
    ensures |r| == |Oldest(ChannelStamps(db, check))|
  {
    var stamps := Oldest(ChannelStamps(db, check));
    seq(|stamps|, i requires 0 <= i < |stamps| =>
      if stamps[i].id in db.channels then db.channels[stamps[i].id] else Channel(stamps[i].id, "", "", "", ""))
  }

  // notifications

  function InsertNote(db: Db, check: string, channel: Option<nat>, alert: AlertType, at: Instant, error: Option<string>, fault: bool): (Db, Outcome)
  {
    if fault || check !in db.checks || (channel.Some? && channel.value !in db.channels) then (db, Failed) else
    (db.(notes := db.notes + [Note(db.nextNote, check, channel, alert, FormatTime(at), error)],
         nextNote := db.nextNote + 1), Done)
  }

  /** How a dispatched alert fares: the channel types with a notifier, the send error if any, the time, and the two store faults. */
  datatype Luck = Luck(kinds: set<string>, sendError: Option<string>, at: Instant, fault: bool, retryFault: bool)

  /** Go's %q for text that needs no escapes, as the channel types do not. */
  function Quoted(s: string): string { "\"" + s + "\"" }

  function NoteError(ev: AlertEvent, luck: Luck): Option<string>
  {
    if ev.channel.kind !in luck.kinds then Some("no notifier registered for channel type " + Quoted(ev.channel.kind))
    else luck.sendError
  }

  /** Worker.dispatch: record the outcome; on failure once more without the channel. */
  function Dispatch(db: Db, ev: AlertEvent, luck: Luck): Db
  {
    var error := NoteError(ev, luck);
    var (first, out) := InsertNote(db, ev.check.id, Some(ev.channel.id), ev.alert, luck.at, error, luck.fault);
    if out == Done then first
    else InsertNote(db, ev.check.id, None, ev.alert, luck.at, error, luck.retryFault).0
  }
}
