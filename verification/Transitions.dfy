/** What the handlers and the scheduler do to one check record. */
module Transitions {
  import opened Text
  import opened TimeCodec
  import opened Schedule
  import opened Model

  /** The submitted check form, as text. */
  datatype Form = Form(name: string, schedule: string, grace: string, tags: string, notifyOnFail: bool)

  datatype Settings = Settings(name: string, schedule: string, grace: nat, tags: string, notifyOnFail: bool)

  /** parseCheckForm: a name, a schedule that parses and a grace of at least one minute. */
  function ParseCheckForm(cal: Calendar, f: Form): (r: Option<Settings>)
    ensures r.Some? <==> f.name != "" && Validate(cal, f.schedule) && ParseInt(f.grace).Some? && ParseInt(f.grace).value >= 1
    ensures r.Some? ==> r.value == Settings(f.name, f.schedule, ParseInt(f.grace).value, f.tags, f.notifyOnFail)
  {
    if f.name == "" || !Validate(cal, f.schedule) then None else
    match ParseInt(f.grace)
    case None => None
    case Some(g) => if g < 1 then None else Some(Settings(f.name, f.schedule, g, f.tags, f.notifyOnFail))
  }

  /** A form is accepted exactly with a name, a schedule that parses, and a grace text that is a number from 1 on; the
      settings are what it says. */
  lemma FormAccepted(cal: Calendar, f: Form, s: Settings)
    ensures ParseCheckForm(cal, f) == Some(s) <==>
            && f.name != "" && cal.valid(f.schedule) && s.grace >= 1 && Spells(f.grace, s.grace)
            && s.name == f.name && s.schedule == f.schedule && s.tags == f.tags && s.notifyOnFail == f.notifyOnFail
  {
    ParseIntSpells(f.grace, s.grace);
    hide ParseInt, Spells;
  }

  /** HandleCreate: the new record; None when no deadline can be computed. */
  function NewCheck(cal: Calendar, id: string, f: Settings, now: Instant): Option<Check>
  {
    match NextExpectedAt(cal, f.schedule, f.grace, now)
    case None => None
    case Some(next) =>
      Some(Check(id, f.name, None, f.schedule, f.grace, New, None, None, Some(next), now, now, f.tags, f.notifyOnFail))
  }

  /** A start ping only moves the deadline. */
  function AfterStart(c: Check, now: Instant): Check
  {
    c.(nextExpectedAt := Some(now + c.grace * MINUTE), updatedAt := now)
  }

  /** A success or fail ping: the job ran. */
  function AfterComplete(cal: Calendar, c: Check, now: Instant): Check
  {
    var next := NextExpectedAt(cal, c.schedule, c.grace, now);
    c.(status := if c.status == New || c.status == Down then Up else c.status,
       lastPingAt := Some(now),
       nextExpectedAt := if next.Some? then next else c.nextExpectedAt,
       updatedAt := now)
  }

  /** HandleUpdate, form already parsed: the deadline restarts from the last ping, or from now if there was none. */
  function AfterEdit(cal: Calendar, c: Check, f: Settings, now: Instant): Option<Check>
  {
    var ref := if c.lastPingAt.Some? then c.lastPingAt.value else now;
    match NextExpectedAt(cal, f.schedule, f.grace, ref)
    case None => None
    case Some(next) =>
      Some(c.(name := f.name, schedule := f.schedule, grace := f.grace, tags := f.tags,
              notifyOnFail := f.notifyOnFail, nextExpectedAt := Some(next), updatedAt := now))
  }

  function AfterPause(c: Check, now: Instant): Check
  {
    if c.status == Paused then
      c.(status := if c.prePauseStatus.Some? then c.prePauseStatus.value else New,
         prePauseStatus := None, updatedAt := now)
    else
      c.(status := Paused, prePauseStatus := Some(c.status), updatedAt := now)
  }

  /** The scheduler's test: up, and strictly past the deadline. */
  predicate Overdue(c: Check, now: Instant)
  {
    c.status == Up && c.nextExpectedAt.Some? && now > c.nextExpectedAt.value
  }

  function MarkDown(c: Check, now: Instant): Check { c.(status := Down, updatedAt := now) }

  /** A request on an existing check, with the clock reading it takes. */
  datatype Request =
    | Ping(id: string, kind: PingType, now: Instant)
    | Edit(id: string, form: Form, now: Instant)
    | TogglePause(id: string, now: Instant)

  /** The private copy a request will commit; None when it returns early. */
  function Respond(cal: Calendar, c: Check, r: Request): Option<Check>
  {
    match r
    case Ping(_, kind, now) =>
      if c.status == Paused then None
      else if kind == Start then Some(AfterStart(c, now))
      else Some(AfterComplete(cal, c, now))
    case Edit(_, form, now) =>
      (match ParseCheckForm(cal, form)
       case None => None
       case Some(f) => AfterEdit(cal, c, f, now))
    case TogglePause(_, now) => Some(AfterPause(c, now))
  }

  /** The alerts a committed request asks for, given the record it started from. */
  function AlertsFor(base: Check, r: Request): seq<AlertType>
  {
    if r.Ping? && r.kind != Start then
      (if base.status == Down then [AlertUp] else []) +
      (if r.kind == Fail && base.notifyOnFail then [AlertFail] else [])
    else []
  }

  /** A new record: the fields of the form, new, never pinged, created now. */
  lemma CreateWrites(cal: Calendar, id: string, form: Form, now: Instant)
    requires ParseCheckForm(cal, form).Some?
    ensures var r := NewCheck(cal, id, ParseCheckForm(cal, form).value, now);
            && r.Some?
            && var c := r.value;
               && c.id == id && c.name == form.name && c.schedule == form.schedule && Spells(form.grace, c.grace)
               && c.tags == form.tags && c.notifyOnFail == form.notifyOnFail
               && c.status == New && c.prePauseStatus.None? && c.lastPingAt.None? && c.slug.None?
               && c.createdAt == now && c.updatedAt == now
  {
    FormAccepted(cal, form, ParseCheckForm(cal, form).value);
    DeadlineShape(cal, form.schedule, ParseCheckForm(cal, form).value.grace, now);
    hide Spells, NextExpectedAt, ParseCheckForm;
  }

  /** What each request changes in a record, and that it changes nothing else: a start ping the deadline; a completion the
      status, the last ping and the deadline; an edit the settings, as the form has them, and the deadline; a pause the
      status and the status saved for its end. */
  lemma RespondWrites(cal: Calendar, c: Check, r: Request)
    requires Respond(cal, c, r).Some?
    ensures var d := Respond(cal, c, r).value;
            match r
            case Ping(_, Start, now) => c.status != Paused && d == c.(nextExpectedAt := d.nextExpectedAt, updatedAt := now)
            case Ping(_, _, now) =>
              && c.status != Paused
              && d == c.(status := Up, lastPingAt := Some(now), nextExpectedAt := d.nextExpectedAt, updatedAt := now)
            case Edit(_, form, now) =>
              && form.name != "" && cal.valid(form.schedule) && d.grace >= 1 && Spells(form.grace, d.grace)
              && d == c.(name := form.name, schedule := form.schedule, grace := d.grace, tags := form.tags,
                         notifyOnFail := form.notifyOnFail, nextExpectedAt := d.nextExpectedAt, updatedAt := now)
            case TogglePause(_, now) =>
              && d == c.(status := d.status, prePauseStatus := d.prePauseStatus, updatedAt := now)
              && if c.status == Paused
                 then d.prePauseStatus.None? && d.status == if c.prePauseStatus.Some? then c.prePauseStatus.value else New
                 else d.status == Paused && d.prePauseStatus == Some(c.status)
  {
    hide Spells, NextExpectedAt;
    if r.Edit? {
      FormAccepted(cal, r.form, ParseCheckForm(cal, r.form).value);
      hide ParseCheckForm;
    }
  }

  /** A request is answered exactly like this: a ping unless the check is paused, an edit when its form is accepted, and a
      pause always. */
  lemma Responds(cal: Calendar, c: Check, r: Request)
    ensures Respond(cal, c, r).Some? <==>
            match r
            case Ping(_, _, _) => c.status != Paused
            case Edit(_, form, _) => form.name != "" && cal.valid(form.schedule) && exists g: nat :: g >= 1 && Spells(form.grace, g)
            case TogglePause(_, _) => true
  {
    if r.Edit? {
      var f := ParseCheckForm(cal, r.form);
      forall g: nat ensures ParseInt(r.form.grace) == Some(g) <==> Spells(r.form.grace, g) {
        ParseIntSpells(r.form.grace, g);
      }
      hide Spells, ParseInt;
      if f.Some? {
        assert Spells(r.form.grace, f.value.grace);
      }
    }
  }

  /** What every stored record and every private copy satisfies. */
  ghost predicate WellFormed(cal: Calendar, c: Check)
  {
    && (c.status == Paused <==> c.prePauseStatus.Some?)
    && c.prePauseStatus != Some(Paused)
    && (c.Effective() == New <==> c.lastPingAt.None?)
    && c.nextExpectedAt.Some?
    && c.grace >= 1
    && Validate(cal, c.schedule)
    && c.slug.None?
  }

  lemma NewCheckWellFormed(cal: Calendar, id: string, f: Form, now: Instant)
    requires ParseCheckForm(cal, f).Some?
    ensures var c := NewCheck(cal, id, ParseCheckForm(cal, f).value, now);
            c.Some? && c.value.id == id && WellFormed(cal, c.value)
  {
    var s := ParseCheckForm(cal, f).value;
    DeadlineShape(cal, s.schedule, s.grace, now);
  }

  /** Every request keeps records well formed, and keeps the identity and creation time. */
  lemma RespondWellFormed(cal: Calendar, c: Check, r: Request)
    requires WellFormed(cal, c) && Respond(cal, c, r).Some?
    ensures var d := Respond(cal, c, r).value;
            WellFormed(cal, d) && d.id == c.id && d.createdAt == c.createdAt
  {
    if r.Ping? && r.kind != Start {
      DeadlineShape(cal, c.schedule, c.grace, r.now);
    }
  }
}
