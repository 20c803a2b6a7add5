/** Cron deadlines over an abstract set of whole-minute occurrences. */
module Schedule {
  import opened Text
  import opened TimeCodec

  /** What the cron library offers: which expressions parse, the minutes at which one occurs, and its next occurrence. */
  datatype Cron = Cron(
    valid: string -> bool,
    occurs: (string, nat) -> bool,
    next: (string, Instant) -> Instant)

  /** `next` is the least occurrence strictly later than the given instant. */
  ghost predicate Lawful(c: Cron)
  {
    forall s, t {:trigger c.next(s, t)} :: c.valid(s) ==> IsLeastAfter(c, s, t, c.next(s, t))
  }

  ghost predicate IsLeastAfter(c: Cron, s: string, t: Instant, n: Instant)
  {
    && t < n && n % MINUTE == 0 && c.occurs(s, n / MINUTE)
    && forall m: nat {:trigger c.occurs(s, m)} :: t < m * MINUTE < n ==> !c.occurs(s, m)
  }

  /** A lawful instance: the schedule that fires every minute. */
  ghost function EveryMinute(): (c: Cron)
    ensures Lawful(c)
  {
    var c := Cron(s => true, (s, m) => true, (s, t) => (t / MINUTE + 1) * MINUTE);
    assert forall s, t {:trigger c.next(s, t)} :: c.valid(s) ==> IsLeastAfter(c, s, t, c.next(s, t));
    c
  }

  type Calendar = c: Cron | Lawful(c) ghost witness EveryMinute()

  /** Validate: does the expression parse? */
  predicate Validate(cal: Calendar, expr: string) { cal.valid(expr) }

  function NextAfter(cal: Calendar, expr: string, t: Instant): Option<Instant>
  {
    if cal.valid(expr) then Some(cal.next(expr, t)) else None
  }

  function NextExpectedAt(cal: Calendar, expr: string, grace: nat, ref: Instant): Option<Instant>
  {
    match NextAfter(cal, expr, ref)
    case None => None
    case Some(n) => Some(n + grace * MINUTE)
  }

  /** NextAfter is determined by the occurrence set alone. */
  lemma NextAfterIsLeast(cal: Calendar, expr: string, t: Instant, n: Instant)
    requires cal.valid(expr)
    ensures NextAfter(cal, expr, t) == Some(n) <==> IsLeastAfter(cal, expr, t, n)
  {
    var k := cal.next(expr, t);
    assert IsLeastAfter(cal, expr, t, k);
  }

  /** No occurrence lies between an instant and the next one, so any reference in between gives the same answer. */
  lemma NextAfterStable(cal: Calendar, expr: string, t: Instant, u: Instant)
    requires cal.valid(expr) && t <= u < NextAfter(cal, expr, t).value
    ensures NextAfter(cal, expr, u) == NextAfter(cal, expr, t)
  {
    var n := cal.next(expr, t);
    assert IsLeastAfter(cal, expr, t, n);
    NextAfterIsLeast(cal, expr, u, n);
  }

  lemma FloorBelowWholeMinute(t: Instant, n: Instant)
    requires n % MINUTE == 0 && Floor(t) < n
    ensures t < n
  {
    var j, k := t / SECOND, n / MINUTE * 60;
    assert Floor(t) == j * SECOND && n == k * SECOND;
    assert j < k;
    assert t < (j + 1) * SECOND <= k * SECOND;
  }

  /** Flooring the reference to the second never changes the deadline. */
  lemma DeadlineFromFloor(cal: Calendar, expr: string, grace: nat, t: Instant)
    ensures NextExpectedAt(cal, expr, grace, Floor(t)) == NextExpectedAt(cal, expr, grace, t)
  {
    if cal.valid(expr) {
      var n := cal.next(expr, Floor(t));
      assert IsLeastAfter(cal, expr, Floor(t), n);
      FloorBelowWholeMinute(t, n);
      NextAfterStable(cal, expr, Floor(t), t);
    }
  }

  lemma WholeMinutes(n: nat, grace: nat)
    requires n % MINUTE == 0
    ensures Floor(n + grace * MINUTE) == n + grace * MINUTE
  {
    var k := (n / MINUTE + grace) * 60;
    assert n + grace * MINUTE == k * SECOND;
    assert k * SECOND % SECOND == 0;
  }

  /** A computed deadline is a whole second, later than the reference by more than the grace. */
  lemma DeadlineShape(cal: Calendar, expr: string, grace: nat, ref: Instant)
    requires cal.valid(expr)
    ensures var d := NextExpectedAt(cal, expr, grace, ref);
            d.Some? && d.value > ref + grace * MINUTE && Floor(d.value) == d.value
  {
    var n := cal.next(expr, ref);
    assert IsLeastAfter(cal, expr, ref, n);
    WholeMinutes(n, grace);
  }

  /** The deadline is exactly the grace, in minutes of 60 seconds, after the least occurrence later than the reference. */
  lemma DeadlineExactly(cal: Calendar, expr: string, grace: nat, ref: Instant, d: Instant)
    ensures NextExpectedAt(cal, expr, grace, ref) == Some(d) <==>
            cal.valid(expr) && d >= grace * 60_000_000_000 && IsLeastAfter(cal, expr, ref, d - grace * 60_000_000_000)
    ensures NextExpectedAt(cal, expr, grace, ref).None? <==> !cal.valid(expr)
  {
    if cal.valid(expr) {
      if d >= grace * MINUTE {
        NextAfterIsLeast(cal, expr, ref, d - grace * MINUTE);
      }
      hide IsLeastAfter, Lawful;
    }
  }
}
