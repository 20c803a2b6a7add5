/** The store's time codec: instants in nanoseconds, RFC 3339 text at whole-second precision. */
module TimeCodec {
  import opened Text

  const SECOND: nat := 1_000_000_000
  const MINUTE: nat := 60 * SECOND

  /** Nanoseconds since 0000-01-01T00:00:00Z. */
  type Instant = nat

  function Floor(t: Instant): Instant { t - t % SECOND }

  lemma FloorBySeconds(a: Instant, b: Instant)
    ensures Floor(a) == a / SECOND * SECOND
    ensures Floor(a) < Floor(b) <==> a / SECOND < b / SECOND
  {
  }

  lemma FloorTwice(t: Instant)
    ensures Floor(t) <= t && Floor(Floor(t)) == Floor(t)
  {
    FloorBySeconds(t, t);
    assert Floor(t) % SECOND == 0;
  }

  predicate IsLeap(y: nat) { y % 4 == 0 && (y % 100 != 0 || y % 400 == 0) }

  function DaysInYear(y: nat): nat { if IsLeap(y) then 366 else 365 }

  function DaysInMonth(y: nat, m: nat): nat
  {
    if m == 2 then (if IsLeap(y) then 29 else 28)
    else if m == 4 || m == 6 || m == 9 || m == 11 then 30
    else 31
  }

  function DaysBeforeYear(y: nat): nat
  {
    if y == 0 then 0 else DaysBeforeYear(y - 1) + DaysInYear(y - 1)
  }

  function DaysBeforeMonth(y: nat, m: nat): nat
    requires 1 <= m
  {
    if m == 1 then 0 else DaysBeforeMonth(y, m - 1) + DaysInMonth(y, m - 1)
  }

  lemma YearHasTwelveMonths(y: nat)
    ensures DaysBeforeMonth(y, 13) == DaysInYear(y)
  {
    assert DaysBeforeMonth(y, 2) == 31;
    assert DaysBeforeMonth(y, 4) == DaysBeforeMonth(y, 3) + 31;
    assert DaysBeforeMonth(y, 6) == DaysBeforeMonth(y, 5) + 31;
    assert DaysBeforeMonth(y, 8) == DaysBeforeMonth(y, 7) + 31;
    assert DaysBeforeMonth(y, 10) == DaysBeforeMonth(y, 9) + 30;
    assert DaysBeforeMonth(y, 12) == DaysBeforeMonth(y, 11) + 30;
  }

  lemma {:induction false} DaysBeforeYearMonotonic(y: nat, z: nat)
    requires y < z
    ensures DaysBeforeYear(y) + DaysInYear(y) <= DaysBeforeYear(z)
  {
    if y + 1 < z {
      DaysBeforeYearMonotonic(y, z - 1);
    }
  }

  lemma {:induction false} DaysBeforeMonthMonotonic(y: nat, m: nat, n: nat)
    requires 1 <= m < n
    ensures DaysBeforeMonth(y, m) + DaysInMonth(y, m) <= DaysBeforeMonth(y, n)
  {
    if m + 1 < n {
      DaysBeforeMonthMonotonic(y, m, n - 1);
    }
  }

  /** A calendar date and time of day, UTC. */
  datatype Civil = Civil(year: nat, month: nat, day: nat, hour: nat, minute: nat, second: nat)
  {
    predicate Valid()
    {
      && 1 <= month <= 12 && 1 <= day <= DaysInMonth(year, month)
      && hour < 24 && minute < 60 && second < 60
    }

    function Days(): nat
      requires 1 <= month && 1 <= day
    {
      DaysBeforeYear(year) + DaysBeforeMonth(year, month) + day - 1
    }

    function SecondOfDay(): nat { (hour * 60 + minute) * 60 + second }

    function Seconds(): nat
      requires 1 <= month && 1 <= day
    {
      Days() * 86400 + SecondOfDay()
    }

    /** Field-by-field order. */
    predicate Before(that: Civil)
    {
      year < that.year || (year == that.year && (
      month < that.month || (month == that.month && (
      day < that.day || (day == that.day && SecondOfDay() < that.SecondOfDay())))))
    }
  }

  /** The year that contains day `days` of year `y`, and the day's place in it. */
  function StripYears(days: nat, y: nat): (r: (nat, nat))
    ensures DaysBeforeYear(r.0) + r.1 == DaysBeforeYear(y) + days
    ensures r.1 < DaysInYear(r.0)
    decreases days
  {
    if days < DaysInYear(y) then (y, days) else StripYears(days - DaysInYear(y), y + 1)
  }

  function StripMonths(days: nat, y: nat, m: nat): (r: (nat, nat))
    requires 1 <= m <= 12 && DaysBeforeMonth(y, m) + days < DaysBeforeMonth(y, 13)
    ensures 1 <= r.0 <= 12 && r.1 < DaysInMonth(y, r.0)
    ensures DaysBeforeMonth(y, r.0) + r.1 == DaysBeforeMonth(y, m) + days
    decreases 12 - m
  {
    if days < DaysInMonth(y, m) then (m, days)
    else
      assert m < 12;
      StripMonths(days - DaysInMonth(y, m), y, m + 1)
  }

  function CivilOf(seconds: nat): (c: Civil)
    ensures c.Valid() && c.Seconds() == seconds
  {
    var (y, d) := StripYears(seconds / 86400, 0);
    YearHasTwelveMonths(y);
    var (m, dd) := StripMonths(d, y, 1);
    var s := seconds % 86400;
    Civil(y, m, dd + 1, s / 3600, s % 3600 / 60, s % 60)
  }

  /** Chronological order of valid dates is the order of their fields. */
  lemma SecondsOrdered(a: Civil, b: Civil)
    requires a.Valid() && b.Valid() && a.Before(b)
    ensures a.Seconds() < b.Seconds()
  {
    YearHasTwelveMonths(a.year);
    DaysBeforeMonthMonotonic(a.year, a.month, 13);
    if a.year < b.year {
      DaysBeforeYearMonotonic(a.year, b.year);
    } else if a.month < b.month {
      DaysBeforeMonthMonotonic(a.year, a.month, b.month);
    }
  }

  lemma SecondsDetermine(a: Civil, b: Civil)
    requires a.Valid() && b.Valid() && a.Seconds() == b.Seconds()
    ensures a == b
  {
    if a.Before(b) {
      SecondsOrdered(a, b);
    } else if b.Before(a) {
      SecondsOrdered(b, a);
    }
  }

  function YearOf(t: Instant): nat { CivilOf(t / SECOND).year }

  function YearText(y: nat): string { if y < 10000 then Digits(y, 4) else Decimal(y) }

  function Tail(c: Civil): string
  {
    "-" + Digits(c.month, 2) + ("-" + Digits(c.day, 2) + ("T" + ClockText(c)))
  }

  function ClockText(c: Civil): string
  {
    Digits(c.hour, 2) + (":" + Digits(c.minute, 2) + (":" + Digits(c.second, 2) + "Z"))
  }

  function Render(c: Civil): string { YearText(c.year) + Tail(c) }

  /** formatTime: UTC, whole seconds, at least four year digits. */
  function FormatTime(t: Instant): string { Render(CivilOf(t / SECOND)) }

  predicate DigitsIn(s: string, i: nat, j: nat)
    requires j <= |s|
  {
    forall k :: i <= k < j ==> IsDigit(s[k])
  }

  predicate HasShape(s: string)
  {
    && |s| == 20
    && s[4] == '-' && s[7] == '-' && s[10] == 'T' && s[13] == ':' && s[16] == ':' && s[19] == 'Z'
    && DigitsIn(s, 0, 4) && DigitsIn(s, 5, 7) && DigitsIn(s, 8, 10)
    && DigitsIn(s, 11, 13) && DigitsIn(s, 14, 16) && DigitsIn(s, 17, 19)
  }

  function Fields(s: string): Civil
    requires HasShape(s)
  {
    Civil(Number(s[0..4]), Number(s[5..7]), Number(s[8..10]),
          Number(s[11..13]), Number(s[14..16]), Number(s[17..19]))
  }

  /** parseTime, on the form that formatTime writes. */
  function ParseTime(s: string): Option<Instant>
  {
    if HasShape(s) && Fields(s).Valid() then Some(Fields(s).Seconds() * SECOND) else None
  }

  lemma ClockTextPieces(c: Civil)
    ensures var t := ClockText(c);
            && |t| == 9 && t[2] == ':' && t[5] == ':' && t[8] == 'Z' && t[0..2] == Digits(c.hour, 2)
            && t[3..5] == Digits(c.minute, 2) && t[6..8] == Digits(c.second, 2)
  {
  }

  lemma TailPieces(c: Civil)
    ensures var t := Tail(c);
            && |t| == 16 && t[0] == '-' && t[3] == '-' && t[6] == 'T' && t[1..3] == Digits(c.month, 2)
            && t[4..6] == Digits(c.day, 2) && t[7..16] == ClockText(c)
  {
    hide ClockText;
    ClockTextPieces(c);
    var y := "-" + Digits(c.day, 2) + ("T" + ClockText(c));
    assert Tail(c) == "-" + Digits(c.month, 2) + y;
  }

  lemma RenderPieces(c: Civil)
    requires c.year < 10000
    ensures var s := Render(c);
            && |s| == 20 && s[0..4] == Digits(c.year, 4) && s[4..20] == Tail(c)
  {
    hide Tail;
    TailPieces(c);
  }

  lemma PieceIsNumber(s: string, i: nat, j: nat, n: nat)
    requires i <= j <= |s| && s[i..j] == Digits(n, j - i) && n < Pow10(j - i)
    ensures DigitsIn(s, i, j) && Number(s[i..j]) == n
  {
    NumberOfDigits(n, j - i);
    forall k | i <= k < j
      ensures IsDigit(s[k])
    {
      assert s[k] == s[i..j][k - i];
    }
  }

  lemma RenderHasShape(c: Civil)
    requires c.Valid() && c.year < 10000
    ensures HasShape(Render(c)) && Fields(Render(c)) == c
  {
    hide Render, Tail, ClockText;
    var s := Render(c);
    RenderPieces(c);
    TailPieces(c);
    ClockTextPieces(c);
    assert forall k :: 0 <= k < 16 ==> s[4 + k] == s[4..20][k];
    assert forall k :: 0 <= k < 9 ==> s[11 + k] == s[4..20][7..16][k];
    assert s[5..7] == s[4..20][1..3] && s[8..10] == s[4..20][4..6] && s[11..20] == s[4..20][7..16];
    assert s[11..13] == s[11..20][0..2] && s[14..16] == s[11..20][3..5] && s[17..19] == s[11..20][6..8];
    PowersOfTen();
    PieceIsNumber(s, 0, 4, c.year);
    PieceIsNumber(s, 5, 7, c.month);
    PieceIsNumber(s, 8, 10, c.day);
    PieceIsNumber(s, 11, 13, c.hour);
    PieceIsNumber(s, 14, 16, c.minute);
    PieceIsNumber(s, 17, 19, c.second);
  }

  lemma PowersOfTen()
    ensures Pow10(2) == 100 && Pow10(4) == 10000
  {
    assert Pow10(1) == 10;
    assert Pow10(3) == 1000;
  }

  lemma LongYearHasNoShape(c: Civil)
    requires c.year >= 10000
    ensures !HasShape(Render(c))
  {
    var y := c.year;
    assert |Decimal(y)| == 1 + |Decimal(y / 10)| == 2 + |Decimal(y / 10 / 10)| == 3 + |Decimal(y / 10 / 10 / 10)|;
    assert |Render(c)| == |Decimal(y)| + |Tail(c)|;
  }

  /** Reading back what was written floors to the second, exactly for years up to 9999; later years cannot be read back. */
  lemma RoundTrip(t: Instant)
    ensures ParseTime(FormatTime(t)) == if YearOf(t) <= 9999 then Some(Floor(t)) else None
  {
    hide Render, HasShape, Fields;
    var c := CivilOf(t / SECOND);
    FloorBySeconds(t, t);
    if c.year <= 9999 {
      RenderHasShape(c);
    } else {
      LongYearHasNoShape(c);
    }
  }

  lemma ClockPiece(s: string)
    requires HasShape(s)
    ensures ClockText(Fields(s)) == s[11..]
  {
    DigitsOfNumber(s[11..13]);
    DigitsOfNumber(s[14..16]);
    DigitsOfNumber(s[17..19]);
    var z := s[17..19] + "Z";
    assert s[17..] == z;
    var y := s[14..16] + (":" + z);
    assert s[14..] == y;
    assert s[11..] == s[11..13] + (":" + y);
    assert ":" + s[14..16] + (":" + z) == ":" + y;
  }

  lemma TailPiece(s: string)
    requires HasShape(s)
    ensures Tail(Fields(s)) == s[4..]
  {
    ClockPiece(s);
    hide ClockText;
    DigitsOfNumber(s[5..7]);
    DigitsOfNumber(s[8..10]);
    var z := "T" + s[11..];
    assert s[10..] == z;
    var y := "-" + s[8..10] + z;
    assert s[7..] == y;
    assert s[4..] == "-" + s[5..7] + y;
  }

  lemma RenderFields(s: string)
    requires HasShape(s)
    ensures Render(Fields(s)) == s
  {
    TailPiece(s);
    hide Tail;
    PowersOfTen();
    DigitsOfNumber(s[0..4]);
    assert YearText(Fields(s).year) == s[0..4];
    assert s == s[0..4] + s[4..];
  }

  /** Every readable text is the one text written for its instant. */
  lemma Canonical(s: string)
    requires ParseTime(s).Some?
    ensures FormatTime(ParseTime(s).value) == s
  {
    hide Render, HasShape;
    var c := Fields(s);
    SecondsDetermine(CivilOf(c.Seconds()), c);
    assert ParseTime(s).value / SECOND == c.Seconds();
    RenderFields(s);
  }

  /** Flooring an instant does not change its text. */
  lemma FloorSameText(t: Instant)
    ensures FormatTime(Floor(t)) == FormatTime(t)
  {
    assert Floor(t) / SECOND == t / SECOND;
  }

  lemma FieldOrdered(a: nat, b: nat, x: string, y: string)
    requires a < 100 && b < 100
    ensures Precedes(Digits(a, 2) + x, Digits(b, 2) + y) <==> a < b || (a == b && Precedes(x, y))
  {
    PowersOfTen();
    DigitsOrdered(a, b, 2);
    PrecedesByHead(Digits(a, 2), Digits(b, 2), x, y);
  }

  lemma SameHead(h: string, x: string, y: string)
    ensures Precedes(h + x, h + y) <==> Precedes(x, y)
  {
    PrecedesIrreflexive(h);
    PrecedesByHead(h, h, x, y);
  }

  lemma ClockOrdered(a: Civil, b: Civil)
    requires a.Valid() && b.Valid()
    ensures Precedes(ClockText(a), ClockText(b)) <==> a.SecondOfDay() < b.SecondOfDay()
  {
    PrecedesIrreflexive("Z");
    var a2, b2 := Digits(a.second, 2) + "Z", Digits(b.second, 2) + "Z";
    FieldOrdered(a.second, b.second, "Z", "Z");
    SameHead(":", a2, b2);
    var a1, b1 := Digits(a.minute, 2) + (":" + a2), Digits(b.minute, 2) + (":" + b2);
    FieldOrdered(a.minute, b.minute, ":" + a2, ":" + b2);
    SameHead(":", a1, b1);
    FieldOrdered(a.hour, b.hour, ":" + a1, ":" + b1);
    assert ":" + Digits(a.second, 2) + "Z" == ":" + a2 && ":" + Digits(b.second, 2) + "Z" == ":" + b2;
    assert ":" + Digits(a.minute, 2) + (":" + a2) == ":" + a1 && ":" + Digits(b.minute, 2) + (":" + b2) == ":" + b1;
  }

  lemma TailOrdered(a: Civil, b: Civil)
    requires a.Valid() && b.Valid()
    ensures Precedes(Tail(a), Tail(b)) <==> a.(year := 0).Before(b.(year := 0))
  {
    assert a.day < 100 && b.day < 100 && a.month < 100 && b.month < 100;
    hide ClockText, DaysInMonth;
    var ta, tb := "T" + ClockText(a), "T" + ClockText(b);
    ClockOrdered(a, b);
    SameHead("T", ClockText(a), ClockText(b));
    var da, db := Digits(a.day, 2) + ta, Digits(b.day, 2) + tb;
    FieldOrdered(a.day, b.day, ta, tb);
    SameHead("-", da, db);
    FieldOrdered(a.month, b.month, "-" + da, "-" + db);
    SameHead("-", Digits(a.month, 2) + ("-" + da), Digits(b.month, 2) + ("-" + db));
    assert Tail(a) == "-" + (Digits(a.month, 2) + ("-" + da)) && Tail(b) == "-" + (Digits(b.month, 2) + ("-" + db));
  }

  lemma RenderOrdered(x: Civil, y: Civil)
    requires x.Valid() && y.Valid() && x.year < 10000 && y.year < 10000
    ensures Precedes(Render(x), Render(y)) <==> x.Before(y)
  {
    PowersOfTen();
    DigitsOrdered(x.year, y.year, 4);
    PrecedesByHead(Digits(x.year, 4), Digits(y.year, 4), Tail(x), Tail(y));
    TailOrdered(x, y);
  }

  lemma BeforeIffEarlier(x: Civil, y: Civil)
    requires x.Valid() && y.Valid()
    ensures x.Before(y) <==> x.Seconds() < y.Seconds()
  {
    if x.Before(y) {
      SecondsOrdered(x, y);
    } else if y.Before(x) {
      SecondsOrdered(y, x);
    }
  }

  lemma CivilFacts(t: Instant)
    requires YearOf(t) <= 9999
    ensures var c := CivilOf(t / SECOND);
            FormatTime(t) == Render(c) && c.Valid() && c.year < 10000 && c.Seconds() == t / SECOND
  {
    hide Render;
  }

  lemma TextBefore(a: Instant, b: Instant)
    requires YearOf(a) <= 9999 && YearOf(b) <= 9999
    ensures Precedes(FormatTime(a), FormatTime(b)) <==> Floor(a) < Floor(b)
  {
    hide Render, FormatTime, CivilOf, Floor, Precedes, Civil.Before, Civil.Seconds, Civil.Valid;
    CivilFacts(a);
    CivilFacts(b);
    RenderOrdered(CivilOf(a / SECOND), CivilOf(b / SECOND));
    BeforeIffEarlier(CivilOf(a / SECOND), CivilOf(b / SECOND));
    FloorBySeconds(a, b);
  }

  /** Byte order of stored texts is chronological order of the floored instants: what ORDER BY created_at relies on. */
  lemma TextOrder(a: Instant, b: Instant)
    requires YearOf(a) <= 9999 && YearOf(b) <= 9999
    ensures Precedes(FormatTime(a), FormatTime(b)) <==> Floor(a) < Floor(b)
    ensures FormatTime(a) == FormatTime(b) <==> Floor(a) == Floor(b)
  {
    hide *;
    TextBefore(a, b);
    TextBefore(b, a);
    PrecedesTotal(FormatTime(a), FormatTime(b));
    PrecedesIrreflexive(FormatTime(a));
    if Floor(a) == Floor(b) {
      FloorSameText(a);
      FloorSameText(b);
    }
  }

  /** The order is lost from year 10000 on: every instant of the years 10000 to 19999 sorts before every instant of 2000 to 9999. */
  lemma TextOrderEndsAtYear9999(a: Instant, b: Instant)
    requires 10000 <= YearOf(a) <= 19999 && 2000 <= YearOf(b) <= 9999
    ensures Floor(b) < Floor(a) && Precedes(FormatTime(a), FormatTime(b))
  {
    var x, y := CivilOf(a / SECOND), CivilOf(b / SECOND);
    SecondsOrdered(y, x);
    assert Decimal(x.year)[0] == '1' by {
      var k := x.year / 10 / 10 / 10 / 10;
      assert k == 1;
      assert Decimal(k) == "1";
      assert Decimal(x.year / 10 / 10 / 10) == Decimal(k) + [DigitOf(x.year / 10 / 10 / 10 % 10)];
      assert Decimal(x.year / 10 / 10) == Decimal(x.year / 10 / 10 / 10) + [DigitOf(x.year / 10 / 10 % 10)];
      assert Decimal(x.year / 10) == Decimal(x.year / 10 / 10) + [DigitOf(x.year / 10 % 10)];
      assert Decimal(x.year) == Decimal(x.year / 10) + [DigitOf(x.year % 10)];
    }
    assert Digits(y.year, 4)[0] >= '2' by {
      assert Digits(y.year / 10 / 10 / 10, 1)[0] == DigitOf(y.year / 10 / 10 / 10 % 10);
      assert Digits(y.year / 10 / 10, 2)[0] == Digits(y.year / 10 / 10 / 10, 1)[0];
      assert Digits(y.year / 10, 3)[0] == Digits(y.year / 10 / 10, 2)[0];
      assert Digits(y.year, 4)[0] == Digits(y.year / 10, 3)[0];
    }
  }

  // The calendar is the Gregorian one, and the clock counts nanoseconds.

  /** Days before a year: 365 each, one more every fourth, but not every hundredth, and again every four hundredth. */
  lemma {:induction false} DaysCounted(y: nat)
    ensures DaysBeforeYear(y) == 365 * y + (y + 3) / 4 - (y + 99) / 100 + (y + 399) / 400
  {
    if y > 0 {
      DaysCounted(y - 1);
      FourthYear(y - 1);
      HundredthYear(y - 1);
      FourHundredthYear(y - 1);
      LeapRule(y - 1);
      hide DaysInYear;
    }
  }

  // One more multiple exactly after a multiple.

  lemma FourthYear(y: nat)
    ensures (y + 4) / 4 == (y + 3) / 4 + if y % 4 == 0 then 1 else 0
  {
  }

  lemma HundredthYear(y: nat)
    ensures (y + 100) / 100 == (y + 99) / 100 + if y % 100 == 0 then 1 else 0
  {
  }

  lemma FourHundredthYear(y: nat)
    ensures (y + 400) / 400 == (y + 399) / 400 + if y % 400 == 0 then 1 else 0
  {
  }

  lemma LeapRule(y: nat)
    ensures DaysInYear(y) == 365 + (if y % 4 == 0 then 1 else 0) - (if y % 100 == 0 then 1 else 0) + (if y % 400 == 0 then 1 else 0)
  {
    var q, r := y / 400, y % 400;
    assert y == 400 * q + r;
  }

  /** Days before each month, in common years and in leap years. */
  lemma MonthsCounted(y: nat)
    ensures var leap := DaysBeforeYear(y + 1) - DaysBeforeYear(y) - 365;
            && DaysBeforeMonth(y, 1) == 0 && DaysBeforeMonth(y, 2) == 31 && DaysBeforeMonth(y, 3) == 59 + leap
            && DaysBeforeMonth(y, 4) == 90 + leap && DaysBeforeMonth(y, 5) == 120 + leap && DaysBeforeMonth(y, 6) == 151 + leap
            && DaysBeforeMonth(y, 7) == 181 + leap && DaysBeforeMonth(y, 8) == 212 + leap && DaysBeforeMonth(y, 9) == 243 + leap
            && DaysBeforeMonth(y, 10) == 273 + leap && DaysBeforeMonth(y, 11) == 304 + leap && DaysBeforeMonth(y, 12) == 334 + leap
            && DaysBeforeMonth(y, 13) == 365 + leap
  {
    assert DaysBeforeYear(y + 1) == DaysBeforeYear(y) + DaysInYear(y);
    assert DaysBeforeMonth(y, 3) == DaysBeforeMonth(y, 2) + DaysInMonth(y, 2);
    assert DaysBeforeMonth(y, 5) == DaysBeforeMonth(y, 4) + 30;
    assert DaysBeforeMonth(y, 7) == DaysBeforeMonth(y, 6) + 30;
    assert DaysBeforeMonth(y, 9) == DaysBeforeMonth(y, 8) + 31;
    assert DaysBeforeMonth(y, 11) == DaysBeforeMonth(y, 10) + 31;
    assert DaysBeforeMonth(y, 13) == DaysBeforeMonth(y, 12) + 31;
  }

  lemma OneDigit(a: nat)
    requires a < 10
    ensures Digits(a, 1) == [DigitOf(a)]
  {
    assert Digits(a, 1) == Digits(a / 10, 0) + [DigitOf(a % 10)];
    assert a / 10 == 0 && a % 10 == a;
  }

  lemma SplitDigit(n: nat, a: nat, d: nat)
    requires d < 10 && n == 10 * a + d
    ensures n / 10 == a && n % 10 == d
  {
  }

  lemma TwoDigits(n: nat, a: nat, d: nat)
    requires a < 10 && d < 10 && n == 10 * a + d
    ensures Digits(n, 2) == [DigitOf(a)] + [DigitOf(d)]
  {
    SplitDigit(n, a, d);
    OneDigit(a);
    assert Digits(n, 2) == Digits(n / 10, 1) + [DigitOf(n % 10)];
  }

  lemma FourDigits(n: nat, a: nat, c: nat, d: nat)
    requires a < 100 && c < 10 && d < 10 && n == 10 * (10 * a + c) + d
    ensures Digits(n, 4) == Digits(a, 2) + [DigitOf(c)] + [DigitOf(d)]
  {
    var m := 10 * a + c;
    SplitDigit(n, m, d);
    SplitDigit(m, a, c);
    assert Digits(n, 4) == Digits(n / 10, 3) + [DigitOf(n % 10)];
    assert Digits(m, 3) == Digits(m / 10, 2) + [DigitOf(m % 10)];
  }

  /** A date and time of day is written in its instant's text. */
  lemma WrittenDate(c: Civil, t: Instant)
    requires c.Valid() && c.Seconds() == t / SECOND
    ensures FormatTime(t) == Render(c)
  {
    hide Render, Civil.Valid, Civil.Seconds;
    SecondsDetermine(CivilOf(t / SECOND), c);
  }

  lemma SomeDigits()
    ensures Digits(0, 2) == "00" && Digits(1, 2) == "01" && Digits(2, 2) == "02" && Digits(29, 2) == "29" && Digits(12, 2) == "12"
    ensures Digits(34, 2) == "34" && Digits(56, 2) == "56" && Digits(1970, 4) == "1970" && Digits(2024, 4) == "2024"
  {
    TwoDigits(0, 0, 0);
    TwoDigits(1, 0, 1);
    TwoDigits(2, 0, 2);
    TwoDigits(29, 2, 9);
    TwoDigits(12, 1, 2);
    TwoDigits(34, 3, 4);
    TwoDigits(56, 5, 6);
    TwoDigits(19, 1, 9);
    TwoDigits(20, 2, 0);
    FourDigits(1970, 19, 7, 0);
    FourDigits(2024, 20, 2, 4);
    hide Digits;
  }

  lemma EpochSeconds()
    ensures var c := Civil(1970, 1, 1, 0, 0, 0); c.Valid() && c.Seconds() == 62_167_219_200
  {
    DaysCounted(1970);
    hide DaysBeforeYear;
  }

  lemma LeapDaySeconds()
    ensures var c := Civil(2024, 2, 29, 12, 34, 56); c.Valid() && c.Seconds() == 63_876_429_296
  {
    DaysCounted(2024);
    hide DaysBeforeYear;
    assert DaysBeforeMonth(2024, 2) == 31;
  }

  lemma EpochText()
    ensures Render(Civil(1970, 1, 1, 0, 0, 0)) == "1970-01-01T00:00:00Z"
  {
    SomeDigits();
    hide Digits;
    assert ClockText(Civil(1970, 1, 1, 0, 0, 0)) == "00:00:00Z";
    assert Tail(Civil(1970, 1, 1, 0, 0, 0)) == "-01-01T00:00:00Z";
  }

  lemma LeapDayText()
    ensures Render(Civil(2024, 2, 29, 12, 34, 56)) == "2024-02-29T12:34:56Z"
  {
    SomeDigits();
    hide Digits;
    assert ClockText(Civil(2024, 2, 29, 12, 34, 56)) == "12:34:56Z";
    assert Tail(Civil(2024, 2, 29, 12, 34, 56)) == "-02-29T12:34:56Z";
  }

  /** Two dates: the Unix epoch, and a leap day. */
  lemma KnownDates()
    ensures FormatTime(62_167_219_200_000_000_000) == "1970-01-01T00:00:00Z"
    ensures FormatTime(63_876_429_296_000_000_000) == "2024-02-29T12:34:56Z"
  {
    assert 62_167_219_200_000_000_000 / SECOND == 62_167_219_200 && 63_876_429_296_000_000_000 / SECOND == 63_876_429_296;
    EpochSeconds();
    LeapDaySeconds();
    hide Render, FormatTime, Civil.Valid, Civil.Seconds;
    WrittenDate(Civil(1970, 1, 1, 0, 0, 0), 62_167_219_200_000_000_000);
    WrittenDate(Civil(2024, 2, 29, 12, 34, 56), 63_876_429_296_000_000_000);
    EpochText();
    LeapDayText();
  }
}
