/** Byte order on text, decimal numbers and white space: what the store's ORDER BY,
    the migration file order and the form parsers rely on. */
module Text {

  datatype Option<+T> = None | Some(value: T)

  /** Strict byte-wise order: the BINARY collation of the store and Go's `<` on strings. */
  predicate Precedes(a: string, b: string)
  {
    |b| > 0 && (|a| == 0 || a[0] < b[0] || (a[0] == b[0] && Precedes(a[1..], b[1..])))
  }

  lemma {:induction false} PrecedesIrreflexive(a: string)
    ensures !Precedes(a, a)
  {
    if |a| > 0 {
      PrecedesIrreflexive(a[1..]);
    }
  }

  lemma {:induction false} PrecedesTransitive(a: string, b: string, c: string)
    requires Precedes(a, b) && Precedes(b, c)
    ensures Precedes(a, c)
  {
    if |a| > 0 && a[0] == b[0] == c[0] {
      PrecedesTransitive(a[1..], b[1..], c[1..]);
    }
  }

  lemma {:induction false} PrecedesTotal(a: string, b: string)
    ensures Precedes(a, b) || a == b || Precedes(b, a)
  {
    if |a| > 0 && |b| > 0 && a[0] == b[0] {
      PrecedesTotal(a[1..], b[1..]);
      assert a == [a[0]] + a[1..] && b == [b[0]] + b[1..];
    }
  }

  /** Texts that start with equally long heads are ordered by the heads first. */
  lemma {:induction false} PrecedesByHead(p: string, q: string, a: string, b: string)
    requires |p| == |q|
    ensures Precedes(p + a, q + b) <==> Precedes(p, q) || (p == q && Precedes(a, b))
  {
    if |p| == 0 {
      assert p + a == a && q + b == b;
    } else {
      PrecedesByHead(p[1..], q[1..], a, b);
      assert (p + a)[1..] == p[1..] + a && (q + b)[1..] == q[1..] + b;
      assert p == [p[0]] + p[1..] && q == [q[0]] + q[1..];
    }
  }

  predicate IsDigit(c: char) { '0' <= c <= '9' }

  function DigitOf(n: nat): char
    requires n < 10
  {
    ('0' as int + n) as char
  }

  function Pow10(w: nat): nat { if w == 0 then 1 else 10 * Pow10(w - 1) }

  /** `n` in exactly `w` decimal digits, zero-padded. */
  function Digits(n: nat, w: nat): (s: string)
    ensures |s| == w && forall i :: 0 <= i < w ==> IsDigit(s[i])
  {
    if w == 0 then "" else Digits(n / 10, w - 1) + [DigitOf(n % 10)]
  }

  /** The value of a run of decimal digits. */
  function Number(s: string): nat
    requires forall i :: 0 <= i < |s| ==> IsDigit(s[i])
  {
    if s == "" then 0 else
    assert IsDigit(s[|s| - 1]);
    10 * Number(s[..|s| - 1]) + (s[|s| - 1] as int - '0' as int)
  }

  lemma {:induction false} NumberOfDigits(n: nat, w: nat)
    requires n < Pow10(w)
    ensures Number(Digits(n, w)) == n
  {
    if w > 0 {
      NumberOfDigits(n / 10, w - 1);
      assert Digits(n, w)[..w - 1] == Digits(n / 10, w - 1);
    }
  }

  lemma {:induction false} DigitsOfNumber(s: string)
    requires forall i :: 0 <= i < |s| ==> IsDigit(s[i])
    ensures Number(s) < Pow10(|s|) && Digits(Number(s), |s|) == s
  {
    if s != "" {
      DigitsOfNumber(s[..|s| - 1]);
      assert s == s[..|s| - 1] + [s[|s| - 1]];
    }
  }

  /** Equally wide digit texts are ordered as the numbers they denote. */
  lemma {:induction false} DigitsOrdered(m: nat, n: nat, w: nat)
    requires m < Pow10(w) && n < Pow10(w)
    ensures Precedes(Digits(m, w), Digits(n, w)) <==> m < n
    ensures Digits(m, w) == Digits(n, w) <==> m == n
  {
    NumberOfDigits(m, w);
    NumberOfDigits(n, w);
    if w > 0 {
      DigitsOrdered(m / 10, n / 10, w - 1);
      PrecedesByHead(Digits(m / 10, w - 1), Digits(n / 10, w - 1), [DigitOf(m % 10)], [DigitOf(n % 10)]);
    }
  }

  /** Decimal text without padding. */
  function Decimal(n: nat): (s: string)
    ensures |s| > 0 && forall i :: 0 <= i < |s| ==> IsDigit(s[i])
    ensures n >= 10 ==> |s| == 1 + |Decimal(n / 10)|
  {
    if n < 10 then [DigitOf(n)] else Decimal(n / 10) + [DigitOf(n % 10)]
  }

  predicate AllDigits(s: string)
  {
    forall i :: 0 <= i < |s| ==> IsDigit(s[i])
  }

  const MAX_INT64: int := 0x7fff_ffff_ffff_ffff

  /** Base-ten 64-bit integer: an optional sign, then one or more digits, in range. */
  function ParseInt(s: string): Option<int>
  {
    var digits := if |s| > 0 && (s[0] == '-' || s[0] == '+') then s[1..] else s;
    if digits == "" || !AllDigits(digits) then None else
    var size: int := Number(digits);
    var n := if s[0] == '-' then -size else size;
    if -MAX_INT64 - 1 <= n <= MAX_INT64 then Some(n) else None
  }

  // What decimal text means, by its shape.

  /** k zeros. */
  function Zeros(k: nat): (s: string)
    ensures |s| == k && forall i :: 0 <= i < k ==> s[i] == '0'
  {
    seq(k, i => '0')
  }

  /** The ten digits, and one more of them at the end: what decimal text is. */
  lemma DecimalDigits(n: nat, d: nat)
    requires 1 <= n && d < 10
    ensures Decimal(0) == "0" && Decimal(1) == "1" && Decimal(2) == "2" && Decimal(3) == "3" && Decimal(4) == "4"
    ensures Decimal(5) == "5" && Decimal(6) == "6" && Decimal(7) == "7" && Decimal(8) == "8" && Decimal(9) == "9"
    ensures Decimal(10 * n + d) == Decimal(n) + Decimal(d)
  {
    LastDigit(n, d);
    var m := 10 * n + d;
    assert m >= 10 && m / 10 == n && m % 10 == d;
  }

  lemma LastDigit(n: nat, d: nat)
    requires d < 10
    ensures (10 * n + d) / 10 == n && (10 * n + d) % 10 == d
  {
  }

  lemma {:induction false} NumberOfDecimal(n: nat)
    ensures AllDigits(Decimal(n)) && Number(Decimal(n)) == n
  {
    var s := Decimal(n);
    if n >= 10 {
      NumberOfDecimal(n / 10);
      assert s[..|s| - 1] == Decimal(n / 10);
    } else {
      assert s[..|s| - 1] == "";
    }
  }

  lemma {:induction false} ZeroPadded(k: nat, s: string)
    requires AllDigits(s)
    ensures AllDigits(Zeros(k) + s) && Number(Zeros(k) + s) == Number(s)
  {
    var t := Zeros(k) + s;
    if s != "" {
      ZeroPadded(k, s[..|s| - 1]);
      assert t[..|t| - 1] == Zeros(k) + s[..|s| - 1];
    } else {
      OnlyZeros(k);
      assert t == Zeros(k);
    }
  }

  lemma {:induction false} OnlyZeros(k: nat)
    ensures Number(Zeros(k)) == 0
  {
    if k > 0 {
      OnlyZeros(k - 1);
      assert Zeros(k)[..k - 1] == Zeros(k - 1);
    }
  }

  lemma NoZeroLeads(n: nat, d: nat)
    requires d < 10
    ensures Decimal(10 * n + d) == if n == 0 then [DigitOf(d)] else Decimal(n) + [DigitOf(d)]
  {
    LastDigit(n, d);
    var m := 10 * n + d;
    assert m / 10 == n && m % 10 == d && (m < 10 <==> n == 0);
  }

  lemma DigitIs(c: char)
    requires IsDigit(c)
    ensures (c as int - '0' as int) < 10 && DigitOf(c as int - '0' as int) == c
  {
  }

  /** Any digits are zeros before the decimal text of their number. */
  lemma {:induction false} DigitsAreDecimal(s: string) returns (k: nat)
    requires AllDigits(s) && s != ""
    ensures s == Zeros(k) + Decimal(Number(s))
  {
    var most, last := s[..|s| - 1], s[|s| - 1];
    var d := last as int - '0' as int;
    DigitIs(last);
    assert s == most + [last] && Number(s) == 10 * Number(most) + d;
    NoZeroLeads(Number(most), d);
    if most == "" {
      k := 0;
      assert Zeros(0) == "" && s == [last];
    } else {
      k := DigitsAreDecimal(most);
      if Number(most) == 0 {
        assert most == Zeros(k) + "0" && Zeros(k) + "0" == Zeros(k + 1);
        k := k + 1;
      } else {
        assert s == Zeros(k) + (Decimal(Number(most)) + [last]);
      }
    }
  }

  function Signed(sign: string, n: nat): int { if sign == "-" then -(n as int) else n }

  predicate InRange(v: int) { -0x8000_0000_0000_0000 <= v < 0x8000_0000_0000_0000 }

  lemma UnsignedRead(digits: string)
    requires AllDigits(digits) && digits != ""
    ensures ParseInt(digits) == if InRange(Number(digits)) then Some(Number(digits)) else None
  {
    assert IsDigit(digits[0]);
    hide Number, AllDigits;
  }

  lemma SignedRead(c: char, digits: string)
    requires AllDigits(digits) && digits != "" && (c == '+' || c == '-')
    ensures var v := Signed([c], Number(digits)); ParseInt([c] + digits) == if InRange(v) then Some(v) else None
  {
    assert ([c] + digits)[1..] == digits;
    hide Number, AllDigits;
  }

  lemma ReadDigits(sign: string, digits: string)
    requires AllDigits(digits) && digits != "" && (sign == "" || sign == "+" || sign == "-")
    ensures var v := Signed(sign, Number(digits)); ParseInt(sign + digits) == if InRange(v) then Some(v) else None
  {
    hide ParseInt, Number, AllDigits;
    if sign == "" {
      assert sign + digits == digits;
      UnsignedRead(digits);
    } else {
      assert sign == [sign[0]];
      SignedRead(sign[0], digits);
    }
  }

  /** ParseInt reads a sign, if any, zeros, if any, and the decimal digits of a number as that number, if it fits 64 bits. */
  lemma ParseIntReads(sign: string, k: nat, n: nat)
    requires sign == "" || sign == "+" || sign == "-"
    ensures var text := sign + (Zeros(k) + Decimal(n));
            var v: int := if sign == "-" then -(n as int) else n;
            ParseInt(text) == if -0x8000_0000_0000_0000 <= v <= 0x7fff_ffff_ffff_ffff then Some(v) else None
  {
    NumberOfDecimal(n);
    ZeroPadded(k, Decimal(n));
    assert |Zeros(k) + Decimal(n)| > 0;
    hide Number, Zeros, Decimal, ParseInt, AllDigits;
    ReadDigits(sign, Zeros(k) + Decimal(n));
  }

  lemma SignAndDigits(s: string) returns (sign: string, digits: string)
    requires ParseInt(s).Some?
    ensures s == sign + digits && AllDigits(digits) && digits != "" && (sign == "" || sign == "+" || sign == "-")
  {
    hide Number, AllDigits;
    if s[0] == '-' || s[0] == '+' {
      sign, digits := [s[0]], s[1..];
    } else {
      sign, digits := "", s;
    }
  }

  /** … and reads nothing else. */
  lemma ParseIntOnly(s: string) returns (sign: string, k: nat, n: nat)
    requires ParseInt(s).Some?
    ensures (sign == "" || sign == "+" || sign == "-") && s == sign + (Zeros(k) + Decimal(n))
    ensures var v: int := if sign == "-" then -(n as int) else n; ParseInt(s) == Some(v)
  {
    var digits;
    sign, digits := SignAndDigits(s);
    k := DigitsAreDecimal(digits);
    n := Number(digits);
    hide *;
    ParseIntReads(sign, k, n);
  }

  /** The text is the number, in 64 bits: a sign, if any, zeros, if any, and its decimal digits. */
  ghost predicate SpelledAs(s: string, v: int, sign: string, k: nat, n: nat)
  {
    && (sign == "" || sign == "+" || sign == "-") && s == sign + (Zeros(k) + Decimal(n))
    && v == (if sign == "-" then -(n as int) else n) && -0x8000_0000_0000_0000 <= v <= 0x7fff_ffff_ffff_ffff
  }

  ghost predicate Spells(s: string, v: int) { exists sign: string, k: nat, n: nat :: SpelledAs(s, v, sign, k, n) }

  lemma ParseIntSpells(s: string, v: int)
    ensures ParseInt(s) == Some(v) <==> Spells(s, v)
  {
    if ParseInt(s) == Some(v) {
      var sign, k, n := ParseIntOnly(s);
      hide ParseInt, Zeros, Decimal;
      ParseIntReads(sign, k, n);
      assert SpelledAs(s, v, sign, k, n);
    }
    hide ParseInt, Zeros, Decimal;
    if sign: string, k: nat, n: nat :| SpelledAs(s, v, sign, k, n) {
      ParseIntReads(sign, k, n);
    }
  }

  // What byte order means.

  /** The texts agree up to a place, where the first ends or has the smaller byte. */
  predicate DifferAt(a: string, b: string, k: nat)
  {
    k <= |a| && k < |b| && a[..k] == b[..k] && (k == |a| || a[k] < b[k])
  }

  lemma {:induction false} PrecedesMeans(a: string, b: string)
    ensures Precedes(a, b) <==> exists k: nat :: DifferAt(a, b, k)
  {
    if Precedes(a, b) {
      var k := FirstDifference(a, b);
    } else if k: nat :| DifferAt(a, b, k) {
      DifferencePrecedes(a, b, k);
    }
  }

  lemma {:induction false} FirstDifference(a: string, b: string) returns (k: nat)
    requires Precedes(a, b)
    ensures DifferAt(a, b, k)
  {
    if |a| == 0 || a[0] < b[0] {
      k := 0;
      assert a[..0] == b[..0];
    } else {
      k := FirstDifference(a[1..], b[1..]);
      assert a[..k + 1] == [a[0]] + a[1..][..k] && b[..k + 1] == [b[0]] + b[1..][..k];
      k := k + 1;
    }
  }

  lemma {:induction false} DifferencePrecedes(a: string, b: string, k: nat)
    requires DifferAt(a, b, k)
    ensures Precedes(a, b)
  {
    if k > 0 {
      assert a[0] == a[..k][0] == b[..k][0] == b[0];
      assert a[1..][..k - 1] == a[..k][1..] && b[1..][..k - 1] == b[..k][1..];
      DifferencePrecedes(a[1..], b[1..], k - 1);
    }
  }

  /** The white space Go's TrimSpace removes. */
  predicate IsSpace(c: char)
  {
    '\t' <= c <= '\r' || c == ' ' || c == '\U{85}' || c == '\U{A0}' || c == '\U{1680}' ||
    '\U{2000}' <= c <= '\U{200a}' || c == '\U{2028}' || c == '\U{2029}' || c == '\U{202f}' ||
    c == '\U{205f}' || c == '\U{3000}'
  }

  /** Tab to carriage return, the space, next line and no-break space, and the Unicode spaces; no letter, digit or sign. */
  lemma SpacesAre(c: char)
    ensures IsSpace(c) <==>
      || c in "\t\n\U{b}\U{c}\r \U{85}\U{A0}\U{1680}\U{2028}\U{2029}\U{202f}\U{205f}\U{3000}"
      || c in "\U{2000}\U{2001}\U{2002}\U{2003}\U{2004}\U{2005}\U{2006}\U{2007}\U{2008}\U{2009}\U{200a}"
  {
  }
}
