/** Timestamps are stored as isoformat() text and compared as text by SQL, for example in
    app/storage/approvals.py and app/storage/webhooks.py. For UTC datetimes that comparison
    is the comparison of instants (section 5.1 of RFC 3339), although the fraction is left
    out when it is zero. */
module Timestamps {
  import opened Ordering
  import opened Operators
  import opened Integrity

  datatype DateTime = DateTime(year: nat, month: nat, day: nat, hour: nat, minute: nat, second: nat, micro: nat)

  predicate IsLeap(year: nat) {
    year % 4 == 0 && (year % 100 != 0 || year % 400 == 0)
  }

  function DaysInMonth(year: nat, month: nat): nat {
    if month == 2 then (if IsLeap(year) then 29 else 28)
    else if month in {4, 6, 9, 11} then 30 else 31
  }

  predicate Valid(t: DateTime) {
    && 1 <= t.year <= 9999 && 1 <= t.month <= 12 && 1 <= t.day <= DaysInMonth(t.year, t.month)
    && t.hour < 24 && t.minute < 60 && t.second < 60 && t.micro < 1_000_000
  }

  // ---------------------------------------------------------------- text

  function Power(n: nat): nat {
    if n == 0 then 1 else 10 * Power(n - 1)
  }

  function DigitOf(n: nat): char
    requires n < 10
  {
    (n + '0' as int) as char
  }

  /** n in decimal, with leading zeros up to the width. */
  function Digits(n: nat, width: nat): (text: string)
    requires n < Power(width)
    ensures |text| == width
  {
    if width == 0 then "" else Digits(n / 10, width - 1) + [DigitOf(n % 10)]
  }

  function Fraction(micro: nat): string
    requires micro < 1_000_000
  {
    Powers();
    (if micro == 0 then "" else "." + Digits(micro, 6)) + "+00:00"
  }

  lemma Powers()
    ensures Power(2) == 100 && Power(4) == 10_000 && Power(6) == 1_000_000
  {
    assert Power(0) == 1 && Power(1) == 10 && Power(2) == 100 && Power(3) == 1000 && Power(5) == 100_000;
  }

  /** datetime.isoformat() of a UTC datetime. */
  function Text(t: DateTime): string
    requires Valid(t)
  {
    Powers();
    Digits(t.year, 4) + ("-" + (Digits(t.month, 2) + ("-" + (Digits(t.day, 2) + ("T" + (Digits(t.hour, 2)
    + (":" + (Digits(t.minute, 2) + (":" + (Digits(t.second, 2) + Fraction(t.micro)))))))))))
  }

  // ---------------------------------------------------------------- what the text says

  predicate IsDigit(c: char) {
    '0' <= c <= '9'
  }

  /** The number that decimal digits spell. */
  function Number(text: string): int {
    if text == "" then 0 else 10 * Number(text[..|text| - 1]) + (text[|text| - 1] as int - '0' as int)
  }

  lemma {:induction false} DigitsSpell(n: nat, width: nat)
    requires n < Power(width)
    ensures Number(Digits(n, width)) == n && forall c :: c in Digits(n, width) ==> IsDigit(c)
  {
    if width > 0 {
      DigitsSpell(n / 10, width - 1);
      assert Digits(n, width)[..width - 1] == Digits(n / 10, width - 1);
    }
  }

  /** The text spells each field with a fixed number of digits, in the places that RFC 3339
      names, and its six fraction digits only when they are not all zero. */
  lemma TextSpells(t: DateTime)
    requires Valid(t)
    ensures var text := Text(t);
            && |text| == (if t.micro == 0 then 25 else 32)
            && Number(text[..4]) == t.year && text[4] == '-' && Number(text[5..7]) == t.month && text[7] == '-'
            && Number(text[8..10]) == t.day && text[10] == 'T' && Number(text[11..13]) == t.hour && text[13] == ':'
            && Number(text[14..16]) == t.minute && text[16] == ':' && Number(text[17..19]) == t.second
            && (t.micro != 0 ==> text[19] == '.' && Number(text[20..26]) == t.micro)
            && text[|text| - 6..] == "+00:00"
  {
    hide Number, Digits;
    Powers();
    var text := Text(t);
    var zone := "+00:00";
    DigitsSpell(t.year, 4);
    DigitsSpell(t.month, 2);
    DigitsSpell(t.day, 2);
    DigitsSpell(t.hour, 2);
    DigitsSpell(t.minute, 2);
    DigitsSpell(t.second, 2);
    DigitsSpell(t.micro, 6);
    assert text[..4] == Digits(t.year, 4) && text[5..7] == Digits(t.month, 2) && text[8..10] == Digits(t.day, 2);
    assert text[11..13] == Digits(t.hour, 2) && text[14..16] == Digits(t.minute, 2);
    var rest := Digits(t.second, 2) + Fraction(t.micro);
    assert text[17..] == rest;
    assert text[17..19] == rest[..2] == Digits(t.second, 2);
    assert text[19..] == Fraction(t.micro);
    if t.micro != 0 {
      assert text[20..26] == Fraction(t.micro)[1..7] == Digits(t.micro, 6);
    }
    assert text[|text| - 6..] == Fraction(t.micro)[|Fraction(t.micro)| - 6..] == zone;
  }

  // ---------------------------------------------------------------- instants

  function DaysBeforeYear(year: nat): int
    requires year >= 1
  {
    var y := year - 1;
    y * 365 + y / 4 - y / 100 + y / 400
  }

  function DaysBeforeMonth(year: nat, month: nat): nat {
    if month <= 1 then 0 else DaysBeforeMonth(year, month - 1) + DaysInMonth(year, month - 1)
  }

  /** Proleptic Gregorian day number, as date.toordinal counts it. */
  function Ordinal(t: DateTime): int
    requires t.year >= 1
  {
    DaysBeforeYear(t.year) + DaysBeforeMonth(t.year, t.month) + t.day
  }

  function MicrosOfDay(t: DateTime): nat {
    ((t.hour * 60 + t.minute) * 60 + t.second) * 1_000_000 + t.micro
  }

  const DAY := 86_400_000_000

  function InstantOf(t: DateTime): Instant
    requires t.year >= 1
  {
    Ordinal(t) * DAY + MicrosOfDay(t)
  }

  // ---------------------------------------------------------------- chronological order

  /** Field by field, the larger unit first. */
  predicate Earlier(a: DateTime, b: DateTime) {
    if a.year != b.year then a.year < b.year
    else if a.month != b.month then a.month < b.month
    else if a.day != b.day then a.day < b.day
    else if a.hour != b.hour then a.hour < b.hour
    else if a.minute != b.minute then a.minute < b.minute
    else if a.second != b.second then a.second < b.second
    else a.micro < b.micro
  }

  lemma YearLength(year: nat)
    requires year >= 1
    ensures DaysBeforeYear(year + 1) == DaysBeforeYear(year) + if IsLeap(year) then 366 else 365
  {
    QuotientStep(year, 4);
    QuotientStep(year, 100);
    QuotientStep(year, 400);
  }

  lemma QuotientStep(n: nat, d: nat)
    requires n >= 1 && d >= 1
    ensures n / d == (n - 1) / d + if n % d == 0 then 1 else 0
  {
    var q, r := n / d, n % d;
    assert n == q * d + r;
    if r == 0 {
      assert n - 1 == (q - 1) * d + (d - 1);
      QuotientIs(n - 1, q - 1, d - 1, d);
    } else {
      QuotientIs(n - 1, q, r - 1, d);
    }
  }

  lemma QuotientIs(n: int, q: int, r: int, d: nat)
    requires d >= 1 && n == q * d + r && 0 <= r < d
    ensures n / d == q
  {
    var p := n / d;
    assert n == p * d + n % d;
    assert (p - q) * d == r - n % d;
    Between(p - q, d);
  }

  lemma Between(k: int, d: nat)
    requires d >= 1
    ensures 0 - d < k * d < d ==> k == 0
  {
    if k >= 1 {
      assert k * d == d + (k - 1) * d && (k - 1) * d >= 0;
    } else if k <= -1 {
      assert k * d == (k + 1) * d - d && (k + 1) * d <= 0;
    }
  }

  lemma {:induction false} YearsGrow(a: nat, b: nat)
    requires 1 <= a < b
    ensures DaysBeforeYear(a) + (if IsLeap(a) then 366 else 365) <= DaysBeforeYear(b)
    decreases b - a
  {
    hide IsLeap, DaysBeforeYear;
    YearLength(a);
    if a + 1 < b {
      YearsGrow(a + 1, b);
    }
  }

  lemma {:induction false} MonthsGrow(year: nat, a: nat, b: nat)
    requires 1 <= a < b
    ensures DaysBeforeMonth(year, a) + DaysInMonth(year, a) <= DaysBeforeMonth(year, b)
    decreases b - a
  {
    hide DaysInMonth;
    if a + 1 < b {
      MonthsGrow(year, a, b - 1);
    }
  }

  lemma MonthsFillYear(year: nat)
    ensures DaysBeforeMonth(year, 13) == if IsLeap(year) then 366 else 365
  {
    hide IsLeap;
    var leap := if IsLeap(year) then 1 else 0;
    assert DaysBeforeMonth(year, 1) == 0 && DaysBeforeMonth(year, 2) == 31 && DaysBeforeMonth(year, 3) == 59 + leap;
    assert DaysBeforeMonth(year, 4) == 90 + leap && DaysBeforeMonth(year, 5) == 120 + leap;
    assert DaysBeforeMonth(year, 6) == 151 + leap && DaysBeforeMonth(year, 7) == 181 + leap;
    assert DaysBeforeMonth(year, 8) == 212 + leap && DaysBeforeMonth(year, 9) == 243 + leap;
    assert DaysBeforeMonth(year, 10) == 273 + leap && DaysBeforeMonth(year, 11) == 304 + leap;
    assert DaysBeforeMonth(year, 12) == 334 + leap;
  }

  lemma DateOrder(a: DateTime, b: DateTime)
    requires Valid(a) && Valid(b)
    requires a.year < b.year || (a.year == b.year && (a.month < b.month || (a.month == b.month && a.day < b.day)))
    ensures Ordinal(a) < Ordinal(b)
  {
    hide DaysBeforeYear, DaysBeforeMonth, DaysInMonth, IsLeap;
    if a.year < b.year {
      MonthsGrow(a.year, a.month, 13);
      MonthsFillYear(a.year);
      YearsGrow(a.year, b.year);
    } else if a.month < b.month {
      MonthsGrow(a.year, a.month, b.month);
    }
  }

  /** Chronological order is the order of instants. */
  lemma EarlierIsInstantOrder(a: DateTime, b: DateTime)
    requires Valid(a) && Valid(b)
    ensures Earlier(a, b) <==> InstantOf(a) < InstantOf(b)
    ensures InstantOf(a) == InstantOf(b) <==> a == b
  {
    InstantFollows(a, b);
    InstantFollows(b, a);
    EarlierTotal(a, b);
  }

  lemma EarlierTotal(a: DateTime, b: DateTime)
    ensures Earlier(a, b) || Earlier(b, a) || a == b
  {
  }

  lemma InstantFollows(a: DateTime, b: DateTime)
    requires Valid(a) && Valid(b)
    ensures Earlier(a, b) ==> InstantOf(a) < InstantOf(b)
  {
    hide Ordinal, DaysInMonth;
    assert MicrosOfDay(a) < DAY;
    if Earlier(a, b) {
      if a.year == b.year && a.month == b.month && a.day == b.day {
        assert Ordinal(a) == Ordinal(b) by { SameDay(a, b); }
      } else {
        DateOrder(a, b);
      }
    }
  }

  lemma SameDay(a: DateTime, b: DateTime)
    requires a.year == b.year >= 1 && a.month == b.month && a.day == b.day
    ensures Ordinal(a) == Ordinal(b)
  {
  }

  // ---------------------------------------------------------------- text order

  /** Fields of equal width compare before what follows them. */
  lemma {:induction false} FieldFirst(a: string, b: string, c: string, d: string)
    requires |a| == |b|
    ensures TextLess(a + c, b + d) <==> TextLess(a, b) || (a == b && TextLess(c, d))
    decreases |a|
  {
    if a == "" {
      assert a + c == c && b + d == d;
    } else {
      FieldFirst(a[1..], b[1..], c, d);
      assert (a + c)[1..] == a[1..] + c && (b + d)[1..] == b[1..] + d;
      assert a == [a[0]] + a[1..] && b == [b[0]] + b[1..];
    }
  }

  lemma OneCharacter(a: char, b: char)
    ensures TextLess([a], [b]) <==> a < b
  {
    assert [a][1..] == "" && [b][1..] == "";
  }

  lemma {:induction false} DigitsOrder(m: nat, n: nat, width: nat)
    requires m < Power(width) && n < Power(width)
    ensures TextLess(Digits(m, width), Digits(n, width)) <==> m < n
    ensures Digits(m, width) == Digits(n, width) <==> m == n
  {
    if width > 0 {
      DigitsOrder(m / 10, n / 10, width - 1);
      var (a, b) := (Digits(m / 10, width - 1), Digits(n / 10, width - 1));
      FieldFirst(a, b, [DigitOf(m % 10)], [DigitOf(n % 10)]);
      OneCharacter(DigitOf(m % 10), DigitOf(n % 10));
      assert (a + [DigitOf(m % 10)])[..width - 1] == a && (b + [DigitOf(n % 10)])[..width - 1] == b;
      assert (a + [DigitOf(m % 10)])[width - 1] == DigitOf(m % 10) && (b + [DigitOf(n % 10)])[width - 1] == DigitOf(n % 10);
    }
  }

  /** A missing fraction sorts before any fraction, because '+' sorts before '.'. */
  lemma FractionOrder(m: nat, n: nat)
    requires m < 1_000_000 && n < 1_000_000
    ensures TextLess(Fraction(m), Fraction(n)) <==> m < n
  {
    hide Digits, Power;
    Powers();
    assert Fraction(0) == "+00:00";
    if m != 0 && n != 0 {
      DigitsOrder(m, n, 6);
      FieldFirst("." + Digits(m, 6), "." + Digits(n, 6), "+00:00", "+00:00");
      FieldFirst(".", ".", Digits(m, 6), Digits(n, 6));
      NotLessThanItself("+00:00");
      NotLessThanItself(".");
    } else if m == 0 && n == 0 {
      NotLessThanItself("+00:00");
    } else {
      assert Fraction(m)[0] == if m == 0 then '+' else '.';
      assert Fraction(n)[0] == if n == 0 then '+' else '.';
    }
  }

  lemma NotLessThanItself(s: string)
    ensures !TextLess(s, s)
  {
    TextTrichotomy(s, s);
  }

  /** A two-digit field, a separator and the rest. */
  lemma FieldOrder(m: nat, n: nat, width: nat, separator: string, c: string, d: string)
    requires m < Power(width) && n < Power(width)
    ensures TextLess(Digits(m, width) + (separator + c), Digits(n, width) + (separator + d))
            <==> m < n || (m == n && TextLess(c, d))
  {
    hide Digits, TextLess;
    DigitsOrder(m, n, width);
    FieldFirst(Digits(m, width), Digits(n, width), separator + c, separator + d);
    FieldFirst(separator, separator, c, d);
    NotLessThanItself(separator);
  }

  function Seconds(t: DateTime): string
    requires Valid(t)
  {
    Powers();
    Digits(t.second, 2) + Fraction(t.micro)
  }

  function Clock(t: DateTime): string
    requires Valid(t)
  {
    Powers();
    Digits(t.hour, 2) + (":" + (Digits(t.minute, 2) + (":" + Seconds(t))))
  }

  lemma ClockOrder(a: DateTime, b: DateTime)
    requires Valid(a) && Valid(b)
    ensures TextLess(Clock(a), Clock(b))
            <==> if a.hour != b.hour then a.hour < b.hour
                 else if a.minute != b.minute then a.minute < b.minute
                 else if a.second != b.second then a.second < b.second
                 else a.micro < b.micro
  {
    hide Digits, TextLess, Fraction, Power, DaysInMonth;
    Powers();
    FieldOrder(a.hour, b.hour, 2, ":", Digits(a.minute, 2) + (":" + Seconds(a)), Digits(b.minute, 2) + (":" + Seconds(b)));
    FieldOrder(a.minute, b.minute, 2, ":", Seconds(a), Seconds(b));
    DigitsOrder(a.second, b.second, 2);
    FieldFirst(Digits(a.second, 2), Digits(b.second, 2), Fraction(a.micro), Fraction(b.micro));
    FractionOrder(a.micro, b.micro);
  }

  /** Text order is chronological order. */
  lemma TextIsChronological(a: DateTime, b: DateTime)
    requires Valid(a) && Valid(b)
    ensures TextLess(Text(a), Text(b)) <==> Earlier(a, b)
  {
    hide Digits, TextLess, Fraction, Power, DaysInMonth, Clock;
    Powers();
    TextIsDateAndClock(a);
    TextIsDateAndClock(b);
    FieldOrder(a.year, b.year, 4, "-", Digits(a.month, 2) + ("-" + (Digits(a.day, 2) + ("T" + Clock(a)))),
               Digits(b.month, 2) + ("-" + (Digits(b.day, 2) + ("T" + Clock(b)))));
    FieldOrder(a.month, b.month, 2, "-", Digits(a.day, 2) + ("T" + Clock(a)), Digits(b.day, 2) + ("T" + Clock(b)));
    FieldOrder(a.day, b.day, 2, "T", Clock(a), Clock(b));
    ClockOrder(a, b);
  }

  lemma TextIsDateAndClock(t: DateTime)
    requires Valid(t)
    ensures Power(4) == 10_000 && Power(2) == 100 && t.day <= 31
    ensures Text(t) == Digits(t.year, 4) + ("-" + (Digits(t.month, 2) + ("-" + (Digits(t.day, 2) + ("T" + Clock(t))))))
  {
    hide Digits, Fraction;
    Powers();
  }

  /** SQL's comparisons of stored UTC timestamps are comparisons of instants: strictly, and
      with equality only for the same instant. */
  lemma TextOrderIsTimeOrder(a: DateTime, b: DateTime)
    requires Valid(a) && Valid(b)
    ensures TextLess(Text(a), Text(b)) <==> InstantOf(a) < InstantOf(b)
    ensures Text(a) == Text(b) <==> InstantOf(a) == InstantOf(b)
  {
    hide Text, TextLess, InstantOf, Earlier;
    TextIsChronological(a, b);
    TextIsChronological(b, a);
    EarlierIsInstantOrder(a, b);
    EarlierIsInstantOrder(b, a);
    TextTrichotomy(Text(a), Text(b));
  }
}
