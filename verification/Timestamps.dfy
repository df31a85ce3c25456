/**
  The timestamps the Redis claim script compares as strings.  An instant is a
  count of nanoseconds; it is rendered as an RFC 3339 UTC timestamp
  `YYYY-MM-DDTHH:MM:SS[.fraction]Z` and compared byte by byte, as Lua compares
  strings.  `now` is always rendered with six fraction digits; the times inside
  a stored job carry as many of 0, 3, 6 or 9 digits as they need.
 */
module Timestamps {
  import opened Strings

  // ---------------------------------------------------------------- numbers

  function DigitChar(d: nat): (c: char)
    requires d < 10
    ensures '0' <= c <= '9'
  {
    "0123456789"[d]
  }

  /** The last `w` decimal digits of `n`, padded with zeros. */
  function Digits(n: nat, w: nat): (s: string)
    ensures |s| == w
  {
    if w == 0 then [] else Digits(n / 10, w - 1) + [DigitChar(n % 10)]
  }

  /** `n` without its last `k` digits: its quotient by ten to the `k`. */
  function Shift(n: nat, k: nat): nat
  {
    if k == 0 then n else Shift(n / 10, k - 1)
  }

  /** The last `k` digits of `n` are zeros. */
  predicate ZeroTail(n: nat, k: nat)
  {
    k == 0 || (n % 10 == 0 && ZeroTail(n / 10, k - 1))
  }

  lemma {:induction false} ShiftMonotone(n: nat, m: nat, k: nat)
    requires n <= m
    ensures Shift(n, k) <= Shift(m, k)
  {
    if k > 0 { ShiftMonotone(n / 10, m / 10, k - 1); }
  }

  lemma {:induction false} ShiftTwice(n: nat, j: nat, k: nat)
    ensures Shift(Shift(n, j), k) == Shift(n, j + k)
  {
    if j > 0 { ShiftTwice(n / 10, j - 1, k); }
  }

  lemma ShiftThree(n: nat)
    ensures Shift(n, 3) == n / 1000
  {
    assert Shift(n, 3) == Shift(n / 10, 2) == Shift(n / 10 / 10, 1) == Shift(n / 10 / 10 / 10, 0);
  }

  lemma ShiftNine(n: nat)
    ensures Shift(n, 9) == n / 1000000000
  {
    ShiftThree(n);
    ShiftThree(n / 1000);
    ShiftThree(n / 1000 / 1000);
    ShiftTwice(n, 3, 3);
    ShiftTwice(n, 6, 3);
  }

  /** A number ending in zeros is the least with its leading digits. */
  lemma {:induction false} LeastWithPrefix(n: nat, m: nat, k: nat)
    requires ZeroTail(n, k) && Shift(n, k) <= Shift(m, k)
    ensures n <= m
  {
    if k > 0 { LeastWithPrefix(n / 10, m / 10, k - 1); }
  }

  lemma LastDigit(n: nat, m: nat)
    ensures n < m <==> n / 10 < m / 10 || (n / 10 == m / 10 && DigitChar(n % 10) < DigitChar(m % 10))
    ensures n == m <==> n / 10 == m / 10 && DigitChar(n % 10) == DigitChar(m % 10)
  {
  }

  /** Numbers alike in the digits not shown compare as their shown digits; what follows decides a tie. */
  lemma {:induction false} DigitsOrder(n: nat, m: nat, w: nat, a: string, b: string)
    requires Shift(n, w) == Shift(m, w)
    ensures Less(Digits(n, w) + a, Digits(m, w) + b) <==> n < m || (n == m && Less(a, b))
  {
    if w == 0 {
      assert Digits(n, w) + a == a && Digits(m, w) + b == b;
    } else {
      var c, d := DigitChar(n % 10), DigitChar(m % 10);
      assert Digits(n, w) + a == Digits(n / 10, w - 1) + ([c] + a);
      assert Digits(m, w) + b == Digits(m / 10, w - 1) + ([d] + b);
      DigitsOrder(n / 10, m / 10, w - 1, [c] + a, [d] + b);
      LessCons(c, a, d, b);
      LastDigit(n, m);
    }
  }

  /** Dropping the last `k` digits shown. */
  lemma {:induction false} DigitsPrefix(n: nat, w: nat, k: nat)
    ensures Digits(n, w + k)[..w] == Digits(Shift(n, k), w)
  {
    if k > 0 { DigitsPrefix(n / 10, w, k - 1); }
  }

  lemma {:induction false} DigitsAreDigits(n: nat, w: nat, i: nat)
    requires i < w
    ensures '0' <= Digits(n, w)[i] <= '9'
  {
    if i < w - 1 { DigitsAreDigits(n / 10, w - 1, i); }
  }

  // --------------------------------------------------------------- calendar

  /** A UTC wall-clock reading without leap seconds. */
  datatype Civil = Civil(year: nat, month: nat, day: nat, hour: nat, minute: nat, second: nat)

  predicate Leap(y: nat) { y % 4 == 0 && (y % 100 != 0 || y % 400 == 0) }

  function YearLength(y: nat): nat { if Leap(y) then 366 else 365 }

  function MonthLength(y: nat, m: nat): nat
  {
    if m == 2 then (if Leap(y) then 29 else 28)
    else if m == 4 || m == 6 || m == 9 || m == 11 then 30
    else 31
  }

  predicate Valid(c: Civil)
  {
    c.year < 10000 && 1 <= c.month <= 12 && 1 <= c.day <= MonthLength(c.year, c.month)
    && c.hour < 24 && c.minute < 60 && c.second < 60
  }

  /** Days from the first of January of year 0 to that of year `y`. */
  function YearStart(y: nat): nat
  {
    if y == 0 then 0 else YearStart(y - 1) + YearLength(y - 1)
  }

  /** Days of year `y` before its month `m`. */
  function MonthStart(y: nat, m: nat): nat
    requires 1 <= m
  {
    if m == 1 then 0 else MonthStart(y, m - 1) + MonthLength(y, m - 1)
  }

  function DayNumber(c: Civil): nat
    requires Valid(c)
  {
    YearStart(c.year) + MonthStart(c.year, c.month) + (c.day - 1)
  }

  function SecondNumber(c: Civil): nat
    requires Valid(c)
  {
    ((DayNumber(c) * 24 + c.hour) * 60 + c.minute) * 60 + c.second
  }

  lemma {:induction false} YearsGrow(y: nat, z: nat)
    requires y < z
    ensures YearStart(y) + YearLength(y) <= YearStart(z)
  {
    if y + 1 < z { YearsGrow(y, z - 1); }
  }

  lemma {:induction false} MonthsGrow(y: nat, m: nat, n: nat)
    requires 1 <= m < n
    ensures MonthStart(y, m) + MonthLength(y, m) <= MonthStart(y, n)
  {
    if m + 1 < n { MonthsGrow(y, m, n - 1); }
  }

  lemma TwelveMonths(y: nat)
    ensures MonthStart(y, 13) == YearLength(y)
  {
    assert MonthStart(y, 2) == 31;
    assert MonthStart(y, 3) == 31 + MonthLength(y, 2);
    assert MonthStart(y, 4) == MonthStart(y, 3) + 31;
    assert MonthStart(y, 5) == MonthStart(y, 4) + 30;
    assert MonthStart(y, 6) == MonthStart(y, 5) + 31;
    assert MonthStart(y, 7) == MonthStart(y, 6) + 30;
    assert MonthStart(y, 8) == MonthStart(y, 7) + 31;
    assert MonthStart(y, 9) == MonthStart(y, 8) + 31;
    assert MonthStart(y, 10) == MonthStart(y, 9) + 30;
    assert MonthStart(y, 11) == MonthStart(y, 10) + 31;
    assert MonthStart(y, 12) == MonthStart(y, 11) + 30;
  }

  lemma DayInYear(c: Civil)
    requires Valid(c)
    ensures YearStart(c.year) <= DayNumber(c) < YearStart(c.year) + YearLength(c.year)
  {
    MonthsGrow(c.year, c.month, 13);
    TwelveMonths(c.year);
  }

  /** Field-by-field order of two dates. */
  predicate DateBefore(c: Civil, d: Civil)
  {
    c.year < d.year
    || (c.year == d.year && (c.month < d.month || (c.month == d.month && c.day < d.day)))
  }

  /** An earlier date has a smaller day number. */
  lemma DateOrder(c: Civil, d: Civil)
    requires Valid(c) && Valid(d) && DateBefore(c, d)
    ensures DayNumber(c) < DayNumber(d)
  {
    if c.year < d.year {
      DayInYear(c);
      DayInYear(d);
      YearsGrow(c.year, d.year);
    } else if c.month < d.month {
      MonthsGrow(c.year, c.month, d.month);
    }
  }

  predicate SameDate(c: Civil, d: Civil) { c.year == d.year && c.month == d.month && c.day == d.day }

  predicate SameClock(c: Civil, d: Civil) { c.hour == d.hour && c.minute == d.minute && c.second == d.second }

  predicate ClockBefore(c: Civil, d: Civil)
  {
    c.hour < d.hour
    || (c.hour == d.hour && (c.minute < d.minute || (c.minute == d.minute && c.second < d.second)))
  }

  /** Field-by-field order of two readings. */
  predicate Before(c: Civil, d: Civil)
  {
    DateBefore(c, d) || (SameDate(c, d) && ClockBefore(c, d))
  }

  lemma BeforeIsEarlier(c: Civil, d: Civil)
    requires Valid(c) && Valid(d) && Before(c, d)
    ensures SecondNumber(c) < SecondNumber(d)
  {
    if DateBefore(c, d) { DateOrder(c, d); }
  }

  /** Reading order is time order. */
  lemma CivilOrder(c: Civil, d: Civil)
    requires Valid(c) && Valid(d)
    ensures Before(c, d) <==> SecondNumber(c) < SecondNumber(d)
    ensures c == d <==> SecondNumber(c) == SecondNumber(d)
  {
    if Before(c, d) {
      BeforeIsEarlier(c, d);
    } else if Before(d, c) {
      BeforeIsEarlier(d, c);
    } else {
      assert c == d;
    }
  }

  // ---------------------------------------------------- reading an instant

  /** The year, counted from `y`, that holds the day `n`. */
  function YearOf(n: nat, y: nat): (r: nat)
    requires YearStart(y) <= n
    ensures YearStart(r) <= n < YearStart(r) + YearLength(r)
    decreases n - YearStart(y)
  {
    if n < YearStart(y) + YearLength(y) then y else YearOf(n, y + 1)
  }

  /** The month of year `y`, counted from `m`, that holds its day `n`. */
  function MonthOf(y: nat, n: nat, m: nat): (r: nat)
    requires 1 <= m <= 12 && MonthStart(y, m) <= n < MonthStart(y, 13)
    ensures 1 <= r <= 12 && MonthStart(y, r) <= n < MonthStart(y, r) + MonthLength(y, r)
    decreases 13 - m
  {
    if n < MonthStart(y, m) + MonthLength(y, m) then m else MonthOf(y, n, m + 1)
  }

  /** The whole units of ten to the minus `p` seconds in an instant of nanoseconds. */
  function Ticks(t: nat, p: nat): nat
    requires p <= 9
  {
    Shift(t, 9 - p)
  }

  /** From the start of year 0 to the end of year 9999: what four year digits can show. */
  predicate Instant(t: nat)
  {
    t < 3652425 * 86400 * 1000000000
  }

  /** Days before year `y` in closed form. */
  lemma {:induction false} YearStartClosed(y: nat)
    ensures YearStart(y) == 365 * y + (y + 3) / 4 - (y + 99) / 100 + (y + 399) / 400
  {
    if y > 0 {
      YearStartClosed(y - 1);
      RoundedUp(y - 1);
    }
  }

  /** Rounded-up quotients grow by one just after a multiple. */
  lemma RoundedUp(y: nat)
    ensures (y + 4) / 4 == (y + 3) / 4 + if y % 4 == 0 then 1 else 0
    ensures (y + 100) / 100 == (y + 99) / 100 + if y % 100 == 0 then 1 else 0
    ensures (y + 400) / 400 == (y + 399) / 400 + if y % 400 == 0 then 1 else 0
    ensures y % 400 == 0 ==> y % 100 == 0
    ensures y % 100 == 0 ==> y % 4 == 0
  {
    if y % 400 == 0 { CenturyOf(y / 400, y); }
    if y % 100 == 0 { FourthOf(y / 100, y); }
  }

  lemma CenturyOf(c: nat, y: nat)
    requires y == 400 * c
    ensures y % 100 == 0
  {
    assert y == 100 * (4 * c);
  }

  lemma FourthOf(c: nat, y: nat)
    requires y == 100 * c
    ensures y % 4 == 0
  {
    assert y == 4 * (25 * c);
  }

  lemma YearTenThousand(n: nat, y: nat)
    requires YearStart(y) <= n < 3652425
    ensures y < 10000
  {
    YearStartClosed(10000);
    YearsMonotone(10000, y);
  }

  /** The clock fields of a count of seconds. */
  lemma ClockSplit(s: nat)
    ensures s == ((s / 86400 * 24 + s / 3600 % 24) * 60 + s / 60 % 60) * 60 + s % 60
  {
    var m := s / 60;
    var h := m / 60;
    assert s == m * 60 + s % 60;
    assert m == h * 60 + m % 60;
    assert h == h / 24 * 24 + h % 24;
    assert h == s / 3600;
    assert h / 24 == s / 86400;
  }

  lemma {:induction false} YearsMonotone(y: nat, z: nat)
    ensures y <= z ==> YearStart(y) <= YearStart(z)
  {
    if y < z { YearsGrow(y, z); }
  }

  /** The wall-clock reading of an instant. */
  function Reading(t: nat): (c: Civil)
    requires Instant(t)
    ensures Valid(c) && SecondNumber(c) == Ticks(t, 0)
  {
    var s := Ticks(t, 0);
    var days := s / 86400;
    var y := YearOf(days, 0);
    var n := days - YearStart(y);
    TwelveMonths(y);
    ShiftNine(t);
    YearTenThousand(days, y);
    ClockSplit(s);
    var m := MonthOf(y, n, 1);
    Civil(y, m, n - MonthStart(y, m) + 1, s / 3600 % 24, s / 60 % 60, s % 60)
  }

  /** Nanoseconds in the 400 years after which the calendar repeats. */
  const ERA: nat := 146097 * 86400 * 1000000000

  // -------------------------------------------------------------- rendering

  /** The fraction of a second, cut (not rounded) to `w` digits, and the suffix. */
  function Tail(t: nat, w: nat): string
    requires w <= 9
  {
    if w == 0 then ['Z'] else ['.'] + (Digits(Ticks(t, w), w) + ['Z'])
  }

  function ClockFields(c: Civil, rest: string): string
  {
    Digits(c.hour, 2) + ([':'] + (Digits(c.minute, 2) + ([':'] + (Digits(c.second, 2) + rest))))
  }

  /** Everything after the year. */
  function AfterYear(c: Civil, rest: string): string
  {
    ['-'] + (Digits(c.month, 2) + (['-'] + (Digits(c.day, 2) + (['T'] + ClockFields(c, rest)))))
  }

  /** The wall-clock fields, before whatever follows the seconds. */
  function Fields(c: Civil, rest: string): string
  {
    Digits(c.year, 4) + AfterYear(c, rest)
  }

  /** An instant as an RFC 3339 timestamp with `w` fraction digits. */
  function Text(t: nat, w: nat): string
    requires Instant(t) && w <= 9
  {
    Fields(Reading(t), Tail(t, w))
  }

  function DigitCount(n: nat): nat
  {
    if n < 10 then 1 else 1 + DigitCount(n / 10)
  }

  /** A time whose year four digits cannot show: a sign, and at least four digits of year. */
  function FarText(t: int, w: nat): string
    requires w <= 9
  {
    var c := Reading(t % ERA);
    var year := c.year + 400 * (t / ERA);
    var size: nat := if year < 0 then -year else year;
    (if year < 0 then ['-'] else ['+'])
    + Digits(size, if size < 1000 then 4 else DigitCount(size))
    + AfterYear(c, Tail(t % ERA, w))
  }

  lemma TwoDigits(n: nat)
    requires n < 100
    ensures Shift(n, 2) == 0
  {
    assert Shift(n, 2) == Shift(n / 10, 1) == Shift(n / 10 / 10, 0);
  }

  lemma FourDigits(n: nat)
    requires n < 10000
    ensures Shift(n, 4) == 0
  {
    TwoDigits(n / 10 / 10);
    ShiftTwice(n, 2, 2);
    assert Shift(n, 2) == Shift(n / 10, 1) == Shift(n / 10 / 10, 0);
  }

  /** A two-digit field and its separator. */
  lemma FieldOrder(n: nat, m: nat, sep: char, a: string, b: string)
    requires n < 100 && m < 100
    ensures Less(Digits(n, 2) + ([sep] + a), Digits(m, 2) + ([sep] + b)) <==> n < m || (n == m && Less(a, b))
  {
    TwoDigits(n);
    TwoDigits(m);
    DigitsOrder(n, m, 2, [sep] + a, [sep] + b);
    LessCons(sep, a, sep, b);
  }

  lemma ClockOrder(c: Civil, d: Civil, a: string, b: string)
    requires Valid(c) && Valid(d)
    ensures Less(ClockFields(c, a), ClockFields(d, b))
            <==> ClockBefore(c, d) || (SameClock(c, d) && Less(a, b))
  {
    TwoDigits(c.second);
    TwoDigits(d.second);
    var a1, b1 := Digits(c.second, 2) + a, Digits(d.second, 2) + b;
    DigitsOrder(c.second, d.second, 2, a, b);
    FieldOrder(c.minute, d.minute, ':', a1, b1);
    FieldOrder(c.hour, d.hour, ':', Digits(c.minute, 2) + ([':'] + a1), Digits(d.minute, 2) + ([':'] + b1));
  }

  /** Rendered readings compare as the readings do; what follows decides a tie. */
  lemma FieldsOrder(c: Civil, d: Civil, a: string, b: string)
    requires Valid(c) && Valid(d)
    ensures Less(Fields(c, a), Fields(d, b)) <==> Before(c, d) || (c == d && Less(a, b))
  {
    var a1, b1 := ClockFields(c, a), ClockFields(d, b);
    ClockOrder(c, d, a, b);
    FieldOrder(c.day, d.day, 'T', a1, b1);
    var a2, b2 := Digits(c.day, 2) + (['T'] + a1), Digits(d.day, 2) + (['T'] + b1);
    FieldOrder(c.month, d.month, '-', a2, b2);
    var a3, b3 := Digits(c.month, 2) + (['-'] + a2), Digits(d.month, 2) + (['-'] + b2);
    FourDigits(c.year);
    FourDigits(d.year);
    DigitsOrder(c.year, d.year, 4, ['-'] + a3, ['-'] + b3);
    LessCons('-', a3, '-', b3);
  }

  /** Within one second, equal fraction widths: the tails compare as the cut instants. */
  lemma SameWidthTails(t: nat, u: nat, w: nat)
    requires w <= 9 && Ticks(t, 0) == Ticks(u, 0)
    ensures Less(Tail(t, w), Tail(u, w)) <==> Ticks(t, w) < Ticks(u, w)
  {
    LessIrreflexive(['Z']);
    if w > 0 {
      ShiftTwice(t, 9 - w, w);
      ShiftTwice(u, 9 - w, w);
      DigitsOrder(Ticks(t, w), Ticks(u, w), w, ['Z'], ['Z']);
      LessCons('.', Digits(Ticks(t, w), w) + ['Z'], '.', Digits(Ticks(u, w), w) + ['Z']);
    }
  }

  lemma SplitAt(s: string, w: nat, last: string)
    requires w < |s|
    ensures s + last == s[..w] + ([s[w]] + (s[w + 1..] + last))
  {
    assert s == s[..w] + ([s[w]] + s[w + 1..]);
  }

  /** The first `w` digits of a longer fraction. */
  lemma FractionPrefix(u: nat, w: nat, v: nat)
    requires 0 < w < v <= 9
    ensures Digits(Ticks(u, v), v)[..w] == Digits(Ticks(u, w), w)
  {
    DigitsPrefix(Ticks(u, v), w, v - w);
    ShiftTwice(u, 9 - v, v - w);
  }

  /** The first `w` fraction digits of a longer fraction, and the digit that follows them. */
  lemma LongTail(u: nat, w: nat, v: nat) returns (c: char, rest: string)
    requires 0 < w < v <= 9
    ensures '0' <= c <= '9' && Tail(u, v) == ['.'] + (Digits(Ticks(u, w), w) + ([c] + rest))
  {
    var s := Digits(Ticks(u, v), v);
    FractionPrefix(u, w, v);
    DigitsAreDigits(Ticks(u, v), v, w);
    SplitAt(s, w, ['Z']);
    c, rest := s[w], s[w + 1..] + ['Z'];
  }

  /**
   Within one second, a shorter fraction: cut to its width they compare in time, and a tie makes the shorter the
   greater.
   */
  lemma ShorterTail(t: nat, w: nat, u: nat, v: nat)
    requires w < v <= 9 && Ticks(t, 0) == Ticks(u, 0)
    ensures Less(Tail(t, w), Tail(u, v)) <==> Ticks(t, w) < Ticks(u, w)
    ensures Less(Tail(u, v), Tail(t, w)) <==> Ticks(u, w) <= Ticks(t, w)
  {
    if w == 0 {
      var d := Digits(Ticks(u, v), v) + ['Z'];
      assert Tail(t, w) == ['Z'] + [];
      LessCons('Z', [], '.', d);
      LessCons('.', d, 'Z', []);
    } else {
      ShiftTwice(t, 9 - w, w);
      ShiftTwice(u, 9 - w, w);
      var c, rest := LongTail(u, w, v);
      var a, b := Digits(Ticks(t, w), w), Digits(Ticks(u, w), w);
      LessCons('.', a + ['Z'], '.', b + ([c] + rest));
      LessCons('.', b + ([c] + rest), '.', a + ['Z']);
      DigitsOrder(Ticks(t, w), Ticks(u, w), w, ['Z'], [c] + rest);
      DigitsOrder(Ticks(u, w), Ticks(t, w), w, [c] + rest, ['Z']);
      assert ['Z'] == ['Z'] + [];
      LessCons('Z', [], c, rest);
      LessCons(c, rest, 'Z', []);
    }
  }

  function Least(a: nat, b: nat): nat { if a <= b then a else b }

  /** The instants in the digits both renderings show. */
  predicate EarlierShown(t: nat, w: nat, u: nat, v: nat)
    requires w <= 9 && v <= 9
  {
    Ticks(t, Least(w, v)) < Ticks(u, Least(w, v))
  }

  predicate SameShown(t: nat, w: nat, u: nat, v: nat)
    requires w <= 9 && v <= 9
  {
    Ticks(t, Least(w, v)) == Ticks(u, Least(w, v))
  }

  lemma TailOrder(t: nat, w: nat, u: nat, v: nat)
    requires w <= 9 && v <= 9 && Ticks(t, 0) == Ticks(u, 0)
    ensures Less(Tail(t, w), Tail(u, v)) <==> EarlierShown(t, w, u, v) || (SameShown(t, w, u, v) && w > v)
  {
    if w == v {
      SameWidthTails(t, u, w);
    } else if w < v {
      ShorterTail(t, w, u, v);
    } else {
      ShorterTail(u, v, t, w);
    }
  }

  /** Cutting to fewer digits keeps the order, weakly. */
  lemma Coarser(t: nat, u: nat, p: nat)
    requires p <= 9 && Ticks(t, p) <= Ticks(u, p)
    ensures Ticks(t, 0) <= Ticks(u, 0)
  {
    ShiftTwice(t, 9 - p, p);
    ShiftTwice(u, 9 - p, p);
    ShiftMonotone(Ticks(t, p), Ticks(u, p), p);
  }

  /**
    What the string comparison decides, for every pair of instants and every
    pair of widths: time order in the digits both show, and at a tie the longer
    string is the smaller.
   */
  lemma TextOrder(t: nat, w: nat, u: nat, v: nat)
    requires Instant(t) && Instant(u) && w <= 9 && v <= 9
    ensures Less(Text(t, w), Text(u, v)) <==> EarlierShown(t, w, u, v) || (SameShown(t, w, u, v) && w > v)
  {
    var p := Least(w, v);
    FieldsOrder(Reading(t), Reading(u), Tail(t, w), Tail(u, v));
    CivilOrder(Reading(t), Reading(u));
    if Ticks(t, 0) == Ticks(u, 0) {
      TailOrder(t, w, u, v);
    } else if Ticks(t, p) <= Ticks(u, p) {
      Coarser(t, u, p);
      if Ticks(u, p) <= Ticks(t, p) { Coarser(u, t, p); }
    } else {
      Coarser(u, t, p);
    }
  }

  // ----------------------------------------------- what the script relies on

  /** `w` fraction digits show the instant exactly. */
  predicate Exact(t: nat, w: nat)
    requires w <= 9
  {
    ZeroTail(t, 9 - w)
  }

  /** Of instants shown exactly, the shown order is the time order. */
  lemma ExactOrder(t: nat, u: nat, w: nat)
    requires w <= 9 && Exact(t, w)
    ensures Ticks(t, w) <= Ticks(u, w) <==> t <= u
  {
    if Ticks(t, w) <= Ticks(u, w) {
      LeastWithPrefix(t, u, 9 - w);
    } else if t <= u {
      ShiftMonotone(t, u, 9 - w);
    }
  }

  /** With one width for both, that shows both exactly, string order is time order. */
  lemma SameWidthIsChronological(t: nat, u: nat, w: nat)
    requires Instant(t) && Instant(u) && w <= 9 && Exact(t, w) && Exact(u, w)
    ensures Less(Text(t, w), Text(u, w)) <==> t < u
    ensures Text(t, w) == Text(u, w) <==> t == u
  {
    TextOrder(t, w, u, w);
    TextOrder(u, w, t, w);
    LessIrreflexive(Text(t, w));
    ExactOrder(t, u, w);
    ExactOrder(u, t, w);
  }

  /** The width a stored time is written with: the fewest of 0, 3, 6 or 9 digits that show it exactly. */
  function StoredWidth(t: nat): (w: nat)
    ensures w <= 9 && Exact(t, w)
    ensures w > 0 ==> !Exact(t, 0)
    ensures w > 3 ==> !Exact(t, 3)
    ensures w > 6 ==> !Exact(t, 6)
    ensures w == 0 || w == 3 || w == 6 || w == 9
  {
    if Exact(t, 0) then 0 else if Exact(t, 3) then 3 else if Exact(t, 6) then 6 else 9
  }

  /** Four digits can show its year. */
  predicate Shown(t: int)
  {
    t >= 0 && Instant(t)
  }

  /** A stored time as it is written, and `now` as the script receives it. */
  function StoredText(t: int): string
  {
    if Shown(t) then Text(t, StoredWidth(t)) else FarText(t, StoredWidth(t % ERA))
  }

  function NowText(now: int): string
  {
    if Shown(now) then Text(now, 6) else FarText(now, 6)
  }

  /** The script's `<=` between a stored time and `now`. */
  predicate DueByText(due: int, now: int)
  {
    !Less(NowText(now), StoredText(due))
  }

  lemma CutIsExact(now: nat)
    ensures ZeroTail(now - now % 1000, 3) && Shift(now - now % 1000, 3) == Shift(now, 3)
  {
    var c, q := now - now % 1000, now / 1000;
    ShiftThree(now);
    ShiftThree(c);
    assert c == 1000 * q;
    assert c / 10 == 100 * q && 100 * q / 10 == 10 * q;
    assert ZeroTail(10 * q, 1);
    assert ZeroTail(100 * q, 2);
  }

  /** What the chronological test says in the digits both renderings show. */
  lemma DueShown(due: nat, now: nat)
    ensures var w := StoredWidth(due);
            && (EarlierShown(due, w, now, 6) ==> due < now)
            && (SameShown(due, w, now, 6) && w <= 6 ==> due <= now)
            && (!EarlierShown(due, w, now, 6) && !SameShown(due, w, now, 6) ==> now < due)
  {
    var p := Least(StoredWidth(due), 6);
    if Ticks(due, p) < Ticks(now, p) {
      if now <= due { ShiftMonotone(now, due, 9 - p); }
    } else if Ticks(now, p) < Ticks(due, p) {
      if due <= now { ShiftMonotone(due, now, 9 - p); }
    } else if StoredWidth(due) <= 6 {
      ExactOrder(due, now, p);
    }
  }

  /** Six fraction digits, a difference from `now` in the digits both show, or nine and not after `now`. */
  predicate IsClear(due: int, now: int)
    requires Shown(due) && Shown(now)
  {
    var w := StoredWidth(due);
    w == 6 || !SameShown(due, w, now, 6) || (w == 9 && due <= now)
  }

  /** The script's test of a stored time is the chronological one exactly when that time is clear of `now`. */
  lemma DueByTextIff(due: int, now: int)
    requires Shown(due) && Shown(now)
    ensures (DueByText(due, now) <==> due <= now) <==> IsClear(due, now)
  {
    TextOrder(now, 6, due, StoredWidth(due));
    DueShown(due, now);
  }

  /** However the widths fall, the test is never early by a microsecond nor late by a second. */
  lemma DueByTextNearly(due: int, now: int)
    requires Shown(due) && Shown(now)
    ensures DueByText(due, now) ==> due < now + 1000
    ensures due + 1000000000 <= now ==> DueByText(due, now)
  {
    TextOrder(now, 6, due, StoredWidth(due));
    if DueByText(due, now) { NeverEarly(due, now); }
    if due + 1000000000 <= now {
      var p := Least(6, StoredWidth(due));
      SecondsApart(due, now);
      if Ticks(now, p) <= Ticks(due, p) { Coarser(now, due, p); }
    }
  }

  lemma NeverEarly(due: nat, now: nat)
    requires !EarlierShown(now, 6, due, StoredWidth(due))
    ensures due < now + 1000
  {
    if StoredWidth(due) <= 6 {
      ExactOrder(due, now, StoredWidth(due));
    } else {
      CutIsExact(due);
      ExactOrder(due - due % 1000, now, 6);
    }
  }

  /** Nanoseconds a second apart differ in their whole seconds. */
  lemma SecondsApart(t: nat, u: nat)
    requires t + 1000000000 <= u
    ensures Ticks(t, 0) < Ticks(u, 0)
  {
    ShiftNine(t);
    ShiftNine(u);
  }

  /** The order the script sorts equal priorities by, on creation times as they are stored. */
  predicate OlderByText(t: int, u: int)
  {
    Less(StoredText(t), StoredText(u))
  }

  /** Time order in the digits both stored renderings show: at a tie the shorter is the earlier. */
  lemma OlderShown(t: nat, u: nat)
    ensures var w, v := StoredWidth(t), StoredWidth(u);
            t < u <==> EarlierShown(t, w, u, v) || (SameShown(t, w, u, v) && w < v)
  {
    var w, v := StoredWidth(t), StoredWidth(u);
    if w <= v {
      ExactOrder(t, u, w);
    }
    if v <= w {
      ExactOrder(u, t, v);
    }
  }

  /** Sorting by creation text is sorting by age exactly when the widths agree or the shown digits differ. */
  lemma OlderByTextIff(t: int, u: int)
    requires Shown(t) && Shown(u)
    ensures (OlderByText(t, u) <==> t < u)
            <==> StoredWidth(t) == StoredWidth(u) || !SameShown(t, StoredWidth(t), u, StoredWidth(u))
  {
    TextOrder(t, StoredWidth(t), u, StoredWidth(u));
    OlderShown(t, u);
  }

  /** A time on a whole second is not seen as due until that second is over. */
  lemma WholeSecondIsLate(due: int, now: int)
    requires Shown(due) && Shown(now) && Exact(due, 0) && due <= now && Ticks(due, 0) == Ticks(now, 0)
    ensures !DueByText(due, now)
  {
    TextOrder(now, 6, due, 0);
  }

  /** One such pair: 2025-01-01T00:00:00Z and a microsecond later. */
  lemma WholeSecondExample()
    ensures var due, now := 63902908800000000000, 63902908800000001000;
            Shown(due) && Shown(now) && due <= now && !DueByText(due, now)
  {
    var due, now := 63902908800000000000, 63902908800000001000;
    ShiftNine(due);
    ShiftNine(now);
    WholeSecondIsLate(due, now);
  }

  // ----------------------------------------------------------------- format

  /** Two digits, a separator and the rest. */
  lemma Separated(d: string, sep: char, rest: string, whole: string)
    requires whole == d + [sep]
    ensures d + ([sep] + rest) == whole + rest
  {
  }

  lemma Joined(a: string, b: string, rest: string, whole: string)
    requires whole == a + b
    ensures a + (b + rest) == whole + rest
  {
  }

  lemma MidnightText(c: Civil, rest: string)
    requires c.hour == 0 && c.minute == 0 && c.second == 0
    ensures ClockFields(c, rest) == "00:" + ("00:" + ("00" + rest))
  {
    assert Digits(0, 2) == "00";
    Separated("00", ':', "00" + rest, "00:");
    Separated("00", ':', "00:" + ("00" + rest), "00:");
  }

  lemma NewYearDate(c: Civil, rest: string)
    requires c.year == 2025 && c.month == 1 && c.day == 1
    ensures Fields(c, rest) == "2025-" + ("01-" + ("01T" + ClockFields(c, rest)))
  {
    var clock := ClockFields(c, rest);
    assert Digits(1, 2) == "01";
    FourDigitsOf(c.year, 2, 0, 2, 5);
    Separated("01", 'T', clock, "01T");
    Separated("01", '-', "01T" + clock, "01-");
    Separated("2025", '-', "01-" + ("01T" + clock), "2025-");
  }

  lemma FourDigitsOf(n: nat, a: nat, b: nat, c: nat, d: nat)
    requires a < 10 && b < 10 && c < 10 && d < 10 && n == 1000 * a + 100 * b + 10 * c + d
    ensures Digits(n, 4) == [DigitChar(a), DigitChar(b), DigitChar(c), DigitChar(d)]
  {
    var x, y, z := 100 * a + 10 * b + c, 10 * a + b, a;
    assert n / 10 == x && n % 10 == d && x / 10 == y && x % 10 == c && y / 10 == z && y % 10 == b;
    assert Digits(z, 1) == [DigitChar(a)];
    assert Digits(y, 2) == [DigitChar(a), DigitChar(b)];
    assert Digits(x, 3) == [DigitChar(a), DigitChar(b), DigitChar(c)];
  }

  /** The first instant of 2025, field by field. */
  lemma NewYearText(rest: string)
    ensures Fields(Civil(2025, 1, 1, 0, 0, 0), rest) == "2025-01-01T00:00:00" + rest
  {
    var c := Civil(2025, 1, 1, 0, 0, 0);
    NewYearDate(c, rest);
    MidnightText(c, rest);
    Joined("2025-", "01-", "01T" + ("00:" + ("00:" + ("00" + rest))), "2025-01-");
    Joined("2025-01-", "01T", "00:" + ("00:" + ("00" + rest)), "2025-01-01T");
    Joined("2025-01-01T", "00:", "00:" + ("00" + rest), "2025-01-01T00:");
    Joined("2025-01-01T00:", "00:", "00" + rest, "2025-01-01T00:00:");
    Joined("2025-01-01T00:00:", "00", rest, "2025-01-01T00:00:00");
  }

  lemma MicroDigits(n: nat, k: nat)
    requires n == 1000000 * k + 1
    ensures Digits(n, 6) == "000001"
  {
    assert n / 10 == 100000 * k && n % 10 == 1;
    assert Digits(n, 6) == Digits(100000 * k, 5) + "1";
    ZeroDigits(100000 * k, 10000 * k, 4);
    ZeroDigits(10000 * k, 1000 * k, 3);
    ZeroDigits(1000 * k, 100 * k, 2);
    ZeroDigits(100 * k, 10 * k, 1);
    ZeroDigits(10 * k, k, 0);
  }

  lemma ZeroDigits(n: nat, m: nat, w: nat)
    requires n == 10 * m
    ensures Digits(n, w + 1) == Digits(m, w) + "0"
  {
  }

  /** A whole second that reads as the first instant of 2025, as it is stored, and a microsecond later as a reading. */
  lemma SecondStored(t: nat, seconds: nat)
    requires t == seconds * 1000000000 && Shown(t) && Reading(t) == Civil(2025, 1, 1, 0, 0, 0)
    ensures StoredText(t) == "2025-01-01T00:00:00" + "Z"
  {
    WholeIsExact(t, seconds);
    NewYearText(['Z']);
  }

  lemma SecondNow(t: nat, seconds: nat)
    requires t == seconds * 1000000000 && Shown(t) && Shown(t + 1000) && Reading(t) == Civil(2025, 1, 1, 0, 0, 0)
    ensures NowText(t + 1000) == "2025-01-01T00:00:00" + ".000001Z"
  {
    assert ['.'] + ("000001" + ['Z']) == ".000001Z";
    SameReading(t, seconds);
    MicroOf(t + 1000, seconds);
    NewYearText(['.'] + ("000001" + ['Z']));
  }

  lemma SecondsOf(n: nat, seconds: nat, rest: nat)
    requires n == seconds * 1000000000 + rest && rest < 1000000000
    ensures Ticks(n, 0) == seconds
  {
    ShiftNine(n);
  }

  lemma SameReading(t: nat, seconds: nat)
    requires t == seconds * 1000000000 && Shown(t) && Shown(t + 1000)
    ensures Reading(t + 1000) == Reading(t)
  {
    var c, d := Reading(t), Reading(t + 1000);
    SecondsOf(t, seconds, 0);
    SecondsOf(t + 1000, seconds, 1000);
    CivilOrder(c, d);
  }

  lemma WholeIsExact(t: nat, seconds: nat)
    requires t == seconds * 1000000000
    ensures StoredWidth(t) == 0
  {
    TenTail(t, seconds * 100000000, 8);
    TenTail(seconds * 100000000, seconds * 10000000, 7);
    TenTail(seconds * 10000000, seconds * 1000000, 6);
    TenTail(seconds * 1000000, seconds * 100000, 5);
    TenTail(seconds * 100000, seconds * 10000, 4);
    TenTail(seconds * 10000, seconds * 1000, 3);
    TenTail(seconds * 1000, seconds * 100, 2);
    TenTail(seconds * 100, seconds * 10, 1);
    TenTail(seconds * 10, seconds, 0);
  }

  lemma TenTail(n: nat, m: nat, k: nat)
    requires n == 10 * m
    ensures ZeroTail(n, k + 1) <==> ZeroTail(m, k)
  {
  }

  lemma MicroOf(t: nat, seconds: nat)
    requires t == seconds * 1000000000 + 1000
    ensures Digits(Ticks(t, 6), 6) == "000001"
  {
    ShiftThree(t);
    MicroDigits(Ticks(t, 6), seconds);
  }
}
