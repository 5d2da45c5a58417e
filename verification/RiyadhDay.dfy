/** The civil-day string the daily cap is keyed by (src/lib/time.ts). Calendar fields follow
    section 21.4.1 of ECMA-262 (2021), for years from 0 on. The dispatcher's model keys rows by
    the day number instead; the two keys agree. */
module RiyadhDay {
  import opened Common
  import opened NotificationDispatch

  // ---- the calendar ----

  /** The number of the first day of a year. */
  function DayFromYear(y: int): int {
    365 * (y - 1970) + (y - 1969) / 4 - (y - 1901) / 100 + (y - 1601) / 400
  }

  predicate IsLeap(y: int) {
    y % 4 == 0 && (y % 100 != 0 || y % 400 == 0)
  }

  lemma StepOfQuotient(x: int, k: int)
    requires k == 4 || k == 100 || k == 400
    ensures (x + 1) / k - x / k == if (x + 1) % k == 0 then 1 else 0
  {
  }

  lemma YearLength(y: int)
    ensures DayFromYear(y + 1) - DayFromYear(y) == if IsLeap(y) then 366 else 365
  {
    StepOfQuotient(y - 1969, 4);
    StepOfQuotient(y - 1901, 100);
    StepOfQuotient(y - 1601, 400);
  }

  /** The first day of year 0. */
  const FIRST_DAY: int := -719528

  /** The largest year whose first day is no later, looked for from `y` on. */
  function YearFrom(day: int, y: int): (r: int)
    requires DayFromYear(y) <= day
    ensures r >= y && DayFromYear(r) <= day < DayFromYear(r + 1)
    decreases day - DayFromYear(y)
  {
    YearLength(y);
    if day < DayFromYear(y + 1) then y else YearFrom(day, y + 1)
  }

  function YearOf(day: int): (y: nat)
    requires day >= FIRST_DAY
    ensures DayFromYear(y) <= day < DayFromYear(y + 1)
  {
    YearFrom(day, 0)
  }

  /** Days in a month, January being 0. */
  function MonthLength(month: nat, leap: bool): nat {
    if month == 1 then (if leap then 29 else 28)
    else if month == 3 || month == 5 || month == 8 || month == 10 then 30 else 31
  }

  /** Days of the year before a month; month 12 ends the year. */
  function DaysBefore(month: nat, leap: bool): nat {
    if month == 0 then 0 else DaysBefore(month - 1, leap) + MonthLength(month - 1, leap)
  }

  lemma MonthsFillTheYear(leap: bool)
    ensures DaysBefore(12, leap) == if leap then 366 else 365
  {
    assert DaysBefore(1, leap) == DaysBefore(0, leap) + 31;
    assert DaysBefore(2, leap) == DaysBefore(1, leap) + MonthLength(1, leap);
    assert DaysBefore(4, leap) == DaysBefore(2, leap) + 61;
    assert DaysBefore(6, leap) == DaysBefore(4, leap) + 61;
    assert DaysBefore(7, leap) == DaysBefore(6, leap) + 31;
    assert DaysBefore(8, leap) == DaysBefore(7, leap) + 31;
    assert DaysBefore(10, leap) == DaysBefore(8, leap) + 61;
    assert DaysBefore(12, leap) == DaysBefore(10, leap) + 61;
  }

  function MonthFrom(dayInYear: nat, leap: bool, month: nat): (m: nat)
    requires month < 12 && DaysBefore(month, leap) <= dayInYear < DaysBefore(12, leap)
    ensures m < 12 && DaysBefore(m, leap) <= dayInYear < DaysBefore(m + 1, leap)
    decreases 12 - month
  {
    if dayInYear < DaysBefore(month + 1, leap) then month else MonthFrom(dayInYear, leap, month + 1)
  }

  datatype Civil = Civil(year: nat, month: nat, date: nat)

  /** The day with the given calendar fields. */
  function DayOf(c: Civil): int {
    DayFromYear(c.year) + (if c.month >= 1 then DaysBefore(c.month - 1, IsLeap(c.year)) else 0) + c.date - 1
  }

  /** The calendar fields of a day. */
  function CivilOf(day: int): (c: Civil)
    requires day >= FIRST_DAY
    ensures 1 <= c.month <= 12 && 1 <= c.date <= MonthLength(c.month - 1, IsLeap(c.year)) <= 31
    ensures DayOf(c) == day
  {
    var y := YearOf(day);
    YearLength(y);
    MonthsFillTheYear(IsLeap(y));
    var dayInYear := day - DayFromYear(y);
    var m := MonthFrom(dayInYear, IsLeap(y), 0);
    Civil(y, m + 1, dayInYear - DaysBefore(m, IsLeap(y)) + 1)
  }

  lemma {:induction false} YearsRise(y: int, z: int)
    requires y <= z
    ensures DayFromYear(y) <= DayFromYear(z)
    decreases z - y
  {
    if y < z {
      YearLength(y);
      YearsRise(y + 1, z);
    }
  }

  lemma {:induction false} MonthsRise(m: nat, n: nat, leap: bool)
    requires m <= n
    ensures DaysBefore(m, leap) <= DaysBefore(n, leap)
    decreases n
  {
    if m < n { MonthsRise(m, n - 1, leap); }
  }

  /** A date of the Gregorian calendar. */
  predicate IsDate(c: Civil) {
    1 <= c.month <= 12 && 1 <= c.date <= MonthLength(c.month - 1, IsLeap(c.year))
  }

  lemma SameYear(day: int, y: int, z: int)
    requires DayFromYear(y) <= day < DayFromYear(y + 1) && DayFromYear(z) <= day < DayFromYear(z + 1)
    ensures y == z
  {
    if y < z { YearsRise(y + 1, z); }
    if z < y { YearsRise(z + 1, y); }
  }

  lemma SameMonth(dayInYear: int, leap: bool, m: nat, n: nat)
    requires DaysBefore(m, leap) <= dayInYear < DaysBefore(m + 1, leap)
    requires DaysBefore(n, leap) <= dayInYear < DaysBefore(n + 1, leap)
    ensures m == n
  {
    if m < n { MonthsRise(m + 1, n, leap); }
    if n < m { MonthsRise(n + 1, m, leap); }
  }

  lemma MonthStarts(month: nat, leap: bool)
    requires month < 12
    ensures DaysBefore(month + 1, leap) == DaysBefore(month, leap) + MonthLength(month, leap)
    ensures 0 <= DaysBefore(month, leap) && DaysBefore(month + 1, leap) <= if leap then 366 else 365
  {
    MonthsFillTheYear(leap);
    MonthsRise(month + 1, 12, leap);
  }

  lemma DayOfADate(c: Civil)
    requires IsDate(c)
    ensures var n, leap := DayOf(c) - DayFromYear(c.year), IsLeap(c.year);
            && n == DaysBefore(c.month - 1, leap) + c.date - 1
            && DaysBefore(c.month - 1, leap) <= n < DaysBefore(c.month, leap)
            && DayFromYear(c.year) <= DayOf(c) < DayFromYear(c.year + 1)
  {
    MonthStarts(c.month - 1, IsLeap(c.year));
    YearLength(c.year);
  }

  lemma OneDateAMonth(leap: bool, m: nat, d: nat, n: nat, e: nat)
    requires m < 12 && 1 <= d <= MonthLength(m, leap) && n < 12 && 1 <= e <= MonthLength(n, leap)
    requires DaysBefore(m, leap) + d == DaysBefore(n, leap) + e
    ensures m == n && d == e
  {
    MonthStarts(m, leap);
    MonthStarts(n, leap);
    SameMonth(DaysBefore(m, leap) + d - 1, leap, m, n);
  }

  lemma YearOfADate(c: Civil, day: int)
    requires IsDate(c) && DayOf(c) == day
    ensures DayFromYear(c.year) <= day < DayFromYear(c.year + 1)
  {
    DayOfADate(c);
  }

  lemma OneYearADay(b: Civil, c: Civil)
    requires IsDate(b) && IsDate(c) && DayOf(b) == DayOf(c)
    ensures b.year == c.year
  {
    YearOfADate(b, DayOf(b));
    YearOfADate(c, DayOf(b));
    SameYear(DayOf(b), b.year, c.year);
  }

  lemma OneDateADay(b: Civil, c: Civil)
    requires IsDate(b) && IsDate(c) && DayOf(b) == DayOf(c)
    ensures b == c
  {
    OneYearADay(b, c);
    OneDateAMonth(IsLeap(b.year), b.month - 1, b.date, c.month - 1, c.date);
  }

  /** `CivilOf` and `DayOf` are inverse to each other. */
  lemma DateOfItsDay(c: Civil)
    requires IsDate(c)
    ensures DayOf(c) >= FIRST_DAY && CivilOf(DayOf(c)) == c
  {
    DayOfADate(c);
    YearsRise(0, c.year);
    OneDateADay(CivilOf(DayOf(c)), c);
  }

  /** The next date of the month, the first of the next month, or the first of the next year. */
  function Next(c: Civil): Civil
    requires IsDate(c)
  {
    if c.date < MonthLength(c.month - 1, IsLeap(c.year)) then Civil(c.year, c.month, c.date + 1)
    else if c.month < 12 then Civil(c.year, c.month + 1, 1) else Civil(c.year + 1, 1, 1)
  }

  /** The next date is the date of the next day. */
  lemma NextIsNext(c: Civil)
    requires IsDate(c)
    ensures IsDate(Next(c)) && DayOf(Next(c)) == DayOf(c) + 1
  {
    DayOfADate(c);
    MonthStarts(c.month - 1, IsLeap(c.year));
    MonthsFillTheYear(IsLeap(c.year));
    YearLength(c.year);
    var n := Next(c);
    if n.month != 1 || n.year == c.year { assert n.year == c.year; } else { assert DaysBefore(0, IsLeap(n.year)) == 0; }
  }

  /** The calendar. February has 29 days in years divisible by 4, of the centuries only in those
      divisible by 400. */
  lemma NextDate(c: Civil)
    requires IsDate(c)
    ensures var leap := c.year % 4 == 0 && (c.year % 100 == 0 ==> c.year % 400 == 0);
            var days := if c.month == 2 then (if leap then 29 else 28) else if c.month in {4, 6, 9, 11} then 30 else 31;
            Next(c) == if c.date < days then Civil(c.year, c.month, c.date + 1)
                       else if c.month < 12 then Civil(c.year, c.month + 1, 1)
                       else Civil(c.year + 1, 1, 1)
  {
  }

  // ---- the string ----

  function Digit(d: nat): char
    requires d < 10
  {
    '0' + d as char
  }

  function Decimal(n: nat): (s: string)
    ensures s != ""
  {
    if n < 10 then [Digit(n)] else Decimal(n / 10) + [Digit(n % 10)]
  }

  function Padded(n: nat): (s: string)
    requires n < 100
    ensures |s| == 2
  {
    [Digit(n / 10), Digit(n % 10)]
  }

  function DateString(c: Civil): string
    requires c.month < 100 && c.date < 100
  {
    Decimal(c.year) + "-" + Padded(c.month) + "-" + Padded(c.date)
  }

  function RiyadhCapDay(now: Time, offsetMinutes: int): string
    requires FIRST_DAY * DAY_MS <= now + offsetMinutes * 60 * 1000
  {
    CapDayIsTheLocalDay(now, offsetMinutes, CapDay(now, offsetMinutes));
    DateString(CivilOf(CapDay(now, offsetMinutes)))
  }

  // ---- equal strings, equal days ----

  lemma {:induction false} DecimalInjective(a: nat, b: nat)
    requires Decimal(a) == Decimal(b)
    ensures a == b
    decreases a
  {
    if a >= 10 && b >= 10 {
      var s, t := Decimal(a / 10), Decimal(b / 10);
      assert Decimal(a)[..|s|] == s && Decimal(b)[..|t|] == t;
      assert Decimal(a)[|s|] == Digit(a % 10) && Decimal(b)[|t|] == Digit(b % 10);
      DecimalInjective(a / 10, b / 10);
    }
  }

  lemma PaddedInjective(a: nat, b: nat)
    requires a < 100 && b < 100 && Padded(a) == Padded(b)
    ensures a == b
  {
    assert Padded(a)[0] == Padded(b)[0] && Padded(a)[1] == Padded(b)[1];
  }

  lemma SameParts(a: string, b: string, a': string, b': string)
    requires |b| == |b'| && a + b == a' + b'
    ensures a == a' && b == b'
  {
    assert |a| == |a'|;
    assert (a + b)[..|a|] == a && (a' + b')[..|a'|] == a';
    assert (a + b)[|a|..] == b && (a' + b')[|a'|..] == b';
  }

  lemma DateStringInjective(c: Civil, d: Civil)
    requires c.month < 100 && c.date < 100 && d.month < 100 && d.date < 100
    requires DateString(c) == DateString(d)
    ensures c == d
  {
    var y, y' := Decimal(c.year) + "-", Decimal(d.year) + "-";
    var m, m' := y + Padded(c.month) + "-", y' + Padded(d.month) + "-";
    SameParts(m, Padded(c.date), m', Padded(d.date));
    SameParts(y + Padded(c.month), "-", y' + Padded(d.month), "-");
    SameParts(y, Padded(c.month), y', Padded(d.month));
    SameParts(Decimal(c.year), "-", Decimal(d.year), "-");
    DecimalInjective(c.year, d.year);
    PaddedInjective(c.month, d.month);
    PaddedInjective(c.date, d.date);
  }

  lemma SameDateIffSameDay(a: int, b: int)
    requires a >= FIRST_DAY && b >= FIRST_DAY
    ensures DateString(CivilOf(a)) == DateString(CivilOf(b)) <==> a == b
  {
    var c, d := CivilOf(a), CivilOf(b);
    if DateString(c) == DateString(d) {
      DateStringInjective(c, d);
      assert a == DayOf(c) == DayOf(d) == b;
    }
  }

  /** `sameRiyadhDay`: two instants have the same string exactly when they lie between the same two
      local midnights, so keying rows by the string or by the day number is the same. */
  lemma SameStringIffSameDay(t: Time, u: Time, offsetMinutes: int)
    requires FIRST_DAY * DAY_MS <= t + offsetMinutes * 60 * 1000 && FIRST_DAY * DAY_MS <= u + offsetMinutes * 60 * 1000
    ensures RiyadhCapDay(t, offsetMinutes) == RiyadhCapDay(u, offsetMinutes) <==> SameLocalDay(t, u, offsetMinutes)
  {
    CapDayIsTheLocalDay(t, offsetMinutes, CapDay(t, offsetMinutes));
    CapDayIsTheLocalDay(u, offsetMinutes, CapDay(u, offsetMinutes));
    SameDateIffSameDay(CapDay(t, offsetMinutes), CapDay(u, offsetMinutes));
    SameCapDayIff(t, u, offsetMinutes);
  }

  /** The string is the date of the local day. */
  lemma StringOfLocalDay(t: Time, offsetMinutes: int, c: Civil)
    requires IsDate(c) && OnLocalDay(t, offsetMinutes, DayOf(c))
    ensures FIRST_DAY * DAY_MS <= t + offsetMinutes * 60 * 1000
    ensures RiyadhCapDay(t, offsetMinutes) == DateString(c)
  {
    DateOfItsDay(c);
    CapDayIsTheLocalDay(t, offsetMinutes, DayOf(c));
  }

  /** The last millisecond before a local midnight and the midnight itself have the strings of two
      consecutive dates. */
  lemma MidnightTurnsTheDay(midnight: Time, offsetMinutes: int, c: Civil)
    requires IsDate(c) && midnight + offsetMinutes * 60 * 1000 == (DayOf(c) + 1) * DAY_MS
    ensures FIRST_DAY * DAY_MS <= midnight - 1 + offsetMinutes * 60 * 1000
    ensures RiyadhCapDay(midnight - 1, offsetMinutes) == DateString(c)
    ensures RiyadhCapDay(midnight, offsetMinutes) == DateString(Next(c))
  {
    NextIsNext(c);
    StringOfLocalDay(midnight - 1, offsetMinutes, c);
    StringOfLocalDay(midnight, offsetMinutes, Next(c));
  }

  // ---- the string says the date ----

  /** The number a string of digits stands for. */
  function Number(s: string): int {
    if s == "" then 0 else 10 * Number(s[..|s| - 1]) + (s[|s| - 1] as int - '0' as int)
  }

  lemma {:induction false} DecimalReads(n: nat)
    ensures Number(Decimal(n)) == n
    decreases n
  {
    if n >= 10 {
      DecimalReads(n / 10);
      assert Decimal(n)[..|Decimal(n)| - 1] == Decimal(n / 10);
    } else {
      assert Decimal(n)[..0] == "";
    }
  }

  lemma PaddedReads(n: nat)
    requires n < 100
    ensures Number(Padded(n)) == n
  {
    var tens := [Digit(n / 10)];
    assert Padded(n)[..1] == tens && tens[..0] == "" && Number(tens) == n / 10;
  }

  /** Year, month and date can be read off the string, which has the form YYYY-MM-DD. */
  lemma DateStringReads(c: Civil)
    requires IsDate(c)
    ensures var s, n := DateString(c), |DateString(c)|;
            && n >= 7 && s[n - 6] == '-' && s[n - 3] == '-'
            && Number(s[..n - 6]) == c.year && Number(s[n - 5..n - 3]) == c.month && Number(s[n - 2..]) == c.date
  {
    var s, n := DateString(c), |DateString(c)|;
    DecimalReads(c.year);
    PaddedReads(c.month);
    PaddedReads(c.date);
    assert s[..n - 6] == Decimal(c.year);
    assert s[n - 5..n - 3] == Padded(c.month);
    assert s[n - 2..] == Padded(c.date);
  }

  lemma EpochDigits()
    ensures DateString(Civil(1970, 1, 1)) == "1970-01-01"
  {
    assert Decimal(1) == "1";
    assert Decimal(19) == Decimal(1) + "9";
    assert Decimal(197) == Decimal(19) + "7";
    assert Decimal(1970) == Decimal(197) + "0";
  }

  /** The local epoch day is "1970-01-01". */
  lemma EpochString(t: Time, offsetMinutes: int)
    requires OnLocalDay(t, offsetMinutes, 0)
    ensures RiyadhCapDay(t, offsetMinutes) == "1970-01-01"
  {
    StringOfLocalDay(t, offsetMinutes, Civil(1970, 1, 1));
    EpochDigits();
  }
}
