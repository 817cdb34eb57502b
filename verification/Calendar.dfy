/**
 * Calendar days and ISO week slots (src/background/calendar.ts), over the proleptic
 * Gregorian calendar as ECMA-262 computes it. A day is counted from 1970-01-01.
 */
module Calendar {
  import opened Common

  datatype Date = Date(year: int, month: int, day: int)

  predicate Leap(y: int) {
    y % 4 == 0 && (y % 100 != 0 || y % 400 == 0)
  }

  function YearLength(y: int): int {
    if Leap(y) then 366 else 365
  }

  /** The number of the first day of year `y` (`DayFromYear` of ECMA-262). */
  function DayFromYear(y: int): int {
    365 * (y - 1970) + (y - 1969) / 4 - (y - 1901) / 100 + (y - 1601) / 400
  }

  /** The days of the year before month `m`, 1 <= m <= 13. */
  function DaysBefore(m: int, leap: bool): int {
    var l := if leap then 1 else 0;
    if m <= 1 then 0 else if m == 2 then 31
    else l + (if m == 3 then 59 else if m == 4 then 90 else if m == 5 then 120 else if m == 6 then 151
              else if m == 7 then 181 else if m == 8 then 212 else if m == 9 then 243 else if m == 10 then 273
              else if m == 11 then 304 else if m == 12 then 334 else 365)
  }

  predicate ValidDate(d: Date) {
    && 1 <= d.month <= 12 && 1 <= d.day
    && DaysBefore(d.month, Leap(d.year)) + d.day <= DaysBefore(d.month + 1, Leap(d.year))
  }

  function DayNumber(d: Date): int {
    DayFromYear(d.year) + DaysBefore(d.month, Leap(d.year)) + d.day - 1
  }

  /** A quotient grows by one exactly at the multiples of its divisor. */
  lemma QuotientStep(y: int, base: int, k: int)
    requires k > 0 && base % k == 0
    ensures (y - base) / k == (y - base - 1) / k + (if y % k == 0 then 1 else 0)
  {
    var q, r := (y - base - 1) / k, (y - base - 1) % k;
    var c := base / k;
    assert y == (q + c) * k + r + 1;
    if r + 1 == k {
      Quotient(y, q + c + 1, 0, k);
      Quotient(y - base, q + 1, 0, k);
    } else {
      Quotient(y, q + c, r + 1, k);
      Quotient(y - base, q, r + 1, k);
    }
  }

  lemma Quotient(a: int, q: int, r: int, k: int)
    requires 0 <= r < k && a == q * k + r
    ensures a / k == q && a % k == r
  {
    var d := a / k - q;
    assert d * k == r - a % k;
    Multiple(d, k);
  }

  lemma Multiple(d: int, k: int)
    requires k > 0
    ensures d >= 1 ==> d * k >= k
    ensures d <= -1 ==> d * k <= -k
  {
  }

  lemma YearStep(y: int)
    ensures DayFromYear(y + 1) == DayFromYear(y) + YearLength(y)
  {
    QuotientStep(y, 1968, 4);
    QuotientStep(y, 1900, 100);
    QuotientStep(y, 1600, 400);
    Hundreds(y);
  }

  lemma Hundreds(y: int)
    ensures y % 400 == 0 ==> y % 100 == 0
    ensures y % 100 == 0 ==> y % 4 == 0
  {
  }

  lemma {:induction false} YearsAscend(y: int, z: int)
    requires y <= z
    ensures DayFromYear(y) + 365 * (z - y) <= DayFromYear(z)
    decreases z - y
  {
    if y < z {
      YearStep(y);
      YearsAscend(y + 1, z);
    }
  }

  predicate InYear(n: int, y: int) {
    DayFromYear(y) <= n < DayFromYear(y + 1)
  }

  lemma YearUnique(n: int, y: int, z: int)
    requires InYear(n, y) && InYear(n, z)
    ensures y == z
  {
    if y < z {
      YearsAscend(y + 1, z);
    } else if z < y {
      YearsAscend(z + 1, y);
    }
  }

  /** The year of a day, searched from year `y`. */
  function YearFrom(n: int, y: int): (r: int)
    ensures InYear(n, r)
    decreases if InYear(n, y) then 0 else 1, if n < DayFromYear(y) then DayFromYear(y) - n else n - DayFromYear(y)
  {
    YearStep(y);
    YearStep(y - 1);
    if n < DayFromYear(y) then YearFrom(n, y - 1)
    else if DayFromYear(y + 1) <= n then YearFrom(n, y + 1)
    else y
  }

  function YearOf(n: int): (y: int)
    ensures InYear(n, y)
  {
    YearFrom(n, 1970)
  }

  /** The month of the `k`-th day of a year, searched from month `m`. */
  function MonthFrom(k: int, leap: bool, m: int): (r: int)
    requires 1 <= m <= 12 && DaysBefore(m, leap) <= k < DaysBefore(13, leap)
    ensures 1 <= r <= 12 && DaysBefore(r, leap) <= k < DaysBefore(r + 1, leap)
    decreases 12 - m
  {
    if k < DaysBefore(m + 1, leap) then m else MonthFrom(k, leap, m + 1)
  }

  function FromDay(n: int): Date {
    var y := YearOf(n);
    YearStep(y);
    var k := n - DayFromYear(y);
    var m := MonthFrom(k, Leap(y), 1);
    Date(y, m, k - DaysBefore(m, Leap(y)) + 1)
  }

  lemma DayRoundTrip(n: int)
    ensures ValidDate(FromDay(n)) && DayNumber(FromDay(n)) == n
  {
  }

  lemma DateRoundTrip(d: Date)
    requires ValidDate(d)
    ensures FromDay(DayNumber(d)) == d
  {
    var n := DayNumber(d);
    YearStep(d.year);
    MonthsAscend(d.month + 1, 13, Leap(d.year));
    MonthsAscend(1, d.month, Leap(d.year));
    YearUnique(n, d.year, YearOf(n));
    MonthFromIs(n - DayFromYear(d.year), Leap(d.year), d.month);
  }

  lemma MonthFromIs(k: int, leap: bool, m: int)
    requires 1 <= m <= 12 && DaysBefore(m, leap) <= k < DaysBefore(m + 1, leap) && 0 <= k < DaysBefore(13, leap)
    ensures MonthFrom(k, leap, 1) == m
  {
    MonthUnique(k, leap, m, MonthFrom(k, leap, 1));
  }

  lemma MonthUnique(k: int, leap: bool, m: int, r: int)
    requires 1 <= m <= 12 && DaysBefore(m, leap) <= k < DaysBefore(m + 1, leap)
    requires 1 <= r <= 12 && DaysBefore(r, leap) <= k < DaysBefore(r + 1, leap)
    ensures m == r
  {
    if r < m {
      MonthsAscend(r + 1, m, leap);
    } else if m < r {
      MonthsAscend(m + 1, r, leap);
    }
  }

  lemma MonthsAscend(m: int, k: int, leap: bool)
    requires 1 <= m <= k <= 13
    ensures DaysBefore(m, leap) <= DaysBefore(k, leap)
  {
  }

  /** `setUTCDate`: the day of the month may lie outside the month. */
  function SetDate(d: Date, day: int): Date {
    FromDay(DayNumber(d.(day := 1)) + day - 1)
  }

  lemma SetDateShifts(d: Date, k: int)
    ensures SetDate(d, d.day + k) == FromDay(DayNumber(d) + k)
  {
  }

  function PreviousDay(d: Date): Date {
    SetDate(d, d.day - 1)
  }

  /** One day before, across months and years. */
  lemma PreviousDayIsOneLess(d: Date)
    requires ValidDate(d)
    ensures ValidDate(PreviousDay(d)) && DayNumber(PreviousDay(d)) == DayNumber(d) - 1
  {
    SetDateShifts(d, -1);
    DayRoundTrip(DayNumber(d) - 1);
  }

  // -------------------------------------------------------------------- weeks

  /** ISO weekday: 1 = Monday ... 7 = Sunday (1970-01-01 was a Thursday). */
  function Weekday(n: int): (w: int)
    ensures 1 <= w <= 7
  {
    var dow := (n + 4) % 7;
    if dow == 0 then 7 else dow
  }

  /** The Monday of a day's week. */
  function Monday(n: int): int {
    n - (Weekday(n) - 1)
  }

  /** Weeks counted from the one of 1970-01-01; a week's Thursday is day 7 * q. */
  function WeekOf(n: int): int {
    (n + 3) / 7
  }

  lemma MondayIs(n: int)
    ensures Monday(n) == 7 * WeekOf(n) - 3
    ensures Monday(n) <= n <= Monday(n) + 6
  {
  }

  function CeilDiv(a: int, b: int): int
    requires b > 0
  {
    -((-a) / b)
  }

  /** `Date.UTC(year, 0, 1)`, which reads the years 0..99 as 1900..1999. */
  function UtcJanuaryFirst(year: int): int {
    DayFromYear(if 0 <= year <= 99 then 1900 + year else year)
  }

  datatype Week = Week(year: int, week: int)

  /** The week's Thursday decides its year; the week counts the sevens since that year's 1 January. */
  function WeekFrom(thursday: Date): Week {
    Week(thursday.year, CeilDiv(DayNumber(thursday) - UtcJanuaryFirst(thursday.year) + 1, 7))
  }

  /** The year and week number of `isoWeekSlot`, before they are written out. */
  function IsoWeek(d: Date): Week {
    WeekFrom(ThursdayOf(d))
  }

  function ThursdayOf(d: Date): Date {
    SetDate(d, d.day + (4 - Weekday(DayNumber(d))))
  }

  /** Week `q`, named by the year of its Thursday and counted from that year's first week. */
  function WeekNumbered(q: int): Week {
    Week(YearOf(7 * q), q - FirstWeek(UtcJanuaryFirst(YearOf(7 * q))) + 1)
  }

  /** The year that the Thursday of a day's week lies in. */
  function WeekYear(n: int): (y: int)
    ensures InYear(7 * WeekOf(n), y)
  {
    YearOf(7 * WeekOf(n))
  }

  /** The first week whose Thursday is day `j` or later. */
  function FirstWeek(j: int): int {
    (j + 6) / 7
  }

  lemma CountFromFirst(q: int, j: int)
    ensures CeilDiv(7 * q - j + 1, 7) == q - FirstWeek(j) + 1
  {
  }

  lemma IsoWeekIs(d: Date)
    requires ValidDate(d)
    ensures IsoWeek(d) == WeekNumbered(WeekOf(DayNumber(d)))
  {
    ThursdayIs(d);
    WeekFromIs(ThursdayOf(d), WeekOf(DayNumber(d)));
  }

  lemma ThursdayIs(d: Date)
    ensures ThursdayOf(d) == FromDay(7 * WeekOf(DayNumber(d)))
  {
    ToThursday(DayNumber(d));
    SetDateShifts(d, 4 - Weekday(DayNumber(d)));
  }

  lemma WeekFromIs(thursday: Date, q: int)
    requires thursday == FromDay(7 * q)
    ensures WeekFrom(thursday) == WeekNumbered(q)
  {
    DayRoundTrip(7 * q);
    CountFromFirst(q, UtcJanuaryFirst(YearOf(7 * q)));
  }

  lemma ToThursday(n: int)
    ensures n + (4 - Weekday(n)) == 7 * WeekOf(n)
  {
  }

  /** Week `q` has its Thursday from day `j` up to day `k` exactly when it lies between their first weeks. */
  lemma ThursdayBetween(q: int, j: int, k: int)
    ensures j <= 7 * q < k <==> FirstWeek(j) <= q < FirstWeek(k)
  {
  }

  lemma FirstWeekGap(j: int, k: int)
    requires k <= j + 366
    ensures FirstWeek(k) <= FirstWeek(j) + 53
  {
  }

  /** The week number is in 1..53 exactly when the year of the week's Thursday is not one that `Date.UTC` moves. */
  lemma WeekInRange(d: Date)
    requires ValidDate(d)
    ensures 1 <= IsoWeek(d).week <= 53 <==> !(0 <= WeekYear(DayNumber(d)) <= 99)
    ensures IsoWeek(d).year == WeekYear(DayNumber(d))
  {
    IsoWeekIs(d);
    var q, y := WeekOf(DayNumber(d)), WeekYear(DayNumber(d));
    YearStep(y);
    if 0 <= y <= 99 {
      YearsAscend(y + 1, 1900 + y);
      ThursdayBetween(q, DayFromYear(y), DayFromYear(1900 + y));
    } else {
      ThursdayBetween(q, DayFromYear(y), DayFromYear(y + 1));
      FirstWeekGap(DayFromYear(y), DayFromYear(y + 1));
    }
  }

  lemma JuneIn50()
    ensures InYear(7 * WeekOf(DayNumber(Date(50, 6, 1))), 50)
  {
  }

  lemma WeekOfYearInRange(d: Date, y: int)
    requires ValidDate(d) && InYear(7 * WeekOf(DayNumber(d)), y)
    ensures 1 <= IsoWeek(d).week <= 53 <==> !(0 <= y <= 99)
  {
    YearUnique(7 * WeekOf(DayNumber(d)), y, WeekYear(DayNumber(d)));
    WeekInRange(d);
  }

  /** A day whose week number is out of range. */
  lemma WeekCanBeOutOfRange()
    ensures ValidDate(Date(50, 6, 1)) && !(1 <= IsoWeek(Date(50, 6, 1)).week <= 53)
  {
    JuneIn50();
    WeekOfYearInRange(Date(50, 6, 1), 50);
  }

  /** The calendar week `w` of year `y` by the rule of section 4.1.4 of ISO 8601: week 1 is the week of 4 January. */
  ghost predicate IsIsoWeek(n: int, y: int, w: int) {
    && w >= 1
    && Monday(n) == Monday(DayFromYear(y) + 3) + 7 * (w - 1)
    && Monday(n) < Monday(DayFromYear(y + 1) + 3)
  }

  lemma IsoRuleIs(n: int, y: int, w: int)
    ensures IsIsoWeek(n, y, w) <==> InYear(7 * WeekOf(n), y) && w == WeekOf(n) - FirstWeek(DayFromYear(y)) + 1
  {
    MondayIs(n);
    MondayIs(DayFromYear(y) + 3);
    MondayIs(DayFromYear(y + 1) + 3);
    ThursdayBetween(WeekOf(n), DayFromYear(y), DayFromYear(y + 1));
  }

  lemma WeekStarts(n: int, j: int)
    ensures Monday(n) == Monday(j + 3) + 7 * (WeekOf(n) - FirstWeek(j))
  {
    MondayIs(n);
    MondayIs(j + 3);
  }

  lemma NumberedInYear(q: int, y: int)
    requires y == YearOf(7 * q) && 0 <= y <= 99
    ensures WeekNumbered(q).week == q - FirstWeek(DayFromYear(1900 + y)) + 1
  {
  }

  lemma WeekIsCounted(d: Date, y: int)
    requires ValidDate(d) && y == WeekYear(DayNumber(d)) && 0 <= y <= 99
    ensures IsoWeek(d).week == WeekOf(DayNumber(d)) - FirstWeek(DayFromYear(1900 + y)) + 1
  {
    IsoWeekIs(d);
    NumberedInYear(WeekOf(DayNumber(d)), y);
  }

  /** In the years 0 to 99 the weeks are counted from the first one of 1900 years later. */
  lemma MovedWeek(d: Date)
    requires ValidDate(d) && 0 <= WeekYear(DayNumber(d)) <= 99
    ensures Monday(DayNumber(d)) ==
            Monday(DayFromYear(1900 + WeekYear(DayNumber(d))) + 3) + 7 * (IsoWeek(d).week - 1)
  {
    WeekIsCounted(d, WeekYear(DayNumber(d)));
    WeekStarts(DayNumber(d), DayFromYear(1900 + WeekYear(DayNumber(d))));
  }

  /** The slot's year and week are those of the ISO rule, and the only ones. */
  lemma SlotIsIsoWeek(d: Date, y: int, w: int)
    requires ValidDate(d) && !(0 <= IsoWeek(d).year <= 99)
    ensures IsIsoWeek(DayNumber(d), y, w) <==> IsoWeek(d) == Week(y, w)
  {
    IsoWeekIs(d);
    IsoRuleIs(DayNumber(d), y, w);
    if InYear(7 * WeekOf(DayNumber(d)), y) {
      YearUnique(7 * WeekOf(DayNumber(d)), y, WeekYear(DayNumber(d)));
    }
  }

  /** Weeks are ordered by their year and then their number, exactly as they follow each other. */
  lemma WeeksInOrder(c: Date, d: Date)
    requires ValidDate(c) && ValidDate(d)
    requires !(0 <= IsoWeek(c).year <= 99) && !(0 <= IsoWeek(d).year <= 99)
    ensures WeekOf(DayNumber(c)) < WeekOf(DayNumber(d)) <==>
            || IsoWeek(c).year < IsoWeek(d).year
            || (IsoWeek(c).year == IsoWeek(d).year && IsoWeek(c).week < IsoWeek(d).week)
    ensures WeekOf(DayNumber(c)) == WeekOf(DayNumber(d)) <==> IsoWeek(c) == IsoWeek(d)
  {
    IsoWeekIs(c);
    IsoWeekIs(d);
    var p, y := WeekOf(DayNumber(c)), WeekYear(DayNumber(c));
    var q, z := WeekOf(DayNumber(d)), WeekYear(DayNumber(d));
    YearsSplitWeeks(p, y, q, z);
    YearsSplitWeeks(q, z, p, y);
  }

  lemma YearsSplitWeeks(p: int, y: int, q: int, z: int)
    requires InYear(7 * p, y) && InYear(7 * q, z)
    ensures y < z ==> p < q
  {
    if y < z {
      YearsAscend(y + 1, z);
    }
  }

  // --------------------------------------------------------------------- text

  function Digit(k: int): char
    requires 0 <= k <= 9
  {
    ('0' as int + k) as char
  }

  function Text2(k: int): string
    requires 0 <= k <= 99
  {
    [Digit(k / 10), Digit(k % 10)]
  }

  function Text4(k: int): string
    requires 0 <= k <= 9999
  {
    Text2(k / 100) + Text2(k % 100)
  }

  /** `YYYY-MM-DD`. */
  function Ymd(d: Date): string
    requires ValidDate(d) && 0 <= d.year <= 9999
  {
    MonthBounds(d);
    Text4(d.year) + ("-" + (Text2(d.month) + ("-" + Text2(d.day))))
  }

  lemma MonthBounds(d: Date)
    requires ValidDate(d)
    ensures 1 <= d.month <= 12 && 1 <= d.day <= 31
  {
  }

  ghost predicate FourDigits(d: Date) {
    ValidDate(d) && 1000 <= d.year <= 9999 && 1000 <= IsoWeek(d).year <= 9999
  }

  /** `YYYY-Www`, for years that are written with four digits. */
  function IsoWeekSlot(d: Date): string
    requires FourDigits(d)
  {
    WeekInRange(d);
    Text4(IsoWeek(d).year) + ("-W" + Text2(IsoWeek(d).week))
  }

  lemma ValueAppends(ds: string, c: char)
    ensures Value(ds + [c]) == 10 * Value(ds) + (c as int - '0' as int)
  {
    assert (ds + [c])[..|ds|] == ds;
  }

  lemma TwoAppended(ds: string, a: char, b: char)
    ensures Value(ds + [a, b]) == 100 * Value(ds) + Value([a, b])
  {
    ValueAppends(ds, a);
    ValueAppends(ds + [a], b);
    ValueAppends("", a);
    ValueAppends("" + [a], b);
    assert ds + [a] + [b] == ds + [a, b] && "" + [a] + [b] == [a, b];
  }

  /** Two digits read as their number, and so do four. */
  lemma TextReads(k: int)
    requires 0 <= k <= 99
    ensures |Text2(k)| == 2 && IsDigit(Text2(k)[0]) && IsDigit(Text2(k)[1]) && Value(Text2(k)) == k
  {
    var a, b := Digit(k / 10), Digit(k % 10);
    ValueAppends("", a);
    ValueAppends("" + [a], b);
    assert "" + [a] + [b] == Text2(k);
  }

  lemma Text4Reads(k: int)
    requires 0 <= k <= 9999
    ensures |Text4(k)| == 4 && Value(Text4(k)) == k
  {
    var x, y := Text2(k / 100), Text2(k % 100);
    TextReads(k / 100);
    TextReads(k % 100);
    TwoAppended(x, y[0], y[1]);
    assert [y[0], y[1]] == y;
  }

  /** A day's text is its year, month and day in digits, with dashes between. */
  lemma YmdReads(d: Date)
    requires ValidDate(d) && 0 <= d.year <= 9999
    ensures var s := Ymd(d);
            && |s| == 10 && s[4] == '-' && s[7] == '-'
            && Value(s[..4]) == d.year && Value(s[5..7]) == d.month && Value(s[8..]) == d.day
  {
    MonthBounds(d);
    Text4Reads(d.year);
    TextReads(d.month);
    TextReads(d.day);
    var s := Ymd(d);
    assert s[..4] == Text4(d.year) && s[5..7] == Text2(d.month) && s[8..] == Text2(d.day);
  }

  /** A week's text is its year and number in digits. */
  lemma SlotReads(d: Date)
    requires FourDigits(d)
    ensures var s := IsoWeekSlot(d);
            && |s| == 8 && s[4] == '-' && s[5] == 'W'
            && Value(s[..4]) == IsoWeek(d).year && Value(s[6..]) == IsoWeek(d).week
  {
    WeekInRange(d);
    Text4Reads(IsoWeek(d).year);
    TextReads(IsoWeek(d).week);
    var s := IsoWeekSlot(d);
    assert s[..4] == Text4(IsoWeek(d).year) && s[6..] == Text2(IsoWeek(d).week);
  }

  lemma Text2Order(a: int, b: int)
    requires 0 <= a <= 99 && 0 <= b <= 99
    ensures TextLess(Text2(a), Text2(b)) <==> a < b
    ensures Text2(a) == Text2(b) <==> a == b
  {
    var s, t := Text2(a), Text2(b);
    assert s[1..] == [Digit(a % 10)] && t[1..] == [Digit(b % 10)];
    assert s[1..][1..] == [] && t[1..][1..] == [];
    assert TextLess(s[1..], t[1..]) <==> a % 10 < b % 10;
    if s == t {
      assert s[0] == t[0] && s[1] == t[1];
    }
  }

  lemma Text4Order(a: int, b: int)
    requires 0 <= a <= 9999 && 0 <= b <= 9999
    ensures TextLess(Text4(a), Text4(b)) <==> a < b
    ensures Text4(a) == Text4(b) <==> a == b
  {
    Text2Order(a / 100, b / 100);
    Text2Order(a % 100, b % 100);
    TextLessAppend(Text2(a / 100), Text2(b / 100), Text2(a % 100), Text2(b % 100));
    SameParts(Text2(a / 100), Text2(b / 100), Text2(a % 100), Text2(b % 100));
  }

  lemma SameParts(p: string, q: string, a: string, b: string)
    requires |p| == |q|
    ensures p + a == q + b <==> p == q && a == b
  {
    assert (p + a)[..|p|] == p && (q + b)[..|q|] == q;
    assert (p + a)[|p|..] == a && (q + b)[|q|..] == b;
  }

  /** A common mark in front changes neither the order nor equality. */
  lemma SameMark(m: string, a: string, b: string)
    ensures TextLess(m + a, m + b) <==> TextLess(a, b)
    ensures m + a == m + b <==> a == b
  {
    TextLessAppend(m, m, a, b);
    TextLessIrreflexive(m);
    SameParts(m, m, a, b);
  }

  /**
   * Slot strings of four-digit years: two days share a slot exactly when they share a
   * Monday-to-Sunday week, and slots sort as text exactly as their weeks sort in time.
   */
  lemma SlotsFollowWeeks(c: Date, d: Date)
    requires FourDigits(c) && FourDigits(d)
    ensures IsoWeekSlot(c) == IsoWeekSlot(d) <==> Monday(DayNumber(c)) == Monday(DayNumber(d))
    ensures TextLess(IsoWeekSlot(c), IsoWeekSlot(d)) <==> Monday(DayNumber(c)) < Monday(DayNumber(d))
  {
    WeekInRange(c);
    WeekInRange(d);
    WeeksInOrder(c, d);
    MondayIs(DayNumber(c));
    MondayIs(DayNumber(d));
    SlotTextOrder(IsoWeek(c), IsoWeek(d));
  }

  lemma SlotTextOrder(a: Week, b: Week)
    requires 0 <= a.year <= 9999 && 0 <= b.year <= 9999 && 0 <= a.week <= 99 && 0 <= b.week <= 99
    ensures var s, t := Text4(a.year) + ("-W" + Text2(a.week)), Text4(b.year) + ("-W" + Text2(b.week));
            && (TextLess(s, t) <==> a.year < b.year || (a.year == b.year && a.week < b.week))
            && (s == t <==> a == b)
  {
    Text4Order(a.year, b.year);
    Text2Order(a.week, b.week);
    SameMark("-W", Text2(a.week), Text2(b.week));
    TextLessAppend(Text4(a.year), Text4(b.year), "-W" + Text2(a.week), "-W" + Text2(b.week));
    SameParts(Text4(a.year), Text4(b.year), "-W" + Text2(a.week), "-W" + Text2(b.week));
  }

  /** `YYYY-MM-DD` strings sort as text exactly as their days sort in time. */
  lemma DaysSortAsText(c: Date, d: Date)
    requires ValidDate(c) && ValidDate(d) && 0 <= c.year <= 9999 && 0 <= d.year <= 9999
    ensures TextLess(Ymd(c), Ymd(d)) <==> DayNumber(c) < DayNumber(d)
    ensures Ymd(c) == Ymd(d) <==> c == d
  {
    MonthBounds(c);
    MonthBounds(d);
    DateOrder(c, d);
    DayTextOrder(c, d);
  }

  ghost predicate DateLess(c: Date, d: Date) {
    c.year < d.year || (c.year == d.year && (c.month < d.month || (c.month == d.month && c.day < d.day)))
  }

  lemma DateOrder(c: Date, d: Date)
    requires ValidDate(c) && ValidDate(d)
    ensures DateLess(c, d) <==> DayNumber(c) < DayNumber(d)
  {
    if DateLess(c, d) {
      DateLessIsEarlier(c, d);
    } else if DateLess(d, c) {
      DateLessIsEarlier(d, c);
    }
  }

  lemma DateLessIsEarlier(c: Date, d: Date)
    requires ValidDate(c) && ValidDate(d) && DateLess(c, d)
    ensures DayNumber(c) < DayNumber(d)
  {
    if c.year < d.year {
      YearStep(c.year);
      YearsAscend(c.year + 1, d.year);
      MonthsAscend(c.month + 1, 13, Leap(c.year));
      MonthsAscend(1, d.month, Leap(d.year));
    } else if c.month < d.month {
      MonthsAscend(c.month + 1, d.month, Leap(c.year));
    }
  }

  lemma DayTextOrder(c: Date, d: Date)
    requires 0 <= c.year <= 9999 && 1 <= c.month <= 12 && 1 <= c.day <= 31
    requires 0 <= d.year <= 9999 && 1 <= d.month <= 12 && 1 <= d.day <= 31
    ensures var s := Text4(c.year) + ("-" + (Text2(c.month) + ("-" + Text2(c.day))));
            var t := Text4(d.year) + ("-" + (Text2(d.month) + ("-" + Text2(d.day))));
            (TextLess(s, t) <==> DateLess(c, d)) && (s == t <==> c == d)
  {
    var x0, y0 := "-" + Text2(c.day), "-" + Text2(d.day);
    var x1, y1 := "-" + (Text2(c.month) + x0), "-" + (Text2(d.month) + y0);
    Text4Order(c.year, d.year);
    Text2Order(c.month, d.month);
    Text2Order(c.day, d.day);
    SameMark("-", Text2(c.day), Text2(d.day));
    TextLessAppend(Text2(c.month), Text2(d.month), x0, y0);
    SameParts(Text2(c.month), Text2(d.month), x0, y0);
    SameMark("-", Text2(c.month) + x0, Text2(d.month) + y0);
    TextLessAppend(Text4(c.year), Text4(d.year), x1, y1);
    SameParts(Text4(c.year), Text4(d.year), x1, y1);
  }
}
