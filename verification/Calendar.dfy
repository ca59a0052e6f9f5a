/** Calendar months in Shanghai, taken as UTC+8 throughout, and the billing periods built on them. */
module Calendar {
  import opened Options
  import opened Decimals

  const DAY := 86400
  const OFFSET := 8 * 3600

  // ----- months -----

  predicate Leap(y: int) {
    y % 4 == 0 && (y % 100 != 0 || y % 400 == 0)
  }

  /** The length of a month, counted from 0 for January. */
  function DaysIn(y: int, month: nat): (d: nat)
    requires month < 12
    ensures 28 <= d <= 31
  {
    if month == 1 then (if Leap(y) then 29 else 28)
    else if month == 3 || month == 5 || month == 8 || month == 10 then 30
    else 31
  }

  /** Month number m is month m % 12 of year m / 12; its first day, counted from 1970-01-01. */
  function StartDay(m: nat): int {
    if m == 0 then -719528 else StartDay(m - 1) + DaysIn((m - 1) / 12, (m - 1) % 12)
  }

  /** The second at which month m begins in Shanghai. */
  function StartTS(m: nat): int {
    StartDay(m) * DAY - OFFSET
  }

  /** Months follow each other without gap or overlap. */
  lemma NextStart(m: nat)
    ensures StartTS(m) + 28 * DAY <= StartTS(m + 1) <= StartTS(m) + 31 * DAY
  {
  }

  // ----- the epoch -----

  /** Days before the first of January of year y, counted from year 0. */
  function YearStart(y: nat): int {
    365 * y + (y + 3) / 4 - (y + 99) / 100 + (y + 399) / 400
  }

  lemma Every4(y: nat)
    ensures (y + 4) / 4 == (y + 3) / 4 + (if y % 4 == 0 then 1 else 0)
  {
  }

  lemma Every100(y: nat)
    ensures (y + 100) / 100 == (y + 99) / 100 + (if y % 100 == 0 then 1 else 0)
  {
  }

  lemma Every400(y: nat)
    ensures (y + 400) / 400 == (y + 399) / 400 + (if y % 400 == 0 then 1 else 0)
  {
  }

  lemma Multiple(y: nat, k: nat, t: nat)
    requires k > 0 && y == k * t
    ensures y % k == 0
  {
    DivMod(y, k, t);
  }

  lemma DivMod(y: nat, k: nat, t: nat)
    requires k > 0 && y == k * t
    ensures y / k == t
  {
    var d := y / k - t;
    assert y == k * (y / k) + y % k;
    assert k * d == -(y % k);
    if d >= 1 {
      NoLess(k, d);
    } else if d <= -1 {
      NoLess(k, -d);
    }
  }

  lemma NoLess(k: nat, d: int)
    requires d >= 1
    ensures k * d >= k
  {
  }

  lemma Centuries(y: nat)
    ensures y % 400 == 0 ==> y % 100 == 0
    ensures y % 100 == 0 ==> y % 4 == 0
  {
    if y % 400 == 0 {
      Multiple(y, 100, 4 * (y / 400));
    }
    if y % 100 == 0 {
      Multiple(y, 4, 25 * (y / 100));
    }
  }

  lemma YearLength(y: nat)
    ensures YearStart(y + 1) == YearStart(y) + (if Leap(y) then 366 else 365)
  {
    Every4(y);
    Every100(y);
    Every400(y);
    Centuries(y);
  }

  lemma MonthStep(y: nat, month: nat)
    requires month < 12
    ensures StartDay(y * 12 + month + 1) == StartDay(y * 12 + month) + DaysIn(y, month)
  {
    MonthParts(y, month);
  }

  /** The days of a year before one of its months: from March on they follow Zeller's rule. */
  function DaysBefore(y: nat, month: nat): int {
    if month == 0 then 0 else if month == 1 then 31
    else 59 + (if y % 4 == 0 && (y % 100 != 0 || y % 400 == 0) then 1 else 0) + (153 * (month - 2) + 2) / 5
  }

  lemma MonthAfter(y: nat, month: nat)
    requires month < 11
    ensures DaysBefore(y, month + 1) == DaysBefore(y, month) + DaysIn(y, month)
  {
  }

  lemma {:induction false} WithinYear(y: nat, month: nat)
    requires month < 12
    ensures StartDay(y * 12 + month) == StartDay(y * 12) + DaysBefore(y, month)
  {
    if month > 0 {
      var before: nat := month - 1;
      WithinYear(y, before);
      MonthStep(y, before);
      MonthAfter(y, before);
    }
  }

  lemma YearStep(y: nat)
    ensures StartDay((y + 1) * 12) == StartDay(y * 12) + (if Leap(y) then 366 else 365)
  {
    WithinYear(y, 11);
    MonthStep(y, 11);
  }

  /** Counted month by month from year 0, every January begins where the Gregorian leap rule puts it. */
  lemma {:induction false} January(y: nat)
    ensures StartDay(y * 12) == YearStart(y) - 719528
  {
    if y > 0 {
      January(y - 1);
      YearStep(y - 1);
      YearLength(y - 1);
    }
  }

  /** The first second of every month in Shanghai, in closed form. */
  lemma MonthStart(y: nat, month: nat)
    requires month < 12
    ensures StartTS(y * 12 + month)
         == 86400 * (365 * y + (y + 3) / 4 - (y + 99) / 100 + (y + 399) / 400 - 719528 + DaysBefore(y, month)) - 28800
  {
    January(y);
    WithinYear(y, month);
  }

  /** In particular day 0 begins January 1970. */
  lemma EpochMonth(y: nat)
    requires y == 1970
    ensures StartDay(y * 12) == 0 && StartTS(y * 12) == -28800
  {
    January(y);
  }

  // ----- the month of an instant -----

  lemma {:induction false} StartsRise(m: nat, n: nat)
    requires m < n
    ensures StartTS(m) + 28 * DAY <= StartTS(n)
  {
    NextStart(n - 1);
    if m < n - 1 {
      StartsRise(m, n - 1);
    }
  }

  const FIRST := StartTS(0)

  function MonthFrom(ts: int, m: nat): (r: nat)
    requires StartTS(m) <= ts
    ensures StartTS(r) <= ts < StartTS(r + 1)
    decreases ts - StartTS(m)
  {
    NextStart(m);
    if ts < StartTS(m + 1) then m else MonthFrom(ts, m + 1)
  }

  /** The Shanghai month of a second, for instants from year 0 on. */
  function MonthOf(ts: int): (r: nat)
    requires ts >= FIRST
    ensures StartTS(r) <= ts < StartTS(r + 1)
  {
    MonthFrom(ts, 0)
  }

  lemma MonthIs(ts: int, m: nat)
    requires StartTS(m) <= ts < StartTS(m + 1)
    ensures ts >= FIRST && MonthOf(ts) == m
  {
    if m > 0 {
      StartsRise(0, m);
    }
    var r := MonthOf(ts);
    if r < m {
      Later(r + 1, m);
    } else if m < r {
      Later(m + 1, r);
    }
  }

  lemma Later(m: nat, n: nat)
    requires m <= n
    ensures StartTS(m) <= StartTS(n)
  {
    if m < n {
      StartsRise(m, n);
    }
  }

  // ----- period strings -----

  function Two(n: nat): string
    requires n < 100
  {
    [Digit(n / 10), Digit(n % 10)]
  }

  /** A year with at least four digits. */
  function Year(y: nat): string {
    if y < 10000 then Two(y / 100) + Two(y % 100) else Decimal(y)
  }

  /** The layout YYYY-MM. */
  function FormatMonth(m: nat): string {
    Year(m / 12) + "-" + Two(m % 12 + 1)
  }

  function ReadTwo(a: char, b: char): Option<nat> {
    if IsDigit(a) && IsDigit(b) then Some(10 * DigitValue(a) + DigitValue(b)) else None
  }

  function ParsePeriod(s: string): Option<nat> {
    if |s| != 7 || s[4] != '-' then None
    else
      var century, year, month := ReadTwo(s[0], s[1]), ReadTwo(s[2], s[3]), ReadTwo(s[5], s[6]);
      if century.None? || year.None? || month.None? || !(1 <= month.value <= 12) then None
      else Some((100 * century.value + year.value) * 12 + month.value - 1)
  }

  lemma TwoBack(n: nat)
    requires n < 100
    ensures ReadTwo(Two(n)[0], Two(n)[1]) == Some(n)
  {
  }

  lemma TwoOfRead(a: char, b: char)
    requires ReadTwo(a, b).Some?
    ensures ReadTwo(a, b).value < 100 && Two(ReadTwo(a, b).value) == [a, b]
  {
  }

  lemma MonthParts(year: nat, month: nat)
    requires month < 12
    ensures (year * 12 + month) / 12 == year && (year * 12 + month) % 12 == month
  {
  }

  lemma ParseFormat(m: nat)
    requires m < 120000
    ensures ParsePeriod(FormatMonth(m)) == Some(m)
  {
    var y := m / 12;
    TwoBack(y / 100);
    TwoBack(y % 100);
    TwoBack(m % 12 + 1);
    var s := FormatMonth(m);
    assert s == Two(y / 100) + Two(y % 100) + "-" + Two(m % 12 + 1);
    assert s[0..2] == Two(y / 100) && s[2..4] == Two(y % 100) && s[5..7] == Two(m % 12 + 1);
    assert m == (100 * (y / 100) + y % 100) * 12 + m % 12;
  }

  lemma YearParts(c: nat, y: nat)
    requires c < 100 && y < 100
    ensures Year(100 * c + y) == Two(c) + Two(y)
  {
    assert (100 * c + y) / 100 == c && (100 * c + y) % 100 == y;
  }

  lemma FormatOf(c: nat, y: nat, mo: nat)
    requires c < 100 && y < 100 && 1 <= mo <= 12
    ensures FormatMonth((100 * c + y) * 12 + mo - 1) == Two(c) + Two(y) + "-" + Two(mo)
  {
    MonthParts(100 * c + y, mo - 1);
    YearParts(c, y);
  }

  lemma FormatParse(s: string)
    requires ParsePeriod(s).Some?
    ensures ParsePeriod(s).value < 120000 && FormatMonth(ParsePeriod(s).value) == s
  {
    TwoOfRead(s[0], s[1]);
    TwoOfRead(s[2], s[3]);
    TwoOfRead(s[5], s[6]);
    var c, y, mo := ReadTwo(s[0], s[1]).value, ReadTwo(s[2], s[3]).value, ReadTwo(s[5], s[6]).value;
    FormatOf(c, y, mo);
    assert s == [s[0], s[1]] + [s[2], s[3]] + "-" + [s[5], s[6]];
  }

  lemma ReadTwoNat(n: nat)
    requires n < 100
    ensures ReadNat(Two(n)) == Some(n)
  {
    assert Two(n)[..1] == [Digit(n / 10)];
    assert ReadNat([Digit(n / 10)]) == Some(n / 10);
  }

  lemma ReadFour(c: nat, y: nat)
    requires c < 100 && y < 100
    ensures ReadNat(Two(c) + Two(y)) == Some(100 * c + y)
  {
    var s := Two(c) + Two(y);
    ReadTwoNat(c);
    assert s[..3][..2] == Two(c) && s[..|s| - 1] == s[..3];
    assert ReadNat(s[..3]) == Some(10 * c + y / 10);
  }

  /** A formatted month is its year in four digits, a hyphen, and its number from 01 to 12. */
  lemma FormatReads(m: nat)
    requires m < 120000
    ensures var s := FormatMonth(m);
            && |s| == 7 && s[4] == '-'
            && ReadNat(s[..4]) == Some(m / 12) && ReadNat(s[5..]) == Some(m % 12 + 1)
  {
    var y, s := m / 12, FormatMonth(m);
    ReadFour(y / 100, y % 100);
    ReadTwoNat(m % 12 + 1);
    assert s[..4] == Two(y / 100) + Two(y % 100) && s[5..] == Two(m % 12 + 1);
  }

  lemma FormatsDiffer(m: nat, n: nat)
    requires m < 120000 && n < 120000
    ensures FormatMonth(m) == FormatMonth(n) <==> m == n
  {
    ParseFormat(m);
    ParseFormat(n);
  }

  // ----- periods and labels -----

  /** The first and the last second (exclusive) of a period; None for a malformed one. */
  function PeriodBounds(period: string): Option<(int, int)> {
    var m := ParsePeriod(period);
    if m.None? then None else Some((StartTS(m.value), StartTS(m.value + 1)))
  }

  function FormatDate(ts: int): string
    requires ts >= FIRST
  {
    var m := MonthOf(ts);
    NextStart(m);
    FormatMonth(m) + "-" + Two((ts - StartTS(m)) / DAY + 1)
  }

  function BuildPeriodLabel(startTS: int, endTS: int): string
    requires startTS >= FIRST && endTS >= FIRST
  {
    var m := MonthOf(startTS);
    if startTS == StartTS(m) && endTS == StartTS(m + 1) then FormatMonth(m)
    else FormatDate(startTS) + "~" + FormatDate(endTS)
  }

  function CurrentMonthBounds(now: int): (int, int)
    requires now >= FIRST
  {
    (StartTS(MonthOf(now)), now)
  }

  /** The month of the last second before this month, and that second. */
  function LastMonthBounds(now: int): (int, int)
    requires now >= FIRST && MonthOf(now) > 0
  {
    var last := StartTS(MonthOf(now)) - 1;
    Later(0, MonthOf(now));
    NextStart(MonthOf(now) - 1);
    Later(0, MonthOf(now) - 1);
    (StartTS(MonthOf(last)), last)
  }

  datatype Label = CurrentMonth | LastMonth | NoLabel

  /** The label of a period in month m. */
  function LabelIn(period: string, m: nat): Label
    requires m > 0
  {
    if period == FormatMonth(m) then CurrentMonth
    else if period == FormatMonth(m - 1) then LastMonth
    else NoLabel
  }

  function MapPeriodToLabel(period: string, now: int): Label
    requires now >= FIRST && MonthOf(now) > 0
  {
    LabelIn(period, MonthOf(now))
  }

  // ----- properties -----

  lemma DayOfMonth(ts: int, start: int, d: int)
    requires start <= ts && d == (ts - start) / DAY + 1
    ensures start + 86400 * (d - 1) <= ts < start + 86400 * d
  {
  }

  /** A formatted date is its month, a hyphen, and the number of the day that contains the second. */
  lemma DateReads(ts: int)
    requires ts >= FIRST && MonthOf(ts) < 120000
    ensures var s, start := FormatDate(ts), StartTS(MonthOf(ts));
            && |s| == 10 && s[..7] == FormatMonth(MonthOf(ts)) && s[7] == '-' && ReadNat(s[8..]).Some?
            && var d := ReadNat(s[8..]).value; start + 86400 * (d - 1) <= ts < start + 86400 * d
  {
    var m := MonthOf(ts);
    NextStart(m);
    var d := (ts - StartTS(m)) / DAY + 1;
    FormatReads(m);
    ReadTwoNat(d);
    DayOfMonth(ts, StartTS(m), d);
    assert FormatDate(ts)[8..] == Two(d);
  }

  /** Any other pair of bounds is labelled by its two dates. */
  lemma LabelOfRange(start: int, end: int)
    requires start >= FIRST && end >= FIRST
    requires start != StartTS(MonthOf(start)) || end != StartTS(MonthOf(start) + 1)
    ensures BuildPeriodLabel(start, end) == FormatDate(start) + "~" + FormatDate(end)
  {
  }

  lemma BoundsExist(m: nat)
    requires m < 120000
    ensures PeriodBounds(FormatMonth(m)) == Some((StartTS(m), StartTS(m + 1)))
  {
    ParseFormat(m);
  }

  /** Consecutive periods tile: one ends where the next begins. Every well-formed period is a formatted month. */
  lemma PeriodsTile(m: nat)
    requires m + 1 < 120000
    ensures var p, q := PeriodBounds(FormatMonth(m)), PeriodBounds(FormatMonth(m + 1));
            p.Some? && q.Some? && p.value.0 < p.value.1 == q.value.0
  {
    BoundsExist(m);
    BoundsExist(m + 1);
    NextStart(m);
  }

  /** The label of a period's bounds is the period. */
  lemma LabelOfBounds(period: string)
    requires ParsePeriod(period).Some?
    ensures var (start, end) := PeriodBounds(period).value;
            start >= FIRST && end >= FIRST && BuildPeriodLabel(start, end) == period
  {
    var m := ParsePeriod(period).value;
    NextStart(m);
    MonthIs(StartTS(m), m);
    Later(0, m + 1);
    FormatParse(period);
  }

  /** A label parses as a period exactly for the bounds of a period, and then it is that period. */
  lemma LabelIsPeriodIff(start: int, end: int)
    requires start >= FIRST && end >= FIRST && MonthOf(start) < 120000
    ensures var p := ParsePeriod(BuildPeriodLabel(start, end));
            p.Some? <==> start == StartTS(MonthOf(start)) && end == StartTS(MonthOf(start) + 1)
    ensures var p := ParsePeriod(BuildPeriodLabel(start, end));
            p.Some? ==> PeriodBounds(BuildPeriodLabel(start, end)) == Some((start, end))
  {
    ParseFormat(MonthOf(start));
    assert |FormatDate(start) + "~" + FormatDate(end)| > 7;
  }

  /** The last month's bounds are the previous period's, with the end one second earlier. */
  lemma LastMonthIsPrevious(now: int)
    requires now >= FIRST && 0 < MonthOf(now) <= 120000
    ensures var (start, end) := LastMonthBounds(now);
            PeriodBounds(FormatMonth(MonthOf(now) - 1)) == Some((start, end + 1))
  {
    var m := MonthOf(now) - 1;
    NextStart(m);
    MonthIs(StartTS(m + 1) - 1, m);
    BoundsExist(m);
  }

  lemma LabelOfMonth(v: nat, m: nat)
    requires v < 120000 && 0 < m < 120000
    ensures LabelIn(FormatMonth(v), m) == CurrentMonth <==> v == m
    ensures LabelIn(FormatMonth(v), m) == LastMonth <==> v == m - 1
  {
    FormatsDiffer(v, m);
    FormatsDiffer(v, m - 1);
  }

  /** In month m, exactly m and the month before it have a label. */
  lemma LabelMeans(period: string, m: nat)
    requires 0 < m < 120000 && ParsePeriod(period).Some?
    ensures LabelIn(period, m) == CurrentMonth <==> ParsePeriod(period).value == m
    ensures LabelIn(period, m) == LastMonth <==> ParsePeriod(period).value == m - 1
  {
    FormatParse(period);
    LabelOfMonth(ParsePeriod(period).value, m);
  }

  /** The period_start that a tick stores for a label, from the time at which it picked its period. */
  function StoredStart(l: Label, picked: int): int
    requires l != NoLabel && picked >= FIRST && MonthOf(picked) > 0
  {
    if l == CurrentMonth then CurrentMonthBounds(picked).0 else LastMonthBounds(picked).0
  }

  lemma StoredIs(l: Label, picked: int)
    requires l != NoLabel && picked >= FIRST && 0 < MonthOf(picked) <= 120000
    ensures StoredStart(l, picked) == StartTS(if l == CurrentMonth then MonthOf(picked) else MonthOf(picked) - 1)
  {
    LastMonthIsPrevious(picked);
    ParseFormat(MonthOf(picked) - 1);
  }

  lemma StartsDiffer(m: nat, n: nat)
    ensures StartTS(m) == StartTS(n) <==> m == n
  {
    if m < n {
      StartsRise(m, n);
    } else if n < m {
      StartsRise(n, m);
    }
  }

  /**
   * A cached row read for a period begins where the period begins exactly when the tick picked it
   * in the same Shanghai month as the one in which it is read.
   */
  lemma CachedStartIff(period: string, picked: int, read: int)
    requires picked >= FIRST && read >= FIRST && 0 < MonthOf(picked) <= 120000 && 0 < MonthOf(read) < 120000
    requires ParsePeriod(period).Some? && MapPeriodToLabel(period, read) != NoLabel
    ensures StoredStart(MapPeriodToLabel(period, read), picked) == PeriodBounds(period).value.0
       <==> MonthOf(picked) == MonthOf(read)
  {
    var l := MapPeriodToLabel(period, read);
    LabelMeans(period, MonthOf(read));
    StoredIs(l, picked);
    StartsDiffer(if l == CurrentMonth then MonthOf(picked) else MonthOf(picked) - 1, ParsePeriod(period).value);
  }
}
