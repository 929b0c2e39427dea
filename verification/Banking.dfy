/** The banking calendar of core/banking.py.

    A date is a day number: days since 1 January 1970. `CivilOf` is the civil calendar
    behind it, so the 2nd/4th-Saturday rule rests on real months. IST is UTC+05:30. */
module Banking {
  import opened Common

  const IST_OFFSET := 19_800
  const DAY := 86_400

  // ---------------------------------------------------------------- civil calendar

  datatype Civil = Civil(year: int, month: int, day: int)

  predicate Leap(year: int) {
    year % 4 == 0 && (year % 100 != 0 || year % 400 == 0)
  }

  function MonthLength(year: int, month: int): int {
    if month == 2 then (if Leap(year) then 29 else 28)
    else if month == 4 || month == 6 || month == 9 || month == 11 then 30
    else 31
  }

  predicate IsDate(c: Civil) {
    1 <= c.month <= 12 && 1 <= c.day <= MonthLength(c.year, c.month)
  }

  function Tomorrow(c: Civil): Civil {
    if c.day < MonthLength(c.year, c.month) then c.(day := c.day + 1)
    else if c.month < 12 then Civil(c.year, c.month + 1, 1)
    else Civil(c.year + 1, 1, 1)
  }

  function Yesterday(c: Civil): Civil {
    if c.day > 1 then c.(day := c.day - 1)
    else if c.month > 1 then Civil(c.year, c.month - 1, MonthLength(c.year, c.month - 1))
    else Civil(c.year - 1, 12, 31)
  }

  /** The civil date of a day number, counted one day at a time from the epoch. */
  function CivilOf(d: int): (c: Civil)
    ensures IsDate(c)
    decreases if d < 0 then -d else d
  {
    if d == 0 then Civil(1970, 1, 1)
    else if d > 0 then Tomorrow(CivilOf(d - 1))
    else Yesterday(CivilOf(d + 1))
  }

  function DaysBeforeMonth(year: int, month: int): int {
    var leap := if Leap(year) && month > 2 then 1 else 0;
    leap + (match month
            case 2 => 31 case 3 => 59 case 4 => 90 case 5 => 120 case 6 => 151 case 7 => 181
            case 8 => 212 case 9 => 243 case 10 => 273 case 11 => 304 case 12 => 334
            case _ => 0)
  }

  /** Days in the years 1..y, by the closed formula of the proleptic Gregorian calendar. */
  function DaysThroughYear(y: int): int {
    365 * y + y / 4 - y / 100 + y / 400
  }

  /** Day number of a civil date by that formula. */
  function Ordinal(c: Civil): int {
    DaysThroughYear(c.year - 1) + DaysBeforeMonth(c.year, c.month) + c.day - 719_163
  }

  lemma QuotientStep(y: int, n: int)
    requires n == 4 || n == 100 || n == 400
    ensures y / n == (y - 1) / n + (if y % n == 0 then 1 else 0)
  {
  }

  lemma YearStep(y: int)
    ensures DaysThroughYear(y) == DaysThroughYear(y - 1) + (if Leap(y) then 366 else 365)
  {
    QuotientStep(y, 4);
    QuotientStep(y, 100);
    QuotientStep(y, 400);
  }

  lemma OrdinalOfTomorrow(c: Civil)
    requires IsDate(c)
    ensures Ordinal(Tomorrow(c)) == Ordinal(c) + 1
  {
    if c.day == MonthLength(c.year, c.month) {
      if c.month == 12 {
        YearStep(c.year);
      } else {
        MonthStep(c.year, c.month);
      }
    }
  }

  lemma MonthStep(year: int, month: int)
    requires 1 <= month < 12
    ensures DaysBeforeMonth(year, month + 1) == DaysBeforeMonth(year, month) + MonthLength(year, month)
  {
  }

  lemma {:induction false} OrdinalOfCivil(d: int)
    ensures Ordinal(CivilOf(d)) == d
    decreases if d < 0 then -d else d
  {
    if d > 0 {
      OrdinalOfCivil(d - 1);
      OrdinalOfTomorrow(CivilOf(d - 1));
    } else if d < 0 {
      OrdinalOfCivil(d + 1);
      assert Tomorrow(CivilOf(d)) == CivilOf(d + 1);
      OrdinalOfTomorrow(CivilOf(d));
    }
  }

  lemma EpochIsDayZero(c: Civil)
    requires IsDate(c) && Ordinal(c) == 0
    ensures c == Civil(1970, 1, 1)
  {
    assert 0 <= DaysBeforeMonth(c.year, c.month) + c.day - 1 <= 365;
  }

  /** The day count and the closed formula are inverse: day numbers are exactly the civil dates. */
  lemma {:induction false} CivilOfOrdinal(c: Civil)
    requires IsDate(c)
    ensures CivilOf(Ordinal(c)) == c
    decreases if Ordinal(c) < 0 then -Ordinal(c) else Ordinal(c)
  {
    if Ordinal(c) == 0 {
      EpochIsDayZero(c);
    } else if Ordinal(c) > 0 {
      assert Tomorrow(Yesterday(c)) == c;
      OrdinalOfTomorrow(Yesterday(c));
      CivilOfOrdinal(Yesterday(c));
    } else {
      OrdinalOfTomorrow(c);
      CivilOfOrdinal(Tomorrow(c));
      assert Yesterday(Tomorrow(c)) == c;
    }
  }

  // ------------------------------------------------------------------ banking days

  function IstDate(ts: int): int { (ts + IST_OFFSET) / DAY }

  /** Monday is 0; day 0 was a Thursday. */
  function Weekday(d: int): int { (d + 3) % 7 }

  function NthWeekdayOfMonth(d: int): int { (CivilOf(d).day - 1) / 7 + 1 }

  predicate IsBankingDay(d: int, holidays: set<int>) {
    && Weekday(d) != 6
    && !(Weekday(d) == 5 && (NthWeekdayOfMonth(d) == 2 || NthWeekdayOfMonth(d) == 4))
    && d !in holidays
  }

  predicate SameMonth(a: int, b: int) {
    CivilOf(a).year == CivilOf(b).year && CivilOf(a).month == CivilOf(b).month
  }

  lemma {:induction false} DaysBackInMonth(d: int, k: nat)
    requires k < CivilOf(d).day
    ensures CivilOf(d - k) == CivilOf(d).(day := CivilOf(d).day - k)
  {
    if k > 0 {
      DaysBackInMonth(d, k - 1);
      var e := d - k;
      assert CivilOf(e) == Yesterday(CivilOf(e + 1)) by {
        if e >= 0 { assert CivilOf(e + 1) == Tomorrow(CivilOf(e)); }
      }
    }
  }

  /** The dates of d's month up to d are the last `day` dates. */
  lemma MonthSoFar(d: int, e: int)
    requires e <= d
    ensures SameMonth(e, d) <==> d - CivilOf(d).day < e
  {
    if d - CivilOf(d).day < e {
      DaysBackInMonth(d, d - e);
    } else if SameMonth(e, d) {
      OrdinalOfCivil(d);
      OrdinalOfCivil(e);
      assert false;
    }
  }

  ghost function SameWeekdaysInMonth(d: int): set<int> {
    set e | d - 31 <= e <= d && SameMonth(e, d) && Weekday(e) == Weekday(d)
  }

  lemma SameWeekdayStep(d: int, e: int)
    requires e <= d
    ensures Weekday(e) == Weekday(d) <==> exists k: nat :: e == d - 7 * k
  {
    if Weekday(e) == Weekday(d) {
      assert e == d - 7 * ((d - e) / 7);
    }
  }

  /** `nth_weekday_of_month` counts the dates of the month up to d that share d's weekday. */
  lemma NthWeekdayCounts(d: int)
    ensures NthWeekdayOfMonth(d) == |SameWeekdaysInMonth(d)|
  {
    var n, s := NthWeekdayOfMonth(d), SameWeekdaysInMonth(d);
    forall e ensures e in s <==> exists k: nat :: k < n && e == d - 7 * k {
      if e <= d {
        MonthSoFar(d, e);
        SameWeekdayStep(d, e);
      }
    }
    EverySeventh(d, n, s);
  }

  lemma {:induction false} EverySeventh(d: int, n: nat, s: set<int>)
    requires forall e :: e in s <==> exists k: nat :: k < n && e == d - 7 * k
    ensures |s| == n
  {
    if n == 0 {
      forall e ensures e !in s {
      }
      assert s == {};
    } else {
      var last := d - 7 * (n - 1);
      assert last in s;
      EverySeventh(d, n - 1, s - {last});
    }
  }

  datatype CalendarError = NegativeCount | NoBankingDay

  /** The first banking day among the dates probe, ..., last. */
  function FirstBankingDay(probe: int, last: int, holidays: set<int>): (r: Option<int>)
    ensures r.Some? ==> probe <= r.value <= last && IsBankingDay(r.value, holidays)
    ensures r.Some? ==> forall e :: probe <= e < r.value ==> !IsBankingDay(e, holidays)
    ensures r.None? ==> forall e :: probe <= e <= last ==> !IsBankingDay(e, holidays)
    decreases last - probe
  {
    if last < probe then None
    else if IsBankingDay(probe, holidays) then Some(probe)
    else FirstBankingDay(probe + 1, last, holidays)
  }

  /** The first banking day strictly after d, looking 60 dates ahead. */
  function NextBankingDay(d: int, holidays: set<int>): Option<int> {
    FirstBankingDay(d + 1, d + 60, holidays)
  }

  /** `next_banking_day`: the least banking day after d, or the error when 60 dates hold none. */
  method NextBankingDayLoop(d: int, holidays: set<int>) returns (r: Result<int, CalendarError>)
    ensures r.Ok? ==> d < r.value <= d + 60 && IsBankingDay(r.value, holidays)
    ensures r.Ok? ==> forall e :: d < e < r.value ==> !IsBankingDay(e, holidays)
    ensures r.Err? <==> forall e :: d < e <= d + 60 ==> !IsBankingDay(e, holidays)
    ensures r.Err? ==> r.error == NoBankingDay
    ensures r.Ok? <==> NextBankingDay(d, holidays).Some?
    ensures r.Ok? ==> NextBankingDay(d, holidays) == Some(r.value)
  {
    var probe := d + 1;
    for i := 0 to 60
      invariant probe == d + 1 + i
      invariant forall e :: d < e < probe ==> !IsBankingDay(e, holidays)
      invariant NextBankingDay(d, holidays) == FirstBankingDay(probe, d + 60, holidays)
    {
      if IsBankingDay(probe, holidays) {
        return Ok(probe);
      }
      probe := probe + 1;
    }
    return Err(NoBankingDay);
  }

  /** The calendars on which `next_banking_day` never raises. */
  ghost predicate Usable(holidays: set<int>) {
    forall d :: NextBankingDay(d, holidays).Some?
  }

  /** n banking days on from the date d. */
  function Advance(d: int, n: nat, holidays: set<int>): (r: Option<int>)
    ensures Usable(holidays) ==> r.Some?
    ensures r.Some? ==> d + n <= r.value
    ensures r.Some? && n > 0 ==> IsBankingDay(r.value, holidays)
  {
    if n == 0 then Some(d)
    else
      var e := Advance(d, n - 1, holidays);
      if e.None? then None else NextBankingDay(e.value, holidays)
  }

  /** `add_banking_days` */
  method AddBankingDays(ts: int, n: int, holidays: set<int>) returns (r: Result<int, CalendarError>)
    ensures n < 0 <==> r == Err(NegativeCount)
    ensures n >= 0 && r.Ok? ==> Advance(IstDate(ts), n, holidays) == Some(r.value)
    ensures n >= 0 && r.Err? ==> Advance(IstDate(ts), n, holidays).None?
  {
    if n < 0 {
      return Err(NegativeCount);
    }
    var d := IstDate(ts);
    for i := 0 to n
      invariant Advance(IstDate(ts), i, holidays) == Some(d)
    {
      var next := NextBankingDayLoop(d, holidays);
      if next.Err? {
        AdvanceStuck(IstDate(ts), i + 1, n, holidays);
        return next;
      }
      d := next.value;
    }
    return Ok(d);
  }

  lemma {:induction false} AdvanceStuck(d: int, m: nat, n: nat, holidays: set<int>)
    requires m <= n && Advance(d, m, holidays).None?
    ensures Advance(d, n, holidays).None?
  {
    if m < n {
      AdvanceStuck(d, m, n - 1, holidays);
    }
  }

  /** 23:59:59 IST on the date d. */
  function EndOfDay(d: int): int { d * DAY + DAY - 1 - IST_OFFSET }

  /** `tat_deadline` on a usable calendar. */
  function TatDeadline(ts: int, n: nat, holidays: set<int>): int
    requires Usable(holidays)
  {
    EndOfDay(Advance(IstDate(ts), n, holidays).value)
  }

  /** Banking days in the half-open span (from, to]. */
  function CountBankingDays(from: int, to: int, holidays: set<int>): nat
    decreases to - from
  {
    if to <= from then 0
    else CountBankingDays(from, to - 1, holidays) + (if IsBankingDay(to, holidays) then 1 else 0)
  }

  /** The value of `banking_days_between`. */
  function Between(startTs: int, endTs: int, holidays: set<int>): nat {
    if endTs <= startTs then 0 else CountBankingDays(IstDate(startTs), IstDate(endTs), holidays)
  }

  method BankingDaysBetween(startTs: int, endTs: int, holidays: set<int>) returns (n: nat)
    ensures n == Between(startTs, endTs, holidays)
  {
    if endTs <= startTs {
      return 0;
    }
    var d, endD := IstDate(startTs), IstDate(endTs);
    n := 0;
    while d < endD
      invariant IstDate(startTs) <= d <= endD
      invariant n == CountBankingDays(IstDate(startTs), d, holidays)
    {
      d := d + 1;
      if IsBankingDay(d, holidays) {
        n := n + 1;
      }
    }
  }

  function WithinTatWindow(failureTs: int, now: int, n: nat, holidays: set<int>): bool
    requires Usable(holidays)
  {
    now <= TatDeadline(failureTs, n, holidays)
  }

  function NaiveDeadline(failureTs: int, days: nat): int { failureTs + days * DAY }

  // --------------------------------------------------------------------- theorems

  ghost function WeekdaysAfter(d: int, n: nat): (s: set<int>)
    ensures forall e :: e in s <==> d < e <= d + n && Weekday(e) < 5
  {
    set e | d < e <= d + n && Weekday(e) < 5
  }

  function WeekdayIndicator(e: int): nat { if Weekday(e) < 5 then 1 else 0 }

  lemma WeekdayShift(e: int, k: nat)
    requires k < 7
    ensures Weekday(e + k) == if Weekday(e) + k < 7 then Weekday(e) + k else Weekday(e) + k - 7
  {
    var q := (e + 3) / 7;
    assert e + k + 3 == 7 * q + (Weekday(e) + k);
    assert Weekday(e) + k < 7 || e + k + 3 == 7 * (q + 1) + (Weekday(e) + k - 7);
  }

  lemma FiveOfSeven(e: int)
    ensures WeekdayIndicator(e) + WeekdayIndicator(e + 1) + WeekdayIndicator(e + 2) + WeekdayIndicator(e + 3)
            + WeekdayIndicator(e + 4) + WeekdayIndicator(e + 5) + WeekdayIndicator(e + 6) == 5
  {
    WeekdayShift(e, 1);
    WeekdayShift(e, 2);
    WeekdayShift(e, 3);
    WeekdayShift(e, 4);
    WeekdayShift(e, 5);
    WeekdayShift(e, 6);
  }

  lemma OneMoreDate(d: int, n: nat)
    ensures |WeekdaysAfter(d, n + 1)| == |WeekdaysAfter(d, n)| + WeekdayIndicator(d + n + 1)
  {
    var s, e := WeekdaysAfter(d, n), d + n + 1;
    if Weekday(e) < 5 {
      assert WeekdaysAfter(d, n + 1) == s + {e};
    } else {
      assert WeekdaysAfter(d, n + 1) == s;
    }
  }

  /** Any seven dates in a row hold five weekdays. */
  lemma WeekHasFiveWeekdays(d: int, n: nat)
    ensures |WeekdaysAfter(d, n + 7)| == |WeekdaysAfter(d, n)| + 5
  {
    OneMoreDate(d, n);
    OneMoreDate(d, n + 1);
    OneMoreDate(d, n + 2);
    OneMoreDate(d, n + 3);
    OneMoreDate(d, n + 4);
    OneMoreDate(d, n + 5);
    OneMoreDate(d, n + 6);
    FiveOfSeven(d + n + 1);
  }

  lemma {:induction false} WeeksOfWeekdays(d: int, weeks: nat)
    ensures |WeekdaysAfter(d, 7 * weeks)| == 5 * weeks
  {
    if weeks == 0 {
      assert WeekdaysAfter(d, 0) == {};
    } else {
      WeeksOfWeekdays(d, weeks - 1);
      WeekHasFiveWeekdays(d, 7 * (weeks - 1));
    }
  }

  /** Pigeonhole: fewer than 40 holidays among the next 60 dates leave a banking day. */
  lemma NextExists(d: int, holidays: set<int>)
    requires |set e | e in holidays && d < e <= d + 60| < 40
    ensures NextBankingDay(d, holidays).Some?
  {
    if NextBankingDay(d, holidays).None? {
      var near := set e | e in holidays && d < e <= d + 60;
      forall e | e in WeekdaysAfter(d, 56) ensures e in near {
        assert d + 1 <= e < d + 61;
        assert !IsBankingDay(e, holidays);
      }
      WeeksOfWeekdays(d, 8);
      SubsetCardinality(WeekdaysAfter(d, 56), near);
      assert false;
    }
  }

  const NATIONAL_HOLIDAYS_2026: set<int> := {
    Ordinal(Civil(2026, 1, 1)), Ordinal(Civil(2026, 1, 26)), Ordinal(Civil(2026, 3, 4)),
    Ordinal(Civil(2026, 4, 1)), Ordinal(Civil(2026, 4, 3)), Ordinal(Civil(2026, 5, 1)),
    Ordinal(Civil(2026, 8, 15)), Ordinal(Civil(2026, 10, 2)), Ordinal(Civil(2026, 11, 8)),
    Ordinal(Civil(2026, 12, 25))
  }

  /** A calendar of fewer than forty holidays never raises, for any date. */
  lemma FewHolidaysUsable(holidays: set<int>)
    requires |holidays| < 40
    ensures Usable(holidays)
  {
    forall d ensures NextBankingDay(d, holidays).Some? {
      var near := set e | e in holidays && d < e <= d + 60;
      SubsetCardinality(near, holidays);
      NextExists(d, holidays);
    }
  }

  /** The shipped calendar is one. */
  lemma ShippedCalendarUsable()
    ensures Usable(NATIONAL_HOLIDAYS_2026)
  {
    assert |NATIONAL_HOLIDAYS_2026| <= 10;
    FewHolidaysUsable(NATIONAL_HOLIDAYS_2026);
  }

  lemma {:induction false} CountAdditive(a: int, b: int, c: int, holidays: set<int>)
    requires a <= b <= c
    ensures CountBankingDays(a, c, holidays) == CountBankingDays(a, b, holidays) + CountBankingDays(b, c, holidays)
    decreases c - b
  {
    if b < c {
      CountAdditive(a, b, c - 1, holidays);
    }
  }

  lemma {:induction false} CountEmpty(a: int, b: int, holidays: set<int>)
    requires forall e :: a < e <= b ==> !IsBankingDay(e, holidays)
    ensures CountBankingDays(a, b, holidays) == 0
    decreases b - a
  {
    if a < b {
      CountEmpty(a, b - 1, holidays);
    }
  }

  /** Advancing n banking days lands where exactly n banking days have passed. */
  lemma {:induction false} AdvanceCounts(d: int, n: nat, holidays: set<int>)
    requires Advance(d, n, holidays).Some?
    ensures CountBankingDays(d, Advance(d, n, holidays).value, holidays) == n
  {
    if n > 0 {
      AdvanceCounts(d, n - 1, holidays);
      var e, f := Advance(d, n - 1, holidays).value, Advance(d, n, holidays).value;
      CountAdditive(d, e, f, holidays);
      CountEmpty(e, f - 1, holidays);
    }
  }

  /** For n > 0, `Advance` is the only banking day at which the count is n. */
  lemma AdvanceUnique(d: int, n: nat, e: int, holidays: set<int>)
    requires Advance(d, n, holidays).Some? && n > 0
    ensures e == Advance(d, n, holidays).value
            <==> IsBankingDay(e, holidays) && CountBankingDays(d, e, holidays) == n
  {
    var f := Advance(d, n, holidays).value;
    AdvanceCounts(d, n, holidays);
    if IsBankingDay(e, holidays) && CountBankingDays(d, e, holidays) == n {
      if e < f {
        CountAdditive(d, e, f, holidays);
        CountAdditive(e, f - 1, f, holidays);
      } else if f < e {
        CountAdditive(d, f, e, holidays);
        CountAdditive(f, e - 1, e, holidays);
      }
    }
  }

  /** The banking day after a date that may not exist. */
  function NextAfter(d: Option<int>, holidays: set<int>): Option<int> {
    if d.None? then None else NextBankingDay(d.value, holidays)
  }

  lemma AdvanceStep(d: int, n: nat, holidays: set<int>)
    requires n > 0
    ensures Advance(d, n, holidays) == NextAfter(Advance(d, n - 1, holidays), holidays)
  {
  }

  lemma {:induction false} AdvanceComposes(d: int, m: nat, n: nat, holidays: set<int>)
    requires Advance(d, m, holidays).Some?
    ensures Advance(d, m + n, holidays) == Advance(Advance(d, m, holidays).value, n, holidays)
  {
    AdvanceFrom(d, m, Advance(d, m, holidays).value, n, holidays);
  }

  lemma {:induction false} AdvanceFrom(d: int, m: nat, e: int, n: nat, holidays: set<int>)
    requires Advance(d, m, holidays) == Some(e)
    ensures Advance(d, m + n, holidays) == Advance(e, n, holidays)
  {
    if n > 0 {
      AdvanceFrom(d, m, e, n - 1, holidays);
      AdvanceAlike(d, m + n, e, n, holidays);
    }
  }

  lemma AdvanceAlike(d: int, k: nat, e: int, n: nat, holidays: set<int>)
    requires k > 0 && n > 0 && Advance(d, k - 1, holidays) == Advance(e, n - 1, holidays)
    ensures Advance(d, k, holidays) == Advance(e, n, holidays)
  {
    AdvanceStep(d, k, holidays);
    AdvanceStep(e, n, holidays);
  }

  lemma NextMonotone(d: int, e: int, holidays: set<int>)
    requires d <= e && NextBankingDay(d, holidays).Some? && NextBankingDay(e, holidays).Some?
    ensures NextBankingDay(d, holidays).value <= NextBankingDay(e, holidays).value
  {
    var f := NextBankingDay(e, holidays).value;
    assert IsBankingDay(f, holidays);
  }

  /** Later start and longer wait never end sooner. */
  lemma {:induction false} AdvanceMonotone(d: int, e: int, m: nat, n: nat, holidays: set<int>)
    requires d <= e && m <= n && Usable(holidays)
    ensures Advance(d, m, holidays).value <= Advance(e, n, holidays).value
  {
    if m == n {
      if n > 0 {
        AdvanceMonotone(d, e, n - 1, n - 1, holidays);
        NextMonotone(Advance(d, n - 1, holidays).value, Advance(e, n - 1, holidays).value, holidays);
      }
    } else {
      AdvanceMonotone(d, e, m, n - 1, holidays);
    }
  }

  lemma DeadlineMonotone(ts: int, us: int, m: nat, n: nat, holidays: set<int>)
    requires ts <= us && m <= n && Usable(holidays)
    ensures TatDeadline(ts, m, holidays) <= TatDeadline(us, n, holidays)
  {
    AdvanceMonotone(IstDate(ts), IstDate(us), m, n, holidays);
  }

  /** The banking deadline is never earlier than n times 24 hours. */
  lemma DeadlineNeverEarly(ts: int, n: nat, holidays: set<int>)
    requires Usable(holidays)
    ensures NaiveDeadline(ts, n) <= TatDeadline(ts, n, holidays)
  {
    assert IstDate(ts) + n <= Advance(IstDate(ts), n, holidays).value;
  }

  /** Counting undoes advancing: from ts to the deadline there are n banking days. */
  lemma CountUndoesAdvance(ts: int, n: nat, holidays: set<int>)
    requires Usable(holidays)
    ensures Between(ts, TatDeadline(ts, n, holidays), holidays) == n
  {
    AdvanceCounts(IstDate(ts), n, holidays);
    assert IstDate(TatDeadline(ts, n, holidays)) == Advance(IstDate(ts), n, holidays).value;
  }

  lemma BetweenAdditive(a: int, b: int, c: int, holidays: set<int>)
    requires a <= b <= c
    ensures Between(a, c, holidays) == Between(a, b, holidays) + Between(b, c, holidays)
  {
    CountAdditive(IstDate(a), IstDate(b), IstDate(c), holidays);
  }

  /** When the window is open, by elapsed banking days: exactly. */
  lemma WindowByElapsedDays(ts: int, now: int, n: nat, holidays: set<int>)
    requires ts <= now && Usable(holidays)
    ensures Between(ts, now, holidays) < n ==> WithinTatWindow(ts, now, n, holidays)
    ensures Between(ts, now, holidays) > n ==> !WithinTatWindow(ts, now, n, holidays)
    ensures Between(ts, now, holidays) == n ==>
              (WithinTatWindow(ts, now, n, holidays) <==> IstDate(now) == Advance(IstDate(ts), n, holidays).value)
  {
    var d, e, f := IstDate(ts), IstDate(now), Advance(IstDate(ts), n, holidays).value;
    AdvanceCounts(d, n, holidays);
    if e <= f {
      CountAdditive(d, e, f, holidays);
      if e < f && n > 0 {
        CountAdditive(e, f - 1, f, holidays);
      }
    } else {
      CountAdditive(d, f, e, holidays);
    }
  }
}
