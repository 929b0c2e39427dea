/** Which dates banks are closed on, said of civil dates, and deadlines worked out on the shipped calendar. */
module BankingDays {
  import opened Common
  import opened Banking

  /** How many days into its week a date is, counted from Monday 26 January 2026. */
  function DayOfWeek(c: Civil): int { (Ordinal(c) - Ordinal(Civil(2026, 1, 26))) % 7 }

  const SATURDAY := 5
  const SUNDAY := 6

  lemma DayOfWeekIsWeekday(c: Civil)
    ensures DayOfWeek(c) == Weekday(Ordinal(c))
  {
    assert Ordinal(Civil(2026, 1, 26)) == 20_479;
    assert (Ordinal(c) - 20_479) % 7 == (Ordinal(c) + 3) % 7;
  }

  /** The Saturdays of the month up to this one are two or four exactly in the second and the fourth week
      of seven days. */
  lemma SecondOrFourth(c: Civil)
    requires IsDate(c) && DayOfWeek(c) == SATURDAY
    ensures 8 <= c.day <= 14 <==> |SameWeekdaysInMonth(Ordinal(c))| == 2
    ensures 22 <= c.day <= 28 <==> |SameWeekdaysInMonth(Ordinal(c))| == 4
  {
    CivilOfOrdinal(c);
    NthWeekdayCounts(Ordinal(c));
  }

  /** Without holidays banks are closed on Sundays and on the second and fourth Saturday of a month, and on no
      other date. */
  lemma ClosedIff(c: Civil)
    requires IsDate(c)
    ensures !IsBankingDay(Ordinal(c), {}) <==>
            || DayOfWeek(c) == SUNDAY
            || (DayOfWeek(c) == SATURDAY && |SameWeekdaysInMonth(Ordinal(c))| in {2, 4})
    ensures !IsBankingDay(Ordinal(c), {}) <==>
            || DayOfWeek(c) == SUNDAY
            || (DayOfWeek(c) == SATURDAY && (8 <= c.day <= 14 || 22 <= c.day <= 28))
  {
    DayOfWeekIsWeekday(c);
    CivilOfOrdinal(c);
    if DayOfWeek(c) == SATURDAY {
      SecondOrFourth(c);
      NthWeekdayCounts(Ordinal(c));
    }
  }

  /** And holidays close their own dates and no others. */
  lemma HolidaysClose(c: Civil, holidays: set<int>)
    requires IsDate(c)
    ensures IsBankingDay(Ordinal(c), holidays) <==> IsBankingDay(Ordinal(c), {}) && Ordinal(c) !in holidays
  {
  }

  lemma OrdinalsOf2026()
    ensures Ordinal(Civil(2026, 1, 1)) == 20_454 && Ordinal(Civil(2026, 1, 26)) == 20_479
    ensures forall h :: h in NATIONAL_HOLIDAYS_2026 ==> h == 20_454 || h == 20_479 || h > 20_500
    ensures 20_454 in NATIONAL_HOLIDAYS_2026 && 20_479 in NATIONAL_HOLIDAYS_2026
  {
  }

  predicate ClosedInJanuary(day: int) {
    || day == 1 || day == 26
    || (day - 26) % 7 == SUNDAY || ((day - 26) % 7 == SATURDAY && (8 <= day <= 14 || 22 <= day <= 28))
  }

  /** January 2026, by its days from the last of December. */
  lemma OpenInJanuary(december: int, day: int)
    requires 1 <= day <= 31 && december == 20_453
    ensures IsBankingDay(december + day, NATIONAL_HOLIDAYS_2026) <==> !ClosedInJanuary(day)
  {
    var c := Civil(2026, 1, day);
    OrdinalsOf2026();
    assert Ordinal(c) == december + day;
    ClosedIff(c);
    HolidaysClose(c, NATIONAL_HOLIDAYS_2026);
  }

  lemma NextAfterClosed(d: int, e: int, holidays: set<int>)
    requires d < e <= d + 60 && IsBankingDay(e, holidays) && forall f :: d < f < e ==> !IsBankingDay(f, holidays)
    ensures Advance(d, 1, holidays) == Some(e)
  {
    assert Advance(d, 0, holidays) == Some(d);
  }

  lemma NextInJanuary(december: int, day: int, next: int)
    requires december == 20_453 && 1 <= day < next <= 31
    requires !ClosedInJanuary(next) && forall k :: day < k < next ==> ClosedInJanuary(k)
    ensures Advance(december + day, 1, NATIONAL_HOLIDAYS_2026) == Some(december + next)
  {
    OpenInJanuary(december, next);
    forall f | december + day < f < december + next ensures !IsBankingDay(f, NATIONAL_HOLIDAYS_2026) {
      OpenInJanuary(december, f - december);
    }
    NextAfterClosed(december + day, december + next, NATIONAL_HOLIDAYS_2026);
  }

  /** A bank failure on Friday 9 January 2026: the tenth is a second Saturday, so T+1 ends a second before the
      midnight that begins Tuesday the thirteenth. */
  lemma SecondSaturdayIsSkipped(ts: int)
    requires 1_767_897_000 <= ts < 1_767_983_400
    ensures IstDate(ts) == Ordinal(Civil(2026, 1, 9)) && Usable(NATIONAL_HOLIDAYS_2026)
    ensures TatDeadline(ts, 1, NATIONAL_HOLIDAYS_2026) == 1_768_242_599
  {
    var december: int :| december == 20_453;
    ShippedCalendarUsable();
    NextInJanuary(december, 9, 12);
    DeadlineIs(ts, december + 9, december + 12, NATIONAL_HOLIDAYS_2026);
    OrdinalsOf2026();
  }

  lemma DeadlineIs(ts: int, d: int, e: int, holidays: set<int>)
    requires Usable(holidays) && EndOfDay(d) - DAY < ts <= EndOfDay(d) && Advance(d, 1, holidays) == Some(e)
    ensures IstDate(ts) == d && TatDeadline(ts, 1, holidays) == EndOfDay(e)
  {
  }

  /** Before a fourth Saturday, a Sunday and a Monday's holiday, one banking day after Friday 23 January 2026 is
      Tuesday the twenty-seventh. */
  lemma HolidayWeekendIsSkipped(friday: int)
    requires friday == Ordinal(Civil(2026, 1, 23))
    ensures Advance(friday, 1, NATIONAL_HOLIDAYS_2026) == Some(friday + 4)
  {
    NextInJanuary(friday - 23, 23, 27);
  }
}
