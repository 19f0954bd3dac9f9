/**
The build timestamp: seconds since the Unix epoch turned into a UTC date and time by a closed
form over eras of 146097 days, proved equal to counting days on the calendar.
*/
module Calendar {

  datatype Date = Date(year: int, month: int, day: int)

  datatype Instant = Instant(date: Date, hours: nat, minutes: nat, seconds: nat)

  // ---- The calendar as RFC 3339 states it (section 5.7 and Appendix C). ----

  predicate Leap(y: int) {
    y % 4 == 0 && (y % 100 != 0 || y % 400 == 0)
  }

  function MonthLength(y: int, m: int): int {
    if m == 2 then (if Leap(y) then 29 else 28)
    else if m == 4 || m == 6 || m == 9 || m == 11 then 30
    else 31
  }

  predicate ValidDate(d: Date) {
    1 <= d.month <= 12 && 1 <= d.day <= MonthLength(d.year, d.month)
  }

  function NextDate(d: Date): Date {
    if d.day < MonthLength(d.year, d.month) then d.(day := d.day + 1)
    else if d.month < 12 then Date(d.year, d.month + 1, 1)
    else Date(d.year + 1, 1, 1)
  }

  const EPOCH := Date(1970, 1, 1)

  /** The date `n` days after the epoch, found by turning the calendar's pages. */
  function Advance(n: nat): Date {
    if n == 0 then EPOCH else NextDate(Advance(n - 1))
  }

  // ---- The closed form. ----

  /** Day of the era (0 to 146096) to year of the era, as computed. */
  function YearOfEra(doe: nat): (yoe: nat)
    requires doe < 146097
  {
    (doe - doe / 1460 + doe / 36524 - doe / 146096) / 365
  }

  /** Days before year `yoe` of an era; years begin on 1 March. */
  function YearStart(yoe: nat): (r: nat) {
    365 * yoe + yoe / 4 - yoe / 100
  }

  /** Length of the March-based year `y`: it ends with the February of `y + 1`. */
  function YearLength(y: int): nat {
    if Leap(y + 1) then 366 else 365
  }

  /** A day of the era by century, four-year cycle, year of the cycle and day of the year. */
  ghost predicate Digits(c: nat, q: nat, r: nat, doy: nat) {
    c < 4 && q < 25 && r < 4 && doy <= 365 && (doy == 365 ==> r == 3 && (q != 24 || c == 3))
  }

  lemma CenturyQuotients(c: nat, q: nat, r: nat, doy: nat)
    requires Digits(c, q, r, doy)
    ensures var doe := 36524 * c + 1461 * q + 365 * r + doy;
            doe < 146097 && doe / 36524 - doe / 146096 == c
  {
    var rest := 1461 * q + 365 * r + doy;
    assert rest < 36524 || (c == 3 && rest == 36524);
  }

  lemma CycleQuotient(c: nat, q: nat, r: nat, doy: nat)
    requires Digits(c, q, r, doy)
    ensures var doe := 36524 * c + 1461 * q + 365 * r + doy;
            doe - doe / 1460 + c ==
            365 * (100 * c + 4 * q + r) + (if 24 * c + q + 365 * r + doy >= 1460 then doy - 1 else doy)
  {
    var doe := 36524 * c + 1461 * q + 365 * r + doy;
    var w := 24 * c + q + 365 * r + doy;
    assert doe == 1460 * (25 * c + q) + w;
    assert w < 2920;
    assert doe / 1460 == 25 * c + q + (if w >= 1460 then 1 else 0);
  }

  lemma DigitsOfYear(yoe: nat, doy: nat) returns (c: nat, q: nat, r: nat)
    requires yoe < 400 && doy < YearLength(yoe)
    ensures Digits(c, q, r, doy) && yoe == 100 * c + 4 * q + r
    ensures YearStart(yoe) + doy == 36524 * c + 1461 * q + 365 * r + doy
  {
    c, q, r := yoe / 100, yoe % 100 / 4, yoe % 4;
    assert yoe / 4 == 25 * c + q;
  }

  /** The quotients of the closed form are exact: each day of the era falls in the year it computes. */
  lemma YearOfEraExact(yoe: nat, doy: nat)
    requires yoe < 400 && doy < YearLength(yoe)
    ensures YearStart(yoe) + doy < 146097
    ensures YearOfEra(YearStart(yoe) + doy) == yoe
  {
    var c, q, r := DigitsOfYear(yoe, doy);
    CenturyQuotients(c, q, r, doy);
    CycleQuotient(c, q, r, doy);
  }

  /** Every day of the era lies in one of its 400 years. */
  lemma YearOfDay(doe: nat) returns (yoe: nat)
    requires doe < 146097
    ensures yoe < 400 && YearStart(yoe) <= doe < YearStart(yoe) + YearLength(yoe)
  {
    yoe := 0;
    while yoe < 399 && doe >= YearStart(yoe + 1)
      invariant yoe < 400 && YearStart(yoe) <= doe
    {
      yoe := yoe + 1;
    }
  }

  /**
  `doe` decomposed without underflow: `doe - (365 * yoe + yoe / 4 - yoe / 100)` is a day of the year.
  */
  lemma DayOfYearInRange(doe: nat)
    requires doe < 146097
    ensures var yoe := YearOfEra(doe);
            yoe < 400 && YearStart(yoe) <= doe < YearStart(yoe) + YearLength(yoe)
  {
    var yoe := YearOfDay(doe);
    YearOfEraExact(yoe, doe - YearStart(yoe));
  }

  /** Day `doy` of the March-based year `y`, by the closed form for months. */
  function DateOf(y: int, doy: nat): (r: Date)
    requires doy <= 365
  {
    var mp: nat := (5 * doy + 2) / 153;
    var d: nat := doy - (153 * mp + 2) / 5 + 1;
    var m: nat := if mp < 10 then mp + 3 else mp - 9;
    Date(if m <= 2 then y + 1 else y, m, d)
  }

  /**
  Days since 1970-01-01 to a date. Every subtraction of the unsigned source is a subtraction of
  naturals here, so none of them underflows.
  */
  function CivilFromDays(days: nat): (r: Date) {
    var z := days + 719_468;
    var era := z / 146_097;
    var doe: nat := z % 146_097;
    DayOfYearInRange(doe);
    var yoe: nat := YearOfEra(doe);
    var doy: nat := doe - (365 * yoe + yoe / 4 - yoe / 100);
    DateOf(yoe + era * 400, doy)
  }

  lemma DateOfWithinYear(y: int, doy: nat)
    requires doy + 1 < YearLength(y)
    ensures ValidDate(DateOf(y, doy)) && DateOf(y, doy + 1) == NextDate(DateOf(y, doy))
  {
    var mp, mp' := (5 * doy + 2) / 153, (5 * (doy + 1) + 2) / 153;
    assert mp' == mp || mp' == mp + 1;
  }

  lemma DateOfYearEnd(y: int)
    ensures var last := DateOf(y, YearLength(y) - 1);
            ValidDate(last) && DateOf(y + 1, 0) == NextDate(last)
  {
  }

  lemma LeapAcrossEras(yoe: nat, era: nat)
    ensures YearLength(yoe + era * 400) == YearLength(yoe)
  {
    hide *;
    RemaindersRecur(yoe + 1, era);
    LengthByRemainders(yoe + era * 400, yoe);
  }

  lemma RemaindersRecur(y: int, era: int)
    ensures (y + era * 400) % 4 == y % 4 && (y + era * 400) % 100 == y % 100 && (y + era * 400) % 400 == y % 400
  {
    Recurs4(y, era * 100);
    Recurs100(y, era * 4);
    Recurs400(y, era);
  }

  lemma Recurs4(y: int, n: int)
    ensures (y + 4 * n) % 4 == y % 4
  {
  }

  lemma Recurs100(y: int, n: int)
    ensures (y + 100 * n) % 100 == y % 100
  {
  }

  lemma Recurs400(y: int, n: int)
    ensures (y + 400 * n) % 400 == y % 400
  {
  }

  lemma LengthByRemainders(x: int, y: int)
    requires (x + 1) % 4 == (y + 1) % 4 && (x + 1) % 100 == (y + 1) % 100 && (x + 1) % 400 == (y + 1) % 400
    ensures YearLength(x) == YearLength(y)
  {
  }

  lemma YearStartNext(yoe: nat)
    requires yoe < 400
    ensures yoe < 399 ==> YearStart(yoe + 1) == YearStart(yoe) + YearLength(yoe)
    ensures yoe == 399 ==> YearStart(yoe) + YearLength(yoe) == 146_097
    ensures YearStart(0) == 0 && YearLength(0) > 0 && YearLength(yoe) > 0
  {
  }

  /** The days of era `era`, year `yoe` of it, day `doy` of that year, converted. */
  lemma CivilOfDigits(days: nat, era: nat, yoe: nat, doy: nat)
    requires yoe < 400 && doy < YearLength(yoe)
    requires days + 719_468 == era * 146_097 + YearStart(yoe) + doy
    ensures CivilFromDays(days) == DateOf(yoe + era * 400, doy)
  {
    hide DateOf, YearOfEra;
    YearOfEraExact(yoe, doy);
    var z := days + 719_468;
    assert z / 146_097 == era && z % 146_097 == YearStart(yoe) + doy;
  }

  lemma DigitsOfDay(days: nat) returns (era: nat, yoe: nat, doy: nat)
    ensures yoe < 400 && doy < YearLength(yoe)
    ensures days + 719_468 == era * 146_097 + YearStart(yoe) + doy
  {
    var z := days + 719_468;
    era := z / 146_097;
    yoe := YearOfDay(z % 146_097);
    doy := z % 146_097 - YearStart(yoe);
  }

  /** One more day is the next date on the calendar, across months, years, centuries and eras. */
  lemma NextDayIsNextDate(days: nat)
    ensures ValidDate(CivilFromDays(days))
    ensures CivilFromDays(days + 1) == NextDate(CivilFromDays(days))
  {
    hide CivilFromDays, DateOf, NextDate, ValidDate, YearStart, YearLength;
    var era, yoe, doy := DigitsOfDay(days);
    CivilOfDigits(days, era, yoe, doy);
    LeapAcrossEras(yoe, era);
    YearStartNext(yoe);
    if doy + 1 < YearLength(yoe) {
      CivilOfDigits(days + 1, era, yoe, doy + 1);
      DateOfWithinYear(yoe + era * 400, doy);
    } else {
      DateOfYearEnd(yoe + era * 400);
      if yoe < 399 {
        YearStartNext(yoe + 1);
        CivilOfDigits(days + 1, era, yoe + 1, 0);
      } else {
        CivilOfDigits(days + 1, era + 1, 0, 0);
      }
    }
  }

  /** The closed form agrees with the calendar on every day. */
  lemma {:induction false} CivilFromDaysIsTheCalendar(days: nat)
    ensures CivilFromDays(days) == Advance(days)
  {
    hide CivilFromDays;
    if days > 0 {
      CivilFromDaysIsTheCalendar(days - 1);
      NextDayIsNextDate(days - 1);
    } else {
      CivilOfDigits(0, 4, 369, 306);
    }
  }

  // ---- Counting the days back. ----

  function DaysBeforeYear(y: int): nat
    requires 1970 <= y
  {
    if y == 1970 then 0 else DaysBeforeYear(y - 1) + (if Leap(y - 1) then 366 else 365)
  }

  function DaysBeforeMonth(y: int, m: int): nat
    requires 1 <= m <= 12
  {
    if m == 1 then 0 else DaysBeforeMonth(y, m - 1) + MonthLength(y, m - 1)
  }

  /** Days from the epoch to `d`, counted year by year and month by month. */
  function DayNumber(d: Date): nat
    requires ValidDate(d) && 1970 <= d.year
  {
    DaysBeforeYear(d.year) + DaysBeforeMonth(d.year, d.month) + d.day - 1
  }

  lemma DaysBeforeDecember(y: int)
    ensures DaysBeforeMonth(y, 12) + 31 == if Leap(y) then 366 else 365
  {
    assert DaysBeforeMonth(y, 2) == 31;
    assert DaysBeforeMonth(y, 3) == 31 + MonthLength(y, 2);
    assert DaysBeforeMonth(y, 5) == DaysBeforeMonth(y, 3) + 61;
    assert DaysBeforeMonth(y, 7) == DaysBeforeMonth(y, 5) + 61;
    assert DaysBeforeMonth(y, 9) == DaysBeforeMonth(y, 7) + 62;
    assert DaysBeforeMonth(y, 11) == DaysBeforeMonth(y, 9) + 61;
    assert DaysBeforeMonth(y, 12) == DaysBeforeMonth(y, 11) + 30;
  }

  lemma DayNumberOfNext(d: Date)
    requires ValidDate(d) && 1970 <= d.year
    ensures ValidDate(NextDate(d)) && DayNumber(NextDate(d)) == DayNumber(d) + 1
  {
    DaysBeforeDecember(d.year);
  }

  /** Counting days undoes the conversion. */
  lemma {:induction false} DayNumberRoundTrip(days: nat)
    ensures var d := CivilFromDays(days);
            ValidDate(d) && 1970 <= d.year && DayNumber(d) == days
  {
    hide CivilFromDays;
    if days > 0 {
      DayNumberRoundTrip(days - 1);
      NextDayIsNextDate(days - 1);
      DayNumberOfNext(CivilFromDays(days - 1));
    } else {
      CivilFromDaysIsTheCalendar(0);
    }
  }

  /** Every date from the epoch on is the conversion of its own day number. */
  lemma {:induction false} EveryDateIsReached(d: Date)
    requires ValidDate(d) && 1970 <= d.year
    ensures CivilFromDays(DayNumber(d)) == d
    decreases DayNumber(d)
  {
    hide CivilFromDays;
    if d == EPOCH {
      CivilFromDaysIsTheCalendar(0);
    } else {
      var prev :=
        if d.day > 1 then d.(day := d.day - 1)
        else if d.month > 1 then Date(d.year, d.month - 1, MonthLength(d.year, d.month - 1))
        else Date(d.year - 1, 12, 31);
      assert NextDate(prev) == d;
      DayNumberOfNext(prev);
      EveryDateIsReached(prev);
      NextDayIsNextDate(DayNumber(prev));
    }
  }

  // ---- The time of day. ----

  function FromSeconds(secs: nat): Instant {
    var timeOfDay := secs % 86400;
    Instant(CivilFromDays(secs / 86400), timeOfDay / 3600, timeOfDay % 3600 / 60, timeOfDay % 60)
  }

  function NextSecond(t: Instant): Instant {
    if t.seconds < 59 then t.(seconds := t.seconds + 1)
    else if t.minutes < 59 then t.(seconds := 0, minutes := t.minutes + 1)
    else if t.hours < 23 then t.(seconds := 0, minutes := 0, hours := t.hours + 1)
    else Instant(NextDate(t.date), 0, 0, 0)
  }

  /** One more second is the next second on the clock and, at midnight, the next date. */
  lemma ClockAdvances(secs: nat)
    ensures FromSeconds(secs).hours < 24 && FromSeconds(secs).minutes < 60 && FromSeconds(secs).seconds < 60
    ensures FromSeconds(secs + 1) == NextSecond(FromSeconds(secs))
  {
    hide CivilFromDays;
    var tod := secs % 86400;
    if tod == 86399 {
      assert (secs + 1) / 86400 == secs / 86400 + 1 && (secs + 1) % 86400 == 0;
      NextDayIsNextDate(secs / 86400);
    } else {
      assert (secs + 1) / 86400 == secs / 86400 && (secs + 1) % 86400 == tod + 1;
      ClockDigits(tod);
    }
  }

  lemma ClockDigits(tod: nat)
    requires tod < 86399
    ensures var (h, m, s) := (tod / 3600, tod % 3600 / 60, tod % 60);
            var (h', m', s') := ((tod + 1) / 3600, (tod + 1) % 3600 / 60, (tod + 1) % 60);
            h < 24 && (h', m', s') ==
              if s < 59 then (h, m, s + 1) else if m < 59 then (h, m + 1, 0) else (h + 1, 0, 0)
  {
    var h, m, s := tod / 3600, tod % 3600 / 60, tod % 60;
    assert tod == 3600 * h + 60 * m + s;
  }

  /** The timestamp names its instant: no two second counts format alike. */
  lemma SecondsRoundTrip(secs: nat)
    ensures var t := FromSeconds(secs);
            ValidDate(t.date) && 1970 <= t.date.year &&
            secs == DayNumber(t.date) * 86400 + t.hours * 3600 + t.minutes * 60 + t.seconds
  {
    hide CivilFromDays, DayNumber, ValidDate;
    DayNumberRoundTrip(secs / 86400);
  }
}
