/**
  The civil date of a day number (crates/silta/src/time.rs), against a calendar that is
  only counted: the day after a date, by the length of its month.
 */
module Calendar {
  datatype Date = Date(year: int, month: int, day: int)

  // ------------------------------------------------------------------------------------
  // The Gregorian calendar

  predicate IsLeap(year: int) {
    year % 4 == 0 && (year % 100 != 0 || year % 400 == 0)
  }

  function DaysInMonth(year: int, month: int): int {
    if month == 2 then (if IsLeap(year) then 29 else 28)
    else if month == 4 || month == 6 || month == 9 || month == 11 then 30
    else 31
  }

  predicate ValidDate(date: Date) {
    1 <= date.month <= 12 && 1 <= date.day <= DaysInMonth(date.year, date.month)
  }

  function NextDay(date: Date): Date {
    if date.day < DaysInMonth(date.year, date.month) then Date(date.year, date.month, date.day + 1)
    else if date.month < 12 then Date(date.year, date.month + 1, 1)
    else Date(date.year + 1, 1, 1)
  }

  /** The date so many days after the first of January 1970, counted one day at a time. */
  function DateAfter(days: nat): Date {
    if days == 0 then Date(1970, 1, 1) else NextDay(DateAfter(days - 1))
  }

  predicate Before(a: Date, b: Date) {
    a.year < b.year || (a.year == b.year && (a.month < b.month || (a.month == b.month && a.day < b.day)))
  }

  // ------------------------------------------------------------------------------------
  // The arithmetic of the source

  /** Division of machine integers, which truncates toward zero, by a positive number. */
  function TruncatedDiv(a: int, b: int): int
    requires b > 0
  {
    if a >= 0 then a / b else -(-a / b)
  }

  function Era(z: int): int {
    TruncatedDiv(if z >= 0 then z else z - 146_096, 146_097)
  }

  function DayOfEra(z: int): int {
    z - Era(z) * 146_097
  }

  function YearOfEra(doe: int): int {
    (doe - doe / 1460 + doe / 36_524 - doe / 146_096) / 365
  }

  /** The days of an era before a year of it; years begin in March. */
  function YearStart(yoe: int): int {
    365 * yoe + yoe / 4 - yoe / 100
  }

  function MonthFrom(doy: int): int {
    (5 * doy + 2) / 153
  }

  /** The days of a year before a month of it, counted from March. */
  function MonthStart(mp: int): int {
    (153 * mp + 2) / 5
  }

  function CivilFromDays(days: int): Date {
    var z := days + 719_468;
    var doe := DayOfEra(z);
    var yoe := YearOfEra(doe);
    var y := yoe + Era(z) * 400;
    var doy := doe - YearStart(yoe);
    var mp := MonthFrom(doy);
    var d := doy - MonthStart(mp) + 1;
    var m := if mp < 10 then mp + 3 else mp - 9;
    Date(if m <= 2 then y + 1 else y, m, d)
  }

  /** The number of a date. */
  function DayNumber(date: Date): int {
    var y := if date.month <= 2 then date.year - 1 else date.year;
    var mp := if date.month <= 2 then date.month + 9 else date.month - 3;
    y / 400 * 146_097 + YearStart(y % 400) + MonthStart(mp) + date.day - 1 - 719_468
  }

  // ------------------------------------------------------------------------------------
  // The parts of a day number

  lemma EraRange(z: int)
    ensures Era(z) == z / 146_097 && DayOfEra(z) == z % 146_097
  {
  }

  /** A day of an era as century, four-year cycle, year of the cycle and day of the year. */
  predicate Parts(doe: int, c: int, f: int, k: int, doy: int) {
    && 0 <= c <= 3 && 0 <= f <= 24 && 0 <= k <= 3 && 0 <= doy <= 365
    && doe == 36_524 * c + 1461 * f + 365 * k + doy
    && (doy == 365 ==> k == 3 && (f == 24 ==> c == 3))
  }

  lemma PartsExist(doe: int) returns (c: int, f: int, k: int, doy: int)
    requires 0 <= doe <= 146_096
    ensures Parts(doe, c, f, k, doy)
  {
    c := if doe / 36_524 <= 3 then doe / 36_524 else 3;
    var r := doe - 36_524 * c;
    f := r / 1461;
    var g := r - 1461 * f;
    k := if g / 365 <= 3 then g / 365 else 3;
    doy := g - 365 * k;
  }

  lemma YearStartOf(c: int, f: int, k: int)
    requires 0 <= c <= 3 && 0 <= f <= 24 && 0 <= k <= 3
    ensures YearStart(100 * c + 4 * f + k) == 36_524 * c + 1461 * f + 365 * k
  {
    assert (100 * c + 4 * f + k) / 4 == 25 * c + f;
    assert (100 * c + 4 * f + k) / 100 == c;
  }

  /** The year found by the division is the one the day lies in. */
  lemma YearOfEraIs(doe: int, c: int, f: int, k: int, doy: int)
    requires Parts(doe, c, f, k, doy)
    ensures YearOfEra(doe) == 100 * c + 4 * f + k && doe - YearStart(YearOfEra(doe)) == doy
  {
    var g := 365 * k + doy;
    var b := if 24 * c + f + g >= 1460 then 1 else 0;
    assert doe / 1460 == 25 * c + f + b;
    CenturyOf(doe, c, f, g);
    assert (doe - doe / 1460 + doe / 36_524 - doe / 146_096) / 365 == 100 * c + 4 * f + k;
    YearStartOf(c, f, k);
  }

  lemma CenturyOf(doe: int, c: int, f: int, g: int)
    requires 0 <= c <= 3 && 0 <= f <= 24 && 0 <= g <= 1460 && doe == 36_524 * c + 1461 * f + g
    requires g == 1460 && f == 24 ==> c == 3
    ensures doe / 36_524 - doe / 146_096 == c
  {
    if doe == 146_096 {
    } else {
      assert doe / 36_524 == c;
      assert doe / 146_096 == 0;
    }
  }

  lemma MonthIs(mp: int, d: int)
    requires 0 <= mp <= 11 && 1 <= d && MonthStart(mp) + d <= (if mp == 11 then 366 else MonthStart(mp + 1))
    ensures MonthFrom(MonthStart(mp) + d - 1) == mp
  {
  }

  lemma MonthExists(doy: int)
    requires 0 <= doy <= 365
    ensures var mp := MonthFrom(doy);
            0 <= mp <= 11 && MonthStart(mp) <= doy < (if mp == 11 then 366 else MonthStart(mp + 1))
  {
  }

  /** The year that ends with a February of 29 days is the leap year. */
  lemma LeapOf(era: int, c: int, f: int, k: int)
    requires 0 <= c <= 3 && 0 <= f <= 24 && 0 <= k <= 3
    ensures IsLeap(400 * era + 100 * c + 4 * f + k + 1) <==> k == 3 && (f == 24 ==> c == 3)
  {
    var y := 400 * era + 100 * c + 4 * f + k + 1;
    var q := 100 * era + 25 * c + f;
    if k < 3 {
      Remainders(q, k + 1, 0, 0, 0, 0);
    } else if f < 24 {
      Remainders(q + 1, 0, 4 * era + c, 4 * f + 4, 0, 0);
    } else if c < 3 {
      Remainders(q + 1, 0, 4 * era + c + 1, 0, era, 100 * c + 100);
    } else {
      Remainders(q + 1, 0, 4 * era + c + 1, 0, era + 1, 0);
    }
  }

  lemma Remainders(p: int, i: int, q: int, j: int, r: int, k: int)
    requires 0 <= i < 4 && 0 <= j < 100 && 0 <= k < 400
    ensures (4 * p + i) % 4 == i && (100 * q + j) % 100 == j && (400 * r + k) % 400 == k
  {
  }

  /** The ranges of the intermediate values, as the source notes them. */
  lemma Ranges(days: int)
    ensures var doe := DayOfEra(days + 719_468);
            var yoe := YearOfEra(doe);
            var doy := doe - YearStart(yoe);
            var mp := MonthFrom(doy);
            && 0 <= doe <= 146_096 && 0 <= yoe <= 399 && 0 <= doy <= 365 && 0 <= mp <= 11
            && 1 <= CivilFromDays(days).day <= 31 && 1 <= CivilFromDays(days).month <= 12
  {
    EraRange(days + 719_468);
    var c, f, k, doy := PartsExist(DayOfEra(days + 719_468));
    YearOfEraIs(DayOfEra(days + 719_468), c, f, k, doy);
    MonthExists(doy);
  }

  /** A date with its year given by parts. */
  lemma NumberOf(date: Date, era: int, c: int, f: int, k: int, mp: int)
    requires 0 <= c <= 3 && 0 <= f <= 24 && 0 <= k <= 3 && 0 <= mp <= 11
    requires date.month == (if mp < 10 then mp + 3 else mp - 9)
    requires date.year == 400 * era + 100 * c + 4 * f + k + (if mp < 10 then 0 else 1)
    ensures DayNumber(date) == era * 146_097 + 36_524 * c + 1461 * f + 365 * k + MonthStart(mp) + date.day - 1 - 719_468
  {
    var y := 400 * era + 100 * c + 4 * f + k;
    assert y / 400 == era && y % 400 == 100 * c + 4 * f + k;
    YearStartOf(c, f, k);
  }

  /** The date computed is a date of the calendar, and has the number it was computed from. */
  lemma CivilHasItsNumber(days: int)
    ensures ValidDate(CivilFromDays(days)) && DayNumber(CivilFromDays(days)) == days
  {
    hide DayNumber, IsLeap, YearStart, YearOfEra, Era, DayOfEra;
    var z := days + 719_468;
    EraRange(z);
    var era, doe := Era(z), DayOfEra(z);
    var c, f, k, doy := PartsExist(doe);
    YearOfEraIs(doe, c, f, k, doy);
    MonthExists(doy);
    var mp := MonthFrom(doy);
    var date := CivilFromDays(days);
    NumberOf(date, era, c, f, k, mp);
    LeapOf(era, c, f, k);
  }

  /** The months from March on follow each other, and February ends the year. */
  lemma MonthLength(year: int, month: int)
    requires 1 <= month <= 12
    ensures var mp := if month <= 2 then month + 9 else month - 3;
            if month == 2 then MonthStart(mp) == 337 else MonthStart(mp) + DaysInMonth(year, month) == MonthStart(mp + 1) <= 337
  {
  }

  lemma YearParts(y: int) returns (era: int, c: int, f: int, k: int)
    ensures 0 <= c <= 3 && 0 <= f <= 24 && 0 <= k <= 3 && y == 400 * era + 100 * c + 4 * f + k
  {
    era := y / 400;
    var r := y - 400 * era;
    c := r / 100;
    f := (r - 100 * c) / 4;
    k := r - 100 * c - 4 * f;
  }

  lemma StartNonNegative(mp: nat)
    ensures 0 <= MonthStart(mp)
  {
  }

  lemma FirstMonth()
    ensures MonthStart(0) == 0
  {
  }

  lemma CivilOf(era: int, doe: int, c: int, f: int, k: int, mp: int, d: int)
    requires 0 <= mp <= 11 && 1 <= d && MonthStart(mp) + d <= (if mp == 11 then 366 else MonthStart(mp + 1))
    requires Parts(doe, c, f, k, MonthStart(mp) + d - 1)
    ensures var y := 400 * era + 100 * c + 4 * f + k;
            CivilFromDays(era * 146_097 + doe - 719_468)
            == Date(if mp < 10 then y else y + 1, if mp < 10 then mp + 3 else mp - 9, d)
  {
    EraOf(era, doe);
    hide YearStart, YearOfEra, Era, MonthStart, MonthFrom;
    YearOfEraIs(doe, c, f, k, MonthStart(mp) + d - 1);
    MonthIs(mp, d);
  }

  lemma EraOf(era: int, doe: int)
    requires 0 <= doe <= 146_096
    ensures Era(era * 146_097 + doe) == era && DayOfEra(era * 146_097 + doe) == doe
  {
    EraRange(era * 146_097 + doe);
    hide Era;
  }

  /**
    The date computed for a day is the one date of the calendar with that number: the two
    computations are inverse to each other.
   */
  lemma CivilExactly(days: int, date: Date)
    ensures CivilFromDays(days) == date <==> ValidDate(date) && DayNumber(date) == days
  {
    hide DayNumber, IsLeap, YearStart, YearOfEra, Era, DayOfEra, CivilFromDays;
    CivilHasItsNumber(days);
    if ValidDate(date) && DayNumber(date) == days {
      var y := if date.month <= 2 then date.year - 1 else date.year;
      var mp := if date.month <= 2 then date.month + 9 else date.month - 3;
      var era, c, f, k := YearParts(y);
      NumberOf(date, era, c, f, k, mp);
      LeapOf(era, c, f, k);
      MonthLength(date.year, date.month);
      hide MonthStart;
      var doy := MonthStart(mp) + date.day - 1;
      StartNonNegative(mp);
      var doe := 36_524 * c + 1461 * f + 365 * k + doy;
      assert Parts(doe, c, f, k, doy);
      hide Parts;
      CivilOf(era, doe, c, f, k, mp, date.day);
    }
  }

  /** Numbers follow the calendar: the next day has the next number. */
  lemma NextNumber(date: Date)
    requires ValidDate(date)
    ensures ValidDate(NextDay(date)) && DayNumber(NextDay(date)) == DayNumber(date) + 1 && Before(date, NextDay(date))
  {
    hide DayNumber, IsLeap;
    var y := if date.month <= 2 then date.year - 1 else date.year;
    var mp := if date.month <= 2 then date.month + 9 else date.month - 3;
    var era, c, f, k := YearParts(y);
    NumberOf(date, era, c, f, k, mp);
    LeapOf(era, c, f, k);
    MonthLength(date.year, date.month);
    hide MonthStart;
    FirstMonth();
    var next := NextDay(date);
    if date.day < DaysInMonth(date.year, date.month) {
      NumberOf(next, era, c, f, k, mp);
    } else if date.month != 2 {
      NumberOf(next, era, c, f, k, mp + 1);
    } else {
      if k < 3 {
        NumberOf(next, era, c, f, k + 1, 0);
      } else if f < 24 {
        NumberOf(next, era, c, f + 1, 0, 0);
      } else if c < 3 {
        NumberOf(next, era, c + 1, 0, 0, 0);
      } else {
        NumberOf(next, era + 1, 0, 0, 0, 0);
      }
    }
  }

  /** For every day from 1970 on, the arithmetic gives the date that counting gives. */
  lemma {:induction false} CivilIsCounted(days: nat)
    ensures CivilFromDays(days) == DateAfter(days)
  {
    hide CivilFromDays, DayNumber, NextDay, ValidDate, Before;
    if days == 0 {
      Epoch();
    } else {
      CivilIsCounted(days - 1);
      CivilNext(days - 1);
    }
  }

  lemma Epoch()
    ensures CivilFromDays(0) == Date(1970, 1, 1)
  {
  }

  lemma CivilNext(days: int)
    ensures CivilFromDays(days + 1) == NextDay(CivilFromDays(days)) && Before(CivilFromDays(days), CivilFromDays(days + 1))
  {
    hide CivilFromDays, DayNumber, NextDay, ValidDate, Before;
    CivilHasItsNumber(days);
    NextNumber(CivilFromDays(days));
    CivilExactly(days + 1, NextDay(CivilFromDays(days)));
  }

  /** Later days have later dates. */
  lemma {:induction false} CivilOrder(a: int, b: int)
    requires a < b
    ensures Before(CivilFromDays(a), CivilFromDays(b))
    decreases b - a
  {
    hide CivilFromDays;
    CivilNext(b - 1);
    if a < b - 1 {
      CivilOrder(a, b - 1);
    }
  }
}
