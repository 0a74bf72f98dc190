/** The date an invite expires on, as the server prints it. */
module Calendar {

  datatype Date = Date(year: nat, month: nat, day: nat)

  datatype Moment = Moment(date: Date, hour: nat, minute: nat)

  // ---- The calendar (RFC 3339, section 5.7 and Appendix C) -----------------------------

  predicate IsLeap(year: nat) {
    year % 4 == 0 && (year % 100 != 0 || year % 400 == 0)
  }

  function DaysIn(year: nat, month: nat): nat {
    if month == 2 then (if IsLeap(year) then 29 else 28)
    else if month == 4 || month == 6 || month == 9 || month == 11 then 30
    else 31
  }

  predicate IsDate(d: Date) {
    1 <= d.month <= 12 && 1 <= d.day <= DaysIn(d.year, d.month)
  }

  function NextDay(d: Date): Date {
    if d.day < DaysIn(d.year, d.month) then d.(day := d.day + 1)
    else if d.month < 12 then Date(d.year, d.month + 1, 1)
    else Date(d.year + 1, 1, 1)
  }

  /** The date `days` days after 1970-01-01, counted one by one. */
  function DayAfterEpoch(days: nat): Date {
    if days == 0 then Date(1970, 1, 1) else NextDay(DayAfterEpoch(days - 1))
  }

  // ---- What the server computes --------------------------------------------------------

  const DAYS_TO_1970: nat := 719_468
  const ERA: nat := 146_097

  /** Which year of its era a day is in, years running from March to February. */
  function YearOfEra(dayOfEra: nat): nat
    requires dayOfEra < ERA
  {
    (dayOfEra - dayOfEra / 1460 + dayOfEra / 36_524 - dayOfEra / 146_096) / 365
  }

  /** How many days of the era come before a year of it. */
  function YearStart(year: nat): nat {
    365 * year + year / 4 - year / 100
  }

  function MonthOf(dayOfYear: nat): nat {
    (5 * dayOfYear + 2) / 153
  }

  /** How many days of the shifted year come before a month of it. */
  function MonthStart(month: nat): nat {
    (153 * month + 2) / 5
  }

  function IsJanuaryOrFebruary(month: nat): nat {
    if month <= 2 then 1 else 0
  }

  function FromEra(era: nat, year: nat, dayOfYear: nat): Date
    requires dayOfYear <= 365
  {
    var shifted := MonthOf(dayOfYear);
    MonthHolds(dayOfYear);
    var month := if shifted < 10 then shifted + 3 else shifted - 9;
    Date(year + era * 400 + IsJanuaryOrFebruary(month), month, dayOfYear - MonthStart(shifted) + 1)
  }

  /** The Gregorian date of a day since 1970. Every subtraction is of naturals. */
  function Civil(days: nat): Date {
    var z := days + DAYS_TO_1970;
    InEra(z / ERA, z % ERA)
  }

  function InEra(era: nat, dayOfEra: nat): Date
    requires dayOfEra < ERA
  {
    var year := YearOfEra(dayOfEra);
    YearHolds(dayOfEra);
    FromEra(era, year, dayOfEra - YearStart(year))
  }

  function Utc(unix: nat): Moment {
    var seconds := unix % 86_400;
    Moment(Civil(unix / 86_400), seconds / 3600, seconds % 3600 / 60)
  }

  // ---- It is the calendar --------------------------------------------------------------

  /** How many days a year that starts in March has, by its place in the era. */
  function YearLength(year: nat): nat {
    if (year + 1) % 4 == 0 && ((year + 1) % 100 != 0 || (year + 1) % 400 == 0) then 366 else 365
  }

  /** The divisions that leave out leap days land on the year a day is in. */
  lemma YearHolds(dayOfEra: nat)
    requires dayOfEra < ERA
    ensures var year := YearOfEra(dayOfEra);
      year < 400 && YearStart(year) <= dayOfEra < YearStart(year) + YearLength(year)
  {
    if dayOfEra < 146_096 {
      var century := dayOfEra / 36_524;
      var rest := dayOfEra % 36_524;
      YearOfFour(century, rest / 1461, rest % 1461, dayOfEra);
    }
  }

  /** A day by its century, its four years there, and its day among those. */
  lemma YearOfFour(century: nat, fours: nat, day: nat, dayOfEra: nat)
    requires century <= 3 && fours <= 24 && day <= 1460 && (fours == 24 ==> day <= 1459)
    requires dayOfEra == 36_524 * century + 1461 * fours + day
    ensures dayOfEra < 146_096
    ensures var year := YearOfEra(dayOfEra);
      year < 400 && YearStart(year) <= dayOfEra < YearStart(year) + YearLength(year)
  {
    var extra := if 24 * century + fours + day >= 1460 then 1 else 0;
    var among := if day == 1460 then 3 else day / 365;
    assert dayOfEra / 1460 == 25 * century + fours + extra;
    assert dayOfEra / 36_524 == century;
    assert (36_500 * century + 1460 * fours + day - extra) / 365 == 100 * century + 4 * fours + among;
    var year := 100 * century + 4 * fours + among;
    assert YearOfEra(dayOfEra) == year;
    assert year / 4 == 25 * century + fours;
    assert year / 100 == century;
    LeapsByPlace(century, fours, among);
  }

  lemma LeapsByPlace(century: nat, fours: nat, among: nat)
    requires century <= 3 && fours <= 24 && among <= 3
    ensures YearLength(100 * century + 4 * fours + among) == if among == 3 && (fours < 24 || century == 3) then 366 else 365
  {
    var next := 100 * century + 4 * fours + among + 1;
    assert next % 4 == (among + 1) % 4;
    if among == 3 {
      assert next == 100 * century + 4 * (fours + 1);
    }
  }

  lemma MonthHolds(dayOfYear: nat)
    requires dayOfYear <= 365
    ensures var month := MonthOf(dayOfYear);
      month <= 11 && MonthStart(month) <= dayOfYear < MonthStart(month + 1)
  {
  }

  /** The month a day of the shifted year is in, with the month's length, February's aside. */
  lemma MonthLengths(shifted: nat)
    requires shifted < 11
    ensures var month := if shifted < 10 then shifted + 3 else shifted - 9;
      MonthStart(shifted + 1) - MonthStart(shifted) ==
      if month == 4 || month == 6 || month == 9 || month == 11 then 30 else 31
  {
  }

  /** The next day of the same year, counted from March. */
  lemma NextInYear(era: nat, year: nat, dayOfYear: nat)
    requires dayOfYear + 1 < YearLength(year) && year < 400
    ensures FromEra(era, year, dayOfYear + 1) == NextDay(FromEra(era, year, dayOfYear))
    ensures IsDate(FromEra(era, year, dayOfYear))
  {
    var shifted := MonthOf(dayOfYear);
    MonthHolds(dayOfYear);
    MonthHolds(dayOfYear + 1);
    FebruaryIs(era, year);
    if shifted < 11 {
      MonthLengths(shifted);
    }
  }

  /** The shifted year ends with the February of the next one. */
  lemma FebruaryIs(era: nat, year: nat)
    requires year < 400
    ensures MonthStart(11) + DaysIn(year + era * 400 + 1, 2) == YearLength(year)
  {
    var next := year + era * 400 + 1;
    assert next % 4 == (year + 1) % 4 && next % 100 == (year + 1) % 100 && next % 400 == (year + 1) % 400;
  }

  /** The first of March follows the last day of a shifted year. */
  lemma NextYear(era: nat, year: nat)
    requires year < 400
    ensures IsDate(FromEra(era, year, YearLength(year) - 1))
    ensures NextDay(FromEra(era, year, YearLength(year) - 1)) == Date(year + era * 400 + 1, 3, 1)
  {
    FebruaryIs(era, year);
    MonthHolds(YearLength(year) - 1);
  }

  lemma YearsFollow(year: nat)
    requires year < 400
    ensures YearStart(year + 1) == YearStart(year) + if year == 399 then YearLength(year) - 1 else YearLength(year)
  {
  }

  lemma MarchTheFirst(era: nat, year: nat)
    ensures FromEra(era, year, 0) == Date(year + era * 400, 3, 1)
  {
    hide YearOfEra, YearStart, YearLength, MonthOf, MonthStart;
    DayZero();
  }

  lemma DayZero()
    ensures MonthOf(0) == 0 && MonthStart(0) == 0
  {
  }

  lemma InYear(era: nat, dayOfEra: nat, year: nat)
    requires dayOfEra < ERA && year < 400 && YearStart(year) <= dayOfEra < YearStart(year) + YearLength(year)
    ensures InEra(era, dayOfEra) == FromEra(era, year, dayOfEra - YearStart(year))
  {
    hide YearOfEra, YearStart, YearLength, FromEra;
    YearHolds(dayOfEra);
    OneYear(dayOfEra, year, YearOfEra(dayOfEra));
  }

  lemma EraEnds()
    ensures YearStart(399) + YearLength(399) == ERA && YearStart(0) == 0 && YearLength(0) == 365
  {
  }

  lemma InEraFollows(era: nat, dayOfEra: nat)
    requires dayOfEra < ERA
    ensures IsDate(InEra(era, dayOfEra))
    ensures NextDay(InEra(era, dayOfEra)) == if dayOfEra + 1 < ERA then InEra(era, dayOfEra + 1) else InEra(era + 1, 0)
  {
    hide YearOfEra, YearStart, YearLength, FromEra, InEra, NextDay, IsDate;
    var year := YearOfEra(dayOfEra);
    YearHolds(dayOfEra);
    YearsFollow(year);
    EraEnds();
    InYear(era, dayOfEra, year);
    var dayOfYear := dayOfEra - YearStart(year);
    if dayOfYear + 1 < YearLength(year) {
      StaysInEra(year);
      InYear(era, dayOfEra + 1, year);
      NextInYear(era, year, dayOfYear);
    } else {
      NextYear(era, year);
      if year < 399 {
        StaysInEra(year + 1);
        LengthIs(year + 1);
        InYear(era, dayOfEra + 1, year + 1);
        MarchTheFirst(era, year + 1);
      } else {
        InYear(era + 1, 0, 0);
        MarchTheFirst(era + 1, 0);
      }
    }
  }

  lemma StaysInEra(year: nat)
    requires year < 400
    ensures YearStart(year) + YearLength(year) <= ERA
  {
    EraEnds();
    if year < 399 {
      YearsRise(year, 399);
    }
  }

  lemma LengthIs(year: nat)
    ensures 365 <= YearLength(year) <= 366
  {
  }

  /** Consecutive days have consecutive dates, across months, years, centuries and eras. */
  lemma CivilFollows(days: nat)
    ensures IsDate(Civil(days)) && Civil(days + 1) == NextDay(Civil(days))
  {
    hide InEra, NextDay, IsDate;
    var z := days + DAYS_TO_1970;
    InEraFollows(z / ERA, z % ERA);
    if z % ERA + 1 < ERA {
      assert (z + 1) / ERA == z / ERA && (z + 1) % ERA == z % ERA + 1;
    } else {
      assert (z + 1) / ERA == z / ERA + 1 && (z + 1) % ERA == 0;
    }
  }

  /** A day is in one year of the era only. */
  lemma OneYear(dayOfEra: nat, a: nat, b: nat)
    requires a < 400 && b < 400
    requires YearStart(a) <= dayOfEra < YearStart(a) + YearLength(a)
    requires YearStart(b) <= dayOfEra < YearStart(b) + YearLength(b)
    ensures a == b
  {
    if a < b {
      YearsRise(a, b);
    } else if b < a {
      YearsRise(b, a);
    }
  }

  lemma {:induction false} YearsRise(a: nat, b: nat)
    requires a < b < 400
    ensures YearStart(a) + YearLength(a) <= YearStart(b)
    decreases b
  {
    YearsFollow(a);
    YearsFollow(b - 1);
    if a < b - 1 {
      YearsRise(a, b - 1);
    }
  }

  /** For every unix time the printed date is the one that many days after 1970-01-01, counted
      day by day through the Gregorian calendar, and the time of day is the rest. */
  lemma UtcIsTheDate(unix: nat)
    ensures Utc(unix).date == DayAfterEpoch(unix / 86_400) && IsDate(Utc(unix).date)
    ensures Utc(unix).hour < 24 && Utc(unix).minute < 60
    ensures 0 <= unix - (86_400 * (unix / 86_400) + 3600 * Utc(unix).hour + 60 * Utc(unix).minute) < 60
  {
    CivilIsCounted(unix / 86_400);
    CivilFollows(unix / 86_400);
  }

  lemma TheEpoch()
    ensures Civil(0) == Date(1970, 1, 1)
  {
    assert DAYS_TO_1970 == 4 * ERA + 135_080;
    assert YearOfEra(135_080) == 369 && YearStart(369) == 134_774;
  }

  lemma {:induction false} CivilIsCounted(days: nat)
    ensures Civil(days) == DayAfterEpoch(days)
  {
    hide InEra, NextDay, IsDate;
    if days == 0 {
      TheEpoch();
    } else {
      CivilIsCounted(days - 1);
      CivilFollows(days - 1);
    }
  }
}
