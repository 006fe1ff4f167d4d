/** The calendar behind the timestamps, by the rules of the calendar itself: where it starts, and which day
    comes after which. */
module Calendar {
  import opened Decimal
  import opened Timestamp

  // ---------------------------------------------------------------- years

  lemma YearStepCycles(n400: int, n100: int, n4: int, n1: int)
    requires 0 <= n100 < 4 && 0 <= n4 < 25 && 0 <= n1 < 4
    ensures var year := 400 * n400 + 100 * n100 + 4 * n4 + n1 + 1;
      DaysToYear(year + 1) == DaysToYear(year) + YearLength(year)
  {
    CyclesToDays(n400, n100, n4, n1);
    CyclesToLeap(n400, n100, n4, n1);
    if n1 < 3 {
      CyclesToDays(n400, n100, n4, n1 + 1);
    } else if n4 < 24 {
      CyclesToDays(n400, n100, n4 + 1, 0);
    } else if n100 < 3 {
      CyclesToDays(n400, n100 + 1, 0, 0);
    } else {
      CyclesToDays(n400 + 1, 0, 0, 0);
    }
  }

  lemma Cycles(z: int) returns (n400: int, n100: int, n4: int, n1: int)
    ensures 0 <= n100 < 4 && 0 <= n4 < 25 && 0 <= n1 < 4 && z == 400 * n400 + 100 * n100 + 4 * n4 + n1
  {
    n400 := z / 400;
    var r := z % 400;
    n100 := r / 100;
    n4 := r % 100 / 4;
    n1 := r % 100 % 4;
  }

  /** A year is as long as its length. */
  lemma YearStep(year: int)
    ensures DaysToYear(year + 1) == DaysToYear(year) + YearLength(year)
  {
    var n400, n100, n4, n1 := Cycles(year - 1);
    YearStepCycles(n400, n100, n4, n1);
  }

  lemma {:induction false} YearsApart(a: int, b: int)
    requires a < b
    ensures DaysToYear(a) + YearLength(a) <= DaysToYear(b)
    decreases b - a
  {
    YearStep(b - 1);
    if a < b - 1 {
      YearsApart(a, b - 1);
    }
  }

  lemma SplitUnique(year: int, yday: int)
    requires 0 <= yday < YearLength(year)
    ensures SplitDays(DaysToYear(year) + yday) == (year, yday)
  {
    var (y, n) := SplitDays(DaysToYear(year) + yday);
    SplitDaysExact(DaysToYear(year) + yday);
    if y < year {
      YearsApart(y, year);
    } else if year < y {
      YearsApart(year, y);
    }
  }

  // ---------------------------------------------------------------- months

  lemma MonthsApart(a: nat, b: nat, leap: bool)
    requires 1 <= a < b <= 13
    ensures DaysBefore(a + 1, leap) <= DaysBefore(b, leap)
  {}

  lemma MonthUnique(month: nat, yday: nat, leap: bool)
    requires 1 <= month <= 12 && DaysBefore(month, leap) <= yday < DaysBefore(month + 1, leap)
    requires yday < DaysBefore(13, leap)
    ensures MonthOf(yday, leap, 1) == month
  {
    var m := MonthOf(yday, leap, 1);
    if m < month {
      MonthsApart(m, month, leap);
    } else if month < m {
      MonthsApart(month, m, leap);
    }
  }

  lemma DayInYear(c: Civil)
    requires ValidCivil(c)
    ensures var leap := IsLeap(c.year);
      0 <= DaysBefore(c.month, leap) + c.day - 1 < DaysBefore(c.month + 1, leap) <= DaysBefore(13, leap)
      && DaysBefore(13, leap) == YearLength(c.year)
  {}

  lemma TimeParts(h: nat, m: nat, s: nat)
    requires h < 24 && m < 60 && s < 60
    ensures var rest := h * 3600 + m * 60 + s;
      rest < 86_400 && rest / 3600 == h && rest % 3600 / 60 == m && rest % 60 == s
  {}

  lemma DayAndRest(days: int, rest: nat, nano: nat)
    requires rest < DAY && nano < SECOND
    ensures var t := (days * DAY + rest) * SECOND + nano;
      t / SECOND == days * DAY + rest && t % SECOND == nano
      && (days * DAY + rest) / DAY == days && (days * DAY + rest) % DAY == rest
  {}

  /** The date and time of day for a day of a year and the seconds of a day. */
  function Build(year: int, yday: nat, rest: nat, nano: nat): Civil
    requires yday < YearLength(year)
  {
    var month := MonthOf(yday, IsLeap(year), 1);
    Civil(year, month, yday - DaysBefore(month, IsLeap(year)) + 1, rest / 3600, rest % 3600 / 60, rest % 60, nano)
  }

  lemma ToCivilBuilds(t: int, year: int, yday: nat, rest: nat, nano: nat)
    requires yday < YearLength(year) && SplitDays(t / SECOND / DAY + EPOCH) == (year, yday as int)
    requires t / SECOND % DAY == rest && t % SECOND == nano
    ensures ToCivil(t) == Build(year, yday, rest, nano)
  {}

  lemma BuildUnique(c: Civil)
    requires ValidCivil(c)
    ensures var yday, rest := DaysBefore(c.month, IsLeap(c.year)) + c.day - 1, c.hour * 3600 + c.minute * 60 + c.second;
      yday < YearLength(c.year) && Build(c.year, yday, rest, c.nano) == c
  {
    DayInYear(c);
    TimeParts(c.hour, c.minute, c.second);
    MonthUnique(c.month, DaysBefore(c.month, IsLeap(c.year)) + c.day - 1, IsLeap(c.year));
  }

  lemma InstantParts(c: Civil, t: int)
    requires ValidCivil(c) && FromCivil(c) == t
    ensures t / SECOND / DAY + EPOCH == DaysToYear(c.year) + DaysBefore(c.month, IsLeap(c.year)) + c.day - 1
    ensures t / SECOND % DAY == c.hour * 3600 + c.minute * 60 + c.second && t % SECOND == c.nano
  {
    var yday := DaysBefore(c.month, IsLeap(c.year)) + c.day - 1;
    TimeParts(c.hour, c.minute, c.second);
    DayAndRest(DaysToYear(c.year) + yday - EPOCH, c.hour * 3600 + c.minute * 60 + c.second, c.nano);
  }

  /** Every valid date and time of day is what the calendar makes of its instant. */
  lemma CivilUnique(c: Civil, t: int)
    requires ValidCivil(c) && FromCivil(c) == t
    ensures ToCivil(t) == c
  {
    var yday := DaysBefore(c.month, IsLeap(c.year)) + c.day - 1;
    BuildUnique(c);
    assert SplitDays(t / SECOND / DAY + EPOCH) == (c.year, yday) by {
      InstantParts(c, t);
      SplitUnique(c.year, yday);
    }
    InstantParts(c, t);
    ToCivilBuilds(t, c.year, yday, c.hour * 3600 + c.minute * 60 + c.second, c.nano);
  }

  // ---------------------------------------------------------------- the rules of the calendar

  /** Thirty days have April, June, September and November. */
  function DaysOf(year: int, month: nat): nat {
    if month == 2 then
      (if year % 4 == 0 && (year % 100 != 0 || year % 400 == 0) then 29 else 28)
    else if month in {4, 6, 9, 11} then 30
    else 31
  }

  function Tomorrow(c: Civil): Civil {
    if c.day < DaysOf(c.year, c.month) then c.(day := c.day + 1)
    else if c.month < 12 then c.(month := c.month + 1, day := 1)
    else c.(year := c.year + 1, month := 1, day := 1)
  }

  lemma MonthLengthIs(year: int, month: nat)
    requires 1 <= month <= 12
    ensures MonthLength(month, IsLeap(year)) == DaysOf(year, month)
  {}

  lemma TomorrowIsLater(c: Civil)
    requires ValidCivil(c)
    ensures ValidCivil(Tomorrow(c)) && FromCivil(Tomorrow(c)) == FromCivil(c) + 86_400 * 1_000_000_000
  {
    MonthLengthIs(c.year, c.month);
    if c.day == DaysOf(c.year, c.month) {
      if c.month < 12 {
        MonthLengthIs(c.year, c.month + 1);
      } else {
        YearStep(c.year);
      }
    }
  }

  /** The clock starts at midnight of the first of January 1970. */
  lemma EpochIs1970()
    ensures ToCivil(0) == Civil(1970, 1, 1, 0, 0, 0, 0)
  {
    var c := Civil(1970, 1, 1, 0, 0, 0, 0);
    CivilUnique(c, 0);
  }

  /** A day later the date is the next date, and the time of day the same. */
  lemma NextDay(t: int)
    ensures ToCivil(t + 86_400 * 1_000_000_000) == Tomorrow(ToCivil(t))
  {
    CivilRoundTrip(t);
    TomorrowIsLater(ToCivil(t));
    CivilUnique(Tomorrow(ToCivil(t)), t + 86_400 * 1_000_000_000);
  }

  /** The time of day counts the seconds and nanoseconds since midnight. */
  lemma TimeOfDay(t: int)
    ensures var c := ToCivil(t);
      (c.hour * 3600 + c.minute * 60 + c.second) * 1_000_000_000 + c.nano == t % (86_400 * 1_000_000_000)
  {
    var c := ToCivil(t);
    CivilRoundTrip(t);
    var days := DaysToYear(c.year) + DaysBefore(c.month, IsLeap(c.year)) + c.day - 1 - EPOCH;
    var rest := c.hour * 3600 + c.minute * 60 + c.second;
    Remainder(days, rest * SECOND + c.nano);
    assert t == days * (86_400 * SECOND) + (rest * SECOND + c.nano);
  }

  lemma Remainder(q: int, r: nat)
    requires r < 86_400_000_000_000
    ensures (q * 86_400_000_000_000 + r) % 86_400_000_000_000 == r
  {}

  // ---------------------------------------------------------------- the text

  predicate NumberAt(s: string, from: nat, n: nat, value: nat) {
    from + n <= |s| && AllDigits(s[from..from + n]) && Numeral(s[from..from + n]) == value
  }

  /** A field of the text, its separator, and what comes behind. */
  lemma Field(s: string, from: nat, value: nat, n: nat, sep: char, rest: string)
    requires from <= |s| && s[from..] == Fixed(value, n) + [sep] + rest && value < Pow10(n)
    ensures NumberAt(s, from, n, value) && from + n < |s| && s[from + n] == sep && s[from + n + 1..] == rest
  {
    assert s[from..from + n] == s[from..][..n] == Fixed(value, n);
    FixedNumeral(value, n);
    assert s[from..][n] == sep && s[from..][n + 1..] == rest;
  }

  lemma LastField(s: string, value: nat, rest: string)
    requires |s| >= 17 && s[17..] == Fixed(value, 2) + rest && value < 100 && rest != ""
    ensures |s| >= 20 && NumberAt(s, 17, 2, value) && s[19..] == rest
  {
    assert Pow10(2) == 100;
    assert s[17..19] == s[17..][..2] == Fixed(value, 2);
    FixedNumeral(value, 2);
    assert s[17..][2..] == rest;
  }

  lemma CivilFields(c: Civil, s: string)
    requires ValidCivil(c) && 0 <= c.year < 10_000 && s == ShowCivil(c)
    ensures NumberAt(s, 0, 4, c.year) && NumberAt(s, 5, 2, c.month) && NumberAt(s, 8, 2, c.day)
    ensures NumberAt(s, 11, 2, c.hour) && NumberAt(s, 14, 2, c.minute) && NumberAt(s, 17, 2, c.second)
    ensures |s| >= 20 && s[4] == '-' && s[7] == '-' && s[10] == 'T' && s[13] == ':' && s[16] == ':'
    ensures s[19..] == ShowFraction(c.nano) + "Z"
  {
    assert Pow10(2) == 100 && Pow10(4) == 100 * Pow10(2);
    var s6 := ShowFraction(c.nano) + "Z";
    var s5 := Fixed(c.second, 2) + s6;
    var s4 := Fixed(c.minute, 2) + ":" + s5;
    var s3 := Fixed(c.hour, 2) + ":" + s4;
    var s2 := Fixed(c.day, 2) + "T" + s3;
    var s1 := Fixed(c.month, 2) + "-" + s2;
    assert s[0..] == s && s == Fixed(c.year, 4) + "-" + s1;
    Field(s, 0, c.year, 4, '-', s1);
    Field(s, 5, c.month, 2, '-', s2);
    Field(s, 8, c.day, 2, 'T', s3);
    Field(s, 11, c.hour, 2, ':', s4);
    Field(s, 14, c.minute, 2, ':', s5);
    LastField(s, c.second, s6);
  }

  /** `YYYY-MM-DDTHH:MM:SS`, then the fraction without trailing zeros if there is one, then `Z`; section 5.6 of
      RFC 3339. */
  lemma ShowFields(t: int)
    requires YearInRange(t)
    ensures var s, c := Show(t), ToCivil(t);
      && NumberAt(s, 0, 4, c.year) && NumberAt(s, 5, 2, c.month) && NumberAt(s, 8, 2, c.day)
      && NumberAt(s, 11, 2, c.hour) && NumberAt(s, 14, 2, c.minute) && NumberAt(s, 17, 2, c.second)
      && |s| >= 20 && s[4] == '-' && s[7] == '-' && s[10] == 'T' && s[13] == ':' && s[16] == ':'
      && s[19..] == (if c.nano == 0 then "" else "." + TrimZeros(Fixed(c.nano, 9))) + "Z"
  {
    CivilFields(ToCivil(t), Show(t));
  }
}
