/** Instants as RFC 3339 text with a trimmed fraction (section 5.6), over the proleptic Gregorian calendar.
    An instant counts nanoseconds from the start of 1970. */
module Timestamp {
  import opened Basics
  import opened Decimal

  const SECOND := 1_000_000_000
  const DAY := 86_400
  /** Days from the first day of year 1 to the first day of 1970. */
  const EPOCH := 719_162

  // ---------------------------------------------------------------- calendar

  predicate IsLeap(year: int) {
    year % 4 == 0 && (year % 100 != 0 || year % 400 == 0)
  }

  function YearLength(year: int): nat {
    if IsLeap(year) then 366 else 365
  }

  /** Days of a year before the first of a month; month 13 stands for the end of the year. */
  function DaysBefore(month: nat, leap: bool): nat
    requires 1 <= month <= 13
  {
    [0, 31, 59, 90, 120, 151, 181, 212, 243, 273, 304, 334, 365][month - 1] + (if leap && month > 2 then 1 else 0)
  }

  function MonthLength(month: nat, leap: bool): nat
    requires 1 <= month <= 12
  {
    DaysBefore(month + 1, leap) - DaysBefore(month, leap)
  }

  /** Days from the start of year 1 to the start of a year, by cycles of 400, 100, 4 and 1 years. */
  function DaysToYear(year: int): int {
    var z := year - 1;
    146_097 * (z / 400) + 36_524 * (z % 400 / 100) + 1_461 * (z % 100 / 4) + 365 * (z % 4)
  }

  function CutBack(n: int): int {
    if n == 4 then 3 else n
  }

  /** The year and the day of the year of a day counted from the start of year 1. */
  function SplitDays(d: int): (int, int) {
    var n400 := d / 146_097;
    var d1 := d % 146_097;
    var n100 := CutBack(d1 / 36_524);
    var d2 := d1 - 36_524 * n100;
    var n4 := d2 / 1_461;
    var d3 := d2 - 1_461 * n4;
    var n1 := CutBack(d3 / 365);
    (400 * n400 + 100 * n100 + 4 * n4 + n1 + 1, d3 - 365 * n1)
  }

  lemma By400(q: int, r: int)
    requires 0 <= r < 400
    ensures (400 * q + r) / 400 == q && (400 * q + r) % 400 == r
  {}

  lemma By100(q: int, r: int)
    requires 0 <= r < 100
    ensures (100 * q + r) / 100 == q && (100 * q + r) % 100 == r
  {}

  lemma By4(q: int, r: int)
    requires 0 <= r < 4
    ensures (4 * q + r) / 4 == q && (4 * q + r) % 4 == r
  {}

  lemma CyclesToDays(n400: int, n100: int, n4: int, n1: int)
    requires 0 <= n100 < 4 && 0 <= n4 < 25 && 0 <= n1 < 4
    ensures DaysToYear(400 * n400 + 100 * n100 + 4 * n4 + n1 + 1) ==
      146_097 * n400 + 36_524 * n100 + 1_461 * n4 + 365 * n1
  {
    var z := 400 * n400 + 100 * n100 + 4 * n4 + n1;
    By400(n400, 100 * n100 + 4 * n4 + n1);
    assert z / 400 == n400 && z % 400 == 100 * n100 + 4 * n4 + n1;
    By100(n100, 4 * n4 + n1);
    By100(4 * n400 + n100, 4 * n4 + n1);
    assert z == 100 * (4 * n400 + n100) + (4 * n4 + n1);
    By4(n4, n1);
    By4(100 * n400 + 25 * n100 + n4, n1);
    assert z == 4 * (100 * n400 + 25 * n100 + n4) + n1;
  }

  /** The leap years are the last of each four-year cycle, except where a cycle of 25 or of 4 is cut short. */
  lemma CyclesToLeap(n400: int, n100: int, n4: int, n1: int)
    requires 0 <= n100 < 4 && 0 <= n4 < 25 && 0 <= n1 < 4
    ensures IsLeap(400 * n400 + 100 * n100 + 4 * n4 + n1 + 1) <==> n1 == 3 && (n4 != 24 || n100 == 3)
  {
    var year := 400 * n400 + 100 * n100 + 4 * n4 + n1 + 1;
    if n1 < 3 {
      By4(100 * n400 + 25 * n100 + n4, n1 + 1);
      assert year == 4 * (100 * n400 + 25 * n100 + n4) + (n1 + 1);
    } else {
      By4(100 * n400 + 25 * n100 + n4 + 1, 0);
      assert year == 4 * (100 * n400 + 25 * n100 + n4 + 1) + 0;
      if n4 < 24 {
        By100(4 * n400 + n100, 4 * n4 + 4);
        assert year == 100 * (4 * n400 + n100) + (4 * n4 + 4);
      } else {
        By100(4 * n400 + n100 + 1, 0);
        assert year == 100 * (4 * n400 + n100 + 1) + 0;
        if n100 < 3 {
          By400(n400, 100 * n100 + 100);
          assert year == 400 * n400 + (100 * n100 + 100);
        } else {
          By400(n400 + 1, 0);
          assert year == 400 * (n400 + 1) + 0;
        }
      }
    }
  }

  lemma CutCentury(d: int)
    requires 0 <= d < 146_097
    ensures var n := CutBack(d / 36_524); var rest := d - 36_524 * n;
      0 <= n < 4 && 0 <= rest <= 36_524 && (rest == 36_524 ==> n == 3)
  {}

  lemma CutFourYears(d: int)
    requires 0 <= d <= 36_524
    ensures var n := d / 1_461; var rest := d - 1_461 * n;
      0 <= n < 25 && 0 <= rest < 1_461 && (rest == 1_460 && n == 24 ==> d == 36_524)
  {}

  lemma CutYear(d: int)
    requires 0 <= d < 1_461
    ensures var n := CutBack(d / 365); var rest := d - 365 * n;
      0 <= n < 4 && 0 <= rest <= 365 && (rest == 365 ==> n == 3 && d == 1_460)
  {}

  /** The ranges of the four counts and of the day of the year. */
  lemma SplitRanges(d: int)
    ensures var n400, d1 := d / 146_097, d % 146_097;
      var n100 := CutBack(d1 / 36_524);
      var d2 := d1 - 36_524 * n100;
      var n4 := d2 / 1_461;
      var d3 := d2 - 1_461 * n4;
      var n1 := CutBack(d3 / 365);
      && d == 146_097 * n400 + 36_524 * n100 + 1_461 * n4 + d3
      && 0 <= n100 < 4 && 0 <= n4 < 25 && 0 <= n1 < 4 && 0 <= d3 - 365 * n1 <= 365
      && (d3 - 365 * n1 == 365 ==> n1 == 3 && (n4 != 24 || n100 == 3))
  {
    var d1 := d % 146_097;
    CutCentury(d1);
    var n100 := CutBack(d1 / 36_524);
    var d2 := d1 - 36_524 * n100;
    CutFourYears(d2);
    var d3 := d2 - 1_461 * (d2 / 1_461);
    CutYear(d3);
  }

  /** Splitting a day loses nothing, and the day of the year is in the year. */
  lemma SplitDaysExact(d: int)
    ensures var (year, yday) := SplitDays(d); DaysToYear(year) + yday == d && 0 <= yday < YearLength(year)
  {
    SplitRanges(d);
    var n400, d1 := d / 146_097, d % 146_097;
    var n100 := CutBack(d1 / 36_524);
    var d2 := d1 - 36_524 * n100;
    var n4 := d2 / 1_461;
    var d3 := d2 - 1_461 * n4;
    var n1 := CutBack(d3 / 365);
    CyclesToDays(n400, n100, n4, n1);
    CyclesToLeap(n400, n100, n4, n1);
  }

  function MonthOf(yday: nat, leap: bool, month: nat): (m: nat)
    requires 1 <= month <= 12 && DaysBefore(month, leap) <= yday < DaysBefore(13, leap)
    ensures month <= m <= 12 && DaysBefore(m, leap) <= yday < DaysBefore(m + 1, leap)
    decreases 12 - month
  {
    if yday < DaysBefore(month + 1, leap) then month else MonthOf(yday, leap, month + 1)
  }

  datatype Civil = Civil(year: int, month: nat, day: nat, hour: nat, minute: nat, second: nat, nano: nat)

  predicate ValidCivil(c: Civil) {
    && 1 <= c.month <= 12 && 1 <= c.day <= MonthLength(c.month, IsLeap(c.year))
    && c.hour < 24 && c.minute < 60 && c.second < 60 && c.nano < SECOND
  }

  function ToCivil(t: int): (c: Civil)
    ensures ValidCivil(c)
  {
    var secs, nano := t / SECOND, t % SECOND;
    var days, rest := secs / DAY + EPOCH, secs % DAY;
    SplitDaysExact(days);
    var (year, yday) := SplitDays(days);
    var month := MonthOf(yday, IsLeap(year), 1);
    Civil(year, month, yday - DaysBefore(month, IsLeap(year)) + 1, rest / 3600, rest % 3600 / 60, rest % 60, nano)
  }

  function FromCivil(c: Civil): int
    requires ValidCivil(c)
  {
    var days := DaysToYear(c.year) + DaysBefore(c.month, IsLeap(c.year)) + c.day - 1 - EPOCH;
    (days * DAY + c.hour * 3600 + c.minute * 60 + c.second) * SECOND + c.nano
  }

  lemma ClockParts(rest: nat)
    ensures rest / 3600 * 3600 + rest % 3600 / 60 * 60 + rest % 60 == rest
  {}

  lemma CivilRoundTrip(t: int)
    ensures FromCivil(ToCivil(t)) == t
  {
    var secs := t / SECOND;
    SplitDaysExact(secs / DAY + EPOCH);
    ClockParts(secs % DAY);
  }

  // ---------------------------------------------------------------- text

  function ShowYear(year: int): string {
    if 0 <= year < 10_000 then Fixed(year, 4)
    else if year >= 10_000 then Print(year)
    else "-" + (if year > -10_000 then Fixed(-year, 4) else Print(-year))
  }

  function TrimZeros(s: string): string {
    if s != "" && s[|s| - 1] == '0' then TrimZeros(s[..|s| - 1]) else s
  }

  function ShowFraction(nano: nat): string {
    if nano == 0 then "" else "." + TrimZeros(Fixed(nano, 9))
  }

  /** Date and time of day in front of a zone. */
  function ShowLocal(c: Civil, zone: string): string {
    ShowYear(c.year) + "-" + (Fixed(c.month, 2) + "-" + (Fixed(c.day, 2) + "T" + (Fixed(c.hour, 2) + ":" +
      (Fixed(c.minute, 2) + ":" + (Fixed(c.second, 2) + (ShowFraction(c.nano) + zone))))))
  }

  function ShowCivil(c: Civil): string {
    ShowLocal(c, "Z")
  }

  function Show(t: int): string {
    ShowCivil(ToCivil(t))
  }

  /** `w` digits with a value of at most `max`. */
  function TakeDigits(s: string, w: nat, max: nat): Option<(nat, string)> {
    if |s| < w || !AllDigits(s[..w]) || Numeral(s[..w]) > max then None else Some((Numeral(s[..w]), s[w..]))
  }

  /** A number followed by a separator. */
  function TakeField(s: string, w: nat, max: nat, sep: char): Option<(nat, string)> {
    match TakeDigits(s, w, max)
    case None => None
    case Some((n, rest)) => if rest != "" && rest[0] == sep then Some((n, rest[1..])) else None
  }

  function Pad(s: string, w: nat): string
    decreases w - |s|
  {
    if |s| < w then Pad(s + "0", w) else s[..w]
  }

  /** An optional fraction; digits beyond nanoseconds are dropped. */
  function TakeFraction(s: string): (nat, string) {
    if |s| >= 2 && s[0] == '.' && IsDigit(s[1]) then
      var n := Span(s[1..]);
      PadDigits(s[1..][..n], 9);
      (Numeral(Pad(s[1..][..n], 9)), s[1..][n..])
    else (0, s)
  }

  lemma {:induction false} PadDigits(s: string, w: nat)
    requires AllDigits(s)
    ensures AllDigits(Pad(s, w)) && |Pad(s, w)| == w
    decreases w - |s|
  {
    if |s| < w {
      PadDigits(s + "0", w);
    }
  }

  /** `Z`, or a numeric offset in seconds. */
  function TakeZone(s: string): Option<int> {
    if s == "Z" then Some(0)
    else if |s| != 6 || (s[0] != '+' && s[0] != '-') then None
    else
      match TakeField(s[1..], 2, 23, ':')
      case None => None
      case Some((h, rest)) =>
        match TakeDigits(rest, 2, 59)
        case None => None
        case Some((m, tail)) =>
          if tail != "" then None
          else
            var offset: int := h * 3600 + m * 60;
            Some(if s[0] == '-' then -offset else offset)
  }

  function ParseCivil(s: string): Option<(Civil, string)> {
    match TakeField(s, 4, 9999, '-')
    case None => None
    case Some((year, s1)) =>
      match TakeField(s1, 2, 12, '-')
      case None => None
      case Some((month, s2)) =>
        match TakeField(s2, 2, 31, 'T')
        case None => None
        case Some((day, s3)) =>
          match TakeField(s3, 2, 23, ':')
          case None => None
          case Some((hour, s4)) =>
            match TakeField(s4, 2, 59, ':')
            case None => None
            case Some((minute, s5)) =>
              match TakeDigits(s5, 2, 59)
              case None => None
              case Some((second, s6)) =>
                var (nano, s7) := TakeFraction(s6);
                Some((Civil(year, month, day, hour, minute, second, nano), s7))
  }

  function Parse(s: string): Option<int> {
    match ParseCivil(s)
    case None => None
    case Some((c, rest)) =>
      match TakeZone(rest)
      case None => None
      case Some(offset) => if ValidCivil(c) then Some(FromCivil(c) - offset * SECOND) else None
  }

  // ---------------------------------------------------------------- what was printed is parsed again

  lemma TakeFixed(n: nat, w: nat, max: nat, rest: string)
    requires n < Pow10(w) && n <= max
    ensures TakeDigits(Fixed(n, w) + rest, w, max) == Some((n, rest))
  {
    var s := Fixed(n, w) + rest;
    assert s[..w] == Fixed(n, w) && s[w..] == rest;
    FixedNumeral(n, w);
  }

  lemma TakeFixedField(n: nat, w: nat, max: nat, sep: char, rest: string)
    requires n < Pow10(w) && n <= max
    ensures TakeField(Fixed(n, w) + [sep] + rest, w, max, sep) == Some((n, rest))
  {
    TakeFixed(n, w, max, [sep] + rest);
    assert Fixed(n, w) + [sep] + rest == Fixed(n, w) + ([sep] + rest);
  }

  lemma {:induction false} PadTrimmed(s: string, w: nat)
    requires |s| <= w
    ensures Pad(TrimZeros(s), w) == Pad(s, w)
    ensures TrimZeros(s) <= s
  {
    if s != "" && s[|s| - 1] == '0' {
      PadTrimmed(s[..|s| - 1], w);
      assert s[..|s| - 1] + "0" == s;
    }
  }

  lemma {:induction false} TrimmedAway(s: string)
    requires AllDigits(s) && TrimZeros(s) == ""
    ensures Numeral(s) == 0
  {
    if s != "" {
      TrimmedAway(s[..|s| - 1]);
    }
  }

  predicate IsZone(zone: string) {
    zone != "" && zone[0] in {'Z', '+', '-'}
  }

  lemma FractionRoundTrip(nano: nat, zone: string)
    requires nano < SECOND && IsZone(zone)
    ensures TakeFraction(ShowFraction(nano) + zone) == (nano, zone)
  {
    assert Pow10(9) == SECOND by {
      assert Pow10(3) == 1000 && Pow10(6) == 1000 * Pow10(3) && Pow10(9) == 1000 * Pow10(6);
    }
    FixedNumeral(nano, 9);
    var full := Fixed(nano, 9);
    if nano > 0 {
      var kept := TrimZeros(full);
      PadTrimmed(full, 9);
      assert kept != "" by {
        if kept == "" {
          TrimmedAway(full);
        }
      }
      KeptFraction(full, kept, zone);
      assert ShowFraction(nano) + zone == "." + kept + zone;
    } else {
      assert ShowFraction(nano) + zone == zone;
    }
  }

  lemma KeptFraction(full: string, kept: string, zone: string)
    requires IsZone(zone)
    requires AllDigits(full) && |full| == 9 && kept <= full && kept != "" && Pad(kept, 9) == Pad(full, 9)
    ensures TakeFraction("." + kept + zone) == (Numeral(full), zone)
  {
    var s := "." + kept + zone;
    assert s[1..] == kept + zone && s[1..][..|kept|] == kept && s[1..][|kept|..] == zone;
    assert s[1] == kept[0] == full[0];
    SpanUnique(s[1..], |kept|);
    assert Pad(full, 9) == full;
  }

  lemma {:induction false} PrintLength(n: nat, w: nat)
    requires n >= Pow10(w)
    ensures |Print(n)| > w
  {
    if w > 0 {
      PrintLength(n / 10, w - 1);
    }
  }

  lemma ShowLocalParses(c: Civil, zone: string)
    requires ValidCivil(c) && 0 <= c.year < 10_000 && IsZone(zone)
    ensures ParseCivil(ShowLocal(c, zone)) == Some((c, zone))
  {
    assert Pow10(2) == 100 && Pow10(4) == 100 * Pow10(2);
    var s6 := ShowFraction(c.nano) + zone;
    var s5 := Fixed(c.second, 2) + s6;
    var s4 := Fixed(c.minute, 2) + ":" + s5;
    var s3 := Fixed(c.hour, 2) + ":" + s4;
    var s2 := Fixed(c.day, 2) + "T" + s3;
    var s1 := Fixed(c.month, 2) + "-" + s2;
    TakeFixedField(c.year, 4, 9999, '-', s1);
    TakeFixedField(c.month, 2, 12, '-', s2);
    TakeFixedField(c.day, 2, 31, 'T', s3);
    TakeFixedField(c.hour, 2, 23, ':', s4);
    TakeFixedField(c.minute, 2, 59, ':', s5);
    TakeFixed(c.second, 2, 59, s6);
    FractionRoundTrip(c.nano, zone);
  }

  /** A year that needs a sign or a fifth digit cannot be read back. */
  lemma OddYearFails(c: Civil)
    requires c.year < 0 || c.year >= 10_000
    ensures ParseCivil(ShowCivil(c)).None?
  {
    var s := ShowCivil(c);
    if c.year < 0 {
      assert s[..4][0] == '-';
    } else {
      assert Pow10(4) == 10_000 by {
        assert Pow10(2) == 100 && Pow10(4) == 100 * Pow10(2);
      }
      PrintLength(c.year, 4);
      assert s[4] == Print(c.year)[4];
      assert s[4..][0] == s[4];
    }
  }

  predicate YearInRange(t: int) {
    0 <= ToCivil(t).year < 10_000
  }

  lemma ParseFrom(s: string, c: Civil)
    requires ParseCivil(s) == Some((c, "Z")) && ValidCivil(c)
    ensures Parse(s) == Some(FromCivil(c))
  {}

  lemma ParseOffset(s: string, c: Civil, zone: string, offset: int, t: int)
    requires ParseCivil(s) == Some((c, zone)) && ValidCivil(c) && TakeZone(zone) == Some(offset)
    requires t == FromCivil(c) - offset * SECOND
    ensures Parse(s) == Some(t)
  {}

  lemma ParseNothing(s: string)
    requires ParseCivil(s).None?
    ensures Parse(s).None?
  {}

  lemma ParseShown(c: Civil)
    requires ValidCivil(c)
    ensures Parse(ShowCivil(c)) == if 0 <= c.year < 10_000 then Some(FromCivil(c)) else None
  {
    if 0 <= c.year < 10_000 {
      ShowLocalParses(c, "Z");
      ParseFrom(ShowCivil(c), c);
    } else {
      OddYearFails(c);
      ParseNothing(ShowCivil(c));
    }
  }

  /** Parsing what was printed gives back the same instant exactly when its year has four digits. */
  lemma TimestampRoundTrip(t: int)
    ensures Parse(Show(t)) == if YearInRange(t) then Some(t) else None
  {
    CivilRoundTrip(t);
    ParseShown(ToCivil(t));
  }

  /** The offset of a zone is in hours and minutes, negative west of Greenwich. */
  lemma ZoneReads(h: nat, m: nat, west: bool)
    requires h < 24 && m < 60
    ensures TakeZone((if west then "-" else "+") + (Fixed(h, 2) + ":" + Fixed(m, 2))) ==
      Some(if west then -(3_600 * h + 60 * m) else 3_600 * h + 60 * m)
  {
    var zone := (if west then "-" else "+") + (Fixed(h, 2) + ":" + Fixed(m, 2));
    assert Pow10(2) == 100;
    assert zone[1..] == Fixed(h, 2) + ":" + Fixed(m, 2);
    TakeFixedField(h, 2, 23, ':', Fixed(m, 2));
    TakeFixed(m, 2, 59, "");
    assert Fixed(m, 2) + "" == Fixed(m, 2);
  }

  /** A time with an offset stands for the instant that much earlier. */
  lemma OffsetShifts(c: Civil, zone: string, offset: int, t: int)
    requires ValidCivil(c) && 0 <= c.year < 10_000 && IsZone(zone) && TakeZone(zone) == Some(offset)
    requires t == FromCivil(c) - offset * 1_000_000_000
    ensures Parse(ShowLocal(c, zone)) == Some(t)
  {
    ShowLocalParses(c, zone);
    ParseOffset(ShowLocal(c, zone), c, zone, offset, t);
  }

  /** Digits and the separators of section 5.6 of RFC 3339. */
  predicate StampText(s: string) {
    forall i :: 0 <= i < |s| ==> IsDigit(s[i]) || s[i] in {'-', ':', '.', 'T', 'Z'}
  }

  lemma StampField(digits: string, sep: string, rest: string)
    requires (AllDigits(digits) || StampText(digits)) && StampText(sep) && StampText(rest)
    ensures StampText(digits + sep + rest) && StampText(digits + rest)
  {}

  lemma FractionStamp(nano: nat)
    ensures StampText(ShowFraction(nano) + "Z")
  {
    PadTrimmed(Fixed(nano, 9), 9);
  }

  lemma YearStamp(year: int)
    ensures StampText(ShowYear(year))
  {}

  lemma ShowIsStampText(t: int)
    ensures StampText(Show(t))
  {
    var c := ToCivil(t);
    var s6 := ShowFraction(c.nano) + "Z";
    var s5 := Fixed(c.second, 2) + s6;
    var s4 := Fixed(c.minute, 2) + ":" + s5;
    var s3 := Fixed(c.hour, 2) + ":" + s4;
    var s2 := Fixed(c.day, 2) + "T" + s3;
    var s1 := Fixed(c.month, 2) + "-" + s2;
    assert StampText("-") && StampText(":") && StampText("T") && StampText("");
    FractionStamp(c.nano);
    StampField(Fixed(c.second, 2), "", s6);
    StampField(Fixed(c.minute, 2), ":", s5);
    StampField(Fixed(c.hour, 2), ":", s4);
    StampField(Fixed(c.day, 2), "T", s3);
    StampField(Fixed(c.month, 2), "-", s2);
    YearStamp(c.year);
    StampField(ShowYear(c.year), "-", s1);
    assert Show(t) == ShowYear(c.year) + "-" + s1;
  }
}
