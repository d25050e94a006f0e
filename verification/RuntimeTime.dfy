/** UTC timestamps: the printed forms of a system_clock time point and their parser. */
module RuntimeTime {
  import opened Core

  const INT64_MIN := -0x8000_0000_0000_0000
  const INT64_MAX := 0x7fff_ffff_ffff_ffff
  const NS_PER_SECOND := 1_000_000_000
  const SECONDS_PER_DAY := 86400
  const NS_PER_DAY := 86_400_000_000_000

  /** Nanoseconds since 1970-01-01T00:00:00Z in a signed 64-bit count. */
  type TimePoint = t: int | INT64_MIN <= t <= INT64_MAX

  predicate Representable(ns: int) {
    INT64_MIN <= ns <= INT64_MAX
  }

  function FloorSeconds(t: TimePoint): int {
    t / NS_PER_SECOND
  }

  // ---- the proleptic Gregorian calendar ----

  datatype Date = Date(year: nat, month: nat, day: nat)

  predicate Leap(y: nat) {
    y % 4 == 0 && (y % 100 != 0 || y % 400 == 0)
  }

  function MonthLength(y: nat, m: nat): nat {
    if m == 2 then (if Leap(y) then 29 else 28)
    else if m == 4 || m == 6 || m == 9 || m == 11 then 30
    else 31
  }

  predicate ValidDate(d: Date) {
    1 <= d.month <= 12 && 1 <= d.day <= MonthLength(d.year, d.month)
  }

  function YearLength(y: nat): nat {
    if Leap(y) then 366 else 365
  }

  /** Days from 0000-01-01 to the first day of year y. */
  function DaysToYear(y: nat): nat {
    if y == 0 then 0 else DaysToYear(y - 1) + YearLength(y - 1)
  }

  /** Days from the first day of year y to the first day of its month m. */
  function DaysToMonth(y: nat, m: nat): nat
    requires 1 <= m <= 13
  {
    if m == 1 then 0 else DaysToMonth(y, m - 1) + MonthLength(y, m - 1)
  }

  /** Days from 0000-01-01; 1970-01-01 is day 719528. */
  function DayNumber(d: Date): nat
    requires ValidDate(d)
  {
    DaysToYear(d.year) + DaysToMonth(d.year, d.month) + d.day - 1
  }

  const EPOCH_DAY := 719528

  /** The leap years before y, counted without going through them. */
  lemma {:induction false} DaysToYearClosed(y: nat)
    ensures DaysToYear(y) == 365 * y + (y + 3) / 4 - (y + 99) / 100 + (y + 399) / 400
  {
    if y > 0 {
      DaysToYearClosed(y - 1);
      LeapYearsStep(y - 1);
    }
  }

  lemma LeapYearsStep(y: nat)
    ensures (y + 4) / 4 - (y + 100) / 100 + (y + 400) / 400 ==
            (y + 3) / 4 - (y + 99) / 100 + (y + 399) / 400 + if Leap(y) then 1 else 0
  {
    assert (y + 4) / 4 == (y + 3) / 4 + if y % 4 == 0 then 1 else 0;
    assert (y + 100) / 100 == (y + 99) / 100 + if y % 100 == 0 then 1 else 0;
    assert (y + 400) / 400 == (y + 399) / 400 + if y % 400 == 0 then 1 else 0;
    assert y % 400 == 0 ==> y % 100 == 0;
    assert y % 100 == 0 ==> y % 4 == 0;
  }

  /** The day of a common year on which each month begins. */
  const FIRST_DAYS: seq<nat> := [0, 31, 59, 90, 120, 151, 181, 212, 243, 273, 304, 334, 365]

  /** In a leap year the months after February begin a day later. */
  lemma {:induction false} MonthsBegin(y: nat, m: nat)
    requires 1 <= m <= 13
    ensures DaysToMonth(y, m) == FIRST_DAYS[m - 1] + if y % 4 == 0 && (y % 100 != 0 || y % 400 == 0) && m > 2 then 1 else 0
  {
    if m > 1 { MonthsBegin(y, m - 1); }
  }

  /** 1970-01-01 is the day the source counts from. */
  lemma EpochIsDay(d: Date)
    requires d == Date(1970, 1, 1)
    ensures ValidDate(d) && DayNumber(d) == EPOCH_DAY
  {
    DaysToYearClosed(d.year);
  }

  lemma MonthsFillYear(y: nat)
    ensures DaysToMonth(y, 13) == YearLength(y)
  {
    assert DaysToMonth(y, 3) == DaysToMonth(y, 2) + MonthLength(y, 2) == 31 + MonthLength(y, 2);
    assert DaysToMonth(y, 5) == DaysToMonth(y, 3) + 61;
    assert DaysToMonth(y, 7) == DaysToMonth(y, 5) + 61;
    assert DaysToMonth(y, 9) == DaysToMonth(y, 7) + 62;
    assert DaysToMonth(y, 11) == DaysToMonth(y, 9) + 61;
    assert DaysToMonth(y, 13) == DaysToMonth(y, 11) + 61;
  }

  lemma {:induction false} YearsAscend(y: nat, z: nat)
    requires y < z
    ensures DaysToYear(y) + YearLength(y) <= DaysToYear(z)
    decreases z - y
  {
    if y + 1 < z {
      YearsAscend(y, z - 1);
    }
  }

  lemma {:induction false} MonthsAscend(y: nat, m: nat, n: nat)
    requires 1 <= m < n <= 13
    ensures DaysToMonth(y, m) + MonthLength(y, m) <= DaysToMonth(y, n)
    decreases n - m
  {
    if m + 1 < n {
      MonthsAscend(y, m, n - 1);
    }
  }

  predicate DateBefore(a: Date, b: Date) {
    a.year < b.year || (a.year == b.year && (a.month < b.month || (a.month == b.month && a.day < b.day)))
  }

  lemma DayInYear(d: Date)
    requires ValidDate(d)
    ensures DaysToYear(d.year) <= DayNumber(d) < DaysToYear(d.year) + YearLength(d.year)
  {
    MonthsFillYear(d.year);
    if d.month < 12 {
      MonthsAscend(d.year, d.month, 13);
    }
  }

  /** Day numbers follow the calendar order, so no two dates share one. */
  lemma DatesAscend(a: Date, b: Date)
    requires ValidDate(a) && ValidDate(b) && DateBefore(a, b)
    ensures DayNumber(a) < DayNumber(b)
  {
    DayInYear(a);
    DayInYear(b);
    if a.year < b.year {
      YearsAscend(a.year, b.year);
    } else if a.month < b.month {
      MonthsAscend(a.year, a.month, b.month);
    }
  }

  lemma DayNumberDeterminesDate(a: Date, b: Date)
    requires ValidDate(a) && ValidDate(b) && DayNumber(a) == DayNumber(b)
    ensures a == b
  {
    if DateBefore(a, b) {
      DatesAscend(a, b);
    } else if DateBefore(b, a) {
      DatesAscend(b, a);
    }
  }

  function YearOf(day: nat, y: nat): (r: nat)
    requires DaysToYear(y) <= day
    ensures DaysToYear(r) <= day < DaysToYear(r + 1)
    decreases day - DaysToYear(y)
  {
    if day < DaysToYear(y + 1) then y else YearOf(day, y + 1)
  }

  function MonthOf(y: nat, day: nat, m: nat): (r: nat)
    requires 1 <= m <= 12 && DaysToMonth(y, m) <= day < YearLength(y)
    ensures 1 <= r <= 12 && DaysToMonth(y, r) <= day < DaysToMonth(y, r) + MonthLength(y, r)
    decreases 12 - m
  {
    MonthsFillYear(y);
    if day < DaysToMonth(y, m) + MonthLength(y, m) then m else MonthOf(y, day, m + 1)
  }

  /** year_month_day of a day count: the calendar date with that day number. */
  function CivilDate(day: nat): (d: Date)
    ensures ValidDate(d) && DayNumber(d) == day
  {
    var y := YearOf(day, 0);
    var m := MonthOf(y, day - DaysToYear(y), 1);
    Date(y, m, day - DaysToYear(y) - DaysToMonth(y, m) + 1)
  }

  // ---- decimal fields ----

  function Digit(n: nat): char
    requires n < 10
  {
    '0' + n as char
  }

  predicate IsDigit(c: char) {
    '0' <= c <= '9'
  }

  /** The value of a string of digits, most significant first. */
  function DecimalValue(s: string): (r: Option<nat>) {
    if s == [] then Some(0)
    else
      var front := DecimalValue(s[..|s| - 1]);
      var last := s[|s| - 1];
      if front.None? || !IsDigit(last) then None else Some(front.value * 10 + (last as int - '0' as int))
  }

  method Decimal(value: string) returns (r: Option<nat>)
    ensures r == DecimalValue(value)
  {
    var result := 0;
    for i := 0 to |value|
      invariant DecimalValue(value[..i]) == Some(result)
    {
      var character := value[i];
      assert value[..i + 1][..i] == value[..i];
      if !IsDigit(character) {
        DecimalFails(value, i);
        return None;
      }
      result := result * 10 + (character as int - '0' as int);
    }
    assert value[..|value|] == value;
    return Some(result);
  }

  lemma {:induction false} DecimalFails(s: string, i: nat)
    requires i < |s| && !IsDigit(s[i])
    ensures DecimalValue(s).None?
  {
    if i < |s| - 1 {
      DecimalFails(s[..|s| - 1], i);
    }
  }

  /** setfill('0') and setw(width) of a number that fits the width. */
  function Digits(n: nat, width: nat): (s: string)
    ensures |s| == width
    decreases width
  {
    if width == 0 then [] else Digits(n / 10, width - 1) + [Digit(n % 10)]
  }

  function Power10(k: nat): nat {
    if k == 0 then 1 else 10 * Power10(k - 1)
  }

  lemma {:induction false} DigitsRoundTrip(n: nat, width: nat)
    requires n < Power10(width)
    ensures DecimalValue(Digits(n, width)) == Some(n)
    decreases width
  {
    if width > 0 {
      DigitsRoundTrip(n / 10, width - 1);
      var s := Digits(n, width);
      assert s[..|s| - 1] == Digits(n / 10, width - 1);
    }
  }

  lemma {:induction false} DecimalRoundTrip(s: string)
    requires DecimalValue(s).Some?
    ensures DecimalValue(s).value < Power10(|s|)
    ensures Digits(DecimalValue(s).value, |s|) == s
    decreases |s|
  {
    if s != [] {
      var front, last := s[..|s| - 1], s[|s| - 1];
      DecimalRoundTrip(front);
      SplitLastDigit(DecimalValue(front).value, last as int - '0' as int);
      assert Digit(last as int - '0' as int) == last;
      assert s == front + [last];
    }
  }

  lemma SplitLastDigit(front: nat, last: nat)
    requires last < 10
    ensures (front * 10 + last) / 10 == front && (front * 10 + last) % 10 == last
  {}

  /** The decimal numeral of n with exactly width digits. */
  ghost function Numeral(n: nat, width: nat): (s: string)
    requires n < Power10(width)
    ensures |s| == width && DecimalValue(s) == Some(n)
  {
    DigitsRoundTrip(n, width);
    var s :| |s| == width && DecimalValue(s) == Some(n);
    s
  }

  lemma DigitsPrintNumeral(n: nat, width: nat)
    requires n < Power10(width)
    ensures Digits(n, width) == Numeral(n, width)
  {
    DecimalRoundTrip(Numeral(n, width));
  }

  lemma NumeralOf(s: string)
    requires DecimalValue(s).Some?
    ensures DecimalValue(s).value < Power10(|s|) && Numeral(DecimalValue(s).value, |s|) == s
  {
    DecimalRoundTrip(s);
    DigitsPrintNumeral(DecimalValue(s).value, |s|);
  }

  lemma {:induction false} DigitsAscend(m: nat, n: nat, width: nat)
    requires m < Power10(width) && n < Power10(width)
    ensures Less(Digits(m, width), Digits(n, width)) <==> m < n
    decreases width
  {
    if width > 0 {
      DigitsAscend(m / 10, n / 10, width - 1);
      LessConcat(Digits(m / 10, width - 1), [Digit(m % 10)], Digits(n / 10, width - 1), [Digit(n % 10)]);
      if Digits(m / 10, width - 1) == Digits(n / 10, width - 1) {
        DigitsRoundTrip(m / 10, width - 1);
        DigitsRoundTrip(n / 10, width - 1);
      }
      assert Less([Digit(m % 10)], [Digit(n % 10)]) <==> m % 10 < n % 10;
    }
  }

  // ---- printing and parsing ----

  datatype Stamp = Stamp(date: Date, hour: nat, minute: nat, second: nat)

  predicate ValidStamp(s: Stamp) {
    ValidDate(s.date) && s.hour <= 23 && s.minute <= 59 && s.second <= 59
  }

  /** Seconds since the epoch of a stamp. */
  function StampSeconds(s: Stamp): int
    requires ValidStamp(s)
  {
    (DayNumber(s.date) - EPOCH_DAY) * SECONDS_PER_DAY + s.hour * 3600 + s.minute * 60 + s.second
  }

  lemma StampsAscend(a: Stamp, b: Stamp)
    requires ValidStamp(a) && ValidStamp(b)
    ensures StampSeconds(a) < StampSeconds(b) <==>
            DateBefore(a.date, b.date) || (a.date == b.date && (a.hour < b.hour || (a.hour == b.hour &&
            (a.minute < b.minute || (a.minute == b.minute && a.second < b.second)))))
  {
    if DateBefore(a.date, b.date) {
      DatesAscend(a.date, b.date);
    } else if DateBefore(b.date, a.date) {
      DatesAscend(b.date, a.date);
    }
  }

  lemma DaysInRange(t: TimePoint)
    ensures -106752 <= FloorSeconds(t) / SECONDS_PER_DAY <= 106751
  {
    var seconds := FloorSeconds(t);
    assert -9223372037 <= seconds <= 9223372036;
  }

  lemma YearHasFourDigits(date: Date)
    requires ValidDate(date) && DayNumber(date) <= EPOCH_DAY + 106751
    ensures date.year <= 9999
  {
    if date.year > 9999 {
      DayInYear(date);
      DaysToYearClosed(date.year);
    }
  }

  /** hh_mm_ss and year_month_day of the second a time point lies in. */
  method ClockAndDate(t: TimePoint) returns (s: Stamp)
    ensures IsStampOf(s, t)
  {
    var seconds := FloorSeconds(t);
    DaysInRange(t);
    var day := seconds / SECONDS_PER_DAY;
    var clock := seconds % SECONDS_PER_DAY;
    var date := CivilDate(day + EPOCH_DAY);
    YearHasFourDigits(date);
    ClockFields(clock);
    s := Stamp(date, clock / 3600, clock % 3600 / 60, clock % 3600 % 60);
  }

  ghost predicate IsStampOf(s: Stamp, t: TimePoint) {
    Printable(s) && StampSeconds(s) == FloorSeconds(t)
  }

  lemma StampExists(t: TimePoint)
    ensures exists s :: IsStampOf(s, t)
  {
    DaysInRange(t);
    var clock := FloorSeconds(t) % SECONDS_PER_DAY;
    var date := CivilDate(FloorSeconds(t) / SECONDS_PER_DAY + EPOCH_DAY);
    YearHasFourDigits(date);
    ClockFields(clock);
    assert IsStampOf(Stamp(date, clock / 3600, clock % 3600 / 60, clock % 3600 % 60), t);
  }

  /** The calendar date and clock time of the second of t: there is exactly one. */
  ghost function StampOf(t: TimePoint): (s: Stamp)
    ensures IsStampOf(s, t)
  {
    StampExists(t);
    var s :| IsStampOf(s, t);
    s
  }

  lemma StampIsUnique(s: Stamp, t: TimePoint)
    requires IsStampOf(s, t)
    ensures s == StampOf(t)
  {
    var s' := StampOf(t);
    StampsAscend(s, s');
    StampsAscend(s', s);
  }

  lemma ClockFields(clock: nat)
    requires clock < SECONDS_PER_DAY
    ensures clock / 3600 <= 23 && clock % 3600 / 60 <= 59
    ensures clock == clock / 3600 * 3600 + clock % 3600 / 60 * 60 + clock % 3600 % 60
  {}

  lemma FieldsFit(s: Stamp)
    requires Printable(s)
    ensures s.date.year < Power10(4) && s.date.month < Power10(2) && s.date.day < Power10(2)
    ensures s.hour < Power10(2) && s.minute < Power10(2) && s.second < Power10(2)
  {
    assert Power10(2) == 100 && Power10(3) == 1000 && Power10(4) == 10000;
  }

  ghost function StampText(s: Stamp, compact: bool): string
    requires Printable(s)
  {
    FieldsFit(s);
    var colon := if compact then "" else ":";
    Numeral(s.date.year, 4) + ("-" + (Numeral(s.date.month, 2) + ("-" + (Numeral(s.date.day, 2) + ("T" +
    ClockText(s, colon))))))
  }

  ghost function ClockText(s: Stamp, colon: string): string
    requires Printable(s)
  {
    FieldsFit(s);
    Numeral(s.hour, 2) + (colon + (Numeral(s.minute, 2) + (colon + (Numeral(s.second, 2) + "Z"))))
  }

  /** The compact form names snapshots, the other is the date-time of section 5.6 of RFC 3339. */
  ghost function FormatUtc(t: TimePoint, compact: bool): string {
    StampText(StampOf(t), compact)
  }

  method FormatUtcTimestamp(t: TimePoint, compact: bool) returns (output: string)
    ensures output == FormatUtc(t, compact)
  {
    var s := ClockAndDate(t);
    StampIsUnique(s, t);
    output := PrintStamp(s, compact);
  }

  method PrintStamp(s: Stamp, compact: bool) returns (output: string)
    requires Printable(s)
    ensures output == StampText(s, compact)
  {
    FieldsFit(s);
    var clock := PrintClock(s, if compact then "" else ":");
    DigitsPrintNumeral(s.date.year, 4);
    DigitsPrintNumeral(s.date.month, 2);
    DigitsPrintNumeral(s.date.day, 2);
    output := Digits(s.date.year, 4) + ("-" + (Digits(s.date.month, 2) + ("-" + (Digits(s.date.day, 2) + ("T" + clock)))));
  }

  method PrintClock(s: Stamp, colon: string) returns (output: string)
    requires Printable(s)
    ensures output == ClockText(s, colon)
  {
    FieldsFit(s);
    DigitsPrintNumeral(s.hour, 2);
    DigitsPrintNumeral(s.minute, 2);
    DigitsPrintNumeral(s.second, 2);
    output := Digits(s.hour, 2) + (colon + (Digits(s.minute, 2) + (colon + (Digits(s.second, 2) + "Z"))));
  }

  /** What parse_utc_timestamp yields. The source adds 64-bit durations, which is undefined on overflow. */
  datatype Parsed = Invalid | Overflow | At(time: TimePoint)

  function ReadFields(value: string): (r: Option<Stamp>) {
    var iso := |value| == 20;
    if |value| != 18 && !iso then None
    else if value[4] != '-' || value[7] != '-' || value[10] != 'T' || value[|value| - 1] != 'Z' then None
    else if iso && (value[13] != ':' || value[16] != ':') then None
    else
      var minute := if iso then 14 else 13;
      var second := if iso then 17 else 15;
      var y, m, d := DecimalValue(value[0..4]), DecimalValue(value[5..7]), DecimalValue(value[8..10]);
      var h, mi, s := DecimalValue(value[11..13]), DecimalValue(value[minute..minute + 2]),
                      DecimalValue(value[second..second + 2]);
      if y.None? || m.None? || d.None? || h.None? || mi.None? || s.None? then None
      else Some(Stamp(Date(y.value, m.value, d.value), h.value, mi.value, s.value))
  }

  function ParseUtc(value: string): Parsed {
    var fields := ReadFields(value);
    if fields.None? || !ValidStamp(fields.value) then Invalid
    else
      var s := fields.value;
      var atDay := (DayNumber(s.date) - EPOCH_DAY) * NS_PER_DAY;
      var atHour := atDay + s.hour * 3600 * NS_PER_SECOND;
      var atMinute := atHour + s.minute * 60 * NS_PER_SECOND;
      var atSecond := atMinute + s.second * NS_PER_SECOND;
      if Representable(atDay) && Representable(atHour) && Representable(atMinute) && Representable(atSecond)
      then At(atSecond) else Overflow
  }

  predicate Printable(s: Stamp) {
    ValidStamp(s) && s.date.year <= 9999
  }

  lemma DateSlices(y: string, m: string, d: string, clock: string)
    requires |y| == 4 && |m| == |d| == 2
    ensures var v := y + ("-" + (m + ("-" + (d + ("T" + clock)))));
            && |v| == 11 + |clock| && v[4] == v[7] == '-' && v[10] == 'T'
            && v[0..4] == y && v[5..7] == m && v[8..10] == d && v[11..] == clock
  {}

  lemma ClockSlices(h: string, mi: string, s: string, colon: string)
    requires |h| == |mi| == |s| == 2 && |colon| <= 1
    ensures var v := h + (colon + (mi + (colon + (s + "Z"))));
            && |v| == 7 + 2 * |colon| && v[|v| - 1] == 'Z' && v[0..2] == h
            && v[2 + |colon|..4 + |colon|] == mi && v[4 + 2 * |colon|..6 + 2 * |colon|] == s
            && (|colon| == 1 ==> v[2] == v[5] == colon[0])
  {}

  lemma SliceOfSuffix(v: string, k: nat, i: nat, j: nat)
    requires k <= |v| && i <= j <= |v| - k
    ensures v[k..][i..j] == v[k + i..k + j]
  {}

  lemma ReadStamp(s: Stamp, compact: bool)
    requires Printable(s)
    ensures ReadFields(StampText(s, compact)) == Some(s)
  {
    FieldsFit(s);
    var colon := if compact then "" else ":";
    var v, clock := StampText(s, compact), ClockText(s, colon);
    DateSlices(Numeral(s.date.year, 4), Numeral(s.date.month, 2), Numeral(s.date.day, 2), clock);
    ClockSlices(Numeral(s.hour, 2), Numeral(s.minute, 2), Numeral(s.second, 2), colon);
    SliceOfSuffix(v, 11, 0, 2);
    SliceOfSuffix(v, 11, 2 + |colon|, 4 + |colon|);
    SliceOfSuffix(v, 11, 4 + 2 * |colon|, 6 + 2 * |colon|);
    assert v[11..][|clock| - 1] == v[|v| - 1];
    if !compact {
      assert v[11..][2] == v[13] && v[11..][5] == v[16];
    }
  }

  /** The first instant of the UTC day a time point lies in. */
  function DayStart(t: TimePoint): int {
    FloorSeconds(t) / SECONDS_PER_DAY * NS_PER_DAY
  }

  /** Parsing either printed form gives the time point back, floored to the second, exactly when the
      midnight before it is representable; the only exceptions lie on 1677-09-21. */
  lemma RoundTrip(t: TimePoint, compact: bool)
    ensures ParseUtc(FormatUtc(t, compact)) ==
            if Representable(DayStart(t)) then At(FloorSeconds(t) * NS_PER_SECOND) else Overflow
  {
    var s := StampOf(t);
    ReadStamp(s, compact);
    SecondsOfDay(s, t);
    PartialSums(FloorSeconds(t) / SECONDS_PER_DAY, s.hour, s.minute, s.second, t);
  }

  /** Only the conversion of the day count can overflow: every later sum lies between it and the time point. */
  lemma PartialSums(day: int, hour: nat, minute: nat, second: nat, t: TimePoint)
    requires day * SECONDS_PER_DAY + hour * 3600 + minute * 60 + second == FloorSeconds(t)
    ensures var atDay := day * NS_PER_DAY;
            var atHour := atDay + hour * 3600 * NS_PER_SECOND;
            var atMinute := atHour + minute * 60 * NS_PER_SECOND;
            var atSecond := atMinute + second * NS_PER_SECOND;
            atSecond == FloorSeconds(t) * NS_PER_SECOND && atDay <= atHour <= atMinute <= atSecond <= INT64_MAX
  {
    assert FloorSeconds(t) * NS_PER_SECOND <= t;
  }

  lemma SecondsOfDay(s: Stamp, t: TimePoint)
    requires ValidStamp(s) && StampSeconds(s) == FloorSeconds(t)
    ensures DayNumber(s.date) - EPOCH_DAY == FloorSeconds(t) / SECONDS_PER_DAY
  {
    var clock := s.hour * 3600 + s.minute * 60 + s.second;
    assert 0 <= clock < SECONDS_PER_DAY;
  }

  /** The round trip fails for the earliest time point of all. */
  lemma EarliestTimePointOverflows(t: TimePoint, compact: bool)
    requires t == INT64_MIN
    ensures ParseUtc(FormatUtc(t, compact)) == Overflow
  {
    RoundTrip(t, compact);
  }

  /** Printing a parsed timestamp gives the text back: no two texts of one form denote the same second. */
  lemma PrintedFormIsUnique(value: string)
    requires ParseUtc(value).At?
    ensures FormatUtc(ParseUtc(value).time, |value| == 18) == value
  {
    var s := ReadFields(value).value;
    TextOfFields(value);
    StampIsUnique(s, ParseUtc(value).time);
  }

  lemma TextOfFields(value: string)
    requires ReadFields(value).Some? && ValidStamp(ReadFields(value).value)
    ensures var s := ReadFields(value).value;
            Printable(s) && StampText(s, |value| == 18) == value
  {
    assert Power10(2) == 100 && Power10(3) == 1000 && Power10(4) == 10000;
    NumeralOf(value[0..4]);
    NumeralOf(value[5..7]);
    NumeralOf(value[8..10]);
    NumeralOf(value[11..13]);
    if |value| == 18 {
      NumeralOf(value[13..15]);
      NumeralOf(value[15..17]);
      CompactPieces(value);
    } else {
      NumeralOf(value[14..16]);
      NumeralOf(value[17..19]);
      ExtendedPieces(value);
    }
  }

  lemma DatePieces(value: string)
    requires |value| >= 11 && value[4] == value[7] == '-' && value[10] == 'T'
    ensures value == value[0..4] + ("-" + (value[5..7] + ("-" + (value[8..10] + ("T" + value[11..])))))
  {
    assert value[8..] == value[8..10] + ("T" + value[11..]);
    assert value[5..] == value[5..7] + ("-" + value[8..]);
    assert value == value[0..4] + ("-" + value[5..]);
  }

  lemma CompactPieces(value: string)
    requires |value| == 18 && value[4] == value[7] == '-' && value[10] == 'T' && value[17] == 'Z'
    ensures value == value[0..4] + ("-" + (value[5..7] + ("-" + (value[8..10] + ("T" +
                     (value[11..13] + ("" + (value[13..15] + ("" + (value[15..17] + "Z"))))))))))
  {
    DatePieces(value);
    assert value[15..] == value[15..17] + "Z";
    assert value[13..] == value[13..15] + ("" + value[15..]);
    assert value[11..] == value[11..13] + ("" + value[13..]);
  }

  lemma ExtendedPieces(value: string)
    requires |value| == 20 && value[4] == value[7] == '-' && value[10] == 'T' && value[19] == 'Z'
    requires value[13] == value[16] == ':'
    ensures value == value[0..4] + ("-" + (value[5..7] + ("-" + (value[8..10] + ("T" +
                     (value[11..13] + (":" + (value[14..16] + (":" + (value[17..19] + "Z"))))))))))
  {
    DatePieces(value);
    assert value[17..] == value[17..19] + "Z";
    assert value[14..] == value[14..16] + (":" + value[17..]);
    assert value[11..] == value[11..13] + (":" + value[14..]);
  }

  /** Texts of one form compare as the seconds they denote. */
  lemma TextOrderIsTimeOrder(a: TimePoint, b: TimePoint, compact: bool)
    ensures Less(FormatUtc(a, compact), FormatUtc(b, compact)) <==> FloorSeconds(a) < FloorSeconds(b)
  {
    StampsAscend(StampOf(a), StampOf(b));
    StampTextOrder(StampOf(a), StampOf(b), compact);
  }

  /** One field of a fixed-width text: it decides the comparison unless both sides agree on it. */
  lemma FieldOrder(m: nat, n: nat, width: nat, restM: string, restN: string)
    requires m < Power10(width) && n < Power10(width)
    ensures Less(Numeral(m, width) + restM, Numeral(n, width) + restN) <==> m < n || (m == n && Less(restM, restN))
  {
    LessConcat(Numeral(m, width), restM, Numeral(n, width), restN);
    DigitsAscend(m, n, width);
    DigitsPrintNumeral(m, width);
    DigitsPrintNumeral(n, width);
  }

  lemma SeparatorOrder(separator: string, a: string, b: string)
    ensures Less(separator + a, separator + b) <==> Less(a, b)
  {
    LessConcat(separator, a, separator, b);
    LessIrreflexive(separator);
  }

  lemma ClockTextOrder(a: Stamp, b: Stamp, colon: string)
    requires Printable(a) && Printable(b)
    ensures Less(ClockText(a, colon), ClockText(b, colon)) <==>
            a.hour < b.hour || (a.hour == b.hour &&
            (a.minute < b.minute || (a.minute == b.minute && a.second < b.second)))
  {
    FieldsFit(a);
    FieldsFit(b);
    var secondA, secondB := Numeral(a.second, 2) + "Z", Numeral(b.second, 2) + "Z";
    var minuteA, minuteB := Numeral(a.minute, 2) + (colon + secondA), Numeral(b.minute, 2) + (colon + secondB);
    FieldOrder(a.hour, b.hour, 2, colon + minuteA, colon + minuteB);
    SeparatorOrder(colon, minuteA, minuteB);
    FieldOrder(a.minute, b.minute, 2, colon + secondA, colon + secondB);
    SeparatorOrder(colon, secondA, secondB);
    FieldOrder(a.second, b.second, 2, "Z", "Z");
    LessIrreflexive("Z");
  }

  lemma StampTextOrder(a: Stamp, b: Stamp, compact: bool)
    requires Printable(a) && Printable(b)
    ensures Less(StampText(a, compact), StampText(b, compact)) <==>
            DateBefore(a.date, b.date) || (a.date == b.date && (a.hour < b.hour || (a.hour == b.hour &&
            (a.minute < b.minute || (a.minute == b.minute && a.second < b.second)))))
  {
    FieldsFit(a);
    FieldsFit(b);
    var colon := if compact then "" else ":";
    var clockA, clockB := ClockText(a, colon), ClockText(b, colon);
    var dayA, dayB := Numeral(a.date.day, 2) + ("T" + clockA), Numeral(b.date.day, 2) + ("T" + clockB);
    var monthA, monthB := Numeral(a.date.month, 2) + ("-" + dayA), Numeral(b.date.month, 2) + ("-" + dayB);
    FieldOrder(a.date.year, b.date.year, 4, "-" + monthA, "-" + monthB);
    SeparatorOrder("-", monthA, monthB);
    FieldOrder(a.date.month, b.date.month, 2, "-" + dayA, "-" + dayB);
    SeparatorOrder("-", dayA, dayB);
    FieldOrder(a.date.day, b.date.day, 2, "T" + clockA, "T" + clockB);
    SeparatorOrder("T", clockA, clockB);
    ClockTextOrder(a, b, colon);
  }
}
