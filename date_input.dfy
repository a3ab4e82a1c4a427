/** `parseDateFromInput`: the value of an `<input type="date">`, "yyyy-mm-dd",
    split on '-', each piece converted with `Number`, and the three numbers
    handed to `new Date(year, month - 1, day)`, which resolves them with the
    ECMAScript calendar (MakeDay, DayFromYear, TimeClip).  Local time is UTC. */
module DateInput {
  import opened Replay

  // ----- String.prototype.split('-') -----

  /** The pieces between the dashes, empty pieces included ("" gives [""]). */
  function Split(s: string): (r: seq<string>)
    ensures |r| >= 1
    ensures forall i :: 0 <= i < |r| ==> '-' !in r[i]
    decreases |s|
  {
    if s == [] then [""]
    else
      var rest := Split(s[1..]);
      if s[0] == '-' then [""] + rest
      else [[s[0]] + rest[0]] + rest[1..]
  }

  /** The pieces glued back together with dashes. */
  function Join(parts: seq<string>): string
    requires |parts| >= 1
    decreases |parts|
  {
    if |parts| == 1 then parts[0] else parts[0] + "-" + Join(parts[1..])
  }

  /** Splitting loses nothing: the pieces joined again give back the input. */
  lemma {:induction false} JoinSplit(s: string)
    ensures Join(Split(s)) == s
    decreases |s|
  {
    if s != [] {
      JoinSplit(s[1..]);
      var rest := Split(s[1..]);
      if s[0] == '-' {
        assert ([""] + rest)[1..] == rest;
      } else {
        var r := [[s[0]] + rest[0]] + rest[1..];
        if |rest| == 1 {
          assert r == [[s[0]] + rest[0]];
        } else {
          assert r[1..] == rest[1..];
          assert Join(rest) == rest[0] + "-" + Join(rest[1..]);
        }
        assert s == [s[0]] + s[1..];
      }
    }
  }

  /** A piece without a dash, then a dash, splits off as the first piece. */
  lemma {:induction false} SplitDash(a: string, b: string)
    requires '-' !in a
    ensures Split(a + "-" + b) == [a] + Split(b)
    decreases |a|
  {
    if a == [] {
      assert a + "-" + b == "-" + b;
      assert ("-" + b)[1..] == b;
    } else {
      assert (a + "-" + b)[0] == a[0];
      assert (a + "-" + b)[1..] == a[1..] + "-" + b;
      SplitDash(a[1..], b);
      assert [a[0]] + a[1..] == a;
    }
  }

  /** Dash-free pieces joined with dashes split back into the same pieces. */
  lemma {:induction false} SplitJoin(parts: seq<string>)
    requires |parts| >= 1 && forall i :: 0 <= i < |parts| ==> '-' !in parts[i]
    ensures Split(Join(parts)) == parts
    decreases |parts|
  {
    if |parts| == 1 {
      SplitNoDash(parts[0]);
    } else {
      SplitJoin(parts[1..]);
      SplitDash(parts[0], Join(parts[1..]));
      assert parts == [parts[0]] + parts[1..];
    }
  }

  lemma {:induction false} SplitNoDash(s: string)
    requires '-' !in s
    ensures Split(s) == [s]
    decreases |s|
  {
    if s != [] {
      assert s[0] in s;
      assert forall c :: c in s[1..] ==> c in s;
      SplitNoDash(s[1..]);
      assert [s[0]] + s[1..] == s;
    }
  }

  // ----- Number(piece) -----

  predicate IsDigit(c: char) {
    '0' <= c <= '9'
  }

  predicate AllDigits(s: string) {
    forall i :: 0 <= i < |s| ==> IsDigit(s[i])
  }

  function DigitValue(c: char): nat
    requires IsDigit(c)
  {
    c as int - '0' as int
  }

  /** The value of a string of decimal digits; the empty string is 0. */
  function DigitsValue(s: string): nat
    requires AllDigits(s)
    decreases |s|
  {
    if s == [] then 0 else 10 * DigitsValue(s[..|s| - 1]) + DigitValue(s[|s| - 1])
  }

  /** `Number(piece)` on the pieces a date field yields: a string of decimal digits is its
      value, the empty string is 0, anything else is NaN (None). */
  function Number(s: string): (r: Option<int>)
    ensures r.Some? <==> AllDigits(s)
    ensures r.Some? ==> r.value >= 0
  {
    if AllDigits(s) then Some(DigitsValue(s)) else None
  }

  function Digit(d: nat): (c: char)
    requires d < 10
    ensures IsDigit(c) && DigitValue(c) == d
  {
    ('0' as int + d) as char
  }

  /** `n` in decimal, padded with leading zeros to at least `width` digits. */
  function Decimal(n: nat, width: nat): (s: string)
    ensures AllDigits(s) && |s| >= width && |s| >= 1
    decreases n + width
  {
    if n < 10 && width <= 1 then [Digit(n)]
    else Decimal(n / 10, if width > 0 then width - 1 else 0) + [Digit(n % 10)]
  }

  /** `Number` reads back what `Decimal` writes, leading zeros and all. */
  lemma {:induction false} NumberOfDecimal(n: nat, width: nat)
    ensures Number(Decimal(n, width)) == Some(n)
    decreases n + width
  {
    var s := Decimal(n, width);
    if n < 10 && width <= 1 {
      assert s[..0] == [];
      assert DigitsValue(s) == 10 * DigitsValue(s[..0]) + DigitValue(s[0]);
    } else {
      var w := if width > 0 then width - 1 else 0;
      NumberOfDecimal(n / 10, w);
      assert s[..|s| - 1] == Decimal(n / 10, w);
    }
  }

  lemma DecimalHasNoDash(n: nat, width: nat)
    ensures '-' !in Decimal(n, width)
  {
  }

  // ----- new Date(year, monthIndex, day) -----

  /** `DayFromYear`: the day number of 1 January of year `y` (day 0 is 1 January 1970). */
  function DayFromYear(y: int): int {
    365 * (y - 1970) + (y - 1969) / 4 - (y - 1901) / 100 + (y - 1601) / 400
  }

  predicate InLeapYear(y: int) {
    (y % 4 == 0 && y % 100 != 0) || y % 400 == 0
  }

  function DaysInYear(y: int): int {
    if InLeapYear(y) then 366 else 365
  }

  function DaysInMonth(y: int, mn: int): int
    requires 0 <= mn < 12
  {
    if mn == 1 then (if InLeapYear(y) then 29 else 28)
    else if mn == 3 || mn == 5 || mn == 8 || mn == 10 then 30
    else 31
  }

  /** The days of year `y` before month `mn` (0-based); after all twelve, the whole year. */
  function DaysBeforeMonth(y: int, mn: int): int
    requires 0 <= mn <= 12
    decreases mn
  {
    if mn == 0 then 0 else DaysBeforeMonth(y, mn - 1) + DaysInMonth(y, mn - 1)
  }

  /** `MakeDay(year, month, date)`: the month index may overflow into other years and the
      date into other months. */
  function MakeDay(year: int, month: int, date: int): int {
    var ym := year + month / 12;
    var mn := month % 12;
    DayFromYear(ym) + DaysBeforeMonth(ym, mn) + date - 1
  }

  /** The largest distance from the epoch a time value may have. */
  const MaxTime: int := 8_640_000_000_000_000

  /** `TimeClip`: outside the representable range the date is invalid. */
  function TimeClip(t: int): (r: Option<Time>)
    ensures r.Some? <==> -MaxTime <= t <= MaxTime
    ensures r.Some? ==> r.value == t
  {
    if -MaxTime <= t <= MaxTime then Some(t) else None
  }

  /** `new Date(year, monthIndex, day)`: local midnight of that day; a year from 0 to 99
      means 1900 to 1999. None is an Invalid Date. */
  function NewDate(year: int, monthIndex: int, day: int): (r: Option<Time>)
    ensures r.Some? ==> r.value % DayLength == 0 && -MaxTime <= r.value <= MaxTime
  {
    var yr := if 0 <= year <= 99 then 1900 + year else year;
    TimeClip(MakeDay(yr, monthIndex, day) * DayLength)
  }

  /** `parseDateFromInput`. */
  function ParseDateFromInput(inputValue: string): (r: Option<Time>)
    ensures |Split(inputValue)| < 3 ==> r == None
    ensures (|Split(inputValue)| >= 3 &&
             !(AllDigits(Split(inputValue)[0]) && AllDigits(Split(inputValue)[1]) && AllDigits(Split(inputValue)[2])))
            ==> r == None
    ensures r.Some? ==> r.value % DayLength == 0
  {
    var parts := Split(inputValue);
    if |parts| < 3 then None
    else
      var year, month, day := Number(parts[0]), Number(parts[1]), Number(parts[2]);
      if year.None? || month.None? || day.None? then None
      else NewDate(year.value, month.value - 1, day.value)
  }

  // ----- Properties -----

  /** What a date field holds for year `y`, month `m` and day `d`. */
  function FieldValue(y: nat, m: nat, d: nat): string {
    Decimal(y, 4) + "-" + Decimal(m, 2) + "-" + Decimal(d, 2)
  }

  /** Parsing a field value gives the date its numbers name. */
  lemma ParseFieldValue(y: nat, m: nat, d: nat)
    ensures ParseDateFromInput(FieldValue(y, m, d)) == NewDate(y, m - 1, d)
  {
    var parts := [Decimal(y, 4), Decimal(m, 2), Decimal(d, 2)];
    SplitFieldValue(y, m, d);
    NumberOfDecimal(y, 4);
    NumberOfDecimal(m, 2);
    NumberOfDecimal(d, 2);
    ParseParts(FieldValue(y, m, d), parts, y, m, d);
  }

  lemma SplitFieldValue(y: nat, m: nat, d: nat)
    ensures Split(FieldValue(y, m, d)) == [Decimal(y, 4), Decimal(m, 2), Decimal(d, 2)]
  {
    var parts := [Decimal(y, 4), Decimal(m, 2), Decimal(d, 2)];
    DecimalHasNoDash(y, 4);
    DecimalHasNoDash(m, 2);
    DecimalHasNoDash(d, 2);
    assert Join(parts) == FieldValue(y, m, d) by {
      assert parts[1..][1..] == [Decimal(d, 2)];
      assert Join(parts[1..]) == Decimal(m, 2) + "-" + Decimal(d, 2);
      assert Join(parts) == Decimal(y, 4) + "-" + (Decimal(m, 2) + "-" + Decimal(d, 2));
    }
    SplitJoin(parts);
  }

  lemma ParseParts(s: string, parts: seq<string>, y: nat, m: nat, d: nat)
    requires Split(s) == parts && |parts| == 3
    requires Number(parts[0]) == Some(y) && Number(parts[1]) == Some(m) && Number(parts[2]) == Some(d)
    ensures ParseDateFromInput(s) == NewDate(y, m - 1, d)
  {
  }

  /** The calendar day number of day `d` of month `m` (1-based) of year `y`. */
  function CalendarDay(y: int, m: int, d: int): int
    requires 1 <= m <= 12
  {
    DayFromYear(y) + DaysBeforeMonth(y, m - 1) + d - 1
  }

  predicate ValidDate(y: int, m: int, d: int) {
    1 <= m <= 12 && 1 <= d <= DaysInMonth(y, m - 1)
  }

  lemma DaysBeforeMonthBounds(y: int, mn: int)
    requires 0 <= mn <= 12
    ensures 0 <= DaysBeforeMonth(y, mn) <= 31 * mn
  {
  }

  /** A four-digit year from 100 on names its own year, and the date is within range. */
  lemma ParseFourDigitYear(y: nat, m: nat, d: nat)
    requires 100 <= y <= 9999 && ValidDate(y, m, d)
    ensures ParseDateFromInput(FieldValue(y, m, d)) == Some(CalendarDay(y, m, d) * DayLength)
  {
    ParseFieldValue(y, m, d);
    MakeDayInYear(y, m, d);
    var c := CalendarDay(y, m, d);
    CalendarDayBounds(y, m, d);
    ClipInRange(c);
    assert NewDate(y, m - 1, d) == TimeClip(c * DayLength);
  }

  lemma MakeDayInYear(y: int, m: int, d: int)
    requires 1 <= m <= 12
    ensures MakeDay(y, m - 1, d) == CalendarDay(y, m, d)
  {
    assert (m - 1) / 12 == 0 && (m - 1) % 12 == m - 1;
  }

  lemma CalendarDayBounds(y: int, m: int, d: int)
    requires 100 <= y <= 9999 && ValidDate(y, m, d)
    ensures -800_000 <= CalendarDay(y, m, d) <= 3_000_000
  {
    DaysBeforeMonthBounds(y, m - 1);
    YearBounds(y);
  }

  lemma YearBounds(y: int)
    requires 100 <= y <= 9999
    ensures -700_000 <= DayFromYear(y) <= 2_933_000
  {
  }

  lemma ClipInRange(c: int)
    requires -800_000 <= c <= 3_000_000
    ensures TimeClip(c * DayLength) == Some(c * DayLength)
  {
  }

  /** A year written as 0000 to 0099 is read as 1900 to 1999. */
  lemma TwoDigitYear(y: nat, m: nat, d: nat)
    requires y <= 99
    ensures ParseDateFromInput(FieldValue(y, m, d)) == NewDate(1900 + y, m - 1, d)
  {
    ParseFieldValue(y, m, d);
  }

  /** Floor division by 4, 100 or 400 grows by one exactly where the next value is a multiple. */
  lemma DivStep4(x: int)
    ensures (x + 1) / 4 == x / 4 + (if (x + 1) % 4 == 0 then 1 else 0)
  {
  }

  lemma DivStep100(x: int)
    ensures (x + 1) / 100 == x / 100 + (if (x + 1) % 100 == 0 then 1 else 0)
  {
  }

  lemma DivStep400(x: int)
    ensures (x + 1) / 400 == x / 400 + (if (x + 1) % 400 == 0 then 1 else 0)
  {
  }

  /** Consecutive years lie `DaysInYear` days apart. */
  lemma DayFromYearStep(y: int)
    ensures DayFromYear(y + 1) == DayFromYear(y) + DaysInYear(y)
  {
    DivStep4(y - 1969);
    DivStep100(y - 1901);
    DivStep400(y - 1601);
    ShiftMod(y);
    Multiples(y);
    var d4 := if y % 4 == 0 then 1 else 0;
    var d100 := if y % 100 == 0 then 1 else 0;
    var d400 := if y % 400 == 0 then 1 else 0;
    assert DayFromYear(y + 1) - DayFromYear(y) == 365 + d4 - d100 + d400;
  }

  /** A multiple of 400 is a multiple of 100, which is a multiple of 4. */
  lemma Multiples(y: int)
    ensures y % 400 == 0 ==> y % 100 == 0
    ensures y % 100 == 0 ==> y % 4 == 0
  {
    if y % 400 == 0 {
      var k := y / 400;
      assert y == 400 * k;
      HundredTimes(4 * k);
    }
    if y % 100 == 0 {
      var k := y / 100;
      assert y == 100 * k;
      FourTimes(25 * k);
    }
  }

  lemma HundredTimes(k: int)
    ensures (100 * k) % 100 == 0
  {
  }

  lemma FourTimes(k: int)
    ensures (4 * k) % 4 == 0
  {
  }

  /** Shifting by a whole number of periods keeps the remainder. */
  lemma ShiftMod(y: int)
    ensures (y - 1968) % 4 == y % 4 && (y - 1900) % 100 == y % 100 && (y - 1600) % 400 == y % 400
  {
    ShiftMod4(y);
    ShiftMod100(y);
    ShiftMod400(y);
  }

  lemma ShiftMod4(y: int)
    ensures (y - 1968) % 4 == y % 4
  {
  }

  lemma ShiftMod100(y: int)
    ensures (y - 1900) % 100 == y % 100
  {
  }

  lemma ShiftMod400(y: int)
    ensures (y - 1600) % 400 == y % 400
  {
  }

  lemma {:induction false} LastDayOfYear(y: int, m: int, d: int)
    requires ValidDate(y, m, d)
    ensures CalendarDay(y, m, d) < DayFromYear(y + 1)
  {
    DaysBeforeMonthInYear(y, m);
    DayFromYearStep(y);
  }

  lemma {:induction false} DaysBeforeMonthInYear(y: int, m: int)
    requires 1 <= m <= 12
    ensures DaysBeforeMonth(y, m) <= DaysBeforeMonth(y, 12) && DaysBeforeMonth(y, 12) == DaysInYear(y)
    decreases 12 - m
  {
    if m < 12 {
      DaysBeforeMonthInYear(y, m + 1);
    }
  }

  lemma {:induction false} DayFromYearIncreasing(y1: int, y2: int)
    requires y1 < y2
    ensures DayFromYear(y1 + 1) <= DayFromYear(y2)
    decreases y2 - y1
  {
    if y1 + 1 < y2 {
      DayFromYearIncreasing(y1 + 1, y2);
      DayFromYearStep(y1 + 1);
    }
  }

  lemma {:induction false} MonthsIncreasing(y: int, m1: int, m2: int)
    requires 1 <= m1 < m2 <= 12
    ensures DaysBeforeMonth(y, m1) <= DaysBeforeMonth(y, m2 - 1)
    decreases m2 - m1
  {
    if m1 < m2 - 1 {
      MonthsIncreasing(y, m1, m2 - 1);
    }
  }

  /** Valid dates in calendar order have day numbers in the same order, so comparing the parsed
      `from` and `to` compares the dates the user picked. */
  lemma CalendarOrder(y1: int, m1: int, d1: int, y2: int, m2: int, d2: int)
    requires ValidDate(y1, m1, d1) && ValidDate(y2, m2, d2)
    requires y1 < y2 || (y1 == y2 && m1 < m2) || (y1 == y2 && m1 == m2 && d1 < d2)
    ensures CalendarDay(y1, m1, d1) < CalendarDay(y2, m2, d2)
  {
    if y1 < y2 {
      LastDayOfYear(y1, m1, d1);
      DayFromYearIncreasing(y1, y2);
      DaysBeforeMonthBounds(y2, m2 - 1);
    } else if m1 < m2 {
      MonthsIncreasing(y1, m1, m2);
    }
  }

  /** A month index of 12 or more rolls over into the following years. */
  lemma MonthOverflow(year: int, month: int, date: int)
    ensures MakeDay(year, month + 12, date) == MakeDay(year + 1, month, date)
  {
    assert (month + 12) / 12 == month / 12 + 1 && (month + 12) % 12 == month % 12;
  }
}
