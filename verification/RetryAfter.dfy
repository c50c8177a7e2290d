/** Retry-After values: digit strings, dates with two-digit years, and the delay they ask for. */
module RetryAfter {
  import opened Base

  /** A point of the proleptic calendar; the day starts at second zero. */
  datatype Civil = Civil(year: int, month: int, day: int, second: real)

  /** One normalized value, as the header gave it. */
  datatype Wish =
    | Seconds(seconds: nat)
    | NotBefore(instant: real)
    | LegacyDate(yy: nat, month: int, day: int, second: int, weekday: nat)
    | Excessive

  // ----- Digit strings -----

  const LIMIT := 1_000_000_000_000_000_000

  predicate IsDigit(c: char) {
    '0' <= c <= '9'
  }

  predicate AllDigits(text: string) {
    text != "" && forall i | 0 <= i < |text| :: IsDigit(text[i])
  }

  function DigitValue(c: char): nat
    requires IsDigit(c)
  {
    c as int - '0' as int
  }

  /** The number that a digit string denotes. */
  function Value(text: string): nat
    requires forall i | 0 <= i < |text| :: IsDigit(text[i])
  {
    if text == "" then 0 else 10 * Value(text[..|text| - 1]) + DigitValue(text[|text| - 1])
  }

  function StripZeros(text: string): string {
    if text != "" && text[0] == '0' then StripZeros(text[1..]) else text
  }

  /** The parser's rule: strip leading zeros, then decide by length alone. */
  function ParseDigits(text: string): Wish
    requires AllDigits(text)
  {
    var stripped := StripZeros(text);
    StrippedDigits(text);
    var digits := if stripped == "" then "0" else stripped;
    if |digits| > 18 then Excessive else Seconds(Value(digits))
  }

  lemma {:induction false} StrippedDigits(text: string)
    requires forall i | 0 <= i < |text| :: IsDigit(text[i])
    ensures forall i | 0 <= i < |StripZeros(text)| :: IsDigit(StripZeros(text)[i])
    ensures StripZeros(text) != "" ==> StripZeros(text)[0] != '0'
    ensures Value(StripZeros(text)) == Value(text)
    decreases |text|
  {
    if text != "" && text[0] == '0' {
      StrippedDigits(text[1..]);
      LeadingZero(text);
    }
  }

  lemma {:induction false} LeadingZero(text: string)
    requires text != "" && text[0] == '0' && forall i | 0 <= i < |text| :: IsDigit(text[i])
    ensures Value(text[1..]) == Value(text)
    decreases |text|
  {
    if |text| > 1 {
      LeadingZero(text[..|text| - 1]);
      assert text[1..][..|text[1..]| - 1] == text[..|text| - 1][1..];
    } else {
      assert text[1..] == "" && text[..0] == "";
    }
  }

  function Pow10(n: nat): nat {
    if n == 0 then 1 else 10 * Pow10(n - 1)
  }

  lemma {:induction false} ValueByLength(text: string)
    requires text != "" && forall i | 0 <= i < |text| :: IsDigit(text[i])
    ensures Value(text) < Pow10(|text|)
    ensures text[0] != '0' ==> Value(text) >= Pow10(|text| - 1)
    decreases |text|
  {
    if |text| > 1 {
      ValueByLength(text[..|text| - 1]);
    } else {
      assert Value(text[..0]) == 0;
    }
  }

  lemma {:induction false} Pow10Grows(m: nat, n: nat)
    requires m <= n
    ensures Pow10(m) <= Pow10(n)
  {
    if m < n {
      Pow10Grows(m, n - 1);
    }
  }

  lemma LimitIsPower()
    ensures Pow10(18) == LIMIT
  {
    assert Pow10(6) == 1_000_000;
    assert Pow10(12) == 1_000_000_000_000;
  }

  /** However many zeros lead it, a digit string gives its value when that is below the limit, and is excessive otherwise. */
  lemma DigitsGiveTheirValue(text: string)
    requires AllDigits(text)
    ensures ParseDigits(text) == if Value(text) < LIMIT then Seconds(Value(text)) else Excessive
  {
    StrippedDigits(text);
    LimitIsPower();
    var stripped := StripZeros(text);
    if stripped == "" {
      assert Value("0"[..0]) == 0 && Value("0") == 0;
    } else {
      ValueByLength(stripped);
      if |stripped| > 18 {
        Pow10Grows(18, |stripped| - 1);
      } else {
        Pow10Grows(|stripped|, 18);
      }
    }
  }

  // ----- The calendar -----

  predicate Leap(year: int) {
    year % 4 == 0 && (year % 100 != 0 || year % 400 == 0)
  }

  function MonthDays(year: int, month: int): int {
    if month == 2 then (if Leap(year) then 29 else 28)
    else if month in {4, 6, 9, 11} then 30 else 31
  }

  predicate ValidCivil(c: Civil) {
    1 <= c.year <= 9999 && 1 <= c.month <= 12 && 1 <= c.day <= MonthDays(c.year, c.month) && 0.0 <= c.second < 86400.0
  }

  /** Days before the first of a month, in a year. */
  function DaysBefore(year: int, month: int): int
    requires 1 <= month <= 12
  {
    if month == 1 then 0 else DaysBefore(year, month - 1) + MonthDays(year, month - 1)
  }

  /** Days since the first day of year 1, which was a Monday. */
  function DayNumber(c: Civil): int
    requires 1 <= c.month <= 12
  {
    var y := c.year - 1;
    365 * y + y / 4 - y / 100 + y / 400 + DaysBefore(c.year, c.month) + c.day - 1
  }

  const EPOCH_DAY := 719_162

  function Timestamp(c: Civil): real
    requires 1 <= c.month <= 12
  {
    (DayNumber(c) - EPOCH_DAY) as real * 86400.0 + c.second
  }

  predicate Later(a: Civil, b: Civil) {
    a.year > b.year
    || (a.year == b.year
        && (a.month > b.month
            || (a.month == b.month && (a.day > b.day || (a.day == b.day && a.second > b.second)))))
  }

  // ----- Two-digit years -----

  /** Fifty years later; the 29th of February becomes the 28th when that year has none. */
  function FiftyYearsOn(now: Civil): Civil {
    var c := now.(year := now.year + 50);
    if c.day <= MonthDays(c.year, c.month) then c else c.(day := 28)
  }

  /** The date that a two-digit year means at this moment; None when there is no such date. */
  function Resolve(wish: Wish, now: Civil): Option<Civil>
    requires wish.LegacyDate?
  {
    var date := Civil(now.year / 100 * 100 + wish.yy, wish.month, wish.day, wish.second as real);
    if !ValidCivil(date) then None
    else if now.year <= 9949 && Later(date, FiftyYearsOn(now)) then
      var earlier := date.(year := date.year - 100);
      if ValidCivil(earlier) then Some(earlier) else None
    else Some(date)
  }

  /** A resolved date has the digits it was given, and never lies more than fifty years ahead, in any year. */
  lemma NeverBeyondFiftyYears(wish: Wish, now: Civil)
    requires wish.LegacyDate? && wish.yy < 100 && ValidCivil(now)
    ensures Resolve(wish, now).Some? ==>
              var date := Resolve(wish, now).value;
              && ValidCivil(date) && date.year % 100 == wish.yy && date.month == wish.month && date.day == wish.day
              && !Later(date, FiftyYearsOn(now))
              && (date.year / 100 == now.year / 100 || date.year / 100 == now.year / 100 - 1)
  {
  }

  /** The weekday counts from Monday. */
  function Weekday(c: Civil): int
    requires 1 <= c.month <= 12
  {
    DayNumber(c) % 7
  }

  // ----- The order of dates is the order of their instants -----

  function YearStart(year: int): int {
    365 * (year - 1) + (year - 1) / 4 - (year - 1) / 100 + (year - 1) / 400
  }

  lemma YearLength(year: int)
    ensures YearStart(year + 1) == YearStart(year) + (if Leap(year) then 366 else 365)
  {
    Fourths(year);
    Hundredths(year);
    FourHundredths(year);
    LeapCounts(year);
  }

  lemma Fourths(y: int)
    ensures y / 4 == (y - 1) / 4 + (if y % 4 == 0 then 1 else 0)
  {
  }

  lemma Hundredths(y: int)
    ensures y / 100 == (y - 1) / 100 + (if y % 100 == 0 then 1 else 0)
  {
  }

  lemma FourHundredths(y: int)
    ensures y / 400 == (y - 1) / 400 + (if y % 400 == 0 then 1 else 0)
  {
  }

  lemma LeapCounts(y: int)
    ensures (if y % 4 == 0 then 1 else 0) - (if y % 100 == 0 then 1 else 0) + (if y % 400 == 0 then 1 else 0)
            == if Leap(y) then 1 else 0
  {
  }

  lemma {:induction false} YearsInOrder(a: int, b: int)
    requires a <= b
    ensures YearStart(a) <= YearStart(b)
    decreases b - a
  {
    if a < b {
      YearsInOrder(a, b - 1);
      YearLength(b - 1);
    }
  }

  lemma {:induction false} MonthsInOrder(year: int, a: int, b: int)
    requires 1 <= a < b <= 12
    ensures DaysBefore(year, a) + MonthDays(year, a) <= DaysBefore(year, b)
  {
    if a < b - 1 {
      MonthsInOrder(year, a, b - 1);
    }
  }

  lemma YearEnds(year: int)
    ensures DaysBefore(year, 12) + 31 == if Leap(year) then 366 else 365
  {
    assert DaysBefore(year, 2) == 31;
    assert DaysBefore(year, 3) == (if Leap(year) then 60 else 59);
    assert DaysBefore(year, 5) == DaysBefore(year, 3) + 61;
    assert DaysBefore(year, 7) == DaysBefore(year, 5) + 61;
    assert DaysBefore(year, 9) == DaysBefore(year, 7) + 62;
    assert DaysBefore(year, 11) == DaysBefore(year, 9) + 61;
  }

  lemma YearHolds(c: Civil)
    requires ValidCivil(c)
    ensures 0 <= DaysBefore(c.year, c.month) + c.day - 1 < (if Leap(c.year) then 366 else 365)
  {
    YearEnds(c.year);
    if c.month < 12 {
      MonthsInOrder(c.year, c.month, 12);
    }
    NoNegativeDays(c.year, c.month);
  }

  lemma {:induction false} NoNegativeDays(year: int, month: int)
    requires 1 <= month <= 12
    ensures DaysBefore(year, month) >= 0
  {
    if month > 1 {
      NoNegativeDays(year, month - 1);
    }
  }

  lemma DatesInOrder(a: Civil, b: Civil)
    requires ValidCivil(a) && ValidCivil(b) && !Later(a, b)
    ensures Timestamp(a) <= Timestamp(b)
  {
    if a.year < b.year {
      YearHolds(a);
      YearHolds(b);
      YearLength(a.year);
      YearsInOrder(a.year + 1, b.year);
      assert DayNumber(a) + 1 <= DayNumber(b);
      DayBeats(DayNumber(a), DayNumber(b), a.second, b.second);
    } else if a.month < b.month {
      MonthsInOrder(a.year, a.month, b.month);
      DayBeats(DayNumber(a), DayNumber(b), a.second, b.second);
    } else if a.day < b.day {
      DayBeats(DayNumber(a), DayNumber(b), a.second, b.second);
    }
  }

  lemma DayBeats(d: int, e: int, s: real, t: real)
    requires d + 1 <= e && s < 86400.0 && 0.0 <= t
    ensures (d - EPOCH_DAY) as real * 86400.0 + s <= (e - EPOCH_DAY) as real * 86400.0 + t
  {
    assert (e - EPOCH_DAY) as real >= (d - EPOCH_DAY) as real + 1.0;
  }

  /** The day after a date. */
  function Tomorrow(c: Civil): Civil {
    if c.day < MonthDays(c.year, c.month) then c.(day := c.day + 1)
    else if c.month < 12 then c.(month := c.month + 1, day := 1)
    else c.(year := c.year + 1, month := 1, day := 1)
  }

  /** The count of days starts with the epoch, a Thursday, and every day follows the one before. */
  lemma DaysFollow(c: Civil)
    requires ValidCivil(c)
    ensures Timestamp(Civil(1970, 1, 1, 0.0)) == 0.0 && Weekday(Civil(1970, 1, 1, 0.0)) == 3
    ensures Timestamp(Tomorrow(c)) == Timestamp(c) + 86400.0
    ensures Weekday(Tomorrow(c)) == (Weekday(c) + 1) % 7
    ensures Timestamp(c) == Timestamp(c.(second := 0.0)) + c.second
  {
    if c.day == MonthDays(c.year, c.month) && c.month == 12 {
      YearLength(c.year);
      YearEnds(c.year);
    }
    assert DayNumber(Tomorrow(c)) == DayNumber(c) + 1;
  }

  // ----- The delay -----

  datatype DelayFault = TooExtreme | BadClock

  /** A reading of the wall clock: an instant, with its date when the calendar has one. */
  datatype WallTime = WallTime(instant: real, date: Option<Civil>)

  predicate SoundWall(wall: WallTime) {
    wall.date.Some? ==> ValidCivil(wall.date.value) && Timestamp(wall.date.value) == wall.instant
  }

  /** How long the server asks to wait; a broken date asks nothing, a broken clock is an error. */
  function ServerDelay(wish: Option<Wish>, wall: Option<WallTime>): Result<real, DelayFault> {
    match wish
    case None => Ok(0.0)
    case Some(Excessive) => Refused(TooExtreme)
    case Some(Seconds(n)) => Ok(n as real)
    case Some(NotBefore(t)) =>
      if wall == None then Refused(BadClock) else Ok(RealMax(0.0, t - wall.value.instant))
    case Some(LegacyDate(yy, month, day, second, weekday)) =>
      if wall == None || wall.value.date == None then Refused(BadClock)
      else
        var date := Resolve(wish.value, wall.value.date.value);
        if date == None || !(1 <= date.value.month <= 12) || Weekday(date.value) != weekday then Ok(0.0)
        else Ok(RealMax(0.0, Timestamp(date.value) - wall.value.instant))
  }

  lemma DelayIsNotNegative(wish: Option<Wish>, wall: Option<WallTime>)
    ensures ServerDelay(wish, wall).Ok? ==> ServerDelay(wish, wall).value >= 0.0
  {
  }

  /** A two-digit year never asks to wait longer than until this day in fifty years. */
  lemma LegacyDelayIsBounded(wish: Wish, wall: WallTime)
    requires wish.LegacyDate? && wish.yy < 100 && SoundWall(wall) && wall.date.Some?
    requires wall.date.value.year <= 9949
    ensures ServerDelay(Some(wish), Some(wall)).Ok?
    ensures ServerDelay(Some(wish), Some(wall)).value <= Timestamp(FiftyYearsOn(wall.date.value)) - wall.instant
            || ServerDelay(Some(wish), Some(wall)).value == 0.0
  {
    var now := wall.date.value;
    NeverBeyondFiftyYears(wish, now);
    if Resolve(wish, now).Some? {
      DatesInOrder(Resolve(wish, now).value, FiftyYearsOn(now));
    }
  }
}
