/** The US/Eastern clock the bot reads: trading-session gate and the
    weekly-expiry date it trades (src/production_strategy_complete.py). */
module Calendar {
  import opened Decimal

  /** A calendar day as Python's proleptic Gregorian ordinal (0001-01-01 is day 1). */
  type Ordinal = d: int | d >= 1 witness 1

  /** Microseconds since midnight, the resolution of Python's `datetime.time`. */
  type TimeOfDay = t: int | 0 <= t < 86_400_000_000

  function ClockTime(hour: int, minute: int): TimeOfDay
    requires 0 <= hour < 24 && 0 <= minute < 60
  {
    (hour * 60 + minute) * 60_000_000
  }

  const MarketOpen: TimeOfDay := ClockTime(9, 30)
  const MarketClose: TimeOfDay := ClockTime(16, 0)

  /** The value of `datetime.now(US_EASTERN)`, supplied by the caller. */
  datatype Moment = Moment(date: Ordinal, time: TimeOfDay)

  /** `date.weekday()`: Monday is 0, Sunday is 6. */
  function Weekday(d: Ordinal): int
  {
    (d + 6) % 7
  }

  datatype CivilDate = CivilDate(year: int, month: int, day: int)

  /** Year, month and day of an ordinal (the proleptic Gregorian calendar). */
  function ToCivil(d: Ordinal): CivilDate
  {
    var z := d + 305;  // days since 0000-03-01
    var era := z / 146097;
    var dayOfEra := z % 146097;
    var yearOfEra := (dayOfEra - dayOfEra / 1460 + dayOfEra / 36524 - dayOfEra / 146096) / 365;
    var dayOfYear := dayOfEra - (365 * yearOfEra + yearOfEra / 4 - yearOfEra / 100);
    var marchMonth := (5 * dayOfYear + 2) / 153;
    var day := dayOfYear - (153 * marchMonth + 2) / 5 + 1;
    var month := if marchMonth < 10 then marchMonth + 3 else marchMonth - 9;
    CivilDate(yearOfEra + era * 400 + (if month <= 2 then 1 else 0), month, day)
  }

  /** Every ordinal maps to a real month and a day of at most 31. */
  lemma ToCivilInRange(d: Ordinal)
    ensures 1 <= ToCivil(d).month <= 12 && 1 <= ToCivil(d).day <= 31
  {
  }

  /** The fixed 2025 exchange-holiday list. */
  const MarketHolidays2025: seq<CivilDate> := [
    CivilDate(2025, 1, 1), CivilDate(2025, 1, 20), CivilDate(2025, 2, 17),
    CivilDate(2025, 4, 18), CivilDate(2025, 5, 26), CivilDate(2025, 7, 4),
    CivilDate(2025, 9, 1), CivilDate(2025, 11, 27), CivilDate(2025, 12, 25)
  ]

  /** `is_market_open`: a weekday, not a listed holiday, and 09:30 <= time <= 16:00 inclusive. */
  predicate IsMarketOpen(now: Moment)
  {
    && Weekday(now.date) <= 4
    && ToCivil(now.date) !in MarketHolidays2025
    && MarketOpen <= now.time <= MarketClose
  }

  /** `days_to_friday` in `find_best_straddle`: the nearest Friday from today on,
      except that on a Friday at or after 16:00 it is the following Friday. */
  function DaysToFriday(now: Moment): (days: int)
    ensures 0 <= days <= 7
    ensures Weekday(now.date + days) == 4
    ensures days == 0 <==> Weekday(now.date) == 4 && now.time < MarketClose
    ensures days == 7 <==> Weekday(now.date) == 4 && now.time >= MarketClose
    ensures forall d: Ordinal :: now.date < d < now.date + days ==> Weekday(d) != 4
  {
    var days := (4 - Weekday(now.date)) % 7;
    FridayGap(now.date, days);
    FridayGap(now.date, 7);
    if days == 0 && now.time >= MarketClose then 7 else days
  }

  /** Counting `days` ahead, the weekday advances by `days` modulo 7; a gap that lands on a
      Friday passes no Friday on the way when it is at most a week. */
  lemma FridayGap(d: Ordinal, days: int)
    requires 0 <= days <= 7
    ensures Weekday(d + days) == (Weekday(d) + days) % 7
    ensures Weekday(d + days) == 4 ==> forall e: Ordinal :: d < e < d + days ==> Weekday(e) != 4
  {
    forall e: Ordinal | d < e < d + days && Weekday(d + days) == 4 ensures Weekday(e) != 4 {
      assert Weekday(e) == (Weekday(d) + (e - d)) % 7;
    }
  }

  /** The expiry date the bot trades. */
  function ExpiryDate(now: Moment): Ordinal
  {
    now.date + DaysToFriday(now)
  }

  /** `friday.strftime('%y%m%d')`. */
  function ExpiryCode(d: Ordinal): (s: string)
    ensures |s| == 6 && AllDigits(s)
  {
    var c := ToCivil(d);
    TwoDigits(c.year) + TwoDigits(c.month) + TwoDigits(c.day)
  }

  /** The six digits of the expiry are the Friday's year modulo 100, its month and its day. */
  lemma ExpiryCodeFields(d: Ordinal)
    ensures DigitsValue(ExpiryCode(d)[..2]) == ToCivil(d).year % 100
    ensures DigitsValue(ExpiryCode(d)[2..4]) == ToCivil(d).month
    ensures DigitsValue(ExpiryCode(d)[4..]) == ToCivil(d).day
  {
    var c := ToCivil(d);
    ToCivilInRange(d);
    DateDigits(c.year, c.month, c.day);
  }

  /** `%y%m%d` of a year, a month and a day: each pair of digits reads back as its field. */
  lemma DateDigits(year: int, month: int, day: int)
    requires 1 <= month <= 12 && 1 <= day <= 31
    ensures var s := TwoDigits(year) + TwoDigits(month) + TwoDigits(day);
      && DigitsValue(s[..2]) == year % 100 && DigitsValue(s[2..4]) == month && DigitsValue(s[4..]) == day
  {
    assert month % 100 == month && day % 100 == day;
    ThreePairs(TwoDigits(year), TwoDigits(month), TwoDigits(day));
  }

  /** Three two-character strings joined are recovered by slicing at 2 and 4. */
  lemma ThreePairs(a: string, b: string, c: string)
    requires |a| == 2 && |b| == 2 && |c| == 2
    ensures (a + b + c)[..2] == a && (a + b + c)[2..4] == b && (a + b + c)[4..] == c
  {
    var s := a + b + c;
    assert s[..2] == a;
    assert s[2..4] == b;
    assert s[4..] == c;
  }

  /** While the session is open the bot trades the Friday of the current week,
      with one exception: at exactly 16:00:00 on a Friday the session still
      counts as open but the expiry has already rolled to the next Friday. */
  lemma OpenSessionExpiry(now: Moment)
    requires IsMarketOpen(now)
    ensures DaysToFriday(now) <= 4 - Weekday(now.date) || (Weekday(now.date) == 4 && now.time == MarketClose)
    ensures DaysToFriday(now) == 7 <==> Weekday(now.date) == 4 && now.time == MarketClose
  {
    WeekdayExpiry(now);
  }

  /** On a weekday up to 16:00 the expiry is the Friday of that week, unless it is a Friday at
      16:00 exactly. */
  lemma WeekdayExpiry(now: Moment)
    requires Weekday(now.date) <= 4 && now.time <= MarketClose
    ensures DaysToFriday(now) <= 4 - Weekday(now.date) || (Weekday(now.date) == 4 && now.time == MarketClose)
    ensures DaysToFriday(now) == 7 <==> Weekday(now.date) == 4 && now.time == MarketClose
  {
  }

  /** A concrete instance of that exception: Friday 2025-01-03 at 16:00:00. */
  lemma FridayCloseIsOpenButRolls()
    ensures ToCivil(739254) == CivilDate(2025, 1, 3)
    ensures IsMarketOpen(Moment(739254, MarketClose))
    ensures DaysToFriday(Moment(739254, MarketClose)) == 7
  {
    ThirdOfJanuary2025();
    assert Weekday(739254) == 4;
  }

  /** Ordinal 739254 is Friday 3 January 2025, which is not a listed holiday. */
  lemma ThirdOfJanuary2025()
    ensures ToCivil(739254) == CivilDate(2025, 1, 3)
    ensures ToCivil(739254) !in MarketHolidays2025
  {
    var z := 739254 + 305;
    assert z / 146097 == 5 && z % 146097 == 9074;
    assert (9074 - 9074 / 1460 + 9074 / 36524 - 9074 / 146096) / 365 == 24;
    assert 9074 - (365 * 24 + 24 / 4 - 24 / 100) == 308;
    assert (5 * 308 + 2) / 153 == 10;
    assert 308 - (153 * 10 + 2) / 5 + 1 == 3;
  }
}
