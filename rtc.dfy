/** The calendar arithmetic of the STM32F1 RTC driver as this firmware
  * carries it (Drivers/STM32F1xx_HAL_Driver/Src/stm32f1xx_hal_rtc.c): the
  * RTC counts seconds in one 32-bit counter, the time of day is the
  * counter modulo 86400 and the date is the number of whole days since
  * 1 January 1970. */
module Rtc {
  import opened Common

  const SECONDS_PER_DAY := 86400
  const COUNTER_SPAN := 0x1_0000_0000

  /** A C `uint32_t`. */
  type Word = x: int | 0 <= x < 0x1_0000_0000

  // ---------------------------------------------------------------------
  // BCD

  /** `RTC_ByteToBcd2`: the tens go to the high nibble, which the `uint8_t`
    * result truncates for values of 160 and more. */
  function ToBcd(v: Byte): (b: Byte)
  {
    ((v / 10) * 16) % 256 + v % 10
  }

  /** `RTC_Bcd2ToByte`: high nibble times ten plus low nibble. */
  function FromBcd(b: Byte): (v: Byte)
    ensures v <= 165
  {
    (b / 16) * 10 + b % 16
  }

  /** Both nibbles are decimal digits. */
  predicate IsBcd(b: Byte)
  {
    b / 16 <= 9 && b % 16 <= 9
  }

  /** A two-digit value becomes a BCD byte that converts back to it. */
  lemma BcdRoundTrip(v: Byte)
    requires v <= 99
    ensures IsBcd(ToBcd(v)) && FromBcd(ToBcd(v)) == v
  {
    var b := ToBcd(v);
    assert b == (v / 10) * 16 + v % 10;
    assert b / 16 == v / 10 && b % 16 == v % 10;
  }

  /** A BCD byte converts to a two-digit value whose BCD form is that byte. */
  lemma BcdRoundTripBack(b: Byte)
    requires IsBcd(b)
    ensures FromBcd(b) <= 99 && ToBcd(FromBcd(b)) == b
  {
    var v := FromBcd(b);
    assert v / 10 == b / 16 && v % 10 == b % 16;
  }

  /** `RTC_ByteToBcd2`: counts the tens by repeated subtraction. */
  method ByteToBcd2(value: Byte) returns (b: Byte)
    ensures b == ToBcd(value)
  {
    var high := 0;
    var low := value;
    while low >= 10
      invariant 0 <= low <= value && high * 10 + low == value
    {
      high := high + 1;
      low := low - 10;
    }
    assert high == value / 10 && low == value % 10;
    b := (high * 16) % 256 + low;
  }

  // ---------------------------------------------------------------------
  // Time of day

  /** A time of day as `RTC_TimeTypeDef` holds it. */
  datatype Time = Time(hours: Byte, minutes: Byte, seconds: Byte)

  predicate ValidTime(t: Time)
  {
    t.hours <= 23 && t.minutes <= 59 && t.seconds <= 59
  }

  /** The seconds since midnight `HAL_RTC_SetTime` adds to the day. */
  function SecondsOf(t: Time): nat
  {
    t.hours * 3600 + t.minutes * 60 + t.seconds
  }

  /** The time of day `HAL_RTC_GetTime` reads from a counter value. */
  function TimeOf(counter: Word): (t: Time)
    ensures ValidTime(t) && SecondsOf(t) == counter % SECONDS_PER_DAY
  {
    var c := counter % SECONDS_PER_DAY;
    Time(c / 3600, (c % 3600) / 60, (c % 3600) % 60)
  }

  /** The counter `HAL_RTC_SetTime` writes: the whole days of the old
    * counter plus the new time of day, in 32 bits. */
  function CounterWithTime(counter: Word, t: Time): Word
  {
    (counter - counter % SECONDS_PER_DAY + SecondsOf(t)) % COUNTER_SPAN
  }

  /** Setting a valid time keeps the day and makes it the time read back,
    * unless the new counter passes 2^32 (the last, partial day of the
    * 32-bit range). */
  lemma SetTimeThenGetTime(counter: Word, t: Time)
    requires ValidTime(t)
    requires counter - counter % SECONDS_PER_DAY + SecondsOf(t) < COUNTER_SPAN
    ensures CounterWithTime(counter, t) / SECONDS_PER_DAY == counter / SECONDS_PER_DAY
    ensures TimeOf(CounterWithTime(counter, t)) == t
  {
    var q := counter / SECONDS_PER_DAY;
    var c := q * SECONDS_PER_DAY + SecondsOf(t);
    assert CounterWithTime(counter, t) == c;
    DaySplit(c, q, SecondsOf(t));
    TimeDigits(TimeOf(c), t);
  }

  /** The day and the second of the day of a counter value. */
  lemma DaySplit(c: int, q: int, s: int)
    requires c == q * SECONDS_PER_DAY + s && 0 <= s < SECONDS_PER_DAY
    ensures c / SECONDS_PER_DAY == q && c % SECONDS_PER_DAY == s
  {
  }

  /** A valid time is determined by its seconds since midnight. */
  lemma TimeDigits(u: Time, t: Time)
    requires ValidTime(u) && ValidTime(t) && SecondsOf(u) == SecondsOf(t)
    ensures u == t
  {
    assert u.hours == SecondsOf(u) / 3600 && t.hours == SecondsOf(t) / 3600;
    assert u.minutes * 60 + u.seconds == t.minutes * 60 + t.seconds;
    assert u.minutes == (u.minutes * 60 + u.seconds) / 60;
    assert t.minutes == (t.minutes * 60 + t.seconds) / 60;
  }

  // ---------------------------------------------------------------------
  // Dates

  /** A date as `RTC_DateTypeDef` holds it; `year` counts from 2000. */
  datatype Date = Date(weekDay: Byte, month: Byte, date: Byte, year: Byte)

  predicate IsLeap(y: int)
  {
    y % 4 == 0 && (y % 100 != 0 || y % 400 == 0)
  }

  function DaysInMonth(y: int, m: int): int
  {
    if m == 2 then (if IsLeap(y) then 29 else 28)
    else if m == 4 || m == 6 || m == 9 || m == 11 then 30
    else 31
  }

  /** A real calendar date of the years 2000 to 2099 (the `year` range
    * `IS_RTC_YEAR` allows). */
  predicate ValidDate(year: int, month: int, date: int)
  {
    0 <= year <= 99 && 1 <= month <= 12 && 1 <= date <= DaysInMonth(2000 + year, month)
  }

  /** The day number `HAL_RTC_SetDate` computes: January and February count
    * as months 13 and 14 of the year before, and 719561 is the count of
    * 1 January 1970. */
  function DayCount(year: int, month: int, date: int): int
  {
    var y := if month <= 2 then year + 2000 - 1 else year + 2000;
    var m := if month <= 2 then month + 12 else month;
    365 * y + y / 4 - y / 100 + y / 400 + 30 * m + 3 * (m + 1) / 5 + date - 719561
  }

  /** `RTC_WeekDayNum`: Zeller's congruence, 0 for Sunday to 6 for
    * Saturday as the `RTC_WEEKDAY_*` codes. */
  function WeekDayNum(year: int, month: int, day: int): (w: int)
    ensures 0 <= w < 7
  {
    var y := if month < 3 then year + 2000 - 1 else year + 2000;
    var m := if month < 3 then month + 12 else month;
    (26 * (m + 1) / 10 + y % 100 + (y % 100) / 4 + 5 * (y / 100) + (y / 100) / 4 + day + 6) % 7
  }

  /** The date `HAL_RTC_GetDate` reads from day number `d` (before the BCD
    * conversion): the day count shifted to a March-based calendar, then
    * split into year, month and day. */
  function DateOf(d: nat): Date
  {
    DateOfShifted(ShiftedDays(d))
  }

  /** Day `d` counted from the origin of `HAL_RTC_GetDate`'s calendar, with
    * its Gregorian correction. */
  function ShiftedDays(d: nat): int
  {
    var t := (4 * d + 102032) / 146097 + 15;
    d + 2442113 + t - t / 4
  }

  /** The year of 365.25 days and the day within it. */
  function DateOfShifted(days: int): Date
  {
    var y := (20 * days - 2442) / 7305;
    DateInYear(y, days - (365 * y + y / 4))
  }

  /** Month and day from the day `rest` of year `y`, each field stored into
    * its `uint8_t`; months 14 and 15 are January and February of the next
    * year. */
  function DateInYear(y: int, rest: int): Date
  {
    var m0 := (rest * 1000 / 30601) % 256;
    var date := (rest - m0 * 30 - m0 * 601 / 1000) % 256;
    var month := if m0 <= 13 then (m0 - 1) % 256 else (m0 - 13) % 256;
    var year := if m0 <= 13 then (y - 6716) % 256 else (y - 6715) % 256;
    Date(WeekDayNum(year, month, date), month, date, year)
  }

  /** Between 1999 and 2099 the Gregorian century terms of `DayCount` add
    * up to -15. */
  lemma CenturyTerms(y: int)
    requires 1999 <= y <= 2099
    ensures y / 100 - y / 400 == 15
  {
  }

  /** The dates of 2000 to 2099 are days 10957 to 47481. */
  lemma DayCountRange(year: int, month: int, date: int)
    requires ValidDate(year, month, date)
    ensures 10957 <= DayCount(year, month, date) <= 47481
  {
    var y := if month <= 2 then year + 2000 - 1 else year + 2000;
    CenturyTerms(y);
  }

  /** Over those days the Gregorian correction `t - t / 4` of
    * `HAL_RTC_GetDate` is the constant 12. */
  lemma GregorianCorrection(d: int)
    requires 0 <= d <= 47539
    ensures var t := (4 * d + 102032) / 146097 + 15; t - t / 4 == 12
  {
    var t := (4 * d + 102032) / 146097 + 15;
    assert t == 15 || t == 16;
  }

  /** The year of `HAL_RTC_GetDate`: 365.25 days a year from a March first,
    * for any day `r` of the year's months March to February. */
  lemma YearOfDays(yy: int, r: int)
    requires yy >= 0 && 123 <= r <= 488 && (r == 488 ==> yy % 4 == 3)
    ensures (20 * (365 * yy + yy / 4 + r) - 2442) / 7305 == yy
  {
    var q, s := yy / 4, yy % 4;
    assert yy == 4 * q + s;
    assert 20 * (365 * yy + yy / 4 + r) - 2442 == 7305 * yy + (20 * r - 5 * s - 2442);
  }

  /** The month and the day of `HAL_RTC_GetDate` from the day `r` of a
    * March-based year: month `mm` (4 for March to 15 for February)
    * spans 30.601 days. */
  lemma MonthOfDays(mm: int, date: int)
    requires 4 <= mm <= 15 && 1 <= date <= MonthLength(mm)
    ensures var r := 30 * mm + 3 * mm / 5 + date;
      r * 1000 / 30601 == mm && r - mm * 30 - mm * 601 / 1000 == date
  {
    assert mm * 601 / 1000 == 3 * mm / 5 by {
      assert mm == 4 || mm == 5 || mm == 6 || mm == 7 || mm == 8 || mm == 9 || mm == 10
        || mm == 11 || mm == 12 || mm == 13 || mm == 14 || mm == 15;
    }
  }

  /** The longest month `mm` of a March-based year (February 29 days). */
  function MonthLength(mm: int): int
  {
    if mm == 15 then 29 else if mm == 5 || mm == 7 || mm == 10 || mm == 12 then 30 else 31
  }

  /** The year of a date in `HAL_RTC_GetDate`'s March-based calendar. */
  function MarchYear(year: int, month: int): int
  {
    (if month <= 2 then year + 2000 - 1 else year + 2000) + 4716
  }

  /** The month of a date in that calendar: 4 for March to 15 for
    * February. */
  function MarchMonth(month: int): int
  {
    (if month <= 2 then month + 12 else month) + 1
  }

  /** The day of a date within its March-based year. */
  function DayInYear(mm: int, date: int): int
  {
    30 * mm + 3 * mm / 5 + date
  }

  /** The day count of `HAL_RTC_SetDate`, shifted as `HAL_RTC_GetDate`
    * shifts it, is the March-based year's first day plus the day in the
    * year. */
  lemma DayCountShifted(year: int, month: int, date: int)
    requires ValidDate(year, month, date)
    ensures var yy, mm := MarchYear(year, month), MarchMonth(month);
      var r := DayInYear(mm, date);
      ShiftedDays(DayCount(year, month, date)) == 365 * yy + yy / 4 + r
      && 4 <= mm <= 15 && 1 <= date <= MonthLength(mm)
      && 123 <= r <= 488 && (r == 488 ==> yy % 4 == 3)
      && 6716 <= yy + (if mm <= 13 then 0 else 1) < 6716 + 256
  {
    var y := if month <= 2 then year + 2000 - 1 else year + 2000;
    var yy, mm := MarchYear(year, month), MarchMonth(month);
    var r := DayInYear(mm, date);
    var d := DayCount(year, month, date);
    CenturyTerms(y);
    DayCountRange(year, month, date);
    assert yy / 4 == y / 4 + 1179;
    assert d + 2442125 == 365 * yy + yy / 4 + r;
    GregorianCorrection(d);
    if r == 488 {
      assert month == 2 && date == 29;
      assert (2000 + year) % 4 == 0;
    }
  }

  /** `HAL_RTC_GetDate` inverts `HAL_RTC_SetDate`: the day number of any
    * date of 2000 to 2099 reads back as that date, with its week day. */
  lemma DateRoundTrip(year: int, month: int, date: int)
    requires ValidDate(year, month, date)
    ensures var r := DateOf(DayCount(year, month, date));
      r.year == year && r.month == month && r.date == date && r.weekDay == WeekDayNum(year, month, date)
  {
    var yy, mm := MarchYear(year, month), MarchMonth(month);
    var r := DayInYear(mm, date);
    DayCountShifted(year, month, date);
    YearOfDays(yy, r);
    ShiftedYear(yy, r);
    MonthInYear(yy, mm, date);
    assert DateOf(DayCount(year, month, date)) == DateInYear(yy, r);
    if month <= 2 {
      assert mm - 13 == month && yy - 6715 == year;
    } else {
      assert mm - 1 == month && yy - 6716 == year;
    }
  }

  /** `DateInYear` names month `mm` of year `yy` by the calendar's month
    * and year. */
  lemma MonthInYear(yy: int, mm: int, date: int)
    requires 4 <= mm <= 15 && 1 <= date <= MonthLength(mm)
    requires 6716 <= yy + (if mm <= 13 then 0 else 1) < 6716 + 256
    ensures var month := if mm <= 13 then mm - 1 else mm - 13;
      var year := if mm <= 13 then yy - 6716 else yy - 6715;
      DateInYear(yy, DayInYear(mm, date)) == Date(WeekDayNum(year, month, date), month, date, year)
  {
    var r := DayInYear(mm, date);
    MonthOfDays(mm, date);
    var m0 := (r * 1000 / 30601) % 256;
    assert m0 == mm;
    assert (r - m0 * 30 - m0 * 601 / 1000) % 256 == date;
    var month := if mm <= 13 then mm - 1 else mm - 13;
    var year := if mm <= 13 then yy - 6716 else yy - 6715;
    assert (if m0 <= 13 then (m0 - 1) % 256 else (m0 - 13) % 256) == month;
    assert (if m0 <= 13 then (yy - 6716) % 256 else (yy - 6715) % 256) == year;
  }

  /** `DateOfShifted` finds year `yy` and its day `r` again. */
  lemma ShiftedYear(yy: int, r: int)
    requires (20 * (365 * yy + yy / 4 + r) - 2442) / 7305 == yy
    ensures DateOfShifted(365 * yy + yy / 4 + r) == DateInYear(yy, r)
  {
  }

  /** `RTC_WeekDayNum` agrees with the day count of `HAL_RTC_SetDate`:
    * 1 January 1970, day 0, was a Thursday (4). */
  lemma WeekDayOfDayCount(year: int, month: int, date: int)
    requires 0 <= year <= 99 && 1 <= month <= 12
    ensures WeekDayNum(year, month, date) == (DayCount(year, month, date) + 4) % 7
  {
    var y := if month <= 2 then year + 2000 - 1 else year + 2000;
    var m := if month <= 2 then month + 12 else month;
    ZellerDayCount(y, m, date);
  }

  /** Zeller's congruence and the day count differ by whole weeks, for the
    * March-based years 1999 (its January and February only) to 2099. */
  lemma ZellerDayCount(y: int, m: int, date: int)
    requires (2000 <= y <= 2099 && 3 <= m <= 14) || (y == 1999 && (m == 13 || m == 14))
    ensures (26 * (m + 1) / 10 + y % 100 + (y % 100) / 4 + 5 * (y / 100) + (y / 100) / 4 + date + 6) % 7
      == (365 * y + y / 4 - y / 100 + y / 400 + 30 * m + 3 * (m + 1) / 5 + date - 719561 + 4) % 7
  {
    var f := 3 * (m + 1) / 5;
    assert 26 * (m + 1) / 10 == 2 * (m + 1) + f;
    var w := 26 * (m + 1) / 10 + y % 100 + (y % 100) / 4 + 5 * (y / 100) + (y / 100) / 4 + date + 6;
    var c := 365 * y + y / 4 - y / 100 + y / 400 + 30 * m + f + date - 719561 + 4;
    if y >= 2000 {
      var k := y - 2000;
      assert y % 100 == k && y / 100 == 20 && y / 4 == 500 + k / 4 && y / 400 == 5;
      SameWeekDay(c, w, 1545 + 52 * k + 4 * m);
    } else {
      SameWeekDay(c, w, if m == 13 then 1528 else 1532);
    }
  }

  /** Day numbers a whole number of weeks apart fall on the same week day. */
  lemma SameWeekDay(a: int, b: int, weeks: int)
    requires a - b == 7 * weeks
    ensures a % 7 == b % 7
  {
  }

  /** The counter `HAL_RTC_SetDate` writes: the old time of day plus whole
    * days up to the date, in 32 bits. */
  function CounterWithDate(counter: Word, year: Byte, month: Byte, date: Byte): Word
  {
    (counter % SECONDS_PER_DAY + DayCount(year, month, date) * SECONDS_PER_DAY) % COUNTER_SPAN
  }

  /** Setting a date of 2000 to 2099 keeps the time of day and makes the
    * counter's day number the date's. */
  lemma SetDateKeepsTime(counter: Word, year: Byte, month: Byte, date: Byte)
    requires ValidDate(year, month, date)
    ensures var c := CounterWithDate(counter, year, month, date);
      c % SECONDS_PER_DAY == counter % SECONDS_PER_DAY && c / SECONDS_PER_DAY == DayCount(year, month, date)
  {
    var d := DayCount(year, month, date);
    DayCountRange(year, month, date);
    var c := d * SECONDS_PER_DAY + counter % SECONDS_PER_DAY;
    assert c < COUNTER_SPAN;
    DaySplit(c, d, counter % SECONDS_PER_DAY);
  }

  /** The date read back after setting a date of 2000 to 2099 is the one
    * set, on the week day its day number gives. */
  lemma SetDateThenGetDate(counter: Word, year: Byte, month: Byte, date: Byte)
    requires ValidDate(year, month, date)
    ensures var r := DateOf(CounterWithDate(counter, year, month, date) / SECONDS_PER_DAY);
      r.year == year && r.month == month && r.date == date
      && r.weekDay == (DayCount(year, month, date) + 4) % 7
  {
    SetDateKeepsTime(counter, year, month, date);
    DateRoundTrip(year, month, date);
    WeekDayOfDayCount(year, month, date);
  }

  // ---------------------------------------------------------------------
  // The HAL functions

  datatype Status = HalOk | HalError | HalBusy | HalTimeout

  /** `HAL_RTCStateTypeDef`. */
  datatype State = StateReset | StateReady | StateBusy | StateTimeout | StateError

  /** `RTC_FORMAT_BIN` or `RTC_FORMAT_BCD`. */
  datatype Format = FormatBin | FormatBcd

  /** `RTC_HandleTypeDef` with the parts of the RTC registers the calendar
    * functions use. */
  class Handle {
    /** The 32-bit counter, `RTC_CNTH` and `RTC_CNTL`. */
    var counter: Word
    /** `RTC_FLAG_OW` and `RTC_FLAG_SEC` of `RTC_CRL`. */
    var overflow: bool
    var secondFlag: bool
    /** `Lock`, `State` and `DateToUpdate` of the handle. */
    var locked: bool
    var state: State
    var dateToUpdate: Date
  }

  /** `RTC_TimeTypeDef`, passed by address. */
  class TimeStruct {
    var hours: Byte
    var minutes: Byte
    var seconds: Byte

    function Value(): Time
      reads this
    {
      Time(hours, minutes, seconds)
    }
  }

  /** `RTC_DateTypeDef`, passed by address. */
  class DateStruct {
    var weekDay: Byte
    var month: Byte
    var date: Byte
    var year: Byte
  }

  /** The binary value of a field given in `format`. */
  function Binary(v: Byte, format: Format): Byte
  {
    if format == FormatBin then v else FromBcd(v)
  }

  /** A field returned in `format`. */
  function InFormat(v: Byte, format: Format): Byte
  {
    if format == FormatBin then v else ToBcd(v)
  }

  /** `RTC_WriteTimeCounter`: `entered` and `exited` say whether the
    * configuration mode was entered and left before their timeouts; the
    * counter registers are written once it is entered. */
  method WriteTimeCounter(h: Handle, value: Word, entered: bool, exited: bool) returns (status: Status)
    modifies h
    ensures status == (if entered && exited then HalOk else HalError)
    ensures h.counter == (if entered then value else old(h.counter))
    ensures h.overflow == old(h.overflow) && h.secondFlag == old(h.secondFlag)
    ensures h.locked == old(h.locked) && h.state == old(h.state) && h.dateToUpdate == old(h.dateToUpdate)
  {
    if !entered {
      return HalError;
    }
    h.counter := value;
    status := if exited then HalOk else HalError;
  }

  /** `HAL_RTC_SetTime`: replaces the time of day, keeping the day. */
  method SetTime(h: Handle?, sTime: TimeStruct?, format: Format, entered: bool, exited: bool) returns (status: Status)
    modifies h
    ensures h == null || sTime == null ==> status == HalError && (h != null ==> unchanged(h))
    ensures h != null && sTime != null && old(h.locked) ==> status == HalBusy && unchanged(h)
    ensures h != null && sTime != null && !old(h.locked) ==>
      var t := Time(Binary(sTime.hours, format), Binary(sTime.minutes, format), Binary(sTime.seconds, format));
      !h.locked && h.dateToUpdate == old(h.dateToUpdate)
      && h.counter == (if entered then CounterWithTime(old(h.counter), t) else old(h.counter))
      && (if entered && exited then
            status == HalOk && h.state == StateReady && !h.overflow && !h.secondFlag
          else
            status == HalError && h.state == StateError
            && h.overflow == old(h.overflow) && h.secondFlag == old(h.secondFlag))
  {
    if h == null || sTime == null {
      status := HalError;
    } else if h.locked {
      status := HalBusy;
    } else {
      var t := Time(Binary(sTime.hours, format), Binary(sTime.minutes, format), Binary(sTime.seconds, format));
      status := SetTimeLocked(h, t, entered, exited);
    }
  }

  /** The counter value `HAL_RTC_SetTime` computes: the old counter rounded
    * down to whole days, plus the seconds of `t`, stored in 32 bits. */
  method NewTimeCounter(counter: Word, t: Time) returns (value: Word)
    ensures value == CounterWithTime(counter, t)
  {
    var counterTime: int := counter;
    counterTime := counterTime - counterTime % SECONDS_PER_DAY;
    counterTime := (counterTime + (t.hours * 3600 + t.minutes * 60 + t.seconds)) % COUNTER_SPAN;
    value := counterTime;
  }

  /** The body of `HAL_RTC_SetTime` once the handle is locked, with the
    * time already in binary. */
  method SetTimeLocked(h: Handle, t: Time, entered: bool, exited: bool) returns (status: Status)
    requires !h.locked
    modifies h
    ensures !h.locked && h.dateToUpdate == old(h.dateToUpdate)
    ensures h.counter == (if entered then CounterWithTime(old(h.counter), t) else old(h.counter))
    ensures if entered && exited then
        status == HalOk && h.state == StateReady && !h.overflow && !h.secondFlag
      else
        status == HalError && h.state == StateError
        && h.overflow == old(h.overflow) && h.secondFlag == old(h.secondFlag)
  {
    h.locked := true;
    h.state := StateBusy;
    var counterTime := NewTimeCounter(h.counter, t);
    var written := WriteTimeCounter(h, counterTime, entered, exited);
    if written != HalOk {
      h.state := StateError;
      status := HalError;
    } else {
      h.overflow, h.secondFlag := false, false;
      h.state := StateReady;
      status := HalOk;
    }
    h.locked := false;
  }

  /** `HAL_RTC_GetTime`: the time of day of the counter; an overflowed
    * counter is an error. */
  method GetTime(h: Handle?, sTime: TimeStruct?, format: Format) returns (status: Status)
    modifies sTime
    ensures h == null || sTime == null || h.overflow ==>
      status == HalError && (sTime != null ==> unchanged(sTime))
    ensures h != null && sTime != null && !h.overflow ==>
      var t := TimeOf(h.counter);
      status == HalOk && sTime.hours == InFormat(t.hours, format)
      && sTime.minutes == InFormat(t.minutes, format) && sTime.seconds == InFormat(t.seconds, format)
  {
    if h == null || sTime == null {
      return HalError;
    }
    if h.overflow {
      return HalError;
    }
    var counterTime := h.counter % SECONDS_PER_DAY;
    sTime.hours := counterTime / 3600;
    sTime.minutes := (counterTime % 3600) / 60;
    sTime.seconds := (counterTime % 3600) % 60;
    if format != FormatBin {
      sTime.hours := ByteToBcd2(sTime.hours);
      sTime.minutes := ByteToBcd2(sTime.minutes);
      sTime.seconds := ByteToBcd2(sTime.seconds);
    }
    return HalOk;
  }

  /** `HAL_RTC_SetDate`: replaces the day, keeping the time of day; the
    * date is kept in `DateToUpdate`, whose month is left as 13 or 14 for
    * January and February. */
  method SetDate(h: Handle?, sDate: DateStruct?, format: Format, entered: bool, exited: bool) returns (status: Status)
    modifies h
    ensures h == null || sDate == null ==> status == HalError && (h != null ==> unchanged(h))
    ensures h != null && sDate != null && old(h.locked) ==> status == HalBusy && unchanged(h)
    ensures h != null && sDate != null && !old(h.locked) ==>
      var year, month, date := Binary(sDate.year, format), Binary(sDate.month, format), Binary(sDate.date, format);
      !h.locked
      && h.dateToUpdate == Date(old(h.dateToUpdate.weekDay), if month <= 2 then month + 12 else month, date, year)
      && h.counter == (if entered then CounterWithDate(old(h.counter), year, month, date) else old(h.counter))
      && h.overflow == old(h.overflow) && h.secondFlag == old(h.secondFlag)
      && (if entered && exited then status == HalOk && h.state == StateReady
          else status == HalError && h.state == StateError)
  {
    if h == null || sDate == null {
      status := HalError;
    } else if h.locked {
      status := HalBusy;
    } else {
      var year, month, date := Binary(sDate.year, format), Binary(sDate.month, format), Binary(sDate.date, format);
      status := SetDateLocked(h, year, month, date, entered, exited);
    }
  }

  /** The body of `HAL_RTC_SetDate` once the handle is locked, with the
    * date already in binary. */
  method SetDateLocked(h: Handle, year: Byte, month: Byte, date: Byte, entered: bool, exited: bool) returns (status: Status)
    requires !h.locked
    modifies h
    ensures !h.locked
    ensures h.dateToUpdate == Date(old(h.dateToUpdate.weekDay), if month <= 2 then month + 12 else month, date, year)
    ensures h.counter == (if entered then CounterWithDate(old(h.counter), year, month, date) else old(h.counter))
    ensures h.overflow == old(h.overflow) && h.secondFlag == old(h.secondFlag)
    ensures if entered && exited then status == HalOk && h.state == StateReady
      else status == HalError && h.state == StateError
  {
    h.locked := true;
    h.state := StateBusy;
    h.dateToUpdate := h.dateToUpdate.(year := year, month := month, date := date);
    var counterTime := h.counter % SECONDS_PER_DAY;
    var y := h.dateToUpdate.year + 2000;
    if h.dateToUpdate.month <= 2 {
      h.dateToUpdate := h.dateToUpdate.(month := h.dateToUpdate.month + 12);
      y := y - 1;
    }
    var m := h.dateToUpdate.month;
    var days := 365 * y + y / 4 - y / 100 + y / 400;
    days := days + 30 * m + 3 * (m + 1) / 5 + h.dateToUpdate.date;
    days := days - 719561;
    assert days == DayCount(year, month, date);
    counterTime := (counterTime + days * SECONDS_PER_DAY) % COUNTER_SPAN;
    var written := WriteTimeCounter(h, counterTime, entered, exited);
    if written != HalOk {
      h.state := StateError;
      status := HalError;
    } else {
      h.state := StateReady;
      status := HalOk;
    }
    h.locked := false;
  }

  /** `HAL_RTC_GetDate`: the date of the counter's day number. */
  method GetDate(h: Handle?, sDate: DateStruct?, format: Format) returns (status: Status)
    modifies sDate
    ensures h == null || sDate == null ==> status == HalError && (sDate != null ==> unchanged(sDate))
    ensures h != null && sDate != null ==>
      var r := DateOf(h.counter / SECONDS_PER_DAY);
      status == HalOk && sDate.weekDay == r.weekDay && sDate.year == InFormat(r.year, format)
      && sDate.month == InFormat(r.month, format) && sDate.date == InFormat(r.date, format)
  {
    if h == null || sDate == null {
      return HalError;
    }
    var d := h.counter / SECONDS_PER_DAY;
    var r := DateOf(d);
    sDate.month, sDate.date, sDate.year := r.month, r.date, r.year;
    sDate.weekDay := r.weekDay;
    if format != FormatBin {
      sDate.year := ByteToBcd2(sDate.year);
      sDate.month := ByteToBcd2(sDate.month);
      sDate.date := ByteToBcd2(sDate.date);
    }
    return HalOk;
  }
}
