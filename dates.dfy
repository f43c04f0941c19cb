/**
 * The calendar date helpers (src/utils/Dates.js). A `Date` is the local
 * calendar day a JavaScript `Date` denotes: its full year, its month index
 * 0..11 (as `getMonth` returns it) and its day of the month. Moving by whole
 * days with `setDate(getDate() + k)` is `Shift`, built from the successor and
 * predecessor in the proleptic Gregorian calendar.
 */
module CalendarDates {
  import opened Wrappers

  datatype Date = Date(year: int, month: int, day: int)

  predicate IsLeapYear(year: int) {
    (year % 4 == 0 && year % 100 != 0) || year % 400 == 0
  }

  function DaysInMonth(year: int, month: int): (n: int)
    requires 0 <= month < 12
    ensures 28 <= n <= 31
    ensures n == 28 <==> month == 1 && !IsLeapYear(year)
  {
    if month == 1 then (if IsLeapYear(year) then 29 else 28)
    else if month == 3 || month == 5 || month == 8 || month == 10 then 30
    else 31
  }

  /** A day that exists in the calendar. */
  predicate ValidDate(d: Date) {
    0 <= d.month < 12 && 1 <= d.day <= DaysInMonth(d.year, d.month)
  }

  /** `a` is strictly earlier than `b`. */
  predicate Before(a: Date, b: Date) {
    a.year < b.year || (a.year == b.year && (a.month < b.month || (a.month == b.month && a.day < b.day)))
  }

  /** The following day. */
  function Next(d: Date): (r: Date)
    requires ValidDate(d)
    ensures ValidDate(r) && Before(d, r)
  {
    if d.day < DaysInMonth(d.year, d.month) then Date(d.year, d.month, d.day + 1)
    else if d.month < 11 then Date(d.year, d.month + 1, 1)
    else Date(d.year + 1, 0, 1)
  }

  /** The preceding day. */
  function Prev(d: Date): (r: Date)
    requires ValidDate(d)
    ensures ValidDate(r) && Before(r, d)
  {
    if d.day > 1 then Date(d.year, d.month, d.day - 1)
    else if d.month > 0 then Date(d.year, d.month - 1, DaysInMonth(d.year, d.month - 1))
    else Date(d.year - 1, 11, 31)
  }

  /** No day lies strictly between a day and the next one. */
  lemma NextIsSuccessor(d: Date, e: Date)
    requires ValidDate(d) && ValidDate(e)
    ensures Before(d, e) <==> e == Next(d) || Before(Next(d), e)
  {
  }

  lemma PrevNext(d: Date)
    requires ValidDate(d)
    ensures Prev(Next(d)) == d
  {
  }

  lemma NextPrev(d: Date)
    requires ValidDate(d)
    ensures Next(Prev(d)) == d
  {
  }

  /** The day `k` days after `d` (before it when `k` is negative). */
  function Shift(d: Date, k: int): (r: Date)
    requires ValidDate(d)
    ensures ValidDate(r)
    decreases if k < 0 then -k else k
  {
    if k == 0 then d
    else if k > 0 then Next(Shift(d, k - 1))
    else Prev(Shift(d, k + 1))
  }

  /** `addFutureDays(days, referenceDate)` */
  function AddFutureDays(days: int, referenceDate: Date): (r: Date)
    requires ValidDate(referenceDate)
    ensures ValidDate(r)
  {
    Shift(referenceDate, days)
  }

  /** `addPastDays(days, referenceDate)` */
  function AddPastDays(days: int, referenceDate: Date): (r: Date)
    requires ValidDate(referenceDate)
    ensures ValidDate(r)
  {
    Shift(referenceDate, -days)
  }

  /** One more day of shift is one more `Next`, whatever the sign of `k`. */
  lemma ShiftSucc(d: Date, k: int)
    requires ValidDate(d)
    ensures Shift(d, k + 1) == Next(Shift(d, k))
  {
    if k < 0 {
      NextPrev(Shift(d, k + 1));
    }
  }

  /** One less day of shift is one more `Prev`, whatever the sign of `k`. */
  lemma ShiftPred(d: Date, k: int)
    requires ValidDate(d)
    ensures Shift(d, k - 1) == Prev(Shift(d, k))
  {
    if k > 0 {
      PrevNext(Shift(d, k - 1));
    }
  }

  /** Shifting by `a` and then by `b` is shifting by `a + b`. */
  lemma {:induction false} ShiftShift(d: Date, a: int, b: int)
    requires ValidDate(d)
    ensures Shift(Shift(d, a), b) == Shift(d, a + b)
    decreases if b < 0 then -b else b
  {
    if b > 0 {
      ShiftShift(d, a, b - 1);
      ShiftSucc(d, a + b - 1);
    } else if b < 0 {
      ShiftShift(d, a, b + 1);
      ShiftPred(d, a + b + 1);
    }
  }

  /** Going `n` days back from `n` days ahead returns to the starting day, and conversely. */
  lemma AddPastFuture(n: int, d: Date)
    requires ValidDate(d)
    ensures AddPastDays(n, AddFutureDays(n, d)) == d
    ensures AddFutureDays(n, AddPastDays(n, d)) == d
  {
    ShiftShift(d, n, -n);
    ShiftShift(d, -n, n);
  }

  /** A positive shift lands strictly later, a negative one strictly earlier. */
  lemma {:induction false} ShiftOrder(d: Date, k: int)
    requires ValidDate(d)
    ensures k > 0 ==> Before(d, Shift(d, k))
    ensures k < 0 ==> Before(Shift(d, k), d)
    decreases if k < 0 then -k else k
  {
    if k > 1 {
      ShiftOrder(d, k - 1);
    } else if k < -1 {
      ShiftOrder(d, k + 1);
    }
  }

  /** `[...a].reverse()` */
  function Reversed<T>(s: seq<T>): (r: seq<T>)
    ensures |r| == |s|
    ensures forall i :: 0 <= i < |s| ==> r[i] == s[|s| - 1 - i]
  {
    if s == [] then [] else Reversed(s[1..]) + [s[0]]
  }

  /** `Array.prototype.reverse` applied to the first `n` cells of `a`. */
  method ReversePrefix<T>(a: array<T>, n: nat)
    requires n <= a.Length
    modifies a
    ensures a[..n] == Reversed(old(a[..n]))
    ensures a[n..] == old(a[n..])
  {
    ghost var orig := a[..];
    var lo, hi := 0, n - 1;
    while lo < hi
      invariant 0 <= lo <= n && hi == n - 1 - lo
      invariant forall k :: 0 <= k < lo ==> a[k] == orig[n - 1 - k] && a[n - 1 - k] == orig[k]
      invariant forall k :: lo <= k <= hi ==> a[k] == orig[k]
      invariant forall k :: n <= k < a.Length ==> a[k] == orig[k]
    {
      a[lo], a[hi] := a[hi], a[lo];
      lo, hi := lo + 1, hi - 1;
    }
    forall k | 0 <= k < n ensures a[k] == orig[n - 1 - k] {
      if n - 1 - k < lo {
        assert a[n - 1 - (n - 1 - k)] == orig[n - 1 - k];
      }
    }
    ReversedByIndex(orig[..n], a[..n]);
    assert a[n..] == orig[n..];
  }

  /** A sequence holding the elements of `s` in mirrored positions is the reversal of `s`. */
  lemma ReversedByIndex<T>(s: seq<T>, r: seq<T>)
    requires |r| == |s|
    requires forall k :: 0 <= k < |s| ==> r[k] == s[|s| - 1 - k]
    ensures r == Reversed(s)
  {
  }

  /**
   * `generateWeeklyCalendarDates(pastDays, futureDays, referenceDate)`: the
   * future days are written after the reference day, the list is reversed, the
   * past days are appended, and the list is reversed again.
   */
  method GenerateWeeklyCalendarDates(pastDays: nat, futureDays: nat, referenceDate: Date) returns (dates: seq<Date>)
    requires ValidDate(referenceDate)
    ensures |dates| == pastDays + futureDays + 1
    ensures forall i :: 0 <= i < |dates| ==> dates[i] == Shift(referenceDate, i - pastDays)
  {
    var n := pastDays + futureDays + 1;
    var a := new Date[n](_ => referenceDate);
    WriteFutureDays(a, futureDays, referenceDate);
    ghost var future := a[..futureDays + 1];
    ReversePrefix(a, futureDays + 1);
    ReversedUp(future, referenceDate, a[..futureDays + 1], futureDays);
    assert forall k :: 0 <= k <= futureDays ==> a[k] == a[..futureDays + 1][k];
    WritePastDays(a, futureDays, pastDays, referenceDate);
    ghost var both := a[..n];
    ReversePrefix(a, n);
    dates := a[..n];
    ReversedDown(both, referenceDate, dates, futureDays, pastDays);
  }

  /** The first loop of `generateWeeklyCalendarDates`: cell `i` gets the day `i` days ahead. */
  method WriteFutureDays(a: array<Date>, futureDays: nat, referenceDate: Date)
    requires ValidDate(referenceDate) && futureDays < a.Length && a[0] == referenceDate
    modifies a
    ensures forall k :: 0 <= k <= futureDays ==> a[k] == Shift(referenceDate, k)
  {
    assert a[0] == Shift(referenceDate, 0);
    for i := 1 to futureDays + 1
      invariant forall k :: 0 <= k < i ==> a[k] == Shift(referenceDate, k)
    {
      a[i] := AddFutureDays(i, referenceDate);
    }
  }

  /**
   * The second loop, after the first reversal has put the day `futureDays - k`
   * days ahead in cell `k`: cell `i` gets the day `i - futureDays` days back.
   */
  method WritePastDays(a: array<Date>, futureDays: nat, pastDays: nat, referenceDate: Date)
    requires ValidDate(referenceDate) && futureDays + pastDays < a.Length
    requires forall k :: 0 <= k <= futureDays ==> a[k] == Shift(referenceDate, futureDays - k)
    modifies a
    ensures forall k :: 0 <= k <= futureDays + pastDays ==> a[k] == Shift(referenceDate, futureDays - k)
  {
    for i := futureDays + 1 to futureDays + pastDays + 1
      invariant forall k :: 0 <= k < i ==> a[k] == Shift(referenceDate, futureDays - k)
    {
      var day := AddPastDays(i - futureDays, referenceDate);
      assert day == Shift(referenceDate, futureDays - i);
      a[i] := day;
    }
  }

  /** Reversing the run of days counting up from `d` gives the run counting down to `d`. */
  lemma ReversedUp(s: seq<Date>, d: Date, r: seq<Date>, c: int)
    requires ValidDate(d) && |s| == c + 1
    requires forall k :: 0 <= k < |s| ==> s[k] == Shift(d, k)
    requires r == Reversed(s)
    ensures forall i :: 0 <= i < |r| ==> r[i] == Shift(d, c - i)
  {
    forall i | 0 <= i < |r| ensures r[i] == Shift(d, c - i) {
      assert r[i] == s[|s| - 1 - i];
    }
  }

  /** Reversing a run of days counting down from `c` gives the run counting up to `c`. */
  lemma ReversedDown(s: seq<Date>, d: Date, r: seq<Date>, c: int, p: int)
    requires ValidDate(d) && |s| == p + c + 1
    requires forall k :: 0 <= k < |s| ==> s[k] == Shift(d, c - k)
    requires r == Reversed(s)
    ensures forall i :: 0 <= i < |r| ==> r[i] == Shift(d, i - p)
  {
    forall i | 0 <= i < |r| ensures r[i] == Shift(d, i - p) {
      assert r[i] == s[|s| - 1 - i];
      assert c - (|s| - 1 - i) == i - p;
    }
  }

  /** The generated list runs day by day: each entry is the day after the previous one. */
  lemma ShiftedRunConsecutive(d: Date, dates: seq<Date>, offset: int)
    requires ValidDate(d)
    requires forall i :: 0 <= i < |dates| ==> dates[i] == Shift(d, i - offset)
    ensures forall i :: 0 <= i < |dates| - 1 ==> ValidDate(dates[i]) && dates[i + 1] == Next(dates[i])
    ensures forall i, j :: 0 <= i < j < |dates| ==> Before(dates[i], dates[j])
  {
    forall i | 0 <= i < |dates| - 1 ensures ValidDate(dates[i]) && dates[i + 1] == Next(dates[i]) {
      ShiftSucc(d, i - offset);
    }
    forall i, j | 0 <= i < j < |dates| ensures Before(dates[i], dates[j]) {
      ShiftShift(d, i - offset, j - i);
      ShiftOrder(Shift(d, i - offset), j - i);
    }
  }

  /** `weekdayIndex(weekday)`: `undefined` for anything but the seven abbreviations. */
  function WeekdayIndex(weekday: string): (r: Option<int>)
    ensures r.Some? ==> 0 <= r.value < 7
  {
    if weekday == "Sun" then Some(0)
    else if weekday == "Mon" then Some(1)
    else if weekday == "Tue" then Some(2)
    else if weekday == "Wed" then Some(3)
    else if weekday == "Thu" then Some(4)
    else if weekday == "Fri" then Some(5)
    else if weekday == "Sat" then Some(6)
    else None
  }

  /** `getWeekday(date)` applied to `date.getDay()`. */
  function GetWeekday(weekdayNum: int): (r: Option<string>)
    ensures r.Some? <==> 0 <= weekdayNum < 7
    ensures r.Some? ==> WeekdayIndex(r.value) == Some(weekdayNum)
  {
    if weekdayNum == 0 then Some("Sun")
    else if weekdayNum == 1 then Some("Mon")
    else if weekdayNum == 2 then Some("Tue")
    else if weekdayNum == 3 then Some("Wed")
    else if weekdayNum == 4 then Some("Thu")
    else if weekdayNum == 5 then Some("Fri")
    else if weekdayNum == 6 then Some("Sat")
    else None
  }

  /** The other direction of the round trip: a recognised abbreviation is the one `getWeekday` produces. */
  lemma WeekdayIndexInverse(weekday: string)
    ensures WeekdayIndex(weekday).Some? ==> GetWeekday(WeekdayIndex(weekday).value) == Some(weekday)
  {
  }

  /** JavaScript's `a > b` on numbers that may be `undefined`: false as soon as one is. */
  predicate JsGreater(a: Option<int>, b: Option<int>) {
    a.Some? && b.Some? && a.value > b.value
  }

  /**
   * `numDaysBefore` in `checkWeekLayout`: how many days the week starts
   * before the reference day, from the start weekday's and the reference
   * weekday's positions.
   */
  function NumDaysBefore(startingWeekdayPosition: Option<int>, weekdayPosition: Option<int>): (n: int)
    ensures startingWeekdayPosition.None? || weekdayPosition.None? ==> n == 0
    ensures startingWeekdayPosition.Some? && weekdayPosition.Some?
      && 0 <= startingWeekdayPosition.value < 7 && 0 <= weekdayPosition.value < 7
      ==> n == (weekdayPosition.value - startingWeekdayPosition.value) % 7
  {
    if JsGreater(startingWeekdayPosition, weekdayPosition) then
      6 - startingWeekdayPosition.value + weekdayPosition.value + 1
    else if JsGreater(weekdayPosition, startingWeekdayPosition) then
      weekdayPosition.value - startingWeekdayPosition.value
    else 0
  }

  /**
   * `checkWeekLayout(referenceDate, startingWeekday)`. `weekday` is the
   * three-letter prefix of `referenceDate.toString()`.
   */
  method CheckWeekLayout(referenceDate: Date, weekday: string, startingWeekday: string) returns (weekArray: seq<Date>)
    requires ValidDate(referenceDate)
    ensures |weekArray| == 7
    ensures var before := NumDaysBefore(WeekdayIndex(startingWeekday), WeekdayIndex(weekday));
      0 <= before < 7 && weekArray[before] == referenceDate
      && forall i :: 0 <= i < 7 ==> weekArray[i] == Shift(referenceDate, i - before)
    ensures WeekdayIndex(startingWeekday).Some? && WeekdayIndex(weekday).Some? ==>
      var before := NumDaysBefore(WeekdayIndex(startingWeekday), WeekdayIndex(weekday));
      (WeekdayIndex(weekday).value - before) % 7 == WeekdayIndex(startingWeekday).value
  {
    var startingWeekdayPosition := WeekdayIndex(startingWeekday);
    var weekdayPosition := WeekdayIndex(weekday);
    var numDaysBefore := NumDaysBefore(startingWeekdayPosition, weekdayPosition);
    var numDaysAfter := 6 - numDaysBefore;
    weekArray := GenerateWeeklyCalendarDates(numDaysBefore, numDaysAfter, referenceDate);
  }

  /** `new Date(year, month, 1)` for a month index up to 12, which rolls over into January of the next year. */
  function MonthStart(year: int, month: int): (r: Date)
    requires 0 <= month <= 12
    ensures ValidDate(r) && r.day == 1
  {
    if month == 12 then Date(year + 1, 0, 1) else Date(year, month, 1)
  }

  /** Within a month, shifting the first by `i` days gives day `i + 1`. */
  lemma {:induction false} ShiftInMonth(year: int, month: int, i: nat)
    requires 0 <= month < 12 && i < DaysInMonth(year, month)
    ensures Shift(Date(year, month, 1), i) == Date(year, month, i + 1)
  {
    if i > 0 {
      ShiftInMonth(year, month, i - 1);
    }
  }

  /**
   * `checkMonthLayout(referenceDate)`: the month length is read off day 0 of
   * the next month, then every day from the 1st is pushed.
   */
  method CheckMonthLayout(referenceDate: Date) returns (monthArray: seq<Date>)
    requires ValidDate(referenceDate)
    ensures |monthArray| == DaysInMonth(referenceDate.year, referenceDate.month)
    ensures forall i :: 0 <= i < |monthArray| ==> monthArray[i] == Date(referenceDate.year, referenceDate.month, i + 1)
  {
    var year := referenceDate.year;
    var month := referenceDate.month + 1;
    var numDays := Prev(MonthStart(year, month)).day;
    var startDate := Date(year, month - 1, 1);
    monthArray := [];
    for i := 0 to numDays
      invariant |monthArray| == i
      invariant forall k :: 0 <= k < i ==> monthArray[k] == Date(year, month - 1, k + 1)
    {
      ShiftInMonth(year, month - 1, i);
      monthArray := monthArray + [AddFutureDays(i, startDate)];
    }
  }

  /** `getMonthName(date)` applied to `date.getMonth()`. */
  function GetMonthName(monthNum: int): (r: Option<string>)
    ensures r.Some? <==> 0 <= monthNum < 12
  {
    if monthNum == 0 then Some("January")
    else if monthNum == 1 then Some("February")
    else if monthNum == 2 then Some("March")
    else if monthNum == 3 then Some("April")
    else if monthNum == 4 then Some("May")
    else if monthNum == 5 then Some("June")
    else if monthNum == 6 then Some("July")
    else if monthNum == 7 then Some("August")
    else if monthNum == 8 then Some("September")
    else if monthNum == 9 then Some("October")
    else if monthNum == 10 then Some("November")
    else if monthNum == 11 then Some("December")
    else None
  }

  /** `getMonthNum(monthName)`: full names and three-letter abbreviations. */
  function GetMonthNum(monthName: string): (r: Option<int>)
    ensures r.Some? ==> 0 <= r.value < 12
  {
    if monthName == "Jan" || monthName == "January" then Some(0)
    else if monthName == "Feb" || monthName == "February" then Some(1)
    else if monthName == "Mar" || monthName == "March" then Some(2)
    else if monthName == "Apr" || monthName == "April" then Some(3)
    else if monthName == "May" then Some(4)
    else if monthName == "Jun" || monthName == "June" then Some(5)
    else if monthName == "Jul" || monthName == "July" then Some(6)
    else if monthName == "Aug" || monthName == "August" then Some(7)
    else if monthName == "Sep" || monthName == "September" then Some(8)
    else if monthName == "Oct" || monthName == "October" then Some(9)
    else if monthName == "Nov" || monthName == "November" then Some(10)
    else if monthName == "Dec" || monthName == "December" then Some(11)
    else None
  }

  /**
   * The name lookups invert each other: a month's full name and the first
   * three letters of it both map back to the month, and nothing else maps
   * to a month.
   */
  lemma MonthNameRoundTrip(monthNum: int)
    ensures 0 <= monthNum < 12 ==>
      && GetMonthNum(GetMonthName(monthNum).value) == Some(monthNum)
      && GetMonthNum(GetMonthName(monthNum).value[..3]) == Some(monthNum)
  {
    if monthNum == 0 {
      RoundTripJanuary(monthNum);
    } else if monthNum == 1 {
      RoundTripFebruary(monthNum);
    } else if monthNum == 2 {
      RoundTripMarch(monthNum);
    } else if monthNum == 3 {
      RoundTripApril(monthNum);
    } else if monthNum == 4 {
      RoundTripMay(monthNum);
    } else if monthNum == 5 {
      RoundTripJune(monthNum);
    } else if monthNum == 6 {
      RoundTripJuly(monthNum);
    } else if monthNum == 7 {
      RoundTripAugust(monthNum);
    } else if monthNum == 8 {
      RoundTripSeptember(monthNum);
    } else if monthNum == 9 {
      RoundTripOctober(monthNum);
    } else if monthNum == 10 {
      RoundTripNovember(monthNum);
    } else if monthNum == 11 {
      RoundTripDecember(monthNum);
    }
  }

  /** The round trip for January. */
  lemma RoundTripJanuary(monthNum: int)
    requires monthNum == 0
    ensures GetMonthNum(GetMonthName(monthNum).value) == Some(monthNum)
    ensures GetMonthNum(GetMonthName(monthNum).value[..3]) == Some(monthNum)
  {
    assert "January"[..3] == "Jan";
  }

  /** The round trip for February. */
  lemma RoundTripFebruary(monthNum: int)
    requires monthNum == 1
    ensures GetMonthNum(GetMonthName(monthNum).value) == Some(monthNum)
    ensures GetMonthNum(GetMonthName(monthNum).value[..3]) == Some(monthNum)
  {
    assert "February"[..3] == "Feb";
  }

  /** The round trip for March. */
  lemma RoundTripMarch(monthNum: int)
    requires monthNum == 2
    ensures GetMonthNum(GetMonthName(monthNum).value) == Some(monthNum)
    ensures GetMonthNum(GetMonthName(monthNum).value[..3]) == Some(monthNum)
  {
    assert "March"[..3] == "Mar";
  }

  /** The round trip for April. */
  lemma RoundTripApril(monthNum: int)
    requires monthNum == 3
    ensures GetMonthNum(GetMonthName(monthNum).value) == Some(monthNum)
    ensures GetMonthNum(GetMonthName(monthNum).value[..3]) == Some(monthNum)
  {
    assert "April"[..3] == "Apr";
  }

  /** The round trip for May. */
  lemma RoundTripMay(monthNum: int)
    requires monthNum == 4
    ensures GetMonthNum(GetMonthName(monthNum).value) == Some(monthNum)
    ensures GetMonthNum(GetMonthName(monthNum).value[..3]) == Some(monthNum)
  {
    assert "May"[..3] == "May";
  }

  /** The round trip for June. */
  lemma RoundTripJune(monthNum: int)
    requires monthNum == 5
    ensures GetMonthNum(GetMonthName(monthNum).value) == Some(monthNum)
    ensures GetMonthNum(GetMonthName(monthNum).value[..3]) == Some(monthNum)
  {
    assert "June"[..3] == "Jun";
  }

  /** The round trip for July. */
  lemma RoundTripJuly(monthNum: int)
    requires monthNum == 6
    ensures GetMonthNum(GetMonthName(monthNum).value) == Some(monthNum)
    ensures GetMonthNum(GetMonthName(monthNum).value[..3]) == Some(monthNum)
  {
    assert "July"[..3] == "Jul";
  }

  /** The round trip for August. */
  lemma RoundTripAugust(monthNum: int)
    requires monthNum == 7
    ensures GetMonthNum(GetMonthName(monthNum).value) == Some(monthNum)
    ensures GetMonthNum(GetMonthName(monthNum).value[..3]) == Some(monthNum)
  {
    assert "August"[..3] == "Aug";
  }

  /** The round trip for September. */
  lemma RoundTripSeptember(monthNum: int)
    requires monthNum == 8
    ensures GetMonthNum(GetMonthName(monthNum).value) == Some(monthNum)
    ensures GetMonthNum(GetMonthName(monthNum).value[..3]) == Some(monthNum)
  {
    assert "September"[..3] == "Sep";
  }

  /** The round trip for October. */
  lemma RoundTripOctober(monthNum: int)
    requires monthNum == 9
    ensures GetMonthNum(GetMonthName(monthNum).value) == Some(monthNum)
    ensures GetMonthNum(GetMonthName(monthNum).value[..3]) == Some(monthNum)
  {
    assert "October"[..3] == "Oct";
  }

  /** The round trip for November. */
  lemma RoundTripNovember(monthNum: int)
    requires monthNum == 10
    ensures GetMonthNum(GetMonthName(monthNum).value) == Some(monthNum)
    ensures GetMonthNum(GetMonthName(monthNum).value[..3]) == Some(monthNum)
  {
    assert "November"[..3] == "Nov";
  }

  /** The round trip for December. */
  lemma RoundTripDecember(monthNum: int)
    requires monthNum == 11
    ensures GetMonthNum(GetMonthName(monthNum).value) == Some(monthNum)
    ensures GetMonthNum(GetMonthName(monthNum).value[..3]) == Some(monthNum)
  {
    assert "December"[..3] == "Dec";
  }

  /** A name `getMonthNum` recognises is the full name or the abbreviation of the month it returns. */
  lemma MonthNumSound(monthName: string)
    ensures GetMonthNum(monthName).Some? ==>
      var k := GetMonthNum(monthName).value;
      monthName == GetMonthName(k).value || monthName == GetMonthName(k).value[..3]
  {
    assert "January"[..3] == "Jan";
    assert "February"[..3] == "Feb";
    assert "March"[..3] == "Mar";
    assert "April"[..3] == "Apr";
    assert "May"[..3] == "May";
    assert "June"[..3] == "Jun";
    assert "July"[..3] == "Jul";
    assert "August"[..3] == "Aug";
    assert "September"[..3] == "Sep";
    assert "October"[..3] == "Oct";
    assert "November"[..3] == "Nov";
    assert "December"[..3] == "Dec";
  }


  /** `getMonthNum` accepts a month's full name and its abbreviation, and nothing else. */
  lemma MonthNumIff(monthNum: int, monthName: string)
    ensures GetMonthNum(monthName) == Some(monthNum) <==>
      0 <= monthNum < 12 && (monthName == GetMonthName(monthNum).value || monthName == GetMonthName(monthNum).value[..3])
  {
    MonthNumSound(monthName);
    MonthNameRoundTrip(monthNum);
  }

}
