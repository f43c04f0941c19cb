/**
 * The month grid of the calendar card (src/components/display/CalendarCard.js):
 * the month's days are laid into 6 weeks of 7 slots after `firstWeekday`
 * empty slots, the grid is cut into weeks, and the weeks with no day are
 * dropped. Each slot renders as an empty cell or a numbered cell, circled
 * when it is today.
 */
module CalendarCard {
  import opened Wrappers
  import opened Sequences
  import opened CalendarDates

  const Slots := 7 * 6

  /** How one slot of the grid renders. */
  datatype Cell = Blank | DayCell(dayOfMonth: int, isToday: bool)

  /** The nested year, month and day comparison of `ImagePreview`. */
  function IsSameDay(date: Date, today: Date): (r: bool)
    ensures r <==> date == today
  {
    if date.year == today.year then
      if date.month == today.month then date.day == today.day else false
    else false
  }

  /** `ImagePreview(date, index)` */
  function ImagePreview(date: Option<Date>, today: Date): (c: Cell)
    ensures date.None? <==> c == Blank
    ensures date.Some? ==> c.dayOfMonth == date.value.day && (c.isToday <==> date.value == today)
  {
    if date.Some? then DayCell(date.value.day, IsSameDay(date.value, today)) else Blank
  }

  /** What slot `j` of the grid holds: day `j - firstWeekday` of the month, or nothing. */
  function Slot(calendarDays: seq<Date>, firstWeekday: int, j: int): Option<Date> {
    if firstWeekday <= j < firstWeekday + |calendarDays| then Some(calendarDays[j - firstWeekday]) else None
  }

  /** `week.some(day => day !== null)` */
  predicate HasDay(week: seq<Option<Date>>) {
    exists k :: 0 <= k < |week| && week[k].Some?
  }

  /** The weeks that `MonthLayout` keeps. */
  function KeptWeeks(weeks: seq<seq<Option<Date>>>): seq<seq<Option<Date>>> {
    if weeks == [] then []
    else (if HasDay(weeks[0]) then [weeks[0]] else []) + KeptWeeks(weeks[1..])
  }

  /** The kept weeks are exactly the weeks that hold a day. */
  lemma {:induction false} KeptWeeksMembers(weeks: seq<seq<Option<Date>>>)
    ensures forall w :: w in KeptWeeks(weeks) ==> w in weeks && HasDay(w)
    ensures forall w :: w in weeks && HasDay(w) ==> w in KeptWeeks(weeks)
  {
    if weeks != [] {
      KeptWeeksMembers(weeks[1..]);
      assert weeks == [weeks[0]] + weeks[1..];
    }
  }

  /**
   * `MonthLayout`: `firstWeekday` is `calendarDays[0].getDay()`. The grid is
   * a 42-slot array filled with nulls and then written day by day; it is cut
   * into slices of 7 and every slice with a day is pushed onto `weeks`.
   */
  method MonthLayout(calendarDays: seq<Date>, firstWeekday: int) returns (monthLayout: seq<Option<Date>>, weeks: seq<seq<Option<Date>>>)
    requires |calendarDays| > 0 && 0 <= firstWeekday < 7 && firstWeekday + |calendarDays| <= Slots
    ensures |monthLayout| == Slots
    ensures forall j :: 0 <= j < Slots ==> monthLayout[j] == Slot(calendarDays, firstWeekday, j)
    ensures weeks == KeptWeeks(Chunks(monthLayout, 7))
  {
    var layout := new Option<Date>[Slots](_ => None);
    for i := 0 to |calendarDays|
      invariant forall j :: 0 <= j < Slots ==> layout[j] == (if firstWeekday <= j < firstWeekday + i then Some(calendarDays[j - firstWeekday]) else None)
    {
      layout[i + firstWeekday] := Some(calendarDays[i]);
    }
    monthLayout := layout[..];
    weeks := KeepWeeks(monthLayout);
  }

  /** The loop of `MonthLayout` that cuts the grid into weeks of 7 and pushes every week with a day. */
  method KeepWeeks(monthLayout: seq<Option<Date>>) returns (weeks: seq<seq<Option<Date>>>)
    requires |monthLayout| == Slots
    ensures weeks == KeptWeeks(Chunks(monthLayout, 7))
  {
    ghost var chunks := Chunks(monthLayout, 7);
    GridWeeks(monthLayout);
    weeks := [];
    var i := 0;
    ghost var w := 0;
    while i < Slots
      invariant 0 <= w <= 6 && i == 7 * w
      invariant weeks == KeptWeeks(chunks[..w])
    {
      var week := monthLayout[i..i + 7];
      assert chunks[..w + 1] == chunks[..w] + [week];
      KeptWeeksSnoc(chunks[..w], week);
      if HasDay(week) {
        weeks := weeks + [week];
      }
      i := i + 7;
      w := w + 1;
    }
    assert chunks[..6] == chunks;
  }

  /** Keeping the weeks of a longer list: the week added at the end is kept iff it has a day. */
  lemma {:induction false} KeptWeeksSnoc(weeks: seq<seq<Option<Date>>>, week: seq<Option<Date>>)
    ensures KeptWeeks(weeks + [week]) == KeptWeeks(weeks) + (if HasDay(week) then [week] else [])
  {
    if weeks == [] {
      assert [] + [week] == [week];
    } else {
      var longer := weeks + [week];
      var head := if HasDay(weeks[0]) then [weeks[0]] else [];
      var last := if HasDay(week) then [week] else [];
      assert longer != [] && longer[0] == weeks[0] && longer[1..] == weeks[1..] + [week];
      assert KeptWeeks(longer) == head + KeptWeeks(weeks[1..] + [week]);
      KeptWeeksSnoc(weeks[1..], week);
      assert KeptWeeks(weeks) == head + KeptWeeks(weeks[1..]);
      assert head + (KeptWeeks(weeks[1..]) + last) == (head + KeptWeeks(weeks[1..])) + last;
    }
  }

  /** Week `w` of the grid is slots `7 * w` to `7 * w + 6`. */
  lemma GridWeeks(monthLayout: seq<Option<Date>>)
    requires |monthLayout| == Slots
    ensures |Chunks(monthLayout, 7)| == 6
    ensures forall w :: 0 <= w < 6 ==> Chunks(monthLayout, 7)[w] == monthLayout[7 * w..7 * w + 7]
  {
    ChunksSizes(monthLayout, 7);
    forall w | 0 <= w < 6 ensures Chunks(monthLayout, 7)[w] == monthLayout[7 * w..7 * w + 7] {
      ChunksAt(monthLayout, 7, w);
    }
  }

  /**
   * A week holds a day iff the month has days and the week starts before the
   * slot after the last day; in particular the first week always holds one.
   */
  lemma WeekHasDayIff(calendarDays: seq<Date>, firstWeekday: int, monthLayout: seq<Option<Date>>, w: int)
    requires 0 <= firstWeekday < 7 && firstWeekday + |calendarDays| <= Slots
    requires |monthLayout| == Slots
    requires forall j :: 0 <= j < Slots ==> monthLayout[j] == Slot(calendarDays, firstWeekday, j)
    requires 0 <= w < 6
    ensures HasDay(monthLayout[7 * w..7 * w + 7]) <==> |calendarDays| > 0 && 7 * w < firstWeekday + |calendarDays|
  {
    var week := monthLayout[7 * w..7 * w + 7];
    var n := |calendarDays|;
    if n > 0 && 7 * w < firstWeekday + n {
      var j := if firstWeekday < 7 * w then 7 * w else firstWeekday;
      assert week[j - 7 * w] == monthLayout[j];
    }
    if HasDay(week) {
      var k :| 0 <= k < 7 && week[k].Some?;
      assert monthLayout[7 * w + k].Some?;
    }
  }

  /** Dropping the weeks that fail the test from the end only: the kept weeks are a prefix. */
  lemma {:induction false} KeptPrefix(weeks: seq<seq<Option<Date>>>, count: nat)
    requires count <= |weeks|
    requires forall w :: 0 <= w < count ==> HasDay(weeks[w])
    requires forall w :: count <= w < |weeks| ==> !HasDay(weeks[w])
    ensures KeptWeeks(weeks) == weeks[..count]
  {
    if weeks != [] {
      KeptPrefix(weeks[1..], if count == 0 then 0 else count - 1);
      if count > 0 {
        assert weeks[..count] == [weeks[0]] + weeks[1..][..count - 1];
      }
    }
  }

  /**
   * Only trailing weeks are dropped: `MonthLayout` keeps the first
   * `ceil((firstWeekday + |calendarDays|) / 7)` weeks of the grid (none for an
   * empty month) and drops the rest.
   */
  lemma OnlyTrailingWeeksDropped(calendarDays: seq<Date>, firstWeekday: int, monthLayout: seq<Option<Date>>)
    requires 0 <= firstWeekday < 7 && firstWeekday + |calendarDays| <= Slots
    requires |monthLayout| == Slots
    requires forall j :: 0 <= j < Slots ==> monthLayout[j] == Slot(calendarDays, firstWeekday, j)
    ensures var count := if calendarDays == [] then 0 else (firstWeekday + |calendarDays| + 6) / 7;
      |Chunks(monthLayout, 7)| == 6 && count <= 6 && KeptWeeks(Chunks(monthLayout, 7)) == Chunks(monthLayout, 7)[..count]
  {
    var n := |calendarDays|;
    var count := if calendarDays == [] then 0 else (firstWeekday + n + 6) / 7;
    var grid := Chunks(monthLayout, 7);
    GridWeeks(monthLayout);
    forall w | 0 <= w < 6 ensures HasDay(grid[w]) <==> w < count {
      WeekHasDayIff(calendarDays, firstWeekday, monthLayout, w);
    }
    KeptPrefix(grid, count);
  }

  /** The days of the slots, in slot order. */
  function Days(slots: seq<Option<Date>>): seq<Date> {
    if slots == [] then [] else (if slots[0].Some? then [slots[0].value] else []) + Days(slots[1..])
  }

  lemma {:induction false} DaysConcat(a: seq<Option<Date>>, b: seq<Option<Date>>)
    ensures Days(a + b) == Days(a) + Days(b)
  {
    if a == [] {
      assert a + b == b;
    } else {
      var head := if a[0].Some? then [a[0].value] else [];
      assert a + b != [] && (a + b)[0] == a[0] && (a + b)[1..] == a[1..] + b;
      assert Days(a + b) == head + Days(a[1..] + b);
      DaysConcat(a[1..], b);
      assert Days(a) == head + Days(a[1..]);
      assert head + (Days(a[1..]) + Days(b)) == (head + Days(a[1..])) + Days(b);
    }
  }

  lemma {:induction false} NoDays(slots: seq<Option<Date>>)
    requires !HasDay(slots)
    ensures Days(slots) == []
  {
    if slots != [] {
      assert !slots[0].Some?;
      assert !HasDay(slots[1..]) by {
        forall k | 0 <= k < |slots[1..]| ensures !slots[1..][k].Some? {
          assert slots[1..][k] == slots[k + 1];
        }
      }
      NoDays(slots[1..]);
    }
  }

  /** Dropping weeks without a day loses no day. */
  lemma {:induction false} KeptWeeksKeepDays(weeks: seq<seq<Option<Date>>>)
    ensures Days(Flatten(KeptWeeks(weeks))) == Days(Flatten(weeks))
  {
    if weeks != [] {
      KeptWeeksKeepDays(weeks[1..]);
      var head := if HasDay(weeks[0]) then [weeks[0]] else [];
      assert KeptWeeks(weeks) == head + KeptWeeks(weeks[1..]);
      assert Flatten(weeks) == weeks[0] + Flatten(weeks[1..]);
      FlattenConcat(head, KeptWeeks(weeks[1..]));
      DaysConcat(Flatten(head), Flatten(KeptWeeks(weeks[1..])));
      DaysConcat(weeks[0], Flatten(weeks[1..]));
      if HasDay(weeks[0]) {
        assert head[1..] == [];
        assert Flatten(head) == weeks[0] + Flatten(head[1..]);
        assert weeks[0] + [] == weeks[0];
      } else {
        NoDays(weeks[0]);
      }
    }
  }

  /** The days of the first `count` slots of the grid are the first `count - firstWeekday` days of the month. */
  lemma {:induction false} GridDaysPrefix(calendarDays: seq<Date>, firstWeekday: int, monthLayout: seq<Option<Date>>, count: nat)
    requires 0 <= firstWeekday < 7 && firstWeekday + |calendarDays| <= Slots
    requires |monthLayout| == Slots
    requires forall j :: 0 <= j < Slots ==> monthLayout[j] == Slot(calendarDays, firstWeekday, j)
    requires count <= Slots
    ensures Days(monthLayout[..count]) ==
      if count <= firstWeekday then []
      else if count <= firstWeekday + |calendarDays| then calendarDays[..count - firstWeekday]
      else calendarDays
  {
    if count > 0 {
      GridDaysPrefix(calendarDays, firstWeekday, monthLayout, count - 1);
      assert monthLayout[..count] == monthLayout[..count - 1] + [monthLayout[count - 1]];
      DaysConcat(monthLayout[..count - 1], [monthLayout[count - 1]]);
      assert Days([monthLayout[count - 1]]) == (if monthLayout[count - 1].Some? then [monthLayout[count - 1].value] else []);
      if firstWeekday < count <= firstWeekday + |calendarDays| {
        assert calendarDays[..count - firstWeekday] == calendarDays[..count - 1 - firstWeekday] + [calendarDays[count - 1 - firstWeekday]];
      }
    }
  }

  /**
   * Reading the kept weeks row by row and skipping the empty slots gives back
   * the month's days in order.
   */
  lemma KeptWeeksHoldTheMonth(calendarDays: seq<Date>, firstWeekday: int, monthLayout: seq<Option<Date>>)
    requires 0 <= firstWeekday < 7 && firstWeekday + |calendarDays| <= Slots
    requires |monthLayout| == Slots
    requires forall j :: 0 <= j < Slots ==> monthLayout[j] == Slot(calendarDays, firstWeekday, j)
    ensures Days(Flatten(KeptWeeks(Chunks(monthLayout, 7)))) == calendarDays
  {
    KeptWeeksKeepDays(Chunks(monthLayout, 7));
    ChunksFlatten(monthLayout, 7);
    GridDaysPrefix(calendarDays, firstWeekday, monthLayout, Slots);
    assert monthLayout[..Slots] == monthLayout;
  }
}
