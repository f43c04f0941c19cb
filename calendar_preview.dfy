/**
 * The two-week preview on the profile (src/components/display/CalendarPreview.js):
 * the fourteen days ending today, shown in rows of seven, today circled.
 */
module CalendarPreview {
  import opened Sequences
  import opened CalendarDates
  import CalendarCard

  /** `generateWeeklyCalendarDates(13, 0, referenceDate)` in the mount effect. */
  method PreviewDates(referenceDate: Date) returns (dates: seq<Date>)
    requires ValidDate(referenceDate)
    ensures |dates| == 14 && dates[13] == referenceDate
    ensures forall i :: 0 <= i < 14 ==> dates[i] == Shift(referenceDate, i - 13)
    ensures forall i :: 0 <= i < 13 ==> ValidDate(dates[i]) && dates[i + 1] == Next(dates[i])
  {
    dates := GenerateWeeklyCalendarDates(13, 0, referenceDate);
    ShiftedRunConsecutive(referenceDate, dates, 13);
  }

  /** `WeekLayout`: `dates.slice(i, i + 7)` is pushed for `i = 0, 7, ...` while `i < dates.length`. */
  method WeekLayout(dates: seq<Date>) returns (rows: seq<seq<Date>>)
    ensures rows == Chunks(dates, 7)
  {
    rows := [];
    var i := 0;
    while i < |dates|
      invariant 0 <= i
      invariant rows + Chunks(if i < |dates| then dates[i..] else [], 7) == Chunks(dates, 7)
    {
      var end := if i + 7 <= |dates| then i + 7 else |dates|;
      var row := dates[i..end];
      assert Chunks(dates[i..], 7) == [row] + Chunks(if i + 7 < |dates| then dates[i + 7..] else [], 7) by {
        if i + 7 < |dates| {
          assert dates[i..][..7] == row;
          assert dates[i..][7..] == dates[i + 7..];
        } else {
          assert dates[i..] == row;
        }
      }
      rows := rows + [row];
      i := i + 7;
    }
    assert dates[..] == dates;
  }

  /** The rows read back as the date list, and fourteen dates make exactly two full rows. */
  lemma RowsOfSeven(dates: seq<Date>)
    ensures Flatten(Chunks(dates, 7)) == dates
    ensures |Chunks(dates, 7)| == (|dates| + 6) / 7
    ensures forall k :: 0 <= k < |Chunks(dates, 7)| - 1 ==> |Chunks(dates, 7)[k]| == 7
    ensures |dates| == 14 ==> Chunks(dates, 7) == [dates[..7], dates[7..]]
  {
    ChunksFlatten(dates, 7);
    ChunksSizes(dates, 7);
    if |dates| == 14 {
      assert dates[7..][..7] == dates[7..];
      assert Chunks(dates[7..], 7) == [dates[7..]];
    }
  }

  /** `ImagePreview(date, index)`: the cell is circled iff the date is the reference day. */
  function ImagePreview(date: Date, referenceDate: Date): (c: CalendarCard.Cell)
    ensures c.DayCell? && c.dayOfMonth == date.day
    ensures c.isToday <==> date == referenceDate
  {
    CalendarCard.DayCell(date.day, CalendarCard.IsSameDay(date, referenceDate))
  }

  /** Of the fourteen preview days exactly the last one is circled. */
  lemma OnlyLastDayIsToday(referenceDate: Date, dates: seq<Date>)
    requires ValidDate(referenceDate)
    requires |dates| == 14 && forall i :: 0 <= i < 14 ==> dates[i] == Shift(referenceDate, i - 13)
    ensures forall i :: 0 <= i < 14 ==> (ImagePreview(dates[i], referenceDate).isToday <==> i == 13)
  {
    forall i | 0 <= i < 13 ensures dates[i] != referenceDate {
      ShiftOrder(referenceDate, i - 13);
    }
  }
}
