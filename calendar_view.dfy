/**
 * The month calendar: a grid of cells, first one blank cell for each weekday
 * before the 1st, then one cell per day of the month. A day cell is labelled
 * with the title of the workout the date gets, or "Rest".
 */
module CalendarView {
  import opened Wrappers
  import opened Workouts
  import opened Dates
  import opened ScheduleOverrides
  import opened App

  /**
   * The cell-building loops: `startDay` blanks (None), then the days
   * 1..`daysInMonth` in order (a day cell holds its day of the month).
   */
  method BuildCells(startDay: nat, daysInMonth: nat) returns (cells: seq<Option<nat>>)
    ensures |cells| == startDay + daysInMonth
    ensures forall i :: 0 <= i < startDay ==> cells[i] == None
    ensures forall d :: 1 <= d <= daysInMonth ==> cells[startDay + d - 1] == Some(d)
  {
    cells := [];
    var i := 0;
    while i < startDay
      invariant 0 <= i <= startDay
      invariant |cells| == i
      invariant forall j :: 0 <= j < i ==> cells[j] == None
    {
      cells := cells + [None];
      i := i + 1;
    }
    var d := 1;
    while d <= daysInMonth
      invariant 1 <= d <= daysInMonth + 1
      invariant |cells| == startDay + d - 1
      invariant forall j :: 0 <= j < startDay ==> cells[j] == None
      invariant forall e :: 1 <= e < d ==> cells[startDay + e - 1] == Some(e)
    {
      cells := cells + [Some(d)];
      d := d + 1;
    }
  }

  /**
   * The label under a day: the workout's title, or "Rest" when the date has
   * none. No program workout is titled "Rest", so a cell says "Rest" exactly
   * when its date has no workout.
   */
  function CellLabel(d: DateInfo): (caption: string)
    ensures caption == "Rest" <==> GetWorkoutForDate(d).None?
  {
    match GetWorkoutForDate(d)
    case Some(w) => w.title
    case None => "Rest"
  }

  /** Fridays, Saturdays and Sundays are labelled "Rest" (the shipped list has no overrides). */
  lemma WeekendCellsSayRest(d: DateInfo)
    requires d.weekday == 0 || d.weekday == 5 || d.weekday == 6
    ensures CellLabel(d) == "Rest"
  {
  }
}
