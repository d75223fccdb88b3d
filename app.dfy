/**
 * Which workout a date gets. An override for the date's key decides first: a
 * rest override gives no workout, a template override gives the chosen
 * program entry. Without an override, the local month picks a month block and
 * the local weekday picks a training day; a month without a block or a day
 * outside Monday–Thursday gives no workout.
 */
module App {
  import opened Wrappers
  import opened Workouts
  import opened Dates
  import opened ScheduleOverrides

  /**
   * The lookup is defined unless the override it finds is a template without
   * a month key: the source then indexes the program with `undefined` and
   * throws.
   */
  predicate LookupDefined(overrides: seq<ScheduleOverride>, d: DateInfo) {
    var found := FindByDate(overrides, d.isoKey);
    found.Some? && found.value.kind == Template ==> found.value.monthKey.Some?
  }

  /**
   * The lookup without an override: the month's block, if it has one, at the
   * weekday's training day, if it has one.
   */
  function DefaultWorkout(month: Option<MonthKey>, weekday: int): (r: Option<WorkoutDay>)
    ensures r.Some? <==> month.Some? && 1 <= weekday <= 4
    ensures r.Some? ==> r.value == Program(month.value, r.value.dayKey) && DayNumber(r.value.dayKey) == weekday
  {
    match month
    case None => None
    case Some(m) =>
      match WeekdayToDayKey(weekday)
      case None => None
      case Some(day) => Some(Program(m, day))
  }

  /** The workout an override found for the date gives: none for a rest, else its program entry. */
  function OverrideWorkout(o: ScheduleOverride): (r: Option<WorkoutDay>)
    requires o.kind == Template ==> o.monthKey.Some?
    ensures r.Some? <==> o.kind == Template && o.dayKey.Some?
    ensures r.Some? ==> r.value == Program(o.monthKey.value, o.dayKey.value)
  {
    if o.kind == Rest then None
    else if o.dayKey.None? then None
    else Some(Program(o.monthKey.value, o.dayKey.value))
  }

  /**
   * `getWorkoutForDate`, over a given override list, with the month table as
   * written (`MonthIndexToKey`, December's block on index 10).
   */
  function WorkoutForDateIn(overrides: seq<ScheduleOverride>, d: DateInfo): (r: Option<WorkoutDay>)
    requires LookupDefined(overrides, d)
    ensures r.Some? ==> r.value == Program(r.value.month, r.value.dayKey)
  {
    match FindByDate(overrides, d.isoKey)
    case Some(o) => OverrideWorkout(o)
    case None => DefaultWorkout(MonthIndexToKey(d.monthIndex), d.weekday)
  }

  /**
   * The same lookup with the corrected month table (`CalendarMonthKey`,
   * December's block on index 11).
   */
  function CorrectedWorkoutForDateIn(overrides: seq<ScheduleOverride>, d: DateInfo): (r: Option<WorkoutDay>)
    requires LookupDefined(overrides, d)
    ensures r.Some? ==> r.value == Program(r.value.month, r.value.dayKey)
  {
    match FindByDate(overrides, d.isoKey)
    case Some(o) => OverrideWorkout(o)
    case None => DefaultWorkout(CalendarMonthKey(d.monthIndex), d.weekday)
  }

  /** The two lookups differ only in November and December. */
  lemma CorrectionOnlyMovesDecember(overrides: seq<ScheduleOverride>, d: DateInfo)
    requires LookupDefined(overrides, d)
    requires d.monthIndex != 10 && d.monthIndex != 11
    ensures CorrectedWorkoutForDateIn(overrides, d) == WorkoutForDateIn(overrides, d)
  {
    TablesAgreeElsewhere(d.monthIndex);
  }

  /** `getWorkoutForDate` as the application runs it, with the shipped override list. */
  function GetWorkoutForDate(d: DateInfo): (r: Option<WorkoutDay>)
    ensures r.Some? ==> r.value == Program(r.value.month, r.value.dayKey)
  {
    WorkoutForDateIn(ShippedOverrides, d)
  }

  /** Every workout a date gets is well formed: the guided session can run it. */
  lemma LookupIsWellFormed(overrides: seq<ScheduleOverride>, d: DateInfo)
    requires LookupDefined(overrides, d)
    ensures WorkoutForDateIn(overrides, d).Some? ==> WellFormed(WorkoutForDateIn(overrides, d).value)
  {
    var r := WorkoutForDateIn(overrides, d);
    if r.Some? {
      ProgramWellFormed(r.value.month, r.value.dayKey);
    }
  }

  /** A rest override gives no workout, whatever the month and weekday. */
  lemma RestOverrideGivesNoWorkout(overrides: seq<ScheduleOverride>, d: DateInfo)
    requires FindByDate(overrides, d.isoKey).Some?
    requires FindByDate(overrides, d.isoKey).value.kind == Rest
    ensures LookupDefined(overrides, d)
    ensures WorkoutForDateIn(overrides, d) == None
  {
  }

  /** A template override gives the chosen program entry, ahead of the month/weekday mapping. */
  lemma TemplateOverrideWins(overrides: seq<ScheduleOverride>, d: DateInfo, month: MonthKey, day: DayKey)
    requires FindByDate(overrides, d.isoKey) == Some(ScheduleOverride(d.isoKey, Template, Some(month), Some(day)))
    ensures LookupDefined(overrides, d)
    ensures WorkoutForDateIn(overrides, d) == Some(Program(month, day))
  {
  }

  /** Without an override, a month without a block (June to October, and December as written) gives no workout. */
  lemma UnmappedMonthGivesNoWorkout(overrides: seq<ScheduleOverride>, d: DateInfo)
    requires FindByDate(overrides, d.isoKey).None?
    requires 5 <= d.monthIndex <= 9 || d.monthIndex == 11
    ensures LookupDefined(overrides, d)
    ensures WorkoutForDateIn(overrides, d) == None
  {
  }

  /**
   * As written, a Monday to Thursday in December gets no workout, and the
   * same weekday in November gets December's block.
   */
  lemma DecemberDateAsWritten(overrides: seq<ScheduleOverride>, december: DateInfo, november: DateInfo)
    requires FindByDate(overrides, december.isoKey).None? && FindByDate(overrides, november.isoKey).None?
    requires december.monthIndex == 11 && november.monthIndex == 10
    requires 1 <= december.weekday <= 4 && november.weekday == december.weekday
    ensures LookupDefined(overrides, december) && LookupDefined(overrides, november)
    ensures WorkoutForDateIn(overrides, december) == None
    ensures WorkoutForDateIn(overrides, november).Some?
    ensures WorkoutForDateIn(overrides, november).value.month == December
  {
  }

  /**
   * With the corrected table, a Monday to Thursday in December gets
   * December's block, and November gets no workout.
   */
  lemma DecemberDateGetsDecemberBlock(overrides: seq<ScheduleOverride>, d: DateInfo)
    requires FindByDate(overrides, d.isoKey).None?
    requires (d.monthIndex == 11 || d.monthIndex == 10) && 1 <= d.weekday <= 4
    ensures LookupDefined(overrides, d)
    ensures CorrectedWorkoutForDateIn(overrides, d).Some? <==> d.monthIndex == 11
    ensures d.monthIndex == 11 ==> CorrectedWorkoutForDateIn(overrides, d).value.month == December
  {
  }

  /** Without an override, Sunday, Friday and Saturday give no workout. */
  lemma OffDayGivesNoWorkout(overrides: seq<ScheduleOverride>, d: DateInfo)
    requires FindByDate(overrides, d.isoKey).None?
    requires d.weekday == 0 || d.weekday == 5 || d.weekday == 6
    ensures LookupDefined(overrides, d)
    ensures WorkoutForDateIn(overrides, d) == None
  {
  }

  /**
   * Without an override the lookup finds a workout exactly on Monday to
   * Thursday of a month with a block, and then it is that block's entry for
   * that day.
   */
  lemma DefaultMapping(overrides: seq<ScheduleOverride>, d: DateInfo)
    requires FindByDate(overrides, d.isoKey).None?
    ensures LookupDefined(overrides, d)
    ensures WorkoutForDateIn(overrides, d).Some? <==>
      MonthIndexToKey(d.monthIndex).Some? && 1 <= d.weekday <= 4
    ensures WorkoutForDateIn(overrides, d).Some? ==>
      var w := WorkoutForDateIn(overrides, d).value;
      MonthIndexToKey(d.monthIndex) == Some(w.month) &&
      DayNumber(w.dayKey) == d.weekday
  {
  }

  /** A Monday in January, with the shipped overrides, is January's day 1. */
  lemma MondayInJanuary(d: DateInfo)
    requires d.monthIndex == 0 && d.weekday == 1
    ensures GetWorkoutForDate(d).Some?
    ensures GetWorkoutForDate(d).value.id == "jan_day1"
  {
  }
}
