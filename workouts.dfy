/**
 * The workout program: the `Exercise` and `WorkoutDay` records, the constant
 * table of 24 workouts (six month blocks of four training days), and the two
 * tables that map a calendar month and a weekday onto that program.
 */
module Workouts {
  import opened Wrappers

  /** The month blocks of the program (`MonthKey`). */
  datatype MonthKey = December | January | February | March | April | May

  /** The four training days of a week (`DayKey`). */
  datatype DayKey = Day1 | Day2 | Day3 | Day4

  datatype Exercise = Exercise(name: string, workSeconds: int, notes: Option<string>)

  datatype WorkoutDay = WorkoutDay(
    id: string,
    month: MonthKey,
    dayKey: DayKey,
    title: string,
    warmupSeconds: int,
    repeatSets: int,
    defaultRestSeconds: Option<int>,
    exercises: seq<Exercise>)

  /**
   * What the guided session timer relies on: it reads the first exercise on
   * start, needs at least one set, and every work phase has a positive length.
   */
  ghost predicate WellFormed(w: WorkoutDay) {
    && |w.exercises| >= 1
    && w.repeatSets >= 1
    && forall i :: 0 <= i < |w.exercises| ==> w.exercises[i].workSeconds > 0
  }

  /** The program's seconds helper: it hands its argument back unchanged. */
  function S(n: int): (r: int)
    ensures r == n
  {
    n
  }

  /**
   * `MONTH_INDEX_TO_KEY` as written: JavaScript month index (0 = January …
   * 11 = December) to the program's month block, with December's block on
   * index 10; months without a block map to null. `CalendarMonthKey` is the
   * corrected table.
   */
  function MonthIndexToKey(monthIndex: int): (key: Option<MonthKey>)
    ensures key.Some? <==> 0 <= monthIndex <= 4 || monthIndex == 10
    ensures key == Some(December) <==> monthIndex == 10
  {
    match monthIndex
    case 0 => Some(January)
    case 1 => Some(February)
    case 2 => Some(March)
    case 3 => Some(April)
    case 4 => Some(May)
    case 10 => Some(December)
    case _ => None
  }

  /** The calendar month index (0 = January … 11 = December) each block is named after. */
  function CalendarMonthIndex(month: MonthKey): (i: int)
    ensures 0 <= i < 12
  {
    match month
    case January => 0
    case February => 1
    case March => 2
    case April => 3
    case May => 4
    case December => 11
  }

  /**
   * The month table as evidently intended: each block on the month it is
   * named after, so December is index 11 and November (10) has no block.
   */
  function CalendarMonthKey(monthIndex: int): (key: Option<MonthKey>)
    ensures key.Some? <==> 0 <= monthIndex <= 4 || monthIndex == 11
    ensures key.Some? ==> CalendarMonthIndex(key.value) == monthIndex
  {
    match monthIndex
    case 0 => Some(January)
    case 1 => Some(February)
    case 2 => Some(March)
    case 3 => Some(April)
    case 4 => Some(May)
    case 11 => Some(December)
    case _ => None
  }

  /** Every block is found again from the index of the month it is named after. */
  lemma CalendarMonthRoundTrip(month: MonthKey)
    ensures CalendarMonthKey(CalendarMonthIndex(month)) == Some(month)
  {
  }

  /**
   * The table as written is one month off for December: index 11, December
   * itself, has no block, and index 10, November, gets December's.
   */
  lemma DecemberOffByOne()
    ensures MonthIndexToKey(CalendarMonthIndex(December)) == None
    ensures MonthIndexToKey(10) == Some(December)
    ensures MonthIndexToKey(10) != CalendarMonthKey(10)
  {
  }

  /** The two tables agree on every month index except November's and December's. */
  lemma TablesAgreeElsewhere(monthIndex: int)
    requires monthIndex != 10 && monthIndex != 11
    ensures CalendarMonthKey(monthIndex) == MonthIndexToKey(monthIndex)
  {
  }

  /** Weekday (0 = Sunday … 6 = Saturday) to the training day; only Monday to Thursday have one. */
  function WeekdayToDayKey(weekday: int): (key: Option<DayKey>)
    ensures key.Some? <==> 1 <= weekday <= 4
    ensures key.Some? ==> DayNumber(key.value) == weekday
  {
    match weekday
    case 1 => Some(Day1)
    case 2 => Some(Day2)
    case 3 => Some(Day3)
    case 4 => Some(Day4)
    case _ => None
  }

  /**
   * What holds of every entry of the program table: it is filed under its own
   * month and day, it has exercises, sets and positive work lengths, and its
   * title is not the calendar's "Rest".
   */
  predicate ProgramEntry(w: WorkoutDay, month: MonthKey, day: DayKey) {
    && w.month == month && w.dayKey == day
    && |w.exercises| >= 1 && w.repeatSets >= 1
    && AllWorkPositive(w.exercises)
    && w.title != "Rest"
  }

  /** `WORKOUT_PROGRAM[month][day]`. */
  function Program(month: MonthKey, day: DayKey): (w: WorkoutDay)
    ensures ProgramEntry(w, month, day)
  {
    match month
    case December => DecemberBlock(day)
    case January => JanuaryBlock(day)
    case February => FebruaryBlock(day)
    case March => MarchBlock(day)
    case April => AprilBlock(day)
    case May => MayBlock(day)
  }

  /** `WORKOUT_PROGRAM.december`. */
  function DecemberBlock(day: DayKey): (w: WorkoutDay)
    ensures ProgramEntry(w, December, day)
  {
    match day
    case Day1 => DecemberDay1()
    case Day2 => DecemberDay2()
    case Day3 => DecemberDay3()
    case Day4 => DecemberDay4()
  }

  function DecemberDay1(): (w: WorkoutDay)
    ensures ProgramEntry(w, December, Day1)
  {
    WorkoutDay(
      "dec_day1", December, Day1, "Lower Body Foundation",
      120, 2, Some(20),
      [
        Exercise("Squats", S(40), None),
        Exercise("Glute Bridges", S(40), None),
        Exercise("Reverse Lunges", S(40), None),
        Exercise("Calf Raises", S(40), None),
        Exercise("Wall Sit", S(40), None)
      ])
  }

  function DecemberDay2(): (w: WorkoutDay)
    ensures ProgramEntry(w, December, Day2)
  {
    WorkoutDay(
      "dec_day2", December, Day2, "Core & Stability",
      120, 2, Some(20),
      [
        Exercise("Dead Bug", S(40), None),
        Exercise("Side Plank (Right)", S(30), None),
        Exercise("Side Plank (Left)", S(30), None),
        Exercise("Bird Dog", S(40), None),
        Exercise("Plank Shoulder Taps", S(40), None)
      ])
  }

  function DecemberDay3(): (w: WorkoutDay)
    ensures ProgramEntry(w, December, Day3)
  {
    WorkoutDay(
      "dec_day3", December, Day3, "Speed & Agility (Intro)",
      120, 3, Some(30),
      [
        Exercise("Fast Feet in Place", S(30), None),
        Exercise("Lateral Shuffles", S(30), None),
        Exercise("Skater Hops", S(30), None),
        Exercise("High Knees", S(30), None),
        Exercise("Jump Rope (Imaginary)", S(30), None)
      ])
  }

  function DecemberDay4(): (w: WorkoutDay)
    ensures ProgramEntry(w, December, Day4)
  {
    WorkoutDay(
      "dec_day4", December, Day4, "Full Body Strength",
      120, 2, Some(20),
      [
        Exercise("Push-Ups", S(40), None),
        Exercise("Squat to Calf Raise", S(40), None),
        Exercise("Superman Hold", S(40), None),
        Exercise("Hip Hinge (Good-Morning)", S(40), None),
        Exercise("Plank", S(40), None)
      ])
  }

  /** `WORKOUT_PROGRAM.january`. */
  function JanuaryBlock(day: DayKey): (w: WorkoutDay)
    ensures ProgramEntry(w, January, day)
  {
    match day
    case Day1 => JanuaryDay1()
    case Day2 => JanuaryDay2()
    case Day3 => JanuaryDay3()
    case Day4 => JanuaryDay4()
  }

  function JanuaryDay1(): (w: WorkoutDay)
    ensures ProgramEntry(w, January, Day1)
  {
    WorkoutDay(
      "jan_day1", January, Day1, "Vertical Strength",
      120, 2, Some(20),
      [
        Exercise("Squat Pulses", S(30), None),
        Exercise("Split Squats (Right)", S(30), None),
        Exercise("Split Squats (Left)", S(30), None),
        Exercise("Glute Bridge March", S(40), None),
        Exercise("Calf Raises (Slow)", S(40), None)
      ])
  }

  function JanuaryDay2(): (w: WorkoutDay)
    ensures ProgramEntry(w, January, Day2)
  {
    WorkoutDay(
      "jan_day2", January, Day2, "Core Strength",
      120, 2, Some(20),
      [
        Exercise("Plank", S(45), None),
        Exercise("Hollow Hold", S(25), None),
        Exercise("Russian Twists", S(40), None),
        Exercise("Side Plank Hip Lifts (Right)", S(30), None),
        Exercise("Side Plank Hip Lifts (Left)", S(30), None)
      ])
  }

  function JanuaryDay3(): (w: WorkoutDay)
    ensures ProgramEntry(w, January, Day3)
  {
    WorkoutDay(
      "jan_day3", January, Day3, "Agility & Quickness",
      120, 3, Some(30),
      [
        Exercise("Quick Toe Taps", S(30), None),
        Exercise("Lateral Line Hops", S(30), None),
        Exercise("Forward/Back Line Hops", S(30), None),
        Exercise("Skater Bounds", S(30), None)
      ])
  }

  function JanuaryDay4(): (w: WorkoutDay)
    ensures ProgramEntry(w, January, Day4)
  {
    WorkoutDay(
      "jan_day4", January, Day4, "Full Body Strength",
      120, 2, Some(20),
      [
        Exercise("Push-Ups", S(40), None),
        Exercise("Squat → Knee Drive", S(40), None),
        Exercise("Reverse Snow Angels", S(40), None),
        Exercise("Single-Leg RDL (Right, no weight)", S(30), None),
        Exercise("Single-Leg RDL (Left, no weight)", S(30), None),
        Exercise("Mountain Climbers", S(40), None)
      ])
  }

  /** `WORKOUT_PROGRAM.february`. */
  function FebruaryBlock(day: DayKey): (w: WorkoutDay)
    ensures ProgramEntry(w, February, day)
  {
    match day
    case Day1 => FebruaryDay1()
    case Day2 => FebruaryDay2()
    case Day3 => FebruaryDay3()
    case Day4 => FebruaryDay4()
  }

  function FebruaryDay1(): (w: WorkoutDay)
    ensures ProgramEntry(w, February, Day1)
  {
    WorkoutDay(
      "feb_day1", February, Day1, "Jump Technique",
      120, 3, Some(30),
      [
        Exercise("Squat Jumps", S(20), None),
        Exercise("Step-Back Lunge (No Jump)", S(30), None),
        Exercise("Calf Pop Jumps", S(20), None),
        Exercise("Broad Jump (Soft Landing)", S(20), None),
        Exercise("Wall Sit", S(40), None)
      ])
  }

  function FebruaryDay2(): (w: WorkoutDay)
    ensures ProgramEntry(w, February, Day2)
  {
    WorkoutDay(
      "feb_day2", February, Day2, "Core & Rotation",
      120, 2, Some(20),
      [
        Exercise("Plank Walkout", S(30), None),
        Exercise("Bicycle Crunch", S(40), None),
        Exercise("Side Plank Reach-Through (Right)", S(30), None),
        Exercise("Side Plank Reach-Through (Left)", S(30), None),
        Exercise("Dead Bug", S(40), None)
      ])
  }

  function FebruaryDay3(): (w: WorkoutDay)
    ensures ProgramEntry(w, February, Day3)
  {
    WorkoutDay(
      "feb_day3", February, Day3, "Speed & Explosive Footwork",
      120, 3, Some(30),
      [
        Exercise("Fast Feet → Drop", S(30), None),
        Exercise("Lateral Shuffle → 2-Step Sprint (In Place)", S(30), None),
        Exercise("Tuck Jumps (Low Height)", S(15), None),
        Exercise("High Knees", S(30), None)
      ])
  }

  function FebruaryDay4(): (w: WorkoutDay)
    ensures ProgramEntry(w, February, Day4)
  {
    WorkoutDay(
      "feb_day4", February, Day4, "Strength & Balance",
      120, 2, Some(20),
      [
        Exercise("Push-Ups to Shoulder Tap", S(30), None),
        Exercise("Single-Leg Squat to Chair (Left)", S(30), None),
        Exercise("Single-Leg Squat to Chair (Right)", S(30), None),
        Exercise("Superman Holds", S(40), None),
        Exercise("Side Plank", S(40), None)
      ])
  }

  /** `WORKOUT_PROGRAM.march`. */
  function MarchBlock(day: DayKey): (w: WorkoutDay)
    ensures ProgramEntry(w, March, day)
  {
    match day
    case Day1 => MarchDay1()
    case Day2 => MarchDay2()
    case Day3 => MarchDay3()
    case Day4 => MarchDay4()
  }

  function MarchDay1(): (w: WorkoutDay)
    ensures ProgramEntry(w, March, Day1)
  {
    WorkoutDay(
      "mar_day1", March, Day1, "Vertical Power",
      120, 3, Some(30),
      [
        Exercise("Jump Squats", S(25), None),
        Exercise("Lunge Jumps (Alternating)", S(20), None),
        Exercise("Calf Jumps", S(20), None),
        Exercise("Broad Jump + Backpedal", S(25), None)
      ])
  }

  function MarchDay2(): (w: WorkoutDay)
    ensures ProgramEntry(w, March, Day2)
  {
    WorkoutDay(
      "mar_day2", March, Day2, "Core + Strength",
      120, 2, Some(20),
      [
        Exercise("Plank with Knee Drives", S(40), None),
        Exercise("V-Ups", S(30), None),
        Exercise("Side Plank Pulses (Right)", S(30), None),
        Exercise("Side Plank Pulses (Left)", S(30), None),
        Exercise("Bird Dog Hold", S(40), None)
      ])
  }

  function MarchDay3(): (w: WorkoutDay)
    ensures ProgramEntry(w, March, Day3)
  {
    WorkoutDay(
      "mar_day3", March, Day3, "Agility + Footwork Patterns",
      120, 3, Some(30),
      [
        Exercise("5-5-5 Shuffle (R-L-R)", S(30), None),
        Exercise("Diagonal Bounds", S(30), None),
        Exercise("Quick Feet Box Pattern", S(30), None),
        Exercise("High Knees into Sprint on Spot", S(30), None)
      ])
  }

  function MarchDay4(): (w: WorkoutDay)
    ensures ProgramEntry(w, March, Day4)
  {
    WorkoutDay(
      "mar_day4", March, Day4, "Full Body Strength",
      120, 2, Some(20),
      [
        Exercise("Push-Ups", S(40), None),
        Exercise("Sumo Squats", S(40), None),
        Exercise("Superman Snow Angels", S(40), None),
        Exercise("Plank", S(45), None)
      ])
  }

  /** `WORKOUT_PROGRAM.april`. */
  function AprilBlock(day: DayKey): (w: WorkoutDay)
    ensures ProgramEntry(w, April, day)
  {
    match day
    case Day1 => AprilDay1()
    case Day2 => AprilDay2()
    case Day3 => AprilDay3()
    case Day4 => AprilDay4()
  }

  function AprilDay1(): (w: WorkoutDay)
    ensures ProgramEntry(w, April, Day1)
  {
    WorkoutDay(
      "apr_day1", April, Day1, "Advanced Jump Work",
      120, 3, Some(30),
      [
        Exercise("Box Jumps / Vertical Touches", S(20), None),
        Exercise("Alternating Lunge Jumps", S(20), None),
        Exercise("Triple Broad Jump → Jog Back", S(25), None),
        Exercise("Calf Raise Holds", S(30), None)
      ])
  }

  function AprilDay2(): (w: WorkoutDay)
    ensures ProgramEntry(w, April, Day2)
  {
    WorkoutDay(
      "apr_day2", April, Day2, "Core & Abs Endurance",
      120, 2, Some(20),
      [
        Exercise("Plank", S(60), None),
        Exercise("Flutter Kicks", S(40), None),
        Exercise("Hollow Rock", S(20), None),
        Exercise("Side Plank with Reach (Right)", S(30), None),
        Exercise("Side Plank with Reach (Left)", S(30), None)
      ])
  }

  function AprilDay3(): (w: WorkoutDay)
    ensures ProgramEntry(w, April, Day3)
  {
    WorkoutDay(
      "apr_day3", April, Day3, "Game-Speed Agility",
      120, 3, Some(30),
      [
        Exercise("Shuffle → Drop → Sprint (In Place)", S(30), None),
        Exercise("Skaters", S(30), None),
        Exercise("Lateral Line Hops", S(30), None),
        Exercise("Two-Foot to One-Foot Landings", S(30), None)
      ])
  }

  function AprilDay4(): (w: WorkoutDay)
    ensures ProgramEntry(w, April, Day4)
  {
    WorkoutDay(
      "apr_day4", April, Day4, "Strength & Mobility",
      120, 2, Some(20),
      [
        Exercise("Slow Controlled Squats", S(40), None),
        Exercise("Push-Ups", S(40), None),
        Exercise("Single-Leg RDL (Right)", S(30), None),
        Exercise("Single-Leg RDL (Left)", S(30), None),
        Exercise("Hip Mobility Flow", S(60), None)
      ])
  }

  /** `WORKOUT_PROGRAM.may`. */
  function MayBlock(day: DayKey): (w: WorkoutDay)
    ensures ProgramEntry(w, May, day)
  {
    match day
    case Day1 => MayDay1()
    case Day2 => MayDay2()
    case Day3 => MayDay3()
    case Day4 => MayDay4()
  }

  function MayDay1(): (w: WorkoutDay)
    ensures ProgramEntry(w, May, Day1)
  {
    WorkoutDay(
      "may_day1", May, Day1, "Light Jumps + Form",
      120, 3, Some(30),
      [
        Exercise("Mini Jumps (Small Height)", S(20), None),
        Exercise("Step-Up Knee Drives (Stairs)", S(30), None),
        Exercise("Slow Squat Holds", S(30), None),
        Exercise("Calf Raises", S(30), None)
      ])
  }

  function MayDay2(): (w: WorkoutDay)
    ensures ProgramEntry(w, May, Day2)
  {
    WorkoutDay(
      "may_day2", May, Day2, "Core + Stability",
      120, 2, Some(20),
      [
        Exercise("Dead Bug", S(40), None),
        Exercise("Side Plank", S(40), None),
        Exercise("Bird Dog", S(40), None),
        Exercise("Slow Mountain Climbers", S(40), None)
      ])
  }

  function MayDay3(): (w: WorkoutDay)
    ensures ProgramEntry(w, May, Day3)
  {
    WorkoutDay(
      "may_day3", May, Day3, "Light Agility / Footwork",
      120, 3, Some(30),
      [
        Exercise("Quick Feet", S(30), None),
        Exercise("Lateral Shuffles", S(30), None),
        Exercise("Skater Steps (No Jump)", S(30), None),
        Exercise("Jog in Place", S(30), None)
      ])
  }

  function MayDay4(): (w: WorkoutDay)
    ensures ProgramEntry(w, May, Day4)
  {
    WorkoutDay(
      "may_day4", May, Day4, "Full Body (Easy)",
      120, 2, Some(20),
      [
        Exercise("Push-Ups (Easy or Knee)", S(30), None),
        Exercise("Bodyweight Squats", S(40), None),
        Exercise("Superman", S(40), None),
        Exercise("Plank", S(40), None)
      ])
  }

  /** The month table is one-to-one: distinct month indices never share a block. */
  lemma MonthTableInjective(i: int, j: int)
    requires MonthIndexToKey(i).Some? && MonthIndexToKey(i) == MonthIndexToKey(j)
    ensures i == j
  {
  }

  /** The day's position in the week, 1 for `day1` … 4 for `day4`. */
  function DayNumber(d: DayKey): (n: int)
    ensures 1 <= n <= 4
  {
    match d
    case Day1 => 1
    case Day2 => 2
    case Day3 => 3
    case Day4 => 4
  }

  /** A check that walks the exercise list: every work phase is positive. */
  predicate AllWorkPositive(exercises: seq<Exercise>) {
    |exercises| == 0 || (exercises[0].workSeconds > 0 && AllWorkPositive(exercises[1..]))
  }

  /** The walking check agrees with the quantified statement in `WellFormed`. */
  lemma {:induction false} AllWorkPositiveMeans(exercises: seq<Exercise>)
    ensures AllWorkPositive(exercises) <==> forall i :: 0 <= i < |exercises| ==> exercises[i].workSeconds > 0
  {
    if |exercises| > 0 {
      AllWorkPositiveMeans(exercises[1..]);
      assert forall i :: 1 <= i < |exercises| ==> exercises[i] == exercises[1..][i - 1];
    }
  }

  /** Every program entry satisfies the guided timer's precondition. */
  lemma ProgramWellFormed(month: MonthKey, day: DayKey)
    ensures WellFormed(Program(month, day))
  {
    AllWorkPositiveMeans(Program(month, day).exercises);
  }
}
