# Empire VC workout hub — a verified model

The workout hub is a small web application for a training group. It holds a six-month
program of 24 workouts (a December-to-May block of four training days a week). It
decides which workout a calendar date gets: a coach's override first, then the month
and weekday. Its centrepiece is a **guided session**: after a 3-2-1 pre-start
countdown, it walks through every exercise of a workout, set after set. Each exercise
gets a work phase of its own length, then a fixed 20-second rest, until the last
exercise of the last set completes the session. Around it sit:

- a coach dashboard that edits the override list behind a PIN;
- a workout card that estimates the session's length;
- a plain countdown timer with beeps and an alarm;
- a month calendar.

This project restates that behaviour in Dafny and proves properties of it.

| file | module | models |
|---|---|---|
| `guided_workout_timer.dfy` | `GuidedWorkoutTimer` | the guided session state machine: the `Session` class, the pure `After…` step functions that specify its methods, the session invariant, progress and whole-session lemmas |
| `coach_speech.dfy` | `CoachSpeech` | the coach's phrase lists, the `{x}` substitution and the punctuation padding before speech |
| `workouts.dfy` | `Workouts` | the `Exercise`/`WorkoutDay` records, the 24-entry program table, and the month and weekday tables |
| `schedule_overrides.dfy` | `ScheduleOverrides` | the override record, the shipped (empty) list and the first-match lookup |
| `app.dfy` | `App` | `getWorkoutForDate`: override precedence, then the month and weekday mapping |
| `coach_dashboard.dfy` | `CoachDashboard` | the PIN gate, add (upsert by date), remove by date, and the sort by date |
| `workout_detail.dfy` | `WorkoutDetail` | the time estimate and its `<m>m <ss>s` formatting |
| `timer.dfy` | `CountdownTimer` | the standalone countdown: tick, start/pause, reset, beep and alarm cues, `mm:ss` display |
| `calendar_view.dfy` | `CalendarView` | the cell-building loops and the label under each day |
| `text.dfy` | `Text` | JavaScript's number printing, `%`, `Math.floor(x / 60)` and `padStart` |
| `dates.dfy` | `Dates` | a date reduced to its UTC key, local month and local weekday |
| `wrappers.dfy` | `Wrappers` | `Option`, for `null` and `undefined` |

The session is a class whose fields are the component's state. Each method (tick,
start, the four pre-start steps, pause, exit, hiding the countdown) ensures that the
new field values are a pure function of the old ones, e.g.
`State() == AfterStart(workout, old(State()))`. It also ensures that the invariant
`Inv` is kept. The properties are lemmas about those functions. For example:

- a work phase runs out into a rest or into completion;
- the progress bar never reaches 100%;
- a session left running from the start of any running work phase completes after
  exactly `TicksToFinish` ticks, and not one tick earlier.

Some behaviours look unintended; the model follows the code as written:

- the rest between exercises is always 20 seconds, and the workout's `defaultRestSeconds`
  is ignored;
- there is no pre-start phase: the pre-start is a flag while the phase is idle;
- exit does not cancel the pending pre-start steps, so a late "go" step restarts the
  session;
- pause toggles the clock in every phase, including idle and complete.

One behaviour is evidently a bug (see "Findings"): the month table files December's
block under month index 10, which is November. The date lookup follows the table as
written; a corrected lookup with December on index 11 stands beside it, and the two
are proved to differ only in November and December.

## Model

| member | source | states |
|---|---|---|
| GuidedWorkoutTimer.Session.constructor | src/components/GuidedWorkoutTimer.tsx:131-152 | a new session is idle, stopped, on set 0 and exercise 0, with clock 0 of 1, no pre-start and no countdown, and satisfies the invariant |
| GuidedWorkoutTimer.InitialInv | src/components/GuidedWorkoutTimer.tsx:131-152 | the initial state satisfies the session invariant for every well-formed workout |
| GuidedWorkoutTimer.Session.Tick | src/components/GuidedWorkoutTimer.tsx:206-322 | one second of the session is the tick step: a decrement floored at zero, guarded by running, work or rest and time left, then the transitions effect, run a second time when its first run changes a field it depends on; it returns the cues of both runs and keeps the invariant |
| GuidedWorkoutTimer.Session.Settle | src/components/GuidedWorkoutTimer.tsx:221-310 | one run of the transitions effect on the fields equals `Transition` on the old state, including the cue it emits |
| GuidedWorkoutTimer.Session.RunEffect | src/components/GuidedWorkoutTimer.tsx:221-322 | the effect after an update equals `Effect` on the old state: one run, and a second one when the first changes a field in the dependency list, with the cues of both |
| GuidedWorkoutTimer.Transition | src/components/GuidedWorkoutTimer.tsx:221-310 | a silent run changes nothing, and a run changes the phase only when the clock is running at zero |
| GuidedWorkoutTimer.AfterTick | src/components/GuidedWorkoutTimer.tsx:206-322 | a tick the guard stops changes nothing and is silent; any tick emits at most two cues |
| GuidedWorkoutTimer.EffectInv | src/components/GuidedWorkoutTimer.tsx:221-322 | the effect, with its second run, leaves a state that satisfies the invariant |
| GuidedWorkoutTimer.EffectSettles | src/components/GuidedWorkoutTimer.tsx:311-322 | when the first run changes a watched field, its state satisfies the invariant and a further run changes no watched field, so the effect stops after two runs |
| GuidedWorkoutTimer.TickInv | src/components/GuidedWorkoutTimer.tsx:206-322 | a tick keeps indices in range, `0 <= remaining <= phaseTotal`, time left in work and rest, and completion only on the last exercise of the last set |
| GuidedWorkoutTimer.TransitionInv | src/components/GuidedWorkoutTimer.tsx:221-310 | the transitions effect restores the invariant even when work or rest has reached zero |
| GuidedWorkoutTimer.TickIgnoredWhenStopped | src/components/GuidedWorkoutTimer.tsx:206-209 | when stopped, idle, complete or at zero, a tick changes nothing and is silent |
| GuidedWorkoutTimer.TickCountsDown | src/components/GuidedWorkoutTimer.tsx:210-235 | a tick above one second takes exactly one second off and changes nothing else except the near-end countdown; at 3, 2, 1 outside the pre-start it shows the new value and emits its near-end cue, else it is silent |
| GuidedWorkoutTimer.CompleteIsTerminal | src/components/GuidedWorkoutTimer.tsx:208 | a completed session is unchanged by every tick |
| GuidedWorkoutTimer.WorkEndsSession | src/components/GuidedWorkoutTimer.tsx:238-259 | the last second of the last exercise of the last set gives phase complete, clock stopped, indices untouched, and the completion cue |
| GuidedWorkoutTimer.WorkEndsInRest | src/components/GuidedWorkoutTimer.tsx:261-277 | the last second of any other work phase gives a 20-second rest on the same set and index; it announces the next exercise by name, or only a rest phrase after a set's last exercise, and its cue carries the upcoming exercise |
| GuidedWorkoutTimer.RestEndsInWork | src/components/GuidedWorkoutTimer.tsx:281-322 | the last second of a rest moves to the next index, or to index 0 of the next set after the last exercise, and starts its full work phase below `repeatSets`; the effect's second run shows the countdown at once, with its cue, when that work phase lasts three seconds or less |
| GuidedWorkoutTimer.Session.Start | src/components/GuidedWorkoutTimer.tsx:327-338 | start is the start step and keeps the invariant |
| GuidedWorkoutTimer.AfterStart | src/components/GuidedWorkoutTimer.tsx:327-338 | start leaves the session idle, stopped and in the pre-start, with indices in range and a full clock of positive length |
| GuidedWorkoutTimer.StartInv | src/components/GuidedWorkoutTimer.tsx:327-338 | start keeps the session invariant |
| GuidedWorkoutTimer.StartResets | src/components/GuidedWorkoutTimer.tsx:327-338 | start gives set 0, index 0, idle, stopped, pre-start on, and `remaining = phaseTotal =` the first exercise's length; it leaves the countdown as it was |
| GuidedWorkoutTimer.Session.PreStartStep | src/components/GuidedWorkoutTimer.tsx:354-382 | the k-th pre-start timeout is the pre-start step and keeps the invariant |
| GuidedWorkoutTimer.AfterPreStartStep | src/components/GuidedWorkoutTimer.tsx:354-382 | steps 1 to 3 only show 3, 2, 1; step 4 leaves the pre-start and starts a phase other than idle |
| GuidedWorkoutTimer.PreStartStepInv | src/components/GuidedWorkoutTimer.tsx:354-382 | each pre-start step keeps the session invariant |
| GuidedWorkoutTimer.PreStartSequence | src/components/GuidedWorkoutTimer.tsx:327-382 | after start, the steps show 3, 2, 1 while idle and stopped; the fourth step starts work, running, out of the pre-start, on the first exercise with its full length, showing the countdown at once only when that lasts three seconds or less |
| GuidedWorkoutTimer.Session.Pause | src/components/GuidedWorkoutTimer.tsx:388 | pause is the pause step and keeps the invariant |
| GuidedWorkoutTimer.AfterPause | src/components/GuidedWorkoutTimer.tsx:388 | pause flips `running`, the effect's runs notwithstanding |
| GuidedWorkoutTimer.PauseInv | src/components/GuidedWorkoutTimer.tsx:388 | pause keeps the session invariant |
| GuidedWorkoutTimer.PauseTogglesOnlyRunning | src/components/GuidedWorkoutTimer.tsx:388 | pause flips `running` and keeps phase, indices, clock and pre-start; two pauses restore the state, except that a resume at 3, 2 or 1 outside the pre-start shows that number |
| GuidedWorkoutTimer.Session.Exit | src/components/GuidedWorkoutTimer.tsx:390-395 | exit is the exit step and keeps the invariant |
| GuidedWorkoutTimer.AfterExit | src/components/GuidedWorkoutTimer.tsx:390-395 | exit stops the clock, leaves the pre-start and hides the countdown |
| GuidedWorkoutTimer.ExitKeepsPosition | src/components/GuidedWorkoutTimer.tsx:390-395 | exit stops the clock, leaves the pre-start and hides the countdown; phase, indices, clock and phase total are unchanged |
| GuidedWorkoutTimer.StaleGoAfterExitResumes | src/components/GuidedWorkoutTimer.tsx:373-382 | a fourth pre-start step after an exit in the pre-start still starts work and the clock |
| GuidedWorkoutTimer.Session.HideCountdown | src/components/GuidedWorkoutTimer.tsx:232 | the 800 ms timeout clears only the countdown and keeps the invariant |
| GuidedWorkoutTimer.AfterHideCountdown | src/components/GuidedWorkoutTimer.tsx:232 | the timeout hides the countdown |
| GuidedWorkoutTimer.ProgressBounds | src/components/GuidedWorkoutTimer.tsx:408-410 | the progress numerator stays in `[0, repeatSets*len)` and equals `repeatSets*len - 1` at completion, so the bar never shows 100% |
| GuidedWorkoutTimer.TickProgress | src/components/GuidedWorkoutTimer.tsx:287-297 | a tick raises the progress numerator by exactly one when it ends a rest and leaves it unchanged otherwise |
| GuidedWorkoutTimer.Run | src/components/GuidedWorkoutTimer.tsx:206-216 | any number of ticks keeps the session invariant |
| GuidedWorkoutTimer.RunWithinPhase | src/components/GuidedWorkoutTimer.tsx:206-235 | fewer ticks than the clock shows stay in the phase: only the clock, down by the tick count, and the countdown change |
| GuidedWorkoutTimer.WorkThenRest | src/components/GuidedWorkoutTimer.tsx:238-310 | from the start of a running work phase that does not end the session, its length plus 20 ticks reach the start of the next work phase: the next index on the same set, or index 0 of the next set |
| GuidedWorkoutTimer.RunToCompletion | src/components/GuidedWorkoutTimer.tsx:206-322 | from the start of any running work phase, `TicksToFinish` ticks (every remaining work phase plus 20 seconds between consecutive ones) complete the session, stopped, on the last exercise of the last set |
| GuidedWorkoutTimer.TicksToFinish | src/components/GuidedWorkoutTimer.tsx:238-310 | the ticks to the end are at least the current exercise's work length |
| GuidedWorkoutTimer.LastTickInWork | src/components/GuidedWorkoutTimer.tsx:206-322 | one tick short of `TicksToFinish`, the session is still in a work phase |
| GuidedWorkoutTimer.CompleteStays | src/components/GuidedWorkoutTimer.tsx:208 | a completed session stays unchanged through any number of ticks |
| GuidedWorkoutTimer.CompletesNoEarlier | src/components/GuidedWorkoutTimer.tsx:206-322 | fewer than `TicksToFinish` ticks never complete the session, so with `RunToCompletion` it completes after exactly that many |
| GuidedWorkoutTimer.SingleExerciseSession | src/components/GuidedWorkoutTimer.tsx:327-382 | a one-set, one-exercise, five-second workout completes five ticks after start and the four pre-start steps, with no rest |
| CoachSpeech.PhraseList | src/components/GuidedWorkoutTimer.tsx:24-59 | exactly the five keys go, next, rest, complete and prestart have variation lists, each of at least four phrases |
| CoachSpeech.SayPhrase | src/components/GuidedWorkoutTimer.tsx:93-108 | nothing is said exactly when voice is off |
| CoachSpeech.ReplaceFirst | src/components/GuidedWorkoutTimer.tsx:104 | the text keeps its length, or changes by the replacement's length less the pattern's when an occurrence is replaced; a text shorter than the pattern is unchanged |
| CoachSpeech.ReplaceFirstAbsent | src/components/GuidedWorkoutTimer.tsx:104 | replacing a placeholder that does not occur leaves the text unchanged |
| CoachSpeech.ReplaceFirstAtFirstOccurrence | src/components/GuidedWorkoutTimer.tsx:104 | only the first occurrence is replaced: the text before it and after it is kept |
| CoachSpeech.PlainTextIsSpokenAsGiven | src/components/GuidedWorkoutTimer.tsx:96-105 | text that is not a phrase key and has no placeholder is spoken as given, with or without an argument |
| CoachSpeech.NextNamesTheExercise | src/components/GuidedWorkoutTimer.tsx:93-108 | "next" with an exercise name speaks the chosen variation with the name in place of `{x}` |
| CoachSpeech.UtteranceIsSinglePass | src/components/GuidedWorkoutTimer.tsx:84 | the two global replacements (comma, then full stop) equal one pass that adds a space after each comma and each full stop |
| CoachSpeech.Utterance | src/components/GuidedWorkoutTimer.tsx:84 | padding the punctuation never shortens the text |
| CoachSpeech.UtteranceRoundTrip | src/components/GuidedWorkoutTimer.tsx:84 | dropping the added spaces gives back the phrase |
| Workouts.S | src/data/workouts.ts:23 | the seconds helper returns its argument |
| Workouts.MonthIndexToKey | src/data/workouts.ts:448-461 | as written: a month index has a block exactly for 0–4 and 10, and December's block exactly for 10 |
| Workouts.DecemberOffByOne | src/data/workouts.ts:459-460 | as written, December's own index has no block and November's index gets December's |
| Workouts.CalendarMonthKey | src/data/workouts.ts:448-461 | corrected: exactly 0–4 and 11 have a block, each on the index of the month it is named after |
| Workouts.CalendarMonthIndex | src/data/workouts.ts:1 | each month block is named after a calendar month, index 0–11 |
| Workouts.CalendarMonthRoundTrip | src/data/workouts.ts:448-461 | corrected: every block is found again from the index of its month |
| Workouts.TablesAgreeElsewhere | src/data/workouts.ts:448-461 | the corrected table agrees with the table as written except on indices 10 and 11 |
| Workouts.MonthTableInjective | src/data/workouts.ts:448-461 | no two month indices share a block |
| Workouts.WeekdayToDayKey | src/data/workouts.ts:463-469 | exactly weekdays 1–4 have a training day, and its number is the weekday |
| Workouts.DayNumber | src/data/workouts.ts:2 | every training day is numbered 1 to 4 |
| Workouts.Program | src/data/workouts.ts:25-445 | every program entry is filed under its own `month` and `dayKey`, has at least one exercise and one set, only positive work lengths, and a title other than "Rest" |
| Workouts.DecemberBlock | src/data/workouts.ts:26-96 | each December entry is filed under December and its own day, with exercises, sets, positive work lengths and a title other than "Rest" |
| Workouts.JanuaryBlock | src/data/workouts.ts:98-169 | the same for each January entry |
| Workouts.FebruaryBlock | src/data/workouts.ts:171-239 | the same for each February entry |
| Workouts.MarchBlock | src/data/workouts.ts:241-308 | the same for each March entry |
| Workouts.AprilBlock | src/data/workouts.ts:310-377 | the same for each April entry |
| Workouts.MayBlock | src/data/workouts.ts:379-444 | the same for each May entry |
| Workouts.ProgramWellFormed | src/data/workouts.ts:25-445 | every program entry has at least one exercise, at least one set and only positive work lengths, which is what the guided session needs |
| ScheduleOverrides.FindByDate | src/data/scheduleOverrides.ts:18 | returns null exactly when no override has the date; otherwise it returns an override with that date that stands in the list before every other override with that date |
| ScheduleOverrides.FindOverrideForDate | src/data/scheduleOverrides.ts:16-19 | a found override's date is the date's key, ten characters for a real date |
| ScheduleOverrides.ShippedListHasNoOverride | src/data/scheduleOverrides.ts:13 | with the shipped empty list no date has an override |
| ScheduleOverrides.FindByDateIgnoresLaterEntries | src/data/scheduleOverrides.ts:18 | appending overrides after a match does not change the answer |
| App.DefaultWorkout | src/App.tsx:108-115 | without an override a workout exists exactly for a month with a block on weekdays 1–4, and it is that block's entry for the training day numbered by the weekday |
| App.OverrideWorkout | src/App.tsx:100-105 | an override gives a workout exactly when it is a template with a day key, and then it is the program entry for its month and day |
| App.WorkoutForDateIn | src/App.tsx:99-116 | with the month table as written, every workout a date gets is the program entry filed under that workout's own month and day key |
| App.GetWorkoutForDate | src/App.tsx:99-116 | with the shipped overrides and the month table as written, every workout a date gets is the program entry for its own month and day key |
| App.CorrectedWorkoutForDateIn | src/App.tsx:99-116 | corrected: the same lookup with December's block on index 11; every workout it gives is the program entry for its own month and day key |
| App.CorrectionOnlyMovesDecember | src/App.tsx:108-115 | the corrected lookup agrees with the lookup as written on every month except November and December |
| App.LookupIsWellFormed | src/App.tsx:99-116 | every workout a date gets is well formed, so the guided session can run it |
| App.RestOverrideGivesNoWorkout | src/App.tsx:100-102 | a rest override gives no workout whatever the month and weekday |
| App.TemplateOverrideWins | src/App.tsx:103-105 | a template override gives its program entry, ahead of the month and weekday |
| App.UnmappedMonthGivesNoWorkout | src/App.tsx:108-109 | without an override, month indices 5–9 and 11 give no workout |
| App.DecemberDateGetsDecemberBlock | src/App.tsx:108-115 | corrected: without an override, a Monday to Thursday in December gets December's block and one in November gets no workout |
| App.DecemberDateAsWritten | src/App.tsx:108-115 | as written: without an override, a Monday to Thursday in December gets no workout and the same weekday in November gets December's block |
| App.OffDayGivesNoWorkout | src/App.tsx:111-112 | without an override, Sunday, Friday and Saturday give no workout |
| App.DefaultMapping | src/App.tsx:108-115 | without an override a workout exists exactly for a month index the table maps (0–4, 10) on weekdays 1–4, and it is the entry of that mapped block for that weekday |
| App.MondayInJanuary | src/App.tsx:114-115 | a Monday in January gets `jan_day1` |
| CoachDashboard.DateLeTotal | src/components/CoachDashboard.tsx:61 | any two date keys are ordered one way or the other |
| CoachDashboard.DateLeTransitive | src/components/CoachDashboard.tsx:61 | the date order is transitive |
| CoachDashboard.DateLeAntisymmetric | src/components/CoachDashboard.tsx:61 | keys ordered both ways are equal |
| CoachDashboard.WithoutDate | src/components/CoachDashboard.tsx:54 | the filtered list keeps exactly the overrides with another date and is no longer than before |
| CoachDashboard.NewOverride | src/components/CoachDashboard.tsx:40-45 | a rest override has no month or day key; a template override carries the selected month and day |
| CoachDashboard.Upserted | src/components/CoachDashboard.tsx:38-46 | the new override is the last element |
| CoachDashboard.UpsertedKeepsOthers | src/components/CoachDashboard.tsx:38-46 | after an upsert only the last override has the new date, and before it stand the other overrides in their old order |
| CoachDashboard.WithoutDateConcat | src/components/CoachDashboard.tsx:39 | filtering keeps relative order: it distributes over concatenation |
| CoachDashboard.WithoutDateUnmatched | src/components/CoachDashboard.tsx:54 | removing a date that no override has changes nothing |
| CoachDashboard.WithoutDateIdempotent | src/components/CoachDashboard.tsx:53-54 | removing a date twice is removing it once |
| CoachDashboard.InsertByDate | src/components/CoachDashboard.tsx:61 | insertion adds exactly the one override to the multiset |
| CoachDashboard.SortByDate | src/components/CoachDashboard.tsx:61 | the sort is a permutation |
| CoachDashboard.SortByDateSorted | src/components/CoachDashboard.tsx:217-219 | the sort is ordered by date and a permutation of the overrides |
| CoachDashboard.Dashboard.constructor | src/components/CoachDashboard.tsx:12-18 | the dashboard starts locked, with no overrides, no date, and a December day-1 template selected |
| CoachDashboard.Dashboard.SubmitPin | src/components/CoachDashboard.tsx:99-101 | the gate opens exactly when the input is 7391 and never closes |
| CoachDashboard.Dashboard.AddOverride | src/components/CoachDashboard.tsx:35-50 | with no date selected nothing changes; otherwise the list is the upsert of the form's override |
| CoachDashboard.Dashboard.RemoveOverride | src/components/CoachDashboard.tsx:53-57 | the list becomes the overrides with another date, in order |
| CoachDashboard.Dashboard.ExportOrder | src/components/CoachDashboard.tsx:60-61 | the exported list is sorted by date and a permutation of the overrides |
| WorkoutDetail.WorkTotalAppend | src/components/WorkoutDetail.tsx:26-29 | the work total of two lists is the sum of their totals |
| WorkoutDetail.WorkTotalAtLeastCount | src/components/WorkoutDetail.tsx:26-29 | with positive durations, each exercise adds at least one second |
| WorkoutDetail.NoRestWithoutDefaultRest | src/components/WorkoutDetail.tsx:33-35 | an unset or zero default rest adds no rest time |
| WorkoutDetail.SingleExerciseHasNoRest | src/components/WorkoutDetail.tsx:31-37 | a single exercise adds no rest whatever the default rest |
| WorkoutDetail.ZeroSetsCountAsOne | src/components/WorkoutDetail.tsx:39 | a zero set count is counted as one set |
| WorkoutDetail.EstimateCoversEveryExercise | src/components/WorkoutDetail.tsx:23-44 | with non-negative warm-up and rest, the estimate in seconds is at least the warm-up plus one second per exercise in every set |
| WorkoutDetail.SecondsFieldTwoDigits | src/components/WorkoutDetail.tsx:49 | below a minute the seconds field is exactly two digits that read back as the seconds |
| WorkoutDetail.FormatTime | src/components/WorkoutDetail.tsx:46-50 | the text ends in `s` after at least four other characters |
| WorkoutDetail.FormatTimeReadsBack | src/components/WorkoutDetail.tsx:46-50 | the text is minute digits, `m `, two second digits, `s`, and minutes × 60 + seconds reads back as the input |
| WorkoutDetail.FormatTimeShows | src/components/WorkoutDetail.tsx:46-50 | for a non-negative count the text has the `<digits>m <two digits>s` shape and reads back as the count |
| WorkoutDetail.EstimatedTime | src/components/WorkoutDetail.tsx:23-44 | the estimate's text ends in `s` after at least four other characters |
| WorkoutDetail.EstimatedTimeReadsBack | src/components/WorkoutDetail.tsx:23-50 | a non-negative estimate's text reads back as the estimate in seconds |
| WorkoutDetail.DecemberDayOneEstimate | src/components/WorkoutDetail.tsx:23-44 | December day 1 is estimated at 680 seconds, shown as `11m 20s` |
| Text.SplitMinutes | src/components/Timer.tsx:59-60 | for a non-negative count, minutes × 60 + seconds is the count and the seconds are in 0–59 |
| Text.NatToString | src/components/WorkoutDetail.tsx:49 | a number prints as at least one decimal digit |
| Text.NatToStringRoundTrip | src/components/WorkoutDetail.tsx:49 | reading the printed digits back gives the number |
| Text.IntToString | src/components/Timer.tsx:65 | a non-negative number prints as digits that read back as it; a negative one as a minus sign and the digits of its absolute value |
| Text.JsRem | src/components/Timer.tsx:60 | the remainder lies strictly between minus and plus the divisor and has the dividend's sign |
| Text.JsRemOdd | src/components/Timer.tsx:60 | negating the dividend negates the remainder; for a non-negative dividend it is Dafny's `%`, and a dividend smaller than the divisor is its own remainder |
| Text.PadStart | src/components/Timer.tsx:65 | the result is the input preceded by fill characters, as long as the width or the input, whichever is longer |
| Text.PaddedNumberValue | src/components/Timer.tsx:65 | zero-padding a number's digits keeps its value |
| CountdownTimer.CueFor | src/components/Timer.tsx:49-57 | the alarm sounds exactly when running at zero, and a beep exactly when running with one to five seconds left |
| CountdownTimer.RunCues | src/components/Timer.tsx:49-57 | an uninterrupted run from n has one cue per value shown, n + 1 in all |
| CountdownTimer.RunCuesCount | src/components/Timer.tsx:49-57 | such a run beeps once for each of its last five seconds (fewer if shorter) and sounds the alarm exactly once, at zero |
| CountdownTimer.Display | src/components/Timer.tsx:59-65 | the text has at least five characters and contains the colon |
| CountdownTimer.DisplayReadsBack | src/components/Timer.tsx:59-65 | the `mm:ss` text has at least two minute digits, a colon and two second digits that read back as the count |
| CountdownTimer.Timer.constructor | src/components/Timer.tsx:8-9 | a timer starts stopped at its full duration |
| CountdownTimer.Timer.Tick | src/components/Timer.tsx:37-46 | a tick takes one second off only while running and above zero, and the count stays between zero and the duration |
| CountdownTimer.Timer.ToggleRunning | src/components/Timer.tsx:70 | start/pause flips `running` and nothing else |
| CountdownTimer.Timer.Reset | src/components/Timer.tsx:77-80 | reset stops the timer at its full duration |
| CountdownTimer.TicksTakeOff | src/components/Timer.tsx:37-46 | n ticks of a running timer take exactly n seconds off |
| CalendarView.BuildCells | src/components/CalendarView.tsx:38-40 | there are `startDay + daysInMonth` cells, the first `startDay` blank, and cell `startDay + d - 1` holds day `d` |
| CalendarView.CellLabel | src/components/CalendarView.tsx:88-110 | a day cell says "Rest" exactly when its date has no workout |
| CalendarView.WeekendCellsSayRest | src/components/CalendarView.tsx:110 | Fridays, Saturdays and Sundays say "Rest" |

## Left out

- Sound, speech and haptics: `Audio` playback, voice choice, `speechSynthesis`, `navigator.vibrate` and the unlock listeners are browser calls. The guided session reports them only as the cues a tick returns. The cues of start and of the pre-start steps (the announcements and beeps) are not modelled.
- The random phrase choice: the random draw is the parameter `pick`, and the variation taken is `pick` modulo the list length.
- Real time: the one-second interval and the timeouts are discrete events (`Tick`, `PreStartStep(k)`, `HideCountdown`). The pulse, flash and confetti resets only drive animations and are not modelled.
- Effect re-runs: the transitions effect runs after a tick, after the fourth pre-start step and after pause, the events that change what it reads, and once more when that run itself changes a field in its dependency list (`Effect`). The speech function is a new closure on every render and is in the dependency list too, so the effect also re-runs on renders that change nothing it reads (for instance right after the countdown is hidden). Those re-runs are not modelled; they change no field except that they show the near-end countdown again.
- GuidedWorkoutTimer.PauseTogglesOnlyRunning: a double pause is the identity only up to the near-end countdown. Resuming at 3, 2 or 1 outside the pre-start re-runs the transitions effect, which shows that number again.
- Floating-point display: the progress ring (`Math.PI`, the stroke offset, `remaining / (phaseTotal || 1)`) and the progress percentage. The model keeps the integer numerator and denominator; the invariant keeps `0 <= remaining <= phaseTotal` with `phaseTotal >= 1`.
- Dates: `toISOString`, `getMonth`, `getDay`, time zones, month navigation, the upcoming-days list, and working out `startDay` and `daysInMonth`. A date is its key, month index and weekday; the calendar takes the start day and month length as inputs.
- Storage and text output: `localStorage`, `JSON.parse`, the generated export file text and `alert`. The dashboard's form fields are plain fields without setter methods.
- Rendering: markup, screen-size breakpoints, fullscreen, fade keys, images, and the splash screens.
- App.WorkoutForDateIn: requires that a template override found for the date has a month key. The source then indexes the program with `undefined` and throws, and the dashboard never creates such an override. A template override without a day key gives no workout, as in the source.
- CoachDashboard.SortByDate: `localeCompare` is modelled as code-point lexicographic order, which agrees with it on `YYYY-MM-DD` keys. The sort is proved ordered and a permutation; its stability is not stated.
- WorkoutDetail.FormatTimeReadsBack, CountdownTimer.DisplayReadsBack: stated for non-negative counts. A negative count prints with JavaScript's sign rules, which `IntToString` and `JsRem` model, but no property is proved about it.
- CoachSpeech.SayPhrase: a key that names a built-in property of JavaScript objects (such as `toString`) is treated as plain text. `$` patterns in the replacement text are not interpreted.
- Workouts.WorkoutDay: the `focus` line and the workout `notes` are left out of the record. Only the detail card and the upcoming-days list display them; no computation reads them. Exercise `notes` are kept; no shipped exercise has one.
- The exercise image tables are not part of this model: they map names to image paths, which only the rendering uses.

## Findings

| source | as written | input that shows it | evidently intended | confidence | as-written member | corrected member |
|---|---|---|---|---|---|---|
| src/data/workouts.ts:459-460 | `MONTH_INDEX_TO_KEY` maps index 10 to December's block and index 11 to null | a Monday in December (`getMonth()` is 11) gets no workout; a Monday in November (10) gets December's day 1 | December's block on index 11, November without a block, as for the other five months, whose indices are JavaScript month indices | high (not executed) | Workouts.MonthIndexToKey, Workouts.DecemberOffByOne, App.DecemberDateAsWritten | Workouts.CalendarMonthKey, Workouts.CalendarMonthRoundTrip, App.CorrectedWorkoutForDateIn, App.DecemberDateGetsDecemberBlock |
