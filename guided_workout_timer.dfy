/**
 * The guided workout session. A session walks through every exercise of a
 * workout, set after set: a work phase of the exercise's length, then a fixed
 * 20-second rest, until the work phase of the last exercise of the last set
 * ends the session. Start arms a four-step pre-start countdown (3, 2, 1, go);
 * a one-second tick counts the current phase down and, at zero, moves to the
 * next phase; pause toggles the clock; exit stops it.
 *
 * The state is the `Session` class. Each of its methods is specified by a
 * function from the state before (a `Snapshot`) to the state after, and the
 * session's properties are lemmas about those functions.
 */
module GuidedWorkoutTimer {
  import opened Wrappers
  import opened Workouts

  datatype Phase = Idle | Work | Rest | Complete

  /** The rest between exercises. The workout's own default rest is not used. */
  const BreakSeconds: int := 20

  /** The session's fields, as one value. */
  datatype Snapshot = Snapshot(
    phase: Phase,
    running: bool,
    currentSet: int,
    currentExerciseIndex: int,
    remaining: int,
    phaseTotal: int,
    preStart: bool,
    countdownNumber: Option<int>)

  /** The state a session is created in. */
  const Initial: Snapshot := Snapshot(Idle, false, 0, 0, 0, 1, false, None)

  /** What a tick tells the sound, speech and haptics layer. */
  datatype Cue =
    | Silent
      /** The phase countdown shows `n` (3, 2 or 1). */
    | NearEnd(n: int)
      /** The session is complete. */
    | Completed
      /** A rest begins; `upcoming` is the next exercise, announced by name unless a set just ended. */
    | RestBegins(upcoming: string, announcesNext: bool)
      /** A work phase begins for the exercise at `index`. */
    | WorkBegins(index: int)

  // ---------------------------------------------------------------------
  // The state after each event
  // ---------------------------------------------------------------------

  /** The current exercise is the last one of the set. */
  predicate LastExercise(w: WorkoutDay, s: Snapshot) {
    s.currentExerciseIndex == |w.exercises| - 1
  }

  /** The current set is the last one. */
  predicate LastSet(w: WorkoutDay, s: Snapshot) {
    s.currentSet == w.repeatSets - 1
  }

  predicate IndicesInRange(w: WorkoutDay, s: Snapshot) {
    0 <= s.currentSet < w.repeatSets && 0 <= s.currentExerciseIndex < |w.exercises|
  }

  /** The interval that decrements `remaining` runs: running, in work or rest, above zero. */
  predicate Ticks(s: Snapshot) {
    s.running && s.phase != Idle && s.phase != Complete && s.remaining > 0
  }

  /**
   * The transitions effect, run whenever the state it watches changes: while
   * running, show the phase countdown at 3, 2, 1 (outside the pre-start), and
   * at zero move work to complete or rest, and rest to the next work phase.
   */
  function Transition(w: WorkoutDay, s: Snapshot): (sc: (Snapshot, Cue))
    requires WellFormed(w) && IndicesInRange(w, s)
    ensures sc.1 == Silent ==> sc.0 == s
    ensures sc.0.phase != s.phase ==> s.running && s.remaining == 0
  {
    if !s.running then (s, Silent)
    else if s.remaining != 0 then
      if !s.preStart && s.remaining <= 3 && s.remaining > 0 then
        (s.(countdownNumber := Some(s.remaining)), NearEnd(s.remaining))
      else (s, Silent)
    else if s.phase == Work then
      if LastExercise(w, s) && LastSet(w, s) then
        (s.(running := false, phase := Complete), Completed)
      else
        var next := if LastExercise(w, s) then w.exercises[0] else w.exercises[s.currentExerciseIndex + 1];
        (s.(phase := Rest, phaseTotal := BreakSeconds, remaining := BreakSeconds),
         RestBegins(next.name, !LastExercise(w, s)))
    else if s.phase == Rest then
      var nextIndex := if LastExercise(w, s) then 0 else s.currentExerciseIndex + 1;
      var nextSet := if LastExercise(w, s) then s.currentSet + 1 else s.currentSet;
      var duration := w.exercises[nextIndex].workSeconds;
      (s.(currentExerciseIndex := nextIndex, currentSet := nextSet,
          phase := Work, phaseTotal := duration, remaining := duration),
       WorkBegins(nextIndex))
    else (s, Silent)
  }

  /**
   * The effect's dependency list, as far as it names session fields: a run
   * that changes one of them makes React run the effect again.
   */
  predicate WatchedChange(s: Snapshot, t: Snapshot) {
    || s.running != t.running || s.remaining != t.remaining || s.phase != t.phase
    || s.preStart != t.preStart
    || s.currentExerciseIndex != t.currentExerciseIndex || s.currentSet != t.currentSet
  }

  /** A run's cue as a list: a silent run signals nothing. */
  function Signal(c: Cue): (cues: seq<Cue>)
    ensures Silent !in cues && |cues| <= 1
  {
    if c == Silent then [] else [c]
  }

  /**
   * The transitions effect after an update to what it watches: one run and,
   * when that run itself changes a watched field, the run that follows it
   * (the near-end countdown of a work phase of three seconds or less that a
   * rest has just started). `EffectSettles` shows no third run changes
   * anything watched.
   */
  function Effect(w: WorkoutDay, s: Snapshot): (sc: (Snapshot, seq<Cue>))
    requires ReadyForEffect(w, s)
  {
    var (t, c) := Transition(w, s);
    if WatchedChange(s, t) then
      TransitionInv(w, s);
      var (u, c2) := Transition(w, t);
      (u, Signal(c) + Signal(c2))
    else (t, Signal(c))
  }

  /**
   * One second of the clock: `remaining` down by one (never below zero), then
   * the effect runs that change causes, with the cues they give in order.
   */
  function AfterTick(w: WorkoutDay, s: Snapshot): (sc: (Snapshot, seq<Cue>))
    requires Inv(w, s)
    ensures !Ticks(s) ==> sc == (s, [])
    ensures Silent !in sc.1 && |sc.1| <= 2
  {
    if Ticks(s) then
      var remaining := if s.remaining - 1 > 0 then s.remaining - 1 else 0;
      Effect(w, s.(remaining := remaining))
    else (s, [])
  }

  /** `handleStart`: back to the first exercise of the first set, stopped, in the pre-start countdown. */
  function AfterStart(w: WorkoutDay, s: Snapshot): (t: Snapshot)
    requires WellFormed(w)
    ensures t.phase == Idle && !t.running && t.preStart
    ensures IndicesInRange(w, t) && t.remaining == t.phaseTotal > 0
  {
    var first := w.exercises[0].workSeconds;
    s.(currentSet := 0, currentExerciseIndex := 0, phase := Idle,
       phaseTotal := first, remaining := first, running := false, preStart := true)
  }

  /**
   * The k-th of the four timeouts `handleStart` schedules: steps 1 to 3 show
   * 3, 2, 1; step 4 clears the countdown, leaves the pre-start and runs work.
   * Nothing cancels them, so they also run after an exit.
   */
  function AfterPreStartStep(w: WorkoutDay, k: int, s: Snapshot): (t: Snapshot)
    requires Inv(w, s)
    requires 1 <= k <= 4
    ensures k < 4 ==> t == s.(countdownNumber := Some(4 - k))
    ensures k == 4 ==> !t.preStart && t.phase != Idle
  {
    if k < 4 then s.(countdownNumber := Some(4 - k))
    else Effect(w, s.(countdownNumber := None, preStart := false, phase := Work, running := true)).0
  }

  /** `handlePause`: flip `running` in any phase, then the transitions effect. */
  function AfterPause(w: WorkoutDay, s: Snapshot): (t: Snapshot)
    requires Inv(w, s)
    ensures t.running == !s.running
  {
    Effect(w, s.(running := !s.running)).0
  }

  /** `handleExit`: stopped, out of the pre-start, no countdown shown. */
  function AfterExit(s: Snapshot): (t: Snapshot)
    ensures !t.running && !t.preStart && t.countdownNumber == None
  {
    s.(running := false, preStart := false, countdownNumber := None)
  }

  /** The 800 ms timeout that hides the phase countdown. */
  function AfterHideCountdown(s: Snapshot): (t: Snapshot)
    ensures t.countdownNumber == None
  {
    s.(countdownNumber := None)
  }

  // ---------------------------------------------------------------------
  // The session invariant
  // ---------------------------------------------------------------------

  /**
   * What holds of every state the transitions effect may run on: the indices
   * are in range, the phase clock is between zero and its total, a work or
   * rest phase that is stopped has time left, a rest is never after the very
   * last exercise, completion sits on the very last exercise, the pre-start
   * only happens while idle, and the countdown shows 3, 2 or 1.
   */
  ghost predicate ReadyForEffect(w: WorkoutDay, s: Snapshot) {
    && WellFormed(w)
    && IndicesInRange(w, s)
    && 0 <= s.remaining <= s.phaseTotal
    && s.phaseTotal >= 1
    && (s.phase == Work || s.phase == Rest ==> s.remaining > 0 || s.running)
    && (s.phase == Rest ==> !(LastExercise(w, s) && LastSet(w, s)))
    && (s.phase == Complete ==> LastExercise(w, s) && LastSet(w, s) && s.remaining == 0)
    && (s.preStart ==> s.phase == Idle)
    && (s.countdownNumber.Some? ==> 1 <= s.countdownNumber.value <= 3)
  }

  /** What holds of every state a session reaches: the above, and a work or rest phase always has time left. */
  ghost predicate Inv(w: WorkoutDay, s: Snapshot) {
    ReadyForEffect(w, s) && (s.phase == Work || s.phase == Rest ==> s.remaining > 0)
  }

  lemma InitialInv(w: WorkoutDay)
    requires WellFormed(w)
    ensures Inv(w, Initial)
  {
  }

  /** One run of the transitions effect restores the invariant, even when work or rest has reached zero. */
  lemma TransitionInv(w: WorkoutDay, s: Snapshot)
    requires ReadyForEffect(w, s)
    ensures Inv(w, Transition(w, s).0)
  {
  }

  /** The effect with its re-run keeps the invariant. */
  lemma EffectInv(w: WorkoutDay, s: Snapshot)
    requires ReadyForEffect(w, s)
    ensures Inv(w, Effect(w, s).0)
  {
    TransitionInv(w, s);
    TransitionInv(w, Transition(w, s).0);
  }

  /**
   * The effect comes to rest: when its first run changes a watched field, the
   * run that follows changes none, so React runs it no third time.
   */
  lemma EffectSettles(w: WorkoutDay, s: Snapshot)
    requires ReadyForEffect(w, s)
    ensures var t := Transition(w, s).0;
      WatchedChange(s, t) ==> Inv(w, t) && !WatchedChange(t, Transition(w, t).0)
  {
    TransitionInv(w, s);
  }

  lemma TickInv(w: WorkoutDay, s: Snapshot)
    requires Inv(w, s)
    ensures Inv(w, AfterTick(w, s).0)
  {
    if Ticks(s) {
      var remaining := if s.remaining - 1 > 0 then s.remaining - 1 else 0;
      EffectInv(w, s.(remaining := remaining));
    }
  }

  lemma StartInv(w: WorkoutDay, s: Snapshot)
    requires Inv(w, s)
    ensures Inv(w, AfterStart(w, s))
  {
  }

  lemma PreStartStepInv(w: WorkoutDay, k: int, s: Snapshot)
    requires Inv(w, s) && 1 <= k <= 4
    ensures Inv(w, AfterPreStartStep(w, k, s))
  {
    if k == 4 {
      EffectInv(w, s.(countdownNumber := None, preStart := false, phase := Work, running := true));
    }
  }

  lemma PauseInv(w: WorkoutDay, s: Snapshot)
    requires Inv(w, s)
    ensures Inv(w, AfterPause(w, s))
  {
    EffectInv(w, s.(running := !s.running));
  }

  // ---------------------------------------------------------------------
  // What one event does
  // ---------------------------------------------------------------------

  /** Without a running clock in work or rest with time left, a tick changes nothing. */
  lemma TickIgnoredWhenStopped(w: WorkoutDay, s: Snapshot)
    requires Inv(w, s) && !Ticks(s)
    ensures AfterTick(w, s) == (s, [])
  {
  }

  /**
   * A tick that does not reach zero takes exactly one second off and changes
   * nothing else but the countdown, which it shows at 3, 2, 1 with a cue.
   */
  lemma TickCountsDown(w: WorkoutDay, s: Snapshot)
    requires Inv(w, s) && Ticks(s) && s.remaining > 1
    ensures var (t, cues) := AfterTick(w, s);
      && t.remaining == s.remaining - 1
      && t == s.(remaining := t.remaining, countdownNumber := t.countdownNumber)
      && t.countdownNumber == (if t.remaining <= 3 then Some(t.remaining) else s.countdownNumber)
      && cues == (if t.remaining <= 3 then [NearEnd(t.remaining)] else [])
  {
  }

  /** A completed session stays as it is: no tick changes it. */
  lemma CompleteIsTerminal(w: WorkoutDay, s: Snapshot)
    requires Inv(w, s) && s.phase == Complete
    ensures AfterTick(w, s) == (s, [])
  {
  }

  /** The last second of the last exercise of the last set completes the session and stops the clock, indices untouched. */
  lemma WorkEndsSession(w: WorkoutDay, s: Snapshot)
    requires Inv(w, s) && s.running && s.phase == Work && s.remaining == 1
    requires LastExercise(w, s) && LastSet(w, s)
    ensures AfterTick(w, s) == (s.(remaining := 0, phase := Complete, running := false), [Completed])
  {
    var done := s.(remaining := 0, phase := Complete, running := false);
    assert Transition(w, s.(remaining := 0)) == (done, Completed);
    assert Transition(w, done) == (done, Silent);
    assert Signal(Completed) + Signal(Silent) == [Completed];
    assert Effect(w, s.(remaining := 0)) == (done, [Completed]);
  }

  /**
   * The last second of any other work phase starts a 20-second rest on the
   * same indices. It announces the next exercise by name, or only a rest
   * phrase after a set's last exercise; the cue carries the upcoming
   * exercise, the first one after a set's last exercise, either way.
   */
  lemma WorkEndsInRest(w: WorkoutDay, s: Snapshot)
    requires Inv(w, s) && s.running && s.phase == Work && s.remaining == 1
    requires !(LastExercise(w, s) && LastSet(w, s))
    ensures var (t, cues) := AfterTick(w, s);
      && t == s.(phase := Rest, remaining := BreakSeconds, phaseTotal := BreakSeconds)
      && cues == [RestBegins(
           if LastExercise(w, s) then w.exercises[0].name else w.exercises[s.currentExerciseIndex + 1].name,
           !LastExercise(w, s))]
  {
  }

  /**
   * The last second of a rest starts the next exercise's work phase: the
   * next index, or the first exercise of the next set after the last one.
   * The effect then runs again on the new phase, and a work phase of three
   * seconds or less shows its countdown at once.
   */
  lemma RestEndsInWork(w: WorkoutDay, s: Snapshot)
    requires Inv(w, s) && s.running && s.phase == Rest && s.remaining == 1
    ensures var (t, cues) := AfterTick(w, s);
      && t.phase == Work && t.running
      && (LastExercise(w, s) ==> t.currentExerciseIndex == 0 && t.currentSet == s.currentSet + 1)
      && (!LastExercise(w, s) ==> t.currentExerciseIndex == s.currentExerciseIndex + 1 && t.currentSet == s.currentSet)
      && t.remaining == t.phaseTotal == w.exercises[t.currentExerciseIndex].workSeconds
      && t.currentSet < w.repeatSets
      && t.countdownNumber == (if t.remaining <= 3 then Some(t.remaining) else s.countdownNumber)
      && cues == [WorkBegins(t.currentExerciseIndex)] + (if t.remaining <= 3 then [NearEnd(t.remaining)] else [])
  {
  }

  /** Start: first exercise of the first set, stopped, pre-start on, clock at the first exercise's length. */
  lemma StartResets(w: WorkoutDay, s: Snapshot)
    requires Inv(w, s)
    ensures var t := AfterStart(w, s);
      && t.currentSet == 0 && t.currentExerciseIndex == 0
      && t.phase == Idle && !t.running && t.preStart
      && t.remaining == t.phaseTotal == w.exercises[0].workSeconds
      && t.countdownNumber == s.countdownNumber
  {
  }

  /**
   * After start the four pre-start steps show 3, 2, 1 and then begin the
   * first work phase, running, with the full first exercise on the clock.
   */
  lemma PreStartSequence(w: WorkoutDay, s: Snapshot)
    requires Inv(w, s)
    ensures var s0 := AfterStart(w, s);
      var s1 := AfterPreStartStep(w, 1, s0);
      var s2 := AfterPreStartStep(w, 2, s1);
      var s3 := AfterPreStartStep(w, 3, s2);
      var s4 := AfterPreStartStep(w, 4, s3);
      && s1.countdownNumber == Some(3) && s2.countdownNumber == Some(2) && s3.countdownNumber == Some(1)
      && s1.phase == s2.phase == s3.phase == Idle && s3.preStart && !s3.running
      && s4.phase == Work && s4.running && !s4.preStart
      && s4.currentSet == 0 && s4.currentExerciseIndex == 0
      && s4.remaining == s4.phaseTotal == w.exercises[0].workSeconds
      && s4.countdownNumber == (if s4.remaining <= 3 then Some(s4.remaining) else None)
  {
    StartInv(w, s);
  }

  /** Exit stops the clock, leaves the pre-start and hides the countdown; phase, indices and clock stay. */
  lemma ExitKeepsPosition(s: Snapshot)
    ensures var t := AfterExit(s);
      && !t.running && !t.preStart && t.countdownNumber == None
      && t.phase == s.phase && t.currentSet == s.currentSet
      && t.currentExerciseIndex == s.currentExerciseIndex
      && t.remaining == s.remaining && t.phaseTotal == s.phaseTotal
  {
  }

  /**
   * Exit does not cancel the pending pre-start steps: a step 4 that runs
   * after an exit in the pre-start still starts the work phase and the clock.
   */
  lemma StaleGoAfterExitResumes(w: WorkoutDay, s: Snapshot)
    requires Inv(w, s) && s.phase == Idle && s.remaining > 0
    ensures var t := AfterPreStartStep(w, 4, AfterExit(s));
      t.phase == Work && t.running
  {
  }

  /**
   * Pause flips `running` and keeps phase, indices, clock and pre-start; a
   * second pause restores the state, except that resuming at 3, 2 or 1
   * outside the pre-start shows that number again.
   */
  lemma PauseTogglesOnlyRunning(w: WorkoutDay, s: Snapshot)
    requires Inv(w, s)
    ensures var t := AfterPause(w, s);
      && t.running == !s.running
      && t == s.(running := t.running, countdownNumber := t.countdownNumber)
    ensures var u := AfterPause(w, AfterPause(w, s));
      && u == s.(countdownNumber := u.countdownNumber)
      && (u.countdownNumber != s.countdownNumber ==> !s.preStart && 0 < s.remaining <= 3 && u.countdownNumber == Some(s.remaining))
  {
    PauseInv(w, s);
  }

  // ---------------------------------------------------------------------
  // Progress
  // ---------------------------------------------------------------------

  /** The progress bar's numerator: exercises finished before the current one. */
  function ProgressNumerator(w: WorkoutDay, s: Snapshot): int {
    s.currentSet * |w.exercises| + s.currentExerciseIndex
  }

  /** The progress bar's denominator: all exercises of all sets. */
  function ProgressDenominator(w: WorkoutDay): int {
    w.repeatSets * |w.exercises|
  }

  lemma NumeratorBelowDenominator(w: WorkoutDay, s: Snapshot)
    requires IndicesInRange(w, s)
    ensures 0 <= ProgressNumerator(w, s) <= ProgressDenominator(w) - 1
  {
    var n := |w.exercises|;
    assert s.currentSet * n <= (w.repeatSets - 1) * n by {
      assert s.currentSet <= w.repeatSets - 1;
    }
    assert (w.repeatSets - 1) * n == w.repeatSets * n - n;
  }

  /**
   * The bar never shows 100%: the numerator stays below the denominator, and
   * at completion it is exactly one below.
   */
  lemma ProgressBounds(w: WorkoutDay, s: Snapshot)
    requires Inv(w, s)
    ensures 0 <= ProgressNumerator(w, s) < ProgressDenominator(w)
    ensures s.phase == Complete ==> ProgressNumerator(w, s) == ProgressDenominator(w) - 1
  {
    NumeratorBelowDenominator(w, s);
    if s.phase == Complete {
      var n := |w.exercises|;
      assert (w.repeatSets - 1) * n + (n - 1) == w.repeatSets * n - 1;
    }
  }

  /** A tick raises the numerator by one exactly when it ends a rest, and otherwise leaves it. */
  lemma TickProgress(w: WorkoutDay, s: Snapshot)
    requires Inv(w, s)
    ensures ProgressNumerator(w, AfterTick(w, s).0) ==
      ProgressNumerator(w, s) + (if Ticks(s) && s.phase == Rest && s.remaining == 1 then 1 else 0)
  {
    if Ticks(s) && s.phase == Rest && s.remaining == 1 && LastExercise(w, s) {
      var n := |w.exercises|;
      assert (s.currentSet + 1) * n == s.currentSet * n + n;
    }
  }

  // ---------------------------------------------------------------------
  // Whole phases and whole sessions
  // ---------------------------------------------------------------------

  /** The state after `n` ticks. */
  function Run(w: WorkoutDay, s: Snapshot, n: nat): (t: Snapshot)
    requires Inv(w, s)
    ensures Inv(w, t)
    decreases n
  {
    TickInv(w, s);
    if n == 0 then s else Run(w, AfterTick(w, s).0, n - 1)
  }

  lemma {:induction false} RunAdd(w: WorkoutDay, s: Snapshot, a: nat, b: nat)
    requires Inv(w, s)
    ensures Run(w, s, a + b) == Run(w, Run(w, s, a), b)
    decreases a
  {
    if a > 0 {
      TickInv(w, s);
      RunAdd(w, AfterTick(w, s).0, a - 1, b);
    }
  }

  /** Fewer ticks than the clock shows stay in the phase: only the clock and the countdown change. */
  lemma {:induction false} RunWithinPhase(w: WorkoutDay, s: Snapshot, n: nat)
    requires Inv(w, s) && Ticks(s) && n < s.remaining
    ensures var t := Run(w, s, n);
      t == s.(remaining := s.remaining - n, countdownNumber := t.countdownNumber)
    decreases n
  {
    if n > 0 {
      TickCountsDown(w, s);
      var t := AfterTick(w, s).0;
      RunWithinPhase(w, t, n - 1);
    }
  }

  /** The state one tick before a running phase's clock reaches zero. */
  lemma RunToLastSecond(w: WorkoutDay, s: Snapshot)
    requires Inv(w, s) && Ticks(s)
    ensures var t := Run(w, s, s.remaining - 1);
      t == s.(remaining := 1, countdownNumber := t.countdownNumber)
      && Run(w, s, s.remaining) == Run(w, t, 1)
  {
    var n := s.remaining - 1;
    RunWithinPhase(w, s, n);
    RunAdd(w, s, n, 1);
  }

  lemma RunOne(w: WorkoutDay, s: Snapshot)
    requires Inv(w, s)
    ensures Run(w, s, 1) == AfterTick(w, s).0
  {
    TickInv(w, s);
  }

  /** The state at the start of a work phase that is running. */
  ghost predicate AtWorkStart(w: WorkoutDay, s: Snapshot) {
    && Inv(w, s) && s.running && s.phase == Work
    && s.remaining == w.exercises[s.currentExerciseIndex].workSeconds
  }

  /**
   * The ticks from the start of the work phase for (`setIndex`, `index`) to the
   * end of the session: every remaining work phase, and a rest between
   * consecutive ones.
   */
  function TicksToFinish(w: WorkoutDay, setIndex: int, index: int): (n: nat)
    requires WellFormed(w) && 0 <= setIndex < w.repeatSets && 0 <= index < |w.exercises|
    ensures n >= w.exercises[index].workSeconds
    decreases w.repeatSets - setIndex, |w.exercises| - index
  {
    var work := w.exercises[index].workSeconds;
    if index == |w.exercises| - 1 && setIndex == w.repeatSets - 1 then work
    else if index == |w.exercises| - 1 then work + BreakSeconds + TicksToFinish(w, setIndex + 1, 0)
    else work + BreakSeconds + TicksToFinish(w, setIndex, index + 1)
  }

  /**
   * A session left running from the start of a work phase completes after
   * `TicksToFinish` ticks, stopped, on the last exercise of the last set, with
   * the progress bar one short of full.
   */
  lemma {:induction false} RunToCompletion(w: WorkoutDay, s: Snapshot)
    requires AtWorkStart(w, s)
    ensures var n := TicksToFinish(w, s.currentSet, s.currentExerciseIndex);
      var t := Run(w, s, n);
      && t.phase == Complete && !t.running
      && LastExercise(w, t) && LastSet(w, t)
      && ProgressNumerator(w, t) == ProgressDenominator(w) - 1
    decreases w.repeatSets - s.currentSet, |w.exercises| - s.currentExerciseIndex
  {
    var work := s.remaining;
    if LastExercise(w, s) && LastSet(w, s) {
      RunToLastSecond(w, s);
      RunOne(w, Run(w, s, work - 1));
      WorkEndsSession(w, Run(w, s, work - 1));
      ProgressBounds(w, Run(w, s, work));
    } else {
      WorkThenRest(w, s);
      var next := Run(w, s, work + BreakSeconds);
      var rest := TicksToFinish(w, next.currentSet, next.currentExerciseIndex);
      RunToCompletion(w, next);
      RunAdd(w, s, work + BreakSeconds, rest);
    }
  }

  /** One tick short of `TicksToFinish`, the session is still in its last work phase. */
  lemma {:induction false} LastTickInWork(w: WorkoutDay, s: Snapshot)
    requires AtWorkStart(w, s)
    ensures Run(w, s, TicksToFinish(w, s.currentSet, s.currentExerciseIndex) - 1).phase == Work
    decreases w.repeatSets - s.currentSet, |w.exercises| - s.currentExerciseIndex
  {
    var n := TicksToFinish(w, s.currentSet, s.currentExerciseIndex);
    if LastExercise(w, s) && LastSet(w, s) {
      LastPhaseLastTick(w, s);
    } else {
      WorkThenRest(w, s);
      var next := Run(w, s, s.remaining + BreakSeconds);
      var rest := TicksToFinish(w, next.currentSet, next.currentExerciseIndex);
      assert n - 1 == s.remaining + BreakSeconds + (rest - 1);
      LastTickInWork(w, next);
      WorkAfter(w, s, s.remaining + BreakSeconds, rest - 1);
    }
  }

  /** A session in work `b` ticks after the state reached in `a` ticks is in work `a + b` ticks on. */
  lemma WorkAfter(w: WorkoutDay, s: Snapshot, a: nat, b: nat)
    requires Inv(w, s) && Run(w, Run(w, s, a), b).phase == Work
    ensures Run(w, s, a + b).phase == Work
  {
    RunAdd(w, s, a, b);
  }

  /** In the session's last work phase, the tick before the end still finds the phase running. */
  lemma LastPhaseLastTick(w: WorkoutDay, s: Snapshot)
    requires AtWorkStart(w, s) && LastExercise(w, s) && LastSet(w, s)
    ensures Run(w, s, TicksToFinish(w, s.currentSet, s.currentExerciseIndex) - 1).phase == Work
  {
    assert TicksToFinish(w, s.currentSet, s.currentExerciseIndex) == s.remaining;
    RunToLastSecond(w, s);
  }

  /** Fewer than `TicksToFinish` ticks from the start of a running work phase never complete the session. */
  lemma CompletesNoEarlier(w: WorkoutDay, s: Snapshot, k: nat)
    requires AtWorkStart(w, s)
    requires k < TicksToFinish(w, s.currentSet, s.currentExerciseIndex)
    ensures Run(w, s, k).phase != Complete
  {
    var n := TicksToFinish(w, s.currentSet, s.currentExerciseIndex);
    LastTickInWork(w, s);
    RunAdd(w, s, k, n - 1 - k);
    CompleteStays(w, Run(w, s, k), n - 1 - k);
  }

  /** Once complete, a session stays as it is however many ticks follow. */
  lemma {:induction false} CompleteStays(w: WorkoutDay, c: Snapshot, m: nat)
    requires Inv(w, c)
    ensures c.phase == Complete ==> Run(w, c, m) == c
    decreases m
  {
    if c.phase == Complete && m > 0 {
      CompleteIsTerminal(w, c);
      CompleteStays(w, c, m - 1);
    }
  }

  /** A work phase that does not end the session, and the rest after it, lead to the start of the next work phase. */
  lemma WorkThenRest(w: WorkoutDay, s: Snapshot)
    requires AtWorkStart(w, s) && !(LastExercise(w, s) && LastSet(w, s))
    ensures var t := Run(w, s, s.remaining + BreakSeconds);
      && AtWorkStart(w, t)
      && (LastExercise(w, s) ==> t.currentExerciseIndex == 0 && t.currentSet == s.currentSet + 1)
      && (!LastExercise(w, s) ==> t.currentExerciseIndex == s.currentExerciseIndex + 1 && t.currentSet == s.currentSet)
  {
    WorkRunsOut(w, s);
    RestRunsOut(w, Run(w, s, s.remaining));
    RunAdd(w, s, s.remaining, BreakSeconds);
  }

  /** A work phase that does not end the session runs out into a full rest, at the same position. */
  lemma WorkRunsOut(w: WorkoutDay, s: Snapshot)
    requires AtWorkStart(w, s) && !(LastExercise(w, s) && LastSet(w, s))
    ensures var e := Run(w, s, s.remaining);
      e == s.(phase := Rest, remaining := BreakSeconds, phaseTotal := BreakSeconds, countdownNumber := e.countdownNumber)
  {
    RunToLastSecond(w, s);
    RunOne(w, Run(w, s, s.remaining - 1));
    WorkEndsInRest(w, Run(w, s, s.remaining - 1));
  }

  /** A full rest runs out into the start of the next work phase. */
  lemma RestRunsOut(w: WorkoutDay, r: Snapshot)
    requires Inv(w, r) && r.running && r.phase == Rest && r.remaining == BreakSeconds
    ensures var t := Run(w, r, BreakSeconds);
      && AtWorkStart(w, t)
      && (LastExercise(w, r) ==> t.currentExerciseIndex == 0 && t.currentSet == r.currentSet + 1)
      && (!LastExercise(w, r) ==> t.currentExerciseIndex == r.currentExerciseIndex + 1 && t.currentSet == r.currentSet)
  {
    RunToLastSecond(w, r);
    RunOne(w, Run(w, r, BreakSeconds - 1));
    RestEndsInWork(w, Run(w, r, BreakSeconds - 1));
  }

  /**
   * One exercise of five seconds, one set: after start and the pre-start,
   * five ticks complete the session without any rest.
   */
  lemma SingleExerciseSession(w: WorkoutDay)
    requires WellFormed(w) && |w.exercises| == 1 && w.repeatSets == 1
    requires w.exercises[0].workSeconds == 5
    ensures var s0 := AfterStart(w, Initial);
      var s4 := AfterPreStartStep(w, 4, AfterPreStartStep(w, 3, AfterPreStartStep(w, 2, AfterPreStartStep(w, 1, s0))));
      Inv(w, s4) && Run(w, s4, 5).phase == Complete
  {
    InitialInv(w);
    PreStartSequence(w, Initial);
    var s0 := AfterStart(w, Initial);
    StartInv(w, Initial);
    PreStartStepInv(w, 1, s0);
    var s1 := AfterPreStartStep(w, 1, s0);
    PreStartStepInv(w, 2, s1);
    var s2 := AfterPreStartStep(w, 2, s1);
    PreStartStepInv(w, 3, s2);
    var s3 := AfterPreStartStep(w, 3, s2);
    PreStartStepInv(w, 4, s3);
    var s4 := AfterPreStartStep(w, 4, s3);
    RunToCompletion(w, s4);
  }

  // ---------------------------------------------------------------------
  // The session object
  // ---------------------------------------------------------------------

  class Session {
    const workout: WorkoutDay
    var phase: Phase
    var running: bool
    var currentSet: int
    var currentExerciseIndex: int
    var remaining: int
    var phaseTotal: int
    var preStart: bool
    var countdownNumber: Option<int>

    function State(): Snapshot
      reads this
    {
      Snapshot(phase, running, currentSet, currentExerciseIndex, remaining, phaseTotal, preStart, countdownNumber)
    }

    ghost predicate Valid()
      reads this
    {
      Inv(workout, State())
    }

    constructor (workout: WorkoutDay)
      requires WellFormed(workout)
      ensures this.workout == workout
      ensures State() == Initial && Valid()
    {
      this.workout := workout;
      phase := Idle;
      running := false;
      currentSet := 0;
      currentExerciseIndex := 0;
      remaining := 0;
      phaseTotal := 1;
      preStart := false;
      countdownNumber := None;
    }

    /**
     * One run of the transitions effect on the current fields. `RunEffect`
     * calls it, once or twice, for `Tick`, `PreStartStep` and `Pause`.
     */
    method Settle() returns (cue: Cue)
      requires WellFormed(workout) && IndicesInRange(workout, State())
      modifies this
      ensures (State(), cue) == Transition(workout, old(State()))
    {
      cue := Silent;
      if !running {
        return;
      }
      if remaining != 0 {
        if !preStart && remaining > 0 && remaining <= 3 {
          countdownNumber := Some(remaining);
          cue := NearEnd(remaining);
        }
        return;
      }
      var exercises := workout.exercises;
      var lastExercise := currentExerciseIndex == |exercises| - 1;
      if phase == Work {
        var lastSet := currentSet == workout.repeatSets - 1;
        if lastExercise && lastSet {
          running := false;
          phase := Complete;
          cue := Completed;
          return;
        }
        var nextName := if lastExercise then exercises[0].name else exercises[currentExerciseIndex + 1].name;
        cue := RestBegins(nextName, !lastExercise);
        phase := Rest;
        phaseTotal := BreakSeconds;
        remaining := BreakSeconds;
        return;
      }
      if phase == Rest {
        var nextIndex := currentExerciseIndex;
        if !lastExercise {
          nextIndex := currentExerciseIndex + 1;
          currentExerciseIndex := nextIndex;
        } else {
          nextIndex := 0;
          currentExerciseIndex := 0;
          currentSet := currentSet + 1;
        }
        var nextDuration := exercises[nextIndex].workSeconds;
        phase := Work;
        phaseTotal := nextDuration;
        remaining := nextDuration;
        cue := WorkBegins(nextIndex);
      }
    }

    /** The effect after an update: one run, and a second when the first changes a watched field. */
    method RunEffect() returns (cues: seq<Cue>)
      requires ReadyForEffect(workout, State())
      modifies this
      ensures (State(), cues) == Effect(workout, old(State()))
    {
      var before := State();
      TransitionInv(workout, before);
      var cue := Settle();
      cues := Signal(cue);
      if WatchedChange(before, State()) {
        var again := Settle();
        cues := cues + Signal(again);
      }
    }

    /** One second of the clock and the transitions it may cause. */
    method Tick() returns (cues: seq<Cue>)
      requires Valid()
      modifies this
      ensures Valid()
      ensures (State(), cues) == AfterTick(workout, old(State()))
    {
      TickInv(workout, State());
      cues := [];
      if !running || phase == Idle || phase == Complete || remaining <= 0 {
        return;
      }
      remaining := if remaining - 1 > 0 then remaining - 1 else 0;
      cues := RunEffect();
    }

    method Start()
      requires Valid()
      modifies this
      ensures Valid()
      ensures State() == AfterStart(workout, old(State()))
    {
      StartInv(workout, State());
      var firstDuration := workout.exercises[0].workSeconds;
      currentSet := 0;
      currentExerciseIndex := 0;
      phase := Idle;
      phaseTotal := firstDuration;
      remaining := firstDuration;
      running := false;
      preStart := true;
    }

    /** The k-th pre-start timeout firing. */
    method PreStartStep(k: int)
      requires Valid() && 1 <= k <= 4
      modifies this
      ensures Valid()
      ensures State() == AfterPreStartStep(workout, k, old(State()))
    {
      PreStartStepInv(workout, k, State());
      if k < 4 {
        countdownNumber := Some(4 - k);
      } else {
        countdownNumber := None;
        preStart := false;
        phase := Work;
        running := true;
        var _ := RunEffect();
      }
    }

    method Pause()
      requires Valid()
      modifies this
      ensures Valid()
      ensures State() == AfterPause(workout, old(State()))
    {
      PauseInv(workout, State());
      running := !running;
      var _ := RunEffect();
    }

    method Exit()
      requires Valid()
      modifies this
      ensures Valid()
      ensures State() == AfterExit(old(State()))
    {
      running := false;
      preStart := false;
      countdownNumber := None;
    }

    method HideCountdown()
      requires Valid()
      modifies this
      ensures Valid()
      ensures State() == AfterHideCountdown(old(State()))
    {
      countdownNumber := None;
    }
  }
}
