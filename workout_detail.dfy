/**
 * The workout detail card's time estimate: warm-up plus, for every set, the
 * work of all exercises and one rest between consecutive exercises, printed
 * as `<m>m <ss>s`.
 */
module WorkoutDetail {
  import opened Wrappers
  import opened Workouts
  import opened Text

  /** `x || fallback` on a number: zero is falsy and gives the fallback. */
  function OrElse(x: int, fallback: int): int {
    if x == 0 then fallback else x
  }

  /** `exercises.reduce((total, ex) => total + (ex.workSeconds || 0), 0)`, folded from the left. */
  function WorkTotal(exercises: seq<Exercise>): int {
    if |exercises| == 0 then 0
    else WorkTotal(exercises[..|exercises| - 1]) + OrElse(exercises[|exercises| - 1].workSeconds, 0)
  }

  /** The rest time of one set: `defaultRestSeconds * max(0, count - 1)` when the rest is set and non-zero. */
  function RestPerSet(defaultRestSeconds: Option<int>, count: int): int {
    match defaultRestSeconds
    case None => 0
    case Some(rest) => if rest == 0 then 0 else rest * (if count - 1 > 0 then count - 1 else 0)
  }

  /** `getEstimatedTime` before formatting: the estimate in seconds. */
  function EstimatedSeconds(w: WorkoutDay): int {
    OrElse(w.warmupSeconds, 0)
      + (WorkTotal(w.exercises) + RestPerSet(w.defaultRestSeconds, |w.exercises|)) * OrElse(w.repeatSets, 1)
  }

  /** The seconds part of `formatTime`: a `0` in front below ten. */
  function SecondsField(s: int): string {
    (if s < 10 then "0" else "") + IntToString(s)
  }

  /** `formatTime`: minutes, `m `, the seconds field, `s`. */
  function FormatTime(sec: int): (t: string)
    ensures |t| >= 5 && t[|t| - 1] == 's'
  {
    var (m, s) := SplitMinutes(sec);
    IntToString(m) + "m " + SecondsField(s) + "s"
  }

  /** `getEstimatedTime`. */
  function EstimatedTime(w: WorkoutDay): (t: string)
    ensures |t| >= 5 && t[|t| - 1] == 's'
  {
    FormatTime(EstimatedSeconds(w))
  }

  /** The work total of a concatenation is the sum of the work totals. */
  lemma {:induction false} WorkTotalAppend(a: seq<Exercise>, b: seq<Exercise>)
    ensures WorkTotal(a + b) == WorkTotal(a) + WorkTotal(b)
  {
    if |b| == 0 {
      assert a + b == a;
    } else {
      WorkTotalAppend(a, b[..|b| - 1]);
      assert (a + b)[..|a + b| - 1] == a + b[..|b| - 1];
    }
  }

  /** With every duration positive, each exercise adds at least a second. */
  lemma {:induction false} WorkTotalAtLeastCount(exercises: seq<Exercise>)
    requires forall i :: 0 <= i < |exercises| ==> exercises[i].workSeconds > 0
    ensures WorkTotal(exercises) >= |exercises|
  {
    if |exercises| > 0 {
      WorkTotalAtLeastCount(exercises[..|exercises| - 1]);
    }
  }

  /** An unset or zero rest contributes nothing: the estimate is warm-up plus work per set. */
  lemma NoRestWithoutDefaultRest(w: WorkoutDay)
    requires w.defaultRestSeconds == None || w.defaultRestSeconds == Some(0)
    ensures EstimatedSeconds(w) == w.warmupSeconds + WorkTotal(w.exercises) * OrElse(w.repeatSets, 1)
  {
  }

  /** A single exercise never rests, whatever the default rest. */
  lemma SingleExerciseHasNoRest(w: WorkoutDay)
    requires |w.exercises| == 1
    ensures EstimatedSeconds(w) == w.warmupSeconds + w.exercises[0].workSeconds * OrElse(w.repeatSets, 1)
  {
    assert w.exercises[..0] == [];
    assert WorkTotal(w.exercises) == w.exercises[0].workSeconds;
    assert RestPerSet(w.defaultRestSeconds, 1) == 0;
  }

  /** A zero set count is counted as one set. */
  lemma ZeroSetsCountAsOne(w: WorkoutDay)
    requires w.repeatSets == 0
    ensures EstimatedSeconds(w) == EstimatedSeconds(w.(repeatSets := 1))
    ensures EstimatedSeconds(w) == w.warmupSeconds + WorkTotal(w.exercises) + RestPerSet(w.defaultRestSeconds, |w.exercises|)
  {
  }

  /** For a second count below a minute, the seconds field is exactly two digits that read back as the count. */
  lemma SecondsFieldTwoDigits(s: int)
    requires 0 <= s < 60
    ensures |SecondsField(s)| == 2
    ensures IsDigits(SecondsField(s))
    ensures DigitsValue(SecondsField(s)) == s
  {
    NatToStringRoundTrip(s);
    NatToStringLength(s);
    if s < 10 {
      LeadingZerosValue(1, NatToString(s));
      assert SecondsField(s) == seq(1, _ => '0') + NatToString(s);
    }
  }

  /**
   * For a non-negative count, the text is `<digits>m <two digits>s` and reading
   * it back gives the count: minutes times sixty plus seconds.
   */
  lemma FormatTimeReadsBack(sec: nat)
    ensures var t := FormatTime(sec);
      var k := |NatToString(sec / 60)|;
      && |t| == k + 5
      && t[..k] == NatToString(sec / 60)
      && t[k..k + 2] == "m "
      && IsDigits(t[k + 2..k + 4])
      && t[k + 4] == 's'
      && DigitsValue(t[..k]) * 60 + DigitsValue(t[k + 2..k + 4]) == sec
  {
    var m, s := sec / 60, sec % 60;
    var digits, field := NatToString(m), SecondsField(s);
    SecondsFieldTwoDigits(s);
    NatToStringRoundTrip(m);
    var t := digits + "m " + field + "s";
    assert FormatTime(sec) == t;
    var k := |digits|;
    assert t[..k] == digits;
    assert t[k..k + 2] == "m ";
    assert t[k + 2..k + 4] == field;
  }

  /**
   * A well-formed day with non-negative warm-up and rest is estimated at no
   * less than its warm-up plus a second per exercise in every set.
   */
  lemma EstimateCoversEveryExercise(w: WorkoutDay)
    requires WellFormed(w) && w.warmupSeconds >= 0
    requires w.defaultRestSeconds.Some? ==> w.defaultRestSeconds.value >= 0
    ensures EstimatedSeconds(w) >= w.warmupSeconds + |w.exercises| * w.repeatSets
  {
    WorkTotalAtLeastCount(w.exercises);
    var perSet := WorkTotal(w.exercises) + RestPerSet(w.defaultRestSeconds, |w.exercises|);
    assert perSet >= |w.exercises|;
    AtLeastTimes(perSet, |w.exercises|, w.repeatSets);
  }

  /** `a >= b >= 0` keeps its order when both sides are taken `k` times. */
  lemma AtLeastTimes(a: int, b: int, k: nat)
    requires a >= b >= 0
    ensures a * k >= b * k
  {
    if k > 0 {
      AtLeastTimes(a, b, k - 1);
      assert a * k == a * (k - 1) + a;
      assert b * k == b * (k - 1) + b;
    }
  }

  /** `t` has the shape `<digits>m <two digits>s` and reads back as `sec` seconds. */
  predicate ShowsTime(t: string, sec: int) {
    var k := |t| - 5;
    && k >= 1 && IsDigits(t[..k]) && t[k..k + 2] == "m "
    && IsDigits(t[k + 2..k + 4]) && t[k + 4] == 's'
    && DigitsValue(t[..k]) * 60 + DigitsValue(t[k + 2..k + 4]) == sec
  }

  /** The estimate's text, for a non-negative estimate, reads back as the estimate in seconds. */
  lemma EstimatedTimeReadsBack(w: WorkoutDay)
    requires EstimatedSeconds(w) >= 0
    ensures ShowsTime(EstimatedTime(w), EstimatedSeconds(w))
  {
    var sec := EstimatedSeconds(w);
    assert EstimatedTime(w) == FormatTime(sec);
    FormatTimeShows(sec);
  }

  /** `FormatTimeReadsBack` in the shape `ShowsTime` states. */
  lemma FormatTimeShows(sec: nat)
    ensures ShowsTime(FormatTime(sec), sec)
  {
    FormatTimeReadsBack(sec);
    var t := FormatTime(sec);
    var k := |NatToString(sec / 60)|;
    assert |t| - 5 == k;
  }

  /** December's first day: two minutes of warm-up and two sets of five 40-second exercises with 20-second rests. */
  lemma DecemberDayOneEstimate()
    ensures EstimatedSeconds(Program(December, Day1)) == 680
    ensures EstimatedTime(Program(December, Day1)) == "11m 20s"
  {
    DecemberDayOneWork();
    assert Program(December, Day1) == DecemberDay1();
    ElevenMinutesTwenty();
  }

  lemma DecemberDayOneWork()
    ensures WorkTotal(DecemberDay1().exercises) == 200
  {
    var e := DecemberDay1().exercises;
    assert e[..1][..0] == [];
    assert WorkTotal(e[..1]) == 40;
    assert e[..2][..1] == e[..1];
    assert WorkTotal(e[..2]) == 80;
    assert e[..3][..2] == e[..2];
    assert WorkTotal(e[..3]) == 120;
    assert e[..4][..3] == e[..3];
    assert WorkTotal(e[..4]) == 160;
    assert e[..4] == e[..|e| - 1];
  }

  lemma ElevenMinutesTwenty()
    ensures FormatTime(680) == "11m 20s"
  {
    SecondsFieldTwoDigits(20);
  }
}
