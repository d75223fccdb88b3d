/**
 * The standalone countdown: a remaining-seconds counter that a one-second
 * interval decrements while running and above zero, a start/pause toggle, a
 * reset to the full duration, a beep in the last five seconds, an alarm at
 * zero, and an `mm:ss` display.
 */
module CountdownTimer {
  import opened Text

  datatype TimerCue = Quiet | Beep | Alarm

  /** The sound effect's choice for one value of `remaining`. */
  function CueFor(running: bool, remaining: int): (c: TimerCue)
    ensures c == Alarm <==> running && remaining == 0
    ensures c == Beep <==> running && 0 < remaining <= 5
  {
    if !running then Quiet
    else if 0 < remaining <= 5 then Beep
    else if remaining == 0 then Alarm
    else Quiet
  }

  /** The cues of an uninterrupted run from `from` down to zero, one per value shown. */
  function RunCues(from: nat): (cues: seq<TimerCue>)
    ensures |cues| == from + 1
  {
    if from == 0 then [CueFor(true, 0)] else [CueFor(true, from)] + RunCues(from - 1)
  }

  function CountOf(cues: seq<TimerCue>, c: TimerCue): nat {
    if |cues| == 0 then 0
    else (if cues[0] == c then 1 else 0) + CountOf(cues[1..], c)
  }

  /** A run from `from` beeps once for each of its last five seconds (fewer if shorter) and sounds the alarm once, at the end. */
  lemma {:induction false} RunCuesCount(from: nat)
    ensures CountOf(RunCues(from), Beep) == if from < 5 then from else 5
    ensures CountOf(RunCues(from), Alarm) == 1
    ensures RunCues(from)[from] == Alarm
  {
    if from > 0 {
      RunCuesCount(from - 1);
      assert RunCues(from)[1..] == RunCues(from - 1);
    }
  }

  /** The `mm:ss` text: minutes and seconds, each padded to two characters with zeros. */
  function Display(remaining: int): (t: string)
    ensures |t| >= 5 && ':' in t
  {
    var (mins, secs) := SplitMinutes(remaining);
    PadStart(IntToString(mins), 2, '0') + ":" + PadStart(IntToString(secs), 2, '0')
  }

  /**
   * `t` is at least two minute digits, a colon and exactly two second digits,
   * and reads as `minutes * 60 + seconds` seconds.
   */
  ghost predicate ShowsSeconds(t: string, total: int) {
    var k := |t| - 3;
    && k >= 2
    && t[k] == ':'
    && IsDigits(t[..k]) && IsDigits(t[k + 1..])
    && DigitsValue(t[..k]) * 60 + DigitsValue(t[k + 1..]) == total
  }

  lemma ColonSplit(mm: string, ss: string, total: int)
    requires |mm| >= 2 && |ss| == 2 && IsDigits(mm) && IsDigits(ss)
    requires DigitsValue(mm) * 60 + DigitsValue(ss) == total
    ensures ShowsSeconds(mm + ":" + ss, total)
  {
    ColonParts(mm, ss);
  }

  /** The parts of `mm:ss` around the colon, with nothing known about the digits. */
  lemma ColonParts(mm: string, ss: string)
    requires |ss| == 2
    ensures var t := mm + ":" + ss;
      |t| - 3 == |mm| && t[..|mm|] == mm && t[|mm|] == ':' && t[|mm| + 1..] == ss
  {
    var t := mm + ":" + ss;
    assert t[..|mm|] == mm;
    assert t[|mm| + 1..] == ss;
  }

  lemma DisplayShape(remaining: nat)
    ensures Display(remaining) ==
      PadStart(NatToString(remaining / 60), 2, '0') + ":" + PadStart(NatToString(remaining % 60), 2, '0')
  {
  }

  /** For a non-negative count the display reads back as the count. */
  lemma DisplayReadsBack(remaining: nat)
    ensures ShowsSeconds(Display(remaining), remaining)
  {
    var mins, secs := remaining / 60, remaining % 60;
    var mm, ss := PadStart(NatToString(mins), 2, '0'), PadStart(NatToString(secs), 2, '0');
    PaddedField(mins);
    PaddedField(secs);
    assert mins * 60 + secs == remaining;
    ColonSplit(mm, ss, remaining);
    DisplayShape(remaining);
  }

  /** A count zero-padded to two places: at least two digits, exactly two below 100, reading back as the count. */
  lemma PaddedField(n: nat)
    ensures var p := PadStart(NatToString(n), 2, '0');
      |p| >= 2 && (n < 100 ==> |p| == 2) && IsDigits(p) && DigitsValue(p) == n
  {
    NatToStringLength(n);
    PaddedNumberValue(n, 2);
  }

  class Timer {
    const durationSeconds: int
    var remaining: int
    var running: bool

    /** From a non-negative duration the counter stays between zero and the duration. */
    ghost predicate Valid()
      reads this
    {
      durationSeconds >= 0 ==> 0 <= remaining <= durationSeconds
    }

    constructor (durationSeconds: int)
      ensures this.durationSeconds == durationSeconds
      ensures remaining == durationSeconds && !running
      ensures Valid()
    {
      this.durationSeconds := durationSeconds;
      remaining := durationSeconds;
      running := false;
    }

    /** One interval tick: down by one only while running and above zero. */
    method Tick()
      requires Valid()
      modifies this`remaining
      ensures Valid()
      ensures remaining == if running && old(remaining) > 0 then old(remaining) - 1 else old(remaining)
    {
      if running && remaining > 0 {
        remaining := remaining - 1;
      }
    }

    /** The Start/Pause button: flips `running` and nothing else. */
    method ToggleRunning()
      requires Valid()
      modifies this`running
      ensures Valid()
      ensures running == !old(running)
    {
      running := !running;
    }

    /** The Reset button: stopped, full duration. */
    method Reset()
      modifies this`running, this`remaining
      ensures Valid()
      ensures !running && remaining == durationSeconds
    {
      running := false;
      remaining := durationSeconds;
    }
  }

  /** Ticking a running timer `n` times from a count of at least `n` takes exactly `n` off. */
  method TicksTakeOff(t: Timer, n: nat)
    requires t.Valid() && t.running && t.remaining >= n
    modifies t
    ensures t.Valid() && t.running
    ensures t.remaining == old(t.remaining) - n
  {
    var i := 0;
    while i < n
      invariant 0 <= i <= n
      invariant t.Valid() && t.running
      invariant t.remaining == old(t.remaining) - i
    {
      t.Tick();
      i := i + 1;
    }
  }
}
