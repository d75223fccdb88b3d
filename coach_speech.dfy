/**
 * What the guided session's coach says: a phrase key picks one of a few
 * variations, `{x}` in it is replaced by the argument, and the text spoken
 * has a space added after every comma and full stop.
 */
module CoachSpeech {
  import opened Wrappers

  const GoPhrases: seq<string> := [
    "Go! Push it!",
    "Go! Stay strong!",
    "Let’s go, give me your best!",
    "Move it, you're doing great!",
    "Go! Keep that energy up!"
  ]

  const NextPhrases: seq<string> := [
    "Next up: {x}. You’ve got this.",
    "Coming up: {x}. Stay with me.",
    "Get ready for {x}. Deep breath.",
    "Next exercise: {x}. Let’s crush it.",
    "Prepare for {x}. Keep pushing."
  ]

  const RestPhrases: seq<string> := [
    "Rest. Breathe.",
    "Rest time, shake it out.",
    "Rest. You're doing awesome.",
    "Catch your breath.",
    "Rest up, you're doing great!"
  ]

  const CompletePhrases: seq<string> := [
    "Amazing work! Workout complete!",
    "Great job, that’s a wrap!",
    "You crushed it! Workout finished!",
    "Done! Awesome effort today!",
    "Workout complete. You should be proud!"
  ]

  const PrestartPhrases: seq<string> := [
    "Get ready, we’re about to start.",
    "Get set. First exercise coming up.",
    "Deep breath. We’re about to begin.",
    "Lock in. First round starting soon."
  ]

  /** The placeholder a phrase's argument replaces. */
  const Placeholder: string := "{x}"

  /** The coach's phrase lists by key; any other text has none. */
  function PhraseList(key: string): (list: Option<seq<string>>)
    ensures list.Some? ==> |list.value| >= 4
    ensures list.Some? <==> key in {"go", "next", "rest", "complete", "prestart"}
  {
    if key == "go" then Some(GoPhrases)
    else if key == "next" then Some(NextPhrases)
    else if key == "rest" then Some(RestPhrases)
    else if key == "complete" then Some(CompletePhrases)
    else if key == "prestart" then Some(PrestartPhrases)
    else None
  }

  /** `pat` stands in `s` at position `k`. */
  predicate OccursAt(s: string, pat: string, k: int) {
    0 <= k && k + |pat| <= |s| && s[k..k + |pat|] == pat
  }

  /** `s.replace(pat, rep)` with a string pattern: only the first occurrence is replaced. */
  function ReplaceFirst(s: string, pat: string, rep: string): (r: string)
    requires |pat| > 0
    ensures |r| == |s| || |r| == |s| - |pat| + |rep|
    ensures |s| < |pat| ==> r == s
    decreases |s|
  {
    if |s| < |pat| then s
    else if s[..|pat|] == pat then rep + s[|pat|..]
    else [s[0]] + ReplaceFirst(s[1..], pat, rep)
  }

  /** Without an occurrence the text is unchanged. */
  lemma {:induction false} ReplaceFirstAbsent(s: string, pat: string, rep: string)
    requires |pat| > 0
    requires forall k :: 0 <= k <= |s| - |pat| ==> !OccursAt(s, pat, k)
    ensures ReplaceFirst(s, pat, rep) == s
    decreases |s|
  {
    if |s| >= |pat| {
      assert !OccursAt(s, pat, 0);
      forall k | 0 <= k <= |s[1..]| - |pat| ensures !OccursAt(s[1..], pat, k) {
        assert !OccursAt(s, pat, k + 1);
        assert s[1..][k..k + |pat|] == s[k + 1..k + 1 + |pat|];
      }
      ReplaceFirstAbsent(s[1..], pat, rep);
      assert s == [s[0]] + s[1..];
    }
  }

  /** The first occurrence, at `k`, is replaced and the rest of the text is kept. */
  lemma {:induction false} ReplaceFirstAtFirstOccurrence(s: string, pat: string, rep: string, k: int)
    requires |pat| > 0
    requires OccursAt(s, pat, k)
    requires forall j :: 0 <= j < k ==> !OccursAt(s, pat, j)
    ensures ReplaceFirst(s, pat, rep) == s[..k] + rep + s[k + |pat|..]
    decreases k
  {
    if k == 0 {
      assert s[..0] + rep == rep;
    } else {
      assert !OccursAt(s, pat, 0);
      OccurrenceShifts(s, pat, k);
      ReplaceFirstAtFirstOccurrence(s[1..], pat, rep, k - 1);
      ReattachFirst(s, k, |pat|, rep);
    }
  }

  /** Putting the first character back in front of a split of the rest. */
  lemma ReattachFirst(s: string, k: int, n: int, rep: string)
    requires 0 < k && 0 <= n && k + n <= |s|
    ensures [s[0]] + (s[1..][..k - 1] + rep + s[1..][k - 1 + n..]) == s[..k] + rep + s[k + n..]
  {
    assert [s[0]] + s[1..][..k - 1] == s[..k];
    assert s[1..][k - 1 + n..] == s[k + n..];
  }

  /** Dropping the first character moves every occurrence one place to the left. */
  lemma OccurrenceShifts(s: string, pat: string, k: int)
    requires 0 < k && OccursAt(s, pat, k)
    requires forall j :: 0 <= j < k ==> !OccursAt(s, pat, j)
    ensures OccursAt(s[1..], pat, k - 1)
    ensures forall j :: 0 <= j < k - 1 ==> !OccursAt(s[1..], pat, j)
  {
    var t := s[1..];
    assert t[k - 1..k - 1 + |pat|] == s[k..k + |pat|];
    forall j | 0 <= j < k - 1 ensures !OccursAt(t, pat, j) {
      assert !OccursAt(s, pat, j + 1);
      assert t[j..j + |pat|] == s[j + 1..j + 1 + |pat|];
    }
  }

  /**
   * `sayPhrase(keyOrText, arg, enabled)` up to the hand-off to speech: nothing
   * when voice is off; otherwise the `pick`-th variation of a known key (the
   * text itself for any other), with a non-empty argument put in place of the
   * first `{x}`. `pick` stands for the random draw.
   */
  function SayPhrase(keyOrText: string, arg: string, enabled: bool, pick: nat): (spoken: Option<string>)
    ensures !enabled <==> spoken == None
  {
    if !enabled then None
    else
      var phrase := match PhraseList(keyOrText)
        case Some(list) => list[pick % |list|]
        case None => keyOrText;
      Some(if arg != "" then ReplaceFirst(phrase, Placeholder, arg) else phrase)
  }

  /** Text that is no phrase key is spoken as given when it has no placeholder or no argument. */
  lemma PlainTextIsSpokenAsGiven(text: string, arg: string, pick: nat)
    requires PhraseList(text) == None
    requires forall k :: 0 <= k <= |text| - 3 ==> !OccursAt(text, Placeholder, k)
    ensures SayPhrase(text, arg, true, pick) == Some(text)
  {
    if arg != "" {
      ReplaceFirstAbsent(text, Placeholder, arg);
    }
  }

  /** The part of each next-up variation before the placeholder, and the part after. */
  const NextParts: seq<(string, string)> := [
    ("Next up: ", ". You’ve got this."),
    ("Coming up: ", ". Stay with me."),
    ("Get ready for ", ". Deep breath."),
    ("Next exercise: ", ". Let’s crush it."),
    ("Prepare for ", ". Keep pushing.")
  ]

  /** Each next-up variation is its two parts around one placeholder, with no brace before it. */
  lemma NextSplit(i: int)
    requires 0 <= i < |NextPhrases|
    ensures |NextParts| == |NextPhrases|
    ensures NextPhrases[i] == NextParts[i].0 + Placeholder + NextParts[i].1
    ensures '{' !in NextParts[i].0
  {
    if i == 0 {
      NextSplit0();
    } else if i == 1 {
      NextSplit1();
    } else if i == 2 {
      NextSplit2();
    } else if i == 3 {
      NextSplit3();
    } else {
      NextSplit4();
    }
  }

  lemma NextSplit0()
    ensures NextPhrases[0] == NextParts[0].0 + Placeholder + NextParts[0].1 && '{' !in NextParts[0].0
  {
  }

  lemma NextSplit1()
    ensures NextPhrases[1] == NextParts[1].0 + Placeholder + NextParts[1].1 && '{' !in NextParts[1].0
  {
  }

  lemma NextSplit2()
    ensures NextPhrases[2] == NextParts[2].0 + Placeholder + NextParts[2].1 && '{' !in NextParts[2].0
  {
  }

  lemma NextSplit3()
    ensures NextPhrases[3] == NextParts[3].0 + Placeholder + NextParts[3].1 && '{' !in NextParts[3].0
  {
  }

  lemma NextSplit4()
    ensures NextPhrases[4] == NextParts[4].0 + Placeholder + NextParts[4].1 && '{' !in NextParts[4].0
  {
  }

  lemma ReplaceAfterBraceFreePrefix(before: string, after: string, rep: string)
    requires '{' !in before
    ensures ReplaceFirst(before + Placeholder + after, Placeholder, rep) == before + rep + after
  {
    var s := before + Placeholder + after;
    var k := |before|;
    assert s[k..k + 3] == Placeholder;
    forall j | 0 <= j < k ensures !OccursAt(s, Placeholder, j) {
      assert s[j] == before[j];
    }
    ReplaceFirstAtFirstOccurrence(s, Placeholder, rep, k);
    assert s[..k] == before;
    assert s[k + 3..] == after;
  }

  /**
   * The next-up announcement names the exercise: the spoken phrase is one of
   * the variations with the name in place of the placeholder.
   */
  lemma NextNamesTheExercise(name: string, pick: nat)
    requires name != ""
    ensures var i := pick % |NextPhrases|;
      SayPhrase("next", name, true, pick) == Some(NextParts[i].0 + name + NextParts[i].1)
  {
    var i := pick % |NextPhrases|;
    NextSplit(i);
    ReplaceAfterBraceFreePrefix(NextParts[i].0, NextParts[i].1, name);
  }

  // ---------------------------------------------------------------------
  // Pauses around punctuation
  // ---------------------------------------------------------------------

  /** `s.replace(/c/g, rep)` for a single character `c`. */
  function ReplaceAllChar(s: string, c: char, rep: string): (r: string)
    ensures c !in rep ==> c !in r
    ensures |rep| >= 1 ==> |r| >= |s|
  {
    if |s| == 0 then ""
    else (if s[0] == c then rep else [s[0]]) + ReplaceAllChar(s[1..], c, rep)
  }

  /** The text `baseSpeak` hands to speech: a space after every comma, then after every full stop. */
  function Utterance(text: string): (r: string)
    ensures |r| >= |text|
  {
    ReplaceAllChar(ReplaceAllChar(text, ',', ", "), '.', ". ")
  }

  /** Both replacements in one pass: each comma and each full stop gains a following space. */
  function PadOnce(s: string): (r: string)
    ensures |r| >= |s|
  {
    if |s| == 0 then ""
    else (if s[0] == ',' || s[0] == '.' then [s[0], ' '] else [s[0]]) + PadOnce(s[1..])
  }

  lemma {:induction false} ReplaceAllCharConcat(a: string, b: string, c: char, rep: string)
    ensures ReplaceAllChar(a + b, c, rep) == ReplaceAllChar(a, c, rep) + ReplaceAllChar(b, c, rep)
    decreases |a|
  {
    if |a| == 0 {
      assert a + b == b;
    } else {
      assert (a + b)[0] == a[0];
      assert (a + b)[1..] == a[1..] + b;
      ReplaceAllCharConcat(a[1..], b, c, rep);
    }
  }

  /**
   * The two passes give what a single pass gives: the second pass cannot see
   * the spaces the first one added, since ", " has no full stop.
   */
  lemma {:induction false} UtteranceIsSinglePass(text: string)
    ensures Utterance(text) == PadOnce(text)
    decreases |text|
  {
    if |text| > 0 {
      var head := if text[0] == ',' then ", " else [text[0]];
      var tail := ReplaceAllChar(text[1..], ',', ", ");
      assert ReplaceAllChar(text, ',', ", ") == head + tail;
      ReplaceAllCharConcat(head, tail, '.', ". ");
      assert ReplaceAllChar(", ", '.', ". ") == ", " by {
        assert ", "[1..] == " ";
        assert " "[1..] == "";
      }
      if text[0] != ',' {
        assert ReplaceAllChar([text[0]], '.', ". ") == (if text[0] == '.' then ". " else [text[0]]) by {
          assert [text[0]][1..] == "";
        }
      }
      UtteranceIsSinglePass(text[1..]);
    }
  }

  /** Drops the space right after each comma or full stop. */
  function Unpad(t: string): string
    decreases |t|
  {
    if |t| == 0 then ""
    else if (t[0] == ',' || t[0] == '.') && |t| >= 2 && t[1] == ' ' then [t[0]] + Unpad(t[2..])
    else [t[0]] + Unpad(t[1..])
  }

  /** The padding loses nothing: taking out the added spaces gives back the phrase. */
  lemma {:induction false} UtteranceRoundTrip(text: string)
    ensures Unpad(Utterance(text)) == text
  {
    UtteranceIsSinglePass(text);
    PadOnceRoundTrip(text);
  }

  lemma {:induction false} PadOnceRoundTrip(s: string)
    ensures Unpad(PadOnce(s)) == s
    decreases |s|
  {
    if |s| > 0 {
      PadOnceRoundTrip(s[1..]);
      var p := PadOnce(s);
      if s[0] == ',' || s[0] == '.' {
        assert p[2..] == PadOnce(s[1..]);
      } else {
        assert p[1..] == PadOnce(s[1..]);
      }
      assert s == [s[0]] + s[1..];
    }
  }
}
