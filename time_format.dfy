/** `formatTime`: the countdown's `MM:SS` display. */
module TimeFormat {
  import opened Options
  import opened KotlinText

  /** `"%02d:%02d".format(seconds / 60, seconds % 60)`, with Kotlin's truncating `/` and `%`. */
  function FormatTime(seconds: int): (r: string)
    ensures |r| >= 5
  {
    FormatZeroPadded(TruncDiv(seconds, 60), 2) + ":" + FormatZeroPadded(TruncRem(seconds, 60), 2)
  }

  /**
   * Reads a display back: at least two minute digits, a colon, and exactly
   * two second digits below 60.
   */
  function ParseClock(text: string): (r: Option<nat>)
    ensures r.Some? ==> |text| >= 5 && text[|text| - 3] == ':'
  {
    if |text| < 5 || text[|text| - 3] != ':' then None
    else
      var mm := text[..|text| - 3];
      var ss := text[|text| - 2..];
      if AllDigits(mm) && AllDigits(ss) && DigitsValue(ss) < 60
      then Some(DigitsValue(mm) * 60 + DigitsValue(ss))
      else None
  }

  /** Every non-negative number of seconds can be read back from its display. */
  lemma FormatTimeRoundTrip(seconds: nat)
    ensures ParseClock(FormatTime(seconds)) == Some(seconds)
  {
    var minutes, secs := seconds / 60, seconds % 60;
    var mm, ss := FormatZeroPadded(minutes, 2), FormatZeroPadded(secs, 2);
    var text := FormatTime(seconds);
    assert text == mm + ":" + ss;
    TwoDigits(secs);
    ZeroPaddedDigits(minutes, 2);
    ZeroPaddedDigits(secs, 2);
    assert text[..|text| - 3] == mm;
    assert text[|text| - 2..] == ss;
  }

  /** Distinct non-negative times never show the same text. */
  lemma FormatTimeInjective(s: nat, t: nat)
    requires FormatTime(s) == FormatTime(t)
    ensures s == t
  {
    FormatTimeRoundTrip(s);
    FormatTimeRoundTrip(t);
  }

  /**
   * Below 100 minutes the display is exactly five characters: two minute
   * digits, a colon at index 2, and two second digits.
   */
  lemma FormatTimeShape(seconds: nat)
    requires seconds < 6000
    ensures var minutes, secs := seconds / 60, seconds % 60;
      FormatTime(seconds) ==
        [DigitChar(minutes / 10), DigitChar(minutes % 10), ':', DigitChar(secs / 10), DigitChar(secs % 10)]
  {
    TwoDigits(seconds / 60);
    TwoDigits(seconds % 60);
  }

  /** Displays of particular values within the timer's range. */
  lemma FormatTimeExamples()
    ensures FormatTime(0) == "00:00"
    ensures FormatTime(59) == "00:59"
    ensures FormatTime(125) == "02:05"
    ensures FormatTime(180) == "03:00"
  {
    FormatTimeShape(0);
    FormatTimeShape(59);
    FormatTimeShape(125);
    FormatTimeShape(180);
    assert DigitChar(0) == '0' && DigitChar(2) == '2' && DigitChar(3) == '3';
    assert DigitChar(5) == '5' && DigitChar(9) == '9';
  }

  /** From 100 minutes on, the minute field simply grows wider. */
  lemma FormatTimeHundredMinutes()
    ensures FormatTime(6000) == "100:00"
  {
    TwoDigits(0);
    assert NatToString(10) == "10";
    assert NatToString(100) == "100";
  }

  /** Negative input keeps Kotlin's signs: `%02d` pads nothing after a minus sign. */
  lemma FormatTimeNegative()
    ensures FormatTime(-5) == "00:-5"
    ensures FormatTime(-65) == "-1:-5"
  {
    TwoDigits(0);
    assert NatToString(5) == "5";
    assert NatToString(1) == "1";
  }
}
