/** The calendar screen's fixed list of dates, July 2025, days 1 to 30. */
module Calendar {
  import opened Options
  import opened KotlinText
  import opened Phrases

  /** The year and month every calendar date starts with. */
  const MonthPrefix: string := "2025-07-"

  /** `if (day < 10) "0$day" else "$day"`. */
  function DayLabel(day: int): string {
    if day < 10 then "0" + IntToString(day) else IntToString(day)
  }

  /** `List(30) { index -> "2025-07-" + label of day index + 1 }`. */
  function CalendarDates(): (dates: seq<string>)
    ensures |dates| == 30
  {
    seq(30, i requires 0 <= i < 30 => MonthPrefix + DayLabel(i + 1))
  }

  /** For the days the calendar uses, its own padding agrees with `%02d`. */
  lemma DayLabelIsZeroPadded(day: nat)
    ensures DayLabel(day) == FormatZeroPadded(day, 2)
  {
    if day < 10 {
      assert Zeros(1) == "0";
    }
  }

  /** Date `i` is `2025-07-` followed by the two digits of day `i + 1`, ten characters in all. */
  lemma CalendarDateAt(i: nat)
    requires i < 30
    ensures CalendarDates()[i] == MonthPrefix + [DigitChar((i + 1) / 10), DigitChar((i + 1) % 10)]
    ensures |CalendarDates()[i]| == 10
    ensures ToIntOrNull(TakeLast(CalendarDates()[i], 2)) == Some(i + 1)
  {
    DayLabelIsZeroPadded(i + 1);
    TwoDigits(i + 1);
    var date := CalendarDates()[i];
    var hi, lo := DigitChar((i + 1) / 10), DigitChar((i + 1) % 10);
    assert TakeLast(date, 2) == [hi, lo];
    TwoDigitParse(hi, lo);
  }

  /** Every calendar date shows its own day's phrase and never the fallback. */
  lemma CalendarPhrase(i: nat)
    requires i < 30
    ensures PhraseFor(CalendarDates()[i]) == MotivationalPhrases[i]
    ensures PhraseFor(CalendarDates()[i]) != FallbackPhrase
  {
    CalendarDateAt(i);
    PhraseForParsed(CalendarDates()[i], i + 1);
    PhraseTable();
  }

  /** No date appears twice in the calendar. */
  lemma CalendarDatesDistinct(i: nat, j: nat)
    requires i < 30 && j < 30 && i != j
    ensures CalendarDates()[i] != CalendarDates()[j]
  {
    CalendarDateAt(i);
    CalendarDateAt(j);
  }

  /** The first and last entries. */
  lemma CalendarEnds()
    ensures CalendarDates()[0] == "2025-07-01"
    ensures CalendarDates()[29] == "2025-07-30"
  {
    CalendarDateAt(0);
    CalendarDateAt(29);
  }
}
