/**
 * The motivational phrase screen: a date's last two characters pick one of
 * thirty phrases by day of the month.
 */
module Phrases {
  import opened Options
  import opened KotlinText

  /** `motivationalPhrases`, in order: the phrase for day `d` is at index `d - 1`. */
  const MotivationalPhrases: seq<string> := [
    "Every day is a new beginning. Take a deep breath and start again.",
    "You are stronger than you think.",
    "Don't give up; great things take time.",
    "Believe in yourself and your abilities.",
    "Small steps lead to big victories.",
    "Today is the best day for new beginnings.",
    "Be grateful for every moment.",
    "Mistakes are lessons, not failures.",
    "Focus on what you can change.",
    "You are capable of more than you imagine.",
    "Keep pushing forward, no matter what.",
    "Stay positive, work hard, make it happen.",
    "Your potential is endless.",
    "Success is the sum of small efforts repeated daily.",
    "Dream it. Wish it. Do it.",
    "Believe you can and you're halfway there.",
    "Stay patient and trust your journey.",
    "Progress, not perfection.",
    "You are your only limit.",
    "Push yourself because no one else is going to do it for you.",
    "The harder you work for something, the greater you'll feel when you achieve it.",
    "Don't watch the clock; do what it does. Keep going.",
    "Great things never come from comfort zones.",
    "Dream bigger. Do bigger.",
    "Don't stop until you're proud.",
    "Work hard in silence, let success be your noise.",
    "The key to success is to focus on goals, not obstacles.",
    "Believe in your dreams and they may come true.",
    "Success doesn't just find you. You have to go out and get it.",
    "Stay focused and never give up."
  ]

  /** What `getOrNull(day - 1)` falls back to when the day is outside 1..30. */
  const FallbackPhrase: string := "Stay positive and keep going!"

  /**
   * `date.takeLast(2).toIntOrNull() ?: 1`: the day number spelled by the last
   * two characters, or 1 when they do not parse.
   */
  function DayOf(date: string): (day: int)
    ensures -9 <= day <= 99
    ensures ToIntOrNull(TakeLast(date, 2)).None? ==> day == 1
  {
    ShortLiteralRange(TakeLast(date, 2));
    ToIntOrNull(TakeLast(date, 2)).OrElse(1)
  }

  /** `motivationalPhrases.getOrNull(day - 1) ?: "Stay positive and keep going!"`. */
  function PhraseFor(date: string): (r: string)
    ensures r in MotivationalPhrases || r == FallbackPhrase
  {
    GetOrNull(MotivationalPhrases, DayOf(date) - 1).OrElse(FallbackPhrase)
  }

  /** There is one phrase for each of thirty days, and the fallback is none of them. */
  lemma PhraseTable()
    ensures |MotivationalPhrases| == 30
    ensures FallbackPhrase !in MotivationalPhrases
  {
  }

  /** A suffix that parses to a day in 1..30 selects that day's phrase; any other number selects the fallback. */
  lemma PhraseForParsed(date: string, day: int)
    requires ToIntOrNull(TakeLast(date, 2)) == Some(day)
    ensures 1 <= day <= 30 ==> PhraseFor(date) == MotivationalPhrases[day - 1]
    ensures !(1 <= day <= 30) ==> PhraseFor(date) == FallbackPhrase
  {
  }

  /** A suffix that does not parse counts as day 1: the first phrase, not the fallback. */
  lemma PhraseForUnparsable(date: string)
    requires ToIntOrNull(TakeLast(date, 2)).None?
    ensures PhraseFor(date) == MotivationalPhrases[0]
  {
  }

  /** The fallback is shown exactly when the suffix parses to a number outside 1..30. */
  lemma FallbackIff(date: string)
    ensures PhraseFor(date) == FallbackPhrase <==>
      (ToIntOrNull(TakeLast(date, 2)).Some? && !(1 <= ToIntOrNull(TakeLast(date, 2)).value <= 30))
  {
    PhraseTable();
  }

  /** A date ending in two digits `dd` gets the phrase of day `dd`, or the fallback for 00 and 31..99. */
  lemma PhraseForTwoDigits(date: string)
    requires |date| >= 2 && IsDigit(date[|date| - 2]) && IsDigit(date[|date| - 1])
    ensures var day := 10 * DigitValue(date[|date| - 2]) + DigitValue(date[|date| - 1]);
      PhraseFor(date) == if 1 <= day <= 30 then MotivationalPhrases[day - 1] else FallbackPhrase
  {
    var suffix := TakeLast(date, 2);
    assert suffix == [date[|date| - 2], date[|date| - 1]];
    TwoDigitParse(date[|date| - 2], date[|date| - 1]);
  }

  /** Lookups for calendar-shaped date strings. */
  lemma PhraseForDateExamples()
    ensures PhraseFor("2025-07-03") == MotivationalPhrases[2]
    ensures PhraseFor("2025-07-30") == MotivationalPhrases[29]
    ensures PhraseFor("2025-07-31") == FallbackPhrase
    ensures PhraseFor("2025-07-00") == FallbackPhrase
  {
    PhraseForTwoDigits("2025-07-03");
    PhraseForTwoDigits("2025-07-30");
    PhraseForTwoDigits("2025-07-31");
    PhraseForTwoDigits("2025-07-00");
  }

  /** A date string whose suffix is not a number, or an empty one, shows the first phrase. */
  lemma PhraseForMalformedExamples()
    ensures PhraseFor("bad-date") == MotivationalPhrases[0]
    ensures PhraseFor("") == MotivationalPhrases[0]
  {
    assert TakeLast("bad-date", 2) == "te";
    PhraseForUnparsable("bad-date");
    assert TakeLast("", 2) == "";
    PhraseForUnparsable("");
  }

  /** Signs are part of the number: `-5` is out of range, `+7` is day 7, a lone digit is that day. */
  lemma PhraseForSignedExamples()
    ensures PhraseFor("2025-07--5") == FallbackPhrase
    ensures PhraseFor("2025-07+7") == MotivationalPhrases[6]
    ensures PhraseFor("7") == MotivationalPhrases[6]
  {
    assert TakeLast("2025-07--5", 2) == ['-', '5'];
    SignedDigitParse('-', '5');
    PhraseForParsed("2025-07--5", -5);
    assert TakeLast("2025-07+7", 2) == ['+', '7'];
    SignedDigitParse('+', '7');
    PhraseForParsed("2025-07+7", 7);
    assert TakeLast("7", 2) == "7";
    assert "7"[..0] == [];
    PhraseForParsed("7", 7);
  }
}
