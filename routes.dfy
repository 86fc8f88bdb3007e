/**
 * The two route arguments the navigation graph reads, with the defaults it
 * substitutes when they are absent.
 */
module Routes {
  import opened Options
  import opened Phrases
  import opened Calendar

  /**
   * `backStackEntry.arguments?.getString(key) ?: default`: no argument
   * bundle, or no value under `key`, gives `default`.
   */
  function ArgumentOr(arguments: Option<map<string, string>>, key: string, default: string): (r: string)
    ensures arguments.Some? && key in arguments.value ==> r == arguments.value[key]
    ensures arguments.None? || key !in arguments.value ==> r == default
  {
    match arguments
    case None => default
    case Some(bundle) => if key in bundle then bundle[key] else default
  }

  /** The topic passed to the meditation screen of route `meditation/{topic}`. */
  function MeditationTopic(arguments: Option<map<string, string>>): string {
    ArgumentOr(arguments, "topic", "Unknown")
  }

  /** The date passed to the phrase screen of route `note/{date}`. */
  function NoteDate(arguments: Option<map<string, string>>): string {
    ArgumentOr(arguments, "date", "")
  }

  /** A missing topic reads as `Unknown`; a present one is passed through. */
  lemma MeditationTopicDefault(arguments: Option<map<string, string>>)
    ensures arguments.None? || "topic" !in arguments.value ==> MeditationTopic(arguments) == "Unknown"
    ensures arguments.Some? && "topic" in arguments.value ==>
      MeditationTopic(arguments) == arguments.value["topic"]
  {
  }

  /** A missing date reads as empty text, which the phrase screen shows as day 1. */
  lemma MissingDateShowsFirstPhrase(arguments: Option<map<string, string>>)
    requires arguments.None? || "date" !in arguments.value
    ensures NoteDate(arguments) == ""
    ensures PhraseFor(NoteDate(arguments)) == MotivationalPhrases[0]
  {
    PhraseForMalformedExamples();
  }

  /** Opening calendar date `i` shows the phrase of day `i + 1`. */
  lemma CalendarDateShowsItsPhrase(i: nat, arguments: Option<map<string, string>>)
    requires i < 30
    requires arguments.Some? && "date" in arguments.value
    requires arguments.value["date"] == CalendarDates()[i]
    ensures PhraseFor(NoteDate(arguments)) == MotivationalPhrases[i]
  {
    var date := CalendarDates()[i];
    assert NoteDate(arguments) == date;
    CalendarPhrase(i);
  }
}
