# Meditation app logic in Dafny

This project models the deterministic logic inside the single Jetpack Compose
file of a small meditation app (`MainActivity.kt`):

- **Note store** (`NotesViewModel`): an in-memory map from date string to
  note text, plus the note currently on display. `loadNote` shows the stored
  text, or empty text. `saveNote` upserts and shows. Modelled as the class
  `Notes.NotesViewModel`, with a `map<string, string>` field and a
  `currentNote` field.
- **Countdown timer** (`MeditationScreen`): remembered state
  `(timeLeft, isRunning)` that starts at `(180, false)`. The Start/Stop button
  flips `isRunning`. `LaunchedEffect(isRunning)` decrements `timeLeft` once a
  second while `isRunning && timeLeft > 0`, then switches the timer off if
  `timeLeft == 0`. The state machine is stated on the value type
  `Timer.TimerState` (`Toggled`, `Ticked`, `Settled`, `RunLoop`, `Effect`).
  The class `Timer.MeditationTimer` updates the two fields in place, and its
  methods are proved against those functions. `RunEffect` is the effect's
  `while` loop, proved with loop invariants.
- **`formatTime`**: `"%02d:%02d".format(s / 60, s % 60)`, with Kotlin's
  truncating `/` and `%` and Java's zero-padding rule. `TimeFormat.ParseClock`
  is its inverse. The round trip is proved for every non-negative input.
- **Motivational phrase lookup**: `date.takeLast(2).toIntOrNull() ?: 1`, then
  `motivationalPhrases.getOrNull(day - 1) ?: "Stay positive and keep going!"`.
  The table of 30 phrases is reproduced verbatim.
- **Calendar dates**: the 30 strings `2025-07-01` … `2025-07-30`. Every one
  of them is proved to select its own day's phrase and never the fallback.
- **Route argument defaults**: a missing `topic` reads as `"Unknown"`, and a
  missing `date` reads as `""`.

The library calls the logic relies on are modelled in `KotlinText`:
`takeLast`, `getOrNull`, `toIntOrNull` (optional `+`/`-` sign, 32-bit range
check), `Int.toString`, `%0<w>d`, and truncating `/` and `%`.

A date whose suffix does not parse does not get the fallback phrase:
`toIntOrNull() ?: 1` turns an unparsable suffix into day 1. So `"bad-date"`
(suffix `"te"`) and `""` both show the first phrase
(`Phrases.PhraseForUnparsable`, `Phrases.PhraseForMalformedExamples`). Only a
suffix that parses to a number outside 1..30 (`"31"`, `"00"`, `"-5"`) shows
"Stay positive and keep going!" (`Phrases.FallbackIff`).

Files: `options.dfy` (Kotlin nullability as `Option`), `kotlin_text.dfy`,
`time_format.dfy`, `timer.dfy`, `notes.dfy`, `phrases.dfy`, `calendar.dfy`,
`routes.dfy`.

## Model

| member | source | states |
|---|---|---|
| `KotlinText.TruncRem` | app/src/main/java/com/keshevv/myapplication/MainActivity.kt:526-527 | `a == b * (a / b) + a % b`, and the remainder lies in `[0, b)` for `a >= 0` and in `(-b, 0]` for `a < 0` (Kotlin's truncating division) |
| `KotlinText.TakeLast` | app/src/main/java/com/keshevv/myapplication/MainActivity.kt:152 | `takeLast(n)` is a suffix of `s` of length `min(n, |s|)`; a string shorter than `n` is returned whole |
| `KotlinText.GetOrNull` | app/src/main/java/com/keshevv/myapplication/MainActivity.kt:153 | `getOrNull(i)` is present exactly when `0 <= i < size`, and is then the element at `i` |
| `KotlinText.NatToString` | app/src/main/java/com/keshevv/myapplication/MainActivity.kt:558 | decimal rendering: at least one digit, no leading zero, reads back as `n`; one digit exactly below 10, two exactly in 10..99 |
| `KotlinText.IntToString` | app/src/main/java/com/keshevv/myapplication/MainActivity.kt:558 | `Int.toString` is non-empty and starts with `-` exactly for negative numbers |
| `KotlinText.FormatZeroPadded` | app/src/main/java/com/keshevv/myapplication/MainActivity.kt:528 | `%0<w>d` is at least `w` characters long, and all digits for a non-negative number |
| `KotlinText.ToIntOrNull` | app/src/main/java/com/keshevv/myapplication/MainActivity.kt:152 | Kotlin's branch-by-branch parser equals the grammar reading: a value exactly for an optional `+`/`-` followed by at least one digit whose value fits in 32 bits |
| `KotlinText.DigitsValueAppend` | app/src/main/java/com/keshevv/myapplication/MainActivity.kt:152 | appending digits `b` multiplies the value of the front by `10^|b|` and adds the value of `b` |
| `KotlinText.LeadingZeros` | app/src/main/java/com/keshevv/myapplication/MainActivity.kt:152 | leading zeros do not change a digit string's value, so `"03"` reads as 3 |
| `KotlinText.IntToStringRoundTrip` | app/src/main/java/com/keshevv/myapplication/MainActivity.kt:558 | `toIntOrNull` reads back every 32-bit `Int` that `toString` writes |
| `KotlinText.ZeroPaddedDigits` | app/src/main/java/com/keshevv/myapplication/MainActivity.kt:528 | `%0<w>d` of a non-negative number is all digits and reads back as that number |
| `KotlinText.ZeroPaddedRoundTrip` | app/src/main/java/com/keshevv/myapplication/MainActivity.kt:528 | `toIntOrNull` reads back every 32-bit `Int` written with `%0<w>d`, negative ones included |
| `KotlinText.TwoDigits` | app/src/main/java/com/keshevv/myapplication/MainActivity.kt:528 | `%02d` of `n < 100` is exactly the tens digit followed by the units digit |
| `KotlinText.ShortLiteralRange` | app/src/main/java/com/keshevv/myapplication/MainActivity.kt:152 | a string of at most two characters parses, if at all, to a value in -9..99, so `day - 1` never overflows |
| `KotlinText.TwoDigitParse` | app/src/main/java/com/keshevv/myapplication/MainActivity.kt:152 | two digits parse to `10 * tens + units` |
| `KotlinText.SignedDigitParse` | app/src/main/java/com/keshevv/myapplication/MainActivity.kt:152 | a sign and one digit parse to that digit, negated for `-` |
| `TimeFormat.FormatTime` | app/src/main/java/com/keshevv/myapplication/MainActivity.kt:525-529 | the display is at least five characters long, whatever the input |
| `TimeFormat.ParseClock` | app/src/main/java/com/keshevv/myapplication/MainActivity.kt:525-529 | the inverse of the display: a value only for text with a colon three characters from the end |
| `TimeFormat.FormatTimeRoundTrip` | app/src/main/java/com/keshevv/myapplication/MainActivity.kt:525-529 | for every `s >= 0`, the display reads back as minutes `* 60 +` seconds `== s`, with seconds below 60 |
| `TimeFormat.FormatTimeInjective` | app/src/main/java/com/keshevv/myapplication/MainActivity.kt:525-529 | distinct non-negative times never show the same text |
| `TimeFormat.FormatTimeShape` | app/src/main/java/com/keshevv/myapplication/MainActivity.kt:525-529 | for `0 <= s < 6000` the display is exactly five characters: two minute digits of `s / 60`, `':'` at index 2, two second digits of `s % 60` |
| `TimeFormat.FormatTimeExamples` | app/src/main/java/com/keshevv/myapplication/MainActivity.kt:525-529 | `0 -> "00:00"`, `59 -> "00:59"`, `125 -> "02:05"`, `180 -> "03:00"` |
| `TimeFormat.FormatTimeHundredMinutes` | app/src/main/java/com/keshevv/myapplication/MainActivity.kt:528 | `6000 -> "100:00"`: `%02d` widens instead of truncating |
| `TimeFormat.FormatTimeNegative` | app/src/main/java/com/keshevv/myapplication/MainActivity.kt:526-528 | negative input keeps Kotlin's signs: `-5 -> "00:-5"`, `-65 -> "-1:-5"` |
| `Timer.InitialValid` | app/src/main/java/com/keshevv/myapplication/MainActivity.kt:403-404 | the timer starts stopped at 180 seconds, inside the invariant `0 <= timeLeft <= 180` |
| `Timer.ToggleFlipsRunningOnly` | app/src/main/java/com/keshevv/myapplication/MainActivity.kt:505 | the button flips `isRunning`, never changes `timeLeft`, undoes itself when pressed twice, and keeps the invariant |
| `Timer.TickedStep` | app/src/main/java/com/keshevv/myapplication/MainActivity.kt:515-517 | a pass of the loop takes exactly one second off, stays at or above zero, keeps the timer running and keeps the invariant |
| `Timer.TicksOutcome` | app/src/main/java/com/keshevv/myapplication/MainActivity.kt:514-518 | `n` seconds of a valid running timer leave `max(timeLeft - n, 0)`; a stopped timer does not move |
| `Timer.RunLoopOutcome` | app/src/main/java/com/keshevv/myapplication/MainActivity.kt:515-518 | the loop, when its condition holds, runs down to exactly `(0, running)`; otherwise it changes nothing |
| `Timer.EffectOutcome` | app/src/main/java/com/keshevv/myapplication/MainActivity.kt:514-522 | after the effect a valid timer is stopped: at 0 if it was running, at its old time if it was not |
| `Timer.EffectStopsAtZero` | app/src/main/java/com/keshevv/myapplication/MainActivity.kt:519-521 | from any state, the effect never leaves a timer running at zero, and never makes a non-negative time negative |
| `Timer.StartAtZero` | app/src/main/java/com/keshevv/myapplication/MainActivity.kt:514-522 | pressing Start at zero runs no tick and ends stopped at zero |
| `Timer.FullSession` | app/src/main/java/com/keshevv/myapplication/MainActivity.kt:403-522 | Start on a fresh screen counts 180 ticks down to zero and ends stopped |
| `Timer.DisplayOfValid` | app/src/main/java/com/keshevv/myapplication/MainActivity.kt:497 | every reachable time shows as five characters `0M:SS` and reads back as itself |
| `Timer.MeditationTimer.constructor` | app/src/main/java/com/keshevv/myapplication/MainActivity.kt:403-404 | a new screen holds `(180, false)` |
| `Timer.MeditationTimer.Toggle` | app/src/main/java/com/keshevv/myapplication/MainActivity.kt:505 | the new state is `Toggled` of the old one; `timeLeft` is unchanged, and the invariant is kept |
| `Timer.MeditationTimer.Tick` | app/src/main/java/com/keshevv/myapplication/MainActivity.kt:515-517 | called only under the loop condition; `timeLeft` drops by one to a value `>= 0`, and the invariant is kept |
| `Timer.MeditationTimer.Settle` | app/src/main/java/com/keshevv/myapplication/MainActivity.kt:519-521 | the new state is `Settled` of the old one, and the invariant is kept |
| `Timer.MeditationTimer.RunEffect` | app/src/main/java/com/keshevv/myapplication/MainActivity.kt:514-522 | the new state is `Effect` of the old one; it waits `timeLeft` seconds exactly when the loop condition held; a valid timer ends valid and stopped |
| `Notes.NotesViewModel.constructor` | app/src/main/java/com/keshevv/myapplication/MainActivity.kt:39-40 | a new store holds no notes and shows empty text |
| `Notes.NotesViewModel.LoadNote` | app/src/main/java/com/keshevv/myapplication/MainActivity.kt:44-46 | shows the stored text, or `""` for a date never saved; the map is unchanged |
| `Notes.NotesViewModel.SaveNote` | app/src/main/java/com/keshevv/myapplication/MainActivity.kt:48-51 | the key set grows by `date` only, `date` maps to `text`, every other note is unchanged, and `text` is shown |
| `Notes.SaveThenLoad` | app/src/main/java/com/keshevv/myapplication/MainActivity.kt:44-51 | save then load of the same date shows exactly the saved text, empty text included |
| `Notes.FreshStoreExample` | app/src/main/java/com/keshevv/myapplication/MainActivity.kt:38-51 | on a fresh store a saved date reads back `"hello"` and an unsaved date reads back `""` |
| `Phrases.DayOf` | app/src/main/java/com/keshevv/myapplication/MainActivity.kt:152 | the day is in -9..99, and is 1 when the last two characters do not parse |
| `Phrases.PhraseFor` | app/src/main/java/com/keshevv/myapplication/MainActivity.kt:152-153 | every lookup returns one of the thirty phrases or the fallback |
| `Phrases.PhraseTable` | app/src/main/java/com/keshevv/myapplication/MainActivity.kt:54-85 | there are exactly 30 phrases, and the fallback is not one of them |
| `Phrases.PhraseForParsed` | app/src/main/java/com/keshevv/myapplication/MainActivity.kt:152-153 | a suffix parsing to a day in 1..30 gives that day's phrase; any other parsed number gives the fallback |
| `Phrases.PhraseForUnparsable` | app/src/main/java/com/keshevv/myapplication/MainActivity.kt:152-153 | an unparsable suffix gives the first phrase, not the fallback |
| `Phrases.FallbackIff` | app/src/main/java/com/keshevv/myapplication/MainActivity.kt:152-153 | the fallback is shown if and only if the suffix parses to a number outside 1..30 |
| `Phrases.PhraseForTwoDigits` | app/src/main/java/com/keshevv/myapplication/MainActivity.kt:152-153 | a date ending in digits `dd` shows the phrase of day `dd`, or the fallback for `00` and `31`..`99` |
| `Phrases.PhraseForDateExamples` | app/src/main/java/com/keshevv/myapplication/MainActivity.kt:152-153 | `2025-07-03` gives phrase index 2 and `2025-07-30` index 29; `2025-07-31` and `2025-07-00` give the fallback |
| `Phrases.PhraseForMalformedExamples` | app/src/main/java/com/keshevv/myapplication/MainActivity.kt:152-153 | `bad-date` and the empty string give the first phrase |
| `Phrases.PhraseForSignedExamples` | app/src/main/java/com/keshevv/myapplication/MainActivity.kt:152-153 | suffix `-5` gives the fallback; `+7` and a lone `7` give the phrase of day 7 |
| `Calendar.CalendarDates` | app/src/main/java/com/keshevv/myapplication/MainActivity.kt:555-560 | the calendar lists exactly 30 dates |
| `Calendar.DayLabelIsZeroPadded` | app/src/main/java/com/keshevv/myapplication/MainActivity.kt:558 | the calendar's `if (day < 10) "0$day" else "$day"` agrees with `%02d` for every non-negative day |
| `Calendar.CalendarDateAt` | app/src/main/java/com/keshevv/myapplication/MainActivity.kt:556-559 | date `i` is `2025-07-` and the two digits of `i + 1`, ten characters long, and its last two characters parse to `i + 1` |
| `Calendar.CalendarPhrase` | app/src/main/java/com/keshevv/myapplication/MainActivity.kt:556-559 | calendar date `i` shows phrase `i` and never the fallback |
| `Calendar.CalendarDatesDistinct` | app/src/main/java/com/keshevv/myapplication/MainActivity.kt:556-559 | no date appears twice |
| `Calendar.CalendarEnds` | app/src/main/java/com/keshevv/myapplication/MainActivity.kt:556-559 | the list runs from `2025-07-01` to `2025-07-30` |
| `Routes.ArgumentOr` | app/src/main/java/com/keshevv/myapplication/MainActivity.kt:117 | `arguments?.getString(key) ?: default` is the stored value when there is one, and the default when the bundle or the key is missing |
| `Routes.MeditationTopicDefault` | app/src/main/java/com/keshevv/myapplication/MainActivity.kt:117 | a missing topic, whether the bundle or the key is absent, reads as `"Unknown"`; a present one is passed through |
| `Routes.MissingDateShowsFirstPhrase` | app/src/main/java/com/keshevv/myapplication/MainActivity.kt:134 | a missing date reads as `""`, which the phrase screen shows as the first phrase |
| `Routes.CalendarDateShowsItsPhrase` | app/src/main/java/com/keshevv/myapplication/MainActivity.kt:126 | opening calendar date `i` through `note/{date}` shows phrase `i` |

## Left out

- Compose layout and rendering (`Scaffold`, `TopAppBar`, `LazyColumn`, `Card`, `Text`, `Canvas`): UI with no statable behaviour.
- The breathing animation and its circle radii: floating point, driven by animation time.
- Themes, colours and the topic-to-colour tables: styling only. The topic does not affect the timer.
- `NavHost`/`NavController` back-stack behaviour and route-pattern matching: these belong to a navigation library that is not part of this model. Only the two argument defaults are modelled.
- `SettingsScreen` switches: local UI booleans. Notifications are not implemented in the app.
- `NoteScreen` wiring: UI glue around `NotesViewModel`, and no route leads to it. The `note/{date}` route shows the phrase screen instead.
- Coroutine scheduling: `delay(1000)` is one discrete `Tick`. Cancelling the effect when `isRunning` changes mid-loop is not modelled as such. Interleavings are expressed by calling `Toggle` and `Settle` at any time, and `Tick` only under the loop condition. `RunEffect` is the effect run without interruption.
- Timer.MeditationTimer.Tick: requires the loop condition when the decrement happens. In the app the condition is checked once before `delay(1000)`, so a Stop pressed during the delay can still be followed by one decrement, to `(timeLeft - 1, false)`, before the effect is cancelled. That late decrement is not modelled. It cannot make `timeLeft` negative, because the condition held one delay earlier.
- KotlinText.TakeLast: counts Unicode scalar values, while Kotlin's `takeLast` and `length` count UTF-16 code units. The suffix differs for a date ending in a character outside the Basic Multilingual Plane. The phrase chosen is the same either way, because a suffix parses only when it is made of ASCII characters, which both readings count the same way.
- `StateFlow` and `collectAsState` reactivity: `currentNote` is a plain field.
- KotlinText.ToIntOrNull: accepts only the ASCII digits `0`..`9`. On the JVM, Kotlin's parser also accepts decimal digits of other scripts (`Character.digit`).
- TimeFormat.FormatTime: assumes a default locale that writes ASCII digits and `-`. `String.format` uses the default locale, which can substitute other digits.
- Routes.ArgumentOr: the argument bundle is a map from keys to strings. A key that holds a value of another type, which `getString` reports as null, is not modelled.
- Kotlin's 32-bit `Int` is unbounded here, except for the range check of `toIntOrNull`. No value in the model can overflow: the timer stays in 0..180, days stay in -9..99, and division by 60 cannot overflow.
