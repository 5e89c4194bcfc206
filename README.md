# In-and-out OCR automation: time extraction and alarm delay

The app lets a user pick a photo and runs text recognition on it. It takes the
first clock time written in the text and asks for a one-shot vibration,
delayed by the parsed time plus 5 seconds minus the current time. Because the
"HH:mm" text parses to an instant on 1970-01-01, that delay is negative on any
real date, so the work does not wait for the extracted time (see Findings).
Two pieces of that flow are deterministic logic.
This project models them and proves what they do.

- **Time extraction** (`processImage`). The recognized text is searched for
  the pattern `\d{1,2}:\d{2}` with `Regex.find`. That means leftmost start,
  then the two-digit hour tried before the one-digit hour. `\d` is modelled
  as ASCII `0`-`9` (see "## Left out" for other Unicode digits). If a match
  exists, scheduling is attempted with its text. Otherwise only a "No valid time found" message is shown.
  - `TimeExtractor.FindTime` is the functional definition.
  - `TimeExtractor.ScanForTime` is a scanning loop proved equal to it.
  - `ImageProcessing.Decide` gives the branch as an `Outcome`, either `NoTime`
    or `Schedule(timeStr)`.
  - `ImageProcessing.ProcessRecognizedText` strings the two steps together.
- **Trigger delay** (`setAlarmWithWorkManager`). A calendar object is set to
  the parsed instant. Then 5 seconds are added to it. The delay given to the
  work request is that instant minus the current time.
  - `AlarmScheduling.Calendar` is modelled as a class whose instant is updated
    in place.
  - `AlarmScheduling.SetAlarm` is the computation.
  - Instants are integer milliseconds. The parsed instant and `now` are inputs.

Points where the code does something a reader might not expect:

- The code applies no hour or minute range check, so "99:99" is scheduled
  (see `OutOfRangeTimeIsAccepted` and `OutOfRangeTimeIsScheduled`).
- The code neither clamps the delay at zero nor rolls the trigger to a later
  day (see `SetAlarm` and the Findings section).
- The comment at line 172 says "Add 2 minutes". The code adds 5 seconds, and
  the model uses `OffsetMillis` = 5000.

## Model

| member | source | states |
|---|---|---|
| TimeExtractor.MatchLengthUnique | app/src/main/java/com/example/inandoutocrautomation/MainActivity.kt:136 | at one start index the one-digit and two-digit hour alternatives of `\d{1,2}:\d{2}` never both match, so the greedy choice is unambiguous |
| TimeExtractor.MatchLength | app/src/main/java/com/example/inandoutocrautomation/MainActivity.kt:136-137 | where a match starts, the returned length is a match, and it is the only length that matches there |
| TimeExtractor.LeftmostMatchFrom | app/src/main/java/com/example/inandoutocrautomation/MainActivity.kt:137 | the result is a start index at or after `from` where the pattern matches, with no match at an earlier index; None means no match at any index from `from` on |
| TimeExtractor.FindTime | app/src/main/java/com/example/inandoutocrautomation/MainActivity.kt:136-137 | a returned string is one or two ASCII digits, a colon and two ASCII digits (length 4 or 5); None exactly when the pattern matches nowhere in the text |
| TimeExtractor.FindTimeIsLeftmostMatch | app/src/main/java/com/example/inandoutocrautomation/MainActivity.kt:137 | the result is `t` if and only if `t` is the text of a match at some index with no match at any earlier index (first match wins) |
| TimeExtractor.LeftmostMatchIsFound | app/src/main/java/com/example/inandoutocrautomation/MainActivity.kt:137 | a match with no earlier match is what `find` returns |
| TimeExtractor.FindTimeIsSubstring | app/src/main/java/com/example/inandoutocrautomation/MainActivity.kt:136-137 | a returned time string is a contiguous substring of the recognized text, at an index where the pattern matches |
| TimeExtractor.TokenIsFoundWhole | app/src/main/java/com/example/inandoutocrautomation/MainActivity.kt:136-137 | every well-shaped token is returned whole, whatever numbers it holds: matching checks no hour or minute range |
| TimeExtractor.OutOfRangeTimeIsAccepted | app/src/main/java/com/example/inandoutocrautomation/MainActivity.kt:136-142 | "99:99" is returned as a match although its hour and its minute are both 99 |
| TimeExtractor.FirstMatchWinsExample | app/src/main/java/com/example/inandoutocrautomation/MainActivity.kt:137 | "at 9:05 room 3:99" yields "9:05" |
| TimeExtractor.LeadingDigitExample | app/src/main/java/com/example/inandoutocrautomation/MainActivity.kt:136-137 | a digit before the hour does not block a match: "123:45" yields "23:45" |
| TimeExtractor.TrailingDigitExample | app/src/main/java/com/example/inandoutocrautomation/MainActivity.kt:136-137 | a digit after the minutes does not block a match: "12:345" yields "12:34" |
| TimeExtractor.ScanForTime | app/src/main/java/com/example/inandoutocrautomation/MainActivity.kt:136-137 | a scan over start indices that tries the two-digit hour first returns exactly FindTime's result |
| ImageProcessing.Decide | app/src/main/java/com/example/inandoutocrautomation/MainActivity.kt:137-145 | the outcome is Schedule if and only if the pattern matches somewhere in the text; the scheduled string is well-shaped and is the text of the leftmost match |
| ImageProcessing.ProcessRecognizedText | app/src/main/java/com/example/inandoutocrautomation/MainActivity.kt:132-145 | scheduling is attempted exactly when the text holds a match; it then fails exactly when parsing fails, and otherwise fires at the parsed instant plus 5 s, reached from `now` by the delay |
| ImageProcessing.OutOfRangeTimeIsScheduled | app/src/main/java/com/example/inandoutocrautomation/MainActivity.kt:136-142 | "invalid 99:99 time" leads to scheduling "99:99", with no range check in between |
| ImageProcessing.NoColonMeansNoTime | app/src/main/java/com/example/inandoutocrautomation/MainActivity.kt:139-145 | text without a colon leads to NoTime, so no scheduling call is made |
| AlarmScheduling.Calendar.constructor | app/src/main/java/com/example/inandoutocrautomation/MainActivity.kt:165 | a new calendar holds the given clock reading |
| AlarmScheduling.Calendar.SetTime | app/src/main/java/com/example/inandoutocrautomation/MainActivity.kt:170 | after `calendar.time = parsedTime` the calendar holds the parsed instant |
| AlarmScheduling.Calendar.AddSeconds | app/src/main/java/com/example/inandoutocrautomation/MainActivity.kt:173 | adding seconds moves the instant by 1000 ms per second |
| AlarmScheduling.SetAlarm | app/src/main/java/com/example/inandoutocrautomation/MainActivity.kt:164-191 | fails exactly when parsing fails; otherwise the trigger is the parsed instant plus exactly 5000 ms, `now + delay` is the trigger, and the delay is negative exactly when the trigger precedes `now` (no clamping, no roll-forward) |
| AlarmScheduling.PassedTimeExample | app/src/main/java/com/example/inandoutocrautomation/MainActivity.kt:172-179 | 09:00 on the parsed instant's day (only 1970-01-01 for an "HH:mm" parse), read at 10:00 that day, gives the delay -3 595 000 ms |
| AlarmScheduling.EpochParsedTimeExample | app/src/main/java/com/example/inandoutocrautomation/MainActivity.kt:169-179 | 09:00 on 1970-01-01, the instant an "HH:mm" parse yields, read in October 2025, gives a delay below -10^12 ms |
| AlarmScheduling.SetAlarmNextOccurrence | app/src/main/java/com/example/inandoutocrautomation/MainActivity.kt:159-176 | corrected computation: the trigger is the first instant at or after `now` that is a whole number of days after the parsed instant plus 5 s, so the delay is never negative |
| AlarmScheduling.PassedTimeRolledForwardExample | app/src/main/java/com/example/inandoutocrautomation/MainActivity.kt:172-179 | under the corrected computation, 09:00 read at 10:00 is scheduled 82 805 000 ms ahead (23 h 5 s) |
| AlarmScheduling.EpochParsedTimeRolledForwardExample | app/src/main/java/com/example/inandoutocrautomation/MainActivity.kt:169-179 | under the corrected computation, 09:00 on 1970-01-01 read in October 2025 is scheduled at least 0 and less than one day ahead |

## Findings

| source | as written | input that shows it | evidently intended | confidence | as-written member | corrected member |
|---|---|---|---|---|---|---|
| app/src/main/java/com/example/inandoutocrautomation/MainActivity.kt:172-179 | the delay is `parsed + 5 s - now`, and nothing is done when it is negative | any text holding a time, read on any date after 1970-01-01: "09:00" parses to 09:00 on 1970-01-01, so in October 2025 the delay is below -10^12 ms and the alarm does not wait for any 09:00 | an alarm after the extracted time (comment at line 159), so the next occurrence of that time plus 5 s | medium; not executed | AlarmScheduling.EpochParsedTimeExample | AlarmScheduling.SetAlarmNextOccurrence |

The as-written computation stays in `ImageProcessing.ProcessRecognizedText`,
because that member models the code as it runs. The corrected one stands
beside it with its own proof.

## Left out

- The Compose screen, its remembered state, the image picker and the image display (`JobRegisterApp`, lines 55-104): user interface.
- The text-recognition client, its asynchronous success and failure listeners, and the image-loading exception (lines 125-131, 147-154): a vendor library and callback plumbing. The recognized text is an input string.
- Date parsing with `SimpleDateFormat("HH:mm")` (lines 164, 169): library behaviour. The parsed instant is an input: `Some(millis)`, or None when parsing throws. Lenient parsing, the epoch date that parsing yields, locales and time zones are not reproduced.
- `System.currentTimeMillis()` and the clock reading taken by `Calendar.getInstance()` (lines 165, 176): the clock is the parameter `now`. The first reading is overwritten at line 170 and does not affect the result.
- The work request, its enqueueing, `VibrationWorker` and `AlarmReceiver` (lines 107-121, 178-183, 195-200): platform scheduling and hardware. A failure thrown while enqueueing is not modelled; only a parse failure leads to `ScheduleFailed`.
- Toasts, log calls, the displayed "Extracted Time: …" string and the formatted confirmation time (lines 133, 140-141, 144, 186-187): user-facing side effects.
- TimeExtractor.IsDigit: ASCII digits only; on Android's ICU-backed regex engine `\d` also matches other Unicode decimal digits, which the model does not accept.
- AlarmScheduling.SetAlarm: does not model the 64-bit wrap-around of `Long` milliseconds, because instants near 2^63 ms do not arise.
- AlarmScheduling.Calendar.AddDays: takes every day to be 24 hours long; daylight-saving transitions are not modelled. It is used only by the corrected computation.
