# LPU attendance automation — a verified model of its core

The repository is a Next.js app that logs a student into the LPU UMS portal with a headless
browser and marks their attendance. It also lets them schedule that as a recurring job. This
project models the parts of it that carry logic and proves properties of them:

- **Schedule parser** (`components/jobs/new.tsx`). `parseScheduleInput` turns a phrase such as
  "10:30 pm on weekdays" into a cron-job record. The same form validates the registration number.
  Module `ScheduleInput`.
- **Job list display** (`components/jobs/index.tsx`). `getDayNames` maps weekday indices to
  letters, `getTime` builds the 12-hour "h:mm AM" text, and `sortedJobs` orders jobs newest first.
  Module `JobsView`.
- **Date helper** (`lib/helper.ts`). `formatReadableDate` checks a fourteen-digit
  "YYYYMMDDHHMMSS" stamp and splices it into "YYYY-MM-DDTHH:MM:SS" for the date constructor.
  Module `Helper`.
- **Credential framing** (`lib/crypto.ts`). A secret is stored as hex(iv) ":" hex(ciphertext).
  AES-256-CBC itself is kept abstract: a cipher and a decipher are parameters, and the round trip
  assumes only that the decipher inverts the cipher. Module `Crypto`.
- **Check-in and check-out routes** (`app/api/v1/lpu/check-in/route.ts`,
  `app/api/v1/lpu/check-out/route.ts`). Modules `Automation` (what they share), `CheckIn` and
  `CheckOut`. Each handler is an imperative `Post` method driving a `Session` object. The session
  records every browser or mail call in a log and keeps running counts of the emails sent
  and of the browser closes.

Whether a call fails, and what it throws, is decided by a `World`:

- `fails` gives the failure for each position in the call log;
- `errorDialog` says what the error-dialog probe finds;
- `decrypt` gives what `decrypt` returns for each stored secret.

`DecryptsWith` ties that field to `Crypto.Decrypt` under a given key and decipher.

Each handler is proved to make exactly the calls of, and end exactly as, a pure reference
function `Expected`. Its properties are then proved about that function:

- validation happens before any resource is taken;
- the browser is closed on every path;
- only one wait's failure is swallowed;
- which status answers which world;
- which emails go out;
- the order of the navigation steps;
- the password typed is the decrypted one (check-in) or the raw one (check-out).

The library modules are `Wrappers` (Option, Result), `Text` (the JavaScript string built-ins used:
`toLowerCase`, `trim`, `includes`, `padStart`, number to string) and `Seqs` (facts about sequences).

## Model

| member | source | states |
|---|---|---|
| ScheduleInput.ParseScheduleInput | components/jobs/new.tsx:224-281 | The record built step by step (default record, time block, weekday block) is exactly `ParseSchedule(input)`. |
| ScheduleInput.ParseSchedule | components/jobs/new.tsx:225-233 | Timezone "Asia/Kolkata", expiresAt 0, and mdays and months [-1] whatever the input. |
| ScheduleInput.ApplyTime | components/jobs/new.tsx:241-251 | On a time match, hours and minutes become the one scheduled hour and minute and nothing else changes. Without a match the record is unchanged. |
| ScheduleInput.ApplyWeekdays | components/jobs/new.tsx:253-278 | From the default [-1], wdays becomes the keyword or day-name list of the normalised input and nothing else changes. |
| ScheduleInput.FindDigit | components/jobs/new.tsx:238-239 | The match starts at the leftmost digit at or after a position. None means no digit there. |
| ScheduleInput.SkipSpaces | components/jobs/new.tsx:238 | `\s*` consumes exactly the run of JavaScript whitespace and stops at a non-space or the end. |
| ScheduleInput.Normalize | components/jobs/new.tsx:235 | The normalised text is no longer than the input and neither starts nor ends with whitespace. |
| ScheduleInput.MatchAt | components/jobs/new.tsx:238 | One or two hour digits, two exactly when the next character is a digit. Minutes are present exactly when ':' and two digits follow. Both are digit runs taken from the text. After them and any whitespace, the meridiem is "am" when the text goes on with "am", else "pm" when it goes on with "pm", else absent. |
| ScheduleInput.MatchTime | components/jobs/new.tsx:239-241 | The time expression fails to match exactly when the text holds no digit. |
| ScheduleInput.MatchedDays | components/jobs/new.tsx:261-273 | Strictly ascending indices in 0..6. An index is present exactly when its weekday name occurs in the text. |
| ScheduleInput.WeekdaysCases | components/jobs/new.tsx:254-278 | "weekdays" beats "weekends", which beats "every day". Otherwise the matched names are used, or [-1] when none matched. |
| ScheduleInput.ScheduledHour | components/jobs/new.tsx:242-247 | Without a meridiem, or for an hour above 12, the hour is kept as written. With "am" the hours 1..12 land in 0..11 and with "pm" in 12..23, the same modulo 12. Hour 0 stays 0 with "am" and becomes 12 with "pm". |
| ScheduleInput.ParsedHour | components/jobs/new.tsx:238-249 | For the first match of any input, hours is the one-element list of: the hour plus 12 for "pm" below 12, 0 for "12 am", and the written hour otherwise, with no range check ("25" stays 25). |
| ScheduleInput.MeridianRule | components/jobs/new.tsx:238-247 | The same rule read off the text: the hour moves by whether "pm" or "am" follows the digits and the optional minutes after any whitespace. |
| ScheduleInput.WeekdaysOf | components/jobs/new.tsx:253-278 | The weekday list of a normalised text is strictly ascending, and is either [-1] or a non-empty list of indices in 0..6. |
| ScheduleInput.TimeFieldsOf | components/jobs/new.tsx:249-250 | A matched time stores the singleton lists of its hour and minute. |
| ScheduleInput.NormalizeKeepsDigits | components/jobs/new.tsx:235 | Lower-casing and trimming neither add nor remove a digit. |
| ScheduleInput.NoDigitNoTime | components/jobs/new.tsx:238-251 | Hours and minutes are both empty exactly when the input has no digit. Otherwise each is a singleton. |
| ScheduleInput.WeekdaysShape | components/jobs/new.tsx:253-278 | The full case analysis of wdays: keyword lists, [-1] when no name matches, otherwise ascending in-range indices of exactly the names present. |
| ScheduleInput.WeekdaysInRange | components/jobs/new.tsx:261-277 | wdays is [-1] or a list of valid weekday indices. |
| ScheduleInput.CaseInsensitive | components/jobs/new.tsx:235-238 | Upper-casing the input does not change the parsed schedule. |
| ScheduleInput.SurroundingSpaceIgnored | components/jobs/new.tsx:235 | Whitespace before and after the phrase does not change the parsed schedule. |
| ScheduleInput.ValidateRegNo | components/jobs/new.tsx:170-178 | A length other than 8 gives the length message first. An 8-character non-number gives the number message. Accepted exactly when the length is 8 and the value is a number. |
| Text.LowerShape | components/jobs/new.tsx:235 | Lower-casing leaves no upper-case ASCII letter and keeps every other character in place. |
| Text.Trim | components/jobs/new.tsx:235 | The trimmed text is no longer than the input and neither starts nor ends with whitespace. |
| Text.ContainsAt | components/jobs/new.tsx:254-272 | `includes` holds exactly when the searched text occurs in the text at some position. |
| Text.TrimStartShape | components/jobs/new.tsx:235 | Trimming the front removes exactly a leading run of whitespace and leaves a suffix starting with a non-space. |
| Text.TrimEndShape | components/jobs/new.tsx:235 | Trimming the back removes exactly a trailing run of whitespace and leaves a prefix ending with a non-space. |
| Text.PadStart | components/jobs/index.tsx:45 | The result is at least `width` long, ends with the input and is filled in front with the pad character. |
| JobsView.DayLetter | components/jobs/index.tsx:29-37 | A letter exists exactly for the indices 0..6. |
| JobsView.GetDayNames | components/jobs/index.tsx:28-40 | One entry per day, in order, each the lookup of that day. |
| JobsView.DayLetterIsInitial | components/jobs/index.tsx:29-37 | Each letter is the capitalised initial of the weekday name at the same index in the parser's table. |
| JobsView.ParsedDaysDisplay | components/jobs/index.tsx:39 | A parsed "every day" list [-1] shows no letter; every other parsed list shows a letter for each entry. |
| JobsView.JsRem | components/jobs/index.tsx:44 | JavaScript `%`: the remainder lies strictly between -12 and 12 and agrees with the mathematical one on non-negative hours. |
| JobsView.GetTime | components/jobs/index.tsx:42-46 | The text has at least seven characters with a space before the last two, and ends in "AM" exactly when hours < 12 and in "PM" exactly when hours >= 12. |
| JobsView.GetTimeOfLists | components/jobs/index.tsx:190 | Called with the parser's lists, as the job list does: two empty lists display "12:00 AM", and one-element lists display like their elements. |
| JobsView.ShownTime | components/jobs/index.tsx:190 | For every phrase, the job's time cell is "12:00 AM" when the phrase has no digit, and otherwise the 12-hour text of the one stored hour and minute. |
| JobsView.DisplayHourRange | components/jobs/index.tsx:44 | For non-negative hours the shown hour is in 1..12 and congruent to the hour modulo 12. |
| JobsView.MinutesPadded | components/jobs/index.tsx:45 | Minutes below 10 get a leading '0'; larger ones are their decimal text. |
| JobsView.GetTimePieces | components/jobs/index.tsx:42-46 | For a valid time the text is hour digits (1-2), ':', two minute digits, ' ', meridiem, and the digits denote the shown hour and the minute. |
| JobsView.MatchTimeText | components/jobs/new.tsx:238-239 | The parser's time expression matches "h:mm am/pm" exactly as hour digits, minute digits and meridiem. |
| JobsView.DisplayTextParses | components/jobs/index.tsx:42-46 | Lower-cased display text parses to the original hour and minute with no weekday. |
| JobsView.GetTimeParsesBack | components/jobs/index.tsx:42-46 | Round trip: parsing `getTime(h, m)` for 0 <= h <= 23 and 0 <= m <= 59 gives hours [h], minutes [m] and wdays [-1]. |
| JobsView.SortNewestFirst | components/jobs/index.tsx:60-64 | The array is sorted in place so that createdAt never increases along it, and holds the same jobs as before. |
| JobsView.InsertNewest | components/jobs/index.tsx:61-63 | One insertion step: from a sorted prefix of length i, the prefix of length i + 1 is sorted, the jobs after position i are untouched, and the array is a permutation of the old one. |
| Helper.FormatReadableDate | lib/helper.ts:1-11 | Fails with "Invalid format" exactly when the input is not fourteen ASCII digits. Otherwise it gives a 19-character string. |
| Helper.Slices | lib/helper.ts:4-9 | The six slices have widths 4, 2, 2, 2, 2, 2. |
| Helper.SlicesJoinBack | lib/helper.ts:4-9 | The six slices are consecutive and together give back the input. |
| Helper.IsoLayout | lib/helper.ts:11 | Separators '-', '-', 'T', ':', ':' sit at positions 4, 7, 10, 13, 16, and between them lie the input's digit fields in order. |
| Helper.SeparatorsRemovedGiveInput | lib/helper.ts:2-11 | Deleting the separators from the built string gives back the original stamp. |
| Helper.NoCalendarCheck | lib/helper.ts:2-11 | Month 13, day 40, hour 25 and minute 61 pass through unchecked. |
| Helper.MalformedRejected | lib/helper.ts:2 | Thirteen digits, or an embedded '-', are rejected with "Invalid format". |
| Crypto.HexValue | lib/crypto.ts:16-17 | A hex digit of either case has a value below 16, and every lower-case digit has one. |
| Crypto.HexEncode | lib/crypto.ts:11 | Two lower-case hex digits per byte. |
| Crypto.HexDecode | lib/crypto.ts:16-17 | Decodes at most half the length of the text; HexDecodePairs gives the bytes. |
| Crypto.HexDecodePairs | lib/crypto.ts:16-17 | Byte i is the value of the hex pair (either case) at position 2i, and decoding stops at the first position that is not a hex pair or where only one digit is left. |
| Crypto.HexDecodeByte | lib/crypto.ts:16-17 | Byte i of the decoding is the value of the hex pair at position 2i. |
| Crypto.HexDecodeStops | lib/crypto.ts:16-17 | Where decoding stops with two or more digits left, those two digits are not a hex pair. |
| Crypto.HexRoundTrip | lib/crypto.ts:11-17 | Decoding the hex encoding of any bytes gives the bytes back. |
| Crypto.Split | lib/crypto.ts:15 | `split` always yields at least one piece. |
| Crypto.SplitWithoutSeparator | lib/crypto.ts:15 | Text without the separator splits into itself alone. |
| Crypto.SplitAround | lib/crypto.ts:15 | A separator between two texts splits into the pieces of each. |
| Crypto.Encrypt | lib/crypto.ts:7-12 | Fails with the key-length error exactly when the key is not 32 bytes. |
| Crypto.Decrypt | lib/crypto.ts:14-28 | Without a second piece it throws the missing-ciphertext error. An IV that does not decode to 16 bytes throws the IV error. |
| Crypto.EncryptedShape | lib/crypto.ts:11 | The stored form is 32 lower-case hex digits, one ':' and a ciphertext part with no further ':'. |
| Crypto.FramingRoundTrip | lib/crypto.ts:11-17 | The stored form splits into exactly two pieces that decode to the IV and the ciphertext bytes. |
| Crypto.DecryptEncrypt | lib/crypto.ts:7-28 | Round trip: with a 32-byte key, a 16-byte IV and a decipher that inverts the cipher, decrypting what encrypt produced gives the text back. |
| Crypto.ExtraPiecesIgnored | lib/crypto.ts:15 | Anything after a second ':' does not change what decrypt does. |
| Crypto.NoSeparatorFails | lib/crypto.ts:15-17 | A secret without ':' always throws the missing-ciphertext error. |
| Crypto.WrongKeyLengthFails | lib/crypto.ts:9-22 | A key that is not 32 bytes makes encrypt fail, and makes decrypt fail on every well-framed secret. |
| Automation.ErrorText | app/api/v1/lpu/check-in/route.ts:156 | The mailed text is the Error's message, or "Unknown error" for a thrown non-Error. |
| Automation.DecryptFailure | app/api/v1/lpu/check-in/route.ts:54 | The decrypt step throws exactly when the world's decrypt fails, and then throws an Error carrying the runtime's message. |
| Automation.Run | app/api/v1/lpu/check-in/route.ts:22-147 | A run makes at most the planned calls, and all of them when nothing escapes. |
| Automation.RunPrefix | app/api/v1/lpu/check-in/route.ts:22-147 | The calls made are a prefix of the plan. |
| Automation.RunEndsAtAbort | app/api/v1/lpu/check-in/route.ts:22-147 | A run cut short ends with the step that failed without being swallowed, and what escapes is that step's failure. |
| Automation.RunCleanBefore | app/api/v1/lpu/check-in/route.ts:22-147 | Every step made before the last one did not abort. |
| Automation.RunCompletes | app/api/v1/lpu/check-in/route.ts:22-147 | The try block completes exactly when no planned step aborts. |
| Automation.RunAppend | app/api/v1/lpu/check-in/route.ts:22-147 | A run of two pieces is the first piece's run, followed by the second's when the first completed. |
| Automation.RunReaches | app/api/v1/lpu/check-in/route.ts:22-147 | When a call is made that is absent from a prefix of the plan, that whole prefix was made and none of its steps aborted. |
| Automation.RunPastFront | app/api/v1/lpu/check-in/route.ts:22-147 | When a call absent from the front of the plan is made, the front was made cleanly and the call belongs to the rest. |
| Automation.RunCutShort | app/api/v1/lpu/check-in/route.ts:22-147 | A try block that throws made a non-empty prefix of the plan ending at the aborting step. |
| Automation.Finally | app/api/v1/lpu/check-in/route.ts:160-164 | `finally` appends one more close to the log. |
| Automation.CatchFinally | app/api/v1/lpu/check-in/route.ts:148-164 | Whatever the try block left, the log after `catch` and `finally` is non-empty and ends with a close. |
| Automation.CaughtLog | app/api/v1/lpu/check-in/route.ts:148-164 | After a throw the log gains the failure mail and then the close, and the answer is 500 exactly when both succeed. |
| Automation.LaunchFailureEscapes | app/api/v1/lpu/check-in/route.ts:18-21 | A failing launch, outside the `try`, escapes with nothing else done: no close, no mail. |
| Automation.HandleShape | app/api/v1/lpu/check-in/route.ts:18-164 | The log is launch, the calls made, then either the final close, or the failure mail with the thrown text and the final close. It starts with the launch and ends with a close. |
| Automation.HandleOutcome | app/api/v1/lpu/check-in/route.ts:148-164 | A failing final close wins. Otherwise a completed try answers with its response. A thrown one answers 500, unless the failure mail itself throws. |
| Automation.CatchFinallyOutcome | app/api/v1/lpu/check-in/route.ts:148-164 | The same outcome rules for the catch and finally blocks after any log. |
| Automation.HandleLogs | app/api/v1/lpu/check-in/route.ts:137-164 | The emails are those of the calls made plus the failure mail when the try threw. The closes are those made plus one. A successful final close leaves the browser shut. |
| Automation.MadeInTry | app/api/v1/lpu/check-in/route.ts:22-147 | A browser step of the log, other than launch, mail and close, was made by the try block, so the launch succeeded. |
| Automation.UnplannedNotMade | app/api/v1/lpu/check-in/route.ts:22-164 | A browser step that is not in the plan never occurs in the log. |
| Automation.MadeAfterLaunch | app/api/v1/lpu/check-in/route.ts:18-147 | The calls the try block made follow the launch in the log. |
| Automation.HandleLastStepFails | app/api/v1/lpu/check-in/route.ts:139-159 | When the last planned step (the mail) throws, the failure is mailed too. The route answers 500 exactly when that mail and the final close succeed. |
| Automation.Session.Invoke | app/api/v1/lpu/check-in/route.ts:24-162 | One awaited call: it is appended to the log. Its result is the world's for that position. The email log grows by its email, and the close count by one for a close. |
| Automation.Session.Perform | app/api/v1/lpu/check-in/route.ts:24-137 | A planned step: it is logged, and a failure ends the current piece with the log equal to the piece's run. Success moves to the next step. |
| Automation.Session.PerformCaught | app/api/v1/lpu/check-in/route.ts:41-45 | The swallowed wait: it is logged, and the piece always moves on. |
| Automation.OpenLoginSteps | app/api/v1/lpu/check-in/route.ts:23-32 | The calls made are exactly the run of the plan: grant geolocation, open a tab, load the login page (60 s). |
| Automation.TypeUserSteps | app/api/v1/lpu/check-in/route.ts:35-38 | The calls made are exactly the run: type the registration number with a 100 ms delay, focus, click login. |
| Automation.SettleSteps | app/api/v1/lpu/check-in/route.ts:41-51 | The calls made are exactly the run: the swallowed 10 s navigation wait, then the 10 s wait for the password field. |
| Automation.EnterUserSteps | app/api/v1/lpu/check-in/route.ts:35-51 | The user-name entry and the settling as one run. |
| Automation.ConnectSteps | app/api/v1/lpu/check-in/route.ts:23-51 | Everything before the password as one run. |
| Automation.SubmitSteps | app/api/v1/lpu/check-in/route.ts:57-63 | The calls made are exactly the run: click with the 30 s navigation wait (one step), then probe for the error dialog. |
| Automation.DialogSteps | app/api/v1/lpu/check-in/route.ts:65-82 | The calls made are exactly the run: read the dialog text, close, mail "Invalid credentials". The details returned are the dialog text. |
| Automation.MarkSteps | app/api/v1/lpu/check-in/route.ts:105-135 | The calls made are exactly the run: wait for the dropdown, select "P", wait for the button, click it. |
| Automation.FinishSteps | app/api/v1/lpu/check-in/route.ts:137-143 | The calls made are exactly the run: close, then mail the success. |
| Automation.MarkAndFinishSteps | app/api/v1/lpu/check-in/route.ts:105-143 | Marking and finishing as one run. |
| Automation.Conclude | app/api/v1/lpu/check-in/route.ts:148-164 | The catch and finally blocks: the new log and outcome are exactly `CatchFinally` of the old log and the try's completion. |
| Automation.DialogPlanLogs | app/api/v1/lpu/check-in/route.ts:65-77 | The dialog branch closes once and mails one "Invalid credentials" email. |
| Automation.FinishPlanLogs | app/api/v1/lpu/check-in/route.ts:137-143 | The success branch closes once and mails one success email. |
| Automation.PlanLogs | app/api/v1/lpu/check-in/route.ts:63-143 | A whole plan closes once and mails one email: the credentials failure with the dialog, the success without. |
| Automation.Route | app/api/v1/lpu/check-in/route.ts:11-21 | No call at all is made exactly when the registration number or the password is missing, and then the answer is 400. |
| Automation.RouteValidation | app/api/v1/lpu/check-in/route.ts:11-21 | The answer is 400 exactly when the registration number or password is absent or empty. Then nothing is called; otherwise the first call is the launch. |
| Automation.RouteStatuses | app/api/v1/lpu/check-in/route.ts:11-164 | A response is 400, 401, 500 or 200; 401 only with the error dialog; 200 only without it. |
| Automation.RouteClosesBrowser | app/api/v1/lpu/check-in/route.ts:160-164 | After a launch the log ends with a close, which shuts the browser when it succeeds. There are one or two closes. |
| Automation.HandleClosesBrowser | app/api/v1/lpu/check-in/route.ts:160-164 | The same for any plan that closes once. |
| Automation.CleanRunAnswers | app/api/v1/lpu/check-in/route.ts:144-147 | The route answers its own 200/401 response exactly when the launch, every planned step and the final close succeed. |
| Automation.HandleAnswers | app/api/v1/lpu/check-in/route.ts:148-164 | For any response other than 500, it is answered exactly on a clean run. |
| Automation.CleanRunLogs | app/api/v1/lpu/check-in/route.ts:137-164 | On a clean run the log is launch, plan, close. Exactly one email goes out (success, or credentials failure) and the browser is closed twice. |
| Automation.RouteSucceeds | app/api/v1/lpu/check-in/route.ts:135-147 | Without the dialog: 200 with the success message exactly on a clean run, which mails one success email and closes twice. |
| Automation.RouteRejectsCredentials | app/api/v1/lpu/check-in/route.ts:63-82 | With the dialog: 401 with its text exactly on a clean run, which mails one "Invalid credentials" email and closes twice. |
| Automation.HandleCaught | app/api/v1/lpu/check-in/route.ts:148-159 | A thrown try logs the calls made, the failure mail and the close. The answer is 500 exactly when that mail and close succeed. |
| Automation.RouteServerError | app/api/v1/lpu/check-in/route.ts:148-164 | The same for a whole route whose plan throws. |
| Automation.NotificationFails | app/api/v1/lpu/check-in/route.ts:139-158 | When the route's own mail (the last step) throws, two emails go out: that one, then the failure mail with its error. |
| Automation.NotificationFailureAnswer | app/api/v1/lpu/check-in/route.ts:139-164 | In that case the answer is 500 exactly when the failure mail and the final close succeed. |
| Automation.OneSwallowedStep | app/api/v1/lpu/check-in/route.ts:41-51 | In the plan only the seventh step is swallowed: the wait right after clicking login with the user name, followed by the password-field wait. |
| Automation.RouteReaches | app/api/v1/lpu/check-in/route.ts:18-147 | When a browser step occurs in the log, the launch and every planned step before it occur first, in order. |
| CheckIn.PasswordSteps | app/api/v1/lpu/check-in/route.ts:54 | The calls made are exactly the run: decrypt the stored secret, then type its plain text with a 100 ms delay. |
| CheckIn.LoginSteps | app/api/v1/lpu/check-in/route.ts:23-63 | The calls made are exactly the run of the login plan. |
| CheckIn.OpenAttendanceSteps | app/api/v1/lpu/check-in/route.ts:84-103 | The calls made are exactly the run: new tab, geolocation, load the attendance page (30 s); no dialog handler. |
| CheckIn.AfterLoginSteps | app/api/v1/lpu/check-in/route.ts:63-147 | The calls made are exactly the run of the dialog branch or of the attendance branch. The response is 401 with the dialog text or 200 "Check-in successful". |
| CheckIn.TryBlock | app/api/v1/lpu/check-in/route.ts:22-147 | The log grows by exactly the run of the whole plan, and the completion is that run's. |
| CheckIn.Post | app/api/v1/lpu/check-in/route.ts:8-165 | The handler makes exactly the calls of `Expected` and ends with its outcome. The email log and the close count match the calls. |
| CheckIn.RejectsMissingFields | app/api/v1/lpu/check-in/route.ts:11-16 | 400 exactly when a required field is missing, and then nothing is called. |
| CheckIn.SucceedsWhenClean | app/api/v1/lpu/check-in/route.ts:135-147 | Without the dialog: 200 exactly on a clean run, with one success email and two closes. |
| CheckIn.RejectsCredentials | app/api/v1/lpu/check-in/route.ts:63-82 | With the dialog: 401 with its text exactly on a clean run, with one credentials email and two closes. |
| CheckIn.AlwaysCloses | app/api/v1/lpu/check-in/route.ts:160-164 | After a launch the last call is a close that shuts the browser when it succeeds, with one or two closes in all. |
| CheckIn.PasswordIsDecrypted | app/api/v1/lpu/check-in/route.ts:54 | Whatever is typed into the password field is what decrypt returned for the stored secret. |
| CheckIn.UndecryptableFails | app/api/v1/lpu/check-in/route.ts:54 | A secret that does not decrypt never leads to the 200/401 answer. |
| CheckIn.StoredPasswordTyped | app/api/v1/lpu/check-in/route.ts:54 | For a secret produced by encrypt under the route's key, the typed password is the original text. |
| CheckIn.NoDialogHandler | app/api/v1/lpu/check-in/route.ts:86-88 | Check-in never registers a dialog handler (the code for it is commented out). |
| CheckIn.AttendanceLoadedLast | app/api/v1/lpu/check-in/route.ts:84-103 | The attendance page is loaded only after the launch, the whole login, the new tab and the geolocation, in that order. |
| CheckIn.MarkedInOrder | app/api/v1/lpu/check-in/route.ts:105-135 | The mark button is clicked only after the login, the attendance page, the dropdown wait, the "P" selection and the button wait, in that order. |
| CheckIn.OnlyRefreshSwallowed | app/api/v1/lpu/check-in/route.ts:41-51 | Only the seventh planned step is swallowed, and the wait for the password field follows it. |
| CheckIn.NoAttendanceOnDialog | app/api/v1/lpu/check-in/route.ts:65-82 | With the error dialog, the attendance page is never loaded. |
| CheckIn.Statuses | app/api/v1/lpu/check-in/route.ts:11-164 | Answers are 400, 401, 500 or 200; 401 only with the dialog; 200 only without it. |
| CheckIn.NotificationFailureMailed | app/api/v1/lpu/check-in/route.ts:137-158 | When the outcome mail throws, a second, failure email follows it. |
| CheckOut.PasswordSteps | app/api/v1/lpu/check-out/route.ts:56 | The calls made are exactly the run: type the password as received, with a 100 ms delay. |
| CheckOut.LoginSteps | app/api/v1/lpu/check-out/route.ts:25-65 | The calls made are exactly the run of the login plan. |
| CheckOut.OpenAttendanceSteps | app/api/v1/lpu/check-out/route.ts:87-106 | The calls made are exactly the run: new tab, accept-all dialog handler, geolocation, load the attendance page (30 s). |
| CheckOut.AfterLoginSteps | app/api/v1/lpu/check-out/route.ts:65-155 | The calls made are exactly the run of the dialog branch or of the attendance branch. The response is 401 with the dialog text or 200 "Check-out successful". |
| CheckOut.TryBlock | app/api/v1/lpu/check-out/route.ts:24-155 | The log grows by exactly the run of the whole plan, and the completion is that run's. |
| CheckOut.Post | app/api/v1/lpu/check-out/route.ts:9-172 | The handler makes exactly the calls of `Expected` and ends with its outcome. The email log and the close count match the calls. |
| CheckOut.RejectsMissingFields | app/api/v1/lpu/check-out/route.ts:12-17 | 400 exactly when a required field is missing, and then nothing is called. |
| CheckOut.SucceedsWhenClean | app/api/v1/lpu/check-out/route.ts:143-155 | Without the dialog: 200 exactly on a clean run, with one "Check-out successfully" email and two closes. |
| CheckOut.RejectsCredentials | app/api/v1/lpu/check-out/route.ts:65-84 | With the dialog: 401 with its text exactly on a clean run, with one credentials email and two closes. |
| CheckOut.AlwaysCloses | app/api/v1/lpu/check-out/route.ts:168-172 | After a launch the last call is a close that shuts the browser when it succeeds, with one or two closes in all. |
| CheckOut.PasswordPlanTyped | app/api/v1/lpu/check-out/route.ts:56 | The only password typing in the plan types the request's password unchanged. |
| CheckOut.PasswordTypedRaw | app/api/v1/lpu/check-out/route.ts:56 | Whatever is typed into the password field is the request's password, with the 100 ms delay. |
| CheckOut.NoAttendanceOnDialog | app/api/v1/lpu/check-out/route.ts:67-84 | With the error dialog, the attendance page is never loaded. |
| CheckOut.AttendanceLoadedLast | app/api/v1/lpu/check-out/route.ts:87-106 | The attendance page is loaded only after the launch, the login, the new tab, the dialog handler and the geolocation, in that order. |
| CheckOut.DialogHandlerBeforeNavigation | app/api/v1/lpu/check-out/route.ts:89-106 | Whenever the attendance page is loaded, the dialog handler was registered before it. |
| CheckOut.MarkedInOrder | app/api/v1/lpu/check-out/route.ts:109-143 | The mark button is clicked only after the login, the attendance page, the dropdown wait, the "P" selection and the button wait, in that order. |
| CheckOut.OnlyRefreshSwallowed | app/api/v1/lpu/check-out/route.ts:43-53 | Only the seventh planned step is swallowed, and the wait for the password field follows it. |
| CheckOut.Statuses | app/api/v1/lpu/check-out/route.ts:12-172 | Answers are 400, 401, 500 or 200; 401 only with the dialog; 200 only without it. |
| CheckOut.NotificationFailureMailed | app/api/v1/lpu/check-out/route.ts:145-166 | When the outcome mail throws, a second, failure email follows it. |

### Behaviour of the routes worth knowing

Both handlers have the same shape, and the model follows it. Lines are given as check-in
route.ts / check-out route.ts.

- The browser is closed twice on the success and rejection paths: once inside the `try`
  (67 and 137 / 69 and 145) and again in `finally` (160-164 / 168-172). `CleanRunLogs` proves
  two closes on a clean run.
- A success or rejection mail that throws (69-77 and 139-143 / 71-79 and 147-151) is caught like
  any other failure: the answer becomes 500 and a second, failure email is sent.
  `NotificationFails` proves the second email, and `NotificationFailureAnswer` the 500.
- A failure mail that throws in the `catch` block (150-158 / 158-166) escapes the handler after
  the final close, unless that close throws instead. `HandleOutcome` states this outcome.
- Neither handler checks that the portal is reachable before `puppeteer.launch` (18-21 / 19-22).
  An unreachable portal shows up as a failing login-page load (29-32 / 31-34), which is caught
  and answered 500 (`RouteServerError`).

## Left out

- React components, formik state, toasts and the fetch calls of the job pages: UI only.
- ScheduleInput.ValidateRegNo: `isNaN(Number(value))` is a boolean parameter. JavaScript's number
  coercion (whitespace, hex and exponent forms) is not modelled.
- ScheduleInput.ValidateRegNo: `value.length` counts UTF-16 code units, the model counts characters,
  so a value with a character outside the Basic Multilingual Plane is measured differently.
- Text.ToLower: only ASCII letters are mapped. Non-ASCII case mapping and UTF-16 code-unit lengths
  are not modelled.
- JobsView.GetTimeOfLists: lists of two or more elements, which JavaScript turns into NaN, are
  outside its precondition. The parser never stores them.
- JobsView.GetTime: hours and minutes that are not integers are not modelled.
- JobsView.SortNewestFirst: the order is proved, but not the stability of the engine's sort, and
  timestamps are integers rather than parsed dates. NaN dates are not modelled.
- `isExpired` and the `toLocaleString` in `formatReadableDate`: they depend on the clock, the local
  time zone and the locale. Helper.FormatReadableDate stops at the string handed to the date
  constructor.
- Crypto: AES-256-CBC, PKCS#7 padding, UTF-8 encoding and `randomBytes` are abstract. The IV is a
  parameter, and the cipher and decipher are functions related only by `Inverts`.
- Crypto: the secret key is taken as bytes. How `Buffer.from` turns the environment variable into
  bytes is not modelled.
- Crypto.Decrypt: the order in which Node's binding validates the IV and the key is assumed (IV
  first), and the exact error messages are the runtime's, not checked.
- Crypto.CryptoMessage has no contract: it only names the runtime's messages.
- Automation.Request: the JSON body's fields are modelled as strings or absent. A value of
  another JSON type (a number, `false`, `0`, an object) cannot be expressed, so neither how `!regNo`
  judges it nor how `page.type` then fails is modelled.
- Automation.World: the world's `decrypt` is a field, so the handler proofs hold for any
  decryption behaviour. `DecryptsWith` links it to `Crypto.Decrypt` where a lemma needs that.
- Automation.World: failures come from an oracle indexed by log position. What a real browser or
  portal does, and how long the waits take, is not modelled.
- The fixed 1 s settling delay before selecting "P": it has no effect on logic.
- `Promise.all` of the login click and its navigation wait is one step that succeeds or fails as a
  whole.
- The `page.evaluate` that selects "P" is one step; whether the dropdown exists inside the page is
  not modelled.
- The text content of a found error dialog is a plain string; a null `textContent` is not modelled.
- The `auth` wrapper around the handlers and a failing `request.json()`: outside the handler body.
- `if (browser)` in `finally` is always true after a successful launch, so it is not a branch of
  the model.
- CheckIn.Plain: the empty text it gives for a secret that does not decrypt is never typed,
  because the decrypt step throws first.
- Page URLs and CSS selectors are enumerations mapped to their strings. Launch options, the
  geolocation values as decimals (kept as scaled integers), console logging and email HTML
  templates are left out.
- The job create and list routes and the Job model: CRUD against the database and the external
  scheduler.
