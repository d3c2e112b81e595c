# Study-snap focus tracker — a Dafny model

Study-snap is a study timer. A webcam loop scores each frame for focus. The
loop keeps track of focused time and of stretches of low focus. It issues
warnings and ends the session at the second warning. It then summarises the
session. A save step stores finished sessions, at most two per user per day.
Each stored session carries the average duration over the four previous
days. A recommender turns the stored history into the next session's length
in minutes. A dashboard page shows a countdown and the focus status. It
stops the session when the backend reports two warnings.

The project has five modules:

- `FocusSession` (`focus_session.dfy`) covers `backend/focus_detection.py`:
  - the per-frame scorer, specified by `Score` and computed by the loop
    `CalculateFocusScore`;
  - the per-frame update of the focus window and of the low-focus watch
    (`FrameUpdate`);
  - the frame loop (`RunFrom` is the specification, `FocusDetector.Run` is
    the loop over the detector's fields);
  - the session summary;
  - the controller operations `start_session`, `stop_session` and
    `focus_status`.
- `SaveSession` (`save_session.dfy`) covers `save`. The user collection is a
  set of names. The session collection is a map from (user, day) to that
  day's session list. Days are day numbers.
- `DurationModel` (`duration_model.dfy`) covers `backend/model.py`:
  - the flattening of stored documents into training records, where Python's
    `int()`, `float()` and truthiness apply to dynamically typed values;
  - the fallbacks and the nudge-and-clamp of `train_and_predict`.
- `Dashboard` (`dashboard.dfy`) covers `frontend/script.js`:
  - `formatTime`, the three status bands and the `fetchDuration` fallback;
  - the page state as a class: the session flag, the buttons, the countdown
    and the warning poll.
- `Wrappers` (`wrappers.dfy`) defines `Option`.

Representation choices:

- Scores are integers in tenths. `7` stands for 0.7, so the source's `> 0.7`
  and `< 0.3` become `> 7` and `< 3`.
- Timestamps are real seconds. The loop is given its frames as a sequence of
  events, each a frame with its timestamp or a stop request. The end of the
  sequence is a failed camera read.
- The OpenCV detectors, Mongo, the regressor, date parsing and the backend's
  HTTP answers are parameters of the model.

Two consequences of the code for the focused time, which the model keeps:

- A focus window still open when the loop exits is not added to the total.
  The teardown of `generate_frames` (`backend/focus_detection.py:156-165`)
  summarises `total_focus_time` as it stands.
- A `focus_status` query during an open window reports only the total of
  the windows already closed (`backend/focus_detection.py:237`).

## Model

| member | source | states |
|---|---|---|
| FocusSession.Score | backend/focus_detection.py:34-54 | A frame's score never exceeds 1.0, and it is 0 exactly when no face was detected. |
| FocusSession.RawSumBounds | backend/focus_detection.py:40-52 | Before the cap, each face adds between 0.3 and 0.7. |
| FocusSession.ScoreBands | backend/focus_detection.py:34-54 | "Focused" needs at least two faces, and three faces are always focused. A score below 0.3 means no face was found. A score of exactly 0.3 means one face with no eyes. |
| FocusSession.ScoreExamples | backend/focus_detection.py:36-54 | Reference values: no face 0, one face with 0/1/2 eyes 0.3/0.5/0.7, two faces with two eyes capped at 1.0. |
| FocusSession.CalculateFocusScore | backend/focus_detection.py:34-54 | The scoring loop (0.3 per face, plus 0.4 for two or more eyes or 0.2 for one, capped at 1.0) computes `Score`. |
| FocusSession.FrameUpdate | backend/focus_detection.py:84-110 | After a frame, at most one of the two intervals is open, and the focus window is open exactly when the score is above 0.7. A window opens at the frame's time, and an open window keeps its start time. The low-focus watch is open only below 0.3. It opens at the frame's time, and an open watch keeps its start time until it has run for 5 seconds. The focus total changes only when a window closes, and closing a window adds exactly the time since it opened. The warning count goes up by at most one, and it goes up exactly when the score is below 0.3 and the watch has been open for 5 seconds. A warning clears the watch and records its time. |
| FocusSession.RunFrom | backend/focus_detection.py:72-135 | The loop scores at most one frame per event. When the camera runs out, every event was a scored frame. A stop request ends the loop right after the frames before it. The warning limit ends it after at least one frame, with the count at 2 or more (exactly 2 from a count below 2, by `RunStopsOnSecondWarning`). |
| FocusSession.RunScoresAreFrameScores | backend/focus_detection.py:72-85 | The recorded scores are the scores of the leading frames, one per frame, in order. |
| FocusSession.RunKeepsFocusTime | backend/focus_detection.py:72-110 | While time runs forward, the frame loop never lowers the accumulated focus time. |
| FocusSession.RunStopsOnSecondWarning | backend/focus_detection.py:99-135 | Starting below two warnings, the count never passes 2, and the loop ends on the warning limit exactly when the count reaches 2. So the first warning does not stop the session. |
| FocusSession.RunEndsOnSecondWarningFrame | backend/focus_detection.py:99-135 | Starting below two warnings, a loop that ends on the warning limit ends on the frame that brings the count to 2. The frames before it run without reaching the limit. That frame is the last one scored, and the final tracker is its update. |
| FocusSession.RunFromPrefix | backend/focus_detection.py:72-135 | A prefix of the events that starts with a frame below the warning limit runs on from that frame's update, with that frame's score first. |
| FocusSession.RunScoresInRange | backend/focus_detection.py:84-85 | Every score the loop records lies between 0 and 1.0. |
| FocusSession.RunFocusWithinSession | backend/focus_detection.py:87-97 | The focus time, plus the open window, never exceeds the time since the session started. So at exit, the focus total lies between 0 and the session length. |
| FocusSession.RecoveryResetsWatch | backend/focus_detection.py:99-110 | Two 4-second low-focus stretches with a recovery between them earn no warning: the recovery drops the watch without penalty. |
| FocusSession.ContinuousLowFocusWarns | backend/focus_detection.py:99-110 | Frames without a face every second from 0 to 5 s earn exactly one warning at the sixth frame, and the session goes on: the watch keeps its start through the stretch. |
| FocusSession.TwoWarningsEndSession | backend/focus_detection.py:99-135 | Two 5-second stretches without a face give two warnings. The loop stops on the frame that gives the second warning and scores no frame after it. |
| FocusSession.SumScoresBounds | backend/focus_detection.py:158 | The scores of n frames, each in 0..1.0, sum to between 0 and n. |
| FocusSession.Summarize | backend/focus_detection.py:156-165 | The average focus score is the mean of the frame scores, or 0 when no frame was scored. The focus percentage is the focus total over the session length times 100, or 0 for a session of no length. The total and the duration are copied. |
| FocusSession.SummaryBounds | backend/focus_detection.py:158-165 | Scores in 0..1.0 average to a value in [0, 1]. A focus total within the session length gives a percentage in 0..100. |
| FocusSession.SummaryExamples | backend/focus_detection.py:163 | 30 s focused out of 100 s is 30 %, and a session of length 0 gives 0 %. |
| FocusSession.FreshRunBounds | backend/focus_detection.py:67-165 | The summary of any run from a fresh detector has an average in [0, 1] and a percentage in 0..100. |
| FocusSession.StatusLabel | backend/focus_detection.py:225-231 | The label is "focused" exactly above 0.7, "partially focused" exactly in (0.3, 0.7], and "not focused" exactly at or below 0.3. |
| FocusSession.FocusDetector.constructor | backend/focus_detection.py:20-32 | The detector starts with no open interval, no focus time, score 0, no warnings, not running and no summary. |
| FocusSession.FocusDetector.StartSession | backend/focus_detection.py:209-214 | Every tracking field is reset to its initial value, any stale summary is cleared, and the detector is running. |
| FocusSession.FocusDetector.Step | backend/focus_detection.py:84-110 | The in-place update of the detector's fields is the per-frame update `FrameUpdate`. |
| FocusSession.FocusDetector.Finalize | backend/focus_detection.py:156-165 | The stored summary is `Summarize` of the focus total, the recorded scores and the session length. |
| FocusSession.FocusDetector.FrameLoop | backend/focus_detection.py:67-135 | The loop over the detector's fields ends in the state, with the scores and for the reason that `RunFrom` gives. `is_running` stays set only when the camera ran out. The stored summary is untouched until teardown. |
| FocusSession.FocusDetector.Run | backend/focus_detection.py:67-165 | A whole session: the frame loop as `RunFrom` gives it, then a stored summary of that run. From a fresh detector, the stored average lies in [0, 1] and the percentage in 0..100. |
| FocusSession.FocusDetector.StopSession | backend/focus_detection.py:218-223 | The running flag is cleared, and the currently stored summary is returned. |
| FocusSession.FocusDetector.FocusStatus | backend/focus_detection.py:225-239 | The report carries the running flag, the score, the focus total and the warning count, with the three-level label `StatusLabel` of the score. |
| SaveSession.PriorDurations | backend/save_session.py:40-49 | The history holds at most one duration per day looked at. |
| SaveSession.PriorDurationsEmpty | backend/save_session.py:40-49 | The history is empty exactly when none of the previous days has a session. |
| SaveSession.PriorDurationsIgnoreOtherEntries | backend/save_session.py:40-49 | Only the user's own previous days count. Rewriting any other entry, including today's, leaves the history unchanged. |
| SaveSession.PriorDurationsInRange | backend/save_session.py:45-49 | When the last session of every day looked at lasted between lo and hi, so does every collected duration. The earlier sessions of a day do not matter. |
| SaveSession.SumBounds | backend/save_session.py:53 | n values between lo and hi sum to between n·lo and n·hi. |
| SaveSession.Mean | backend/save_session.py:51-55 | No durations give 0. Otherwise the mean times the number of durations is their sum. |
| SaveSession.MeanBounds | backend/save_session.py:53 | The mean of values between lo and hi lies between lo and hi. |
| SaveSession.TrailingAverage | backend/save_session.py:51-55 | The four-day average is 0 when none of the four previous days has a session. Otherwise it lies between any bounds on those days' last durations; the earlier sessions of each day do not matter. |
| SaveSession.SessionStore.constructor | backend/save_session.py:6-9 | The store holds the given users and session lists. |
| SaveSession.SessionStore.LastFourDays | backend/save_session.py:40-49 | The loop over days N-1 to N-4 collects, for each day that has sessions, the duration of that day's last session, nearest day first. |
| SaveSession.SessionStore.Save | backend/save_session.py:12-78 | An unknown user gets "User not found", and a day with two sessions gets "Daily session limit (2) reached". In both cases the store is unchanged. Otherwise the save succeeds and the session is numbered after the day's existing ones (1 or 2). It carries the request's values and the four-day mean, and it is appended to the day's list, which is the only entry that changes. No day ever holds more than two sessions. |
| DurationModel.TruncateTowardZero | backend/model.py:38 | `int()` on a float keeps the integer part: it rounds down for non-negative values and up for negative ones. |
| DurationModel.Truthy | backend/model.py:30-31 | Exactly 0, 0.0, the empty string and a null are falsy. |
| DurationModel.ParseInteger | backend/model.py:38-39 | A string converts exactly when it is one or more decimal digits, optionally after a sign. Digits read as their decimal value, a leading plus keeps it, and a leading minus negates it. |
| DurationModel.ToInt | backend/model.py:38 | `int()` keeps an integer, truncates a float toward zero, parses a decimal string and rejects null. |
| DurationModel.ToFloat | backend/model.py:39 | `float()` converts every value `int()` converts: an integer as its value, a float unchanged, a string exactly when it is a decimal integer, to that integer's value. It rejects null. |
| DurationModel.ConvertSession | backend/model.py:35-45 | A session yields a record exactly when both keys are present, both conversions succeed and the document's date is a string that parses. The record carries that date, the converted number and duration, and the date's weekday. |
| DurationModel.SessionRecords | backend/model.py:34-45 | A document yields at most one record per stored session. |
| DurationModel.DocumentRecords | backend/model.py:29-45 | A document without a truthy date yields no records. Others yield at most one record per session. |
| DurationModel.Flatten | backend/model.py:26-47 | There are never more records than stored sessions. |
| DurationModel.ConversionExamples | backend/model.py:38-45 | 2.7 converts to 2 and -2.7 to -2, and "-12" converts to -12. The empty string, "1x" and null are rejected. |
| DurationModel.Preprocess | backend/model.py:26-47 | The cleaning loop over documents and their sessions yields exactly the records of `Flatten`. |
| DurationModel.ConvertSessions | backend/model.py:34-45 | The inner loop over one document's sessions yields exactly the records of `SessionRecords`. |
| DurationModel.SessionRecordsSnoc | backend/model.py:34-45 | One more session adds its own record, if it converts, at the end. |
| DurationModel.SessionRecordsAppendLast | backend/model.py:34-45 | The last session of the second part contributes the last record, if any. |
| DurationModel.SessionRecordsAppend | backend/model.py:34-45 | The sessions of a document are converted one after another, in order. |
| DurationModel.SessionSkippedOrKept | backend/model.py:34-45 | Each session is judged alone. One that fails conversion is skipped without affecting the others. A valid one yields exactly its own record, in its place. |
| DurationModel.FlattenSnoc | backend/model.py:29-47 | One more document adds its own records at the end. |
| DurationModel.FlattenAppendLast | backend/model.py:29-47 | The last document of the second part contributes the last records. |
| DurationModel.FlattenAppend | backend/model.py:29-47 | The records keep document order: those of `a + b` are those of `a`, then those of `b`. |
| DurationModel.UndatedDocumentIgnored | backend/model.py:30-32 | Dropping a document without a truthy date leaves the records unchanged. |
| DurationModel.SessionRecordsDated | backend/model.py:36-40 | Each record of a document carries that document's date string and the weekday of that date. |
| DurationModel.FlattenDated | backend/model.py:29-40 | Every record carries the date of a document it came from. That date is a non-empty string that parses, and the record has its weekday. |
| DurationModel.Clamp | backend/model.py:117-125 | The recommendation lies in [15, 30]. It is at least the last duration plus one minute, and at least the raw prediction, unless capped at 30. A raw prediction already in range and at least the last duration plus one minute is kept as it is. When the nudge decides and the last duration plus one minute is in range, the answer is exactly that. When either the raw prediction or the nudge reaches 30, the answer is 30. When both are at most 15, the answer is 15. |
| DurationModel.TrainAndPredict | backend/model.py:59-134 | The answer always lies in [15, 30]. It is 25 when the fetch fails, when there are no documents, when fewer than four records survive cleaning, when the target date does not parse, or when the regressor fails. Otherwise it is the clamped prediction for the last record's session number plus one on the target date, and at least the last duration plus one minute unless capped at 30. |
| Dashboard.FormatTime | frontend/script.js:60-64 | The text is at least five characters long. For a non-negative time, the seconds take the last two characters, after a colon. |
| Dashboard.PadTwoDigits | frontend/script.js:61-62 | A number below 100, padded to two places, is its tens digit followed by its units digit. |
| Dashboard.FormatTimeRoundTrip | frontend/script.js:60-64 | Below 100 minutes, the timer text is exactly "MM:SS": five characters, a colon in the middle and digits elsewhere, with the seconds below 60. Read back, it gives the number of seconds it was made from. |
| Dashboard.StatusText | frontend/script.js:105-116 | The status line is "Focused" exactly above 0.7, "Partially Focused" exactly in (0.3, 0.7], and "Not Focused" exactly at or below 0.3. |
| Dashboard.StatusAgreesWithBackend | frontend/script.js:105-116 | For every backend score, the page's status line and the backend's status label give the same band. |
| Dashboard.FetchDuration | frontend/script.js:72-88 | A present, non-zero fetched duration is used. A failed request, a missing duration or a zero duration gives 25 minutes. The result is never 0. |
| Dashboard.DashboardPage.constructor | frontend/script.js:238-243 | After loading, the timer shows the fetched duration, the stop button is disabled, no session is active and the warning count is 0. |
| Dashboard.DashboardPage.ResetState | frontend/script.js:224-231 | No session is active. Start and reset are enabled, stop is disabled, and the buttons read "Start" and "Stop". Nothing else changes. |
| Dashboard.DashboardPage.StartTimer | frontend/script.js:137-168 | A no-op while a session is active. If the start request fails, the buttons go back to idle and nothing else changes. Otherwise start and reset are disabled, stop is enabled, the buttons read "Session Started" and "Stop", the timer holds the fetched duration and the countdown runs. The warning count and the pending reset are untouched. |
| Dashboard.DashboardPage.StopTimer | frontend/script.js:170-212 | A no-op when no session is active. Otherwise the session ends and the countdown stops. The stop button reads "Session Complete" or "Session Stopped", and the delayed reset is scheduled. The buttons' enabled states, the start text, the timer and the warning count are untouched. |
| Dashboard.DashboardPage.ResetTimeout | frontend/script.js:207-210 | When the delayed reset fires, it is no longer pending, and the buttons and their texts go back to idle. Nothing else changes. |
| Dashboard.DashboardPage.ResetTimer | frontend/script.js:214-222 | A running session is stopped first, and its delayed reset stays scheduled. Then the timer holds the fetched duration, and the buttons and their texts go back to idle. |
| Dashboard.DashboardPage.Tick | frontend/script.js:156-163 | Each tick takes one second off. While seconds remain, nothing else changes. When none remain, the session ends as "Session Complete" and the delayed reset is scheduled. |
| Dashboard.CountdownRunsOut | frontend/script.js:156-163 | A countdown with T seconds left runs for exactly T ticks. After fewer ticks the session still runs with the seconds counted down and nothing else changed. The T-th tick ends the session as "Session Complete" at 0. |
| Dashboard.DashboardPage.StartClick | frontend/script.js:233 | A click on a disabled start button changes nothing. Otherwise the session starts as in `StartTimer`, or the buttons go back to idle when the start request fails. |
| Dashboard.DashboardPage.StopClick | frontend/script.js:234 | A click on a disabled stop button, or with no session active, changes nothing. Otherwise the session stops as in `StopTimer`. |
| Dashboard.DashboardPage.ResetClick | frontend/script.js:235 | A click on a disabled reset button changes nothing. Otherwise the timer holds the fetched duration, and the buttons and their texts go back to idle. |
| Dashboard.DashboardPage.CheckWarnings | frontend/script.js:250-265 | An alert is raised exactly when the warning count went up since the last poll, and the new count is remembered. A count of 2 or more with an enabled stop button during a session ends the session as a stop click does. Otherwise nothing but the remembered count changes. |

The page's handlers keep `DashboardPage.Valid()`:

- the countdown runs only during a session;
- during a session, start and reset are disabled;
- while the delayed reset is pending, no session runs.

This is why a start click can never arrive while a reset is pending.
`ResetTimer` keeps `Valid()` when no session is running. It always starts
that way when the reset button triggers it, because the button is disabled
during a session. If `resetTimer` did stop a session, the stop's delayed
reset would still be pending while the buttons are already idle.

## Left out

- Face and eye detection, frame capture, JPEG encoding and the streamed
  overlay text are OpenCV calls. A frame arrives as the eye counts of its
  faces. `_generate_error_frame`, `_cleanup` and the final black frame are
  left out.
- Concurrency between the frame loop and the HTTP handlers is left out. This
  includes the 0.5 s wait in `stop_session` and torn reads of the detector's
  fields. A stop request is an event between two frames, and `StopSession`
  returns whatever summary is stored at that moment.
- An exception raised inside the loop (the `except` branch of
  `generate_frames`) is left out. So is a camera that fails to open.
- `time.sleep`, and the several `time.time()` calls within one iteration:
  one timestamp per frame stands for all of them.
- Floating-point artefacts in the score sums are left out; scores are exact
  tenths. `np.mean` and the divisions are exact real arithmetic.
- FocusSession.Summarize: the division by a zero session length in the
  summary print statement is left out, together with all printing and
  logging.
- SaveSession.SessionStore.Save: the stored focus percentage and the
  four-day mean are not rounded to two decimals. Binary-float rounding is
  left out.
- SaveSession.SessionStore.Save: dates are day numbers, so an unparsable
  date string (which raises in the source) and a missing request key are not
  modelled.
- SaveSession.SessionStore.Save: the call to `train_and_predict` after the
  upsert is left out. Its result is discarded, and it does not change the
  store.
- DurationModel.ToFloat: accepts only optionally signed decimal integer
  strings. So does `DurationModel.ToInt`. Python also accepts surrounding
  whitespace and underscores, and `float()` also accepts decimals, exponents,
  "inf" and "nan". Those strings are rejected here.
- Non-finite floats are not modelled. `int()` of a NaN raises `ValueError`,
  which the cleaning loop catches, so the session is skipped. `int()` of an
  infinity raises `OverflowError`, which the cleaning loop does not catch. It
  reaches the handler of `train_and_predict` (`backend/model.py:132-134`),
  which answers 25.
- A `sessions` value that is not a list is not modelled.
- `create_features`, the random-forest regressor, its R² score and the date
  parsing are parameters. A date parser or a regressor call that raises is
  `None`.
- The `/submit`, `/duration` and other routes of `backend/app.py` are not
  part of this model, and neither is the login page.
- Browser plumbing is left out: DOM element lookups, the video element,
  `localStorage`, the focus-score text with `toFixed`, and the
  `stopFocusDetection` display reset.
- The payload that `stopTimer` sends to the save route is left out, and so
  is its elapsed-minutes computation.
- Dashboard.DashboardPage.StartTimer: the awaits inside the handlers are
  collapsed. Each handler runs to completion, and the HTTP answers are its
  parameters. An interleaving of another handler between two awaits is not
  modelled.
- Dashboard.DashboardPage.constructor: the buttons' state before the load
  handler runs comes from the page's HTML, which is not part of this model.
  It is taken to be enabled, with the texts "Start" and "Stop".
- Dashboard.FetchDuration: durations are whole minutes. The recommender can
  answer a fractional number of minutes (`backend/model.py:122-125`), and
  the countdown would then start from a fractional number of seconds. Its
  last tick then shows `formatTime` of a negative value, such as -0.2 s,
  because the display is updated before the `totalSeconds <= 0` test.
- Dashboard.FormatTimeRoundTrip: the timer text is characterised only below
  100 minutes. Longer times give three or more minute digits. With whole
  minutes the countdown stops at exactly 0, so no negative time is shown.
