# Cabin-crew mock interview: session logic, schedule panel and question bank

This Dafny project models the decision logic of a mobile app for rehearsing
airline cabin-crew interviews. The app's logic lives inside React screens.
The model takes out the deterministic parts: pure decisions, and small
transitions over a record of state flags. It models three pieces:

- **The mock-interview screen** (`src/screens/MockInterview/index.tsx`):
  - the letter grade and the banded evaluation text for a score;
  - the `MM:SS` timer text;
  - the classification of each `status-all` poll response as done, failed or "retry in 5000 ms", and the self-rescheduling poll loop;
  - the mapping from the backend's analysis summary to the feedback record, with JavaScript's `||` defaults;
  - the session's state flags and the user-triggered transitions that change them;
  - the precedence chain that decides which screen is drawn.
- **The home screen** (`src/screens/Home/index.tsx`):
  - the "upcoming schedules" panel: filter by `date >= today`, sort by date, keep the first three;
  - the server-status colour and text;
  - the state changes of a health check.
- **The airline question bank** (`src/models/Airline.ts`): the ten airlines with ten questions each, and the random question pick.

Modules (one file each):

- `Wrappers`: `Option`, which stands for an optional field that is `undefined` or `null` where the source's `||` or `?.` treats the two alike. A job status, whose `null` prints differently, has its own three-way type.
- `JsValues`: `||` on numbers, strings and arrays, JavaScript's truncating `%`, `Number.prototype.toString` on integers, and `padStart`.
- `Grading`, `TimeFormat`, `AnalysisStatus`, `Feedback` and `InterviewSession`: the interview screen.
- `StringOrder`, `Schedules` and `ServerStatus`: the home screen.
- `Airlines`: the question bank.

Clock readings, `Math.random`, the signed-in user name, locale-formatted date and time texts, and every backend response are parameters. A random draw becomes the index `Math.floor(Math.random() * n)` it produces.

Behaviour the model keeps exactly as the code has it:

- A job that reports `FAILED` does not lead to the substitute report. The error is thrown at `src/screens/MockInterview/index.tsx:253-255` and rethrown at 262-265 inside a `setTimeout` callback (260, 269), where no handler catches it. The session stays on the analysing screen (`InterviewSession.FailedJobStaysAnalyzing`).
- Polling is not cancelled when the session is reset (398-407). A late "all done" response still puts a report on screen through the setters at 249-251 (`InterviewSession.LateResultAfterReset`).
- The job statuses are not normalised into one vocabulary: at 192-200 stt must report `COMPLETED` while face and segment must report `SUCCEEDED`. The model keeps the raw strings. It adds the normalised rule as a separate definition and proves that the two agree (`AnalysisStatus.ClassifyPollIsResolve`).
- Saving is not guarded against a second call (358-382). It is the screen's precedence at 418 that hides the save button after one save (`InterviewSession.SaveButtonOnlyWhenUnsaved`).
- The poll loop at 256-269 has no retry limit.

## Model

| member | source | states |
|---|---|---|
| Grading.GradeOf | src/screens/MockInterview/index.tsx:284-292 | the grade is D exactly below 70, A or better exactly from 90, B or better exactly from 80, C or better exactly from 70 |
| Grading.GradeOfMatchesTable | src/screens/MockInterview/index.tsx:284-292 | the if-chain equals a reading of the threshold table 95→A+, 90→A, 85→B+, 80→B, 75→C+, 70→C, else D, for every score |
| Grading.GradeMonotone | src/screens/MockInterview/index.tsx:284-292 | a lower score never gets a better grade |
| Grading.GradeBoundaries | src/screens/MockInterview/index.tsx:284-292 | 95→A+, 94→A, 90→A, 89→B+, 85→B+, 80→B, 75→C+, 70→C, 69→D |
| Grading.LabelInjective | src/screens/MockInterview/index.tsx:285-291 | different grades have different labels |
| Grading.BandOf | src/screens/MockInterview/index.tsx:297-305 | the band is chosen by ≥90, ≥80, ≥70 and otherwise, each band exactly on its interval |
| Grading.EvaluationText | src/screens/MockInterview/index.tsx:297-305 | the evaluation is always one of the four fixed narratives |
| Grading.EvaluationTextInjective | src/screens/MockInterview/index.tsx:297-305 | no two bands share a narrative, so the text identifies the band |
| Grading.BandAgreesWithGrade | src/screens/MockInterview/index.tsx:284-305 | the evaluation bands are the grades merged in pairs: A+/A, B+/B, C+/C, D |
| Feedback.EffectiveScore | src/screens/MockInterview/index.tsx:217 | `overall_score \|\| 85`: the score when present and non-zero, otherwise 85; never 0 |
| Feedback.OverallEvaluation | src/screens/MockInterview/index.tsx:295-306 | the evaluation is one of the four narratives, the one for the band of the effective score |
| Feedback.MissingScoreEvaluatesGood | src/screens/MockInterview/index.tsx:296 | a missing or zero overall score always lands in the ≥80 band |
| Feedback.FromSummary | src/screens/MockInterview/index.tsx:211-246 | total score is the effective score; the grade is the grade of the total; the evaluation matches the total's band; each detailed score is the backend value, or 88/82/85/87 when missing or 0; each analysis line shows the same number as its detailed score; recommendations, including an empty list, fill both lists, and a missing list gives the two different default lists; the airline is the selected airline's name, or "항공사" when it is missing or empty; position, version and the four detail texts are the fixed ones |
| Feedback.EmptyRecommendationsKept | src/screens/MockInterview/index.tsx:236-240 | an empty recommendation list is truthy and is kept, not replaced by the defaults |
| Feedback.ScoreEightyEight | src/screens/MockInterview/index.tsx:217-219 | a summary scoring 88 yields grade B+ and the ≥80 narrative |
| Feedback.EmptySummaryDefaults | src/screens/MockInterview/index.tsx:217-225 | an empty summary yields total 85, grade B+, the ≥80 narrative and detailed scores 88/82/85/87 |
| Feedback.ReportRoundTrip | src/screens/MockInterview/index.tsx:360-377 | the saved report loses nothing of the feedback except position and version; it carries the timer as duration and the time as id |
| JsValues.NatToStringValue | src/screens/MockInterview/index.tsx:139 | the decimal text printed for a number reads back as that number |
| JsValues.IntToStringInjective | src/screens/MockInterview/index.tsx:361 | different creation times give different report ids |
| TimeFormat.FormatTime | src/screens/MockInterview/index.tsx:136-140 | a negative time prints with a leading minus; a non-negative one ends in `:SS` with two digits |
| TimeFormat.FormatTimeRoundTrip | src/screens/MockInterview/index.tsx:136-140 | for every non-negative time, the text parses back as MM·60+SS to the input; it is 5 characters long exactly below 6000 seconds |
| TimeFormat.FormatTimeShape | src/screens/MockInterview/index.tsx:136-140 | for 0 ≤ s < 6000 the text is `MM:SS`: 5 characters, digits around a colon, SS < 60 and MM·60+SS = s |
| TimeFormat.Pad2Value | src/screens/MockInterview/index.tsx:139 | `padStart(2, '0')` keeps the number and pads below 100 to exactly two digits |
| AnalysisStatus.ClassifyPoll | src/screens/MockInterview/index.tsx:189-261 | Done iff stt=`COMPLETED`, face=`SUCCEEDED` and segment=`SUCCEEDED`; Failed iff not done and some status is `FAILED`; otherwise Retry after 5000 ms |
| AnalysisStatus.DoneExcludesFailed | src/screens/MockInterview/index.tsx:192-200 | all-completed and any-failed never hold together |
| AnalysisStatus.ForeignOrMissingStatusNeverDone | src/screens/MockInterview/index.tsx:189-200 | an stt of `SUCCEEDED`, or a missing or null status, is never Done; it is Retry unless some job failed |
| AnalysisStatus.Normalize | src/screens/MockInterview/index.tsx:192-200 | each kind's success word maps to Succeeded and `FAILED` to Failed, and only those |
| AnalysisStatus.ClassifyPollIsResolve | src/screens/MockInterview/index.tsx:189-261 | classifying the raw strings equals normalising them and applying "all succeeded, else any failed, else pending" |
| AnalysisStatus.RunPolls | src/screens/MockInterview/index.tsx:256-269 | the loop stops at the first response that is not a retry; every earlier response was a retry; when nothing resolves, it has used every response and is still polling |
| AnalysisStatus.NoQueryAfterResolution | src/screens/MockInterview/index.tsx:202-261 | after resolution no further query is made: later responses do not change the outcome |
| InterviewSession.ScreenOf | src/screens/MockInterview/index.tsx:418-662 | the screen drawn: saved, then analysing, then report, then airline list, then interview (interviewing with an airline), then start, each exactly when the earlier conditions fail |
| InterviewSession.SavedDominates | src/screens/MockInterview/index.tsx:418-431 | a saved session shows the saved screen whatever the other flags are |
| InterviewSession.StartInterview | src/screens/MockInterview/index.tsx:384-386 | only the airline list flag changes; from the start, interview or airline screen this leads to the airline list |
| InterviewSession.SelectAirline | src/screens/MockInterview/index.tsx:388-396 | the airline is remembered, the list hidden, interviewing on, timer 0 and running, the question is the airline's entry at the drawn index (absent only for an airline without questions); the report list, feedback and progress text are untouched |
| InterviewSession.Tick | src/screens/MockInterview/index.tsx:120-122 | a tick adds one second to a running timer and changes nothing else |
| InterviewSession.TicksCount | src/screens/MockInterview/index.tsx:118-133 | n ticks add n to a running timer and leave a stopped one unchanged |
| InterviewSession.ToggleInterview | src/screens/MockInterview/index.tsx:308-322 | when not interviewing, only the interviewing flag is set; otherwise exactly four fields change: the timer is stopped at its value, interviewing is off, analysing is on and the progress text reads that the recording is done |
| InterviewSession.FallbackAfterDelay | src/screens/MockInterview/index.tsx:340-353 | the substitute feedback is shown and analysing ends, so the analysing screen becomes the report screen |
| InterviewSession.BackendError | src/screens/MockInterview/index.tsx:271-279 | an upload or submission error shows the substitute feedback, ends analysing and clears the progress text |
| InterviewSession.OnStatusResponse | src/screens/MockInterview/index.tsx:189-261 | an all-done response changes exactly three fields: it shows the feedback mapped from the summary, ends analysing and clears the progress text; a failed one changes nothing; a pending one changes only the progress text, to the three statuses as `${x?.status}` prints them |
| InterviewSession.SaveReport | src/screens/MockInterview/index.tsx:358-382 | with feedback, exactly one report is appended at the end, the earlier entries are unchanged, the report is built from the feedback with the timer as duration, and `isSaved` is set; without feedback nothing changes |
| InterviewSession.SavedReportFields | src/screens/MockInterview/index.tsx:360-377 | the saved entry carries the feedback's score, grade and evaluation and the session's timer |
| InterviewSession.SaveButtonOnlyWhenUnsaved | src/screens/MockInterview/index.tsx:418-521 | saving from the report screen leads to the saved screen; a second call of the handler would append a second entry |
| InterviewSession.Reset | src/screens/MockInterview/index.tsx:398-407 | every flag is off, no airline, no feedback, the timer stopped at 0, and the report list is kept |
| InterviewSession.ResetIdempotent | src/screens/MockInterview/index.tsx:398-407 | resetting twice equals resetting once, and a reset session shows the start screen |
| InterviewSession.StartNewInterview | src/screens/MockInterview/index.tsx:424-427 | the saved screen's button leads to the airline list |
| InterviewSession.LateResultAfterReset | src/screens/MockInterview/index.tsx:249-251 | an all-done response arriving after a reset still puts the report on screen |
| InterviewSession.NullAndMissingPrintDifferently | src/screens/MockInterview/index.tsx:259 | the progress text of a pending poll tells an stt status of `null` from a missing one |
| InterviewSession.OnSummaryRequestError | src/screens/MockInterview/index.tsx:202-207 | when the summary request after an all-done response fails, only the progress text changes, to the result-pending text, and the screen drawn stays the same |
| InterviewSession.FailedJobStaysAnalyzing | src/screens/MockInterview/index.tsx:253-265 | a failed job leaves the analysing screen in place |
| InterviewSession.HappyPath | src/screens/MockInterview/index.tsx:308-382 | start, select, n seconds, stop, later ticks, all-done, save: the screens follow in order; exactly one report is appended; its duration is n and its grade is the grade of its score |
| Schedules.FilterUpcoming | src/screens/Home/index.tsx:14-15 | keeps every schedule with `date >= today`, as often as it occurs, and no other |
| Schedules.Insert | src/screens/Home/index.tsx:16 | the result holds the list's entries plus the inserted one |
| Schedules.SortByDate | src/screens/Home/index.tsx:16 | the sort is a permutation of its input |
| Schedules.InsertSorted | src/screens/Home/index.tsx:16 | inserting into a date-sorted list keeps it sorted |
| Schedules.SortByDateSorted | src/screens/Home/index.tsx:16 | the sorted list is in non-decreasing date order |
| Schedules.UpcomingSchedules | src/screens/Home/index.tsx:13-17 | at most 3 entries, min(3, number of upcoming schedules) of them; each from the schedules and dated today or later; in non-decreasing date order; no upcoming schedule left out is dated before a shown one; with fewer than 3 shown, every upcoming schedule is shown |
| Schedules.SortedPrefixFirst | src/screens/Home/index.tsx:16-17 | in a sorted list nothing beyond a prefix is dated before anything in it |
| Schedules.FilterWithin | src/screens/Home/index.tsx:14-15 | the filtered list holds no schedule more often than the original list |
| Schedules.TodayIsUpcoming | src/screens/Home/index.tsx:15 | a schedule dated today is shown as upcoming |
| ServerStatus.StatusColor | src/screens/Home/index.tsx:39-45 | green exactly for connected, red exactly for disconnected, orange otherwise |
| ServerStatus.StatusText | src/screens/Home/index.tsx:47-53 | "서버 연결됨" exactly for connected, "서버 연결 실패" exactly for disconnected, "연결 확인 중..." exactly for loading |
| ServerStatus.StatusDisplayInjective | src/screens/Home/index.tsx:39-53 | the colour alone, and the text alone, determine the status |
| ServerStatus.CheckServerConnection | src/screens/Home/index.tsx:23-37 | first loading with the old time kept, then connected exactly on success and disconnected otherwise, with the check time recorded either way |
| ServerStatus.CheckSettles | src/screens/Home/index.tsx:23-45 | a check shows orange while running and ends green or red |
| Airlines.RandomQuestion | src/models/Airline.ts:179-182 | the drawn question is the list's entry at the index and a member of it; absent only when the list is empty |
| Airlines.AirlineCount | src/models/Airline.ts:166-177 | the table has 10 airlines |
| Airlines.AirlineNamesDistinct | src/models/Airline.ts:7-151 | the airline names are pairwise distinct |
| Airlines.QuestionCounts | src/models/Airline.ts:8-163 | every airline has exactly 10 questions |
| Airlines.TableQuestionDefined | src/models/Airline.ts:179-182 | for an airline of the table every draw yields one of its questions |

## Left out

- Network steps of the analysis flow: asynchronous I/O. A failure of the presigned-URL, PUT, upload-status or start request (before line 271 of `src/screens/MockInterview/index.tsx`) reaches `BackendError`. The `status-all` request (186) and the summary request (207) run inside the poll callback: their results are the parameters `StatusResults` and `Summary`, and a failure of either is rethrown at 264, never reaches the `catch` at 271, stops polling and leaves the analysing screen in place (`OnSummaryRequestError` for the summary request; a failed `status-all` request changes nothing).
- InterviewSession.BackendError: the `Alert.alert` error dialog (275) is UI and is not modelled.
- `getRandomFeedback` and its module `models/InterviewFeedback`: that module is not part of this model. The substitute feedback is a parameter.
- Camera availability and permission checks, the web recorder, `InterviewScreen.tsx`, navigation, styles and JSX: device and UI glue.
- `App.tsx`, `metro.config.js` and the profile screen: configuration and static UI.
- React timing: the `setInterval`/`setTimeout` scheduling, hook closures, and the focus and unmount effects are not modelled. One timer tick is `Tick`. Stale closures in `stopTimer` that can leave an interval running are not modelled. Neither is a second `startTimer` leaking the first interval.
- Numbers are integers. Fractional scores, `NaN` (also falsy under `||`), and `toString`'s exponent notation for very large values are not modelled.
- The summary object itself is assumed present. A missing `summary` makes the poll callback throw, which, like a failed job, would leave the analysing screen in place.
- Schedules.SortByDate: `localeCompare` is modelled as the same character-by-character order as `>=`. The two agree on `YYYY-MM-DD` dates but not on arbitrary text. Characters are compared as Unicode scalar values, not UTF-16 code units. Stability of the sort for equal dates holds by construction but is not proved.
- AnalysisStatus.RunPolls: models the order and number of queries over a finite list of backend responses, not the wall-clock delays. The 5000 ms retry delay is the constant `RetryDelayMs`; the 2000 ms wait before the first query (268-269) is timing only.
- Upload progress texts other than the recording-done, polling and result-pending texts are not modelled; they are display-only.
