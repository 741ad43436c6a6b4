/** The mock-interview session of src/screens/MockInterview/index.tsx: the
    screen's state flags, the user-triggered transitions that change them,
    and the choice of which screen to draw. */
module InterviewSession {
  import opened Wrappers
  import opened Grading
  import opened Airlines
  import opened AnalysisStatus
  import opened Feedback

  /** The screen's state. `feedbacks` is the report list held by the
      interview context; `timerRunning` stands for a live `setInterval`. */
  datatype Session = Session(
    isInterviewing: bool,
    isAnalyzing: bool,
    isSaved: bool,
    showAirlineSelection: bool,
    selectedAirline: Option<Airline>,
    currentFeedback: Option<FeedbackDetail>,
    timer: nat,
    timerRunning: bool,
    currentQuestion: Option<string>,
    uploadProgress: string,
    feedbacks: seq<InterviewReport>)

  /** The state of a freshly mounted screen, with the context's reports. */
  function Initial(feedbacks: seq<InterviewReport>): Session {
    Session(false, false, false, false, None, None, 0, false, Some(""), "", feedbacks)
  }

  /** The screens, in the order the render checks them. */
  datatype Screen = SavedScreen | AnalyzingScreen | ReportScreen | AirlineSelectionScreen | InterviewScreen | StartScreen

  /** The render's chain of early returns. */
  function ScreenOf(s: Session): (v: Screen)
    ensures v == SavedScreen <==> s.isSaved
    ensures v == AnalyzingScreen <==> !s.isSaved && s.isAnalyzing
    ensures v == ReportScreen <==> !s.isSaved && !s.isAnalyzing && s.currentFeedback.Some?
    ensures v == AirlineSelectionScreen <==>
              !s.isSaved && !s.isAnalyzing && s.currentFeedback.None? && s.showAirlineSelection
    ensures v == InterviewScreen <==>
              && !s.isSaved && !s.isAnalyzing && s.currentFeedback.None? && !s.showAirlineSelection
              && s.isInterviewing && s.selectedAirline.Some?
    ensures v == StartScreen <==>
              && !s.isSaved && !s.isAnalyzing && s.currentFeedback.None? && !s.showAirlineSelection
              && !(s.isInterviewing && s.selectedAirline.Some?)
  {
    if s.isSaved then SavedScreen
    else if s.isAnalyzing then AnalyzingScreen
    else if s.currentFeedback.Some? then ReportScreen
    else if s.showAirlineSelection then AirlineSelectionScreen
    else if s.isInterviewing && s.selectedAirline.Some? then InterviewScreen
    else StartScreen
  }

  /** The saved screen wins whatever the other flags say. */
  lemma SavedDominates(s: Session, t: Session)
    requires s.isSaved && t.isSaved
    ensures ScreenOf(s) == ScreenOf(t) == SavedScreen
  {
  }

  /** `handleStartInterview`: open the airline list. */
  function StartInterview(s: Session): (t: Session)
    ensures t == s.(showAirlineSelection := true)
    ensures ScreenOf(s) in {AirlineSelectionScreen, InterviewScreen, StartScreen} ==>
              ScreenOf(t) == AirlineSelectionScreen
  {
    s.(showAirlineSelection := true)
  }

  /** `handleAirlineSelect`: remember the airline, hide the list, start
      interviewing with a fresh running timer, and draw a question. `pick` is
      the index the random draw produces. */
  function SelectAirline(s: Session, a: Airline, pick: nat): (t: Session)
    requires IsRandomIndex(pick, |a.questions|)
    ensures t.selectedAirline == Some(a)
    ensures !t.showAirlineSelection && t.isInterviewing
    ensures t.timer == 0 && t.timerRunning
    ensures t.currentQuestion == RandomQuestion(a, pick)
    ensures t.currentQuestion.Some? <==> |a.questions| > 0
    ensures t.currentQuestion.Some? ==> t.currentQuestion.value in a.questions
    ensures t.uploadProgress == s.uploadProgress
    ensures t.isSaved == s.isSaved && t.isAnalyzing == s.isAnalyzing
    ensures t.currentFeedback == s.currentFeedback && t.feedbacks == s.feedbacks
  {
    s.(selectedAirline := Some(a), showAirlineSelection := false, isInterviewing := true,
       timer := 0, timerRunning := true, currentQuestion := RandomQuestion(a, pick))
  }

  /** One tick of the one-second interval. */
  function Tick(s: Session): (t: Session)
    ensures s.timerRunning ==> t.timer == s.timer + 1
    ensures t.(timer := s.timer) == s
  {
    if s.timerRunning then s.(timer := s.timer + 1) else s
  }

  /** `n` ticks of the interval. */
  function Ticks(s: Session, n: nat): Session
    decreases n
  {
    if n == 0 then s else Ticks(Tick(s), n - 1)
  }

  /** A running timer counts the ticks; a stopped one keeps its value. */
  lemma {:induction false} TicksCount(s: Session, n: nat)
    ensures Ticks(s, n).timer == if s.timerRunning then s.timer + n else s.timer
    ensures Ticks(s, n).(timer := s.timer) == s
    decreases n
  {
    if n > 0 {
      TicksCount(Tick(s), n - 1);
    }
  }

  const RecordingDoneText: string := "녹화 완료, 처리 중..."

  /** The flag changes of `handleInterviewToggle`: start interviewing, or
      stop the timer and switch to analysing. What follows the stop (the
      upload or the delayed fallback) is a separate transition. */
  function ToggleInterview(s: Session): (t: Session)
    ensures !s.isInterviewing ==> t == s.(isInterviewing := true)
    ensures s.isInterviewing ==>
              t == s.(timerRunning := false, isInterviewing := false, isAnalyzing := true,
                      uploadProgress := RecordingDoneText)
    ensures s.isInterviewing ==> !t.isInterviewing && t.isAnalyzing && !t.timerRunning
    ensures t.isSaved == s.isSaved && t.currentFeedback == s.currentFeedback
    ensures t.selectedAirline == s.selectedAirline && t.feedbacks == s.feedbacks
  {
    if !s.isInterviewing then s.(isInterviewing := true)
    else s.(timerRunning := false, isInterviewing := false, isAnalyzing := true,
            uploadProgress := RecordingDoneText)
  }

  /** The delayed fallback when there is no recording to upload: show the
      substitute feedback (`getRandomFeedback`, passed in) and stop
      analysing. */
  function FallbackAfterDelay(s: Session, fallback: FeedbackDetail): (t: Session)
    ensures t == s.(currentFeedback := Some(fallback), isAnalyzing := false)
    ensures ScreenOf(s) == AnalyzingScreen ==> ScreenOf(t) == ReportScreen
  {
    s.(currentFeedback := Some(fallback), isAnalyzing := false)
  }

  /** The `catch` of the upload and submission steps: stop analysing, clear
      the progress text and show the substitute feedback. */
  function BackendError(s: Session, fallback: FeedbackDetail): (t: Session)
    ensures t == s.(currentFeedback := Some(fallback), isAnalyzing := false, uploadProgress := "")
    ensures ScreenOf(s) == AnalyzingScreen ==> ScreenOf(t) == ReportScreen
  {
    s.(isAnalyzing := false, uploadProgress := "", currentFeedback := Some(fallback))
  }

  /** `${x?.status}`: a missing status prints as `undefined`, a `null` one
      as `null`. */
  function StatusInterpolation(x: StatusField): (v: string)
    ensures x.Text? ==> v == x.text
    ensures x == Undefined ==> v == "undefined"
    ensures x == Null ==> v == "null"
  {
    match x
    case Undefined => "undefined"
    case Null => "null"
    case Text(t) => t
  }

  const PollingPrefix: string := "분석 중... (STT: "

  function PollingText(r: StatusResults): string {
    PollingPrefix + StatusInterpolation(r.stt) + ", Face: " + StatusInterpolation(r.face)
      + ", Segment: " + StatusInterpolation(r.segment) + ")"
  }

  /** The progress text tells a `null` stt status from a missing one. */
  lemma {:induction false} NullAndMissingPrintDifferently(r: StatusResults)
    ensures PollingText(r.(stt := Null)) != PollingText(r.(stt := Undefined))
  {
    var p := PollingText(r.(stt := Null));
    var q := PollingText(r.(stt := Undefined));
    assert p[|PollingPrefix|] == 'n';
    assert q[|PollingPrefix|] == 'u';
  }

  const SummaryPendingText: string := "분석 완료, 결과 생성 중..."

  /** An "all done" response whose summary request then fails: the progress
      text already reads that the result is being generated, and the error is
      rethrown inside the timer callback, so nothing else changes and the
      screen stays where it was. */
  function OnSummaryRequestError(s: Session): (t: Session)
    ensures t.uploadProgress == SummaryPendingText
    ensures t.(uploadProgress := s.uploadProgress) == s
    ensures ScreenOf(t) == ScreenOf(s)
  {
    s.(uploadProgress := SummaryPendingText)
  }

  /** What one `status-all` response does to the session. When all jobs are
      done, the summary is fetched and shown; when a job failed, the error is
      thrown inside the timer callback, where no handler catches it, so the
      session is left as it is; otherwise only the progress text changes
      and another query is scheduled. `username` and `airlineName` are the
      values the polling closure captured. */
  function OnStatusResponse(s: Session, r: StatusResults, summary: Summary,
                            username: string, airlineName: Option<string>, date: string): (t: Session)
    ensures ClassifyPoll(r) == Done ==>
              t == s.(currentFeedback := Some(FromSummary(summary, username, airlineName, date)),
                      isAnalyzing := false, uploadProgress := "")
    ensures ClassifyPoll(r) == Failed ==> t == s
    ensures ClassifyPoll(r).Retry? ==> t == s.(uploadProgress := PollingText(r))
    ensures t.isSaved == s.isSaved && t.feedbacks == s.feedbacks && t.timer == s.timer
  {
    match ClassifyPoll(r)
    case Done =>
      s.(currentFeedback := Some(FromSummary(summary, username, airlineName, date)),
         isAnalyzing := false, uploadProgress := "")
    case Failed => s
    case Retry(_) => s.(uploadProgress := PollingText(r))
  }

  /** `handleSaveReport`: with feedback on screen, append exactly one report
      built from it, with the timer as its duration, and mark the session
      saved; without feedback, do nothing. */
  function SaveReport(s: Session, now: int): (t: Session)
    ensures s.currentFeedback.None? ==> t == s
    ensures s.currentFeedback.Some? ==>
              && |t.feedbacks| == |s.feedbacks| + 1
              && t.feedbacks[..|s.feedbacks|] == s.feedbacks
              && t.feedbacks[|s.feedbacks|] == ToReport(s.currentFeedback.value, s.timer, now)
              && t.isSaved
              && t == s.(feedbacks := t.feedbacks, isSaved := true)
  {
    if s.currentFeedback.Some? then
      s.(feedbacks := s.feedbacks + [ToReport(s.currentFeedback.value, s.timer, now)], isSaved := true)
    else s
  }

  /** The saved report carries the feedback's score, grade and evaluation
      and the session's duration. */
  lemma SavedReportFields(s: Session, now: int)
    requires s.currentFeedback.Some?
    ensures var e := SaveReport(s, now).feedbacks[|s.feedbacks|];
      && e.score == s.currentFeedback.value.totalScore
      && e.grade == s.currentFeedback.value.grade
      && e.feedback == s.currentFeedback.value.overallEvaluation
      && e.duration == s.timer
  {
  }

  /** The save button is only drawn on the report screen, which is never
      shown once the session is saved: from the screen a report can be saved
      once. Calling the handler again would append a second copy. */
  lemma SaveButtonOnlyWhenUnsaved(s: Session, now: int)
    requires ScreenOf(s) == ReportScreen
    ensures ScreenOf(SaveReport(s, now)) == SavedScreen
    ensures |SaveReport(SaveReport(s, now), now).feedbacks| == |s.feedbacks| + 2
  {
  }

  /** `resetInterviewState`: every flag off, no airline, no feedback, the
      timer stopped at zero. The report list is kept. */
  function Reset(s: Session): (t: Session)
    ensures !t.isInterviewing && !t.isSaved && !t.isAnalyzing && !t.showAirlineSelection
    ensures t.selectedAirline.None? && t.currentFeedback.None?
    ensures t.timer == 0 && !t.timerRunning
    ensures t.feedbacks == s.feedbacks
    ensures t.currentQuestion == s.currentQuestion && t.uploadProgress == s.uploadProgress
  {
    s.(isInterviewing := false, isSaved := false, isAnalyzing := false,
       showAirlineSelection := false, selectedAirline := None, currentFeedback := None,
       timerRunning := false, timer := 0)
  }

  /** Resetting twice is resetting once, and a reset session shows the start
      screen. */
  lemma ResetIdempotent(s: Session)
    ensures Reset(Reset(s)) == Reset(s)
    ensures ScreenOf(Reset(s)) == StartScreen
  {
  }

  /** The "start a new interview" button of the saved screen: reset, then
      open the airline list. */
  function StartNewInterview(s: Session): (t: Session)
    ensures ScreenOf(t) == AirlineSelectionScreen
    ensures t == StartInterview(Reset(s))
  {
    Reset(s).(showAirlineSelection := true)
  }

  /** Polling is not cancelled by a reset: a late "all done" response after
      the user left still puts a report on the screen. */
  lemma LateResultAfterReset(s: Session, r: StatusResults, summary: Summary,
                             username: string, airlineName: Option<string>, date: string)
    requires ClassifyPoll(r) == Done
    ensures ScreenOf(OnStatusResponse(Reset(s), r, summary, username, airlineName, date)) == ReportScreen
  {
  }

  /** A failed job leaves the screen on the analysing view: the failure
      never reaches the fallback. Only a later reset of the screen leaves it. */
  lemma FailedJobStaysAnalyzing(s: Session, r: StatusResults, summary: Summary,
                                username: string, airlineName: Option<string>, date: string)
    requires ScreenOf(s) == AnalyzingScreen && ClassifyPoll(r) == Failed
    ensures ScreenOf(OnStatusResponse(s, r, summary, username, airlineName, date)) == AnalyzingScreen
  {
  }

  /** The whole happy path from a fresh screen: pick an airline, answer for
      `n` seconds, stop, let the timer's callback fire `m` more times, get
      an "all done" response and save. Exactly one report is appended; its
      duration is the `n` seconds recorded before the stop and its grade is
      the grade of its score. */
  lemma {:induction false} HappyPath(reports: seq<InterviewReport>, a: Airline, pick: nat, n: nat, m: nat,
                                     r: StatusResults, summary: Summary, username: string, date: string, now: int)
    requires IsRandomIndex(pick, |a.questions|)
    requires ClassifyPoll(r) == Done
    ensures var s0 := Initial(reports);
      var s1 := StartInterview(s0);
      var s2 := SelectAirline(s1, a, pick);
      var s3 := Ticks(s2, n);
      var s4 := Ticks(ToggleInterview(s3), m);
      var s5 := OnStatusResponse(s4, r, summary, username, Some(a.name), date);
      var s6 := SaveReport(s5, now);
      && ScreenOf(s1) == AirlineSelectionScreen
      && ScreenOf(s2) == InterviewScreen
      && ScreenOf(s4) == AnalyzingScreen
      && ScreenOf(s5) == ReportScreen
      && ScreenOf(s6) == SavedScreen
      && |s6.feedbacks| == |reports| + 1
      && s6.feedbacks[..|reports|] == reports
      && s6.feedbacks[|reports|].duration == n
      && s6.feedbacks[|reports|].grade == GradeOf(s6.feedbacks[|reports|].score).Label()
  {
    var s0 := Initial(reports);
    var s1 := StartInterview(s0);
    var s2 := SelectAirline(s1, a, pick);
    var s3 := Ticks(s2, n);
    TicksCount(s2, n);
    var s3' := ToggleInterview(s3);
    var s4 := Ticks(s3', m);
    TicksCount(s3', m);
    var s5 := OnStatusResponse(s4, r, summary, username, Some(a.name), date);
    var s6 := SaveReport(s5, now);
    assert s6.feedbacks[|reports|] == ToReport(s5.currentFeedback.value, n, now);
  }
}
