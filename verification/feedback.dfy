/** The analysis summary the backend returns and the feedback record the
    report screen shows (src/screens/MockInterview/index.tsx, the
    `backendFeedback` mapping, `generateOverallEvaluation` and the
    `InterviewReport` built by `handleSaveReport`). */
module Feedback {
  import opened Wrappers
  import opened JsValues
  import opened Grading

  /** `speech_analysis` of the summary; every score may be missing. */
  datatype SpeechAnalysis = SpeechAnalysis(clarity: Option<int>, pace: Option<int>, volume: Option<int>)

  /** `facial_analysis` of the summary. */
  datatype FacialAnalysis = FacialAnalysis(confidence: Option<int>)

  /** The `summary` object of the analysis result. */
  datatype Summary = Summary(
    overallScore: Option<int>,
    speech: Option<SpeechAnalysis>,
    facial: Option<FacialAnalysis>,
    recommendations: Option<seq<string>>)
  {
    /** `speech_analysis?.clarity` and its siblings. */
    function Clarity(): Option<int> {
      if speech.Some? then speech.value.clarity else None
    }

    function Pace(): Option<int> {
      if speech.Some? then speech.value.pace else None
    }

    function Volume(): Option<int> {
      if speech.Some? then speech.value.volume else None
    }

    function Confidence(): Option<int> {
      if facial.Some? then facial.value.confidence else None
    }
  }

  datatype DetailedScores = DetailedScores(voiceAccuracy: int, expression: int, speechPattern: int, answerQuality: int)

  datatype DetailedFeedback = DetailedFeedback(
    voiceAccuracyDetail: string,
    expressionDetail: string,
    speechPatternDetail: string,
    answerQualityDetail: string)

  /** The report shown after an analysis. */
  datatype FeedbackDetail = FeedbackDetail(
    candidateName: string,
    airline: string,
    position: string,
    interviewDate: string,
    version: string,
    totalScore: int,
    grade: string,
    overallEvaluation: string,
    detailedScores: DetailedScores,
    voiceAnalysis: string,
    expressionAnalysis: string,
    speechAnalysis: string,
    answerAnalysis: string,
    detailedFeedback: DetailedFeedback,
    improvements: seq<string>,
    recommendedActions: seq<string>)

  /** The defaults that replace a missing (or zero) score. */
  const DefaultTotalScore: int := 85
  const DefaultVoiceAccuracy: int := 88
  const DefaultExpression: int := 82
  const DefaultSpeechPattern: int := 85
  const DefaultAnswerQuality: int := 87

  const DefaultAirlineName: string := "항공사"
  const Position: string := "승무원"
  const Version: string := "v2.0"

  const DefaultImprovements: seq<string> := [
    "좀 더 자신감 있는 목소리 톤 연습",
    "구체적인 사례 제시",
    "간결한 답변 구성"
  ]

  const DefaultRecommendedActions: seq<string> := [
    "발성 연습을 통한 목소리 개선",
    "모의면접 반복 연습",
    "업계 지식 보완"
  ]

  const FixedDetailedFeedback: DetailedFeedback := DetailedFeedback(
    "발음과 억양이 자연스럽고 청취하기 용이합니다.",
    "표정이 밝고 긍정적이며 면접관과의 소통 의지가 잘 드러납니다.",
    "말의 속도와 강약이 적절하며 듣기 편안합니다.",
    "질문의 핵심을 파악하고 체계적으로 답변했습니다.")

  /** `overall_score || 85`, the score both the total and the evaluation
      read. */
  function EffectiveScore(s: Summary): (score: int)
    ensures score != 0
    ensures s.overallScore.None? || s.overallScore == Some(0) ==> score == DefaultTotalScore
    ensures s.overallScore.Some? && s.overallScore.value != 0 ==> score == s.overallScore.value
  {
    OrNumber(s.overallScore, DefaultTotalScore)
  }

  /** `generateOverallEvaluation`: one of the four fixed narratives, chosen
      by the band of the effective score. */
  function OverallEvaluation(s: Summary): (t: string)
    ensures t in {ExcellentText, GoodText, FairText, PoorText}
    ensures t == EvaluationText(BandOf(EffectiveScore(s)))
  {
    var score := OrNumber(s.overallScore, DefaultTotalScore);
    if score >= 90 then ExcellentText
    else if score >= 80 then GoodText
    else if score >= 70 then FairText
    else PoorText
  }

  /** Without a usable overall score the evaluation is the "good" one. */
  lemma MissingScoreEvaluatesGood(s: Summary)
    requires s.overallScore.None? || s.overallScore == Some(0)
    ensures OverallEvaluation(s) == GoodText
  {
  }

  /** A score line such as `음성 명확도: 88점`. */
  function ScoreLine(caption: string, score: int): string {
    caption + ": " + IntToString(score) + "점"
  }

  /** The `backendFeedback` record built from a summary. `airlineName` is
      the selected airline's name, if any, and `date` the locale date
      text. */
  function FromSummary(s: Summary, username: string, airlineName: Option<string>, date: string): (f: FeedbackDetail)
    ensures f.totalScore == EffectiveScore(s)
    ensures f.grade == GradeOf(f.totalScore).Label()
    ensures f.overallEvaluation == EvaluationText(BandOf(f.totalScore))
    ensures s.overallScore.Some? && s.overallScore.value != 0 ==> f.totalScore == s.overallScore.value
    ensures s.Clarity().Some? && s.Clarity().value != 0 ==> f.detailedScores.voiceAccuracy == s.Clarity().value
    ensures s.Clarity().None? || s.Clarity() == Some(0) ==> f.detailedScores.voiceAccuracy == DefaultVoiceAccuracy
    ensures s.Confidence().Some? && s.Confidence().value != 0 ==> f.detailedScores.expression == s.Confidence().value
    ensures s.Confidence().None? || s.Confidence() == Some(0) ==> f.detailedScores.expression == DefaultExpression
    ensures s.Pace().Some? && s.Pace().value != 0 ==> f.detailedScores.speechPattern == s.Pace().value
    ensures s.Pace().None? || s.Pace() == Some(0) ==> f.detailedScores.speechPattern == DefaultSpeechPattern
    ensures s.Volume().Some? && s.Volume().value != 0 ==> f.detailedScores.answerQuality == s.Volume().value
    ensures s.Volume().None? || s.Volume() == Some(0) ==> f.detailedScores.answerQuality == DefaultAnswerQuality
    ensures f.voiceAnalysis == ScoreLine("음성 명확도", f.detailedScores.voiceAccuracy)
    ensures f.expressionAnalysis == ScoreLine("표정 자신감", f.detailedScores.expression)
    ensures f.speechAnalysis == ScoreLine("말하기 속도", f.detailedScores.speechPattern)
    ensures f.answerAnalysis == ScoreLine("답변 품질", f.detailedScores.answerQuality)
    ensures s.recommendations.Some? ==> f.improvements == f.recommendedActions == s.recommendations.value
    ensures s.recommendations.None? ==>
              f.improvements == DefaultImprovements && f.recommendedActions == DefaultRecommendedActions
    ensures airlineName.Some? && airlineName.value != "" ==> f.airline == airlineName.value
    ensures airlineName.None? || airlineName == Some("") ==> f.airline == DefaultAirlineName
    ensures f.airline != ""
    ensures f.position == Position && f.version == Version
    ensures f.detailedFeedback == FixedDetailedFeedback
    ensures f.candidateName == username && f.interviewDate == date
  {
    var clarity := OrNumber(s.Clarity(), DefaultVoiceAccuracy);
    var confidence := OrNumber(s.Confidence(), DefaultExpression);
    var pace := OrNumber(s.Pace(), DefaultSpeechPattern);
    var volume := OrNumber(s.Volume(), DefaultAnswerQuality);
    FeedbackDetail(
      username,
      OrString(airlineName, DefaultAirlineName),
      Position,
      date,
      Version,
      OrNumber(s.overallScore, DefaultTotalScore),
      GradeOf(OrNumber(s.overallScore, DefaultTotalScore)).Label(),
      OverallEvaluation(s),
      DetailedScores(clarity, confidence, pace, volume),
      ScoreLine("음성 명확도", OrNumber(s.Clarity(), DefaultVoiceAccuracy)),
      ScoreLine("표정 자신감", OrNumber(s.Confidence(), DefaultExpression)),
      ScoreLine("말하기 속도", OrNumber(s.Pace(), DefaultSpeechPattern)),
      ScoreLine("답변 품질", OrNumber(s.Volume(), DefaultAnswerQuality)),
      FixedDetailedFeedback,
      OrArray(s.recommendations, DefaultImprovements),
      OrArray(s.recommendations, DefaultRecommendedActions))
  }

  /** An empty recommendation list is kept as it is: `[]` is truthy, so it
      does not fall back to the default lists. */
  lemma EmptyRecommendationsKept(s: Summary, username: string, airlineName: Option<string>, date: string)
    requires s.recommendations == Some([])
    ensures FromSummary(s, username, airlineName, date).improvements == []
  {
  }

  /** A summary with a score of 88 yields grade B+ and the "good"
      narrative. */
  lemma ScoreEightyEight(s: Summary, username: string, airlineName: Option<string>, date: string)
    requires s.overallScore == Some(88)
    ensures FromSummary(s, username, airlineName, date).grade == "B+"
    ensures FromSummary(s, username, airlineName, date).overallEvaluation == GoodText
  {
  }

  /** An empty summary gives the neutral report: 85, B+, "good". */
  lemma EmptySummaryDefaults(username: string, airlineName: Option<string>, date: string)
    ensures var f := FromSummary(Summary(None, None, None, None), username, airlineName, date);
      && f.totalScore == 85 && f.grade == "B+" && f.overallEvaluation == GoodText
      && f.detailedScores == DetailedScores(88, 82, 85, 87)
  {
  }

  /** A saved report (`InterviewReport`). */
  datatype InterviewReport = InterviewReport(
    id: string,
    date: string,
    airline: string,
    username: string,
    score: int,
    feedback: string,
    duration: int,
    improvements: seq<string>,
    grade: string,
    detailedScores: DetailedScores,
    voiceAnalysis: string,
    expressionAnalysis: string,
    speechAnalysis: string,
    answerAnalysis: string,
    detailedFeedback: DetailedFeedback,
    recommendedActions: seq<string>)

  /** The report `handleSaveReport` builds from the shown feedback, the
      timer value and the creation time. */
  function ToReport(f: FeedbackDetail, timer: int, now: int): InterviewReport {
    InterviewReport(
      IntToString(now),
      f.interviewDate,
      f.airline,
      f.candidateName,
      f.totalScore,
      f.overallEvaluation,
      timer,
      f.improvements,
      f.grade,
      f.detailedScores,
      f.voiceAnalysis,
      f.expressionAnalysis,
      f.speechAnalysis,
      f.answerAnalysis,
      f.detailedFeedback,
      f.recommendedActions)
  }

  /** The report keeps everything of the feedback except the position and
      the version, so the feedback is recovered from it given those two. */
  function FeedbackOf(r: InterviewReport, position: string, version: string): FeedbackDetail {
    FeedbackDetail(
      r.username, r.airline, position, r.date, version, r.score, r.grade, r.feedback,
      r.detailedScores, r.voiceAnalysis, r.expressionAnalysis, r.speechAnalysis,
      r.answerAnalysis, r.detailedFeedback, r.improvements, r.recommendedActions)
  }

  /** Saving loses nothing of the feedback but its position and version,
      and stamps the duration and the id. */
  lemma ReportRoundTrip(f: FeedbackDetail, timer: int, now: int)
    ensures FeedbackOf(ToReport(f, timer, now), f.position, f.version) == f
    ensures ToReport(f, timer, now).duration == timer
    ensures ToReport(f, timer, now).id == IntToString(now)
  {
  }
}
