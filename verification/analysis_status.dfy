/** The poll step of the analysis flow (src/screens/MockInterview/index.tsx,
    `pollAnalysis`): each `status-all` response carries one status per job,
    in two vocabularies, and is classified as done, failed or "ask again in
    five seconds". */
module AnalysisStatus {
  
  /** What `stt?.status` (and its siblings) yields: `undefined` when the job
      entry or its status is missing, `null` when the backend sends a JSON
      null, or the status text. */
  datatype StatusField = Undefined | Null | Text(text: string)

  /** The three statuses of one `status-all` response. */
  datatype StatusResults = StatusResults(stt: StatusField, face: StatusField, segment: StatusField)

  datatype PollStep = Done | Failed | Retry(delayMs: nat)

  /** Delay between two status queries. */
  const RetryDelayMs: nat := 5000

  /** `allCompleted`: speech-to-text says `COMPLETED`, the two others say
      `SUCCEEDED`. */
  predicate AllCompleted(r: StatusResults) {
    r.stt == Text("COMPLETED") && r.face == Text("SUCCEEDED") && r.segment == Text("SUCCEEDED")
  }

  /** `anyFailed`: some job says `FAILED`. */
  predicate AnyFailed(r: StatusResults) {
    r.stt == Text("FAILED") || r.face == Text("FAILED") || r.segment == Text("FAILED")
  }

  /** One poll step: completion is checked before failure, and anything else
      schedules another query after `RetryDelayMs`. */
  function ClassifyPoll(r: StatusResults): (step: PollStep)
    ensures step == Done <==> AllCompleted(r)
    ensures step == Failed <==> !AllCompleted(r) && AnyFailed(r)
    ensures step.Retry? <==> !AllCompleted(r) && !AnyFailed(r)
    ensures step.Retry? ==> step.delayMs == RetryDelayMs
  {
    if AllCompleted(r) then Done
    else if AnyFailed(r) then Failed
    else Retry(RetryDelayMs)
  }

  /** Completion and failure never hold together, so the order of the two
      tests does not matter. */
  lemma DoneExcludesFailed(r: StatusResults)
    ensures !(AllCompleted(r) && AnyFailed(r))
  {
  }

  /** A speech-to-text job that answers in the other jobs' vocabulary
      (`SUCCEEDED`), or a missing or null status, can never complete the poll: it
      is retried for ever unless another job fails. */
  lemma ForeignOrMissingStatusNeverDone(r: StatusResults)
    requires r.stt == Text("SUCCEEDED") || !r.stt.Text? || !r.face.Text? || !r.segment.Text?
    ensures ClassifyPoll(r) != Done
    ensures !AnyFailed(r) ==> ClassifyPoll(r) == Retry(RetryDelayMs)
  {
  }

  /** The job kinds and a single status vocabulary for all of them. */
  datatype JobKind = Stt | Face | Segment
  datatype JobStatus = Succeeded | JobFailed | Pending

  /** The word each kind's backend uses for success. */
  function SuccessWord(k: JobKind): string {
    if k == Stt then "COMPLETED" else "SUCCEEDED"
  }

  /** Translates one raw status into the single vocabulary. */
  function Normalize(k: JobKind, s: StatusField): (n: JobStatus)
    ensures n == Succeeded <==> s == Text(SuccessWord(k))
    ensures n == JobFailed <==> s == Text("FAILED")
  {
    if s == Text(SuccessWord(k)) then Succeeded
    else if s == Text("FAILED") then JobFailed
    else Pending
  }

  /** The resolution rule stated on normalised statuses: all succeeded,
      else some failed, else still pending. */
  function Resolve(stt: JobStatus, face: JobStatus, segment: JobStatus): PollStep {
    if stt == Succeeded && face == Succeeded && segment == Succeeded then Done
    else if JobFailed in {stt, face, segment} then Failed
    else Retry(RetryDelayMs)
  }

  /** Classifying the raw strings is the same as normalising each status and
      applying the resolution rule. */
  lemma ClassifyPollIsResolve(r: StatusResults)
    ensures ClassifyPoll(r) == Resolve(Normalize(Stt, r.stt), Normalize(Face, r.face), Normalize(Segment, r.segment))
  {
  }

  /** Where a sequence of polls stands: resolved by the `queries`-th
      response, or still polling after using every response. */
  datatype PollOutcome = Resolved(step: PollStep, queries: nat) | StillPolling(queries: nat) {
    function OneEarlier(): PollOutcome {
      match this
      case Resolved(s, q) => Resolved(s, q + 1)
      case StillPolling(q) => StillPolling(q + 1)
    }
  }

  /** The self-rescheduling poll loop, fed the backend's successive
      responses: it stops at the first response that is not a retry. There
      is no retry limit, so a backend that keeps answering "in progress"
      keeps it polling. */
  function RunPolls(responses: seq<StatusResults>): (o: PollOutcome)
    ensures o.queries <= |responses|
    ensures o.Resolved? ==>
              && o.queries >= 1 && !o.step.Retry?
              && o.step == ClassifyPoll(responses[o.queries - 1])
    ensures o.StillPolling? ==> o.queries == |responses|
    ensures forall i :: 0 <= i < |responses| && (o.StillPolling? || i < o.queries - 1) ==>
                          ClassifyPoll(responses[i]).Retry?
    decreases |responses|
  {
    if |responses| == 0 then StillPolling(0)
    else if ClassifyPoll(responses[0]).Retry? then RunPolls(responses[1..]).OneEarlier()
    else Resolved(ClassifyPoll(responses[0]), 1)
  }

  /** Once resolved, the loop asks nothing more: responses the backend would
      have given later change nothing. */
  lemma {:induction false} NoQueryAfterResolution(responses: seq<StatusResults>, later: seq<StatusResults>)
    requires RunPolls(responses).Resolved?
    ensures RunPolls(responses + later) == RunPolls(responses)
    decreases |responses|
  {
    var all := responses + later;
    assert all[0] == responses[0];
    if ClassifyPoll(responses[0]).Retry? {
      assert all[1..] == responses[1..] + later;
      NoQueryAfterResolution(responses[1..], later);
    }
  }
}
