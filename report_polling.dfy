/**
 * Polling a submitted report job (`pollReportStatus`): the status is checked
 * again while it is IN_PROGRESS, COMPLETED ends the polling, FAILED and every
 * other status are errors. The remote job is the finite sequence of statuses
 * its successive checks return.
 */
module ReportPolling {

  import opened Seqs

  const InProgress: string := "IN_PROGRESS"
  const Completed: string := "COMPLETED"
  const Failed: string := "FAILED"

  datatype PollOutcome =
    | JobCompleted
    | JobFailed
    | UnknownStatus(status: string)
      /** The observed statuses ran out while the job was still IN_PROGRESS. */
    | StillInProgress

  /** The outcome and the number of status checks made to reach it. */
  datatype Poll = Poll(outcome: PollOutcome, checks: nat)

  /** The error message the source raises for a failed poll. */
  function PollErrorMessage(outcome: PollOutcome): (m: string)
    requires outcome.JobFailed? || outcome.UnknownStatus?
    ensures outcome.JobFailed? ==> m == "Report creation failed!"
    ensures outcome.UnknownStatus? ==> m == "Unknown report status encountered: '" + outcome.status + "'"
    ensures outcome.UnknownStatus? ==>
      |m| == |"Unknown report status encountered: '"| + |outcome.status| + 1
      && m[|"Unknown report status encountered: '"|..|m| - 1] == outcome.status
  {
    match outcome
    case JobFailed => "Report creation failed!"
    case UnknownStatus(s) => "Unknown report status encountered: '" + s + "'"
  }

  /**
   * Consumes one status per check. Every check but the last saw IN_PROGRESS;
   * the last check's status decides the outcome.
   */
  function PollReportStatus(statuses: seq<string>): (p: Poll)
    ensures p.checks <= |statuses|
    ensures forall i :: 0 <= i < p.checks - 1 ==> statuses[i] == InProgress
    ensures p.outcome.StillInProgress? <==> p.checks == |statuses| && forall i :: 0 <= i < |statuses| ==> statuses[i] == InProgress
    ensures p.outcome.JobCompleted? <==> 0 < p.checks && statuses[p.checks - 1] == Completed
    ensures p.outcome.JobFailed? <==> 0 < p.checks && statuses[p.checks - 1] == Failed
    ensures p.outcome.UnknownStatus? ==>
      0 < p.checks && p.outcome.status == statuses[p.checks - 1]
      && p.outcome.status !in {InProgress, Completed, Failed}
  {
    if statuses == [] then Poll(StillInProgress, 0)
    else if statuses[0] == InProgress then
      var rest := PollReportStatus(statuses[1..]);
      Poll(rest.outcome, rest.checks + 1)
    else if statuses[0] == Completed then Poll(JobCompleted, 1)
    else if statuses[0] == Failed then Poll(JobFailed, 1)
    else Poll(UnknownStatus(statuses[0]), 1)
  }

  /** k IN_PROGRESS statuses followed by COMPLETED take exactly k + 1 checks. */
  lemma {:induction false} CompletesAfterInProgress(k: nat, rest: seq<string>)
    ensures PollReportStatus(Repeat(InProgress, k) + [Completed] + rest) == Poll(JobCompleted, k + 1)
  {
    if k > 0 {
      var s := Repeat(InProgress, k) + [Completed] + rest;
      assert s[1..] == Repeat(InProgress, k - 1) + [Completed] + rest;
      CompletesAfterInProgress(k - 1, rest);
    }
  }

  /** k IN_PROGRESS statuses followed by FAILED take exactly k + 1 checks and fail. */
  lemma {:induction false} FailsAfterInProgress(k: nat, rest: seq<string>)
    ensures PollReportStatus(Repeat(InProgress, k) + [Failed] + rest) == Poll(JobFailed, k + 1)
  {
    if k > 0 {
      var s := Repeat(InProgress, k) + [Failed] + rest;
      assert s[1..] == Repeat(InProgress, k - 1) + [Failed] + rest;
      FailsAfterInProgress(k - 1, rest);
    }
  }

  /** An unrecognised first status is an error naming it, after a single check. */
  lemma UnknownFailsFast(status: string, rest: seq<string>)
    requires status !in {InProgress, Completed, Failed}
    ensures PollReportStatus([status] + rest) == Poll(UnknownStatus(status), 1)
    ensures PollErrorMessage(UnknownStatus(status)) == "Unknown report status encountered: '" + status + "'"
  {
  }

  /** SUBMITTED is not special-cased: as a first status it is an unknown-status error. */
  lemma SubmittedIsUnknown(rest: seq<string>)
    ensures PollReportStatus(["SUBMITTED"] + rest) == Poll(UnknownStatus("SUBMITTED"), 1)
  {
  }

  /** IN_PROGRESS then COMPLETED succeeds after exactly two checks. */
  lemma InProgressThenCompleted()
    ensures PollReportStatus([InProgress, Completed]) == Poll(JobCompleted, 2)
  {
    CompletesAfterInProgress(1, []);
    assert Repeat(InProgress, 1) + [Completed] + [] == [InProgress, Completed];
  }

  /** IN_PROGRESS, IN_PROGRESS, COMPLETED succeeds after exactly three checks. */
  lemma TwoInProgressThenCompleted()
    ensures PollReportStatus([InProgress, InProgress, Completed]) == Poll(JobCompleted, 3)
  {
    CompletesAfterInProgress(2, []);
    assert Repeat(InProgress, 2) + [Completed] + [] == [InProgress, InProgress, Completed];
  }
}
