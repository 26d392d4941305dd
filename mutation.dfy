/** The `sendReport` mutation, which the server implements as a stub. */
module Mutation {

  /** The GraphQL `Result` type: a success flag and a message. */
  datatype ReportResult = ReportResult(success: bool, msg: string)

  /** The message the stub always returns. */
  const NoMsg: string := "no msg"

  /**
   * `sendReport(email, dayStart, venueId)`: the arguments are accepted and ignored;
   * no report is aggregated and nothing is sent.
   */
  function SendReport(email: string, dayStart: string, venueId: string): (r: ReportResult)
    ensures r.success
    ensures r.msg == NoMsg
  {
    ReportResult(true, NoMsg)
  }

  /** The answer does not depend on any argument. */
  lemma SendReportIgnoresArguments(
    email1: string, dayStart1: string, venueId1: string,
    email2: string, dayStart2: string, venueId2: string)
    ensures SendReport(email1, dayStart1, venueId1) == SendReport(email2, dayStart2, venueId2)
  {
  }
}
