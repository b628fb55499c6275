/**
 * The browser's submit handler against the submission endpoint: what its
 * `ok` test tells the form about the row.
 */
module Submission {
  import opened JsValues
  import opened Booking
  import opened SubmitRoute

  /**
   * Against the submission endpoint, the browser's `ok` test holds exactly on
   * the 200 answer, which is given only once the row was handed to the sheet.
   */
  lemma OkOnlyWhenStored(spreadsheetId: Option<string>, access: AccessCheck, request: Option<Body>,
                         timestamp: string, append: AppendResult)
    ensures var r := Post(spreadsheetId, access, request, timestamp, append);
      ResponseOk(r.status) <==> r.status == 200 && r.appended.Some? && r.appended == BuildRow(timestamp, request.value)
  {
    PostStatus(spreadsheetId, access, request, timestamp, append);
    PostAppendsBuiltRow(spreadsheetId, access, request, timestamp, append);
  }
}
