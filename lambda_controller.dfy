/** `LambdaController`: the Lambda entry point, which tells the scheduled
    daily-report event apart from Slack's HTTP events. */
module LambdaController {
  import opened Common
  import SlackMessage
  import SlackController

  const DailyReportEvent: string := "dailyReport"
  /** `JSON.stringify({ message: 'Daily report processed successfully' })`. */
  const DailyReportBody: string := "{\"message\":\"Daily report processed successfully\"}"
  const Ok200: int := 200

  /** What `handleEvent` resolves to: the daily-report response, or
      whatever the Slack receiver's handler returns for the event. */
  datatype Response = HttpResponse(statusCode: int, body: string) | ReceiverResponse(value: string)

  /** What one event did: the daily report's posts, whether the Slack
      receiver was started, and how the handler settled. */
  datatype LambdaRun = LambdaRun(reportPosts: seq<SlackMessage.Post>, receiverStarted: bool, result: Result<Response>)

  /** `handleEvent` for an event whose `eventType` is `eventType` (None:
      the event has none). A daily-report event runs `handleDailyReport`
      once and answers 200, or rejects with its error; any other event
      goes to the receiver, whose outcome is `receiver`. */
  function HandleEvent(eventType: Option<string>, report: Result<string>, channel: Option<string>,
                       receiver: Result<string>): (r: LambdaRun)
    ensures r.receiverStarted <==> eventType != Some(DailyReportEvent)
    ensures r.receiverStarted ==> r.reportPosts == []
    ensures r.receiverStarted && receiver.Ok? ==> r.result == Ok(ReceiverResponse(receiver.value))
    ensures r.receiverStarted && receiver.Err? ==> r.result == Err(receiver.error)
    ensures !r.receiverStarted ==>
              var daily := SlackController.HandleDailyReport(report, channel);
              r.reportPosts == daily.posts
              && (daily.result.Pass? ==> r.result == Ok(HttpResponse(Ok200, DailyReportBody)))
              && (daily.result.Fail? ==> r.result == Err(daily.result.error))
  {
    if eventType == Some(DailyReportEvent) then
      var daily := SlackController.HandleDailyReport(report, channel);
      match daily.result
      case Fail(e) => LambdaRun(daily.posts, false, Err(e))
      case Pass => LambdaRun(daily.posts, false, Ok(HttpResponse(Ok200, DailyReportBody)))
    else
      match receiver
      case Err(e) => LambdaRun([], true, Err(e))
      case Ok(v) => LambdaRun([], true, Ok(ReceiverResponse(v)))
  }

  /** A daily-report event whose report and notice go through posts the
      report once and answers 200. */
  lemma DailyReportPostsOnce(report: Result<string>, channel: Option<string>, receiver: Result<string>)
    requires report.Ok? && Truthy(channel)
    ensures var r := HandleEvent(Some(DailyReportEvent), report, channel, receiver);
      |r.reportPosts| == 1 && r.reportPosts[0].channel == channel.value
      && r.result == Ok(HttpResponse(Ok200, DailyReportBody))
  {
  }
}
