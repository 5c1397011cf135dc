/** `SlackController`: answers mentions of the bot by its one user, and
    posts the daily report. */
module SlackController {
  import opened Common
  import opened Seqs
  import SlackMessage

  const StatusKeyword: string := "タスク状況"
  const GreetingKeyword: string := "こんにちは"
  const FallbackText: string := "なんかエラーが発生したみたいです"
  const GreetingReply: string := "こんにちは！"

  /** The fields of an `app_mention` event the controller reads. */
  datatype Mention = Mention(user: Option<string>, text: Option<string>, ts: string, threadTs: Option<string>)

  /** What a mention leads to. */
  datatype Route = Ignored | TaskStatus | Greeting | NoReply

  /** `handleAppMention`'s routing: mentions from anyone but the target
      user (or with no target user set) are ignored; otherwise the status
      keyword is checked before the greeting keyword. */
  function RouteOf(targetUserId: string, m: Mention): (r: Route)
    ensures r == Ignored <==> targetUserId == "" || m.user != Some(targetUserId)
    ensures r == TaskStatus <==> r != Ignored && Contains(OrEmpty(m.text), StatusKeyword)
    ensures r == Greeting <==> r != Ignored && !Contains(OrEmpty(m.text), StatusKeyword)
                               && Contains(OrEmpty(m.text), GreetingKeyword)
  {
    if targetUserId == "" || m.user != Some(targetUserId) then Ignored
    else
      var text := OrElse(m.text, "");
      if Contains(text, StatusKeyword) then TaskStatus
      else if Contains(text, GreetingKeyword) then Greeting
      else NoReply
  }

  /** `event.thread_ts || event.ts`. */
  function ReplyThread(m: Mention): (r: string)
    ensures Truthy(m.threadTs) ==> r == m.threadTs.value
    ensures !Truthy(m.threadTs) ==> r == m.ts
  {
    OrElse(m.threadTs, m.ts)
  }

  /** One `say({ text, thread_ts })` call. */
  datatype Reply = Reply(text: string, threadTs: string)

  /** What handling a mention did: whether the summary report ran, the
      replies said, and how the handler settled. */
  datatype MentionRun = MentionRun(reportRan: bool, replies: seq<Reply>, result: Outcome)

  /** `handleAppMention` for a mention; `report` is what the summary
      report's `execute` settles to if it is run. A report failure
      propagates and nothing is said. */
  function HandleAppMention(targetUserId: string, m: Mention, report: Result<string>): (r: MentionRun)
    ensures r.reportRan <==> RouteOf(targetUserId, m) == TaskStatus
    ensures |r.replies| <= 1
    ensures r.result.Fail? <==> r.reportRan && report.Err?
    ensures r.result.Fail? ==> r.replies == [] && r.result.error == report.error
    ensures |r.replies| == 1 ==> r.replies[0].threadTs == ReplyThread(m) && r.replies[0].text != ""
    ensures RouteOf(targetUserId, m) == Greeting ==> r.replies == [Reply(GreetingReply, ReplyThread(m))]
    ensures RouteOf(targetUserId, m) == TaskStatus && report.Ok? ==>
              r.replies == [Reply(OrElse(Some(report.value), FallbackText), ReplyThread(m))]
    ensures RouteOf(targetUserId, m) in {Ignored, NoReply} ==> r == MentionRun(false, [], Pass)
  {
    match RouteOf(targetUserId, m)
    case Ignored => MentionRun(false, [], Pass)
    case NoReply => MentionRun(false, [], Pass)
    case Greeting => MentionRun(false, [Reply(GreetingReply, ReplyThread(m))], Pass)
    case TaskStatus =>
      match report
      case Err(e) => MentionRun(true, [], Fail(e))
      case Ok(analysis) => MentionRun(true, [Reply(OrElse(Some(analysis), FallbackText), ReplyThread(m))], Pass)
  }

  /** `handleDailyReport`: run the summary report and notify its text, or
      the fallback when it is empty; a report failure propagates before
      anything is posted, and so does the notifier's. */
  function HandleDailyReport(report: Result<string>, channel: Option<string>): (r: SlackMessage.Delivery)
    ensures report.Err? ==> r.posts == [] && r.result == Fail(report.error)
    ensures report.Ok? ==> r == SlackMessage.Notify(channel, OrElse(Some(report.value), FallbackText))
    ensures forall i :: 0 <= i < |r.posts| ==> r.posts[i].text != ""
  {
    match report
    case Err(e) => SlackMessage.Delivery([], Fail(e))
    case Ok(analysis) => SlackMessage.Notify(channel, OrElse(Some(analysis), FallbackText))
  }

  /** A missing text is the empty text and gets no reply. */
  lemma MissingTextGetsNoReply(targetUserId: string, m: Mention, report: Result<string>)
    requires m.text.None?
    ensures HandleAppMention(targetUserId, m, report) == MentionRun(false, [], Pass)
  {
    assert !Contains("", StatusKeyword) && !Contains("", GreetingKeyword);
  }

  /** A text with both keywords is answered with the status report. */
  lemma StatusKeywordWins(targetUserId: string, m: Mention)
    requires targetUserId != "" && m.user == Some(targetUserId)
    requires Contains(OrEmpty(m.text), GreetingKeyword) && Contains(OrEmpty(m.text), StatusKeyword)
    ensures RouteOf(targetUserId, m) == TaskStatus
  {
  }

  /** The status keyword is recognised wherever it occurs in the text. */
  lemma {:induction false} StatusKeywordAnywhere(targetUserId: string, m: Mention, before: string, after: string)
    requires targetUserId != "" && m.user == Some(targetUserId)
    requires m.text == Some(before + StatusKeyword + after)
    ensures RouteOf(targetUserId, m) == TaskStatus
  {
    ContainsInfix(before, StatusKeyword, after);
  }
}
