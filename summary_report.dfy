/** `RecentTodosSummaryReportUseCase`: the advisor's commentary on the
    todos whose deadline is near. */
module SummaryReport {
  import opened Common
  import opened ToDoEntity

  /** What one run did: the list the advisor was asked about (None: it was
      not asked), and what `execute` settled to. */
  datatype ReportRun = ReportRun(analyzed: Option<seq<ToDo>>, result: Result<string>)

  /** `execute()`: fetch the approaching todos, hand exactly that list to
      `analyzeTodoProgress` (an empty one too) and return its text
      unchanged; a failure of either call is logged and rethrown. */
  function Execute(fetched: Result<seq<DueToDo>>, analyze: seq<ToDo> -> Result<string>): (r: ReportRun)
    ensures fetched.Err? ==> r.analyzed.None? && r.result == Err(fetched.error)
    ensures fetched.Ok? ==> r.analyzed == Some(fetched.value) && r.result == analyze(fetched.value)
  {
    match fetched
    case Err(e) => ReportRun(None, Err(e))
    case Ok(todos) => ReportRun(Some(todos), analyze(todos))
  }
}
