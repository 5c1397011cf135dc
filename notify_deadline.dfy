/** `NotifyUpcomingDeadlineUseCase`: one notice listing the todos whose
    deadline is near. */
module NotifyUpcomingDeadline {
  import opened Common
  import opened Seqs
  import opened ToDoEntity

  const Header: string := "以下のタスクの締切が近づいています:"

  /** `- ${todo.title} (締切: ${todo.dueDate.toLocaleString()})`. */
  function DeadlineLine(t: DueToDo, loc: Locale): (r: string)
    ensures '\n' !in t.title && '\n' !in loc.dateTimeText(t.dueDate.value) ==> '\n' !in r
  {
    "- " + t.title + " (締切: " + loc.dateTimeText(t.dueDate.value) + ")"
  }

  /** The notice: the header, a line break, and one line per todo joined
      by line breaks. */
  function DeadlineMessage(todos: seq<DueToDo>, loc: Locale): (r: string)
    ensures |r| > |Header| && r[..|Header|] == Header && r[|Header|] == '\n'
    ensures todos == [] ==> r == Header + "\n"
  {
    Header + "\n" + Join(MapSeq(todos, (t: DueToDo) => DeadlineLine(t, loc)), "\n")
  }

  /** What one run did: the messages handed to `notify`, and how `execute`
      settled. */
  datatype NoticeRun = NoticeRun(sent: seq<string>, result: Outcome)

  /** `execute()`: nothing is sent for an empty list, one message for a
      non-empty one; a failure of the todo source or of `notify` is not
      caught. */
  function Execute(fetched: Result<seq<DueToDo>>, loc: Locale, notify: string -> Outcome): (r: NoticeRun)
    ensures |r.sent| <= 1
    ensures fetched.Err? ==> r.sent == [] && r.result == Fail(fetched.error)
    ensures fetched.Ok? && fetched.value == [] ==> r.sent == [] && r.result == Pass
    ensures fetched.Ok? && fetched.value != [] ==>
              r.sent == [DeadlineMessage(fetched.value, loc)] && r.result == notify(r.sent[0])
  {
    match fetched
    case Err(e) => NoticeRun([], Fail(e))
    case Ok(todos) =>
      if |todos| > 0 then
        var message := DeadlineMessage(todos, loc);
        NoticeRun([message], notify(message))
      else NoticeRun([], Pass)
  }

  /** No title or rendered deadline of the list has a line break. */
  predicate SingleLineTodos(todos: seq<DueToDo>, loc: Locale)
  {
    forall i :: 0 <= i < |todos| ==> '\n' !in todos[i].title && '\n' !in loc.dateTimeText(todos[i].dueDate.value)
  }

  /** For N todos the notice has 1 + N lines: the header, then each todo's
      line in input order. */
  lemma DeadlineMessageLines(todos: seq<DueToDo>, loc: Locale)
    requires todos != [] && SingleLineTodos(todos, loc)
    ensures Split(DeadlineMessage(todos, loc), '\n')
            == [Header] + MapSeq(todos, (t: DueToDo) => DeadlineLine(t, loc))
    ensures |Split(DeadlineMessage(todos, loc), '\n')| == 1 + |todos|
  {
    var lines := MapSeq(todos, (t: DueToDo) => DeadlineLine(t, loc));
    forall i | 0 <= i < |lines|
      ensures '\n' !in lines[i]
    {
      assert lines[i] == DeadlineLine(todos[i], loc);
    }
    SplitJoin(lines, '\n');
    SplitAtFirstSeparator(Header, Join(lines, "\n"), '\n');
  }
}
