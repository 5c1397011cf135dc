/** The current `GoogleTasksToDoService`: its construction check and the
    operations only it has (the deadline view, the text rendering of a
    todo and the recent-week view). Its create, get, update, delete and
    complete operations are those of module GoogleTasks. */
module GoogleTasksAdapter {
  import opened Common
  import opened Seqs
  import opened ToDoEntity
  import opened GoogleTasks

  /** How far ahead `getDeadlineApproachingTodos` looks: 24 hours. */
  const LookAhead: int := 24 * 60 * 60 * 1000

  /** How far back `getRecentWeekTodos` looks: 7 days. */
  const LookBack: int := 7 * 24 * 60 * 60 * 1000

  class GoogleTasksToDoService {
    const taskListId: string
    /** The remote list the service's `tasks` client reaches. */
    const tasks: TaskList

    constructor (taskListId: string, tasks: TaskList)
      ensures this.taskListId == taskListId && this.tasks == tasks
    {
      this.taskListId := taskListId;
      this.tasks := tasks;
    }

    /** `getDeadlineApproachingTodos`: the listed todos due before now + 24 h. */
    method GetDeadlineApproachingTodos(now: int) returns (r: seq<DueToDo>)
      ensures r == DeadlineApproaching(GetToDosResult(tasks.State()), now)
    {
      var todos := GetToDos(tasks);
      r := DeadlineApproaching(todos, now);
    }

    /** `getRecentWeekTodos`: the todos the server lists for due dates in
        the last seven days. The list call is not guarded, so its failure
        propagates. */
    method GetRecentWeekTodos(now: int) returns (r: Result<seq<ToDo>>)
      ensures r == RecentFromList(ServerList(tasks.State(), Some(RecentWindow(now))))
    {
      var resp := tasks.List(Some(RecentWindow(now)));
      r := RecentFromList(resp);
    }
  }

  /** The constructor: it fails when the TASK_LIST_ID environment variable
      is unset or empty, and otherwise keeps the list id it is given. */
  method NewService(envTaskListId: Option<string>, taskListId: string, tasks: TaskList)
    returns (r: Result<GoogleTasksToDoService>)
    ensures r.Err? <==> !Truthy(envTaskListId)
    ensures r.Err? ==> r.error == TaskListIdNotSet
    ensures r.Ok? ==> fresh(r.value) && r.value.taskListId == taskListId && r.value.tasks == tasks
  {
    if !Truthy(envTaskListId) {
      return Err(TaskListIdNotSet);
    }
    var service := new GoogleTasksToDoService(taskListId, tasks);
    r := Ok(service);
  }

  // ---------------------------------------------------------------------
  // Deadline view

  /** `task.dueDate && task.dueDate < new Date(now + 24 h)`. */
  predicate IsApproaching(t: ToDo, now: int)
  {
    t.dueDate.Some? && Before(t.dueDate.value, At(now + LookAhead))
  }

  /** The filter of `getDeadlineApproachingTodos`; every kept todo has a
      due date. */
  function DeadlineApproaching(todos: seq<ToDo>, now: int): (r: seq<DueToDo>)
    ensures |r| <= |todos|
    ensures forall i :: 0 <= i < |r| ==> r[i] in todos && IsApproaching(r[i], now)
  {
    Filter(todos, t => IsApproaching(t, now))
  }

  /** The deadline view keeps exactly the todos whose due date is before
      now + 24 h, as often as they occur and in their input order. There
      is no lower bound, and the status is not looked at. */
  lemma DeadlineApproachingExactly(todos: seq<ToDo>, now: int)
    ensures forall t :: t in DeadlineApproaching(todos, now) <==> t in todos && IsApproaching(t, now)
    ensures forall t :: multiset(DeadlineApproaching(todos, now))[t]
                        == if IsApproaching(t, now) then multiset(todos)[t] else 0
    ensures IsSubsequence<ToDo>(DeadlineApproaching(todos, now), todos)
  {
    var p := (t: ToDo) => IsApproaching(t, now);
    forall t ensures t in DeadlineApproaching(todos, now) <==> t in todos && IsApproaching(t, now) {
      FilterMembership(todos, p, t);
    }
    forall t ensures multiset(DeadlineApproaching(todos, now))[t]
                     == if IsApproaching(t, now) then multiset(todos)[t] else 0 {
      FilterMultiplicity(todos, p, t);
    }
    FilterIsSubsequence(todos, p);
  }

  /** The window's edges: a todo due exactly 24 h from now is left out; an
      overdue one is kept whatever its status; an invalid or missing due
      date is never kept. */
  lemma DeadlineEdges(t: ToDo, now: int)
    ensures t.dueDate == Some(At(now + LookAhead)) ==> !IsApproaching(t, now)
    ensures t.dueDate == Some(At(now + LookAhead - 1)) ==> IsApproaching(t, now)
    ensures (exists ms :: t.dueDate == Some(At(ms)) && ms < now) ==> IsApproaching(t, now)
    ensures t.dueDate == Some(InvalidDate) || t.dueDate.None? ==> !IsApproaching(t, now)
  {
  }

  /** One todo due in 3 hours and one due in 30 hours: only the first is
      approaching. */
  lemma {:induction false} DeadlineScenario(a: ToDo, b: ToDo, now: int)
    requires a.dueDate == Some(At(now + 3 * 60 * 60 * 1000))
    requires b.dueDate == Some(At(now + 30 * 60 * 60 * 1000))
    ensures DeadlineApproaching([a, b], now) == [a]
  {
    var p := (t: ToDo) => IsApproaching(t, now);
    assert [a, b][1..] == [b];
    assert [b][1..] == [];
    assert Filter([b], p) == [];
  }

  // ---------------------------------------------------------------------
  // Text rendering of a todo

  /** `${todo.description}`: an absent description reads `undefined`. */
  function DescriptionText(d: Option<string>): string
  {
    if d.Some? then d.value else "undefined"
  }

  /** `todo.dueDate ? todo.dueDate.toLocaleDateString() : "No due date"`. */
  function DueDateText(d: Option<JsDate>, loc: Locale): string
  {
    if d.Some? then loc.dateText(d.value) else "No due date"
  }

  /** `formatToDo`. */
  function FormatToDo(todo: ToDo, loc: Locale): (r: string)
    ensures |r| > 0 && r[|r| - 1] == '\n'
  {
    "ID: " + todo.id + "\nTitle: " + todo.title + "\nDescription: " + DescriptionText(todo.description)
    + "\nDue Date: " + DueDateText(todo.dueDate, loc) + "\nStatus: " + StatusText(todo.status)
    + "\nCreated At: " + loc.dateTimeText(todo.createdAt)
    + "\nUpdated At: " + loc.dateTimeText(todo.updatedAt) + "\n"
  }

  /** The fields of a rendering have no line breaks of their own. */
  predicate SingleLineFields(todo: ToDo, loc: Locale)
  {
    && '\n' !in todo.id && '\n' !in todo.title
    && '\n' !in DescriptionText(todo.description)
    && '\n' !in DueDateText(todo.dueDate, loc)
    && '\n' !in loc.dateTimeText(todo.createdAt)
    && '\n' !in loc.dateTimeText(todo.updatedAt)
  }

  /** A line break, a single-line label and a single-line value after
      some text add one line to that text's parts. */
  lemma LabelledStep(before: string, name: string, value: string)
    requires '\n' !in name && '\n' !in value
    ensures Split(before + ("\n" + name) + value, '\n') == Split(before, '\n') + [name + value]
  {
    assert before + ("\n" + name) + value == before + "\n" + (name + value);
    SplitAtLastSeparator(before, name + value, '\n');
  }

  /** The template glues each label after a line break. */
  lemma GluedLabels()
    ensures "\nTitle: " == "\n" + "Title: "
    ensures "\nDescription: " == "\n" + "Description: "
    ensures "\nDue Date: " == "\n" + "Due Date: "
    ensures "\nStatus: " == "\n" + "Status: "
    ensures "\nCreated At: " == "\n" + "Created At: "
    ensures "\nUpdated At: " == "\n" + "Updated At: "
  {
  }

  /** The labels are single lines. */
  lemma SingleLineLabels()
    ensures '\n' !in "ID: " && '\n' !in "Title: " && '\n' !in "Description: "
    ensures '\n' !in "Due Date: " && '\n' !in "Status: "
    ensures '\n' !in "Created At: " && '\n' !in "Updated At: "
  {
  }

  /** The status texts are single lines. */
  lemma SingleLineStatus(s: Status)
    ensures '\n' !in StatusText(s)
  {
  }

  /** `formatToDo` renders seven newline-terminated lines in the fixed
      order ID, Title, Description, Due Date, Status, Created At and
      Updated At. */
  lemma FormatToDoLines(todo: ToDo, loc: Locale)
    requires SingleLineFields(todo, loc)
    ensures Split(FormatToDo(todo, loc), '\n') == [
      "ID: " + todo.id,
      "Title: " + todo.title,
      "Description: " + DescriptionText(todo.description),
      "Due Date: " + DueDateText(todo.dueDate, loc),
      "Status: " + StatusText(todo.status),
      "Created At: " + loc.dateTimeText(todo.createdAt),
      "Updated At: " + loc.dateTimeText(todo.updatedAt),
      ""]
  {
    var D, U := DescriptionText(todo.description), DueDateText(todo.dueDate, loc);
    var S, C, M := StatusText(todo.status), loc.dateTimeText(todo.createdAt), loc.dateTimeText(todo.updatedAt);
    var t0 := "ID: " + todo.id;
    var t1 := t0 + "\nTitle: " + todo.title;
    var t2 := t1 + "\nDescription: " + D;
    var t3 := t2 + "\nDue Date: " + U;
    var t4 := t3 + "\nStatus: " + S;
    var t5 := t4 + "\nCreated At: " + C;
    var t6 := t5 + "\nUpdated At: " + M;
    GluedLabels();
    SingleLineLabels();
    SingleLineStatus(todo.status);
    assert Split(t0, '\n') == [t0] by {
      SplitWithoutSeparator(t0, '\n');
    }
    assert Split(t1, '\n') == [t0, "Title: " + todo.title] by {
      LabelledStep(t0, "Title: ", todo.title);
    }
    assert Split(t2, '\n') == Split(t1, '\n') + ["Description: " + D] by {
      LabelledStep(t1, "Description: ", D);
    }
    assert Split(t3, '\n') == Split(t2, '\n') + ["Due Date: " + U] by {
      LabelledStep(t2, "Due Date: ", U);
    }
    assert Split(t4, '\n') == Split(t3, '\n') + ["Status: " + S] by {
      LabelledStep(t3, "Status: ", S);
    }
    assert Split(t5, '\n') == Split(t4, '\n') + ["Created At: " + C] by {
      LabelledStep(t4, "Created At: ", C);
    }
    assert Split(t6, '\n') == Split(t5, '\n') + ["Updated At: " + M] by {
      LabelledStep(t5, "Updated At: ", M);
    }
    assert Split(t6 + "\n", '\n') == Split(t6, '\n') + [""] by {
      assert t6 + "\n" == t6 + "\n" + "";
      SplitAtLastSeparator(t6, "", '\n');
    }
    assert FormatToDo(todo, loc) == t6 + "\n";
  }

  /** A todo without a due date shows "Due Date: No due date" as its
      fourth line. */
  lemma FormatToDoNoDueDate(todo: ToDo, loc: Locale)
    requires SingleLineFields(todo, loc) && todo.dueDate.None?
    ensures |Split(FormatToDo(todo, loc), '\n')| == 8
    ensures Split(FormatToDo(todo, loc), '\n')[3] == "Due Date: No due date"
  {
    FormatToDoLines(todo, loc);
  }

  // ---------------------------------------------------------------------
  // Recent-week view

  /** The due-date window of `getRecentWeekTodos`: from 7 days ago to now. */
  function RecentWindow(now: int): (r: DueWindow)
    ensures r.max == now && r.max - r.min == 7 * MsPerDay
  {
    DueWindow(now - LookBack, now)
  }

  /** What `getRecentWeekTodos` resolves to for the list call's outcome:
      no items give `[]`, a failure is not caught. */
  function RecentFromList(resp: Result<Option<seq<RemoteTask>>>): (r: Result<seq<ToDo>>)
    ensures resp.Err? ==> r == Err(resp.error)
    ensures resp.Ok? && resp.value.None? ==> r == Ok([])
    ensures resp.Ok? && resp.value.Some? ==> r == Ok(ToDosFromList(resp))
  {
    match resp
    case Err(e) => Err(e)
    case Ok(None) => Ok([])
    case Ok(Some(items)) => Ok(MapSeq(items, ToToDo))
  }

  /** Under the server semantics this model assumes for a `dueMin`/`dueMax`
      list request (`ServerList`, both ends inclusive), the recent-week view
      lists exactly the shown tasks whose due date lies between 7 days ago
      and now: every listed todo is due in that window, and every shown task
      due in it is listed. */
  lemma {:induction false} RecentWeekWindow(s: Store, now: int)
    ensures var r := RecentFromList(ServerList(s, Some(RecentWindow(now))));
      && r.Ok?
      && (forall i :: 0 <= i < |r.value| ==>
            && r.value[i].dueDate.Some? && r.value[i].dueDate.value.At?
            && now - LookBack <= r.value[i].dueDate.value.ms <= now)
      && (forall t :: t in Shown(s.items, s.order) && InWindow(t, RecentWindow(now)) ==> ToToDo(t) in r.value)
  {
    var w := RecentWindow(now);
    var p := (t: RemoteTask) => InWindow(t, w);
    var kept := Filter(Shown(s.items, s.order), p);
    var r := RecentFromList(ServerList(s, Some(w)));
    forall t | t in Shown(s.items, s.order) && InWindow(t, w)
      ensures ToToDo(t) in r.value
    {
      FilterMembership(Shown(s.items, s.order), p, t);
      var k :| 0 <= k < |kept| && kept[k] == t;
      assert r.value[k] == ToToDo(t);
    }
  }
}
