/** The one domain entity: a task on the user's todo list. */
module ToDoEntity {
  import opened Common

  datatype Status = Pending | InProgress | Completed

  /** The string value of a status (`"pending"`, `"in_progress"`, `"completed"`). */
  function StatusText(s: Status): string
  {
    match s
    case Pending => "pending"
    case InProgress => "in_progress"
    case Completed => "completed"
  }

  datatype Priority = Low | Medium | High

  /** A todo item; optional properties of the interface are `Option`s. */
  datatype ToDo = ToDo(
    id: string,
    userId: string,
    title: string,
    description: Option<string>,
    status: Status,
    dueDate: Option<JsDate>,
    createdAt: JsDate,
    updatedAt: JsDate,
    priority: Option<Priority>,
    tags: Option<seq<string>>)

  /** A todo whose due date is known to be present
      (`ToDo & Required<Pick<ToDo, 'dueDate'>>`). */
  type DueToDo = t: ToDo | t.dueDate.Some?
    witness ToDo("", "", "", None, Pending, Some(At(0)), At(0), At(0), None, None)

  /** The locale-dependent renderings of a date the bot uses:
      `toLocaleDateString()` and `toLocaleString()`. They depend on the
      host's locale and time zone and are taken as given. */
  datatype Locale = Locale(dateText: JsDate -> string, dateTimeText: JsDate -> string)
}
