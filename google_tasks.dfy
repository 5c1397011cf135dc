/** The remote Google Tasks list and the create/read/update/delete rules
    that both versions of `GoogleTasksToDoService` apply to it. The two
    versions have the same bodies for these operations, so they are
    modelled once here. */
module GoogleTasks {
  import opened Common
  import opened Seqs
  import opened ToDoEntity

  /** A task resource of the Google Tasks API. Its RFC 3339 timestamps
      `due` and `updated` are held as the instants they denote (None: the
      string is absent or empty); an absent `deleted` is false. */
  datatype RemoteTask = RemoteTask(
    id: Option<string>,
    title: Option<string>,
    notes: Option<string>,
    status: Option<string>,
    due: Option<JsDate>,
    updated: Option<JsDate>,
    deleted: bool)

  /** The argument of `createToDo`: `Partial<Omit<ToDo, "id" | "createdAt" | "updatedAt">>`. */
  datatype ToDoDraft = ToDoDraft(
    userId: Option<string>,
    title: Option<string>,
    description: Option<string>,
    status: Option<Status>,
    dueDate: Option<JsDate>,
    priority: Option<Priority>,
    tags: Option<seq<string>>)

  /** The argument of `updateToDo`: `Partial<Omit<ToDo, "id" | "userId" | "createdAt">>`. */
  datatype ToDoUpdate = ToDoUpdate(
    title: Option<string>,
    description: Option<string>,
    status: Option<Status>,
    dueDate: Option<JsDate>,
    updatedAt: Option<JsDate>,
    priority: Option<Priority>,
    tags: Option<seq<string>>)

  /** What both constructors throw when TASK_LIST_ID is unset or empty. */
  const TaskListIdNotSet: string := "TASK_LIST_ID is not set."
  const NotFoundError: string := "Not Found"
  /** What `toISOString()` throws for an invalid date. */
  const InvalidTimeValue: string := "RangeError: Invalid time value"
  const CompletedStatus: string := "completed"
  const NeedsActionStatus: string := "needsAction"
  const NoContent: int := 204

  // ---------------------------------------------------------------------
  // From remote tasks to todos

  /** `status === "completed" ? "completed" : "pending"`. */
  function NormaliseStatus(status: Option<string>): (r: Status)
    ensures r != InProgress
    ensures r == Completed <==> status == Some(CompletedStatus)
  {
    if status == Some(CompletedStatus) then Completed else Pending
  }

  /** The todo built from a remote task: missing id, title and notes
      become `""`, the user id is always `""`, and both timestamps are
      `new Date(updated || "")`. */
  function ToToDo(t: RemoteTask): (r: ToDo)
    ensures r.id == OrEmpty(t.id) && r.title == OrEmpty(t.title)
    ensures r.userId == "" && r.createdAt == r.updatedAt
    ensures r.status == NormaliseStatus(t.status) && r.status != InProgress
    ensures r.description == Some(OrEmpty(t.notes))
    ensures r.dueDate == t.due
    ensures t.updated.Some? ==> r.createdAt == t.updated.value
    ensures t.updated.None? ==> r.createdAt == InvalidDate
  {
    var stamp := if t.updated.Some? then t.updated.value else InvalidDate;
    ToDo(OrEmpty(t.id), "", OrEmpty(t.title), Some(OrEmpty(t.notes)),
         NormaliseStatus(t.status), t.due, stamp, stamp, None, None)
  }

  /** What `getToDoById` resolves to, given the `data` of the get response. */
  function ToDoFromData(data: Option<RemoteTask>): (r: Option<ToDo>)
    ensures r.None? <==> data.None? || data.value.deleted
    ensures r.Some? ==> r.value == ToToDo(data.value)
  {
    if data.None? || data.value.deleted then None else Some(ToToDo(data.value))
  }

  /** What `getToDos` resolves to, given the list call's outcome:
      `items?.map(...) || []`, and `[]` when the call throws. */
  function ToDosFromList(resp: Result<Option<seq<RemoteTask>>>): (r: seq<ToDo>)
    ensures resp.Err? || resp.value.None? ==> r == []
    ensures resp.Ok? && resp.value.Some? ==>
      |r| == |resp.value.value| && forall i :: 0 <= i < |r| ==> r[i] == ToToDo(resp.value.value[i])
  {
    match resp
    case Err(_) => []
    case Ok(None) => []
    case Ok(Some(items)) => MapSeq(items, ToToDo)
  }

  // ---------------------------------------------------------------------
  // From todos to request bodies

  /** `d?.toISOString()` as the server reads it back: the same instant, or
      a RangeError thrown before any request is made. */
  function SentDue(d: Option<JsDate>): (r: Result<Option<JsDate>>)
    ensures r.Err? <==> d == Some(InvalidDate)
    ensures r.Ok? ==> r.value == d
  {
    if d == Some(InvalidDate) then Err(InvalidTimeValue) else Ok(d)
  }

  /** The request body of `createToDo`: title, notes and due only. */
  function InsertBody(draft: ToDoDraft): (r: Result<RemoteTask>)
    ensures r.Err? <==> draft.dueDate == Some(InvalidDate)
    ensures r.Err? ==> r.error == InvalidTimeValue
    ensures r.Ok? ==> && r.value.title == draft.title && r.value.notes == draft.description
                      && r.value.due == draft.dueDate
                      && r.value.id.None? && r.value.status.None? && r.value.updated.None?
                      && !r.value.deleted
  {
    match SentDue(draft.dueDate)
    case Err(e) => Err(e)
    case Ok(due) => Ok(RemoteTask(None, draft.title, draft.description, None, due, None, false))
  }

  /** The todo `createToDo` resolves to: built from the draft, not from the
      server's copy, except for the id. */
  function CreatedToDo(draft: ToDoDraft, insertedId: Option<string>, now: int): (r: ToDo)
    ensures r.id == OrEmpty(insertedId) && r.userId == ""
    ensures r.title == OrEmpty(draft.title) && r.description == draft.description
    ensures r.status == Pending && r.dueDate == draft.dueDate
    ensures r.createdAt == r.updatedAt == At(now)
    ensures r.priority.None? && r.tags.None?
  {
    ToDo(OrEmpty(insertedId), "", OrEmpty(draft.title), draft.description, Pending,
         draft.dueDate, At(now), At(now), None, None)
  }

  /** The request body of `updateToDo`: the stored task with title, notes
      and due replaced by the update's values when those are truthy. */
  function MergeUpdate(stored: RemoteTask, u: ToDoUpdate): (r: Result<RemoteTask>)
    ensures r.Err? <==> u.dueDate == Some(InvalidDate)
    ensures r.Err? ==> r.error == InvalidTimeValue
    ensures r.Ok? ==> r.value.(title := stored.title, notes := stored.notes, due := stored.due) == stored
  {
    match SentDue(u.dueDate)
    case Err(e) => Err(e)
    case Ok(due) =>
      Ok(stored.(title := if Truthy(u.title) then u.title else stored.title,
                 notes := if Truthy(u.description) then u.description else stored.notes,
                 due := if due.Some? then due else stored.due))
  }

  /** An update that changes nothing: every field absent. */
  const NoChange: ToDoUpdate := ToDoUpdate(None, None, None, None, None, None, None)

  /** `deleteToDo`'s verdict on the delete call's outcome. */
  function DeleteSucceeded(resp: Result<int>): (r: bool)
    ensures r <==> resp == Ok(NoContent)
  {
    resp.Ok? && resp.value == NoContent
  }

  // ---------------------------------------------------------------------
  // The remote list

  /** The state of the remote task list: tasks by id, their positions,
      and how many ids have been handed out. Deleting a task only marks
      it deleted. */
  datatype Store = Store(items: map<string, RemoteTask>, order: seq<string>, issued: nat)

  /** The id the server gives to the k-th task it creates. */
  function TaskId(k: nat): string
  {
    NatToString(k)
  }

  /** Ids never handed out are not in use. */
  ghost predicate Fresh(s: Store)
  {
    forall k: nat :: k >= s.issued ==> TaskId(k) !in s.items && TaskId(k) !in s.order
  }

  /** A due-date range for a list request (`dueMin`, `dueMax`). */
  datatype DueWindow = DueWindow(min: int, max: int)

  predicate InWindow(t: RemoteTask, w: DueWindow)
  {
    t.due.Some? && t.due.value.At? && w.min <= t.due.value.ms <= w.max
  }

  /** The tasks the list shows, in position order; deleted ones are hidden. */
  function Shown(items: map<string, RemoteTask>, order: seq<string>): seq<RemoteTask>
  {
    if order == [] then []
    else
      (if order[0] in items && !items[order[0]].deleted then [items[order[0]]] else [])
      + Shown(items, order[1..])
  }

  function ServerInsert(s: Store, body: RemoteTask, now: int): (Store, RemoteTask)
  {
    var id := TaskId(s.issued);
    var t := body.(id := Some(id), status := Some(NeedsActionStatus), updated := Some(At(now)), deleted := false);
    (Store(s.items[id := t], s.order + [id], s.issued + 1), t)
  }

  function ServerGet(s: Store, id: string): Result<Option<RemoteTask>>
  {
    if id in s.items then Ok(Some(s.items[id])) else Err(NotFoundError)
  }

  function ServerUpdate(s: Store, id: string, body: RemoteTask, now: int): (Store, Result<RemoteTask>)
  {
    if id !in s.items then (s, Err(NotFoundError))
    else
      var t := body.(id := Some(id), updated := Some(At(now)));
      (s.(items := s.items[id := t]), Ok(t))
  }

  function ServerDelete(s: Store, id: string): (Store, Result<int>)
  {
    if id !in s.items then (s, Err(NotFoundError))
    else (s.(items := s.items[id := s.items[id].(deleted := true)]), Ok(NoContent))
  }

  /** A list request; an empty result carries no `items` at all. */
  function ServerList(s: Store, window: Option<DueWindow>): Result<Option<seq<RemoteTask>>>
  {
    var shown := Shown(s.items, s.order);
    var kept := if window.None? then shown else Filter(shown, t => InWindow(t, window.value));
    Ok(if kept == [] then None else Some(kept))
  }

  /** The remote task list, as the `tasks` client of a service reaches it.
      Its methods are the API calls the services make. */
  class TaskList {
    var items: map<string, RemoteTask>
    var order: seq<string>
    var issued: nat

    function State(): Store
      reads this
    {
      Store(items, order, issued)
    }

    ghost predicate Valid()
      reads this
    {
      Fresh(State())
    }

    constructor ()
      ensures Valid() && State() == Store(map[], [], 0)
    {
      items, order, issued := map[], [], 0;
    }

    /** `tasks.insert`: stores the task under a new id. */
    method Insert(body: RemoteTask, now: int) returns (t: RemoteTask)
      requires Valid()
      modifies this
      ensures Valid()
      ensures (State(), t) == ServerInsert(old(State()), body, now)
    {
      var id := TaskId(issued);
      t := body.(id := Some(id), status := Some(NeedsActionStatus), updated := Some(At(now)), deleted := false);
      forall k: nat | k >= issued + 1
        ensures TaskId(k) != id
      {
        NatToStringInjective(k, issued);
      }
      items, order, issued := items[id := t], order + [id], issued + 1;
    }

    /** `tasks.get`: throws for an unknown id. */
    method Get(id: string) returns (r: Result<Option<RemoteTask>>)
      ensures r == ServerGet(State(), id)
    {
      r := if id in items then Ok(Some(items[id])) else Err(NotFoundError);
    }

    /** `tasks.update`: replaces the stored task by the request body. */
    method Update(id: string, body: RemoteTask, now: int) returns (r: Result<RemoteTask>)
      requires Valid()
      modifies this
      ensures Valid()
      ensures (State(), r) == ServerUpdate(old(State()), id, body, now)
    {
      if id !in items {
        r := Err(NotFoundError);
      } else {
        var t := body.(id := Some(id), updated := Some(At(now)));
        items := items[id := t];
        r := Ok(t);
      }
    }

    /** `tasks.delete`: marks the task deleted and answers 204. */
    method Delete(id: string) returns (r: Result<int>)
      requires Valid()
      modifies this
      ensures Valid()
      ensures (State(), r) == ServerDelete(old(State()), id)
    {
      if id !in items {
        r := Err(NotFoundError);
      } else {
        items := items[id := items[id].(deleted := true)];
        r := Ok(NoContent);
      }
    }

    /** `tasks.list`, optionally restricted to a due-date window. */
    method List(window: Option<DueWindow>) returns (r: Result<Option<seq<RemoteTask>>>)
      ensures r == ServerList(State(), window)
    {
      r := ServerList(State(), window);
    }
  }

  // ---------------------------------------------------------------------
  // The service operations, as functions of the remote list's state

  /** The remote list after a call, and what the call settles to. */
  datatype Step<T> = Step(store: Store, result: Result<T>)

  function CreateToDoStep(s: Store, draft: ToDoDraft, now: int): (r: Step<ToDo>)
    ensures r.result.Err? <==> draft.dueDate == Some(InvalidDate)
    ensures r.result.Err? ==> r.store == s
    ensures r.result.Ok? ==>
      && r.store.issued == s.issued + 1
      && r.store.order == s.order + [TaskId(s.issued)]
      && r.store.items.Keys == s.items.Keys + {TaskId(s.issued)}
      && (forall k :: k in s.items && k != TaskId(s.issued) ==> r.store.items[k] == s.items[k])
      && r.result.value == CreatedToDo(draft, Some(TaskId(s.issued)), now)
  {
    match InsertBody(draft)
    case Err(e) => Step(s, Err(e))
    case Ok(body) =>
      var inserted := ServerInsert(s, body, now);
      Step(inserted.0, Ok(CreatedToDo(draft, inserted.1.id, now)))
  }

  function GetToDoByIdResult(s: Store, id: string): Result<Option<ToDo>>
  {
    match ServerGet(s, id)
    case Err(e) => Err(e)
    case Ok(data) => Ok(ToDoFromData(data))
  }

  function GetToDosResult(s: Store): seq<ToDo>
  {
    ToDosFromList(ServerList(s, None))
  }

  function UpdateToDoStep(s: Store, id: string, u: ToDoUpdate, now: int): (r: Step<Option<ToDo>>)
    ensures id !in s.items ==> r == Step(s, Err(NotFoundError))
    ensures id in s.items && u.dueDate == Some(InvalidDate) ==> r == Step(s, Err(InvalidTimeValue))
    ensures id in s.items && u.dueDate != Some(InvalidDate) ==>
      && r.store.order == s.order && r.store.issued == s.issued
      && r.store.items.Keys == s.items.Keys
      && (forall k :: k in s.items && k != id ==> r.store.items[k] == s.items[k])
      && r.store.items[id] == MergeUpdate(s.items[id], u).value.(id := Some(id), updated := Some(At(now)))
      && r.result == Ok(Some(ToToDo(r.store.items[id])))
  {
    match ServerGet(s, id)
    case Err(e) => Step(s, Err(e))
    case Ok(None) => Step(s, Ok(None))
    case Ok(Some(stored)) =>
      match MergeUpdate(stored, u)
      case Err(e) => Step(s, Err(e))
      case Ok(body) =>
        var updated := ServerUpdate(s, id, body, now);
        match updated.1
        case Err(e) => Step(updated.0, Err(e))
        case Ok(t) => Step(updated.0, Ok(Some(ToToDo(t))))
  }

  function DeleteToDoStep(s: Store, id: string): (r: Step<bool>)
    ensures r.result == Ok(id in s.items)
    ensures id !in s.items ==> r.store == s
    ensures r.store.order == s.order && r.store.issued == s.issued
    ensures r.store.items.Keys == s.items.Keys
    ensures id in s.items ==> r.store.items[id] == s.items[id].(deleted := true)
    ensures forall k :: k in s.items && k != id ==> r.store.items[k] == s.items[k]
  {
    var deleted := ServerDelete(s, id);
    Step(deleted.0, Ok(DeleteSucceeded(deleted.1)))
  }

  function MarkAsCompletedStep(s: Store, id: string, now: int): (r: Step<Option<ToDo>>)
    ensures id !in s.items ==> r == Step(s, Err(NotFoundError))
    ensures id in s.items ==>
      && r.store.order == s.order && r.store.issued == s.issued
      && r.store.items.Keys == s.items.Keys
      && (forall k :: k in s.items && k != id ==> r.store.items[k] == s.items[k])
      && r.store.items[id] == s.items[id].(status := Some(CompletedStatus), id := Some(id), updated := Some(At(now)))
      && r.result.Ok? && r.result.value.Some? && r.result.value.value.status == Completed
  {
    match ServerGet(s, id)
    case Err(e) => Step(s, Err(e))
    case Ok(None) => Step(s, Ok(None))
    case Ok(Some(stored)) =>
      var updated := ServerUpdate(s, id, stored.(status := Some(CompletedStatus)), now);
      match updated.1
      case Err(e) => Step(updated.0, Err(e))
      case Ok(t) => Step(updated.0, Ok(Some(ToToDo(t).(status := Completed))))
  }

  // ---------------------------------------------------------------------
  // The service operations on the remote list

  method CreateToDo(tasks: TaskList, draft: ToDoDraft, now: int) returns (r: Result<ToDo>)
    requires tasks.Valid()
    modifies tasks
    ensures tasks.Valid()
    ensures Step(tasks.State(), r) == CreateToDoStep(old(tasks.State()), draft, now)
  {
    var body := InsertBody(draft);
    if body.Err? {
      return Err(body.error);
    }
    var t := tasks.Insert(body.value, now);
    r := Ok(CreatedToDo(draft, t.id, now));
  }

  method GetToDoById(tasks: TaskList, id: string) returns (r: Result<Option<ToDo>>)
    ensures r == GetToDoByIdResult(tasks.State(), id)
  {
    var resp := tasks.Get(id);
    if resp.Err? {
      return Err(resp.error);
    }
    r := Ok(ToDoFromData(resp.value));
  }

  method GetToDos(tasks: TaskList) returns (r: seq<ToDo>)
    ensures r == GetToDosResult(tasks.State())
  {
    var resp := tasks.List(None);
    r := ToDosFromList(resp);
  }

  method UpdateToDo(tasks: TaskList, id: string, u: ToDoUpdate, now: int) returns (r: Result<Option<ToDo>>)
    requires tasks.Valid()
    modifies tasks
    ensures tasks.Valid()
    ensures Step(tasks.State(), r) == UpdateToDoStep(old(tasks.State()), id, u, now)
  {
    var resp := tasks.Get(id);
    if resp.Err? {
      return Err(resp.error);
    }
    if resp.value.None? {
      return Ok(None);
    }
    var body := MergeUpdate(resp.value.value, u);
    if body.Err? {
      return Err(body.error);
    }
    var updated := tasks.Update(id, body.value, now);
    if updated.Err? {
      return Err(updated.error);
    }
    r := Ok(Some(ToToDo(updated.value)));
  }

  method DeleteToDo(tasks: TaskList, id: string) returns (ok: bool)
    requires tasks.Valid()
    modifies tasks
    ensures tasks.Valid()
    ensures Step(tasks.State(), Ok(ok)) == DeleteToDoStep(old(tasks.State()), id)
  {
    var resp := tasks.Delete(id);
    ok := DeleteSucceeded(resp);
  }

  method MarkAsCompleted(tasks: TaskList, id: string, now: int) returns (r: Result<Option<ToDo>>)
    requires tasks.Valid()
    modifies tasks
    ensures tasks.Valid()
    ensures Step(tasks.State(), r) == MarkAsCompletedStep(old(tasks.State()), id, now)
  {
    var resp := tasks.Get(id);
    if resp.Err? {
      return Err(resp.error);
    }
    if resp.value.None? {
      return Ok(None);
    }
    var updated := tasks.Update(id, resp.value.value.(status := Some(CompletedStatus)), now);
    if updated.Err? {
      return Err(updated.error);
    }
    r := Ok(Some(ToToDo(updated.value).(status := Completed)));
  }

  // ---------------------------------------------------------------------
  // Properties

  /** The update merge: a truthy title, description or due date replaces
      the stored one, a falsy one keeps it, and every other stored field
      (id, status, updated, deleted) is carried over. An invalid due date
      makes the merge throw. */
  lemma MergeUpdateFields(stored: RemoteTask, u: ToDoUpdate)
    ensures MergeUpdate(stored, u).Err? <==> u.dueDate == Some(InvalidDate)
    ensures MergeUpdate(stored, u).Ok? ==>
      var m := MergeUpdate(stored, u).value;
      && (Truthy(u.title) ==> m.title == u.title)
      && (!Truthy(u.title) ==> m.title == stored.title)
      && (Truthy(u.description) ==> m.notes == u.description)
      && (!Truthy(u.description) ==> m.notes == stored.notes)
      && (u.dueDate.Some? ==> m.due == u.dueDate)
      && (u.dueDate.None? ==> m.due == stored.due)
      && m.id == stored.id && m.status == stored.status
      && m.updated == stored.updated && m.deleted == stored.deleted
  {
  }

  /** Falsy updates change nothing, and merging the same update twice is
      the same as merging it once. */
  lemma {:induction false} MergeUpdateIdempotent(stored: RemoteTask, u: ToDoUpdate)
    ensures MergeUpdate(stored, NoChange) == Ok(stored)
    ensures MergeUpdate(stored, u).Ok? ==>
      MergeUpdate(MergeUpdate(stored, u).value, u) == MergeUpdate(stored, u)
  {
    assert SentDue(None) == Ok(None);
  }

  /** A created task reads back as the todo `createToDo` returned, except
      that an absent description reads back as `""`. An invalid due date
      makes creation throw and leaves the list unchanged. */
  lemma {:induction false} CreateThenGet(s: Store, draft: ToDoDraft, now: int)
    ensures CreateToDoStep(s, draft, now).result.Err? <==> draft.dueDate == Some(InvalidDate)
    ensures CreateToDoStep(s, draft, now).result.Err? ==> CreateToDoStep(s, draft, now).store == s
    ensures var st := CreateToDoStep(s, draft, now);
      st.result.Ok? ==>
        && st.result.value.status == Pending
        && st.result.value.title == OrEmpty(draft.title)
        && st.result.value.dueDate == draft.dueDate
        && st.result.value.description == draft.description
        && st.result.value.userId == ""
        && st.result.value.id == TaskId(s.issued)
        && GetToDoByIdResult(st.store, st.result.value.id)
           == Ok(Some(st.result.value.(description := Some(OrEmpty(draft.description)))))
  {
    var st := CreateToDoStep(s, draft, now);
    if draft.dueDate != Some(InvalidDate) {
      var body := InsertBody(draft).value;
      var t := ServerInsert(s, body, now).1;
      assert t.id == Some(TaskId(s.issued));
      assert st.result.value.id == TaskId(s.issued);
      assert st.store.items[TaskId(s.issued)] == t;
    }
  }

  lemma {:induction false} ShownIgnoresUnlistedKey(items: map<string, RemoteTask>, order: seq<string>, id: string, t: RemoteTask)
    requires id !in order
    ensures Shown(items[id := t], order) == Shown(items, order)
  {
    if order != [] {
      ShownIgnoresUnlistedKey(items, order[1..], id, t);
    }
  }

  lemma {:induction false} ShownAppend(items: map<string, RemoteTask>, order: seq<string>, id: string)
    requires id in items && !items[id].deleted
    ensures Shown(items, order + [id]) == Shown(items, order) + [items[id]]
  {
    if order == [] {
      assert [id][1..] == [];
    } else {
      ShownAppend(items, order[1..], id);
      assert (order + [id])[1..] == order[1..] + [id];
    }
  }

  /** A created task appears at the end of what `getToDos` lists. */
  lemma {:induction false} CreateAppendsToList(s: Store, draft: ToDoDraft, now: int)
    requires Fresh(s)
    ensures var st := CreateToDoStep(s, draft, now);
      st.result.Ok? ==>
        GetToDosResult(st.store) == GetToDosResult(s) + [st.result.value.(description := Some(OrEmpty(draft.description)))]
  {
    var st := CreateToDoStep(s, draft, now);
    if st.result.Ok? {
      CreateThenGet(s, draft, now);
      var id := TaskId(s.issued);
      var t := st.store.items[id];
      assert id !in s.order;
      ShownIgnoresUnlistedKey(s.items, s.order, id, t);
      ShownAppend(st.store.items, s.order, id);
      var before := Shown(s.items, s.order);
      var after := Shown(st.store.items, st.store.order);
      assert after == before + [t];
      var fetched := st.result.value.(description := Some(OrEmpty(draft.description)));
      assert ToToDo(t) == fetched;
      var r := GetToDosResult(st.store);
      assert |r| == |before| + 1;
      assert forall i :: 0 <= i < |before| ==> r[i] == ToToDo(after[i]);
    }
  }

  /** Deleting succeeds exactly for a known id, and a deleted task then
      reads back as `null`. */
  lemma {:induction false} DeleteThenGet(s: Store, id: string)
    ensures DeleteToDoStep(s, id).result == Ok(id in s.items)
    ensures id in s.items ==> GetToDoByIdResult(DeleteToDoStep(s, id).store, id) == Ok(None)
    ensures id !in s.items ==> DeleteToDoStep(s, id).store == s
  {
  }

  /** An updated, not deleted task reads back as the todo `updateToDo`
      returned; that todo carries the truthy new title and description. */
  lemma {:induction false} UpdateThenGet(s: Store, id: string, u: ToDoUpdate, now: int)
    ensures var st := UpdateToDoStep(s, id, u, now);
      st.result.Ok? && st.result.value.Some? && !s.items[id].deleted ==>
        && GetToDoByIdResult(st.store, id) == st.result
        && (Truthy(u.title) ==> st.result.value.value.title == u.title.value)
        && (!Truthy(u.title) ==> st.result.value.value.title == OrEmpty(s.items[id].title))
        && (Truthy(u.description) ==> st.result.value.value.description == u.description)
        && (!Truthy(u.description) ==> st.result.value.value.description == Some(OrEmpty(s.items[id].notes)))
        && (u.dueDate.Some? ==> st.result.value.value.dueDate == u.dueDate)
        && (u.dueDate.None? ==> st.result.value.value.dueDate == s.items[id].due)
        && st.result.value.value.status == NormaliseStatus(s.items[id].status)
  {
    var st := UpdateToDoStep(s, id, u, now);
    if st.result.Ok? && st.result.value.Some? {
      assert id in s.items;
      MergeUpdateFields(s.items[id], u);
    }
  }

  /** `updateToDo` does not look at the deleted mark that `getToDoById`
      honours: a deleted task is still updated and returned. */
  lemma UpdateReachesDeletedTask(s: Store, id: string, u: ToDoUpdate, now: int)
    requires id in s.items && s.items[id].deleted
    requires u.dueDate != Some(InvalidDate)
    ensures GetToDoByIdResult(s, id) == Ok(None)
    ensures UpdateToDoStep(s, id, u, now).result.Ok?
    ensures UpdateToDoStep(s, id, u, now).result.value.Some?
  {
    MergeUpdateFields(s.items[id], u);
  }

  /** A task marked as completed is returned with status completed and
      reads back so; the call throws only for an unknown id. */
  lemma {:induction false} MarkAsCompletedThenGet(s: Store, id: string, now: int)
    ensures MarkAsCompletedStep(s, id, now).result.Err? <==> id !in s.items
    ensures var st := MarkAsCompletedStep(s, id, now);
      st.result.Ok? ==>
        && st.result.value.Some? && st.result.value.value.status == Completed
        && (!s.items[id].deleted ==> GetToDoByIdResult(st.store, id) == st.result)
  {
  }
}
