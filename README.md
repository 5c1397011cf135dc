# micromanagement-bot in Dafny

This project models the logic of micromanagement-bot, a Slack bot that reads a
Google Tasks list and asks OpenAI for commentary on it. The parts with behaviour
that can be stated precisely are modelled, and their properties are proved:

- the daily scheduler (`ToDoCheck`): the next 07:00 trigger instant, the
  deadline check it runs on every firing, and the self-rearming timer;
- the Google Tasks service (`GoogleTasksToDoService`, in its current and its
  older version): conversion of remote tasks to todos, the update merge, the
  create/get/update/delete/complete operations on the remote list, the deadline
  filter, the text rendering of a todo and the recent-week view;
- the two use cases (the summary report and the upcoming-deadline notice);
- the Slack notifier (`SlackMessageServiceImpl`), the mention router
  (`SlackController`) and the Lambda entry point (`LambdaController`);
- the prompt selection of the two OpenAI advisors.

Time is an integer number of milliseconds since the epoch, as `Date.getTime()`
gives it. Local time is taken to be UTC and every day lasts 86,400,000 ms.
Dafny's `%` and `/` round towards minus infinity on negative times, as
JavaScript's `Date` fields do. A JavaScript `Date` is `JsDate`: a valid instant,
or the invalid date whose time value is NaN. Comparing with an invalid date is
false, and `toISOString` on one throws.

Collaborators the code calls but that are not part of the model are parameters:

- the remote list's answers, the OpenAI client (`llm`) and `JSON.stringify`
  (`stringify`);
- the locale renderings `toLocaleDateString` and `toLocaleString` (`Locale`);
- the environment variables, the current instant (`now`) and the summary
  report's outcome where a controller uses it.

A rejected promise is `Err` (or `Fail`), carrying the error message.

The remote Google Tasks list is the class `GoogleTasks.TaskList`:

- a map from task ids to tasks, the tasks' list order, and a counter of issued ids;
- its methods are the API calls (`insert`, `get`, `update`, `delete`, `list`),
  each specified by a function on the list's state;
- deleting a task only marks it deleted, as Google Tasks does, so reading it
  afterwards returns data with `deleted` set.

The two versions of `GoogleTasksToDoService` have identical bodies for create,
get, list, update, delete and mark-as-completed. The older version's lines are
the current one's plus 13. These operations are therefore modelled once, as the
methods of module `GoogleTasks` over a `TaskList`. Each version keeps its own
constructor check: `GoogleTasksAdapter.NewService` and
`LegacyGoogleTasks.NewLegacyService`.

Each firing of the scheduler runs only `checkDeadlines`
(src/cron/ToDoCheck.ts:27-30). The trigger hour is the constant 7
(src/cron/ToDoCheck.ts:19-21).

The state-changing operations are methods: the `TaskList` calls and the
service operations of `GoogleTasks`, and `ToDoCheck`. Each method is specified
by a function of the state before the call: `TaskList.Insert` by `ServerInsert`,
`GoogleTasks.CreateToDo` by `CreateToDoStep`, and so on. The properties are
proved about those functions.

## Model

| member | source | states |
|---|---|---|
| GoogleTasks.NormaliseStatus | src/adapter/GoogleTasksToDoService.ts:57 | the status is `completed` exactly when the remote status is `"completed"`, and never `in_progress` (same expression in src/domain/service/GoogleTasksToDoService.ts:70) |
| GoogleTasks.ToToDo | src/adapter/GoogleTasksToDoService.ts:52-61 | the converted todo has id `id \|\| ""`, title `title \|\| ""`, user id `""`, the description `notes \|\| ""`, the remote due date, the normalised status (never `in_progress`), and createdAt equal to updatedAt: the remote `updated` instant, or an invalid date when it is missing |
| GoogleTasks.ToDoFromData | src/adapter/GoogleTasksToDoService.ts:49-61 | `getToDoById` maps to `null` exactly when there is no data or the task is marked deleted, and otherwise to the converted task |
| GoogleTasks.ToDosFromList | src/adapter/GoogleTasksToDoService.ts:65-88 | `getToDos` gives `[]` when the list call throws or has no items, and otherwise one converted todo per item, in order |
| GoogleTasks.SentDue | src/adapter/GoogleTasksToDoService.ts:26 | `toISOString` throws exactly for an invalid date, and otherwise the server reads back the same instant |
| GoogleTasks.DeleteSucceeded | src/adapter/GoogleTasksToDoService.ts:123-134 | `deleteToDo` is true exactly when the delete call resolves with status 204; a thrown call gives false |
| GoogleTasks.InsertBody | src/adapter/GoogleTasksToDoService.ts:21-28 | the insert request carries the draft's title, description and due date, and nothing else; it throws `Invalid time value` exactly for an invalid due date |
| GoogleTasks.CreatedToDo | src/adapter/GoogleTasksToDoService.ts:30-39 | `createToDo`'s result has the inserted id or `""`, user id `""`, title `title \|\| ""`, the draft's description and due date, status pending, and createdAt = updatedAt = now |
| GoogleTasks.MergeUpdate | src/adapter/GoogleTasksToDoService.ts:102-107 | the update body is the stored task with only title, notes and due possibly changed; it throws exactly for an invalid due date |
| GoogleTasks.CreateToDoStep | src/adapter/GoogleTasksToDoService.ts:20-40 | an invalid due date fails and leaves the list unchanged; otherwise a fresh id is issued and appended to the list order, every existing task is kept as it was, and the result is the created todo under that id |
| GoogleTasks.UpdateToDoStep | src/adapter/GoogleTasksToDoService.ts:91-120 | an unknown id fails with the client's not-found error and an invalid due date with `Invalid time value`, both leaving the list unchanged; otherwise only the task under that id changes: it becomes the merged body (a truthy title, description or due date replaces the stored one, a falsy one keeps it, everything else is carried over) with `updated` set to now, and the result is the conversion of what was stored |
| GoogleTasks.DeleteToDoStep | src/adapter/GoogleTasksToDoService.ts:123-134 | `deleteToDo` answers true exactly for a known id; that task only gains the deleted mark, and every other task, the order and the id counter stay as they were |
| GoogleTasks.MarkAsCompletedStep | src/adapter/GoogleTasksToDoService.ts:137-164 | an unknown id fails, leaving the list unchanged; otherwise only that task changes: it becomes the stored task with status `completed` and `updated` set to now, every other field kept, and the result reports status completed |
| GoogleTasks.TaskList.Insert | src/adapter/GoogleTasksToDoService.ts:21-28 | the insert call stores the task under an id never used before and keeps the unused-id invariant |
| GoogleTasks.TaskList.Get | src/adapter/GoogleTasksToDoService.ts:44-47 | the get call returns the stored task, deleted or not, and rejects an unknown id |
| GoogleTasks.TaskList.Update | src/adapter/GoogleTasksToDoService.ts:99-108 | the update call replaces a known task by the request body and rejects an unknown id |
| GoogleTasks.TaskList.Delete | src/adapter/GoogleTasksToDoService.ts:125-128 | the delete call marks a known task deleted and answers 204 |
| GoogleTasks.TaskList.List | src/adapter/GoogleTasksToDoService.ts:67-69 | the list call shows the tasks not deleted, in list order, optionally only those due in a window |
| GoogleTasks.CreateToDo | src/adapter/GoogleTasksToDoService.ts:20-40 | `createToDo`'s result and new list state are those of its specification function; an invalid due date throws before any request (same body at src/domain/service/GoogleTasksToDoService.ts:33-53) |
| GoogleTasks.GetToDoById | src/adapter/GoogleTasksToDoService.ts:43-62 | `getToDoById` reads the list without changing it and resolves to the converted task or `null` (same body at src/domain/service/GoogleTasksToDoService.ts:56-75) |
| GoogleTasks.GetToDos | src/adapter/GoogleTasksToDoService.ts:65-88 | `getToDos` lists the shown tasks, converted (same body at src/domain/service/GoogleTasksToDoService.ts:78-101) |
| GoogleTasks.UpdateToDo | src/adapter/GoogleTasksToDoService.ts:91-120 | `updateToDo` gets the task, sends the merged body and converts the server's answer; `null` without data (same body at src/domain/service/GoogleTasksToDoService.ts:104-133) |
| GoogleTasks.DeleteToDo | src/adapter/GoogleTasksToDoService.ts:123-134 | `deleteToDo`'s verdict and the list state after it (same body at src/domain/service/GoogleTasksToDoService.ts:136-147) |
| GoogleTasks.MarkAsCompleted | src/adapter/GoogleTasksToDoService.ts:137-164 | `markAsCompleted` sends the stored task with status completed and reports status completed; `null` without data (same body at src/domain/service/GoogleTasksToDoService.ts:150-177) |
| GoogleTasks.MergeUpdateFields | src/adapter/GoogleTasksToDoService.ts:102-107 | a truthy title, description or due date replaces the stored one, a falsy one keeps it; id, status, updated and deleted are carried over; an invalid due date throws |
| GoogleTasks.MergeUpdateIdempotent | src/adapter/GoogleTasksToDoService.ts:104-106 | an all-absent update leaves the stored task as it is, and merging an update twice equals merging it once |
| GoogleTasks.CreateThenGet | src/adapter/GoogleTasksToDoService.ts:30-39 | a created todo is pending, has user id `""`, title `title \|\| ""`, the given description and due date and the id issued for it, and reads back by its id as itself, except that an absent description reads back as `""`; creation fails only for an invalid due date, leaving the list unchanged |
| GoogleTasks.CreateAppendsToList | src/adapter/GoogleTasksToDoService.ts:65-88 | after a create, `getToDos` lists what it listed before followed by the created todo |
| GoogleTasks.DeleteThenGet | test/Integrated/GoogleTasksToDoServiceImpl.test.ts:97-108 | delete succeeds exactly for a known id, and getting a deleted task then yields `null`; an unknown id leaves the list unchanged |
| GoogleTasks.UpdateThenGet | test/Integrated/GoogleTasksToDoServiceImpl.test.ts:69-84 | an updated task reads back as the returned todo; its title and description are the truthy new ones or else the stored ones, its due date is the new one when given or else the stored one, and its status is the stored one |
| GoogleTasks.UpdateReachesDeletedTask | src/adapter/GoogleTasksToDoService.ts:97 | `updateToDo` does not check the deleted mark: a task that `getToDoById` reports as `null` is still updated and returned |
| GoogleTasks.MarkAsCompletedThenGet | src/adapter/GoogleTasksToDoService.ts:143-159 | `markAsCompleted` fails only for an unknown id, returns status completed, and the task reads back as completed |
| GoogleTasksAdapter.NewService | src/adapter/GoogleTasksToDoService.ts:12-17 | the constructor throws `"TASK_LIST_ID is not set."` exactly when the variable is unset or empty, and otherwise keeps the given list id |
| GoogleTasksAdapter.GoogleTasksToDoService.GetDeadlineApproachingTodos | src/adapter/GoogleTasksToDoService.ts:166-174 | the result is the deadline filter applied to what `getToDos` lists at that moment |
| GoogleTasksAdapter.DeadlineApproaching | src/adapter/GoogleTasksToDoService.ts:172-173 | the kept todos are no more than the input, and each is an input todo due before now + 24 h |
| GoogleTasksAdapter.DeadlineApproachingExactly | src/adapter/GoogleTasksToDoService.ts:172-173 | a todo is kept exactly when its due date is before now + 24 h, as often as it occurs and in input order; every kept todo has a due date (its type) |
| GoogleTasksAdapter.DeadlineEdges | src/adapter/GoogleTasksToDoService.ts:169-172 | a todo due exactly at now + 24 h is left out, one due 1 ms earlier is kept, an overdue one is kept, and an invalid or missing date is never kept |
| GoogleTasksAdapter.DeadlineScenario | src/adapter/GoogleTasksToDoService.ts:166-174 | of a todo due in 3 hours and one due in 30 hours, only the first is returned |
| GoogleTasksAdapter.FormatToDo | src/adapter/GoogleTasksToDoService.ts:176-178 | the rendering of a todo is never empty and ends with a line break |
| GoogleTasksAdapter.FormatToDoLines | src/adapter/GoogleTasksToDoService.ts:176-179 | `formatToDo` renders seven newline-terminated lines: ID, Title, Description, Due Date, Status, Created At and Updated At, in that order |
| GoogleTasksAdapter.FormatToDoNoDueDate | src/adapter/GoogleTasksToDoService.ts:177 | a todo without a due date shows `Due Date: No due date` as its fourth line |
| GoogleTasksAdapter.GoogleTasksToDoService.GetRecentWeekTodos | src/adapter/GoogleTasksToDoService.ts:181-204 | `getRecentWeekTodos` asks for the window from 7 days ago to now and converts the items |
| GoogleTasksAdapter.RecentWindow | src/adapter/GoogleTasksToDoService.ts:182-190 | the window requested ends now and starts exactly 7 days earlier |
| GoogleTasksAdapter.RecentFromList | src/adapter/GoogleTasksToDoService.ts:192-203 | no items give `[]`, a thrown list call is not caught, and items are converted in order |
| GoogleTasksAdapter.RecentWeekWindow | src/adapter/GoogleTasksToDoService.ts:182-190 | every todo of the recent-week view is due between 7 days ago and now, and every shown task due in that window is listed |
| LegacyGoogleTasks.OAuthClient | src/lib/GoogleOAuth2.ts:11-14 | `getAuthClient` throws `OAuth2 client configuration is missing.` exactly when no client exists yet and CLIENT_ID, CLIENT_SECRET or REDIRECT_URI is unset or empty (the cached client of lines 81-86 is returned as it is) |
| LegacyGoogleTasks.ConfigCheck | src/domain/service/GoogleTasksToDoService.ts:15-29 | outside the test environment the OAuth2 configuration error comes first, before the TASK_LIST_ID check; an unset or empty TASK_LIST_ID throws in both branches; the check fails exactly in these cases, and otherwise the service-account client is used exactly when NODE_ENV is `"test"` |
| LegacyGoogleTasks.NewLegacyService | src/domain/service/GoogleTasksToDoService.ts:13-30 | the older constructor builds a service exactly when the environment check passes, with the client that check chose and the given list id, and otherwise throws that check's error |
| DailyCheck.NextCheck | src/cron/ToDoCheck.ts:17-25 | the next trigger is at 07:00:00.000, strictly after now and at most 24 h later; it is on the same day when the hour is below 7 and on the next day otherwise |
| DailyCheck.HourAtLeastTrigger | src/cron/ToDoCheck.ts:21 | the hour is 7 or later exactly when 07:00 of the day has been reached |
| DailyCheck.NextCheckIsEarliest | src/cron/ToDoCheck.ts:18-23 | no 07:00 instant after now comes before the armed one |
| DailyCheck.AtTriggerRollsOver | src/cron/ToDoCheck.ts:21-23 | at exactly 07:00:00.000 the timer is armed 24 h ahead, so there is no zero-delay second firing |
| DailyCheck.BeforeTriggerSameDay | src/cron/ToDoCheck.ts:19-25 | before 07:00 the delay is the time left until 07:00 of the same day |
| DailyCheck.CheckDeadlines | src/cron/ToDoCheck.ts:36-48 | `checkDeadlines` always fetches first and never fails; an empty list or a fetch error makes no further call; otherwise it sends the header `"You have tasks due within 24 hours:"` and, only if that succeeds, the batch with the same list; the first error that occurs, and only it, is logged: the fetch's, else the header's, else the batch's |
| DailyCheck.CheckDeadlinesNotices | src/cron/ToDoCheck.ts:40-44 | an empty list sends no notice; a non-empty one sends the header and then the list, or only the header when the header fails |
| DailyCheck.ToDoCheck.constructor | src/cron/ToDoCheck.ts:6-13 | construction arms the timer for the next 07:00 and runs one check at once |
| DailyCheck.ToDoCheck.Fire | src/cron/ToDoCheck.ts:27-30 | a firing appends the check's calls and logged errors, then rearms the timer for a later 07:00 |
| DailyCheck.ToDoCheck.Run | src/cron/ToDoCheck.ts:15-34 | over any number of firings every check runs, their calls and errors accumulate in order, and the timer stays armed at 07:00 and moves forward |
| SummaryReport.Execute | src/usecase/RecentTodosSummaryReportUseCase.ts:11-20 | a fetch failure is rethrown without asking the advisor; otherwise the advisor gets exactly the fetched list, an empty one included, and its answer or its failure is returned unchanged |
| NotifyUpcomingDeadline.Execute | src/usecase/NotifyUpcomingDeadlineUseCase.ts:10-19 | an empty list sends nothing, a non-empty one sends exactly one message; a failure of the todo source or of `notify` propagates |
| NotifyUpcomingDeadline.DeadlineLine | src/usecase/NotifyUpcomingDeadlineUseCase.ts:15 | a todo line is a single line when the title and the rendered date are |
| NotifyUpcomingDeadline.DeadlineMessage | src/usecase/NotifyUpcomingDeadlineUseCase.ts:14-16 | the message starts with the header `以下のタスクの締切が近づいています:` and a line break, and is exactly that for no todos |
| NotifyUpcomingDeadline.DeadlineMessageLines | src/usecase/NotifyUpcomingDeadlineUseCase.ts:14-16 | the message is the header line followed by one `- title (締切: date)` line per todo in input order, 1 + N lines in all |
| SlackMessage.Notify | src/adapter/SlackMessageServiceImpl.ts:15-20 | an unset or empty SLACK_CHANNEL throws `"SLACK_CHANNEL is not set"` and posts nothing; otherwise the message is posted once, unchanged, to that channel |
| SlackMessage.NotifyTodos | src/adapter/SlackMessageServiceImpl.ts:22-27 | at most one post, carrying the injected service's `formatToDo` of every todo joined by line breaks; the missing-channel error propagates |
| SlackMessage.BatchMessage | src/adapter/SlackMessageServiceImpl.ts:23-25 | the batch message is empty exactly when there are no todos, or a single todo whose rendering is empty |
| SlackMessage.AdapterBatchEmptyIffNone | src/adapter/SlackMessageServiceImpl.ts:23-25 | with the Google Tasks adapter's `formatToDo` as the renderer, the batch message is empty exactly when there are no todos |
| SlackMessage.EmptyBatchSendsEmptyMessage | src/adapter/SlackMessageServiceImpl.ts:23-26 | `notifyTodos([])` posts one empty message |
| SlackMessage.SingleBatch | src/adapter/SlackMessageServiceImpl.ts:23-25 | the batch message of one todo is that todo's rendering |
| SlackMessage.BatchMessageAppend | src/adapter/SlackMessageServiceImpl.ts:23-25 | the batch message of two lists is the first's message, a line break and the second's: todos keep their order |
| SlackController.RouteOf | controller/SlackController.ts:35-45 | mentions are ignored when no target user is set or the sender is someone else; `タスク状況` wins over `こんにちは`; anything else gets no reply |
| SlackController.ReplyThread | controller/SlackController.ts:55 | replies go to `thread_ts` when it is set, else to `ts` |
| SlackController.HandleAppMention | controller/SlackController.ts:34-67 | only a status request runs the report; at most one reply, in the reply thread and never empty; the greeting is `こんにちは！`; an empty analysis is replaced by `なんかエラーが発生したみたいです`; a report failure propagates with no reply |
| SlackController.HandleDailyReport | controller/SlackController.ts:72-75 | a report failure propagates before any post; otherwise the analysis, or the fallback when it is empty, is notified; nothing empty is posted |
| SlackController.MissingTextGetsNoReply | controller/SlackController.ts:39 | a mention without text is treated as `""` and gets no reply |
| SlackController.StatusKeywordWins | controller/SlackController.ts:41-45 | a mention from the target user whose text contains both `こんにちは` and `タスク状況` gets the status report |
| SlackController.StatusKeywordAnywhere | controller/SlackController.ts:41-43 | a mention from the target user with `タスク状況` anywhere in its text gets the status report, whatever surrounds it |
| LambdaController.HandleEvent | controller/LambdaController.ts:59-76 | a `dailyReport` event runs the daily report once, never starts the receiver, and answers 200 with the fixed body or rejects with the report's error; every other event goes to the receiver |
| LambdaController.DailyReportPostsOnce | controller/LambdaController.ts:65-70 | a daily-report event whose report and channel are fine posts exactly once and answers 200 |
| Advisor.ReplyText | src/adapter/OpenAIAdvisorServiceImpl.ts:37 | a rejected call propagates, a completion without choices throws, and a null or empty first content gives the method's fallback (same rule at lines 63 and 87) |
| Advisor.Ask | src/adapter/OpenAIAdvisorServiceImpl.ts:30-37 | the request carries the model's name, the system prompt and the user prompt, and the answer is the reply text of that request with the method's fallback |
| Advisor.OverdueTodos | src/adapter/OpenAIAdvisorServiceImpl.ts:41-43 | the overdue todos are no more than the input, and each is an input todo past its due date and not completed |
| Advisor.PendingTodos | src/adapter/OpenAIAdvisorServiceImpl.ts:67 | the pending todos are no more than the input, and each is an input todo not completed |
| Advisor.PriorityListPrompt | src/adapter/OpenAIAdvisorServiceImpl.ts:72-77 | the priority list prompt is non-empty and starts with a line break |
| Advisor.OverdueExactly | src/adapter/OpenAIAdvisorServiceImpl.ts:41-43 | the overdue filter keeps exactly the todos with a due date before now and a status other than completed, in order; it is empty exactly when no todo is overdue |
| Advisor.PendingExactly | src/adapter/OpenAIAdvisorServiceImpl.ts:67 | the pending filter keeps exactly the todos not completed, in order; it is empty exactly when all are completed |
| Advisor.CompletedPendingPartition | src/adapter/OpenAIAdvisorService.ts:22-28 | the completed and the pending todos together number as many as the list |
| Advisor.PriorityListPromptLines | src/adapter/OpenAIAdvisorServiceImpl.ts:72-77 | the priority prompt has one `- title (期限: date)` line per pending todo, in order, between its introduction and the closing indentation; an absent date reads `undefined` |
| AdvisorImpl.NewAdvisor | src/adapter/OpenAIAdvisorServiceImpl.ts:18-21 | the default model is `gpt-4o` |
| AdvisorImpl.AnalyzeTodoProgress | src/adapter/OpenAIAdvisorServiceImpl.ts:23-38 | the request carries the advisor's model, the system prompt and the analysis prompt; the answer is read with the analysis fallback |
| AdvisorImpl.SuggestImprovements | src/adapter/OpenAIAdvisorServiceImpl.ts:40-64 | the prompt is built from the serialised overdue todos; the answer is read with the suggestion fallback |
| AdvisorImpl.GetPrioritySuggestions | src/adapter/OpenAIAdvisorServiceImpl.ts:66-88 | the prompt is built from the pending todos; the answer is read with the priority fallback |
| AdvisorImpl.AnalyzePrompt | src/adapter/OpenAIAdvisorServiceImpl.ts:24-28 | the analysis prompt is the praise prompt exactly for an empty list |
| AdvisorImpl.SuggestPrompt | src/adapter/OpenAIAdvisorServiceImpl.ts:45-53 | the improvement prompt is the praise prompt exactly when no serialised overdue todo is given |
| AdvisorImpl.PriorityPrompt | src/adapter/OpenAIAdvisorServiceImpl.ts:69-77 | the priority prompt is the praise prompt exactly when no pending todo is given |
| AdvisorImpl.SuggestPromptCarries | src/adapter/OpenAIAdvisorServiceImpl.ts:48-53 | each serialised overdue todo appears in the improvement prompt |
| AdvisorImpl.OverdueTodoReachesPrompt | src/adapter/OpenAIAdvisorServiceImpl.ts:40-53 | the serialisation of every todo that is past due and not completed appears in the prompt sent by `suggestImprovements` |
| AdvisorImpl.AnalyzePromptLines | src/adapter/OpenAIAdvisorServiceImpl.ts:24-28 | a non-empty analysis prompt carries one serialised todo per line, in input order |
| AdvisorImpl.SuggestPraiseIffNoneOverdue | src/adapter/OpenAIAdvisorServiceImpl.ts:41-47 | the praise prompt is chosen exactly when no todo is overdue |
| AdvisorImpl.PriorityPraiseIffAllCompleted | src/adapter/OpenAIAdvisorServiceImpl.ts:67-71 | the praise prompt is chosen exactly when every todo is completed |
| AdvisorImpl.SameModelAndSystemPrompt | src/adapter/OpenAIAdvisorServiceImpl.ts:30-34 | all three methods send the same model and system prompt |
| AdvisorLegacy.NewAdvisor | src/adapter/OpenAIAdvisorService.ts:16-19 | the default model is `gpt-4o` |
| AdvisorLegacy.CompletedCount | src/adapter/OpenAIAdvisorService.ts:22 | the completed count is at most the number of todos |
| AdvisorLegacy.IncompleteCount | src/adapter/OpenAIAdvisorService.ts:28 | `todos.length - completed` is the number of todos not completed |
| AdvisorLegacy.AnalyzePrompt | src/adapter/OpenAIAdvisorService.ts:25-31 | the analysis prompt contains the completed count and the open count, each on the line of its label |
| AdvisorLegacy.AnalyzePromptLines | src/adapter/OpenAIAdvisorService.ts:25-31 | split at its line breaks, the analysis prompt gives back the template's seven lines, the rate, the completed count and the open count each on its own line |
| AdvisorLegacy.SuggestPrompt | src/adapter/OpenAIAdvisorService.ts:48-51 | every overdue todo's `- title` line appears in the improvement prompt |
| AdvisorLegacy.AnalyzeTodoProgress | src/adapter/OpenAIAdvisorService.ts:21-41 | the request carries the model, the older system prompt and the counts prompt; the answer is read with the analysis fallback |
| AdvisorLegacy.SuggestImprovements | src/adapter/OpenAIAdvisorService.ts:43-62 | the prompt lists the overdue todos, with no praise case; the answer is read with the suggestion fallback |
| AdvisorLegacy.GetPrioritySuggestions | src/adapter/OpenAIAdvisorService.ts:64-83 | the prompt lists the pending todos, even none; the answer is read with the priority fallback |
| AdvisorLegacy.SuggestPromptLines | src/adapter/OpenAIAdvisorService.ts:48-51 | the improvement prompt has one `- title` line per overdue todo, in order |
| AdvisorLegacy.CountsPartition | src/adapter/OpenAIAdvisorService.ts:22-28 | the completed count plus the open count is the number of todos, and each is the size of its filter |
| AdvisorLegacy.ReportedCountsReadBack | src/adapter/OpenAIAdvisorService.ts:27-28 | the counts written into the prompt read back as the completed count and the number of todos not completed |
| AdvisorLegacy.CompletedCountCons | src/adapter/OpenAIAdvisorService.ts:22 | each completed todo adds one to the completed count |

## Left out

- Google API and OAuth plumbing: the `google.tasks` client and the OAuth2 or service-account clients are foreign libraries. The remote list is the model's `TaskList`. Of the OAuth2 wrapper, only the configuration check of `getAuthClient` is modelled (`OAuthClient`); the authorisation URL and the token calls are not.
- Pagination and the server's own rules: `tasks.list` returns at most one page, and Google stores due dates at day granularity. The model lists every task and keeps the instant sent. The recent-week window is taken as inclusive at both ends. The model's server rejects only unknown ids and never fails transiently, so no `TaskList` call reaches the catch of `getToDos` (src/adapter/GoogleTasksToDoService.ts:84-87); that path is stated by `ToDosFromList` on a rejected list answer.
- `getToDoById` on an id the server does not know: the Google client rejects, so the model's get returns an error rather than `null`.
- Slack transport: `postMessage` catches and logs its own errors, so a post never fails in the model. `say` is taken to succeed. The Bolt app, the receiver and the listener registration are opaque; the receiver's answer is a parameter.
- OpenAI chat completions and `JSON.stringify` are uninterpreted function parameters.
- AdvisorLegacy.AnalyzeTodoProgress: the completion percentage (a floating-point value, NaN for an empty list) is a given text, not computed.
- Locale and ISO date rendering: `toLocaleDateString` and `toLocaleString` are given functions. Time zones and daylight saving are not modelled, so the hour of an instant is taken in UTC with 24-hour days.
- Timers, promises and logging: execution is a sequence of steps. A firing happens at the armed instant plus the time its check takes. `console.log` is not modelled, and `console.error` is the list of logged errors.
- Repeated clock reads: where the code calls `new Date()` several times in one operation, the model reads the clock once. `createToDo` gets the same `now` for createdAt and updatedAt (src/adapter/GoogleTasksToDoService.ts:37-38). The overdue filter compares every todo with the same `now`, although it builds a new date per element (src/adapter/OpenAIAdvisorServiceImpl.ts:42).
- Dependency wiring: the container, the tokens and the bootstrap are configuration. Each model function takes its collaborators as parameters. The todo service whose `formatToDo` the Slack notifier uses is one of them (`format`). The container wires a repository class that is not part of this model, so the batch lemmas hold for any renderer, and `AdapterBatchEmptyIffNone` applies them to the adapter's `formatToDo`.
- Interfaces without bodies (`ToDoService`, `NotifyService`, `AIAdvisorService`) appear only as the types of those parameters. `ToDo` is the `ToDo` datatype.
- SlackController.HandleAppMention: the controller's constructor only logs a missing target user, so it is not modelled separately.
