/** `SlackMessageServiceImpl`: the notifier that posts to the channel
    named by SLACK_CHANNEL. */
module SlackMessage {
  import opened Common
  import opened Seqs
  import opened ToDoEntity
  import GoogleTasksAdapter

  const ChannelNotSet: string := "SLACK_CHANNEL is not set"

  /** One `postMessage(channel, text)` call. */
  datatype Post = Post(channel: string, text: string)

  /** The posts a notification made and how it settled. `postMessage`
      catches and logs its own errors, so a post never fails. */
  datatype Delivery = Delivery(posts: seq<Post>, result: Outcome)

  /** `notify(message)`: with SLACK_CHANNEL unset or empty it throws and
      posts nothing; otherwise it posts the message, unchanged, once to
      that channel. */
  function Notify(channel: Option<string>, message: string): (r: Delivery)
    ensures r.result.Fail? <==> !Truthy(channel)
    ensures r.result.Fail? ==> r.posts == [] && r.result.error == ChannelNotSet
    ensures r.result.Pass? ==> r.posts == [Post(channel.value, message)]
  {
    if !Truthy(channel) then Delivery([], Fail(ChannelNotSet))
    else Delivery([Post(channel.value, message)], Pass)
  }

  /** The one message `notifyTodos` sends: each todo rendered by the
      injected todo service's `formatToDo`, in order, joined by line
      breaks. It is empty exactly when there is nothing to join, or a
      single todo whose rendering is empty. */
  function BatchMessage(todos: seq<ToDo>, format: ToDo -> string): (r: string)
    ensures r == "" <==> todos == [] || (|todos| == 1 && format(todos[0]) == "")
  {
    var parts := MapSeq(todos, format);
    assert |parts| >= 2 ==> |Join(parts, "\n")| >= 1 by {
      if |parts| >= 2 {
        assert Join(parts, "\n") == parts[0] + "\n" + Join(parts[1..], "\n");
      }
    }
    Join(parts, "\n")
  }

  /** The adapter's `formatToDo` as the batch renderer. */
  function AdapterFormat(loc: Locale): ToDo -> string
  {
    (t: ToDo) => GoogleTasksAdapter.FormatToDo(t, loc)
  }

  /** With the adapter's `formatToDo`, whose rendering is never empty, the
      batch message is empty exactly when there are no todos. */
  lemma AdapterBatchEmptyIffNone(todos: seq<ToDo>, loc: Locale)
    ensures BatchMessage(todos, AdapterFormat(loc)) == "" <==> todos == []
  {
    if |todos| == 1 {
      var r := GoogleTasksAdapter.FormatToDo(todos[0], loc);
      assert AdapterFormat(loc)(todos[0]) == r;
    }
  }

  /** `notifyTodos(todos)`: a single notification carrying the batch
      message; the missing-channel error propagates. */
  function NotifyTodos(channel: Option<string>, todos: seq<ToDo>, format: ToDo -> string): (r: Delivery)
    ensures |r.posts| <= 1
    ensures r.result.Fail? <==> !Truthy(channel)
    ensures r.result.Fail? ==> r.posts == [] && r.result.error == ChannelNotSet
    ensures r.result.Pass? ==> r.posts == [Post(channel.value, BatchMessage(todos, format))]
  {
    Notify(channel, BatchMessage(todos, format))
  }

  /** An empty batch still sends one message, the empty string. */
  lemma EmptyBatchSendsEmptyMessage(channel: Option<string>, format: ToDo -> string)
    requires Truthy(channel)
    ensures NotifyTodos(channel, [], format).posts == [Post(channel.value, "")]
  {
  }

  /** A batch of one todo is its `formatToDo`. */
  lemma SingleBatch(t: ToDo, format: ToDo -> string)
    ensures BatchMessage([t], format) == format(t)
  {
  }

  /** The batch message of two lists is the message of the first, a line
      break and the message of the second: todos keep their order. */
  lemma {:induction false} BatchMessageAppend(a: seq<ToDo>, b: seq<ToDo>, format: ToDo -> string)
    requires a != [] && b != []
    ensures BatchMessage(a + b, format) == BatchMessage(a, format) + "\n" + BatchMessage(b, format)
  {
    MapSeqAppend(a, b, format);
    JoinAppend(MapSeq(a, format), MapSeq(b, format), "\n");
  }
}
