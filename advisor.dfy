/** What both OpenAI advisors share: the model names, the chat request
    they send, how they read the completion, and the todo filters and
    priority list both build their prompts from. */
module Advisor {
  import opened Common
  import opened Seqs
  import opened ToDoEntity

  /** `LLMModel`. */
  datatype LLMModel = GPT35Turbo | GPT4oMini | GPT4o

  function ModelName(m: LLMModel): string
  {
    match m
    case GPT35Turbo => "gpt-3.5-turbo"
    case GPT4oMini => "gpt-4o-mini"
    case GPT4o => "gpt-4o"
  }

  /** The model a constructor uses when none is given. */
  const DefaultModel: LLMModel := GPT4o

  /** A `chat.completions.create` request: the model, then one system and
      one user message. */
  datatype ChatRequest = ChatRequest(model: string, system: string, user: string)

  /** A completion: the `message.content` of each choice, in order (None:
      null). */
  datatype Completion = Completion(choices: seq<Option<string>>)

  /** What reading `choices[0]` of a completion without choices throws. */
  const NoChoiceError: string := "TypeError: Cannot read properties of undefined (reading 'message')"

  /** `completion.choices[0].message.content || fallback`: a rejected call
      is not caught, a completion without choices throws, and a null or
      empty content gives the fallback. */
  function ReplyText(completion: Result<Completion>, fallback: string): (r: Result<string>)
    ensures completion.Err? ==> r == Err(completion.error)
    ensures completion.Ok? && completion.value.choices == [] ==> r == Err(NoChoiceError)
    ensures completion.Ok? && completion.value.choices != [] ==>
              r.Ok? && (r.value == fallback <==> !Truthy(completion.value.choices[0]) || completion.value.choices[0] == Some(fallback))
    ensures r.Ok? && r.value != fallback ==> completion.value.choices[0] == Some(r.value)
  {
    match completion
    case Err(e) => Err(e)
    case Ok(c) => if |c.choices| == 0 then Err(NoChoiceError) else Ok(OrElse(c.choices[0], fallback))
  }

  /** One advisor call: the request sent and what the call settled to. */
  datatype Advice = Advice(request: ChatRequest, result: Result<string>)

  /** Send the prompt with the advisor's model and system prompt, and read
      the reply with the method's fallback. */
  function Ask(llm: ChatRequest -> Result<Completion>, model: LLMModel, system: string,
               prompt: string, fallback: string): (r: Advice)
    ensures r.request == ChatRequest(ModelName(model), system, prompt)
    ensures r.result == ReplyText(llm(r.request), fallback)
  {
    var request := ChatRequest(ModelName(model), system, prompt);
    Advice(request, ReplyText(llm(request), fallback))
  }

  // ---------------------------------------------------------------------
  // Filters

  /** `todo.dueDate && todo.dueDate < new Date() && todo.status !== 'completed'`. */
  predicate IsOverdue(t: ToDo, now: int)
  {
    t.dueDate.Some? && Before(t.dueDate.value, At(now)) && t.status != Completed
  }

  /** `todo.status !== 'completed'`. */
  predicate IsPending(t: ToDo)
  {
    t.status != Completed
  }

  predicate IsCompleted(t: ToDo)
  {
    t.status == Completed
  }

  function OverdueTodos(todos: seq<ToDo>, now: int): (r: seq<ToDo>)
    ensures |r| <= |todos|
    ensures forall i :: 0 <= i < |r| ==> r[i] in todos && IsOverdue(r[i], now)
  {
    Filter(todos, (t: ToDo) => IsOverdue(t, now))
  }

  function PendingTodos(todos: seq<ToDo>): (r: seq<ToDo>)
    ensures |r| <= |todos|
    ensures forall i :: 0 <= i < |r| ==> r[i] in todos && r[i].status != Completed
  {
    Filter(todos, IsPending)
  }

  function CompletedTodos(todos: seq<ToDo>): seq<ToDo>
  {
    Filter(todos, IsCompleted)
  }

  /** The overdue filter keeps exactly the open todos due before now, as
      often as they occur and in input order; an empty result means no
      todo is overdue. */
  lemma OverdueExactly(todos: seq<ToDo>, now: int)
    ensures forall t :: t in OverdueTodos(todos, now) <==> t in todos && IsOverdue(t, now)
    ensures forall t :: multiset(OverdueTodos(todos, now))[t]
                        == if IsOverdue(t, now) then multiset(todos)[t] else 0
    ensures IsSubsequence(OverdueTodos(todos, now), todos)
    ensures OverdueTodos(todos, now) == [] <==> forall i :: 0 <= i < |todos| ==> !IsOverdue(todos[i], now)
  {
    var p := (t: ToDo) => IsOverdue(t, now);
    forall t ensures t in OverdueTodos(todos, now) <==> t in todos && IsOverdue(t, now) {
      FilterMembership(todos, p, t);
    }
    forall t ensures multiset(OverdueTodos(todos, now))[t]
                     == if IsOverdue(t, now) then multiset(todos)[t] else 0 {
      FilterMultiplicity(todos, p, t);
    }
    FilterIsSubsequence(todos, p);
    if OverdueTodos(todos, now) != [] {
      assert OverdueTodos(todos, now)[0] in OverdueTodos(todos, now);
    }
  }

  /** The pending filter keeps exactly the todos not completed, as often
      as they occur and in input order. */
  lemma PendingExactly(todos: seq<ToDo>)
    ensures forall t :: t in PendingTodos(todos) <==> t in todos && t.status != Completed
    ensures forall t :: multiset(PendingTodos(todos))[t]
                        == if t.status != Completed then multiset(todos)[t] else 0
    ensures IsSubsequence(PendingTodos(todos), todos)
    ensures PendingTodos(todos) == [] <==> forall i :: 0 <= i < |todos| ==> todos[i].status == Completed
  {
    forall t ensures t in PendingTodos(todos) <==> t in todos && t.status != Completed {
      FilterMembership(todos, IsPending, t);
    }
    forall t ensures multiset(PendingTodos(todos))[t]
                     == if t.status != Completed then multiset(todos)[t] else 0 {
      FilterMultiplicity(todos, IsPending, t);
    }
    FilterIsSubsequence(todos, IsPending);
    if PendingTodos(todos) != [] {
      assert PendingTodos(todos)[0] in PendingTodos(todos);
    }
  }

  /** Every todo is either completed or pending, so the two counts add up
      to the length of the list. */
  lemma CompletedPendingPartition(todos: seq<ToDo>)
    ensures |CompletedTodos(todos)| + |PendingTodos(todos)| == |todos|
  {
    FilterComplementLength(todos, IsCompleted, IsPending);
  }

  // ---------------------------------------------------------------------
  // The priority list

  /** The indentation the template literals carry. */
  const Indent12: string := "            "
  const Indent8: string := "        "

  const PriorityIntro: string := "以下の未完了タスクの優先順位付けを提案してください："

  /** The indentations are single lines. */
  lemma SingleLineIndents()
    ensures '\n' !in Indent12 && '\n' !in Indent8
  {
  }

  /** The priority prompt's introduction is a single line. */
  lemma SingleLinePriorityIntro()
    ensures '\n' !in PriorityIntro
  {
  }

  /** `todo.dueDate?.toLocaleDateString()` as a template renders it: an
      absent date reads `undefined`. */
  function DueDateOrUndefined(d: Option<JsDate>, loc: Locale): string
  {
    if d.Some? then loc.dateText(d.value) else "undefined"
  }

  /** `- ${todo.title} (期限: ${todo.dueDate?.toLocaleDateString()})`. */
  function PriorityLine(t: ToDo, loc: Locale): string
  {
    "- " + t.title + " (期限: " + DueDateOrUndefined(t.dueDate, loc) + ")"
  }

  /** The priority prompt both advisors build from the pending todos. */
  function PriorityListPrompt(pending: seq<ToDo>, loc: Locale): (r: string)
    ensures |r| > 0 && r[0] == '\n'
  {
    "\n" + Indent12 + PriorityIntro + "\n"
    + Indent12 + Join(MapSeq(pending, (t: ToDo) => PriorityLine(t, loc)), "\n") + "\n" + Indent8
  }

  /** No title or rendered date of the list has a line break. */
  predicate SingleLineTitles(todos: seq<ToDo>, loc: Locale)
  {
    forall i :: 0 <= i < |todos| ==> '\n' !in todos[i].title && '\n' !in DueDateOrUndefined(todos[i].dueDate, loc)
  }

  /** The priority prompt lists one line per pending todo, in order,
      between the introduction and the closing indentation. */
  lemma {:induction false} PriorityListPromptLines(pending: seq<ToDo>, loc: Locale)
    requires pending != [] && SingleLineTitles(pending, loc)
    ensures var lines := MapSeq(pending, (t: ToDo) => PriorityLine(t, loc));
      Split(PriorityListPrompt(pending, loc), '\n')
      == ["", Indent12 + PriorityIntro, Indent12 + lines[0]] + lines[1..] + [Indent8]
  {
    var lines := MapSeq(pending, (t: ToDo) => PriorityLine(t, loc));
    var head := Indent12 + PriorityIntro;
    SingleLineIndents();
    assert '\n' !in head by {
      SingleLinePriorityIntro();
    }
    assert forall i :: 0 <= i < |lines| ==> '\n' !in lines[i] by {
      forall i | 0 <= i < |lines|
        ensures '\n' !in lines[i]
      {
        assert lines[i] == "- " + pending[i].title + " (期限: " + DueDateOrUndefined(pending[i].dueDate, loc) + ")";
      }
    }
    assert Split("\n" + head + "\n" + (Indent12 + Join(lines, "\n")) + "\n" + Join([Indent8], "\n"), '\n')
        == ["", head, Indent12 + lines[0]] + lines[1..] + [Indent8] by {
      SplitBlock(head, Indent12, lines, [Indent8], '\n');
    }
    assert Join([Indent8], "\n") == Indent8;
    assert PriorityListPrompt(pending, loc) == "\n" + head + "\n" + (Indent12 + Join(lines, "\n")) + "\n" + Indent8;
  }
}
