/** `OpenAIAdvisorService`: the older advisor. Its analysis prompt reports
    counts instead of the todos themselves, and none of its prompts has a
    praise case. */
module AdvisorLegacy {
  import opened Common
  import opened Seqs
  import opened ToDoEntity
  import opened Advisor

  const SystemPrompt: string :=
    "あなたはタスク管理アプリのアドバイザーです。やり取りは基本的に日本語で行います。基本的には優しく、しかし時には厳しく、しかし常に建設的なアドバイスを提供します。"

  const AnalyzeFallback: string := "分析を実行できませんでした。"
  const SuggestIntro: string := "以下の未完了の期限切れタスクについて、改善案を提案してください："
  const SuggestFallback: string := "提案を生成できませんでした。"
  const PriorityFallback: string := "優先順位の提案を生成できませんでした。"

  /** The improvement prompt's introduction is a single line. */
  lemma SingleLineSuggestIntro()
    ensures '\n' !in SuggestIntro
  {
  }

  /** The number of completed todos the analysis prompt reports. */
  function CompletedCount(todos: seq<ToDo>): (n: nat)
    ensures n <= |todos|
  {
    |CompletedTodos(todos)|
  }

  /** The number of open todos it reports: `todos.length - completedTodos.length`. */
  function IncompleteCount(todos: seq<ToDo>): (n: nat)
    ensures n == |PendingTodos(todos)|
  {
    CompletedPendingPartition(todos);
    |todos| - CompletedCount(todos)
  }

  const AnalyzeRateLabel: string := "タスクの完了率は"
  const AnalyzePercentSuffix: string := "%です。"
  const CompletedLabel: string := "完了タスク数: "
  const IncompleteLabel: string := "未完了タスク数: "
  const AnalyzeRequest: string := "これらの情報を元に、タスクの進捗状況を分析し、建設的なアドバイスを提供してください。"

  /** The lines of the analysis template, in order; `rateText` is the
      rendering of the completion percentage, a floating-point value this
      model does not compute. */
  function AnalyzeLines(todos: seq<ToDo>, rateText: string): seq<string>
  {
    ["",
     Indent12 + AnalyzeRateLabel + rateText + AnalyzePercentSuffix,
     Indent12 + CompletedLabel + NatToString(CompletedCount(todos)),
     Indent12 + IncompleteLabel + NatToString(IncompleteCount(todos)),
     Indent12,
     Indent12 + AnalyzeRequest,
     Indent8]
  }

  /** The analysis prompt: the template's lines joined by line breaks. It
      reports both counts, each on its own labelled line. */
  function AnalyzePrompt(todos: seq<ToDo>, rateText: string): (r: string)
    ensures Contains(r, Indent12 + CompletedLabel + NatToString(CompletedCount(todos)))
    ensures Contains(r, Indent12 + IncompleteLabel + NatToString(IncompleteCount(todos)))
  {
    var lines := AnalyzeLines(todos, rateText);
    JoinContainsPart(lines, "\n", 2);
    JoinContainsPart(lines, "\n", 3);
    Join(lines, "\n")
  }

  /** `- ${todo.title}`. */
  function TitleLine(t: ToDo): string
  {
    "- " + t.title
  }

  /** A title line is a single line when the title is. */
  lemma SingleLineTitleLine(t: ToDo)
    requires '\n' !in t.title
    ensures '\n' !in TitleLine(t)
  {
  }

  /** The improvement template before and after the list of titles. */
  const SuggestIntroLine: string := Indent12 + SuggestIntro
  const SuggestHead: string := "\n" + SuggestIntroLine + "\n" + Indent12
  const SuggestTail: string := "\n" + Indent8

  /** The improvement prompt, listing the overdue todos by title; every
      overdue todo's title line appears in it. */
  function SuggestPrompt(overdue: seq<ToDo>): (r: string)
    ensures forall i :: 0 <= i < |overdue| ==> Contains(r, TitleLine(overdue[i]))
  {
    var lines := MapSeq(overdue, TitleLine);
    assert forall i :: 0 <= i < |overdue| ==> Contains(SuggestHead + Join(lines, "\n") + SuggestTail, TitleLine(overdue[i])) by {
      forall i | 0 <= i < |overdue|
        ensures Contains(SuggestHead + Join(lines, "\n") + SuggestTail, TitleLine(overdue[i]))
      {
        JoinContainsPart(lines, "\n", i);
        ContainsMiddle(SuggestHead, Join(lines, "\n"), SuggestTail, lines[i]);
      }
    }
    SuggestHead + Join(lines, "\n") + SuggestTail
  }

  /** The advisor: its OpenAI client (`llm`) and its model. */
  datatype AdvisorLegacy = AdvisorLegacy(llm: ChatRequest -> Result<Completion>, model: LLMModel)

  /** `new OpenAIAdvisorService()` with no model: `gpt-4o`. */
  function NewAdvisor(llm: ChatRequest -> Result<Completion>): (a: AdvisorLegacy)
    ensures ModelName(a.model) == "gpt-4o"
  {
    AdvisorLegacy(llm, DefaultModel)
  }

  /** `analyzeTodoProgress(todos)`. */
  function AnalyzeTodoProgress(a: AdvisorLegacy, todos: seq<ToDo>, rateText: string): (r: Advice)
    ensures r.request == ChatRequest(ModelName(a.model), SystemPrompt, AnalyzePrompt(todos, rateText))
    ensures r.result == ReplyText(a.llm(r.request), AnalyzeFallback)
  {
    Ask(a.llm, a.model, SystemPrompt, AnalyzePrompt(todos, rateText), AnalyzeFallback)
  }

  /** `suggestImprovements(todos)` at instant `now`. */
  function SuggestImprovements(a: AdvisorLegacy, todos: seq<ToDo>, now: int): (r: Advice)
    ensures r.request == ChatRequest(ModelName(a.model), SystemPrompt, SuggestPrompt(OverdueTodos(todos, now)))
    ensures r.result == ReplyText(a.llm(r.request), SuggestFallback)
  {
    Ask(a.llm, a.model, SystemPrompt, SuggestPrompt(OverdueTodos(todos, now)), SuggestFallback)
  }

  /** `getPrioritySuggestions(todos)`: the pending list, even when empty. */
  function GetPrioritySuggestions(a: AdvisorLegacy, todos: seq<ToDo>, loc: Locale): (r: Advice)
    ensures r.request == ChatRequest(ModelName(a.model), SystemPrompt, PriorityListPrompt(PendingTodos(todos), loc))
    ensures r.result == ReplyText(a.llm(r.request), PriorityFallback)
  {
    Ask(a.llm, a.model, SystemPrompt, PriorityListPrompt(PendingTodos(todos), loc), PriorityFallback)
  }

  /** The improvement template regrouped around its list of titles. */
  lemma SuggestShape(head: string, list: string, indent: string, last: string)
    ensures ("\n" + head + "\n" + indent) + list + ("\n" + last)
            == "\n" + head + "\n" + (indent + list) + "\n" + Join([last], "\n")
  {
  }

  /** The improvement prompt lists one `- title` line per overdue todo,
      in order, between its introduction and the closing indentation. */
  lemma {:induction false} SuggestPromptLines(overdue: seq<ToDo>)
    requires overdue != []
    requires forall i :: 0 <= i < |overdue| ==> '\n' !in overdue[i].title
    ensures var lines := MapSeq(overdue, TitleLine);
      Split(SuggestPrompt(overdue), '\n')
      == ["", SuggestIntroLine, Indent12 + lines[0]] + lines[1..] + [Indent8]
  {
    var lines := MapSeq(overdue, TitleLine);
    SingleLineIndents();
    assert '\n' !in SuggestIntroLine by {
      SingleLineSuggestIntro();
    }
    assert forall i :: 0 <= i < |lines| ==> '\n' !in lines[i] by {
      forall i | 0 <= i < |lines|
        ensures '\n' !in lines[i]
      {
        SingleLineTitleLine(overdue[i]);
      }
    }
    SplitBlock(SuggestIntroLine, Indent12, lines, [Indent8], '\n');
    SuggestShape(SuggestIntroLine, Join(lines, "\n"), Indent12, Indent8);
  }

  /** The analysis template's fixed pieces are single lines. */
  lemma SingleLineAnalyzePieces()
    ensures '\n' !in AnalyzeRateLabel && '\n' !in AnalyzePercentSuffix
    ensures '\n' !in CompletedLabel && '\n' !in IncompleteLabel
  {
  }

  /** The analysis request is a single line. */
  lemma SingleLineAnalyzeRequest()
    ensures '\n' !in AnalyzeRequest
  {
  }

  /** Splitting the analysis prompt at line breaks gives back the template's
      lines, so each count sits on its own line after its label. */
  lemma AnalyzePromptLines(todos: seq<ToDo>, rateText: string)
    requires '\n' !in rateText
    ensures Split(AnalyzePrompt(todos, rateText), '\n') == AnalyzeLines(todos, rateText)
  {
    var lines := AnalyzeLines(todos, rateText);
    SingleLineIndents();
    SingleLineAnalyzePieces();
    SingleLineAnalyzeRequest();
    var n1 := NatToString(CompletedCount(todos));
    var n2 := NatToString(IncompleteCount(todos));
    assert '\n' !in n1 && '\n' !in n2;
    assert forall i :: 0 <= i < |lines| ==> '\n' !in lines[i];
    SplitJoin(lines, '\n');
  }

  /** The counts the analysis prompt reports add up to the number of
      todos, and the open count is the number of todos not completed. */
  lemma {:induction false} CountsPartition(todos: seq<ToDo>)
    ensures CompletedCount(todos) + IncompleteCount(todos) == |todos|
    ensures CompletedCount(todos) == |Filter(todos, IsCompleted)|
    ensures IncompleteCount(todos) == |Filter(todos, IsPending)|
  {
    CompletedPendingPartition(todos);
  }

  /** `${completedTodos.length}` and `${todos.length - completedTodos.length}`
      render the counts without loss: the digits written into the prompt
      read back as the completed count and the number of open todos. */
  lemma ReportedCountsReadBack(todos: seq<ToDo>)
    ensures ParseNat(NatToString(CompletedCount(todos))) == CompletedCount(todos)
    ensures ParseNat(NatToString(IncompleteCount(todos))) == |PendingTodos(todos)|
  {
    ParseNatToString(CompletedCount(todos));
    ParseNatToString(IncompleteCount(todos));
  }

  /** Every completed todo counts once towards the completed number. */
  lemma {:induction false} CompletedCountCons(t: ToDo, rest: seq<ToDo>)
    ensures CompletedCount([t] + rest) == CompletedCount(rest) + (if t.status == Completed then 1 else 0)
  {
    assert ([t] + rest)[1..] == rest;
  }
}
