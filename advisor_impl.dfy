/** `OpenAIAdvisorServiceImpl`: the current advisor. Each method builds a
    prompt (a praise prompt when there is nothing to discuss), sends it
    with the advisor's model and system prompt, and falls back to a fixed
    text when the reply is empty. */
module AdvisorImpl {
  import opened Common
  import opened Seqs
  import opened ToDoEntity
  import opened Advisor

  const SystemPrompt: string :=
    "あなたはタスク管理アプリのアドバイザーです。やり取りは基本的に日本語で行います。あなたは常に建設的ですが、軽薄な話し方をします。またカジュアルに人を罵倒します。敬語は使いません。"

  const AnalyzePraise: string := "タスクはすべて完了しています。褒めたたえてください。"
  const AnalyzeIntro: string := "タスクの状況は以下の通りです："
  const AnalyzeOutro: string := "。タスクの状況を分析して、大げさ感想を述べてください。"
  const AnalyzeFallback: string := "分析を実行できませんでした。"

  const SuggestPraise: string := "期限切れのタスクはありません。褒めたたえてください。"
  const SuggestIntro: string := "以下の未完了の期限切れタスクについて、改善点を提案してください："
  const SuggestCaveat: string :=
    "ただし、提示する改善案は具体的で実行可能なものにしてください。例えば、今日の20時から30分間、バグ修正に取り組む、など。"
  const SuggestReschedule: string := "達成が困難な場合には、リスケジュールを提案してください。"
  const SuggestFallback: string := "提案を生成できませんでした。"

  const PriorityPraise: string := "未完了のタスクはありません。褒めたたえてください。"
  const PriorityFallback: string := "優先順位の提案を生成できませんでした。"

  /** The prompt of `analyzeTodoProgress`: the serialised todos, one per
      line, between an introduction and a request for comment. */
  function AnalyzePrompt(todos: seq<ToDo>, stringify: ToDo -> string): (r: string)
    ensures r == AnalyzePraise <==> todos == []
  {
    var summary := MapSeq(todos, stringify);
    if |summary| == 0 then AnalyzePraise
    else
      var p := AnalyzeIntro + "\n" + Join(summary, "\n") + AnalyzeOutro;
      assert p[3] == AnalyzeIntro[3] != AnalyzePraise[3];
      p
  }

  /** The text of the improvement template before and after the list. */
  const SuggestOpening: string := "\n" + Indent12 + SuggestIntro + "\n" + Indent12
  const SuggestClosing: string :=
    "\n" + Indent12 + SuggestCaveat + "\n\n" + Indent12 + SuggestReschedule + "\n" + Indent8

  /** The prompt of `suggestImprovements` for the serialised overdue todos. */
  function SuggestPrompt(overdue: seq<string>): (r: string)
    ensures r == SuggestPraise <==> overdue == []
  {
    if |overdue| == 0 then SuggestPraise
    else
      var p := SuggestOpening + Join(overdue, "\n") + SuggestClosing;
      assert p[0] == SuggestOpening[0] == '\n' != SuggestPraise[0];
      p
  }

  /** The prompt of `getPrioritySuggestions` for the pending todos. */
  function PriorityPrompt(pending: seq<ToDo>, loc: Locale): (r: string)
    ensures r == PriorityPraise <==> pending == []
  {
    if |pending| == 0 then PriorityPraise else PriorityListPrompt(pending, loc)
  }

  /** The advisor: its OpenAI client (`llm`) and its model. */
  datatype AdvisorImpl = AdvisorImpl(llm: ChatRequest -> Result<Completion>, model: LLMModel)

  /** `new OpenAIAdvisorServiceImpl()` with no model: `gpt-4o`. */
  function NewAdvisor(llm: ChatRequest -> Result<Completion>): (a: AdvisorImpl)
    ensures ModelName(a.model) == "gpt-4o"
  {
    AdvisorImpl(llm, DefaultModel)
  }

  /** `analyzeTodoProgress(todos)`. */
  function AnalyzeTodoProgress(a: AdvisorImpl, stringify: ToDo -> string, todos: seq<ToDo>): (r: Advice)
    ensures r.request == ChatRequest(ModelName(a.model), SystemPrompt, AnalyzePrompt(todos, stringify))
    ensures r.result == ReplyText(a.llm(r.request), AnalyzeFallback)
  {
    Ask(a.llm, a.model, SystemPrompt, AnalyzePrompt(todos, stringify), AnalyzeFallback)
  }

  /** `suggestImprovements(todos)` at instant `now`. */
  function SuggestImprovements(a: AdvisorImpl, stringify: ToDo -> string, todos: seq<ToDo>, now: int): (r: Advice)
    ensures r.request == ChatRequest(ModelName(a.model), SystemPrompt,
                                     SuggestPrompt(MapSeq(OverdueTodos(todos, now), stringify)))
    ensures r.result == ReplyText(a.llm(r.request), SuggestFallback)
  {
    Ask(a.llm, a.model, SystemPrompt, SuggestPrompt(MapSeq(OverdueTodos(todos, now), stringify)), SuggestFallback)
  }

  /** `getPrioritySuggestions(todos)`. */
  function GetPrioritySuggestions(a: AdvisorImpl, todos: seq<ToDo>, loc: Locale): (r: Advice)
    ensures r.request == ChatRequest(ModelName(a.model), SystemPrompt, PriorityPrompt(PendingTodos(todos), loc))
    ensures r.result == ReplyText(a.llm(r.request), PriorityFallback)
  {
    Ask(a.llm, a.model, SystemPrompt, PriorityPrompt(PendingTodos(todos), loc), PriorityFallback)
  }

  /** The analysis introduction and closing are single lines. */
  lemma SingleLineAnalyzeTexts()
    ensures '\n' !in AnalyzeOutro && '\n' !in AnalyzeIntro
  {
  }

  /** With serialisations free of line breaks (as `JSON.stringify` without
      indentation produces), the analysis prompt carries one serialised
      todo per line, in input order, the last one followed by the request. */
  lemma {:induction false} AnalyzePromptLines(todos: seq<ToDo>, stringify: ToDo -> string)
    requires todos != []
    requires forall i :: 0 <= i < |todos| ==> '\n' !in stringify(todos[i])
    ensures var summary := MapSeq(todos, stringify);
      Split(AnalyzePrompt(todos, stringify), '\n')
      == [AnalyzeIntro] + summary[..|summary| - 1] + [summary[|summary| - 1] + AnalyzeOutro]
  {
    var summary := MapSeq(todos, stringify);
    SingleLineAnalyzeTexts();
    forall i | 0 <= i < |summary|
      ensures '\n' !in summary[i]
    {
    }
    SplitJoinThen(summary, AnalyzeOutro, '\n');
    SplitAtFirstSeparator(AnalyzeIntro, Join(summary, "\n") + AnalyzeOutro, '\n');
    assert AnalyzePrompt(todos, stringify) == AnalyzeIntro + "\n" + (Join(summary, "\n") + AnalyzeOutro);
  }

  /** The praise prompt of `suggestImprovements` is chosen exactly when no
      todo is overdue. */
  lemma SuggestPraiseIffNoneOverdue(todos: seq<ToDo>, stringify: ToDo -> string, now: int)
    ensures SuggestPrompt(MapSeq(OverdueTodos(todos, now), stringify)) == SuggestPraise
            <==> forall i :: 0 <= i < |todos| ==> !IsOverdue(todos[i], now)
  {
    OverdueExactly(todos, now);
  }

  /** The praise prompt of `getPrioritySuggestions` is chosen exactly when
      every todo is completed. */
  lemma PriorityPraiseIffAllCompleted(todos: seq<ToDo>, loc: Locale)
    ensures PriorityPrompt(PendingTodos(todos), loc) == PriorityPraise
            <==> forall i :: 0 <= i < |todos| ==> todos[i].status == Completed
  {
    PendingExactly(todos);
  }

  /** Every serialised overdue todo appears in the improvement prompt. */
  lemma SuggestPromptCarries(overdue: seq<string>, i: int)
    requires 0 <= i < |overdue|
    ensures Contains(SuggestPrompt(overdue), overdue[i])
  {
    var j := Join(overdue, "\n");
    JoinContainsPart(overdue, "\n", i);
    ContainsMiddle(SuggestOpening, j, SuggestClosing, overdue[i]);
  }

  /** `suggestImprovements` asks about every overdue todo: its
      serialisation is part of the prompt sent. */
  lemma OverdueTodoReachesPrompt(a: AdvisorImpl, stringify: ToDo -> string, todos: seq<ToDo>, now: int, t: ToDo)
    requires t in todos && IsOverdue(t, now)
    ensures Contains(SuggestImprovements(a, stringify, todos, now).request.user, stringify(t))
  {
    OverdueExactly(todos, now);
    var overdue := OverdueTodos(todos, now);
    var k :| 0 <= k < |overdue| && overdue[k] == t;
    SuggestPromptCarries(MapSeq(overdue, stringify), k);
  }

  /** All three methods send the same model and system prompt. */
  lemma SameModelAndSystemPrompt(a: AdvisorImpl, stringify: ToDo -> string, todos: seq<ToDo>, now: int, loc: Locale)
    ensures var r1, r2, r3 := AnalyzeTodoProgress(a, stringify, todos),
                              SuggestImprovements(a, stringify, todos, now),
                              GetPrioritySuggestions(a, todos, loc);
      r1.request.model == r2.request.model == r3.request.model == ModelName(a.model)
      && r1.request.system == r2.request.system == r3.request.system == SystemPrompt
  {
  }
}
