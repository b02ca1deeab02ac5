/** The reply classifier, the initialisation rule and the error fallback of
    src/services/tencentCloudService.ts. The cross-service chain of
    `processUserInput` (knowledge lookup, tool calls, model reply) is an input: its
    outcome is a parameter. */
module Cloud {
  import opened Wrappers
  import opened Text
  import opened Keywords
  import opened Types

  /** The mood tests of `analyzeResponse`, in source order; HAPPY is the default. */
  const MoodRules: seq<Rule<PandaMood>> := [
    Rule(["困", "睡觉"], SLEEPY),
    Rule(["兴奋", "开心"], EXCITED),
    Rule(["思考", "想想"], THINKING),
    Rule(["满足", "饱"], SATISFIED),
    Rule(["好奇", "看看"], CURIOUS)
  ]

  /** The action tests, each pushing its tag when it matches. */
  const ActionRules: seq<Rule<string>> := [
    Rule(["吃", "竹子"], "eating"),
    Rule(["哈欠", "困"], "yawning"),
    Rule(["玩", "游戏"], "playing"),
    Rule(["走", "散步"], "walking"),
    Rule(["伸", "懒腰"], "stretching"),
    Rule(["看", "环顾"], "looking")
  ]

  /** The tool tests, applied to the user's input rather than the reply. */
  const ToolRules: seq<Rule<string>> := [
    Rule(["搜索", "查找"], "knowledge_search"),
    Rule(["窗口", "移动"], "window_control"),
    Rule(["动作", "行为"], "panda_action"),
    Rule(["心情", "状态"], "panda_mood")
  ]

  const Apology: string := "抱歉，我遇到了一些问题，请稍后再试。"

  datatype Analysis = Analysis(mood: PandaMood, actions: seq<string>, tools: seq<string>)

  datatype IntelligentResponse = IntelligentResponse(
    content: string, mood: PandaMood, actions: seq<string>, context: string, tools: seq<string>)

  /** The mood the reply's tests pick. */
  function MoodOf(content: string): PandaMood {
    FirstMatch(ToLower(content), MoodRules, HAPPY)
  }

  /** `analyzeResponse(content, userInput)`, with SLEEPY, SATISFIED and CURIOUS
      taken as members of the mood enumeration. */
  function AnalyzeResponse(content: string, userInput: string): Analysis {
    Analysis(MoodOf(content), AllMatches(ToLower(content), ActionRules), AllMatches(ToLower(userInput), ToolRules))
  }

  /** The mood `analyzeResponse` produces as written: reading an enum member the
      enum does not declare yields `undefined`. */
  function MoodAsWritten(content: string): MoodValue {
    Lookup(MoodOf(content))
  }

  /** As written, a sleepy reply loses its mood. */
  lemma SleepyReplyHasNoMood()
    ensures MoodOf("困") == SLEEPY
    ensures MoodAsWritten("困") == Undefined
  {
    assert ToLower("困") == "困";
    assert Contains("困", "困") by { IndexOfIs("困", "困", 0); }
    assert MentionsAny("困", MoodRules[0].keywords);
    FirstMatchIs("困", MoodRules, HAPPY, 0);
  }

  /** The mood lost as written is exactly that of the three undeclared members; with
      them declared every reply gets one of the six moods, the first whose test
      matches. */
  lemma {:induction false} MoodIsFirstMatch(content: string)
    ensures MoodAsWritten(content) == Undefined <==> MoodOf(content) in {SLEEPY, SATISFIED, CURIOUS}
    ensures MoodOf(content) in {SLEEPY, EXCITED, THINKING, SATISFIED, CURIOUS, HAPPY}
    ensures forall i :: FirstMatching(ToLower(content), MoodRules, i) ==> MoodOf(content) == MoodRules[i].outcome
    ensures (forall j :: 0 <= j < |MoodRules| ==> !MentionsAny(ToLower(content), MoodRules[j].keywords)) ==>
              MoodOf(content) == HAPPY
  {
    FirstMatchRange(ToLower(content), MoodRules, HAPPY);
    forall i | FirstMatching(ToLower(content), MoodRules, i)
      ensures MoodOf(content) == MoodRules[i].outcome
    {
      FirstMatchIs(ToLower(content), MoodRules, HAPPY, i);
    }
    if forall j :: 0 <= j < |MoodRules| ==> !MentionsAny(ToLower(content), MoodRules[j].keywords) {
      FirstMatchDefault(ToLower(content), MoodRules, HAPPY);
    }
  }

  /** Each action tag is present exactly when one of its keywords occurs in the
      reply; the tags come in table order, each at most once. */
  lemma ActionsFollowTable(content: string, userInput: string, tag: string)
    ensures var actions := AnalyzeResponse(content, userInput).actions;
      && (tag in actions <==> exists i :: 0 <= i < |ActionRules| && ActionRules[i].outcome == tag &&
                                          MentionsAny(ToLower(content), ActionRules[i].keywords))
      && Subsequence(actions, Outcomes(ActionRules))
      && forall i, j :: 0 <= i < j < |actions| ==> actions[i] != actions[j]
  {
    AllMatchesIff(ToLower(content), ActionRules, tag);
    AllMatchesInOrder(ToLower(content), ActionRules);
    AllMatchesDistinct(ToLower(content), ActionRules);
  }

  /** The tools depend on the user's input alone, come in table order and are
      listed at most once. */
  lemma ToolsFollowInput(content1: string, content2: string, userInput: string, tool: string)
    ensures var tools := AnalyzeResponse(content1, userInput).tools;
      && tools == AnalyzeResponse(content2, userInput).tools
      && (tool in tools <==> exists i :: 0 <= i < |ToolRules| && ToolRules[i].outcome == tool &&
                                        MentionsAny(ToLower(userInput), ToolRules[i].keywords))
      && Subsequence(tools, Outcomes(ToolRules))
      && forall i, j :: 0 <= i < j < |tools| ==> tools[i] != tools[j]
  {
    AllMatchesIff(ToLower(userInput), ToolRules, tool);
    AllMatchesInOrder(ToLower(userInput), ToolRules);
    AllMatchesDistinct(ToLower(userInput), ToolRules);
  }

  /** The answer `processUserInput` returns when any step of its chain fails. */
  const Fallback: IntelligentResponse := IntelligentResponse(Apology, THINKING, [], "", [])

  /** `processUserInput(userInput)` given the outcome of its chain: the knowledge
      context and the model's reply, or the error that interrupted it. */
  function ProcessUserInput(userInput: string, outcome: Result<(string, string), string>): (r: IntelligentResponse)
    ensures outcome.Err? ==> r == Fallback
    ensures outcome.Ok? ==>
      && r.context == outcome.value.0 && r.content == outcome.value.1
      && r.mood == MoodOf(outcome.value.1)
      && r.actions == AllMatches(ToLower(outcome.value.1), ActionRules)
      && r.tools == AllMatches(ToLower(userInput), ToolRules)
  {
    match outcome
    case Err(_) => Fallback
    case Ok((context, reply)) =>
      var analysis := AnalyzeResponse(reply, userInput);
      IntelligentResponse(reply, analysis.mood, analysis.actions, context, analysis.tools)
  }

  class CloudService {
    var isInitialized: bool

    constructor()
      ensures !isInitialized
    {
      isInitialized := false;
    }

    /** `initialize()`, given what the knowledge, tool and model services' own
        initialisation reports: succeeds and stays initialised only when all three
        succeed; once initialised, later calls succeed at once. */
    method Initialize(ragInit: bool, mcpInit: bool, llmInit: bool) returns (ok: bool)
      modifies this
      ensures old(isInitialized) ==> ok && isInitialized
      ensures !old(isInitialized) ==> ok == (ragInit && mcpInit && llmInit) && isInitialized == ok
    {
      if isInitialized {
        return true;
      }
      if !ragInit || !mcpInit || !llmInit {
        return false;
      }
      isInitialized := true;
      return true;
    }
  }
}
