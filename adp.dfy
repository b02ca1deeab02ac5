/** The helpers of src/services/adpService.ts: the workflow-to-tool table, the
    suggestion list, the canned replies and the initialisation guard. The
    WebSocket connection and its handlers are not part of this model; the tool call
    of `executeWorkflow` is an input (its outcome is a parameter). */
module Adp {
  import opened Wrappers
  import opened Text
  import opened Keywords
  import opened Types
  import opened Json
  import Cloud

  datatype AdpResponse = AdpResponse(content: string, mood: PandaMood, actions: seq<string>, suggestions: seq<string>)

  datatype WorkflowResponse = WorkflowResponse(
    success: bool, workflowId: string, status: string, result: JsonValue, data: JsonValue)

  /** The own keys of the `workflowMap` object literal; each maps to itself. */
  const Workflows: seq<string> := ["panda_action", "panda_mood", "knowledge_search", "window_control"]

  /** The names every object literal inherits from `Object.prototype`. */
  const InheritedNames: seq<string> := [
    "constructor", "__defineGetter__", "__defineSetter__", "hasOwnProperty",
    "__lookupGetter__", "__lookupSetter__", "isPrototypeOf", "propertyIsEnumerable",
    "toString", "valueOf", "__proto__", "toLocaleString"
  ]

  /** What `workflowMap[workflowId] || null` yields as written: a tool name for an
      own key, the inherited member (a function, or the prototype object for
      `__proto__`, all truthy) for an inherited name, and `null` otherwise. */
  datatype ToolLookup = ToolName(name: string) | InheritedMember(name: string) | NoTool

  function ToolNameAsWritten(workflowId: string): ToolLookup {
    if workflowId in Workflows then ToolName(workflowId)
    else if workflowId in InheritedNames then InheritedMember(workflowId)
    else NoTool
  }

  /** As written, an id that names an inherited member is not mapped to `null`. */
  lemma InheritedNameIsNotNull()
    ensures "constructor" !in Workflows
    ensures ToolNameAsWritten("constructor") == InheritedMember("constructor")
  {
  }

  /** `getToolNameFromWorkflowId` reading own keys only: each of the four known
      workflow ids maps to itself, and every other id to `null`. */
  function ToolNameFor(workflowId: string): (r: Option<string>)
    ensures r.Some? <==> workflowId in Workflows
    ensures r.Some? ==> r.value == workflowId
  {
    if workflowId in Workflows then Some(workflowId) else None
  }

  /** The two lookups agree on every id that is not an inherited name. */
  lemma LookupsAgreeOffPrototype(workflowId: string)
    requires workflowId !in InheritedNames
    ensures ToolNameAsWritten(workflowId).NoTool? <==> ToolNameFor(workflowId).None?
    ensures ToolNameAsWritten(workflowId).ToolName? ==> ToolNameFor(workflowId) == Some(ToolNameAsWritten(workflowId).name)
  {
  }

  /** One suggestion, added when its tag is among the actions (or the tools). */
  datatype SuggestionRule = SuggestionRule(fromTools: bool, tag: string, suggestion: string)

  const SuggestionRules: seq<SuggestionRule> := [
    SuggestionRule(false, "eating", "让我吃竹子"),
    SuggestionRule(false, "walking", "去散步"),
    SuggestionRule(false, "playing", "一起玩耍"),
    SuggestionRule(true, "knowledge_search", "搜索知识库"),
    SuggestionRule(true, "window_control", "移动窗口")
  ]

  const DefaultSuggestions: seq<string> := ["查看帮助", "切换状态", "打开菜单"]

  predicate Applies(rule: SuggestionRule, actions: seq<string>, tools: seq<string>) {
    if rule.fromTools then rule.tag in tools else rule.tag in actions
  }

  /** The suggestions of the rules that apply, in table order. */
  function Suggested(rules: seq<SuggestionRule>, actions: seq<string>, tools: seq<string>): (r: seq<string>)
    ensures |r| <= |rules|
  {
    if rules == [] then []
    else
      var last := rules[|rules| - 1];
      Suggested(rules[..|rules| - 1], actions, tools) + (if Applies(last, actions, tools) then [last.suggestion] else [])
  }

  lemma {:induction false} SuggestedIff(rules: seq<SuggestionRule>, actions: seq<string>, tools: seq<string>, s: string)
    ensures s in Suggested(rules, actions, tools) <==>
            exists i :: 0 <= i < |rules| && rules[i].suggestion == s && Applies(rules[i], actions, tools)
  {
    if rules != [] {
      var init := rules[..|rules| - 1];
      SuggestedIff(init, actions, tools, s);
      if s in Suggested(init, actions, tools) {
        var i :| 0 <= i < |init| && init[i].suggestion == s && Applies(init[i], actions, tools);
        assert rules[i] == init[i];
      }
      if exists i :: 0 <= i < |rules| && rules[i].suggestion == s && Applies(rules[i], actions, tools) {
        var i :| 0 <= i < |rules| && rules[i].suggestion == s && Applies(rules[i], actions, tools);
        if i < |rules| - 1 {
          assert init[i] == rules[i];
        }
      }
    }
  }

  /** `generateSuggestions(response)`: one suggestion per action or tool that has
      one, in table order, or the three defaults when none applies. */
  method GenerateSuggestions(actions: seq<string>, tools: seq<string>) returns (suggestions: seq<string>)
    ensures var picked := Suggested(SuggestionRules, actions, tools);
      suggestions == if picked != [] then picked else DefaultSuggestions
  {
    suggestions := [];
    assert suggestions == Suggested(SuggestionRules[..0], actions, tools);
    if "eating" in actions {
      suggestions := suggestions + ["让我吃竹子"];
    }
    assert SuggestionRules[..1][..0] == SuggestionRules[..0];
    assert suggestions == Suggested(SuggestionRules[..1], actions, tools);
    if "walking" in actions {
      suggestions := suggestions + ["去散步"];
    }
    assert SuggestionRules[..2][..1] == SuggestionRules[..1];
    assert suggestions == Suggested(SuggestionRules[..2], actions, tools);
    if "playing" in actions {
      suggestions := suggestions + ["一起玩耍"];
    }
    assert SuggestionRules[..3][..2] == SuggestionRules[..2];
    assert suggestions == Suggested(SuggestionRules[..3], actions, tools);
    if "knowledge_search" in tools {
      suggestions := suggestions + ["搜索知识库"];
    }
    assert SuggestionRules[..4][..3] == SuggestionRules[..3];
    assert suggestions == Suggested(SuggestionRules[..4], actions, tools);
    if "window_control" in tools {
      suggestions := suggestions + ["移动窗口"];
    }
    assert SuggestionRules[..5][..4] == SuggestionRules[..4] && SuggestionRules[..5] == SuggestionRules;
    assert suggestions == Suggested(SuggestionRules, actions, tools);
    if suggestions == [] {
      suggestions := DefaultSuggestions;
    }
  }

  /** The suggestion list is never empty; it holds a table entry exactly when its
      tag occurs, and the defaults exactly when no tag does. */
  lemma SuggestionsNeverEmpty(actions: seq<string>, tools: seq<string>, s: string)
    ensures var picked := Suggested(SuggestionRules, actions, tools);
      && (if picked != [] then picked else DefaultSuggestions) != []
      && (s in picked <==> exists i :: 0 <= i < |SuggestionRules| && SuggestionRules[i].suggestion == s &&
                                       Applies(SuggestionRules[i], actions, tools))
      && (picked == [] <==> forall i :: 0 <= i < |SuggestionRules| ==> !Applies(SuggestionRules[i], actions, tools))
  {
    var picked := Suggested(SuggestionRules, actions, tools);
    SuggestedIff(SuggestionRules, actions, tools, s);
    if picked != [] {
      SuggestedIff(SuggestionRules, actions, tools, picked[0]);
    } else {
      forall i | 0 <= i < |SuggestionRules| ensures !Applies(SuggestionRules[i], actions, tools) {
        SuggestedIff(SuggestionRules, actions, tools, SuggestionRules[i].suggestion);
      }
    }
  }

  const DataReply: AdpResponse := AdpResponse(
    "我来帮你分析数据！让我查看一下最新的业务指标...", ANALYZING,
    ["show_dashboard", "generate_report"], ["查看销售趋势", "分析客户数据", "生成财务报告"])
  const ProjectReply: AdpResponse := AdpResponse(
    "好的，我来帮你管理项目进度。让我检查一下当前的项目状态...", WORKING,
    ["show_projects", "create_task"], ["查看项目进度", "分配任务", "更新里程碑"])
  const EmailReply: AdpResponse := AdpResponse(
    "我来处理你的邮件！检测到3封新邮件，其中1封标记为重要。", WORKING,
    ["show_emails", "compose_email"], ["查看重要邮件", "回复客户", "整理邮件"])

  const GreetingHead: string := "你好！我是小竹子，你的智能助手。我听到你说：\""
  const GreetingTail: string := "\"，有什么可以帮助你的吗？"

  const MockRules: seq<Rule<AdpResponse>> := [
    Rule(["数据", "分析"], DataReply),
    Rule(["项目", "管理"], ProjectReply),
    Rule(["邮件", "email"], EmailReply)
  ]

  function Greeting(message: string): AdpResponse {
    AdpResponse(GreetingHead + message + GreetingTail, HAPPY, ["show_help"], ["数据分析", "项目管理", "邮件处理", "联系人管理"])
  }

  /** `getMockResponse(message)`: the canned reply of the first keyword group found
      in the lowercased message, or a greeting. */
  function GetMockResponse(message: string): AdpResponse {
    FirstMatch(ToLower(message), MockRules, Greeting(message))
  }

  /** The groups are tried in order: data, then projects, then mail; a message with
      none of their keywords gets a HAPPY greeting quoting it verbatim. */
  lemma MockResponseChoice(message: string)
    ensures FirstMatching(ToLower(message), MockRules, 0) ==> GetMockResponse(message) == DataReply
    ensures FirstMatching(ToLower(message), MockRules, 1) ==> GetMockResponse(message) == ProjectReply
    ensures FirstMatching(ToLower(message), MockRules, 2) ==> GetMockResponse(message) == EmailReply
    ensures (forall j :: 0 <= j < |MockRules| ==> !MentionsAny(ToLower(message), MockRules[j].keywords)) ==>
              && GetMockResponse(message).mood == HAPPY
              && GetMockResponse(message).content == GreetingHead + message + GreetingTail
    ensures GetMockResponse(message).mood in {ANALYZING, WORKING, HAPPY}
  {
    var text := ToLower(message);
    forall i | 0 <= i < 3 && FirstMatching(text, MockRules, i)
      ensures GetMockResponse(message) == MockRules[i].outcome
    {
      FirstMatchIs(text, MockRules, Greeting(message), i);
    }
    if forall j :: 0 <= j < |MockRules| ==> !MentionsAny(text, MockRules[j].keywords) {
      FirstMatchDefault(text, MockRules, Greeting(message));
    }
    FirstMatchRange(text, MockRules, Greeting(message));
  }

  /** `getMockWorkflowResponse(workflowId, params)`. */
  function MockWorkflowResponse(workflowId: string, params: JsonValue): (r: WorkflowResponse)
    ensures r.success && r.status == "completed" && r.workflowId == workflowId && r.data == params
  {
    WorkflowResponse(true, workflowId, "completed", Str("工作流 " + workflowId + " 执行成功"), params)
  }

  /** The body of `executeWorkflow` after initialisation, given the outcome of the
      tool call it makes for a known workflow: the tool's result on success,
      otherwise the canned completion. */
  function ExecuteWorkflow(workflowId: string, params: JsonValue, toolCall: Result<JsonValue, string>): (r: WorkflowResponse)
    ensures r.success && r.status == "completed" && r.workflowId == workflowId && r.data == params
    ensures ToolNameFor(workflowId).None? || toolCall.Err? ==> r == MockWorkflowResponse(workflowId, params)
    ensures ToolNameFor(workflowId).Some? && toolCall.Ok? ==> r.result == toolCall.value
  {
    var toolName := ToolNameFor(workflowId);
    if toolName.Some? && toolCall.Ok? then WorkflowResponse(true, workflowId, "completed", toolCall.value, params)
    else MockWorkflowResponse(workflowId, params)
  }

  /** A message-handler registration; the callback itself is not modelled. */
  datatype Handler = Handler(name: string)

  class AdpService {
    var isInitialized: bool
    var messageHandlers: seq<Handler>

    constructor()
      ensures !isInitialized && messageHandlers == []
    {
      isInitialized := false;
      messageHandlers := [];
    }

    /** `initialize()`: does nothing once initialised; otherwise initialises the
        cloud service (ignoring its verdict) and marks itself initialised. */
    method Initialize(cloud: Cloud.CloudService, ragInit: bool, mcpInit: bool, llmInit: bool)
      modifies this, cloud
      ensures isInitialized && messageHandlers == old(messageHandlers)
      ensures old(isInitialized) ==> cloud.isInitialized == old(cloud.isInitialized)
      ensures !old(isInitialized) ==> cloud.isInitialized == (old(cloud.isInitialized) || (ragInit && mcpInit && llmInit))
    {
      if isInitialized {
        return;
      }
      var _ := cloud.Initialize(ragInit, mcpInit, llmInit);
      isInitialized := true;
    }

    /** `sendMessage(message)`: the cloud service's answer with its suggestions.
        The answer's chain never fails (`processUserInput` catches every error), so
        the canned `getMockResponse` reply is never reached. */
    method SendMessage(cloud: Cloud.CloudService, ragInit: bool, mcpInit: bool, llmInit: bool,
                       message: string, outcome: Result<(string, string), string>)
      returns (r: AdpResponse)
      modifies this, cloud
      ensures isInitialized && messageHandlers == old(messageHandlers)
      ensures var answer := Cloud.ProcessUserInput(message, outcome);
        && r.content == answer.content && r.mood == answer.mood && r.actions == answer.actions
        && r.suggestions == (if Suggested(SuggestionRules, answer.actions, answer.tools) != []
                             then Suggested(SuggestionRules, answer.actions, answer.tools)
                             else DefaultSuggestions)
    {
      Initialize(cloud, ragInit, mcpInit, llmInit);
      var answer := Cloud.ProcessUserInput(message, outcome);
      var suggestions := GenerateSuggestions(answer.actions, answer.tools);
      r := AdpResponse(answer.content, answer.mood, answer.actions, suggestions);
    }

    /** `addMessageHandler(handler)`. */
    method AddMessageHandler(handler: Handler)
      modifies this
      ensures messageHandlers == old(messageHandlers) + [handler]
      ensures isInitialized == old(isInitialized)
    {
      messageHandlers := messageHandlers + [handler];
    }
  }
}
