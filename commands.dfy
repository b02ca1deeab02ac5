/** The mock Tauri commands of src-tauri/src/commands.rs: knowledge search, tool
    calls and the model reply, each returning a JSON value or an error string. */
module Commands {
  import opened Wrappers
  import opened Text
  import opened Json
  import opened Keywords
  import Llm

  const KnownTools: seq<string> := ["panda_action", "panda_mood", "knowledge_search", "window_control"]

  /** `search_knowledge(query, _max_results)`: one made-up hit about the query; the
      result limit is ignored. */
  function SearchKnowledge(query: string, maxResults: Option<nat>): (r: Result<JsonValue, string>)
    ensures r.Ok? && r.value.Obj?
    ensures r.value.fields.Keys == {"success", "query", "results"}
    ensures r.value.fields["success"] == Bool(true) && r.value.fields["query"] == Str(query)
    ensures var results := r.value.fields["results"];
      && results.Arr? && |results.items| == 1
      && StringField(results.items[0], "title") == Some("关于\"" + query + "\"的知识")
      && StringField(results.items[0], "content") == Some("这是关于" + query + "的详细信息...")
  {
    var hit := Obj(map[
      "title" := Str("关于\"" + query + "\"的知识"),
      "content" := Str("这是关于" + query + "的详细信息..."),
      "score" := Num(0.95),
      "source" := Str("企业知识库")]);
    Ok(Obj(map["success" := Bool(true), "query" := Str(query), "results" := Arr([hit])]))
  }

  /** The reply of a tool that echoes one string parameter. */
  function Echo(key: string, value: string, message: string): JsonValue {
    Obj(map["success" := Bool(true), key := Str(value), "message" := Str(message)])
  }

  /** `call_mcp_tool(tool_name, parameters)`. */
  function CallMcpTool(toolName: string, parameters: JsonValue): (r: Result<JsonValue, string>)
    ensures r.Ok? <==> toolName in KnownTools
    ensures r.Err? ==> r.error == "未知的工具: " + toolName
  {
    match toolName
    case "panda_action" =>
      var action := UnwrapOr(StringField(parameters, "action"), "normal");
      Ok(Echo("action", action, "已执行" + action + "动作"))
    case "panda_mood" =>
      var mood := UnwrapOr(StringField(parameters, "mood"), "happy");
      Ok(Echo("mood", mood, "心情已设置为" + mood))
    case "knowledge_search" =>
      var query := UnwrapOr(StringField(parameters, "query"), "");
      Ok(Obj(map["success" := Bool(true), "query" := Str(query), "results" := Arr([])]))
    case "window_control" =>
      var action := UnwrapOr(StringField(parameters, "action"), "move");
      Ok(Echo("action", action, "窗口" + action + "操作完成"))
    case _ => Err("未知的工具: " + toolName)
  }

  /** Each tool takes its string parameter when one is given and its default
      otherwise, and echoes the value it used. */
  lemma ToolParameters(parameters: JsonValue)
    ensures var action := UnwrapOr(StringField(parameters, "action"), "normal");
      CallMcpTool("panda_action", parameters) == Ok(Echo("action", action, "已执行" + action + "动作"))
    ensures var mood := UnwrapOr(StringField(parameters, "mood"), "happy");
      CallMcpTool("panda_mood", parameters) == Ok(Echo("mood", mood, "心情已设置为" + mood))
    ensures var action := UnwrapOr(StringField(parameters, "action"), "move");
      CallMcpTool("window_control", parameters) == Ok(Echo("action", action, "窗口" + action + "操作完成"))
    ensures var query := UnwrapOr(StringField(parameters, "query"), "");
      && CallMcpTool("knowledge_search", parameters).Ok?
      && CallMcpTool("knowledge_search", parameters).value.fields["results"] == Arr([])
      && CallMcpTool("knowledge_search", parameters).value.fields["query"] == Str(query)
    ensures !parameters.Obj? ==>
      && CallMcpTool("panda_action", parameters) == Ok(Echo("action", "normal", "已执行" + "normal" + "动作"))
      && CallMcpTool("panda_mood", parameters) == Ok(Echo("mood", "happy", "心情已设置为" + "happy"))
      && CallMcpTool("window_control", parameters) == Ok(Echo("action", "move", "窗口" + "move" + "操作完成"))
  {
  }

  /** The `if … else if …` chain of `generate_llm_response`: like the session
      store's mock model without its help branch, and tested on the message as
      given rather than lowercased. */
  const ReplyRules: seq<Rule<string>> := [
    Rule(["你好", "hello"], Llm.GreetingReply),
    Rule(["状态"], Llm.StatusReply),
    Rule(["吃", "竹子"], Llm.BambooReply),
    Rule(["困", "睡觉"], Llm.SleepyReply),
    Rule(["玩", "游戏"], Llm.PlayReply)
  ]

  /** `generate_llm_response(message, _context)`: the context is ignored. */
  function GenerateLlmResponse(message: string, context: Option<string>): (r: Result<JsonValue, string>)
    ensures r.Ok? && r.value.Obj? && r.value.fields.Keys == {"content", "usage", "finish_reason"}
    ensures r.value.fields["finish_reason"] == Str("stop")
    ensures r.value.fields["usage"] == Obj(map["prompt_tokens" := Num(100.0), "completion_tokens" := Num(50.0), "total_tokens" := Num(150.0)])
  {
    Ok(Obj(map[
      "content" := Str(FirstMatch(message, ReplyRules, Llm.DefaultReply)),
      "usage" := Obj(map["prompt_tokens" := Num(100.0), "completion_tokens" := Num(50.0), "total_tokens" := Num(150.0)]),
      "finish_reason" := Str("stop")]))
  }

  /** The reply is the first matching branch's text, or the default. */
  lemma {:induction false} LlmReplyChoice(message: string, context: Option<string>)
    ensures forall i :: FirstMatching(message, ReplyRules, i) ==>
              GenerateLlmResponse(message, context).value.fields["content"] == Str(ReplyRules[i].outcome)
    ensures (forall j :: 0 <= j < |ReplyRules| ==> !MentionsAny(message, ReplyRules[j].keywords)) ==>
              GenerateLlmResponse(message, context).value.fields["content"] == Str(Llm.DefaultReply)
  {
    forall i | FirstMatching(message, ReplyRules, i)
      ensures GenerateLlmResponse(message, context).value.fields["content"] == Str(ReplyRules[i].outcome)
    {
      FirstMatchIs(message, ReplyRules, Llm.DefaultReply, i);
    }
    if forall j :: 0 <= j < |ReplyRules| ==> !MentionsAny(message, ReplyRules[j].keywords) {
      FirstMatchDefault(message, ReplyRules, Llm.DefaultReply);
    }
  }

  /** Unlike the session store's model, the command does not lowercase the message:
      a capitalised greeting is not recognised. */
  lemma CaseSensitiveGreeting()
    ensures Llm.ReplyContent("Hello") == Llm.GreetingReply
    ensures GenerateLlmResponse("Hello", None).value.fields["content"] == Str(Llm.DefaultReply)
  {
    LoweredGreeting();
    forall j | 0 <= j < |ReplyRules| ensures !MentionsAny("Hello", ReplyRules[j].keywords) {
      var keywords := ReplyRules[j].keywords;
      forall k | 0 <= k < |keywords| ensures !Contains("Hello", keywords[k]) {
        LetterAbsent("Hello", keywords[k]);
      }
      MentionsAnyIff("Hello", keywords);
    }
    LlmReplyChoice("Hello", None);
  }

  lemma LoweredGreeting()
    ensures Llm.ReplyContent("Hello") == Llm.GreetingReply
  {
    assert ToLower("Hello") == "hello";
    IndexOfIs("hello", "hello", 0);
    Llm.GreetingFirst("Hello");
  }
}
