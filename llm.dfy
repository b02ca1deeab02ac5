/** The chat-session store and mock model of src/services/llm/llmService.ts.
    Session ids and `Date.now()` are parameters; one `now` stands for every clock
    reading taken during a call. */
module Llm {
  import opened Wrappers
  import opened Text
  import opened Json
  import opened Keywords

  datatype Role = User | Assistant | System

  function RoleName(r: Role): string {
    match r
    case User => "user"
    case Assistant => "assistant"
    case System => "system"
  }

  datatype ChatMessage = ChatMessage(
    id: string, role: Role, content: string, timestamp: int, metadata: Option<map<string, JsonValue>>)

  datatype ChatSession = ChatSession(
    id: string, messages: seq<ChatMessage>, context: string, createdAt: int, updatedAt: int)

  datatype Usage = Usage(promptTokens: nat, completionTokens: nat, totalTokens: nat)

  datatype LlmResponse = LlmResponse(
    content: string, usage: Usage, finishReason: string, metadata: map<string, JsonValue>)

  /** The `{ role, content }` copies handed to the model. */
  datatype PromptMessage = PromptMessage(role: Role, content: string)

  const ModelName: string := "hunyuan-lite"
  const SessionMissing: string := "会话不存在"
  const ContextHeader: string := "\n\n当前上下文信息：\n"
  const SystemPrompt: string := "你是小竹子，一只可爱的桌面熊猫宠物。你的特点：\n1. 性格活泼可爱，喜欢和用户互动\n2. 具有多种心情状态：开心、兴奋、困倦、思考、满足、好奇\n3. 可以执行各种动作：走路、打哈欠、吃竹子、玩耍、伸懒腰、环顾四周\n4. 能够帮助用户进行日常任务，提供智能对话服务\n5. 集成了RAG知识检索和MCP协议通信能力\n6. 回答要简洁有趣，符合熊猫宠物的身份\n\n请用可爱、友好的语气与用户交流，适当使用表情符号。"

  const GreetingReply: string := "你好！我是小竹子 🐼 很高兴见到你！有什么我可以帮助你的吗？"
  const StatusReply: string := "我现在状态很好！你可以点击我来切换状态，或者右键查看菜单选择不同的动作哦～"
  const BambooReply: string := "竹子是我的最爱！🎋 让我来吃一根竹子吧～"
  const SleepyReply: string := "确实有点困了呢...😴 让我打个哈欠吧～"
  const PlayReply: string := "玩耍时间到！🎮 让我来表演一些有趣的动作吧～"
  const HelpReply: string := "我可以帮你：\n1. 切换不同的状态和动作\n2. 进行智能对话\n3. 搜索知识库信息\n4. 控制窗口位置\n5. 提供各种有趣的功能！\n\n试试右键点击我查看完整菜单吧～"
  const DefaultReply: string := "我听到了！虽然我还在学习中，但我会努力理解你的意思。你可以尝试问我关于我的功能，或者让我执行一些动作哦～ 🐼"

  /** The `if … else if …` chain of `callTencentLLMAPI`, in source order (the
      second test names `状态` twice). */
  const ReplyRules: seq<Rule<string>> := [
    Rule(["你好", "hello"], GreetingReply),
    Rule(["状态", "状态"], StatusReply),
    Rule(["吃", "竹子"], BambooReply),
    Rule(["困", "睡觉"], SleepyReply),
    Rule(["玩", "游戏"], PlayReply),
    Rule(["帮助", "功能"], HelpReply)
  ]

  /** The reply text chosen for a message. */
  function ReplyContent(message: string): string {
    FirstMatch(ToLower(message), ReplyRules, DefaultReply)
  }

  /** `callTencentLLMAPI(messages)`: answers the last message. */
  function CallLlm(messages: seq<PromptMessage>, now: nat): (r: LlmResponse)
    requires messages != []
    ensures r.usage == Usage(100, 50, 150) && r.finishReason == "stop"
    ensures r.content == ReplyContent(messages[|messages| - 1].content)
  {
    LlmResponse(
      ReplyContent(messages[|messages| - 1].content),
      Usage(100, 50, 150),
      "stop",
      map["model" := Str(ModelName), "timestamp" := Num(now as real)])
  }

  /** A greeting anywhere in the message wins over every other keyword. */
  lemma GreetingFirst(message: string)
    requires Contains(ToLower(message), "你好") || Contains(ToLower(message), "hello")
    ensures ReplyContent(message) == GreetingReply
  {
    if Contains(ToLower(message), "你好") {
      MentionsOne(ToLower(message), ["你好", "hello"], 0);
    } else {
      MentionsOne(ToLower(message), ["你好", "hello"], 1);
    }
    FirstMatchIs(ToLower(message), ReplyRules, DefaultReply, 0);
  }

  /** A message with none of the keywords gets the default reply. */
  lemma NoKeywordDefault(message: string)
    requires forall j :: 0 <= j < |ReplyRules| ==> !MentionsAny(ToLower(message), ReplyRules[j].keywords)
    ensures ReplyContent(message) == DefaultReply
  {
    FirstMatchDefault(ToLower(message), ReplyRules, DefaultReply);
  }

  /** `msg_${Date.now()}_${role}`. */
  function MessageId(now: nat, role: Role): string {
    "msg_" + NatToString(now) + "_" + RoleName(role)
  }

  /** The session `createSession` stores: one system message holding the prompt. */
  function NewSession(sessionId: string, context: Option<string>, now: nat): (s: ChatSession)
    ensures |s.messages| == 1 && s.messages[0].role == System && s.messages[0].content == SystemPrompt
    ensures s.id == sessionId
  {
    ChatSession(
      sessionId,
      [ChatMessage(MessageId(now, System), System, SystemPrompt, now, None)],
      if context.Some? then context.value else "",
      now, now)
  }

  /** `ms[i]` is the first system message of `ms`. */
  predicate FirstSystemAt(ms: seq<PromptMessage>, i: nat)
    requires i < |ms|
  {
    ms[i].role == System && forall j :: 0 <= j < i ==> ms[j].role != System
  }

  /** `session.messages.map(m => ({ role, content }))`, then the context appended to
      the copy of the first system message when the context is not empty. */
  function PromptMessages(messages: seq<ChatMessage>, context: Option<string>): (r: seq<PromptMessage>)
    ensures |r| == |messages|
    ensures forall i :: 0 <= i < |messages| ==> r[i].role == messages[i].role
    ensures context.None? || context.value == "" ==>
      forall i :: 0 <= i < |messages| ==> r[i].content == messages[i].content
    ensures forall i :: 0 <= i < |messages| && messages[i].role != System ==> r[i].content == messages[i].content
    ensures context.Some? && context.value != "" ==>
      forall i :: 0 <= i < |messages| && messages[i].role == System ==>
        r[i].content == (if forall j :: 0 <= j < i ==> messages[j].role != System
                         then messages[i].content + ContextHeader + context.value
                         else messages[i].content)
  {
    var copies := seq(|messages|, i requires 0 <= i < |messages| => PromptMessage(messages[i].role, messages[i].content));
    if context.Some? && context.value != "" then WithContext(copies, context.value) else copies
  }

  /** The context header and the context appended to the first system message. */
  function WithContext(ms: seq<PromptMessage>, context: string): (r: seq<PromptMessage>)
    ensures |r| == |ms|
    ensures forall i :: 0 <= i < |ms| ==> r[i].role == ms[i].role
    ensures forall i :: 0 <= i < |ms| && !FirstSystemAt(ms, i) ==> r[i] == ms[i]
    ensures forall i :: 0 <= i < |ms| && FirstSystemAt(ms, i) ==> r[i].content == ms[i].content + ContextHeader + context
  {
    if ms == [] then []
    else if ms[0].role == System then [ms[0].(content := ms[0].content + ContextHeader + context)] + ms[1..]
    else [ms[0]] + WithContext(ms[1..], context)
  }

  /** Hence the reply to a conversation ending in a user message does not depend on
      the extra context. */
  lemma ReplyIgnoresContext(messages: seq<ChatMessage>, c1: Option<string>, c2: Option<string>, now: nat)
    requires messages != [] && messages[|messages| - 1].role == User
    ensures CallLlm(PromptMessages(messages, c1), now) == CallLlm(PromptMessages(messages, c2), now)
    ensures CallLlm(PromptMessages(messages, c1), now).content == ReplyContent(messages[|messages| - 1].content)
  {
    PromptOfUserMessage(messages, c1);
    PromptOfUserMessage(messages, c2);
    CallLlmReadsLast(PromptMessages(messages, c1), PromptMessages(messages, c2), now);
  }

  /** A user message is copied into the prompt as it is, whatever the context. */
  lemma PromptOfUserMessage(messages: seq<ChatMessage>, c: Option<string>)
    requires messages != [] && messages[|messages| - 1].role == User
    ensures var p := PromptMessages(messages, c);
      p != [] && p[|p| - 1].content == messages[|messages| - 1].content
  {
  }

  /** The model's answer depends on the last message alone. */
  lemma CallLlmReadsLast(p1: seq<PromptMessage>, p2: seq<PromptMessage>, now: nat)
    requires p1 != [] && p2 != [] && p1[|p1| - 1].content == p2[|p2| - 1].content
    ensures CallLlm(p1, now) == CallLlm(p2, now)
  {
  }

  /** `messages.filter(m => m.role !== 'system')`. */
  function NonSystem(ms: seq<ChatMessage>): (r: seq<ChatMessage>)
    ensures |r| <= |ms|
  {
    if ms == [] then []
    else (if ms[0].role != System then [ms[0]] else []) + NonSystem(ms[1..])
  }

  /** `messages.filter(m => m.role === 'system')`. */
  function SystemOnly(ms: seq<ChatMessage>): (r: seq<ChatMessage>)
    ensures |r| <= |ms|
  {
    if ms == [] then []
    else (if ms[0].role == System then [ms[0]] else []) + SystemOnly(ms[1..])
  }

  /** The filter keeps exactly the messages of the conversation that are not
      system messages. */
  lemma {:induction false} NonSystemMembers(ms: seq<ChatMessage>, m: ChatMessage)
    ensures m in NonSystem(ms) <==> m in ms && m.role != System
  {
    if ms != [] {
      NonSystemMembers(ms[1..], m);
      assert ms == [ms[0]] + ms[1..];
    }
  }

  /** Clearing keeps exactly the system messages of the conversation. */
  lemma {:induction false} SystemOnlyMembers(ms: seq<ChatMessage>, m: ChatMessage)
    ensures m in SystemOnly(ms) <==> m in ms && m.role == System
  {
    if ms != [] {
      SystemOnlyMembers(ms[1..], m);
      assert ms == [ms[0]] + ms[1..];
    }
  }

  lemma {:induction false} NonSystemAppend(ms: seq<ChatMessage>, more: seq<ChatMessage>)
    ensures NonSystem(ms + more) == NonSystem(ms) + NonSystem(more)
  {
    if ms != [] {
      assert (ms + more)[1..] == ms[1..] + more;
      NonSystemAppend(ms[1..], more);
    } else {
      assert ms + more == more;
    }
  }

  /** Clearing leaves nothing but system messages, and clearing twice is clearing
      once. */
  lemma {:induction false} NoneLeftAfterClear(ms: seq<ChatMessage>)
    ensures NonSystem(SystemOnly(ms)) == []
  {
    if ms != [] {
      NoneLeftAfterClear(ms[1..]);
      if ms[0].role == System {
        assert SystemOnly(ms) == [ms[0]] + SystemOnly(ms[1..]);
        assert SystemOnly(ms)[1..] == SystemOnly(ms[1..]);
      } else {
        assert SystemOnly(ms) == SystemOnly(ms[1..]);
      }
    }
  }

  lemma {:induction false} ClearIdempotent(ms: seq<ChatMessage>)
    ensures SystemOnly(SystemOnly(ms)) == SystemOnly(ms)
  {
    if ms != [] {
      ClearIdempotent(ms[1..]);
      if ms[0].role == System {
        assert SystemOnly(ms) == [ms[0]] + SystemOnly(ms[1..]);
        assert SystemOnly(ms)[1..] == SystemOnly(ms[1..]);
      } else {
        assert SystemOnly(ms) == SystemOnly(ms[1..]);
      }
    }
  }

  /** `getSessionHistory`'s result for a session's messages: the non-system
      messages, only the last `limit` of them when `limit` is given and not 0. */
  function History(ms: seq<ChatMessage>, limit: Option<int>): (r: seq<ChatMessage>)
    ensures limit.None? || limit.value == 0 ==> r == NonSystem(ms)
    ensures limit.Some? && limit.value > 0 ==>
      |r| == (if limit.value < |NonSystem(ms)| then limit.value else |NonSystem(ms)|) &&
      r == NonSystem(ms)[|NonSystem(ms)| - |r|..]
  {
    var visible := NonSystem(ms);
    if limit.Some? && limit.value != 0 then visible[SliceIndex(|visible|, -limit.value)..] else visible
  }

  /** The history is a suffix of the conversation without its system messages:
      every message in it is a non-system message of the session. */
  lemma HistoryIsSuffix(ms: seq<ChatMessage>, limit: Option<int>, m: ChatMessage)
    ensures var visible := NonSystem(ms);
      exists k :: 0 <= k <= |visible| && History(ms, limit) == visible[k..]
    ensures m in History(ms, limit) ==> m in ms && m.role != System
  {
    var visible := NonSystem(ms);
    var k := if limit.Some? && limit.value != 0 then SliceIndex(|visible|, -limit.value) else 0;
    assert History(ms, limit) == visible[k..];
    NonSystemMembers(ms, m);
  }

  class LlmService {
    var sessions: map<string, ChatSession>
    var currentSessionId: Option<string>
    var isInitialized: bool

    constructor()
      ensures sessions == map[] && currentSessionId == None && !isInitialized
    {
      sessions := map[];
      currentSessionId := None;
      isInitialized := false;
    }

    /** `getSession(id)`. */
    function GetSession(id: string): (r: Option<ChatSession>)
      reads this
      ensures r.Some? <==> id in sessions
      ensures r.Some? ==> r.value == sessions[id]
    {
      if id in sessions then Some(sessions[id]) else None
    }

    /** `getCurrentSession()`: none when the current id is unset or empty. */
    function GetCurrentSession(): (r: Option<ChatSession>)
      reads this
      ensures r.Some? <==> currentSessionId.Some? && currentSessionId.value != "" && currentSessionId.value in sessions
    {
      if currentSessionId.None? || currentSessionId.value == "" then None
      else GetSession(currentSessionId.value)
    }

    /** `createSession(context)` with the generated id `sessionId`: stores a session
        holding only the system prompt and makes it current. */
    method CreateSession(context: Option<string>, sessionId: string, now: nat) returns (id: string)
      modifies this
      ensures id == sessionId && currentSessionId == Some(sessionId)
      ensures sessions == old(sessions)[sessionId := NewSession(sessionId, context, now)]
      ensures isInitialized == old(isInitialized)
    {
      sessions := sessions[sessionId := NewSession(sessionId, context, now)];
      currentSessionId := Some(sessionId);
      return sessionId;
    }

    /** `initialize()`: creates the default session once; later calls change
        nothing. It always reports success. */
    method Initialize(sessionId: string, now: nat) returns (ok: bool)
      modifies this
      ensures ok && isInitialized
      ensures old(isInitialized) ==> sessions == old(sessions) && currentSessionId == old(currentSessionId)
      ensures !old(isInitialized) ==>
        sessions == old(sessions)[sessionId := NewSession(sessionId, None, now)] && currentSessionId == Some(sessionId)
    {
      if isInitialized {
        return true;
      }
      var _ := CreateSession(None, sessionId, now);
      isInitialized := true;
      return true;
    }

    /** `addMessage(sessionId, role, content, metadata)`: fails for an unknown
        session; otherwise appends one message and stamps the session. */
    method AddMessage(sessionId: string, role: Role, content: string, metadata: Option<map<string, JsonValue>>, now: nat)
      returns (r: Result<string, string>)
      modifies this
      requires role != System
      ensures sessionId !in old(sessions) ==> r == Err(SessionMissing) && sessions == old(sessions)
      ensures sessionId in old(sessions) ==>
        var s := old(sessions)[sessionId];
        && r == Ok(MessageId(now, role))
        && sessions == old(sessions)[sessionId := s.(
             messages := s.messages + [ChatMessage(MessageId(now, role), role, content, now, metadata)],
             updatedAt := now)]
      ensures currentSessionId == old(currentSessionId) && isInitialized == old(isInitialized)
    {
      if sessionId !in sessions {
        return Err(SessionMissing);
      }
      var session := sessions[sessionId];
      var messageId := MessageId(now, role);
      var message := ChatMessage(messageId, role, content, now, metadata);
      sessions := sessions[sessionId := session.(messages := session.messages + [message], updatedAt := now)];
      return Ok(messageId);
    }

    /** `generateResponse(sessionId, userMessage, context)`: fails for an unknown
        session; otherwise records the user message, answers it, and records the
        answer. */
    method GenerateResponse(sessionId: string, userMessage: string, context: Option<string>, now: nat)
      returns (r: Result<LlmResponse, string>)
      modifies this
      ensures sessionId !in old(sessions) ==> r == Err(SessionMissing) && sessions == old(sessions)
      ensures sessionId in old(sessions) ==>
        && r.Ok?
        && r.value.content == ReplyContent(userMessage)
        && r.value.usage == Usage(100, 50, 150) && r.value.finishReason == "stop"
        && var s := old(sessions)[sessionId];
        sessions == old(sessions)[sessionId := s.(
          messages := s.messages + [
            ChatMessage(MessageId(now, User), User, userMessage, now, None),
            ChatMessage(MessageId(now, Assistant), Assistant, r.value.content, now, Some(r.value.metadata))],
          updatedAt := now)]
      ensures currentSessionId == old(currentSessionId) && isInitialized == old(isInitialized)
    {
      if sessionId !in sessions {
        return Err(SessionMissing);
      }
      ghost var s := sessions[sessionId];
      var _ := AddMessage(sessionId, User, userMessage, None, now);
      var messages := PromptMessages(sessions[sessionId].messages, context);
      ReplyIgnoresContext(sessions[sessionId].messages, context, None, now);
      var response := CallLlm(messages, now);
      var _ := AddMessage(sessionId, Assistant, response.content, Some(response.metadata), now);
      var user := ChatMessage(MessageId(now, User), User, userMessage, now, None);
      var answer := ChatMessage(MessageId(now, Assistant), Assistant, response.content, now, Some(response.metadata));
      assert s.messages + [user] + [answer] == s.messages + [user, answer];
      return Ok(response);
    }

    /** `getSessionHistory(sessionId, limit)`: empty for an unknown session. */
    function GetSessionHistory(sessionId: string, limit: Option<int>): (r: seq<ChatMessage>)
      reads this
      ensures sessionId !in sessions ==> r == []
      ensures sessionId in sessions ==> r == History(sessions[sessionId].messages, limit)
    {
      if sessionId !in sessions then [] else History(sessions[sessionId].messages, limit)
    }

    /** `clearSession(sessionId)`: keeps only the system messages; nothing happens
        for an unknown session. */
    method ClearSession(sessionId: string, now: nat)
      modifies this
      ensures sessionId !in old(sessions) ==> sessions == old(sessions)
      ensures sessionId in old(sessions) ==>
        var s := old(sessions)[sessionId];
        sessions == old(sessions)[sessionId := s.(messages := SystemOnly(s.messages), updatedAt := now)]
      ensures sessionId in sessions ==> GetSessionHistory(sessionId, None) == []
      ensures sessionId in sessions ==> SystemOnly(sessions[sessionId].messages) == sessions[sessionId].messages
      ensures sessionId in old(sessions) ==> forall m :: m in sessions[sessionId].messages <==>
        m in old(sessions)[sessionId].messages && m.role == System
      ensures currentSessionId == old(currentSessionId) && isInitialized == old(isInitialized)
    {
      if sessionId !in sessions {
        return;
      }
      var session := sessions[sessionId];
      NoneLeftAfterClear(session.messages);
      ClearIdempotent(session.messages);
      forall m ensures m in SystemOnly(session.messages) <==> m in session.messages && m.role == System {
        SystemOnlyMembers(session.messages, m);
      }
      sessions := sessions[sessionId := session.(messages := SystemOnly(session.messages), updatedAt := now)];
    }

    /** `deleteSession(sessionId)`: forgets the session, and the current id with it
        when it named that session. */
    method DeleteSession(sessionId: string)
      modifies this
      ensures sessions == old(sessions) - {sessionId}
      ensures currentSessionId == if old(currentSessionId) == Some(sessionId) then None else old(currentSessionId)
      ensures isInitialized == old(isInitialized)
    {
      sessions := sessions - {sessionId};
      if currentSessionId == Some(sessionId) {
        currentSessionId := None;
      }
    }
  }

  /** A new session has no history; each answered message adds the user message and
      the answer to it, in that order. */
  lemma HistoryGrowsByExchange(sessionId: string, context: Option<string>, now: nat,
                               ms: seq<ChatMessage>, user: ChatMessage, answer: ChatMessage)
    requires user.role == User && answer.role == Assistant
    ensures History(NewSession(sessionId, context, now).messages, None) == []
    ensures History(ms + [user, answer], None) == History(ms, None) + [user, answer]
  {
    NonSystemAppend(ms, [user, answer]);
    assert NonSystem([user, answer]) == [user] + NonSystem([answer]);
  }
}
