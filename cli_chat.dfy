/** The command-line client of chat.ts: `fixEncoding`, the read loop of
    `sendChatRequest` and the prompt loop of `sseClient`. Console output, the
    reader's `releaseLock` and the prompt's `close` are recorded as a sequence of
    effects in the order they happen. */
module CliChat {
  import opened Wrappers
  import opened Text
  import opened Utf8
  import opened Framing
  import opened Protocol

  const BotAppKey: string := "tPFIVnKUviLCilazajGPuSWEgrSaybqPUvXnJJuyfxQEQaCCHakWTyLmVYCapKXZuJVvrSQyHXeNHgFkjMiWqjxNZxpIsfXJCfUmXKPDRiteRgtzrSyTTZmpvMyTGiZz"
  const VisitorBizId: string := "202403130001"
  const StreamingThrottle: nat := 1

  /** What the client does that can be observed: `console.log`, `console.error`,
      `reader.releaseLock()` and `rl.close()`. */
  datatype Effect = Log(text: string) | ErrorLog(text: string) | ReleaseLock | CloseInput

  /** The bytes `fixEncoding` fills its `Uint8Array` with: every UTF-16 code unit of
      the input stored modulo 256. */
  function Truncated(units: seq<int>): (b: seq<byte>)
    ensures |b| == |units|
    ensures forall i :: 0 <= i < |units| ==> b[i] as int == units[i] % 256
  {
    seq(|units|, i requires 0 <= i < |units| => (units[i] % 256) as byte)
  }

  /** What `fixEncoding` returns: the input's code units, truncated to bytes and
      decoded as UTF-8. `TextDecoder` replaces malformed input instead of throwing,
      so the `catch` branch that returns the input is never taken. */
  function FixEncoded(s: string): string {
    DecodeText(Truncated(CodeUnits(s)))
  }

  /** `fixEncoding(mojibakeStr)`: the byte array is filled in a loop, one code unit
      per index, and then decoded. */
  method FixEncoding(s: string) returns (r: string)
    ensures r == FixEncoded(s)
  {
    var units := CodeUnits(s);
    var bytes := new byte[|units|];
    for i := 0 to |units|
      invariant forall j :: 0 <= j < i ==> bytes[j] as int == units[j] % 256
    {
      bytes[i] := (units[i] % 256) as byte;
    }
    assert bytes[..] == Truncated(units);
    r := DecodeText(bytes[..]);
  }

  /** Text that is already plain ASCII comes back unchanged. */
  lemma FixEncodingKeepsAscii(s: string)
    requires forall i :: 0 <= i < |s| ==> (s[i] as int) < 0x80
    ensures FixEncoded(s) == s
  {
    CodeUnitsOfBmp(s);
    var b := Truncated(CodeUnits(s));
    DecodeAscii(b);
    assert Decode(b) == s;
  }

  /** The text a UTF-8 byte sequence turns into when each byte is read as one
      Latin-1 character: the mojibake `fixEncoding` is meant to repair. */
  function Latin1(b: seq<byte>): (s: string)
    ensures |s| == |b|
    ensures forall i :: 0 <= i < |b| ==> s[i] as int == b[i] as int
  {
    seq(|b|, i requires 0 <= i < |b| => b[i] as int as char)
  }

  /** `fixEncoding` repairs such mojibake: the original text comes back, except
      that a leading U+FEFF is taken for a byte order mark and dropped. */
  lemma FixEncodingRepairsMojibake(s: string)
    ensures FixEncoded(Latin1(Encode(s))) == (if s != [] && s[0] == ByteOrderMark then s[1..] else s)
  {
    Latin1Bytes(Encode(s));
    DecodeEncode(s);
  }

  /** Each Latin-1 character is one code unit, and it fits in a byte unchanged. */
  lemma Latin1Bytes(b: seq<byte>)
    ensures Truncated(CodeUnits(Latin1(b))) == b
  {
    CodeUnitsOfBmp(Latin1(b));
  }

  /** The console output for one reply: `您:` for the user's own message, `机器人:`
      for a final reply and `机器人(部分):` for a partial one, each followed by the
      re-decoded content. No marker is extracted. */
  function ReplyOutput(p: ChatPayload): (e: Effect)
    ensures e.Log?
    ensures p.isFromSelf ==> e.text == "您: " + FixEncoded(p.content)
    ensures !p.isFromSelf && p.isFinal ==> e.text == "机器人: " + FixEncoded(p.content)
    ensures !p.isFromSelf && !p.isFinal ==> e.text == "机器人(部分): " + FixEncoded(p.content)
  {
    var fixed := FixEncoded(p.content);
    if p.isFromSelf then Log("您: " + fixed)
    else if p.isFinal then Log("机器人: " + fixed)
    else Log("机器人(部分): " + fixed)
  }

  /** The body of the inner `for`: what one raw line produces. */
  function LineOutput(raw: string, parse: Parser): seq<Effect> {
    match DataField(raw)
    case None => []
    case Some(data) =>
      match parse(data)
      case Err(e) => [ErrorLog("JSON解析错误: " + e), ErrorLog("原始数据: " + Trim(raw))]
      case Ok(Reply(p)) => [ReplyOutput(p)]
      case Ok(_) => []
  }

  /** What one line produces: nothing unless it is a `data:` line with a non-empty
      payload; two error lines, the second holding the trimmed line, exactly when the
      payload does not parse; one log line exactly when it parses to a reply; nothing
      for `token_stat` or any other event type. */
  lemma LineOutputCases(raw: string, parse: Parser)
    ensures DataField(raw).None? ==> LineOutput(raw, parse) == []
    ensures DataField(raw).Some? ==>
      var data, r := DataField(raw).value, LineOutput(raw, parse);
      && (parse(data).Err? <==> |r| == 2)
      && (parse(data).Ok? && parse(data).value.Reply? <==> |r| == 1)
      && (parse(data).Err? ==> r[1] == ErrorLog("原始数据: " + Trim(raw)))
      && (forall e :: e in r ==> e.Log? || e.ErrorLog?)
  {
  }

  function LineHandler(parse: Parser): string -> seq<Effect> {
    raw => LineOutput(raw, parse)
  }

  /** The output of the read loop for a body delivered as `chunks`: every complete
      line of the received text in order; the unterminated tail is dropped. */
  function StreamOutput(chunks: seq<string>, parse: Parser): seq<Effect> {
    Emit(Lines(Concat(chunks)), LineHandler(parse))
  }

  /** The outer `catch`: an `Error` is reported by its message, anything else as it
      converts to a string. */
  function CatchOutput(e: JsError): Effect {
    if e.isError then ErrorLog("请求异常: " + e.text) else ErrorLog("处理响应时出错: " + e.text)
  }

  /** What `sendChatRequest` does with the outcome of its request. It never rejects:
      every failure is caught and logged. The reader's lock is released after the
      loop however it ends, before a read failure is logged. */
  function ChatRequestOutput(fetched: FetchOutcome, parse: Parser): seq<Effect> {
    match fetched
    case FetchFailed(e) => [CatchOutput(e)]
    case Fetched(resp) =>
      if !IsOk(resp.status) then
        [ErrorLog("请求失败，状态码: " + NatToString(resp.status)), ErrorLog("响应内容: " + resp.text)]
      else if resp.body.None? then [ErrorLog("响应体为空")]
      else
        var stream := resp.body.value;
        StreamOutput(stream.chunks, parse) + [ReleaseLock]
        + (if stream.end.ReadFailed? then [CatchOutput(stream.end.error)] else [])
  }

  function Request(content: string, sessionId: string): ChatRequest {
    ChatRequest(content, BotAppKey, VisitorBizId, sessionId, StreamingThrottle)
  }

  /** `sendChatRequest(content, sessionId)`; `fetch` stands for the server. */
  method SendChatRequest(content: string, sessionId: string, fetch: ChatRequest -> FetchOutcome, parse: Parser)
    returns (out: seq<Effect>)
    ensures out == ChatRequestOutput(fetch(Request(content, sessionId)), parse)
  {
    var fetched := fetch(Request(content, sessionId));
    if fetched.FetchFailed? {
      return [CatchOutput(fetched.error)];
    }
    var resp := fetched.response;
    if !IsOk(resp.status) {
      return [ErrorLog("请求失败，状态码: " + NatToString(resp.status)), ErrorLog("响应内容: " + resp.text)];
    }
    if resp.body.None? {
      return [ErrorLog("响应体为空")];
    }
    var stream := resp.body.value;
    out := ReadLines(stream.chunks, LineHandler(parse));
    // `finally`: the lock is released whether the loop ended with `done` or a throw
    out := out + [ReleaseLock];
    if stream.end.ReadFailed? {
      out := out + [CatchOutput(stream.end.error)];
    }
  }

  /** A reader is taken: the response is ok and has a body. */
  predicate Reading(fetched: FetchOutcome) {
    fetched.Fetched? && IsOk(fetched.response.status) && fetched.response.body.Some?
  }

  /** The lines of a stream only ever log. */
  lemma StreamOnlyLogs(chunks: seq<string>, parse: Parser)
    ensures forall e :: e in StreamOutput(chunks, parse) ==> e.Log? || e.ErrorLog?
  {
    var f := LineHandler(parse);
    var lines := Lines(Concat(chunks));
    EmitFrom(lines, f);
    forall e: Effect | e in Emit(lines, f) ensures e.Log? || e.ErrorLog? {
      var i :| 0 <= i < |lines| && e in f(lines[i]);
      LineOutputCases(lines[i], parse);
    }
  }

  /** The lock is released exactly when a reader was taken, and then exactly once. */
  lemma LockReleasedOnce(fetched: FetchOutcome, parse: Parser)
    ensures ReleaseLock in ChatRequestOutput(fetched, parse) <==> Reading(fetched)
    ensures Reading(fetched) ==> multiset(ChatRequestOutput(fetched, parse))[ReleaseLock] == 1
  {
    if Reading(fetched) {
      var stream := fetched.response.body.value;
      var tail := if stream.end.ReadFailed? then [CatchOutput(stream.end.error)] else [];
      StreamOnlyLogs(stream.chunks, parse);
      OccursOnce(StreamOutput(stream.chunks, parse), ReleaseLock, tail);
    }
  }

  lemma OccursOnce(a: seq<Effect>, x: Effect, b: seq<Effect>)
    requires x !in a && x !in b
    ensures x in a + [x] + b && multiset(a + [x] + b)[x] == 1
  {
    assert multiset(a + [x] + b) == multiset(a) + multiset{x} + multiset(b);
  }

  /** The inputs `sseClient` sends: those before the first "exit". The requests
      stop exactly there: every input before it is sent, in order, "exit" itself
      never is, and all inputs are sent when none is "exit". */
  function SentInputs(inputs: seq<string>): (sent: seq<string>)
    ensures |sent| <= |inputs|
    ensures sent == inputs[..|sent|]
    ensures "exit" !in sent
    ensures |sent| < |inputs| ==> inputs[|sent|] == "exit"
    ensures |sent| == |inputs| <==> "exit" !in inputs
  {
    if inputs == [] || inputs[0] == "exit" then []
    else
      var rest := SentInputs(inputs[1..]);
      assert inputs == [inputs[0]] + inputs[1..];
      [inputs[0]] + rest
  }

  /** The output of the prompt loop from the `n`-th request on: each input other
      than "exit" is sent as request number `n`, `n + 1`, ...; "exit" says goodbye
      and ends the loop. */
  function Conversation(inputs: seq<string>, n: nat, sessionId: string,
                        fetch: (nat, ChatRequest) -> FetchOutcome, parse: Parser): seq<Effect>
  {
    if inputs == [] then []
    else if inputs[0] == "exit" then [Log("再见！")]
    else ChatRequestOutput(fetch(n, Request(inputs[0], sessionId)), parse)
         + Conversation(inputs[1..], n + 1, sessionId, fetch, parse)
  }

  /** The banner `sseClient` prints before its first prompt. */
  function Banner(sessionId: string): seq<Effect> {
    [Log("聊天客户端已启动，输入 \"exit\" 退出"), Log("会话ID: " + sessionId)]
  }

  /** `sseClient(sessionId)` reading `inputs` at its prompt; `fetch(n, request)`
      is the server's answer to the `n`-th request. It returns what it did and the
      contents it sent. `sendChatRequest` never rejects, so the `catch` around the
      loop is never entered. The loop ends only at "exit", and only then is the
      prompt closed: when the inputs run out first, the pending question never
      resolves and nothing more happens. */
  method SseClient(sessionId: string, inputs: seq<string>,
                   fetch: (nat, ChatRequest) -> FetchOutcome, parse: Parser)
    returns (out: seq<Effect>, sent: seq<string>)
    ensures out == Banner(sessionId) + Conversation(inputs, 0, sessionId, fetch, parse)
                   + (if "exit" in inputs then [CloseInput] else [])
    ensures sent == SentInputs(inputs)
  {
    out := Banner(sessionId);
    sent := [];
    var k := 0;
    while k < |inputs|
      invariant 0 <= k <= |inputs| && k == |sent|
      invariant out + Conversation(inputs[k..], k, sessionId, fetch, parse)
             == Banner(sessionId) + Conversation(inputs, 0, sessionId, fetch, parse)
      invariant sent + SentInputs(inputs[k..]) == SentInputs(inputs)
      invariant "exit" !in inputs[..k]
    {
      var content := inputs[k];
      if content == "exit" {
        ConversationEnds(inputs[k..], k, sessionId, fetch, parse);
        assert sent + [] == sent;
        assert inputs[k] in inputs;
        out := out + [Log("再见！"), CloseInput];
        return;
      }
      var f := (request: ChatRequest) => fetch(k, request);
      var reply := SendChatRequest(content, sessionId, f, parse);
      ConversationStep(inputs[k..], k, sessionId, fetch, parse, reply);
      assert inputs[k..][1..] == inputs[k + 1..];
      ConcatAssoc(out, reply, Conversation(inputs[k + 1..], k + 1, sessionId, fetch, parse));
      ConcatAssoc(sent, [content], SentInputs(inputs[k + 1..]));
      out := out + reply;
      sent := sent + [content];
      assert inputs[..k + 1] == inputs[..k] + [content];
      k := k + 1;
    }
    assert inputs[..k] == inputs;
    assert Conversation(inputs[k..], k, sessionId, fetch, parse) == [];
  }

  lemma ConversationEnds(inputs: seq<string>, n: nat, sessionId: string,
                         fetch: (nat, ChatRequest) -> FetchOutcome, parse: Parser)
    requires inputs != [] && inputs[0] == "exit"
    ensures Conversation(inputs, n, sessionId, fetch, parse) == [Log("再见！")]
    ensures SentInputs(inputs) == []
  {
  }

  lemma ConversationStep(inputs: seq<string>, n: nat, sessionId: string,
                         fetch: (nat, ChatRequest) -> FetchOutcome, parse: Parser, reply: seq<Effect>)
    requires inputs != [] && inputs[0] != "exit"
    requires reply == ChatRequestOutput(fetch(n, Request(inputs[0], sessionId)), parse)
    ensures Conversation(inputs, n, sessionId, fetch, parse)
         == reply + Conversation(inputs[1..], n + 1, sessionId, fetch, parse)
    ensures SentInputs(inputs) == [inputs[0]] + SentInputs(inputs[1..])
  {
  }
}
