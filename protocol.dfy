/** What both chat clients share: the abstract HTTP exchange, the decoded event
    and the `data:` line rule (src/services/tencentSSEChat.ts:8-25,108-140,
    chat.ts:10-27,71-110). The byte stream is given as already-decoded text chunks
    and `JSON.parse` as an oracle that may fail. */
module Protocol {
  import opened Wrappers
  import opened Text

  /** The JSON body of the POST: `content`, `bot_app_key`, `visitor_biz_id`,
      `session_id`, `streaming_throttle`. */
  datatype ChatRequest = ChatRequest(content: string, botAppKey: string, visitorBizId: string,
                                     sessionId: string, streamingThrottle: nat)

  /** An exception value: `isError` tells `error instanceof Error`, `text` is its
      `message` (or `String(error)` when it is not an `Error`). */
  datatype JsError = JsError(isError: bool, text: string)

  /** How the read loop ends: `done` or a rejected `reader.read()`. */
  datatype StreamEnd = Done | ReadFailed(error: JsError)

  /** The body as seen through `reader.read()` and a streaming `TextDecoder`. */
  datatype BodyStream = BodyStream(chunks: seq<string>, end: StreamEnd)

  /** A response: its status, what `resp.text()` yields, and its body (`null` when absent). */
  datatype HttpResponse = HttpResponse(status: nat, text: string, body: Option<BodyStream>)

  /** What `await fetch(...)` produces. */
  datatype FetchOutcome = Fetched(response: HttpResponse) | FetchFailed(error: JsError)

  /** `resp.ok`. */
  predicate IsOk(status: nat) {
    200 <= status <= 299
  }

  /** The `payload` of an event: `content`, `is_from_self`, `is_final`. */
  datatype ChatPayload = ChatPayload(content: string, isFromSelf: bool, isFinal: bool)

  /** A decoded event, by its `type` field: "reply", "token_stat" or anything else. */
  datatype ChatEvent = Reply(payload: ChatPayload) | TokenStat | Unrecognized(kind: string)

  /** `JSON.parse` followed by reading the fields: the event, or the text of the
      exception it threw. */
  type Parser = string -> Result<ChatEvent, string>

  const DataPrefix: string := "data:"

  /** The JSON text carried by a raw line: present only when the trimmed line starts
      with `data:` and what follows the five-character prefix is non-empty once
      trimmed. */
  function DataField(raw: string): (r: Option<string>)
    ensures r.Some? ==> StartsWith(Trim(raw), DataPrefix)
    ensures r.Some? ==> r.value != [] && Trimmed(r.value)
    ensures !StartsWith(Trim(raw), DataPrefix) ==> r.None?
    ensures StartsWith(Trim(raw), DataPrefix) && r.None? ==> Trim(Trim(raw)[5..]) == []
  {
    var line := Trim(raw);
    if !StartsWith(line, DataPrefix) then None
    else
      var data := Trim(line[5..]);
      if data == [] then None else Some(data)
  }

  /** A line made of the prefix and a trimmed JSON text, with any whitespace before
      the prefix, between the prefix and the text, and after the text, carries
      exactly that text. */
  lemma DataLineCarries(w1: string, w2: string, json: string, w3: string)
    requires AllWhitespace(w1) && AllWhitespace(w2) && AllWhitespace(w3)
    requires json != [] && Trimmed(json)
    ensures DataField(w1 + DataPrefix + w2 + json + w3) == Some(json)
  {
    var line := DataPrefix + w2 + json;
    assert line[0] == 'd';
    assert line[|line| - 1] == json[|json| - 1];
    assert w1 + DataPrefix + w2 + json + w3 == w1 + line + w3;
    TrimPadded(w1, line, w3);
    assert line[5..] == w2 + json;
    assert w2 + json == w2 + json + [];
    TrimPadded(w2, json, []);
  }

  /** Blank lines, comment lines (`: ping`) and every line whose first visible
      character is not `d` (`event:`, `id:`, `retry:`) never carry an event. */
  lemma NonDataLinesIgnored(raw: string)
    requires Trim(raw) == [] || Trim(raw)[0] != 'd'
    ensures DataField(raw).None?
  {
  }

  /** A field line `name:value` carries an event only when the field is `data`. */
  lemma OtherFieldIgnored(name: string, value: string)
    requires name != [] && !IsJsWhitespace(name[0]) && ':' !in name && name != "data"
    ensures DataField(name + ":" + value).None?
  {
    var line := name + ":" + value;
    assert line[|name|] == ':';
    TrimStartKeeps(line);
    TrimEndKeeps(line, |name|);
    var t := Trim(line);
    assert t[..|name| + 1] == name + ":";
    if |name| >= 5 {
      assert name[4] in name;
      assert t[4] != DataPrefix[4];
    } else if |name| < 4 {
      assert t[|name|] != DataPrefix[|name|];
    } else {
      assert t[..4] == name;
      assert t[..4] != DataPrefix[..4];
    }
    assert !StartsWith(t, DataPrefix);
  }
}
