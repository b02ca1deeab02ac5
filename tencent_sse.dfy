/** The browser client of src/services/tencentSSEChat.ts: marker extraction, reply
    routing, the `data:` line handling and the read loop of `sendTencentChat`,
    reporting through the callbacks `onSelf`, `onPartial`, `onFinal` and `onError`. */
module TencentSse {
  import opened Wrappers
  import opened Text
  import opened Framing
  import opened Protocol

  const BotAppKey: string := "tPFIVnKUviLCilazajGPuSWEgrSaybqPUvXnJJuyfxQEQaCCHakWTyLmVYCapKXZuJVvrSQyHXeNHgFkjMiWqjxNZxpIsfXJCfUmXKPDRiteRgtzrSyTTZmpvMyTGiZz"
  const VisitorBizId: string := "202503130001"
  const StreamingThrottle: nat := 1

  /** One callback invocation, in the order the client makes them. */
  datatype Callback =
    | OnSelf(text: string)
    | OnPartial(text: string)
    | OnFinal(text: string, audioUrl: Option<string>)
    | OnError(message: string)

  /** The result of `extractAudioUrlFromText`. */
  datatype Extracted = Extracted(cleanText: string, audioUrl: Option<string>)

  const StartMarker: string := "START"
  const EndMarker: string := "END"

  lemma MarkersDoNotSelfOverlap()
    ensures NoSelfOverlap(StartMarker) && NoSelfOverlap(EndMarker)
  {
    forall k | 0 < k < 5 ensures StartMarker[k..] != StartMarker[..5 - k] {
      assert StartMarker[k..][0] == StartMarker[k] != 'S';
    }
    forall k | 0 < k < 3 ensures EndMarker[k..] != EndMarker[..3 - k] {
      assert EndMarker[k..][0] == EndMarker[k] != 'E';
    }
  }

  /** An `END` found after a `START` begins after the whole `START`: the two words
      cannot overlap, so `substring(startIdx + 5, endIdx)` never swaps its bounds. */
  lemma EndFollowsStartWord(text: string, s: int, e: int)
    requires OccursAt(text, StartMarker, s) && OccursAt(text, EndMarker, e) && s < e
    ensures s + 5 <= e
  {
    assert text[e] == text[e..e + 3][0] == 'E';
    forall j | s < j < s + 5 ensures text[j] != 'E' {
      assert text[j] == text[s..s + 5][j - s];
    }
  }

  /** `extractAudioUrlFromText`: `s` is the first `START` and `e` the first `END`
      anywhere in the text. Only when both exist and `e > s` is the audio URL the
      trimmed text between them and the clean text the trimmed rest with the marker
      span removed; otherwise the text comes back untrimmed and without a URL. */
  function ExtractAudioUrl(text: string): (r: Extracted)
    ensures r.audioUrl.None? ==> r.cleanText == text
    ensures r.audioUrl.Some? ==>
      Trimmed(r.cleanText) && Trimmed(r.audioUrl.value)
      && |r.cleanText| + |r.audioUrl.value| + |StartMarker| + |EndMarker| <= |text|
  {
    var s := IndexOf(text, StartMarker);
    var e := IndexOf(text, EndMarker);
    if s != -1 && e != -1 && e > s then
      EndFollowsStartWord(text, s, e);
      CutMarkers(text, s, e)
    else
      Extracted(text, None)
  }

  /** The text around the marker words at `s` and `e`, and the text between them,
      both trimmed. */
  function CutMarkers(text: string, s: nat, e: nat): (r: Extracted)
    requires s + 5 <= e && e + 3 <= |text|
    ensures r.audioUrl.Some?
    ensures Trimmed(r.cleanText) && Trimmed(r.audioUrl.value)
    ensures |r.cleanText| + |r.audioUrl.value| + |StartMarker| + |EndMarker| <= |text|
  {
    Extracted(Trim(text[..s] + text[e + 3..]), Some(Trim(text[s + 5..e])))
  }

  /** Where the markers sit in `pre START mid END post`. */
  lemma MarkedTextIndices(pre: string, mid: string, post: string)
    requires !Contains(pre, StartMarker)
    requires !Contains(pre + StartMarker + mid, EndMarker)
    ensures IndexOf(pre + StartMarker + mid + EndMarker + post, StartMarker) == |pre|
    ensures IndexOf(pre + StartMarker + mid + EndMarker + post, EndMarker) == |pre| + 5 + |mid|
  {
    MarkersDoNotSelfOverlap();
    assert pre + StartMarker + mid + EndMarker + post == pre + StartMarker + (mid + EndMarker + post);
    IndexOfPlacedWord(pre, StartMarker, mid + EndMarker + post);
    IndexOfPlacedWord(pre + StartMarker + mid, EndMarker, post);
  }

  /** `extractAudioUrlFromText` once the first `START` (at `s`) and the first `END`
      (at `e`) are located. */
  lemma ExtractAtIndices(text: string, s: nat, e: nat)
    requires s + 5 <= e && e + 3 <= |text|
    requires IndexOf(text, StartMarker) == s && IndexOf(text, EndMarker) == e
    ensures ExtractAudioUrl(text) == CutMarkers(text, s, e)
  {
  }

  /** Cutting the marker words out of `pre START mid END post`. */
  lemma CutMarkedText(pre: string, mid: string, post: string)
    ensures CutMarkers(pre + StartMarker + mid + EndMarker + post, |pre|, |pre| + 5 + |mid|)
         == Extracted(Trim(pre + post), Some(Trim(mid)))
  {
    MarkedTextPieces(pre, mid, post);
  }

  lemma MarkedTextPieces(pre: string, mid: string, post: string)
    ensures var text := pre + StartMarker + mid + EndMarker + post;
      && text[..|pre|] + text[|pre| + 5 + |mid| + 3..] == pre + post
      && text[|pre| + 5..|pre| + 5 + |mid|] == mid
  {
    var text := pre + StartMarker + mid + EndMarker + post;
    assert text[..|pre|] == pre;
    assert text[|pre| + 5 + |mid| + 3..] == post;
  }

  /** A URL is found exactly when both words occur and the first `END` comes after
      the first `START`. */
  lemma ExtractFindsUrlIff(text: string)
    ensures ExtractAudioUrl(text).audioUrl.Some? <==>
      Contains(text, StartMarker) && Contains(text, EndMarker)
      && IndexOf(text, EndMarker) > IndexOf(text, StartMarker)
  {
  }

  /** The reference reading of the marker format: for a text `pre START mid END post`
      whose `pre` holds no `START` and whose `pre START mid` holds no `END`, the URL is
      the trimmed `mid` and the clean text the trimmed `pre + post`. */
  lemma ExtractOfMarkedText(pre: string, mid: string, post: string)
    requires !Contains(pre, StartMarker)
    requires !Contains(pre + StartMarker + mid, EndMarker)
    ensures ExtractAudioUrl(pre + StartMarker + mid + EndMarker + post)
         == Extracted(Trim(pre + post), Some(Trim(mid)))
  {
    ExtractCutsMarkedText(pre, mid, post);
    CutMarkedText(pre, mid, post);
  }

  lemma ExtractCutsMarkedText(pre: string, mid: string, post: string)
    requires !Contains(pre, StartMarker)
    requires !Contains(pre + StartMarker + mid, EndMarker)
    ensures ExtractAudioUrl(pre + StartMarker + mid + EndMarker + post)
         == CutMarkers(pre + StartMarker + mid + EndMarker + post, |pre|, |pre| + 5 + |mid|)
  {
    MarkedTextIndices(pre, mid, post);
    ExtractAtIndices(pre + StartMarker + mid + EndMarker + post, |pre|, |pre| + 5 + |mid|);
  }

  /** The first `END` counts wherever it is: an `END` before every `START` disables
      extraction even when a proper `START`...`END` pair follows. */
  lemma EarlyEndDisablesExtraction(pre: string, rest: string)
    requires !Contains(pre, StartMarker)
    ensures ExtractAudioUrl(pre + EndMarker + rest) == Extracted(pre + EndMarker + rest, None)
  {
    var text := pre + EndMarker + rest;
    assert text[|pre|..|pre| + 3] == EndMarker;
    assert OccursAt(text, EndMarker, |pre|);
    NotContainsElim(pre, StartMarker);
    IndexOfFirst(text, EndMarker);
    IndexOfFirst(text, StartMarker);
    forall i | 0 <= i < |pre| + 3 ensures !OccursAt(text, StartMarker, i) {
      if i + 5 <= |pre| {
        assert text[i..i + 5] == pre[i..i + 5];
        assert !OccursAt(pre, StartMarker, i);
      } else {
        var j := if i < |pre| then |pre| else i;
        assert text[j] in EndMarker by {
          assert text[j] == text[|pre|..|pre| + 3][j - |pre|];
        }
        if j < |text| {
          NotOccursAtMismatch(text, StartMarker, i, j);
        }
      }
    }
  }

  /** A text in which neither marker word can start is passed through unchanged. */
  lemma UnmarkedText(text: string)
    requires 'S' !in text || 'E' !in text
    ensures ExtractAudioUrl(text) == Extracted(text, None)
  {
    if 'S' !in text {
      LetterAbsent(text, StartMarker);
    } else {
      LetterAbsent(text, EndMarker);
    }
  }

  /** A `data:` line whose JSON parses to a reply yields that reply, routed. */
  lemma ReplyLine(json: string, parse: Parser, p: ChatPayload)
    requires json != [] && Trimmed(json)
    requires parse(json) == Ok(Reply(p))
    ensures LineHandler(parse)("data: " + json) == [RouteReply(p)]
  {
    assert "data: " + json == [] + DataPrefix + " " + json + [];
    DataLineCarries([], " ", json, []);
  }

  /** A three-event stream, one event per chunk: a partial reply `h`, a partial
      reply that is nothing but a marked URL, then a final reply `t`, where neither
      `h` nor `t` holds a marker word (say "H", "STARTurl1END" and "Hello"). The
      second partial reply is reported with an empty text and without its URL (the
      URL of a partial reply is dropped), and the final reply without a URL. */
  lemma ThreeChunkScenario(j1: string, j2: string, j3: string, parse: Parser, h: string, url: string, t: string)
    requires j1 != [] && Trimmed(j1) && NoNewline(j1)
    requires j2 != [] && Trimmed(j2) && NoNewline(j2)
    requires j3 != [] && Trimmed(j3) && NoNewline(j3)
    requires 'S' !in h && 'S' !in t && Trimmed(url) && 'E' !in url
    requires parse(j1) == Ok(Reply(ChatPayload(h, false, false)))
    requires parse(j2) == Ok(Reply(ChatPayload(StartMarker + url + EndMarker, false, false)))
    requires parse(j3) == Ok(Reply(ChatPayload(t, false, true)))
    ensures StreamCallbacks(["data: " + j1 + "\n", "data: " + j2 + "\n", "data: " + j3 + "\n"], parse)
         == [OnPartial(h), OnPartial(""), OnFinal(t, None)]
  {
    var l1, l2, l3 := "data: " + j1, "data: " + j2, "data: " + j3;
    assert NoNewline(l1) && NoNewline(l2) && NoNewline(l3);
    ThreeLineStream(l1, l2, l3, parse);
    PlainReplyLine(j1, parse, h, false);
    MarkedPartialLine(j2, parse, url);
    PlainReplyLine(j3, parse, t, true);
  }

  lemma ThreeLineStream(l1: string, l2: string, l3: string, parse: Parser)
    requires NoNewline(l1) && NoNewline(l2) && NoNewline(l3)
    ensures StreamCallbacks([l1 + "\n", l2 + "\n", l3 + "\n"], parse)
         == LineHandler(parse)(l1) + LineHandler(parse)(l2) + LineHandler(parse)(l3)
  {
    ThreeLines(l1, l2, l3, LineHandler(parse));
  }

  lemma PlainReplyLine(json: string, parse: Parser, text: string, isFinal: bool)
    requires json != [] && Trimmed(json)
    requires 'S' !in text
    requires parse(json) == Ok(Reply(ChatPayload(text, false, isFinal)))
    ensures LineHandler(parse)("data: " + json) == [if isFinal then OnFinal(text, None) else OnPartial(text)]
  {
    ReplyLine(json, parse, ChatPayload(text, false, isFinal));
    UnmarkedText(text);
  }

  lemma MarkedPartialLine(json: string, parse: Parser, url: string)
    requires json != [] && Trimmed(json)
    requires Trimmed(url) && 'E' !in url
    requires parse(json) == Ok(Reply(ChatPayload(StartMarker + url + EndMarker, false, false)))
    ensures LineHandler(parse)("data: " + json) == [OnPartial("")]
  {
    ReplyLine(json, parse, ChatPayload(StartMarker + url + EndMarker, false, false));
    MarkedUrlOnly(url);
  }

  /** Three chunks of one line each are handled as those three lines. */
  lemma ThreeLines<T>(l1: string, l2: string, l3: string, f: string -> seq<T>)
    requires NoNewline(l1) && NoNewline(l2) && NoNewline(l3)
    ensures Emit(Lines(Concat([l1 + "\n", l2 + "\n", l3 + "\n"])), f) == f(l1) + f(l2) + f(l3)
  {
    ThreeLineChunks(l1, l2, l3);
    assert [l1] + [l2] + [l3] == [l1, l2, l3];
    EmitFramed([l1], l2, [l3], f);
    EmitOne(l1, f);
    EmitOne(l3, f);
  }

  lemma ThreeLineChunks(l1: string, l2: string, l3: string)
    requires NoNewline(l1) && NoNewline(l2) && NoNewline(l3)
    ensures AllNoNewline([l1, l2, l3])
    ensures Concat([l1 + "\n", l2 + "\n", l3 + "\n"]) == Concat([Terminated([l1, l2, l3])])
  {
    var c1, c2, c3 := l1 + "\n", l2 + "\n", l3 + "\n";
    assert [c1, c2, c3][..2] == [c1, c2] && [c1, c2][..1] == [c1] && [c1][..0] == [];
    assert Concat([c1]) == "" + c1;
    assert Concat([c1, c2]) == Concat([c1]) + c2;
    assert Concat([c1, c2, c3]) == Concat([c1, c2]) + c3;
    assert [l1, l2, l3][1..] == [l2, l3] && [l2, l3][1..] == [l3] && [l3][1..] == [];
    assert Terminated([l3]) == c3 + "";
    assert Terminated([l2, l3]) == c2 + Terminated([l3]);
    assert Terminated([l1, l2, l3]) == c1 + Terminated([l2, l3]);
    assert [Terminated([l1, l2, l3])][..0] == [];
    assert "" + c1 + c2 + c3 == c1 + (c2 + (c3 + ""));
  }

  /** A text that is nothing but a marked URL leaves an empty clean text. */
  lemma MarkedUrlOnly(url: string)
    requires Trimmed(url) && 'E' !in url
    ensures ExtractAudioUrl(StartMarker + url + EndMarker) == Extracted("", Some(url))
  {
    LetterAbsent("", StartMarker);
    assert 'E' !in StartMarker + url;
    LetterAbsent(StartMarker + url, EndMarker);
    assert "" + StartMarker + url == StartMarker + url;
    ExtractOfMarkedText("", url, "");
    assert StartMarker + url + EndMarker == "" + StartMarker + url + EndMarker + "";
    TrimOfTrimmed(url);
    TrimOfTrimmed("");
  }

  /** Reply routing: a self-echo goes to `onSelf` with the content as received (this
      client's `fixEncoding` is the identity and no marker is extracted), whatever
      `is_final` says; otherwise the marker is extracted, a final reply goes to
      `onFinal` with the URL and a partial one to `onPartial` without it. */
  function RouteReply(p: ChatPayload): (c: Callback)
    ensures c.OnSelf? <==> p.isFromSelf
    ensures c.OnFinal? <==> !p.isFromSelf && p.isFinal
    ensures c.OnPartial? <==> !p.isFromSelf && !p.isFinal
    ensures c.OnSelf? ==> c.text == p.content
    ensures !c.OnSelf? ==> c.text == ExtractAudioUrl(p.content).cleanText
    ensures c.OnFinal? ==> c.audioUrl == ExtractAudioUrl(p.content).audioUrl
  {
    var text := p.content;
    if p.isFromSelf then OnSelf(text)
    else if p.isFinal then
      var x := ExtractAudioUrl(text);
      OnFinal(x.cleanText, x.audioUrl)
    else
      var x := ExtractAudioUrl(text);
      OnPartial(x.cleanText)
  }

  /** The message `onError` receives for a line whose JSON could not be used. */
  function ParseErrorMessage(error: string, line: string): string {
    "JSON解析错误: " + error + " | 原始: " + line
  }

  /** The body of the inner `for`: the callbacks one raw line yields. */
  function HandleLine(raw: string, parse: Parser): seq<Callback> {
    match DataField(raw)
    case None => []
    case Some(data) =>
      match parse(data)
      case Err(e) => [OnError(ParseErrorMessage(e, Trim(raw)))]
      case Ok(Reply(p)) => [RouteReply(p)]
      case Ok(_) => []
  }

  /** What one line yields: at most one callback; nothing for a line that is not a
      `data:` line with a non-empty payload; an error exactly when the payload does
      not parse, naming the exception and the trimmed line; a routed reply exactly
      when it parses to a "reply" event; nothing for any other event type. */
  lemma HandleLineCases(raw: string, parse: Parser)
    ensures |HandleLine(raw, parse)| <= 1
    ensures DataField(raw).None? ==> HandleLine(raw, parse) == []
    ensures DataField(raw).Some? ==>
      var data, r := DataField(raw).value, HandleLine(raw, parse);
      && (parse(data).Err? <==> |r| == 1 && r[0].OnError?)
      && (parse(data).Ok? && parse(data).value.Reply? <==> |r| == 1 && !r[0].OnError?)
      && (parse(data).Err? ==> r == [OnError(ParseErrorMessage(parse(data).error, Trim(raw)))])
      && (parse(data).Ok? && parse(data).value.Reply? ==> r == [RouteReply(parse(data).value.payload)])
  {
  }

  /** The per-line handler of this client. */
  function LineHandler(parse: Parser): string -> seq<Callback> {
    raw => HandleLine(raw, parse)
  }

  /** The callbacks for a body whose reads delivered `chunks`: every complete line of
      the received text, in order; the unterminated tail is never handled. */
  function StreamCallbacks(chunks: seq<string>, parse: Parser): seq<Callback> {
    Emit(Lines(Concat(chunks)), LineHandler(parse))
  }

  /** What `sendTencentChat` does with the outcome of its request: the callbacks it
      makes and the exception its promise rejects with. */
  function TencentChat(fetched: FetchOutcome, parse: Parser): (seq<Callback>, Option<JsError>) {
    match fetched
    case FetchFailed(e) => ([], Some(e))
    case Fetched(resp) =>
      if !IsOk(resp.status) then ([OnError("HTTP " + NatToString(resp.status) + ": " + resp.text)], None)
      else if resp.body.None? then ([OnError("响应体为空")], None)
      else
        var stream := resp.body.value;
        (StreamCallbacks(stream.chunks, parse), if stream.end.ReadFailed? then Some(stream.end.error) else None)
  }

  /** `sendTencentChat(content, sessionId, callbacks)`. `fetch` stands for the server:
      the outcome of posting a request. The read loop keeps a buffer that never holds a
      newline; the lines handed on so far followed by the buffer are exactly the text
      received so far. */
  method SendTencentChat(content: string, sessionId: string, fetch: ChatRequest -> FetchOutcome, parse: Parser)
    returns (calls: seq<Callback>, rejection: Option<JsError>)
    ensures (calls, rejection) == TencentChat(fetch(ChatRequest(content, BotAppKey, VisitorBizId, sessionId, StreamingThrottle)), parse)
  {
    var request := ChatRequest(content, BotAppKey, VisitorBizId, sessionId, StreamingThrottle);
    var fetched := fetch(request);
    if fetched.FetchFailed? {
      // `fetch` is not guarded: its exception reaches the caller
      return [], Some(fetched.error);
    }
    var resp := fetched.response;
    if !IsOk(resp.status) {
      return [OnError("HTTP " + NatToString(resp.status) + ": " + resp.text)], None;
    }
    if resp.body.None? {
      return [OnError("响应体为空")], None;
    }
    calls := ReadLines(resp.body.value.chunks, LineHandler(parse));
    // `done`: the loop ends and whatever is left in the buffer is dropped
    var end := resp.body.value.end;
    rejection := if end.ReadFailed? then Some(end.error) else None;
  }

  /** A last line without a terminating newline never yields a callback. */
  lemma UnterminatedLastLineDropped(chunks: seq<string>, tail: string, parse: Parser)
    requires NoNewline(tail)
    ensures StreamCallbacks(chunks + [tail], parse) == StreamCallbacks(chunks, parse)
  {
    assert (chunks + [tail])[..|chunks|] == chunks;
    UnterminatedTailAddsNoLine(Concat(chunks), tail);
  }

  /** A line whose JSON does not parse is reported and handling goes on with the
      next line. */
  lemma ParseErrorIsContained(before: seq<string>, bad: string, after: seq<string>, parse: Parser)
    requires AllNoNewline(before + [bad] + after)
    requires DataField(bad).Some? && parse(DataField(bad).value).Err?
    ensures StreamCallbacks([Terminated(before + [bad] + after)], parse)
         == StreamCallbacks([Terminated(before)], parse)
            + [OnError(ParseErrorMessage(parse(DataField(bad).value).error, Trim(bad)))]
            + StreamCallbacks([Terminated(after)], parse)
  {
    FramedStream(before, bad, after, parse);
    BadLineReported(bad, parse);
  }

  lemma BadLineReported(bad: string, parse: Parser)
    requires DataField(bad).Some? && parse(DataField(bad).value).Err?
    ensures LineHandler(parse)(bad) == [OnError(ParseErrorMessage(parse(DataField(bad).value).error, Trim(bad)))]
  {
  }

  /** One line of a framed text is handled on its own, between the lines before and after it. */
  lemma FramedStream(before: seq<string>, x: string, after: seq<string>, parse: Parser)
    requires AllNoNewline(before + [x] + after)
    ensures StreamCallbacks([Terminated(before + [x] + after)], parse)
         == StreamCallbacks([Terminated(before)], parse) + LineHandler(parse)(x)
            + StreamCallbacks([Terminated(after)], parse)
  {
    EmitFramedChunks(before, x, after, LineHandler(parse));
  }
}
