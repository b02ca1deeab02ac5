# Zhixin LeLe companion: the chat stream clients and the in-memory services

This project models the logic of the desktop panda companion in Dafny and proves properties about it.

**The two server-sent-event chat clients.**

- **Browser client:** `sendTencentChat` with `extractAudioUrlFromText`. It reports through the callbacks `onSelf`, `onPartial`, `onFinal` and `onError`.
- **Command-line client:** `sendChatRequest` with its `fixEncoding` re-decoder and the `sseClient` prompt loop. It logs to the console.
- **Shared behaviour:** both clients collect decoded chunks in a buffer and split it on `'\n'`. They hand on every complete line and keep the unterminated tail. They act only on `data:` lines whose JSON is a `reply` event.
- **Identifiers:** the 48-digit request id and the fallback version-4 session UUID.

**The in-memory services.**

- **Knowledge store:** a document map with keyword scoring, snippet windows, stable ranking and the context text.
- **Chat-session store:** a session map with append-only message lists, history, clearing and the mock model's keyword reply chain.
- **Enterprise function registry:** twelve functions in development. Activating one makes it executable, and execution dispatches to four handlers.
- **Reply classifier of the cloud service:** mood, actions and tools, plus its initialisation rule and error fallback.
- **ADP service helpers:** the workflow-to-tool table, suggestions, canned replies, the workflow fallback and the initialisation guard.
- **Tauri commands:** the mock knowledge search, the tool dispatch with defaults, and the case-sensitive reply chain.

**How the model treats the outside world.**

- The byte stream is a sequence of already-decoded text chunks, with a terminal outcome: done, or a failed read.
- `fetch` is a function from the request to an outcome: a response with a status, a text and an optional body, or a thrown error.
- `JSON.parse` is an oracle `string -> Result<ChatEvent, string>`.
- Clock readings, random bytes and generated ids are parameters.
- Console output and callbacks are recorded as sequences of tagged records, in the order they happen.

The files:

| file | module |
|---|---|
| `framing.dfy` | line framing |
| `protocol.dfy` | the exchange and the `data:` line rule |
| `tencent_sse.dfy` | the browser client |
| `cli_chat.dfy` | the command-line client |
| `utf8.dfy` | the UTF-8 decoder that `TextDecoder` implements |
| `identifiers.dfy` | ids |
| `rag.dfy` | the knowledge store |
| `llm.dfy` | the chat-session store |
| `enterprise.dfy` | the enterprise registry |
| `cloud_service.dfy` | the cloud-service classifier |
| `adp.dfy` | the ADP service helpers |
| `commands.dfy` | the Tauri commands |
| `text.dfy`, `keywords.dfy`, `ordered_map.dfy`, `json.dfy`, `types.dfy`, `wrappers.dfy` | helpers: JavaScript string operations, keyword rule tables, a `Map` with insertion order, JSON values, the `PandaMood` enumeration, and Option/Result |

Points where the code behaves in ways a reader might not expect, and which the model follows:

- **Where `END` is searched.** `extractAudioUrlFromText` takes the first `END` anywhere in the text, not the first one after `START`. An early `END` therefore disables extraction: see `TencentSse.EarlyEndDisablesExtraction`.
- **Partial replies lose their URL.** A partial reply's URL is extracted and then dropped (src/services/tencentSSEChat.ts:149-151): `onPartial` receives only the clean text. See `TencentSse.ThreeChunkScenario`.
- **Untrimmed pass-through.** The text without a marker pair is returned untrimmed.
- **Two visitor ids.** The clients use different visitor ids: `202503130001` in the browser client and `202403130001` in the command-line client.
- **`fixEncoding` differs between the clients.** The browser client's version is the identity. The command-line client's version truncates each UTF-16 code unit to a byte and decodes the bytes as UTF-8.
- **The Tauri reply chain differs from the session store's mock model.** `generate_llm_response` tests the message as given rather than lowercased, and it has no help branch.

## Model

| member | source | states |
|---|---|---|
| Framing.Split | src/services/tencentSSEChat.ts:133 | `split('\n')` always yields at least one piece |
| Framing.SplitReconstructs | src/services/tencentSSEChat.ts:133 | no piece holds a newline, and the pieces rejoined with their newlines give the text back |
| Framing.FramingUnique | src/services/tencentSSEChat.ts:132-158 | a text splits into newline-free lines plus a newline-free tail in one way only |
| Framing.LinesCharacterized | src/services/tencentSSEChat.ts:132-158 | any newline-free lines and tail that rebuild the text are exactly its complete lines and its buffer |
| Framing.UnterminatedTailAddsNoLine | src/services/tencentSSEChat.ts:129-131 | text after the last newline adds no line, so a final unterminated line is never handled |
| Framing.TerminatedLinesRecovered | src/services/tencentSSEChat.ts:132-158 | newline-terminated lines are delivered exactly as sent, with an empty buffer |
| Framing.FeedStep | src/services/tencentSSEChat.ts:132-158 | one chunk step keeps the invariant: handed-on lines plus the newline-free buffer equal all text received |
| Framing.EmitAppend | src/services/tencentSSEChat.ts:134-157 | handling a concatenation of line lists is handling each list in turn |
| Framing.EmitAll | src/services/tencentSSEChat.ts:134-157 | the inner `for` hands every complete line to the handler, in order |
| Framing.ReadLines | src/services/tencentSSEChat.ts:127-159 | the read loop's output is the handling of the complete lines of the concatenated chunks, whatever the chunk boundaries |
| Framing.EmitFramed | src/services/tencentSSEChat.ts:134-157 | one line of a framed text is handled on its own, between the lines before and after it |
| Framing.FramedChunk | src/services/tencentSSEChat.ts:132-134 | a chunk of framed lines yields exactly those lines |
| Framing.EmitFramedChunks | src/services/tencentSSEChat.ts:134-157 | the same, with the surrounding lines as chunks of their own |
| Framing.EmitFrom | src/services/tencentSSEChat.ts:134-157 | everything emitted comes from handling one of the lines |
| Protocol.DataField | src/services/tencentSSEChat.ts:135-139 | a payload is carried only when the trimmed line starts with `data:` and the trimmed rest is non-empty; otherwise none |
| Protocol.DataLineCarries | src/services/tencentSSEChat.ts:135-139 | `data:` followed by a non-empty trimmed JSON text carries exactly that text, whatever whitespace surrounds the line and separates the prefix from the text |
| Protocol.NonDataLinesIgnored | src/services/tencentSSEChat.ts:135-136 | a line whose trimmed form is empty or does not start with `d` (blank lines, `: ping` comments, `event:`, `id:`, `retry:`) never carries an event |
| Protocol.OtherFieldIgnored | src/services/tencentSSEChat.ts:135-136 | a field line `name:value` whose name is not `data` never carries an event |
| TencentSse.ExtractAudioUrl | src/services/tencentSSEChat.ts:55-64 | with no URL the text is returned unchanged; with one, both parts are trimmed and together shorter than the text by at least the two marker words |
| TencentSse.EndFollowsStartWord | src/services/tencentSSEChat.ts:56-59 | an `END` after the first `START` begins after the whole `START` word, so the substring bounds never cross |
| TencentSse.CutMarkers | src/services/tencentSSEChat.ts:59-61 | once both words are located a URL is always found; the URL and the clean text are trimmed and together shorter than the text by at least the two marker words |
| TencentSse.ExtractFindsUrlIff | src/services/tencentSSEChat.ts:56-58 | a URL is found iff both words occur and the first `END` index is greater than the first `START` index |
| TencentSse.ExtractOfMarkedText | src/services/tencentSSEChat.ts:55-61 | `pre START mid END post`, with no earlier marker word, gives URL `trim(mid)` and clean text `trim(pre + post)` |
| TencentSse.EarlyEndDisablesExtraction | src/services/tencentSSEChat.ts:57-63 | an `END` before every `START` disables extraction even if a proper pair follows |
| TencentSse.UnmarkedText | src/services/tencentSSEChat.ts:55-63 | a text in which neither word can start passes through untrimmed |
| TencentSse.MarkedUrlOnly | src/services/tencentSSEChat.ts:55-61 | a text that is only `START url END` gives an empty clean text and the URL |
| TencentSse.RouteReply | src/services/tencentSSEChat.ts:141-153 | self-echo goes to `onSelf` with the raw content whatever `is_final` says; a final reply goes to `onFinal(clean, url)`; a partial reply goes to `onPartial(clean)`, without its URL |
| TencentSse.HandleLineCases | src/services/tencentSSEChat.ts:135-156 | a line yields at most one callback: none without a payload; `onError` with the exception and the trimmed line iff parsing fails; the routed reply iff it is a `reply` event; nothing for other types |
| TencentSse.ReplyLine | src/services/tencentSSEChat.ts:135-153 | a `data:` line whose JSON is a reply yields exactly the routed callback |
| TencentSse.MarkedPartialLine | src/services/tencentSSEChat.ts:149-151 | a partial reply that is only a marked URL is reported as `onPartial("")` |
| TencentSse.SendTencentChat | src/services/tencentSSEChat.ts:92-160 | a `fetch` error rejects with no callback; a non-ok status gives exactly one `onError("HTTP s: text")`; a missing body gives exactly one `onError("响应体为空")`; otherwise the callbacks of every complete line in order, rejecting when a read fails |
| TencentSse.ThreeChunkScenario | src/services/tencentSSEChat.ts:129-158 | the chunks `H`, `STARTurl1END` (partial) and `Hello` (final) give `onPartial(H)`, `onPartial("")` and `onFinal(Hello, none)` |
| TencentSse.UnterminatedLastLineDropped | src/services/tencentSSEChat.ts:129-131 | a last line without a newline never yields a callback |
| TencentSse.ParseErrorIsContained | src/services/tencentSSEChat.ts:137-156 | a line that fails to parse gives one `onError`, and the lines before and after are handled as usual |
| TencentSse.BadLineReported | src/services/tencentSSEChat.ts:154-156 | the error message names the exception and the trimmed line |
| TencentSse.FramedStream | src/services/tencentSSEChat.ts:133-157 | each line's callbacks depend on that line alone |
| CliChat.Truncated | chat.ts:37-40 | byte `i` is code unit `i` modulo 256 |
| CliChat.FixEncoding | chat.ts:34-46 | the loop fills the byte array and the result is its UTF-8 decoding |
| CliChat.FixEncodingKeepsAscii | chat.ts:37-42 | ASCII text is returned unchanged |
| CliChat.FixEncodingRepairsMojibake | chat.ts:36-42 | UTF-8 bytes read as Latin-1 are repaired to the original text, less a leading U+FEFF |
| CliChat.ReplyOutput | chat.ts:119-129 | `您:`, `机器人:` or `机器人(部分):` followed by the re-decoded content, by `is_from_self` and `is_final` |
| CliChat.LineOutputCases | chat.ts:102-139 | nothing without a payload; two error lines, the second with the trimmed line, iff parsing fails; one log line iff it is a reply; nothing for `token_stat` or other types |
| CliChat.SendChatRequest | chat.ts:54-155 | error lines for a non-ok status or a missing body; otherwise every complete line's output, then one lock release, then the caught read error; a `fetch` error is logged, never thrown |
| CliChat.StreamOnlyLogs | chat.ts:102-139 | the stream's lines produce only log and error lines |
| CliChat.LockReleasedOnce | chat.ts:93-146 | the lock is released iff a reader was taken, and then exactly once |
| CliChat.SentInputs | chat.ts:180-189 | the inputs before the first `exit` are sent in order and `exit` never is; every input is sent exactly when none is `exit` |
| CliChat.SseClient | chat.ts:161-196 | banner, one request per input until `exit`, then goodbye and the prompt closed; when the inputs hold no `exit` the loop never leaves and the prompt is not closed; the sent contents are those before `exit` |
| Utf8.Decode | chat.ts:41-42 | the WHATWG UTF-8 decoder with replacement yields at most one character per byte |
| Utf8.DecodeEncode | chat.ts:41-42 | decoding undoes RFC 3629 encoding for every string |
| Utf8.DecodeAscii | chat.ts:41-42 | bytes below 0x80 decode to the characters with those codes |
| Utf8.CodeUnits | chat.ts:38-39 | `charCodeAt` units are below 0x10000, with at least one per character |
| Utf8.CodeUnitsOfBmp | chat.ts:37-39 | a string below U+10000 is its own code units |
| Identifiers.HexDigit | session.ts:23 | a lowercase hexadecimal digit whose value is `n` |
| Identifiers.PadStart | session.ts:23 | the padded string has the target width, or its own length if longer |
| Identifiers.PadStartContents | session.ts:23 | the padded string is `s` behind exactly as many copies of the pad character as it lacks |
| Identifiers.ByteHexDigits | session.ts:23 | every byte becomes two digits, high nibble first |
| Identifiers.HexEncode | session.ts:22-24 | two characters per byte |
| Identifiers.HexEncodeAt | session.ts:22-24 | byte `i` sits at characters `2i` and `2i+1` |
| Identifiers.HexEncodeDigits | session.ts:22-24 | only lowercase hexadecimal digits are written |
| Identifiers.HexEncodeAppend | session.ts:22-24 | encoding a concatenation is concatenating the encodings |
| Identifiers.HexDecode | session.ts:22-24 | reading pairs back gives half as many bytes as characters |
| Identifiers.HexRoundTrip | session.ts:22-24 | decoding the hex form returns the bytes |
| Identifiers.HexEncodeInjective | session.ts:22-24 | different bytes give different ids |
| Identifiers.RequestId | session.ts:17-27 | the request id has 48 characters |
| Identifiers.RequestIdShape | session.ts:17-27 | 48 lowercase hexadecimal digits, and equal ids only for equal bytes |
| Identifiers.AndLowMask | src/services/tencentSSEChat.ts:33-34 | masking with `2^k - 1` keeps the low `k` bits |
| Identifiers.AndLowBits | src/services/tencentSSEChat.ts:33-34 | and-ing with `2^k - 1` yields exactly the low `k` bits of `x`, taken one at a time |
| Identifiers.LowBitsMod | src/services/tencentSSEChat.ts:33-34 | the low `k` bits of `x` are its remainder modulo `2^k` |
| Identifiers.OrHighBit | src/services/tencentSSEChat.ts:33-34 | or-ing in a bit above every bit of `x` adds it |
| Identifiers.VersionByte | src/services/tencentSSEChat.ts:33 | masking with 0x0f and setting 0x40 gives the low nibble plus 0x40 |
| Identifiers.VariantByte | src/services/tencentSSEChat.ts:34 | masking with 0x3f and setting 0x80 gives the low six bits plus 0x80 |
| Identifiers.UuidBytes | src/services/tencentSSEChat.ts:31-34 | sixteen bytes come out |
| Identifiers.UuidBytesContents | src/services/tencentSSEChat.ts:31-34 | byte 6 becomes the version byte, byte 8 the variant byte, and the other fourteen random bytes pass through |
| Identifiers.FormatUuid | src/services/tencentSSEChat.ts:35-36 | the formatted id has 36 characters |
| Identifiers.GenerateSessionId | src/services/tencentSSEChat.ts:27-37 | the platform UUID when there is one; otherwise the fallback, computed in place on the byte array |
| Identifiers.UuidPieces | src/services/tencentSSEChat.ts:35-36 | 8-4-4-4-12 hex groups of the bytes, with hyphens at 8, 13, 18 and 23 |
| Identifiers.FallbackIsVersion4 | src/services/tencentSSEChat.ts:31-36 | hyphens at 8, 13, 18 and 23; `4` at 14; one of `8`, `9`, `a`, `b` at 19 |
| Identifiers.MarkedLayout | src/services/tencentSSEChat.ts:35-36 | bytes carrying the version and variant nibbles format to hyphens at 8, 13, 18, 23, `4` at 14 and one of `8`, `9`, `a`, `b` at 19 |
| Identifiers.FallbackIdInjective | src/services/tencentSSEChat.ts:31-36 | equal fallback ids come only from random bytes that agree everywhere except in the bits the masks overwrite |
| Identifiers.UuidWithoutHyphens | src/services/tencentSSEChat.ts:35-36 | without the hyphens the id is the bytes' hex form |
| Identifiers.HexOfGroups | src/services/tencentSSEChat.ts:35-36 | the hex forms of the five groups concatenate to the hex form of the sixteen bytes |
| Identifiers.UuidDigits | src/services/tencentSSEChat.ts:35-36 | every non-hyphen character is a lowercase hexadecimal digit |
| Rag.Overlay | src/services/rag/ragService.ts:209-220 | the spread takes each of the five fields (id, title, content, metadata, timestamp) from the update when given, else from the document |
| Rag.OverlayLaws | src/services/rag/ragService.ts:209-220 | an empty update changes nothing, two successive updates equal their merge with the later one winning, and a full update replaces the document |
| Rag.LocalIdsDistinct | src/services/rag/ragService.ts:88-124 | the four local documents have distinct ids |
| Rag.WithDocsStores | src/services/rag/ragService.ts:121-123 | storing documents with distinct ids makes each retrievable by id and leaves other entries alone |
| Rag.OrderWithDocsConsistent | src/services/rag/ragService.ts:121-123 | the key order stays consistent with the map |
| Rag.Score | src/services/rag/ragService.ts:162-178 | the score in tenths is 0, 6, 8 or 14; at least 8 iff the lowered title contains the lowered query; 6 or 14 iff the content does |
| Rag.WindowHoldsMatch | src/services/rag/ragService.ts:166-178 | the window from `max(0, i-50)` to `min(len, i+len(q)+50)` holds the match and is at most 100 characters longer than the query |
| Rag.SnippetWindow | src/services/rag/ragService.ts:166-178 | a content snippet is such a window around the first match; if only the title matches, the snippet is the title |
| Rag.MatchesAreHits | src/services/rag/ragService.ts:158-187 | exactly the documents with a positive score are results, each with its own score and snippet |
| Rag.MatchScores | src/services/rag/ragService.ts:162-186 | every hit scores 6, 8 or 14 |
| Rag.SortByScore | src/services/rag/ragService.ts:190-191 | the sort keeps the length |
| Rag.SortByScoreSorts | src/services/rag/ragService.ts:190-191 | the sort gives a non-increasing permutation |
| Rag.SortByScoreStable | src/services/rag/ragService.ts:190-191 | results of equal score keep their relative order |
| Rag.RankingIsBands | src/services/rag/ragService.ts:158-192 | ranked hits are title-and-content matches, then title-only, then content-only, each group in store order |
| Rag.SearchResultsRanked | src/services/rag/ragService.ts:149-193 | results are hits only, best first, at most `maxResults`, and all of them when that many are asked for |
| Rag.Blocks | src/services/rag/ragService.ts:202-204 | one `【title】\nsnippet` block per result |
| Rag.ContextFallbackIff | src/services/rag/ragService.ts:195-207 | the fixed "没有找到相关的知识信息。" is returned iff there are no results |
| Rag.RagService.constructor | src/services/rag/ragService.ts:38-43 | an empty, uninitialised store |
| Rag.RagService.AllDocuments | src/services/rag/ragService.ts:230-232 | the stored documents in insertion order |
| Rag.RagService.GetDocument | src/services/rag/ragService.ts:226-228 | the stored document iff the id is present |
| Rag.RagService.Put | src/services/rag/ragService.ts:134 | `set` replaces the entry and appends a new key at the end |
| Rag.RagService.LoadLocalKnowledge | src/services/rag/ragService.ts:88-124 | the four local documents are stored in order |
| Rag.RagService.Initialize | src/services/rag/ragService.ts:63-80 | loads the local knowledge once, later calls change nothing, and always reports success |
| Rag.RagService.AddDocument | src/services/rag/ragService.ts:126-140 | stores the document under the given id, returns it, and grows the store by one for a fresh id |
| Rag.RagService.UpdateDocument | src/services/rag/ragService.ts:209-220 | false and no change for an unknown id; otherwise the overlay is stored and true returned |
| Rag.RagService.DeleteDocument | src/services/rag/ragService.ts:222-224 | true iff the id was present; afterwards it cannot be fetched |
| Rag.RagService.Search | src/services/rag/ragService.ts:149-193 | initialises if needed, then returns the ranked, truncated hits over the store in order |
| Rag.RagService.GetContextForQuery | src/services/rag/ragService.ts:195-207 | the context text of `search(query, 3)` |
| Rag.ScoreDocument | src/services/rag/ragService.ts:158-187 | the loop body computes exactly the score and snippet of one document |
| Rag.InitializedStoreHoldsLocalKnowledge | src/services/rag/ragService.ts:88-124 | after initialisation every local document can be fetched by id |
| Keywords.FirstMatchIs | src/services/tencentCloudService.ts:214-225 | an if/else-if chain picks the outcome of the first rule whose keywords occur |
| Keywords.FirstMatchDefault | src/services/tencentCloudService.ts:214-225 | with no keyword present the chain gives its default |
| Keywords.AllMatchesIff | src/services/tencentCloudService.ts:228-246 | a sequence of independent `if`s pushes an outcome iff one of its rules matches |
| Keywords.AllMatchesInOrder | src/services/tencentCloudService.ts:228-246 | pushed outcomes come in table order |
| Keywords.AllMatchesDistinct | src/services/tencentCloudService.ts:228-246 | distinct table outcomes are pushed at most once |
| Types.Lookup | src/types/index.ts:4-17 | reading an enum member is defined iff the enumeration declares it |
| Json.StringField | src-tauri/src/commands.rs:64-71 | `get(key).and_then(as_str)` is present iff the value is an object with a string at that key |
| Llm.CallLlm | src/services/llm/llmService.ts:201-243 | the reply answers the last message; usage is 100/50/150 and the finish reason `stop` |
| Llm.GreetingFirst | src/services/llm/llmService.ts:208-241 | a greeting anywhere in the lowered message wins over every other keyword |
| Llm.NoKeywordDefault | src/services/llm/llmService.ts:208-241 | a message with no keyword gets the default reply |
| Llm.NewSession | src/services/llm/llmService.ts:110-132 | a new session holds exactly one system message, the system prompt |
| Llm.PromptMessages | src/services/llm/llmService.ts:174-185 | one prompt message per stored message with its role and content; with a non-empty context, the first system message alone gets the context header and the context appended |
| Llm.WithContext | src/services/llm/llmService.ts:174-185 | the first system message gets the context header and the context appended; every other message and every role is unchanged |
| Llm.ReplyIgnoresContext | src/services/llm/llmService.ts:174-192 | when the last message is the user's, the reply does not depend on the context |
| Llm.PromptOfUserMessage | src/services/llm/llmService.ts:174-185 | a final user message reaches the prompt with its content unchanged, whatever the context |
| Llm.CallLlmReadsLast | src/services/llm/llmService.ts:201-243 | two prompts ending in the same content get the same answer |
| Llm.NonSystem | src/services/llm/llmService.ts:249 | the filter never lengthens the list |
| Llm.SystemOnly | src/services/llm/llmService.ts:258 | the filter never lengthens the list |
| Llm.SystemOnlyMembers | src/services/llm/llmService.ts:258 | a message is kept iff it is in the list and is a system message |
| Llm.NonSystemMembers | src/services/llm/llmService.ts:249 | a message is kept iff it is in the list and is not a system message |
| Llm.NonSystemAppend | src/services/llm/llmService.ts:249 | filtering distributes over concatenation |
| Llm.NoneLeftAfterClear | src/services/llm/llmService.ts:253-260 | after clearing, no non-system message is left |
| Llm.ClearIdempotent | src/services/llm/llmService.ts:253-260 | clearing twice is clearing once |
| Text.SliceIndex | src/services/llm/llmService.ts:250 | a `slice` index resolves to itself when within the list, to `len + i` for a negative index within the list, and is clamped to `0` or `len` otherwise |
| Llm.History | src/services/llm/llmService.ts:245-251 | without a limit (or with 0) all non-system messages; with a positive limit exactly the last `min(limit, n)` of them |
| Llm.HistoryIsSuffix | src/services/llm/llmService.ts:245-251 | the history is a suffix of the non-system messages, and only holds non-system messages of the session |
| Llm.HistoryGrowsByExchange | src/services/llm/llmService.ts:164-199 | a new session has an empty history, and an answered message adds the user message then the answer |
| Llm.LlmService.constructor | src/services/llm/llmService.ts:52-57 | no sessions, no current id, not initialised |
| Llm.LlmService.GetSession | src/services/llm/llmService.ts:134-136 | the session iff the id is present |
| Llm.LlmService.GetCurrentSession | src/services/llm/llmService.ts:138-141 | a session iff the current id is set, non-empty and stored |
| Llm.LlmService.CreateSession | src/services/llm/llmService.ts:110-132 | stores a new session under the given id and makes it current |
| Llm.LlmService.Initialize | src/services/llm/llmService.ts:85-102 | creates the default session once; later calls change nothing |
| Llm.LlmService.AddMessage | src/services/llm/llmService.ts:143-162 | an error for an unknown session; otherwise exactly one message appended and the session stamped, other sessions unchanged |
| Llm.LlmService.GenerateResponse | src/services/llm/llmService.ts:164-199 | error for an unknown session; otherwise the user message then the answer are appended, the answer is the keyword reply, and the session keeps its id, context and creation time while `updatedAt` becomes the call's time |
| Llm.LlmService.GetSessionHistory | src/services/llm/llmService.ts:245-251 | empty for an unknown session, otherwise the history |
| Llm.LlmService.ClearSession | src/services/llm/llmService.ts:253-260 | exactly the system messages are kept, in order, so the history is empty; no-op for an unknown id |
| Llm.LlmService.DeleteSession | src/services/llm/llmService.ts:262-267 | the session is removed; the current id is reset only if it named that session |
| Enterprise.RegisteredOrderIsTable | src/enterprise/EnterpriseManager.ts:149-151 | with distinct ids the registration loop keeps table order |
| Enterprise.RegisteredIsTable | src/enterprise/EnterpriseManager.ts:149-151 | with distinct ids every function is stored under its own id |
| Enterprise.CatalogueShape | src/enterprise/EnterpriseManager.ts:37-148 | twelve functions with distinct ids, all in development |
| Enterprise.InCategory | src/enterprise/EnterpriseManager.ts:160-162 | the filter never lengthens the list |
| Enterprise.InCategoryIff | src/enterprise/EnterpriseManager.ts:160-162 | a function is kept iff its category is the one asked for |
| Enterprise.EnterpriseManager.constructor | src/enterprise/EnterpriseManager.ts:32-152 | the twelve functions are registered in table order under their ids |
| Enterprise.EnterpriseManager.RegisterAll | src/enterprise/EnterpriseManager.ts:149-151 | the `forEach` leaves the entries and key order of setting each function in turn |
| Enterprise.EnterpriseManager.GetFunctions | src/enterprise/EnterpriseManager.ts:155-157 | exactly the registered functions, one per key |
| Enterprise.EnterpriseManager.GetFunctionsByCategory | src/enterprise/EnterpriseManager.ts:160-162 | exactly the registered functions of that category |
| Enterprise.EnterpriseManager.GetFunction | src/enterprise/EnterpriseManager.ts:165-167 | the function iff the id is registered |
| Enterprise.EnterpriseManager.ActivateFunction | src/enterprise/EnterpriseManager.ts:170-189 | false and no change for an unknown id; otherwise true, and only that entry becomes active |
| Enterprise.EnterpriseManager.ExecuteFunction | src/enterprise/EnterpriseManager.ts:199-253 | succeeds iff the function is registered, active and one of the four implemented; the chat handler echoes the message; the email, project and analysis handlers report success with their own completion texts; an unavailable id gets the "is not available" error and an active id without a handler the "not implemented" error |
| Enterprise.Activated | src/enterprise/EnterpriseManager.ts:176-184 | same keys; the id becomes active; every other entry is unchanged |
| Enterprise.ActivationIdempotent | src/enterprise/EnterpriseManager.ts:170-189 | activating twice is activating once |
| Enterprise.CheckDependencies | src/enterprise/EnterpriseManager.ts:192-196 | every dependency list is accepted |
| Enterprise.RegisteredFromTable | src/enterprise/EnterpriseManager.ts:149-151 | every registered entry comes from the table |
| Enterprise.NothingRunsUntilActivated | src/enterprise/EnterpriseManager.ts:199-203 | a fresh registry refuses every id with "is not available" |
| Cloud.SleepyReplyHasNoMood | src/services/tencentCloudService.ts:214-225 | as written, the reply "困" selects SLEEPY, which the enumeration lacks, so the mood is undefined |
| Cloud.MoodIsFirstMatch | src/services/tencentCloudService.ts:214-225 | the mood is the first matching of SLEEPY, EXCITED, THINKING, SATISFIED, CURIOUS, else HAPPY; it is undefined as written iff SLEEPY, SATISFIED or CURIOUS |
| Cloud.ActionsFollowTable | src/services/tencentCloudService.ts:228-246 | an action is present iff its keywords occur in the lowered reply; in table order, no repeats |
| Cloud.ToolsFollowInput | src/services/tencentCloudService.ts:249-261 | tools depend on the user input alone; each is present iff its keywords occur; in table order, no repeats |
| Cloud.ProcessUserInput | src/services/tencentCloudService.ts:135-171 | any error gives the apology with THINKING and empty actions, tools and context; otherwise the reply with its analysis |
| Cloud.CloudService.constructor | src/services/tencentCloudService.ts:30-34 | not initialised |
| Cloud.CloudService.Initialize | src/services/tencentCloudService.ts:47-72 | once initialised, true at once; otherwise succeeds and stays initialised iff all three services succeed |
| Adp.InheritedNameIsNotNull | src/services/adpService.ts:253-261 | as written, `constructor` is not a workflow yet the lookup does not give null |
| Adp.ToolNameFor | src/services/adpService.ts:253-261 | each of the four workflow ids maps to itself, and every other id to null |
| Adp.LookupsAgreeOffPrototype | src/services/adpService.ts:253-261 | off the inherited names, the lookup as written and the corrected lookup agree |
| Adp.Suggested | src/services/adpService.ts:264-281 | at most one suggestion per rule |
| Adp.SuggestedIff | src/services/adpService.ts:264-281 | a suggestion is present iff its action or tool tag occurs |
| Adp.GenerateSuggestions | src/services/adpService.ts:264-284 | the matching suggestions in table order, or the three defaults when none applies |
| Adp.SuggestionsNeverEmpty | src/services/adpService.ts:264-284 | the list is never empty, and it holds the defaults iff no tag occurs |
| Adp.MockResponseChoice | src/services/adpService.ts:287-323 | the first matching group of data, projects or mail gives that group's whole reply (ANALYZING, WORKING or WORKING); otherwise a HAPPY greeting quoting the message |
| Adp.MockWorkflowResponse | src/services/adpService.ts:339-347 | completed, echoing the workflow id and the parameters |
| Adp.ExecuteWorkflow | src/services/adpService.ts:140-164 | always completed and echoing; the mock for an unmapped id or a failed tool call; otherwise the tool's result |
| Adp.AdpService.constructor | src/services/adpService.ts:16-20 | not initialised, no handlers |
| Adp.AdpService.Initialize | src/services/adpService.ts:27-44 | does nothing once initialised; otherwise initialises the cloud service, ignores its verdict, and becomes initialised |
| Adp.AdpService.SendMessage | src/services/adpService.ts:89-111 | the cloud service's answer, with its suggestions |
| Adp.AdpService.AddMessageHandler | src/services/adpService.ts:227-229 | the handler is appended |
| Commands.SearchKnowledge | src-tauri/src/commands.rs:41-57 | success, the query echoed, and exactly one result whose title and content embed the query |
| Commands.CallMcpTool | src-tauri/src/commands.rs:61-99 | succeeds iff the name is one of the four tools; otherwise `未知的工具: <name>` |
| Commands.ToolParameters | src-tauri/src/commands.rs:63-97 | each tool uses its string parameter or its default (`normal`, `happy`, `move`, `""`) and echoes it; knowledge search returns no results |
| Commands.GenerateLlmResponse | src-tauri/src/commands.rs:103-128 | always usage 100/50/150 and finish reason `stop` |
| Commands.LlmReplyChoice | src-tauri/src/commands.rs:105-127 | the first matching case-sensitive branch, else the default |
| Commands.CaseSensitiveGreeting | src-tauri/src/commands.rs:105-127 | `Hello` is a greeting for the session store but gets the default reply here |

## Left out

- I/O is not modelled. This covers the HTTP transport, `reader.read`, the streaming `TextDecoder` of both clients, the readline prompt and the console. The response is a sequence of decoded chunks with a terminal outcome. `JSON.parse` is an oracle.
- TencentSse.HandleLine and TencentSse.SendTencentChat record every callback as present and returning normally. In the source the callbacks are optional (`callbacks.onX?.(…)`, src/services/tencentSSEChat.ts:116-155), so an absent one delivers nothing. A callback that throws inside the `try` (src/services/tencentSSEChat.ts:140-153) would be caught and followed by a second `onError("JSON解析错误: …")` call, which the model does not capture; the "at most one callback per line" of TencentSse.HandleLineCases assumes callbacks do not throw.
- `downloadAndPlayAudio` (src/services/tencentSSEChat.ts:67-90) is not modelled: browser `Audio`, `fetch` and blob calls. It tries direct playback before the blob fallback.
- `getSession` (session.ts:7-11) only delegates to `crypto.randomUUID`. It is not modelled; session ids are parameters.
- Randomness and clocks are parameters: `getRandomValues` bytes, `Date.now()`, and random ids. The random `embedding` vector set on stored documents (src/services/rag/ragService.ts:142-147) is not modelled. One `now` stands for every clock reading within a call, so the user and assistant messages of one `generateResponse` share their time stamp and message id form.
- Text.ToLower lowercases ASCII letters only. Full Unicode case mapping is not modelled. All keywords in the tables are Chinese or lowercase ASCII.
- Strings are sequences of Unicode scalar values. Indices count characters, so they agree with JavaScript's UTF-16 indices for text below U+10000 only. The exception is `fixEncoding`, which is modelled on code units.
- Enterprise.EnterpriseManager.ExecuteFunction: `params.message` is taken as a string or absent. Other JSON values interpolated into `AI回复: ${...}` are not modelled.
- The configuration objects and `loadConfig` of each service are not modelled. The enterprise configuration is stored but never read.
- The network parts of the services are not modelled. This covers `initializeTencentRAG`, `callTencentRAGAPI`, `initializeTencentLLM`, the WebSocket of src/services/adpService.ts:47-86 and 232-250 (its errors are caught, so the `initialize` guard is unaffected), `queryKnowledge`, `callTool` and `getAvailableTools`, the mcp service, and src/enterprise/TencentCloudADP.ts.
- The cross-service chain of `processUserInput` (src/services/tencentCloudService.ts:135-160, 173-203) is not modelled: knowledge lookup, tool calls and the model reply. Its outcome, context and reply or an error, is a parameter. The same holds for `registerMCPHandlers` and for `intelligentChat`, `searchKnowledge` and `callRelevantTools` of src/services/llm/llmService.ts:274-314.
- The tool call of `executeWorkflow` is not modelled. Its outcome is a parameter.
- Adp.AdpService.SendMessage: the `catch` that falls back to `getMockResponse` is unreachable, because `processUserInput` catches every error. `getMockResponse` is modelled as Adp.GetMockResponse on its own.
- The message-handler callbacks of the ADP service are recorded by name and never invoked.
- Delegating getters and status reports are not modelled. They return canned objects or forward to another service. This covers `getAllSessions`, `getServiceStatus`, `isServiceReady`, `getMockKnowledgeResponse`, and the tencentCloudService wrappers at lines 274-314.
- The Tauri commands `create_chat_window`, `set_tencent_cloud_config`, `get_service_status` and `add_knowledge_document` are not modelled. They only return fixed strings or objects.
- Rag.Score: scores are integer tenths (8 and 6 for 0.8 and 0.6), not floating point. The order they induce is the same.
- The user interface, the stores and the Tauri glue are not part of this model.

## Findings

| source | as written | input that shows it | evidently intended | confidence | as-written member | corrected member |
|---|---|---|---|---|---|---|
| src/services/tencentCloudService.ts:214-225 | `analyzeResponse` assigns `PandaMood.SLEEPY`, `PandaMood.SATISFIED` and `PandaMood.CURIOUS`. The enumeration at src/types/index.ts:4-17 declares none of them, so the mood is `undefined` | reply content "困" | a declared mood for every reply: the first matching mood, else HAPPY | not executed | Cloud.MoodAsWritten, shown by Cloud.SleepyReplyHasNoMood | Cloud.MoodOf and Cloud.AnalyzeResponse, with Cloud.MoodIsFirstMatch |
| src/services/adpService.ts:253-261 | `workflowMap[workflowId]`, with `null` as the fallback for a falsy value, reads a plain object literal, so names inherited from `Object.prototype` give a truthy member instead of `null` | workflow id "constructor" | only the four own keys map to a tool; every other id gives null | not executed | Adp.ToolNameAsWritten, shown by Adp.InheritedNameIsNotNull | Adp.ToolNameFor, with Adp.LookupsAgreeOffPrototype |
