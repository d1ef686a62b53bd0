# Chat proxy cores, modelled in Dafny

The repository is a collection of small HTTP proxies. Each one puts an OpenAI-style `/v1/chat/completions` interface (and a few neighbours) in front of a vendor's web chat: Doubao, DeepSeek, Kimi, Qwen, GLM, Yuanbao, Baidu and Sora. A Python gateway routes requests between them. This project models the parts of those proxies that decide what gets sent and what gets returned:

- **Gateway** (`gateway/app.py`): loads the service configuration, resolves a requested model to a service (a service whose model list holds the model or a prefix of it; then a service key contained in the lower-cased model; then `DeepSeek-R1` to `baidu`; then a service key the model starts with), and prepares the upstream request: the account chosen from the configured token, that account's token sent as the `Authorization` header (no client header is forwarded), its other fields copied into the body, the Qwen body sanitising, the relay of the reply, and the error replies.
- **Doubao, new protocol** (`DoubaoFreeApi`):
  - the session pool: load, pick, add, evict and persist sessions, and the conversation-to-session map;
  - the chat service: the request URL and body, the session choice, the guest limit;
  - the SSE handler: patch-op text, references, the conversation id, gateway errors;
  - the pydantic request and response models.
- **Doubao, legacy protocol** (`doubao-free-api-llm/src/api/controllers/chat.ts`):
  - cookie assembly and the `msToken` handling;
  - result checking and reference extraction;
  - the non-streamed receiver and the streamed transcoder;
  - the token splitter.
- **Kimi Connect RPC** (`connect-rpc/protocol.ts`): envelope framing (flag byte and 32-bit big-endian length), frame decoding, the streaming-response walk, and the extraction of the reply text, the chat id and the message id from the decoded messages.
- **DeepSeek** (`DeepSeek-Free-API-master`):
  - message preparation, result checking and token acquisition;
  - the patch-op accumulator, citation rewriting and ordering, and the stream transcoder;
  - the Claude and Gemini adapters that translate requests and re-frame the OpenAI stream.
- **Yuanbao**: the chat stream parser and the request headers.
- **Baidu** (`BaiDu-AI-main`):
  - cookie parsing and the `tk` token;
  - the streamed chat reply parser;
  - the Base64 helper;
  - the upload signer: canonical request, signed-header list, sorted query, authorisation string;
  - the file token, nanoid and upload chunking.
- **Sora**: the text extraction from a chat request and the handler's replies.
- **Qwen**: the chat route's validation, token pick and reference list.
- **GLM**: the model list and the model-id check.

Conventions:

- A stream is a sequence of received chunks or lines.
- An exception the source raises (an `AttributeError` on a missing attribute, a `TypeError` from a wrong JSON type, an explicit `raise`) is an error value of a `Result`.
- The following are function parameters of the model: JSON parsing and serialisation, UTF-8 decoding, regular expressions, URL parsing, hashes, HMAC, MD5, the clock, random choice, uuids and every network call.
- JSON values are an immutable datatype whose objects keep their key order.
- `Json` also holds the Python and JavaScript lookup semantics the sources rely on: `dict.get`, `in`, `str()`, JS property access, truthiness and loose equality.
- Strings are sequences of characters.
- Python's and JavaScript's integer division and string methods are written out where the sources use them.

## Model

| member | source | states |
|---|---|---|
| ConnectRpc.EncodeFrame | Kimi-Free-API-master/src/lib/connect-rpc/protocol.ts:16-37 | a frame exists exactly when the payload length fits in 32 bits; it is the flags octet 0x00, the big-endian length, then the payload |
| ConnectRpc.FramePayload | Kimi-Free-API-master/src/lib/connect-rpc/protocol.ts:45-64 | a payload is extracted exactly when the buffer holds the 5-octet header and the announced length; it is the announced slice after the header |
| ConnectRpc.EncodeConnectMessage | Kimi-Free-API-master/src/lib/connect-rpc/protocol.ts:16-37 | encoding succeeds exactly when the JSON text fits a 32-bit length, and gives the normal flag, the big-endian length and the text |
| ConnectRpc.DecodeConnectMessage | Kimi-Free-API-master/src/lib/connect-rpc/protocol.ts:45-73 | a buffer shorter than the header, or than the length it declares, gives `null`; otherwise the declared payload after the header is parsed |
| ConnectRpc.FramePayloadOfEncode | Kimi-Free-API-master/src/lib/connect-rpc/protocol.ts:16-64 | decoding the frame of a payload yields that payload |
| ConnectRpc.DecodeEncodeRoundTrip | Kimi-Free-API-master/src/lib/connect-rpc/protocol.ts:16-73 | a value whose JSON text parses back to itself survives encoding then decoding |
| ConnectRpc.DecodeIgnoresFlags | Kimi-Free-API-master/src/lib/connect-rpc/protocol.ts:53-68 | the flags octet has no influence on the decoded message |
| ConnectRpc.ParseStreamingResponse | Kimi-Free-API-master/src/lib/connect-rpc/protocol.ts:83-115 | the offset walk returns the truthy decoded messages of the complete envelopes, in order, stopping at a truncated header or body |
| ConnectRpc.FramesOfConcatenation | Kimi-Free-API-master/src/lib/connect-rpc/protocol.ts:83-115 | envelopes written back to back are split apart into exactly those envelopes |
| ConnectRpc.ParseEncodedStream | Kimi-Free-API-master/src/lib/connect-rpc/protocol.ts:83-115 | a stream of encoded messages parses back to those messages, with falsy ones dropped |
| ConnectRpc.TextParts | Kimi-Free-API-master/src/lib/connect-rpc/protocol.ts:123-145 | every collected text part is truthy |
| ConnectRpc.TextStopsAtDone | Kimi-Free-API-master/src/lib/connect-rpc/protocol.ts:126-142 | messages after the first `done` message contribute no text |
| ConnectRpc.TextPartsWithoutDone | Kimi-Free-API-master/src/lib/connect-rpc/protocol.ts:126-142 | without a `done` message, every set/append message with content contributes its content, in order |
| ConnectRpc.ExtractTextFromMessages | Kimi-Free-API-master/src/lib/connect-rpc/protocol.ts:123-145 | the text is the collected parts' strings side by side, with nothing between them |
| ConnectRpc.ExtractTextStopsAtDone | Kimi-Free-API-master/src/lib/connect-rpc/protocol.ts:126-145 | the text ignores every message after the first `done` message |
| ConnectRpc.ExtractTextAppend | Kimi-Free-API-master/src/lib/connect-rpc/protocol.ts:126-145 | before any `done` message, the text of a longer list is the text of its first part followed by the text of the rest |
| ConnectRpc.TextOfOneMessage | Kimi-Free-API-master/src/lib/connect-rpc/protocol.ts:128-136 | a set or append message whose content is a non-empty string gives exactly that string |
| ConnectRpc.ExtractChatId | Kimi-Free-API-master/src/lib/connect-rpc/protocol.ts:153-160 | undefined exactly when no message has a truthy chat id; otherwise the truthy chat id of the first message that has one |
| ConnectRpc.ExtractMessageId | Kimi-Free-API-master/src/lib/connect-rpc/protocol.ts:168-175 | undefined exactly when no message is an assistant message with a truthy id; otherwise the id of the first such message |
| Gateway.AppendMissing | gateway/app.py:54-58 | succeeds exactly when every default model is hashable; the result is the default models not already in the user's list, in order |
| Gateway.MergedValue | gateway/app.py:41-58 | a key missing from the user's config takes the default; a user value wins unless both sides are objects and the default lists `models` |
| Gateway.MergeModels | gateway/app.py:50-58 | fails exactly on an unhashable user entry or a non-iterable default list; otherwise the user's list followed by the default entries it lacks |
| Gateway.LoadConfig | gateway/app.py:26-71 | without a user file the defaults are used; with no defaults the user file is used as it is |
| Gateway.MergeFromLookup | gateway/app.py:40-58 | keys the defaults do not mention keep the user's value; each default key maps to its merged value |
| Gateway.UserValueWins | gateway/app.py:42-48 | a user value wins unless the default is an object that lists `models` and the user value is an object too |
| Gateway.DefaultOnlyKeyAdded | gateway/app.py:42-44 | a key only the defaults have is added with the default's value |
| Gateway.ModelsUnion | gateway/app.py:50-58 | when both sides list models, the merged list is the user's list followed by the default models it lacks |
| Gateway.ServiceHit | gateway/app.py:86-96 | the first-pass test succeeds exactly on an object service with an iterable `models`; a service without `models` is no hit |
| Gateway.ListHit | gateway/app.py:86-94 | for a list of models, a service is hit exactly when one of its string entries is a prefix of the model (an exact entry is its own prefix) |
| Gateway.FirstPassFrom | gateway/app.py:85-96 | the index returned is the first service that is hit, and no earlier one is; none means no service is hit; an error comes from some service's test |
| Gateway.Fallbacks | gateway/app.py:98-117 | a chosen fallback is a service key contained in the lower-cased model, the legacy `DeepSeek-R1` to `baidu` rule, or a key that prefixes the model; it names that key's value |
| Gateway.SelectService | gateway/app.py:80-119 | fails exactly when the first pass fails; a first-pass hit is returned; otherwise the fallbacks decide |
| Gateway.PrefixBeatsLaterExact | gateway/app.py:85-96 | the first pass is not tiered: an earlier service hit only through a prefix entry beats a later service listing the model exactly |
| Gateway.ServiceHitValue | gateway/app.py:86-94 | for a name that is not a string, a hit needs a `models` list holding an equal value; otherwise a string entry in that list raises `AttributeError`; no `models` is no hit |
| Json.PyContainsValue | gateway/app.py:86 | `in` on a list holds exactly when some element equals the value; on a dict it is false for a hashable value and a `TypeError` otherwise; on anything else it is a `TypeError` |
| Gateway.SelectValue | gateway/app.py:80-104 | a name that is not a string selects nothing only with no service configured; otherwise it selects a service listing an equal value, or raises once no such service exists |
| Gateway.SelectModel | gateway/app.py:80-119 | a string name is selected by the string rules, any other name by the value rules |
| Gateway.NothingChosen | gateway/app.py:80-119 | when nothing is selected, no service is hit, no key is contained in the lower-cased model or prefixes it, and the legacy rule does not apply |
| Gateway.SelectAccount | gateway/app.py:487-495 | a non-empty token list yields one of its entries; a non-blank string yields itself; anything else yields no account |
| Gateway.AccountToken | gateway/app.py:499-511 | a falsy account has no token; a non-object account is its own token; an object yields a truthy `hy_token`, else its `token` |
| Gateway.CopyAccountFieldsLookup | gateway/app.py:507-509 | after injection, every account field except `token` and `hy_token` is set in the body; every other key keeps the body's value |
| Gateway.Authorization | gateway/app.py:555-564 | no header for a falsy token; for `baidu` a non-string token raises; a JSON-looking or `BDUSS` token is passed raw to `baidu`; otherwise `Bearer ` and the token |
| Gateway.NoAuthorizationCases | gateway/app.py:487-512 | there is no `Authorization` header exactly when the selected account or its token is falsy |
| Gateway.ChatHeaders | gateway/app.py:549-562 | the proxied chat request carries only the content type, the fixed user agent and, when there is a token, the authorization |
| Gateway.UpstreamHeaders | gateway/app.py:690-704 | the user agent first, the content type when it is non-empty, and an authorization exactly when there is one |
| Gateway.BuildUpstreamHeaders | gateway/app.py:664-704 | the headers use the account selected from the service's `token` setting and its token |
| Gateway.DropNonPositive | gateway/app.py:516-519 | a non-positive integer setting (booleans included) is removed; every other key is unchanged |
| Gateway.RemoveAll | gateway/app.py:520-528 | every listed key is absent afterwards; every other key is unchanged |
| Gateway.SanitizeQwen | gateway/app.py:515-528 | every key of the `qwen` body maps to the cleaned value: the six unsupported keys and non-positive token limits are gone |
| Gateway.QwenDropsFalseMaxTokens | gateway/app.py:516-517 | JSON `false` counts as the integer 0, so a `max_tokens` of `false` is removed |
| Gateway.Route | gateway/app.py:459-471 | a selection failure is raised; a route exists only for a selected service; an unselected model is a 404 naming the model as `str()` shows it; `jimeng` is refused with 400 |
| Gateway.BuildChatRequest | gateway/app.py:473-572 | a service without `url` raises; otherwise the account picked from the token configuration gives the `Authorization` value, whose failure raises; on success the url is the service url plus `/v1/chat/completions`, the headers are exactly the chat headers with that value (nothing from the client is forwarded), and the body is the request with the account fields injected, sanitised when the key is `qwen`; streaming follows the body's `stream` |
| Gateway.PrepareChatRequest | gateway/app.py:450-572 | a non-object body raises; a falsy model is a 400 "Model is required"; a prepared request routes its model; a name that is not a string is a 404 with no service configured, and raises when no service lists an equal value |
| Gateway.StripEmptyIffBlank | gateway/app.py:627-632 | a line strips to nothing exactly when it is all whitespace |
| Gateway.RelayLine | gateway/app.py:618-637 | a line is dropped exactly when it is blank |
| Gateway.RelayLineChunk | gateway/app.py:625-637 | every chunk written is an SSE field line: `data:`, `event:` and comment lines pass through, `[DONE]` is normalised, other lines are wrapped in `data: ` |
| Gateway.RelayLines | gateway/app.py:618-637 | no more chunks than lines, and every chunk is an SSE field line |
| Gateway.RelayLinesAppend | gateway/app.py:618-637 | the relay works line by line: relaying a concatenation relays each part |
| Gateway.BlankLinesDropped | gateway/app.py:619-620 | appending a blank line changes nothing |
| Gateway.RelayResponse | gateway/app.py:577-641 | an upstream status of 400 or more gives one error chunk; a JSON body is one error chunk when it carries `error` and is passed through otherwise; a stream gives the relayed lines, followed by one error chunk exactly when it broke; a failed request gives only its error chunk |
| Gateway.RelayedChunksAreSse | gateway/app.py:577-641 | every chunk sent to the client is a well-formed SSE chunk, and a failure mid-stream or before it ends the output with its error chunk |
| DoubaoSse.Remainder | DoubaoFreeApi/src/service/doubao_service.py:198-199 | what stays in the buffer never holds an event separator |
| DoubaoSse.FramesAppend | DoubaoFreeApi/src/service/doubao_service.py:182-199 | cutting events does not depend on how the text was chunked: the events of a concatenation are those of the first part, then those of its remainder joined to the second part |
| DoubaoSse.FramesReassemble | DoubaoFreeApi/src/service/doubao_service.py:198-199 | the buffer is its events, each closed by a separator, followed by the remainder |
| DoubaoSse.ScanLinesLast | DoubaoFreeApi/src/service/doubao_service.py:205-212 | the event type is the last `event: ` line's value and the data the last `data: ` line's, stripped, each with its default when there is none |
| DoubaoSse.BlockTexts | DoubaoFreeApi/src/service/doubao_service.py:242-245 | the loop appends exactly the texts shown by the blocks before the first whose lookups raise, and runs to the end exactly when every block is read |
| DoubaoSse.Shown | DoubaoFreeApi/src/service/doubao_service.py:242-245 | no more texts than blocks, and every text is truthy |
| DoubaoSse.ShownHas | DoubaoFreeApi/src/service/doubao_service.py:242-245 | a text is shown exactly when some block has it as its truthy `content.text_block.text` |
| DoubaoSse.Readable | DoubaoFreeApi/src/service/doubao_service.py:242-245 | the loop reads every block before the count, and the block at the count, if any, raises |
| DoubaoSse.OnAck | DoubaoFreeApi/src/service/doubao_service.py:224-228 | `SSE_ACK` overwrites the conversation and section ids from `ack_client_meta` and leaves the texts and message id alone |
| DoubaoSse.OnNotify | DoubaoFreeApi/src/service/doubao_service.py:231-245 | `STREAM_MSG_NOTIFY` fills a conversation or section id only when it is still falsy, sets the message id from a dict `meta`, and appends exactly the texts of the readable `content.content_block` items; a `meta` that is not a dict changes nothing |
| DoubaoSse.PatchTexts | DoubaoFreeApi/src/service/doubao_service.py:250-275 | a non-dict operation fails the loop; a non-dict value contributes nothing and passes only when it mentions neither key; a dict value contributes its readable block texts, then a truthy `tts_content` when every block was read |
| DoubaoSse.PatchTextsShift | DoubaoFreeApi/src/service/doubao_service.py:250-275 | what an operation contributes does not depend on the texts collected before it |
| DoubaoSse.PatchesTexts | DoubaoFreeApi/src/service/doubao_service.py:250-275 | the operations append exactly what each contributes on its own, through the first that fails |
| DoubaoSse.OnChunk | DoubaoFreeApi/src/service/doubao_service.py:247-275 | `STREAM_CHUNK` leaves the ids alone and appends exactly what each `patch_op` operation contributes on its own, through the first that fails |
| DoubaoSse.OnFull | DoubaoFreeApi/src/service/doubao_service.py:277-306 | `FULL_MSG_NOTIFY` leaves the ids alone; with `content_block` it appends exactly the readable block texts; otherwise a truthy `content` is handled by the parsing fallback; anything else changes nothing |
| DoubaoSse.ContentTexts | DoubaoFreeApi/src/service/doubao_service.py:289-306 | a `content` string that parses to a list appends its readable block texts, then the string itself if a block could not be read; any other `content` is appended as `str()` gives it |
| DoubaoSse.OnMessage | DoubaoFreeApi/src/service/doubao_service.py:308-322 | `message` and `implicit_message` append a JSON string, or an object's non-empty string `content`, and leave the ids alone |
| DoubaoSse.ProcessFrame | DoubaoFreeApi/src/service/doubao_service.py:198-331 | an event without a type or data, with data that does not parse, or of a type without a handler changes nothing |
| DoubaoSse.Dispatch | DoubaoFreeApi/src/service/doubao_service.py:221-331 | an event type without a handler changes nothing; texts are only appended; only `SSE_ACK` and `STREAM_MSG_NOTIFY` change the ids |
| DoubaoSse.ProcessFrames | DoubaoFreeApi/src/service/doubao_service.py:198-331 | processing a run of events only appends to the collected texts |
| DoubaoSse.Drain | DoubaoFreeApi/src/service/doubao_service.py:198-199 | what stays in the buffer is a suffix of it holding no separator, and the texts only grow |
| DoubaoSse.Feed | DoubaoFreeApi/src/service/doubao_service.py:182-199 | a failure is the guest limit or a gateway failure; on success the texts only grew and, after any chunk, the buffer holds no separator |
| DoubaoSse.ProcessFramesTexts | DoubaoFreeApi/src/service/doubao_service.py:198-331 | a run of events appends, in order, exactly what each event contributes on its own |
| DoubaoSse.FrameTexts | DoubaoFreeApi/src/service/doubao_service.py:221-331 | what an event appends does not depend on the events before it |
| DoubaoSse.ProcessFramesAppend | DoubaoFreeApi/src/service/doubao_service.py:198-331 | processing consecutive runs of events is processing them all in order |
| DoubaoSse.SkipUnparsable | DoubaoFreeApi/src/service/doubao_service.py:221-331 | an event whose data does not parse is skipped and the rest are processed |
| DoubaoSse.ReplyEndContinues | DoubaoFreeApi/src/service/doubao_service.py:324-327 | `SSE_REPLY_END` does not end the stream and changes nothing |
| DoubaoSse.TtsAddedAfterBlocks | DoubaoFreeApi/src/service/doubao_service.py:255-275 | a patch whose dict value has readable blocks and a truthy `tts_content` contributes the block texts, then the speech text |
| DoubaoSse.GatewayMessage | DoubaoFreeApi/src/service/doubao_service.py:189-194 | the intended gateway failure message starts with the gateway prefix |
| DoubaoSse.GatewayMessageReportsCode | DoubaoFreeApi/src/service/doubao_service.py:193-194 | when the error line parses, the intended message reports the vendor's code and message |
| DoubaoSse.GatewayMessageDiscrepancy | DoubaoFreeApi/src/service/doubao_service.py:192-196 | as written, the inner raise is caught by its own handler, so the message is the raw buffer rather than the code and message |
| DoubaoSse.GatewayAsWrittenReportsBuffer | DoubaoFreeApi/src/service/doubao_service.py:189-196 | as written, a gateway failure always carries the prefix and the whole buffer |
| DoubaoSse.GatewayChunkFails | DoubaoFreeApi/src/service/doubao_service.py:182-196 | a first chunk with a gateway error line fails the handler with the failure worded from that chunk's text |
| DoubaoSse.CheckBuffer | DoubaoFreeApi/src/service/doubao_service.py:185-196 | a chunk fails exactly when the buffer holds the tourist-limit marker, or holds both the gateway-error marker and `data: {`; the limit marker wins; a gateway failure is worded from the buffer |
| DoubaoSse.FeedReport | DoubaoFreeApi/src/service/doubao_service.py:182-199 | the wording of the gateway failure changes nothing else: the chunk loop succeeds alike, or fails alike on the guest limit |
| DoubaoSse.HandleSseReport | DoubaoFreeApi/src/service/doubao_service.py:173-335 | the wording of the gateway failure changes nothing else in the handler's outcome |
| DoubaoSse.DrainIsFrames | DoubaoFreeApi/src/service/doubao_service.py:198-199 | draining the buffer processes exactly its complete events and keeps the remainder |
| DoubaoSse.JoinTexts | DoubaoFreeApi/src/service/doubao_service.py:333 | the join succeeds exactly when every collected text is a string |
| DoubaoSse.HandleSse | DoubaoFreeApi/src/service/doubao_service.py:173-335 | a successful reply never carries image URLs; what it does carry is stated by `HandleSseIsFrames` |
| DoubaoSse.FeedIsFrames | DoubaoFreeApi/src/service/doubao_service.py:182-331 | without failure markers, the chunk loop processes exactly the complete events of everything received and keeps the remainder |
| DoubaoSse.NoMarkersInBuffer | DoubaoFreeApi/src/service/doubao_service.py:183-199 | a buffer without markers stays without markers as chunks arrive |
| DoubaoSse.HandleSseIsFrames | DoubaoFreeApi/src/service/doubao_service.py:173-335 | when the text decoded chunk by chunk holds no failure marker, the reply is the joined texts and ids from processing the events of that text |
| DoubaoSse.WholeBody | DoubaoFreeApi/src/service/doubao_service.py:182-183 | chunks cut at character boundaries are handled as the whole body in one chunk would be |
| DoubaoSse.LimitMarkerFails | DoubaoFreeApi/src/service/doubao_service.py:183-187 | the tourist-limit marker in the decoded text of any chunk fails the whole stream as limited |
| DoubaoSse.FeedAppendOne | DoubaoFreeApi/src/service/doubao_service.py:182-199 | feeding one more chunk after a successful run continues from that run's buffer and progress |
| SessionPool.ToDict | DoubaoFreeApi/src/pool/session_pool.py:18-27 | the dictionary has exactly the six session keys |
| SessionPool.FromDict | DoubaoFreeApi/src/pool/session_pool.py:29-31 | a session is built exactly from a mapping whose every field is a session key with a string value; each field reads back from its key |
| SessionPool.FromDictToDict | DoubaoFreeApi/src/pool/session_pool.py:18-31 | a session survives `to_dict` then `from_dict` |
| SessionPool.CreateSession | DoubaoFreeApi/src/pool/session_pool.py:44-66 | the new session is appended to exactly one list, the guest list when `guest` is set; the conversation map is unchanged |
| SessionPool.GetSession | DoubaoFreeApi/src/pool/session_pool.py:68-76 | without a conversation id, a session exists exactly when the chosen list is non-empty and is one of its members; with an id, it is the one bound to that id |
| SessionPool.SetSession | DoubaoFreeApi/src/pool/session_pool.py:78-80 | succeeds exactly for a hashable id; that id is bound to the session; every other binding and both lists are unchanged |
| SessionPool.RemoveFirst | DoubaoFreeApi/src/pool/session_pool.py:85-87 | `list.remove` succeeds exactly when the session is in the list; the first equal element goes and the rest keep their order |
| SessionPool.DelSessionAsWritten | DoubaoFreeApi/src/pool/session_pool.py:82-88 | as written, reading the absent `is_logged` attribute raises for every session |
| SessionPool.DelSession | DoubaoFreeApi/src/pool/session_pool.py:82-88 | as intended: succeeds exactly for a held session, removes one copy of it from the list holding it, and leaves the conversation map alone |
| SessionPool.DelSessionDiscrepancy | DoubaoFreeApi/src/pool/session_pool.py:82-88 | evicting a held authenticated session never succeeds as written, and removes exactly one copy as intended |
| SessionPool.SaveToFile | DoubaoFreeApi/src/pool/session_pool.py:90-98 | the file lists the authenticated sessions, then the guest ones, each as its dictionary |
| SessionPool.LoadEntry | DoubaoFreeApi/src/pool/session_pool.py:109-110 | a file entry loads exactly when it is an object whose every key is a session key and whose values are strings |
| SessionPool.LoadEntryIsFromDict | DoubaoFreeApi/src/pool/session_pool.py:109-110 | an entry that loads gives the session `from_dict` builds |
| SessionPool.LoadFromFile | DoubaoFreeApi/src/pool/session_pool.py:100-114 | a missing or unreadable file changes nothing |
| SessionPool.LoadEntriesPrefix | DoubaoFreeApi/src/pool/session_pool.py:105-114 | the sessions loaded are the valid entries before the first invalid one, appended to the authenticated list |
| SessionPool.LoadKeepsOthers | DoubaoFreeApi/src/pool/session_pool.py:109-110 | loading never touches the guest list or the conversation map, and only appends to the authenticated list |
| SessionPool.LoadEntryToDict | DoubaoFreeApi/src/pool/session_pool.py:18-31 | a saved session is a valid file entry that loads back as itself |
| SessionPool.SaveLoadRoundTrip | DoubaoFreeApi/src/pool/session_pool.py:90-114 | saving a pool and loading the file into an empty pool gives every session back, authenticated first, as authenticated |
| DoubaoChat.ExtractFp | DoubaoFreeApi/src/service/doubao_service.py:33-39 | the fingerprint is empty when no `; `-part of the cookie starts with `s_v_web_id=` |
| DoubaoChat.FpOfCookie | DoubaoFreeApi/src/service/doubao_service.py:33-39 | a cookie opening with `s_v_web_id=v; ...` yields `v` as the fingerprint |
| DoubaoChat.CompletionUrl | DoubaoFreeApi/src/service/doubao_service.py:41-60 | the URL is the completion endpoint with the query parameters, ending with the session's `web_id` |
| DoubaoChat.ConversationField | DoubaoFreeApi/src/service/doubao_service.py:69 | the body continues a conversation unless its id is absent, empty or `"0"`; otherwise it carries that id |
| DoubaoChat.BuildRequest | DoubaoFreeApi/src/service/doubao_service.py:62-153 | the body carries the prompt, the cookie's fingerprint, the conversation and section ids and the deep-think flag in both places; the headers carry the session's cookie, trace id and room referer |
| DoubaoChat.ChooseSession | DoubaoFreeApi/src/service/doubao_service.py:24-28 | the override wins when given; otherwise the pool's session for the conversation or the guest flag |
| DoubaoChat.Complete | DoubaoFreeApi/src/service/doubao_service.py:154-170 | a reply comes only from a 200 response; there is no session error exactly when no session is chosen |
| DoubaoChat.ChatCompletionAsWritten | DoubaoFreeApi/src/service/doubao_service.py:14-170 | as written, both session lists are always unchanged, because the eviction raises before removing anything |
| DoubaoChat.ChatCompletion | DoubaoFreeApi/src/service/doubao_service.py:14-170 | with the intended eviction, a reply leaves both lists unchanged, and only the guest limit changes the pool on failure |
| DoubaoChat.ConversationBound | DoubaoFreeApi/src/service/doubao_service.py:162-165 | a conversation id the service names is bound to the session used, so the next turn of that conversation finds it |
| DoubaoChat.OverrideBypassesPool | DoubaoFreeApi/src/service/doubao_service.py:25-26 | given an override, neither the guest flag, the conversation id nor the draw matters |
| DoubaoChat.NoSessionNoRequest | DoubaoFreeApi/src/service/doubao_service.py:30-31 | without a session nothing is sent and the pool is unchanged |
| DoubaoChat.LimitDiscrepancy | DoubaoFreeApi/src/service/doubao_service.py:166-170 | on the guest limit the source leaves the used session in the pool and reports a generic failure; the intended eviction removes it |
| DoubaoCookie.TrimParts | doubao-free-api-llm/src/api/controllers/chat.ts:103-106 | trimming and dropping empty parts never adds parts |
| DoubaoCookie.KeyValueOfSplit | doubao-free-api-llm/src/api/controllers/chat.ts:108-109 | destructuring `part.split("=")` binds the key to the text before the first `=` and the value to the rest joined back with `=` |
| DoubaoCookie.CookieKeys | doubao-free-api-llm/src/api/controllers/chat.ts:69-78 | every key collected is non-empty |
| DoubaoCookie.CookiePartsWellFormed | doubao-free-api-llm/src/api/controllers/chat.ts:103-106 | every part of a cookie is non-empty, trimmed and free of `;` |
| DoubaoCookie.PartsOfJoin | doubao-free-api-llm/src/api/controllers/chat.ts:103-130 | well-formed parts joined with `"; "` read back as the same parts |
| DoubaoCookie.FindValue | doubao-free-api-llm/src/api/controllers/chat.ts:107-111 | no value exactly when no part has the key |
| DoubaoCookie.GetCookieValue | doubao-free-api-llm/src/api/controllers/chat.ts:101-112 | `null` exactly for an empty cookie or one where no part has the key |
| DoubaoCookie.ReplaceParts | doubao-free-api-llm/src/api/controllers/chat.ts:121-128 | every part with the key becomes `name=value` and every other part is kept, in place |
| DoubaoCookie.SetParts | doubao-free-api-llm/src/api/controllers/chat.ts:114-130 | setting a key always leaves at least one part |
| DoubaoCookie.SetCookieValue | doubao-free-api-llm/src/api/controllers/chat.ts:114-131 | for a plain name and value the cookie reads back as its parts with the key set, replaced in place or appended |
| DoubaoCookie.PatchSessionId | doubao-free-api-llm/src/api/controllers/chat.ts:133-139 | a patched cookie carries the session id under both `sessionid` and `sessionid_ss` |
| DoubaoCookie.EnsureMsToken | doubao-free-api-llm/src/api/controllers/chat.ts:90-94 | the cookie is kept as a prefix, and a non-empty cookie ends up mentioning `msToken=` |
| DoubaoCookie.SetCookieParts | doubao-free-api-llm/src/api/controllers/chat.ts:114-131 | the cookie after `setCookieValue` reads back as its parts with the key set, replaced in place or appended |
| DoubaoCookie.FindSetParts | doubao-free-api-llm/src/api/controllers/chat.ts:114-130 | after setting a key its value is the one set, and every other key reads as before |
| DoubaoCookie.GetSetCookieValue | doubao-free-api-llm/src/api/controllers/chat.ts:101-131 | reading back a value just set gives it; every other key reads as before |
| DoubaoCookie.SetNewKey | doubao-free-api-llm/src/api/controllers/chat.ts:129-130 | setting a key no part has appends the pair as the last part and keeps the others |
| DoubaoCookie.PatchedEmptyIsSessionIdOnly | doubao-free-api-llm/src/api/controllers/chat.ts:80-88 | patching the session id into an empty cookie gives a session-id-only cookie |
| DoubaoCookie.PatchedEmptyParts | doubao-free-api-llm/src/api/controllers/chat.ts:133-139 | patching an empty cookie gives exactly `sessionid=` and `sessionid_ss=` with the id |
| DoubaoCookie.KeysOfTwo | doubao-free-api-llm/src/api/controllers/chat.ts:69-78 | the keys of a two-part cookie are the two parts' trimmed keys |
| DoubaoCookie.PatchSessionIdValues | doubao-free-api-llm/src/api/controllers/chat.ts:133-139 | a patched cookie carries the session id under both `sessionid` and `sessionid_ss`, and every other key reads as before |
| DoubaoCookie.EnsureMsTokenIdempotent | doubao-free-api-llm/src/api/controllers/chat.ts:90-94 | every non-empty cookie ends up mentioning `msToken=`, and a second call changes nothing |
| DoubaoCookie.EnsureMsTokenParts | doubao-free-api-llm/src/api/controllers/chat.ts:90-94 | a cookie without `msToken=` gains it as its own last part |
| DoubaoCookie.EnsureMsTokenKeeps | doubao-free-api-llm/src/api/controllers/chat.ts:90-94 | adding `msToken` changes no other key's value |
| DoubaoCookie.ExtractLeadingSessionId | doubao-free-api-llm/src/api/controllers/chat.ts:64-67 | a cookie opening with `sessionid=` and a plain value yields that value |
| DoubaoCookie.TakeUntil | doubao-free-api-llm/src/api/controllers/chat.ts:64-67 | the longest prefix free of the character: stops exactly at its first occurrence |
| DoubaoCookie.ExtractSessionId | doubao-free-api-llm/src/api/controllers/chat.ts:64-67 | a session id is found exactly when some `sessionid=` is followed by a character other than `;` |
| DoubaoCookie.IsSessionIdOnly | doubao-free-api-llm/src/api/controllers/chat.ts:80-88 | a session-id-only cookie is never empty |
| DoubaoCookie.CookieTemplate | doubao-free-api-llm/src/api/controllers/chat.ts:141-156 | a template is a non-empty cookie that is not session-id-only; there is none only when no configured value is usable |
| DoubaoCookie.FirstTemplate | doubao-free-api-llm/src/api/controllers/chat.ts:151-155 | the first usable configured cookie; none exactly when no configured value is usable |
| DoubaoCookie.ConfiguredCookieWins | doubao-free-api-llm/src/api/controllers/chat.ts:282-291 | a full configured cookie is sent as configured, with `msToken` ensured |
| DoubaoCookie.SessionIdOnlyGrafted | doubao-free-api-llm/src/api/controllers/chat.ts:284-289 | a session-id-only configured cookie has its session id, or the token, grafted onto the template |
| DoubaoCookie.UnconfiguredUsesToken | doubao-free-api-llm/src/api/controllers/chat.ts:295-297 | with nothing configured for the token, the token is patched into the template |
| DoubaoCookie.TemplateCarriesSession | doubao-free-api-llm/src/api/controllers/chat.ts:287 | a template cookie is sent carrying the session id under both keys and mentioning `msToken=` |
| DoubaoCookie.NoTemplate | doubao-free-api-llm/src/api/controllers/chat.ts:141-156 | when no configured value makes a usable template there is none |
| DoubaoCookie.SynthesisedLast | doubao-free-api-llm/src/api/controllers/chat.ts:295-297 | with nothing configured and no template, the cookie is synthesised from the token |
| DoubaoCookie.GenerateCookie | doubao-free-api-llm/src/api/controllers/chat.ts:279-298 | a full configured cookie is sent starting with itself and mentioning `msToken=`; with nothing configured and a template, the template carries the token under both session keys and mentions `msToken=` |
| DoubaoLegacy.CheckResult | doubao-free-api-llm/src/api/controllers/chat.ts:922-928 | every failure carries the request-failed prefix |
| DoubaoLegacy.CheckEnvelope | doubao-free-api-llm/src/api/controllers/chat.ts:922-928 | for a `{code, msg, data}` envelope, code 0 gives back the data and any other code fails with the message |
| DoubaoLegacy.CheckUnwrapped | doubao-free-api-llm/src/api/controllers/chat.ts:922-928 | a truthy body without a numeric `code` passes through unchanged |
| DoubaoLegacy.Or | doubao-free-api-llm/src/api/controllers/chat.ts:940-951 | the JS or-operator: a truthy left side, else the right side |
| DoubaoLegacy.CardReference | doubao-free-api-llm/src/api/controllers/chat.ts:938-952 | a card gives a reference exactly when it is an object with a truthy url; the text fields default to empty strings |
| DoubaoLegacy.Insert | doubao-free-api-llm/src/api/controllers/chat.ts:953-956 | a reference is appended only when no stored one has a `===` url; well-formed, url-distinct lists stay so |
| DoubaoLegacy.Merge | doubao-free-api-llm/src/api/controllers/chat.ts:1121-1126 | merging an event's references only appends and keeps the list url-distinct |
| DoubaoLegacy.MergeCovers | doubao-free-api-llm/src/api/controllers/chat.ts:1121-1126 | nothing found is lost: each reference of the event is in the merge, or one with its url already is |
| DoubaoLegacy.AddCard | doubao-free-api-llm/src/api/controllers/chat.ts:938-957 | after a throw nothing changes; otherwise the card's reference is appended exactly when it is new by url |
| DoubaoLegacy.AddCards | doubao-free-api-llm/src/api/controllers/chat.ts:963-965 | the cards of the items are added in order, only appending |
| DoubaoLegacy.FromSearchResult | doubao-free-api-llm/src/api/controllers/chat.ts:958-975 | the cards of a search result's `results` array are added, only appending |
| DoubaoLegacy.FromBlocks | doubao-free-api-llm/src/api/controllers/chat.ts:984-989 | content blocks of type 10025 contribute their search results, only appending |
| DoubaoLegacy.FromPatchOps | doubao-free-api-llm/src/api/controllers/chat.ts:976-991 | patch operations of type 1 contribute their blocks' search results, only appending |
| DoubaoLegacy.FromMessageContent | doubao-free-api-llm/src/api/controllers/chat.ts:992-1015 | the message content's search references and results are added, only appending; a parse failure keeps what was found |
| DoubaoLegacy.ExtractReferences | doubao-free-api-llm/src/api/controllers/chat.ts:935-1030 | the references of one event are well formed and url-distinct |
| DoubaoLegacy.ContentText | doubao-free-api-llm/src/api/controllers/chat.ts:1154-1167 | text that is added is never empty |
| DoubaoLegacy.StripNewlineOnce | doubao-free-api-llm/src/api/controllers/chat.ts:1091 | exactly one trailing newline is removed, and text without one is kept |
| DoubaoLegacy.Finish | doubao-free-api-llm/src/api/controllers/chat.ts:1086-1094 | the answer keeps the conversation id and references; its content loses at most one trailing newline |
| DoubaoLegacy.StartEvent | doubao-free-api-llm/src/api/controllers/chat.ts:1079-1085 | event 2002 changes neither the content nor the references |
| DoubaoLegacy.ErrorEvent | doubao-free-api-llm/src/api/controllers/chat.ts:1096-1112 | event 2005 without a truthy `code` changes nothing |
| DoubaoLegacy.ReceivedText | doubao-free-api-llm/src/api/controllers/chat.ts:1154-1179 | text added by a 2001 message is never empty |
| DoubaoLegacy.MessageEvent | doubao-free-api-llm/src/api/controllers/chat.ts:1117-1179 | a 2001 message keeps the reference invariant; without a truthy `is_finish` it appends exactly the text its message contributes and merges its references; with one it resolves with the answer after merging the references |
| DoubaoLegacy.ReceiveStep | doubao-free-api-llm/src/api/controllers/chat.ts:1066-1183 | one event keeps the reference invariant and only extends the content |
| DoubaoLegacy.Run | doubao-free-api-llm/src/api/controllers/chat.ts:1065-1184 | the events in order keep the reference invariant and only extend the content |
| DoubaoLegacy.ReceiveStream | doubao-free-api-llm/src/api/controllers/chat.ts:1047-1189 | the stream always settles, resolved or rejected, with well-formed url-distinct references; what text it resolves with is stated by `ReceiveStreamText` and `ReceiveStreamClosed` |
| DoubaoLegacy.PlainMessage | doubao-free-api-llm/src/api/controllers/chat.ts:1113-1146 | a plain message event is a non-`null`, non-finishing 2001 message |
| DoubaoLegacy.RunPlain | doubao-free-api-llm/src/api/controllers/chat.ts:1065-1184 | a run of plain message events stays pending and appends exactly the texts of those messages, in order |
| DoubaoLegacy.ReceiveStreamText | doubao-free-api-llm/src/api/controllers/chat.ts:1047-1189 | plain message events followed by event 2003 resolve with the concatenation of their texts, less one trailing newline |
| DoubaoLegacy.ReceiveStreamClosed | doubao-free-api-llm/src/api/controllers/chat.ts:1047-1189 | plain message events followed by the end of the stream resolve with the concatenation of their texts |
| DoubaoLegacy.RunAppend | doubao-free-api-llm/src/api/controllers/chat.ts:1065-1187 | running two stretches of events is running them one after the other, until the promise settles |
| DoubaoLegacy.SettledIgnoresRest | doubao-free-api-llm/src/api/controllers/chat.ts:1067 | once settled, the promise ignores every later event and how the stream ends |
| DoubaoLegacy.CodeRejects | doubao-free-api-llm/src/api/controllers/chat.ts:1074-1078 | an event carrying a truthy `code` rejects with that code and message |
| DoubaoLegacy.EndEventFinishes | doubao-free-api-llm/src/api/controllers/chat.ts:1086-1094 | event 2003, as a number or as its decimal string (loose `==`), resolves with the answer |
| DoubaoLegacy.MessageEventDispatch | doubao-free-api-llm/src/api/controllers/chat.ts:1113-1120 | an event of type 2001 without a truthy `code` is handled by the message step on its parsed data |
| Json.JsStringToNumber | doubao-free-api-llm/src/api/controllers/chat.ts:1079-1096 | `Number()` of a string is that of its whitespace-trimmed text; a run of decimal digits is its value |
| Json.TrimmedToNumber | doubao-free-api-llm/src/api/controllers/chat.ts:1079-1096 | decimal digits give their value, a `0x`/`0o`/`0b` prefix reads the rest in that base, and a sign before anything but digits is NaN |
| Json.NumberOfDecimal | doubao-free-api-llm/src/api/controllers/chat.ts:1079-1096 | a natural number's decimal string converts back to that number, so `"2001" == 2001` holds |
| Json.RadixValue | doubao-free-api-llm/src/api/controllers/chat.ts:1079-1096 | a string has a value in a base exactly when every character is a digit of that base |
| DoubaoLegacy.NonTextMessageKeepsContent | doubao-free-api-llm/src/api/controllers/chat.ts:1150-1153 | a message whose content type is not 10000, 2001 or 2008 adds no text |
| DoubaoLegacy.SafeEnd | doubao-free-api-llm/src/api/controllers/chat.ts:1205-1209 | `[DONE]` is written once and only once, and the output keeps its shape |
| DoubaoLegacy.EndWithError | doubao-free-api-llm/src/api/controllers/chat.ts:1210-1249 | an error chunk, a stop chunk with the references, then `[DONE]`; the output keeps its shape and the id |
| DoubaoLegacy.Complete | doubao-free-api-llm/src/api/controllers/chat.ts:1290-1311 | a stop chunk with the references, then `[DONE]`; the end callback gets the id exactly when it is truthy |
| DoubaoLegacy.TransStart | doubao-free-api-llm/src/api/controllers/chat.ts:1283-1289 | event 2002 takes the conversation id only while none is set |
| DoubaoLegacy.TransError | doubao-free-api-llm/src/api/controllers/chat.ts:1313-1325 | event 2005 with a truthy `code` ends the stream with an error; the output keeps its shape |
| DoubaoLegacy.StreamedText | doubao-free-api-llm/src/api/controllers/chat.ts:1381-1416 | streamed text is never empty; string content that does not parse is used as the text |
| DoubaoLegacy.TransMessage | doubao-free-api-llm/src/api/controllers/chat.ts:1330-1432 | a 2001 message keeps the output's shape and the first truthy conversation id; without a truthy `is_finish` it writes exactly the content chunk of its streamed text, if any; with one it writes the stop chunk with the references and `[DONE]` |
| DoubaoLegacy.TransStep | doubao-free-api-llm/src/api/controllers/chat.ts:1266-1437 | one event keeps the output's shape and the first truthy id; after the end nothing changes |
| DoubaoLegacy.TransSkipsStringEnd | doubao-free-api-llm/src/api/controllers/chat.ts:1290-1329 | the end event spelled as the string `"2003"` is not `=== 2003` and is loosely unequal to 2001, so the transcoder skips it |
| DoubaoLegacy.TransCodeEnds | doubao-free-api-llm/src/api/controllers/chat.ts:1279-1282 | an event with a truthy `code` ends an open stream with an error chunk naming code and message |
| DoubaoLegacy.TransRun | doubao-free-api-llm/src/api/controllers/chat.ts:1266-1437 | the events keep the output's shape and the first truthy id; an ended output does not change |
| DoubaoLegacy.TransStream | doubao-free-api-llm/src/api/controllers/chat.ts:1199-1442 | the output is always ended and shaped; a finished id handed to the callback is truthy; which text chunks are written is stated by `TransStreamText` and `TransStreamEndText` |
| DoubaoLegacy.StreamedAdded | doubao-free-api-llm/src/api/controllers/chat.ts:1381-1416 | a message streams at most one text |
| DoubaoLegacy.TransRunPlain | doubao-free-api-llm/src/api/controllers/chat.ts:1266-1437 | plain message events keep an open output open and add exactly their streamed texts, in order, as content chunks |
| DoubaoLegacy.TransRunPlainChunks | doubao-free-api-llm/src/api/controllers/chat.ts:1330-1432 | once the conversation id is truthy, plain message events write exactly one content chunk per streamed text, in order, with that id |
| DoubaoLegacy.TransStreamText | doubao-free-api-llm/src/api/controllers/chat.ts:1199-1442 | for plain message events, the client receives exactly their streamed texts, in order, then `[DONE]` |
| DoubaoLegacy.TransStreamEndText | doubao-free-api-llm/src/api/controllers/chat.ts:1199-1442 | plain message events followed by event 2003 give exactly their streamed texts, then the stop chunk with the references and `[DONE]` |
| DoubaoLegacy.TransStreamFraming | doubao-free-api-llm/src/api/controllers/chat.ts:1199-1442 | the client receives the role chunk first and `[DONE]` last, and `[DONE]` nowhere else |
| DoubaoLegacy.EndedIgnoresRest | doubao-free-api-llm/src/api/controllers/chat.ts:1268 | once the output has ended, later events write nothing more |
| DoubaoLegacy.IdSticks | doubao-free-api-llm/src/api/controllers/chat.ts:1283-1333 | the first truthy conversation id stays for the rest of the stream |
| DoubaoLegacy.TokenSplit | doubao-free-api-llm/src/api/controllers/chat.ts:1449-1451 | the tokens, joined back with `,`, are the header with the first `Bearer ` removed, and none contains a comma |
| DoubaoLegacy.TokenSplitBearer | doubao-free-api-llm/src/api/controllers/chat.ts:1449-1451 | a `Bearer` header listing comma-free tokens gives back those tokens |
| DeepSeekChat.TextItems | DeepSeek-Free-API-master/src/api/controllers/chat.ts:481-485 | reading the items fails exactly when one is `null`; there are never more texts than items |
| DeepSeekChat.ContentText | DeepSeek-Free-API-master/src/api/controllers/chat.ts:480-489 | non-array content is its `String(...)` rendering |
| DeepSeekChat.MessageBlock | DeepSeek-Free-API-master/src/api/controllers/chat.ts:479-491 | a `null` message throws |
| DeepSeekChat.MessageBlocks | DeepSeek-Free-API-master/src/api/controllers/chat.ts:479-491 | one block per message |
| DeepSeekChat.MergeFrom | DeepSeek-Free-API-master/src/api/controllers/chat.ts:496-508 | the merged blocks start with the current block's role, never have two neighbours with the same role, and are no more than the messages |
| DeepSeekChat.MergeRuns | DeepSeek-Free-API-master/src/api/controllers/chat.ts:493-508 | the merged blocks alternate in role and are empty only for no messages |
| DeepSeekChat.MergeAlternating | DeepSeek-Free-API-master/src/api/controllers/chat.ts:499-507 | blocks that already alternate are left as they are |
| DeepSeekChat.MergeOneRole | DeepSeek-Free-API-master/src/api/controllers/chat.ts:501-502 | a run of messages of one role becomes one block holding their texts joined by a blank line |
| DeepSeekChat.MessagesPrepare | DeepSeek-Free-API-master/src/api/controllers/chat.ts:477-525 | no messages give the empty prompt; the prompt fails exactly when reading a message fails |
| DeepSeekChat.Dialogue | DeepSeek-Free-API-master/src/api/controllers/chat.ts:511-523 | in the usual dialogue shape the opening user turn is bare, the assistant turn is wrapped and a later user turn is tagged |
| DeepSeekChat.CheckResult | DeepSeek-Free-API-master/src/api/controllers/chat.ts:533-540 | every failure carries the request-failed prefix; the cache loses at most the failing token, and only on a failure |
| DeepSeekChat.CheckEvicts | DeepSeek-Free-API-master/src/api/controllers/chat.ts:538 | code 40003 evicts exactly the token that failed; other non-zero codes keep the cache |
| DeepSeekChat.AcquireToken | DeepSeek-Free-API-master/src/api/controllers/chat.ts:133-144 | at most two token requests; none exactly when a cached entry has not expired, and then the cached token is returned unchanged |
| DeepSeekChat.AcquireKeepsOthers | DeepSeek-Free-API-master/src/api/controllers/chat.ts:133-144 | only the entry of the refresh token in use ever changes |
| DeepSeekChat.NextPath | DeepSeek-Free-API-master/src/api/controllers/chat.ts:564-568 | the path changes only on a chunk whose `p` names the thinking or the content path |
| DeepSeekChat.NextMessageId | DeepSeek-Free-API-master/src/api/controllers/chat.ts:559-561 | the first truthy message id is kept |
| DeepSeekChat.Accumulate | DeepSeek-Free-API-master/src/api/controllers/chat.ts:552-581 | an event that does not parse, or parses to `null`, changes nothing; the path becomes the one the chunk's `p` selects; a string `v` is appended exactly to the content on the content path and to the thinking on the thinking path, the other text unchanged; anything else leaves both texts alone; a truthy id sticks |
| DeepSeekChat.AccumulateAll | DeepSeek-Free-API-master/src/api/controllers/chat.ts:552-581 | the events only extend both texts and keep the first truthy id; what the texts are is stated by `AccumulatedPieces` |
| DeepSeekChat.EventChunk | DeepSeek-Free-API-master/src/api/controllers/chat.ts:552-560 | a chunk that is read is never `null` |
| DeepSeekChat.AccumulatedPieces | DeepSeek-Free-API-master/src/api/controllers/chat.ts:552-581 | each text is its start followed by the string `v` values of the events seen on its path, in order |
| DeepSeekChat.StartPieces | DeepSeek-Free-API-master/src/api/controllers/chat.ts:552-581 | from the start, the content is exactly the `v` values on the content path and the thinking exactly those on the thinking path |
| DeepSeekChat.PathlessKeepsText | DeepSeek-Free-API-master/src/api/controllers/chat.ts:549-577 | until a chunk names a path nothing is accumulated, and once one has, a path stays set |
| DeepSeekChat.AccumulateAppend | DeepSeek-Free-API-master/src/api/controllers/chat.ts:552-583 | accumulating two stretches of events is accumulating one after the other |
| DeepSeekChat.ReceiveStream | DeepSeek-Free-API-master/src/api/controllers/chat.ts:542-607 | an answer exists exactly when the stream closes; its content and reasoning are the trimmed accumulated texts |
| DeepSeekChat.NoPathNoText | DeepSeek-Free-API-master/src/api/controllers/chat.ts:570-577 | a stream that never names a path answers with empty content and reasoning |
| DeepSeekChat.DigitRun | DeepSeek-Free-API-master/src/api/controllers/chat.ts:695-696 | the digit run is the longest prefix of ASCII digits |
| DeepSeekChat.CitationAt | DeepSeek-Free-API-master/src/api/controllers/chat.ts:695-696 | a `[citation:N]` marker found at the start has a digit and a closing bracket within the text |
| DeepSeekChat.RewriteCitations | DeepSeek-Free-API-master/src/api/controllers/chat.ts:695-696 | rewriting the markers never lengthens the text |
| DeepSeekChat.RewriteLeavesPlainText | DeepSeek-Free-API-master/src/api/controllers/chat.ts:694-696 | text without a `[` is never rewritten |
| DeepSeekChat.RewriteMarker | DeepSeek-Free-API-master/src/api/controllers/chat.ts:694-696 | a marker is replaced by its number in brackets, or dropped for a search-silent model |
| DeepSeekChat.CiteIndexPath | DeepSeek-Free-API-master/src/api/controllers/chat.ts:675-677 | a BATCH path names an index only when it ends with `/cite_index` |
| DeepSeekChat.ApplyBatch | DeepSeek-Free-API-master/src/api/controllers/chat.ts:673-683 | a BATCH that succeeds keeps the number of results |
| DeepSeekChat.BatchOnlyCites | DeepSeek-Free-API-master/src/api/controllers/chat.ts:673-683 | a BATCH never adds, removes or reorders results and changes nothing but `cite_index` |
| DeepSeekChat.CitedEntries | DeepSeek-Free-API-master/src/api/controllers/chat.ts:643-645 | listing the cited entries fails exactly when a result is `null` |
| DeepSeekChat.CitedEntriesSorted | DeepSeek-Free-API-master/src/api/controllers/chat.ts:643-645 | the listed entries are exactly the cited ones, sorted by ascending `cite_index` |
| DeepSeekChat.CitationLines | DeepSeek-Free-API-master/src/api/controllers/chat.ts:646 | one line per cited entry |
| DeepSeekChat.CitationsNonEmpty | DeepSeek-Free-API-master/src/api/controllers/chat.ts:647-651 | the citation block is written exactly when some entry is cited |
| DeepSeekChat.ModelFlags | DeepSeek-Free-API-master/src/api/controllers/chat.ts:620-623 | thinking, silent, fold and search-silent are decided by the substrings of the model name, fold only for non-thinking models |
| DeepSeekChat.SearchSilentFolds | DeepSeek-Free-API-master/src/api/controllers/chat.ts:620-623 | a search-silent model is silent, and folds unless it is also a thinking model |
| DeepSeekChat.Write | DeepSeek-Free-API-master/src/api/controllers/chat.ts:721 | a write after the end is dropped; otherwise the chunk is appended and nothing else changes |
| DeepSeekChat.EndStream | DeepSeek-Free-API-master/src/api/controllers/chat.ts:654 | `[DONE]` is appended unless the output has already ended, and the output is then ended |
| DeepSeekChat.Close | DeepSeek-Free-API-master/src/api/controllers/chat.ts:638-657 | the close event ends the output; an ended output gets nothing more |
| DeepSeekChat.CloseCitations | DeepSeek-Free-API-master/src/api/controllers/chat.ts:642-654 | the citation step ends the output; an ended output gets nothing more |
| DeepSeekChat.TextDelta | DeepSeek-Free-API-master/src/api/controllers/chat.ts:687-722 | a text spends the role chunk and never ends the output; an ended output gets nothing more |
| DeepSeekChat.SearchOrText | DeepSeek-Free-API-master/src/api/controllers/chat.ts:666-722 | search results and text never write to an ended output |
| DeepSeekChat.TxEvent | DeepSeek-Free-API-master/src/api/controllers/chat.ts:634-727 | an event never writes to an ended output |
| DeepSeekChat.TransStream | DeepSeek-Free-API-master/src/api/controllers/chat.ts:618-742 | the output ends with a single `[DONE]`, the role goes only with the first delta, and a folding or silent model never sends reasoning content |
| DeepSeekChat.RunFramed | DeepSeek-Free-API-master/src/api/controllers/chat.ts:634-739 | every run of events keeps the output's framing invariant |
| DeepSeekChat.TxRunAppend | DeepSeek-Free-API-master/src/api/controllers/chat.ts:634-739 | transcoding two stretches of events is transcoding one after the other |
| DeepSeekChat.EndedIsFinal | DeepSeek-Free-API-master/src/api/controllers/chat.ts:725-738 | once ended, the output is final |
| DeepSeekChat.NullChunkEnds | DeepSeek-Free-API-master/src/api/controllers/chat.ts:723-726 | a `null` chunk throws in the handler, whose catch ends the output with `[DONE]` |
| DeepSeekChat.PlainClose | DeepSeek-Free-API-master/src/api/controllers/chat.ts:638-657 | without search results or an open folded block, closing writes just the stop chunk and `[DONE]` |
| DeepSeekChat.SilentThinkingSpendsRole | DeepSeek-Free-API-master/src/api/controllers/chat.ts:689-699 | a silent model's first text on the thinking path spends the role without writing anything |
| DeepSeekChat.ContentDelta | DeepSeek-Free-API-master/src/api/controllers/chat.ts:710-721 | text on the content path of a non-folding model is written as content |
| DeepSeekChat.BadBatchEnds | DeepSeek-Free-API-master/src/api/controllers/chat.ts:673-683 | a BATCH update that throws ends the output with `[DONE]` and no stop chunk |
| AdapterCommon.PrependFirstUser | DeepSeek-Free-API-master/src/api/controllers/claude-adapter.ts:32-55 | reference placement of a system prompt: same number of messages, the first user message gets the system text, a blank line and its content, every other message is unchanged |
| AdapterCommon.JsAt | DeepSeek-Free-API-master/src/api/controllers/claude-adapter.ts:92 | indexing throws exactly on `null`/`undefined`; an array gives its element, or `undefined` past its end; an object gives its `"0"` property; a number or boolean gives `undefined` |
| AdapterCommon.ReadReply | DeepSeek-Free-API-master/src/api/controllers/claude-adapter.ts:92-93 | reading `choices[0].message.content` of a `null` completion throws |
| AdapterCommon.ReadReplyFields | DeepSeek-Free-API-master/src/api/controllers/claude-adapter.ts:92-93 | for any completion whose first choice is an object with an object `message`, the reply is that message's `content` and `reasoning_content`, the choice's `finish_reason` and the completion's `usage` |
| AdapterCommon.FullContent | DeepSeek-Free-API-master/src/api/controllers/claude-adapter.ts:93-98 | without truthy reasoning the text is the content itself; with it the text is a string |
| AdapterCommon.FullContentJoins | DeepSeek-Free-API-master/src/api/controllers/claude-adapter.ts:96-98 | with both as text: reasoning, a blank line, then the answer; empty reasoning leaves the answer alone |
| AdapterCommon.UsageCount | DeepSeek-Free-API-master/src/api/controllers/claude-adapter.ts:114-115 | a usage count is the upstream value when truthy and 0 otherwise; truthiness is preserved |
| AdapterCommon.Lines | DeepSeek-Free-API-master/src/api/controllers/claude-adapter.ts:132-133 | no buffers give no lines |
| AdapterCommon.LinesAppend | DeepSeek-Free-API-master/src/api/controllers/claude-adapter.ts:132-135 | splitting buffers one at a time distributes over concatenating the buffer lists |
| AdapterCommon.LineChoice | DeepSeek-Free-API-master/src/api/controllers/claude-adapter.ts:136-142 | a choice is only taken from a `data: ` line and is always truthy |
| AdapterCommon.DeltaParts | DeepSeek-Free-API-master/src/api/controllers/claude-adapter.ts:143-171 | reading the delta fails exactly when the delta is missing or `null` |
| ClaudeAdapter.ItemsText | DeepSeek-Free-API-master/src/api/controllers/claude-adapter.ts:21-26 | joining text items fails exactly when an item is `null` |
| ClaudeAdapter.SystemText | DeepSeek-Free-API-master/src/api/controllers/claude-adapter.ts:19-30 | a falsy system prompt gives none; a string is itself, with the empty string counting as none |
| ClaudeAdapter.MessageContent | DeepSeek-Free-API-master/src/api/controllers/claude-adapter.ts:37-49 | `null` or missing content becomes ""; content that is neither `null` nor an array passes through unchanged |
| ClaudeAdapter.ConvertLoop | DeepSeek-Free-API-master/src/api/controllers/claude-adapter.ts:33-81 | no more converted messages than input messages |
| ClaudeAdapter.ConvertClaudeToDeepSeek | DeepSeek-Free-API-master/src/api/controllers/claude-adapter.ts:15-84 | without a system prompt the conversion is the plain loop |
| ClaudeAdapter.KeepsChatMessages | DeepSeek-Free-API-master/src/api/controllers/claude-adapter.ts:35-81 | without a system prompt exactly the user and assistant messages are kept, in order, each with its role and converted content |
| ClaudeAdapter.PrependedIsPlain | DeepSeek-Free-API-master/src/api/controllers/claude-adapter.ts:52-55 | once the system text has been placed, or when there is none, the loop is the plain conversion |
| ClaudeAdapter.SystemOnFirstUser | DeepSeek-Free-API-master/src/api/controllers/claude-adapter.ts:32-55 | with system text, the conversion is the plain conversion with the text placed on the first user message only, as the reference placement says |
| ClaudeAdapter.ConvertDeepSeekToClaude | DeepSeek-Free-API-master/src/api/controllers/claude-adapter.ts:91-118 | succeeds exactly when the completion can be read; text is reasoning plus answer; `end_turn` exactly for a `stop` finish, else `max_tokens`; missing token counts are 0; the id is the response's id when truthy and the uuid otherwise |
| ClaudeAdapter.Emit | DeepSeek-Free-API-master/src/api/controllers/claude-adapter.ts:207 | after the output has ended nothing more is written |
| ClaudeAdapter.ClaudeChoice | DeepSeek-Free-API-master/src/api/controllers/claude-adapter.ts:142-208 | after any choice the opening events have been written; an ended stream stays unchanged; the stream ends exactly when it had ended or the choice carries a finish reason |
| ClaudeAdapter.ClaudeStream | DeepSeek-Free-API-master/src/api/controllers/claude-adapter.ts:125-229 | the output is nothing, or `message_start` and `content_block_start` once, then deltas, then possibly the three closing events; which texts the deltas carry is stated by `StreamAddsTexts` |
| ClaudeAdapter.ChoiceDeltas | DeepSeek-Free-API-master/src/api/controllers/claude-adapter.ts:171-207 | after the opening events, the choice ends the stream exactly when it carries a finish reason, and an ended stream is unchanged |
| ClaudeAdapter.EmitTruthy | DeepSeek-Free-API-master/src/api/controllers/claude-adapter.ts:171-188 | a truthy text is written as one `content_block_delta`; a falsy one, or an ended stream, writes nothing |
| ClaudeAdapter.ChoiceAddsItsTexts | DeepSeek-Free-API-master/src/api/controllers/claude-adapter.ts:142-208 | on an open stream a choice adds exactly the deltas of its truthy content, then of its truthy reasoning |
| ClaudeAdapter.LinesAddTheirTexts | DeepSeek-Free-API-master/src/api/controllers/claude-adapter.ts:135-214 | lines add exactly the delta texts of their choices, in order, up to the first finishing choice; an ended stream adds nothing |
| ClaudeAdapter.StreamAddsTexts | DeepSeek-Free-API-master/src/api/controllers/claude-adapter.ts:125-229 | the deltas of the whole stream are exactly the truthy texts of the choices of its lines, in order, up to the first finishing choice |
| ClaudeAdapter.ShapedIsClaudeShaped | DeepSeek-Free-API-master/src/api/controllers/claude-adapter.ts:142-208 | the invariant kept between lines implies the stream shape |
| ClaudeAdapter.EmitDeltas | DeepSeek-Free-API-master/src/api/controllers/claude-adapter.ts:171-188 | adding deltas to an open stream keeps its shape |
| ClaudeAdapter.EmitTail | DeepSeek-Free-API-master/src/api/controllers/claude-adapter.ts:191-207 | the closing events end a well-shaped stream |
| ClaudeAdapter.ChoiceShaped | DeepSeek-Free-API-master/src/api/controllers/claude-adapter.ts:142-208 | each choice keeps the stream shape |
| ClaudeAdapter.LinesShaped | DeepSeek-Free-API-master/src/api/controllers/claude-adapter.ts:135-214 | any sequence of lines keeps the stream shape |
| ClaudeAdapter.EndedIsFinal | DeepSeek-Free-API-master/src/api/controllers/claude-adapter.ts:207 | after the closing events, later lines write nothing |
| ClaudeAdapter.SingleFinishingChoice | DeepSeek-Free-API-master/src/api/controllers/claude-adapter.ts:146-207 | a finishing first chunk with text gives the opening pair, one delta and the three closing events |
| GeminiAdapter.PartTexts | DeepSeek-Free-API-master/src/api/controllers/gemini-adapter.ts:24-26 | reading the parts fails exactly when one is `null`; only truthy texts are kept |
| GeminiAdapter.PartsText | DeepSeek-Free-API-master/src/api/controllers/gemini-adapter.ts:24-27 | joining the parts' texts fails exactly when a part is `null` |
| GeminiAdapter.SystemText | DeepSeek-Free-API-master/src/api/controllers/gemini-adapter.ts:19-29 | a falsy instruction gives ""; a string instruction is itself |
| GeminiAdapter.RoleOf | DeepSeek-Free-API-master/src/api/controllers/gemini-adapter.ts:34 | the role is `assistant` exactly when the entry's role is `model`, and `user` otherwise |
| GeminiAdapter.EntryText | DeepSeek-Free-API-master/src/api/controllers/gemini-adapter.ts:37-43 | an entry without array `parts` has the empty text |
| GeminiAdapter.ConvertLoop | DeepSeek-Free-API-master/src/api/controllers/gemini-adapter.ts:33-55 | every entry is kept, in order, one converted message per entry with the mapped role |
| GeminiAdapter.ConvertGeminiToDeepSeek | DeepSeek-Free-API-master/src/api/controllers/gemini-adapter.ts:15-58 | without a truthy instruction the conversion is the plain loop |
| GeminiAdapter.PrependedIsPlain | DeepSeek-Free-API-master/src/api/controllers/gemini-adapter.ts:46-49 | once the system text has been placed, or when it is empty, the loop is the plain conversion |
| GeminiAdapter.SystemOnFirstUser | DeepSeek-Free-API-master/src/api/controllers/gemini-adapter.ts:31-49 | with system text, the conversion is the plain conversion with the text placed on the first user-mapped entry only |
| GeminiAdapter.ConvertDeepSeekToGemini | DeepSeek-Free-API-master/src/api/controllers/gemini-adapter.ts:65-96 | succeeds exactly when the completion can be read; text is reasoning plus answer; `STOP` exactly for finish reason `stop`, `MAX_TOKENS` otherwise; without usage all three counts are 0 |
| GeminiAdapter.Emit | DeepSeek-Free-API-master/src/api/controllers/gemini-adapter.ts:192 | after the output has ended nothing more is written |
| GeminiAdapter.GeminiChoice | DeepSeek-Free-API-master/src/api/controllers/gemini-adapter.ts:118-193 | an ended stream is left unchanged |
| GeminiAdapter.GeminiStream | DeepSeek-Free-API-master/src/api/controllers/gemini-adapter.ts:103-214 | the output is text chunks with truthy text, then possibly one stop chunk, last |
| GeminiAdapter.ChoiceShaped | DeepSeek-Free-API-master/src/api/controllers/gemini-adapter.ts:118-193 | each choice keeps the stream shape |
| GeminiAdapter.LinesShaped | DeepSeek-Free-API-master/src/api/controllers/gemini-adapter.ts:111-199 | any sequence of lines keeps the stream shape |
| GeminiAdapter.TextsAppend | DeepSeek-Free-API-master/src/api/controllers/gemini-adapter.ts:141-164 | the texts of concatenated chunk lists are the concatenated texts |
| GeminiAdapter.ChoiceAddsItsTexts | DeepSeek-Free-API-master/src/api/controllers/gemini-adapter.ts:121-165 | on an open stream a choice adds exactly its truthy content and then its truthy reasoning as texts |
| YuanbaoChat.GetModelInfo | yuanbao-free-api-main/src/utils/chat.py:11-12 | a model is found exactly when its lower-cased name is a key of the table, and the entry is that key's value |
| YuanbaoChat.LowerIdempotent | yuanbao-free-api-main/src/utils/chat.py:12 | lower-casing twice is lower-casing once |
| YuanbaoChat.ModelInfoIgnoresCase | yuanbao-free-api-main/src/utils/chat.py:11-12 | a name and its lower-case form find the same entry |
| YuanbaoChat.RoleLines | yuanbao-free-api-main/src/utils/chat.py:22 | one `role: content` line per message, in order |
| YuanbaoChat.ContentLines | yuanbao-free-api-main/src/utils/chat.py:24 | one bare-content line per message, in order |
| YuanbaoChat.ParseMessages | yuanbao-free-api-main/src/utils/chat.py:15-25 | with any user message the prompt is the contents joined by newlines; without one each line names its role; no messages give the empty prompt |
| YuanbaoChat.PromptLines | yuanbao-free-api-main/src/utils/chat.py:15-25 | single-line contents are read back from the prompt one per line |
| YuanbaoChat.DocLine | yuanbao-free-api-main/src/utils/chat.py:71-74 | a reference line fails exactly when the document is not a dict |
| YuanbaoChat.DocLines | yuanbao-free-api-main/src/utils/chat.py:71-74 | one line per document, numbered from 1; failing exactly when some document is not a dict |
| YuanbaoChat.ReferenceBlock | yuanbao-free-api-main/src/utils/chat.py:70-75 | a reference block starts with the `引用来源` heading |
| YuanbaoChat.ChunkContent | yuanbao-free-api-main/src/utils/chat.py:58-108 | a `text` chunk's content is its `msg` (default ""); chunks of other types than text, searchGuid and reference contribute nothing |
| YuanbaoChat.ReferenceFallsBackToMsg | yuanbao-free-api-main/src/utils/chat.py:78-108 | a reference chunk with no truthy references and a non-empty `msg` not opening with `{` shows that `msg` under the `参考资料` heading |
| YuanbaoChat.SearchGuidShowsReferences | yuanbao-free-api-main/src/utils/chat.py:67-75 | a searchGuid chunk with documents shows the reference block |
| YuanbaoChat.LineStep | yuanbao-free-api-main/src/utils/chat.py:42-121 | lines not starting `data: ` are skipped; the stop happens exactly on `data: [DONE]`; a line without a parsable object neither emits nor changes the reason; otherwise the object decides, and emitted content is exactly the object's chunk content, truthy |
| YuanbaoChat.LineObject | yuanbao-free-api-main/src/utils/chat.py:42-54 | a line with an object is `data: ` followed by text that starts with `{` |
| YuanbaoChat.ObjectStep | yuanbao-free-api-main/src/utils/chat.py:55-121 | a failing chunk fails the stream; otherwise content is emitted exactly when the chunk type is shown and the content truthy, and a new finish reason exactly for a `meta` chunk with a truthy `stopReason` |
| YuanbaoChat.Process | yuanbao-free-api-main/src/utils/chat.py:42-124 | content chunks carry text and no finish reason; `[DONE]`, if yielded, is last, right after the one chunk with a finish reason; the texts are stated by `ProcessContents` |
| YuanbaoChat.ProcessResponseStream | yuanbao-free-api-main/src/utils/chat.py:28-124 | the yielded stream has the shape above, with finish reason starting as `stop`; its texts are stated by `StreamContents` |
| YuanbaoChat.ProcessContents | yuanbao-free-api-main/src/utils/chat.py:42-124 | the content chunks yielded are exactly the truthy chunk contents of the lines before `[DONE]`, in order |
| YuanbaoChat.StreamContents | yuanbao-free-api-main/src/utils/chat.py:28-124 | the whole stream's content chunks are exactly the truthy chunk contents of the lines before `[DONE]`, in order |
| YuanbaoChat.ShapedCons | yuanbao-free-api-main/src/utils/chat.py:120-121 | emitting a content chunk in front keeps the stream shape |
| YuanbaoChat.FinishFromMeta | yuanbao-free-api-main/src/utils/chat.py:43-118 | after a meta line with a truthy stopReason and any lines that neither stop nor carry a new reason, `[DONE]` ends the output with an empty chunk carrying that reason, then the marker |
| YuanbaoChat.DoneCarriesFinish | yuanbao-free-api-main/src/utils/chat.py:43-50 | after lines that neither stop nor carry a new reason, `[DONE]` ends the output with an empty chunk carrying the reason already held, then the marker |
| YuanbaoChat.DoneStops | yuanbao-free-api-main/src/utils/chat.py:47-50 | after skipped lines, `[DONE]` ends the stream with the final chunk and the marker; later lines are never read |
| YuanbaoChat.NoDoneNoMarker | yuanbao-free-api-main/src/utils/chat.py:42-124 | without a `[DONE]` line no marker is yielded |
| YuanbaoChat.DefaultsInDocLine | yuanbao-free-api-main/src/utils/chat.py:72-74 | a document without title or url is shown as `未知来源` linking to `#` |
| YuanbaoHeaders.Get | yuanbao-free-api-main/src/utils/common.py:6-8 | a present key gives its value, an absent one the default |
| YuanbaoHeaders.GenerateHeaders | yuanbao-free-api-main/src/utils/common.py:4-16 | five distinct headers in order: the cookie built from source, user and token; the fixed origin; the referer ending in the agent id; the agent id itself; the fixed user agent |
| YuanbaoHeaders.CookieEndsWithToken | yuanbao-free-api-main/src/utils/common.py:11 | the cookie ends with `; hy_token=` and the token |
| YuanbaoHeaders.DefaultHeaders | yuanbao-free-api-main/src/utils/common.py:6-14 | a request without the fields uses source `web`, an empty user and agent `na` |
| YuanbaoHeaders.AgentInReferer | yuanbao-free-api-main/src/utils/common.py:13-14 | a string agent id is the `X-Agentid` header and the referer's last path segment |
| BaiduCookies.StripKeeps | BaiDu-AI-main/app.py:65 | stripping whitespace keeps every non-space character, so an item holding `=` still holds it after `strip()` |
| BaiduCookies.CutAtEquals | BaiDu-AI-main/app.py:65 | cutting at the first `=` gives a name without `=` and a value that rebuild the text |
| BaiduCookies.CookieItem | BaiDu-AI-main/app.py:64-65 | an item yields a pair exactly when it holds `=`; the pair rebuilds the stripped item |
| BaiduCookies.PutString | BaiDu-AI-main/app.py:66 | setting a string value keeps the keys unique and all values strings |
| BaiduCookies.ParseItems | BaiDu-AI-main/app.py:62-67 | the parsed dict has unique keys and string values |
| BaiduCookies.ParseCookieString | BaiDu-AI-main/app.py:61-67 | the parsed dict has unique keys |
| BaiduCookies.LastValueWins | BaiDu-AI-main/app.py:63-66 | a name maps to the value of the last item carrying it, and an absent name is absent |
| BaiduCookies.CookieLookup | BaiDu-AI-main/app.py:61-67 | looking a name up in a parsed cookie string gives the last value written for it |
| BaiduCookies.LoadCookies | BaiDu-AI-main/app.py:69-90 | a non-empty environment value wins (JSON, else cookie string); with neither source the cookies are empty; a file not starting with `{` is parsed as a cookie string after stripping |
| BaiduCookies.EnvShadowsFile | BaiDu-AI-main/app.py:71-77 | when the environment variable is set the file does not matter |
| BaiduCookies.SplitAtStart | BaiDu-AI-main/app.py:181 | a header starting with `Bearer ` splits into at least two parts, the second being the rest up to the next `Bearer ` |
| BaiduCookies.BearerTokenIsRest | BaiDu-AI-main/app.py:181 | with a single `Bearer ` the token is the stripped rest of the header |
| BaiduCookies.CookiesFor | BaiDu-AI-main/app.py:177-190 | without a Bearer header the server's cookies are used |
| BaiduCookies.CookieStringOverrides | BaiDu-AI-main/app.py:187-188 | a Bearer value that is a cookie string replaces the server's cookies with its parse |
| BaiduCookies.Authorize | BaiDu-AI-main/app.py:192-219 | 500 exactly when the cookies are empty; cookies other than the server's are fetched for this request alone, giving their token or 401, and never change the server state; the server's cookies with a cached token reuse it; without a cached token they are fetched, the token and lid are stored, and the answer is that token or 401 |
| BaiduCookies.CustomIgnoresCache | BaiDu-AI-main/app.py:204-211 | cookies other than the server's get the same answer whatever token and lid the server has cached |
| BaiduCookies.RefreshIsCached | BaiDu-AI-main/app.py:213-219 | after a successful refresh the next request with the server's cookies gets the same answer without fetching |
| BaiduChat.QueryFrom | BaiDu-AI-main/app.py:222-226 | when no message before the end is a user message the query is the default `你好` |
| BaiduChat.Query | BaiDu-AI-main/app.py:222-226 | without any user message the query is `你好` |
| BaiduChat.QueryIsLastUser | BaiDu-AI-main/app.py:223-226 | the query is the content of the last user message, whatever precedes it |
| BaiduChat.GetTk | BaiDu-AI-main/app.py:154-160 | the token ends with `-`, the lid and `-3` |
| BaiduChat.TkRoundTrip | BaiDu-AI-main/app.py:154-160 | for a lid without `-` the token splits into the base64 head, the lid and `3`, and the head decodes to `token`, the query's md5, the milliseconds and the lid joined by vertical bars |
| BaiduChat.RandInt | BaiDu-AI-main/app.py:163-166 | a draw lies within the inclusive bounds |
| BaiduChat.RandIntCovers | BaiDu-AI-main/app.py:163-166 | every value within the bounds is drawn by some draw |
| BaiduChat.GetAntiExt | BaiDu-AI-main/app.py:162-172 | `inputT` lies between 990 and 1020 per query character plus 300; `ck1`, `ck9` and `ck10` lie in [79, 246], [281, 1025] and [847, 926] |
| BaiduChat.Generator | BaiDu-AI-main/app.py:362-371 | the generator read from a line is a dict |
| BaiduChat.JoinStrings | BaiDu-AI-main/app.py:377 | joining fails exactly when an item is not a string |
| BaiduChat.BlockText | BaiDu-AI-main/app.py:373-383 | `thinkingSteps` shows the joined `reasoningContentArr` followed by a newline, nothing when the join is empty or raises; `markdown-yiyan` shows its `value` exactly when that value is truthy; any other component shows nothing |
| BaiduChat.LineEffect | BaiDu-AI-main/app.py:345-405 | lines not starting with `data:` do nothing; a `data:` line whose stripped payload parses to an object with a generator and an object `data` carries that data's `referenceList`, stops exactly when its `status` is `finished`, and otherwise contributes the block text of the generator; every other `data:` line does nothing |
| BaiduChat.Scan | BaiDu-AI-main/app.py:345-405 | with a reader that only yields truthy text, every collected text is truthy |
| BaiduChat.LineReader | BaiDu-AI-main/app.py:345-405 | the line reader is the per-line effect and yields only truthy text |
| BaiduChat.ReferenceLine | BaiDu-AI-main/app.py:410-414 | a reference line fails exactly when the entry is not a dict; otherwise it starts with its number, `. [` and ends with a newline |
| BaiduChat.ReferenceLineDefaults | BaiDu-AI-main/app.py:410-414 | an entry with none of the fields is shown as `[未知标题](#)` with an empty source |
| BaiduChat.ReferenceLineAuthor | BaiDu-AI-main/app.py:410-414 | an entry whose `source` is missing or falsy shows its `author_name` after the title and link |
| BaiduChat.ReferenceLines | BaiDu-AI-main/app.py:410-414 | the reference lines fail exactly when some entry is not a dict |
| BaiduChat.ReferenceLinesSnoc | BaiDu-AI-main/app.py:410-414 | one more entry adds its line, numbered one past the entries before it, after their lines; a failure of either part is the block's failure |
| BaiduChat.ReferenceText | BaiDu-AI-main/app.py:408-414 | the reference block is the `引用来源` heading followed by the reference lines of the list; for a list it fails exactly when an entry is not a dict |
| BaiduChat.TextChunks | BaiDu-AI-main/app.py:385-401 | one content chunk per text, in order |
| BaiduChat.GenerateStream | BaiDu-AI-main/app.py:331-439 | a failed request yields one error chunk; otherwise the role chunk, one content chunk per text read, in order, then the close computed from the last references and whether the read broke before a `finished` status |
| BaiduChat.Ending | BaiDu-AI-main/app.py:407-440 | a read broken before a `finished` status closes with the network error alone; otherwise falsy references give the stop chunk and `[DONE]`, and truthy ones give their reference block as a content chunk, then the stop chunk and `[DONE]`, or the error raised while building the block |
| BaiduChat.BodyShaped | BaiDu-AI-main/app.py:331-439 | the role chunk, the truthy content chunks and any such close together have the stream's shape |
| BaiduChat.FinishedStops | BaiDu-AI-main/app.py:368-369 | a `finished` line ends the read; nothing after it is looked at |
| BaiduChat.NoRefsKeep | BaiDu-AI-main/app.py:365-366 | lines without `referenceList` leave the collected references alone |
| BaiduChat.LastReferencesWin | BaiDu-AI-main/app.py:365-366 | the references shown are those of the last line before the stop that carried a `referenceList` |
| BaiduChat.ReferencesShownLast | BaiDu-AI-main/app.py:345-435 | a stream that ends without breaking closes with the reference block of the last `referenceList` read, then the stop chunk and `[DONE]` |
| Base64.Utf8 | BaiDu-AI-main/app.py:159 | UTF-8 takes one to four bytes per character, and ASCII text is its own bytes |
| Base64.Utf8Append | BaiDu-AI-main/app.py:159 | UTF-8 encoding distributes over concatenation |
| Base64.Encode | BaiDu-AI-main/app.py:159 | the encoding is a multiple of four characters, all from the Base64 alphabet |
| Base64.EncodeLength | BaiDu-AI-main/app.py:159 | every started group of three bytes gives four characters |
| Base64.DecodeEncode | BaiDu-AI-main/app.py:159 | decoding undoes encoding |
| Base64.Decode | BaiDu-AI-main/app.py:159 | the inverse of the encoding: one to three octets per group of four characters, exactly three when no character is padding |
| Base64.NoDash | BaiDu-AI-main/app.py:159 | encoded text never holds `-`, so it can precede a `-` separator |
| BaiduUpload.Escape | BaiDu-AI-main/baiduAIv2.py:280 | a percent escape is `%` and two hex digits whose value is the octet |
| BaiduUpload.QuoteOctets | BaiDu-AI-main/baiduAIv2.py:280 | every character of the output is safe or `%` |
| BaiduUpload.Quote | BaiDu-AI-main/baiduAIv2.py:277-285 | every character of quoted text is safe for the chosen `safe` setting or `%` |
| BaiduUpload.UnquoteQuoteOctets | BaiDu-AI-main/baiduAIv2.py:280 | percent-decoding undoes the encoding, octet for octet |
| BaiduUpload.QuoteRoundTrip | BaiDu-AI-main/baiduAIv2.py:277-285 | percent-decoding quoted text gives back the UTF-8 encoding of the original, so quoting loses nothing |
| BaiduUpload.QuoteKeepsSafe | BaiDu-AI-main/baiduAIv2.py:277-285 | text made only of safe characters is left as it is |
| BaiduUpload.QuotedHasNoDelimiters | BaiDu-AI-main/baiduAIv2.py:280-288 | quoted text holds no `&`, `=`, `:` or newline, the characters that structure the canonical request |
| BaiduUpload.GenerateNanoid | BaiDu-AI-main/baiduAIv2.py:252-259 | one character per random octet: the alphabet's character at the octet modulo 63 |
| BaiduUpload.AlphabetIsNanoChars | BaiDu-AI-main/baiduAIv2.py:254 | the alphabet has 63 characters: upper-case letters, lower-case letters, digits, then `_` |
| BaiduUpload.NanoCharInjective | BaiDu-AI-main/baiduAIv2.py:254 | the alphabet's 63 characters are distinct |
| BaiduUpload.NanoidDeterminesResidues | BaiDu-AI-main/baiduAIv2.py:252-259 | two nanoids agree exactly when their random octets agree modulo 63 |
| BaiduUpload.NanoidIsSafe | BaiDu-AI-main/baiduAIv2.py:254 | a nanoid is made only of characters quoting leaves alone |
| BaiduUpload.FileToken | BaiDu-AI-main/baiduAIv2.py:260-262 | the token is longer than the six-character nanoid |
| BaiduUpload.FileTokenParts | BaiDu-AI-main/baiduAIv2.py:260-262 | the token splits back into the decimal millisecond timestamp and the nanoid, and quoting leaves it unchanged |
| BaiduUpload.QueryPair | BaiDu-AI-main/baiduAIv2.py:280 | a query pair holds no `&` or newline |
| BaiduUpload.QueryPairs | BaiDu-AI-main/baiduAIv2.py:279-280 | one quoted pair per parameter, in dict order |
| BaiduUpload.CanonicalQuery | BaiDu-AI-main/baiduAIv2.py:278-282 | the canonical query holds no newline |
| BaiduUpload.HeaderLine | BaiDu-AI-main/baiduAIv2.py:285 | a canonical header line holds no newline |
| BaiduUpload.HeaderLines | BaiDu-AI-main/baiduAIv2.py:284-285 | one canonical line per header, in dict order |
| BaiduUpload.GenerateAuthorizationHeaders | BaiDu-AI-main/baiduAIv2.py:264-300 | ten headers: the four signed ones, then `Authorization` whose value is the `bce-auth-v1` prefix, the signed-header list and the HMAC of the canonical request under the key derived from the secret key and the prefix, then the five fixed headers |
| BaiduUpload.LowerNames | BaiDu-AI-main/baiduAIv2.py:285 | one lower-cased name per header |
| BaiduUpload.SignedNamesSorted | BaiDu-AI-main/baiduAIv2.py:275 | the fixed signed-header list is in sorted order |
| BaiduUpload.SignedNamesJoin | BaiDu-AI-main/baiduAIv2.py:275 | the fixed signed-header list splits at `;` into the four names |
| BaiduUpload.SignedHeaderNames | BaiDu-AI-main/baiduAIv2.py:268-275 | the fixed list names exactly the four signed headers, lower-cased, each once, sorted |
| BaiduUpload.CanonicalRequest | BaiDu-AI-main/baiduAIv2.py:288 | a method without a newline and a non-empty header dict give a request that splits at newlines into the upper-cased method, the quoted URI, the query and then each sorted header line |
| BaiduUpload.CanonicalHeaders | BaiDu-AI-main/baiduAIv2.py:283-287 | a non-empty header dict gives text that splits at newlines into exactly the sorted canonical header lines |
| BaiduUpload.Authorization | BaiDu-AI-main/baiduAIv2.py:276-291 | when the access key, the date and the signature hold no `/`, the value splits at `/` into the version, the access key, the date, the timeout, the signed-header list and the HMAC of the canonical request under the derived key |
| BaiduUpload.AuthorizationSplits | BaiDu-AI-main/baiduAIv2.py:276-291 | the six `/`-free fields of the authorization string are read back from it |
| BaiduUpload.CanonicalQueryParts | BaiDu-AI-main/baiduAIv2.py:278-282 | the query splits at `&` into the sorted pairs, and each pair at `=` into the quoted key and value |
| BaiduUpload.ParamOrderIrrelevant | BaiDu-AI-main/baiduAIv2.py:278-291 | parameters in another dict order give the same query and the same Authorization value |
| BaiduUpload.Chunks | BaiDu-AI-main/baiduAIv2.py:308-315 | the chunks concatenate to the file, none is empty, and all but the last are exactly 1 MiB |
| BaiduUpload.ChunkFile | BaiDu-AI-main/baiduAIv2.py:302-315 | a file is refused exactly when it is over 10 MiB; otherwise it is cut into the chunks |
| BaiduUpload.ChunkCount | BaiDu-AI-main/baiduAIv2.py:308-315 | `n` MiB of data give at most `n` chunks |
| BaiduUpload.AcceptedFileParts | BaiDu-AI-main/baiduAIv2.py:303-315 | an accepted file is uploaded in at most ten parts |
| BaiduUpload.CompletionParts | BaiDu-AI-main/baiduAIv2.py:382-391 | one part per etag, numbered from 1, with the matching chunk's size and etag |
| BaiduUpload.FlattenedSize | BaiDu-AI-main/baiduAIv2.py:386 | part sizes that match the chunks add up to the concatenated length |
| BaiduUpload.PartsCoverFile | BaiDu-AI-main/baiduAIv2.py:382-391 | with one etag per chunk, the declared part sizes add up to the file size |
| Sorting.Insert | BaiDu-AI-main/baiduAIv2.py:281 | inserting adds exactly the one element |
| Sorting.SortBy | BaiDu-AI-main/baiduAIv2.py:281 | the sort is a permutation of its input |
| Sorting.InsertSorted | BaiDu-AI-main/baiduAIv2.py:281 | inserting into a sorted list keeps it sorted |
| Sorting.SortBySorted | BaiDu-AI-main/baiduAIv2.py:281 | the result is sorted and a permutation of the input |
| Sorting.SortKeepsProperty | BaiDu-AI-main/baiduAIv2.py:286 | what holds of every element before sorting holds after |
| Sorting.SortedUnique | BaiDu-AI-main/baiduAIv2.py:281 | two sorted permutations of one another are equal under an antisymmetric order |
| Sorting.StrLeOrder | BaiDu-AI-main/baiduAIv2.py:281 | Python's string order is a total preorder and antisymmetric |
| Sorting.InsertStable | BaiDu-AI-main/baiduAIv2.py:281 | inserting keeps the order of the elements that sort equal to any given one, the new element going after them |
| Sorting.SortByStable | BaiDu-AI-main/baiduAIv2.py:281 | the sort is stable: elements that sort equal keep their input order |
| Sora.ItemText | SoraNewApi/app.py:284-286 | a non-dict element adds nothing; adding an element fails exactly when it is a `text` element whose `text` is present and not a string |
| Sora.ItemUrls | SoraNewApi/app.py:287-295 | an element adds at most one URL, and only an `image_url` element does |
| Sora.CollectSpec | SoraNewApi/app.py:283-295 | the loop over a list content fails exactly when some element cannot be added to the prompt; otherwise it appends all texts and all image URLs, in order |
| Sora.ContentParts | SoraNewApi/app.py:278-295 | a string content is the prompt; content that is neither string nor list yields nothing |
| Sora.LastUserFound | SoraNewApi/app.py:276-296 | the backwards walk reaches the last user message past any run of non-user messages |
| Sora.NoUserNone | SoraNewApi/app.py:276-296 | without user messages the walk reports none |
| Sora.Fallback | SoraNewApi/app.py:298-303 | a prompt or image from the last user message is kept; otherwise a string content of the first message becomes the prompt |
| Sora.Extract | SoraNewApi/app.py:271-303 | messages that are not iterable raise a type error; a non-empty dict or string raises an attribute error |
| Sora.LastUserString | SoraNewApi/app.py:276-296 | only the last user message is read: its non-empty string content is the prompt, with no images |
| Sora.StopsAtLastUser | SoraNewApi/app.py:276-303 | the walk stops at the last user message even when it yields nothing, and then the first message's text is used |
| Sora.LastUserList | SoraNewApi/app.py:281-296 | a list content gives the concatenated texts and every image URL |
| Sora.SoraPayload | SoraNewApi/app.py:313-321 | the payload has the model only when it names Sora (else `sora-2`), the prompt, ratio 16:9, duration 15, and `image_urls` exactly when there are images |
| Sora.Completion | SoraNewApi/app.py:337-357 | the reply id is `chatcmpl-` and the task id; token counts are the prompt and answer lengths, and the total is their sum |
| Sora.TaskId | SoraNewApi/app.py:331 | the task id is the reply's `id`, or `unknown_id` without one |
| Sora.Answered | SoraNewApi/app.py:327-362 | an upstream status error keeps its code with a `SORA Error:` detail; any other failure is 502; a reply is sent exactly when the upstream answered with a dict |
| Sora.Dispatch | SoraNewApi/app.py:305-362 | no prompt and no image give 400 |
| Sora.FakeChatCompletions | SoraNewApi/app.py:264-362 | a non-JSON body gives 400; a non-dict body raises; otherwise extraction errors are raised and the request is dispatched |
| Sora.NoPromptIsBadRequest | SoraNewApi/app.py:305-306 | 400 with the no-prompt detail exactly when nothing was extracted, and then the upstream is never called |
| Sora.SuccessfulTask | SoraNewApi/app.py:309-357 | a successful request answers with the completion naming the created task |
| Sora.TaskMessageNamesTask | SoraNewApi/app.py:337 | the answer text starts with the task-created phrase and the task id |
| QwenRoute.Uniq | Qwen-Free-API-master/src/api/routes/chat.ts:55 | the deduplicated list has exactly the input's values, each once, and is no longer |
| QwenRoute.UniqOfDistinct | Qwen-Free-API-master/src/api/routes/chat.ts:55 | values already distinct are kept as they are |
| QwenRoute.UniqIdempotent | Qwen-Free-API-master/src/api/routes/chat.ts:55 | deduplicating twice is deduplicating once |
| QwenRoute.UniqPrefix | Qwen-Free-API-master/src/api/routes/chat.ts:55 | later values never reorder earlier ones: deduplicating a prefix gives a prefix of the deduplicated whole |
| QwenRoute.Sample | Qwen-Free-API-master/src/api/routes/chat.ts:19 | a sampled token exists exactly when there are tokens, and is one of them |
| QwenRoute.Validate | Qwen-Free-API-master/src/api/routes/chat.ts:12-15 | validation passes exactly when `conversation_id` is absent or a string, `messages` is an array and the authorization header is present |
| QwenRoute.FoundUrls | Qwen-Free-API-master/src/api/routes/chat.ts:44-46 | an answer whose content is not a string yields no URLs |
| QwenRoute.References | Qwen-Free-API-master/src/api/routes/chat.ts:44-55 | the references are distinct and are exactly the normalized found URLs |
| QwenRoute.ToJson | Qwen-Free-API-master/src/api/routes/chat.ts:55 | the references become a JSON array of the same strings in order |
| QwenRoute.WithReferences | Qwen-Free-API-master/src/api/routes/chat.ts:55 | `references` is set to the list and every other key of the result is unchanged |
| QwenRoute.Completions | Qwen-Free-API-master/src/api/routes/chat.ts:11-59 | the request is rejected exactly when validation fails; a streamed request uses the sampled token |
| QwenRoute.PlainCompletion | Qwen-Free-API-master/src/api/routes/chat.ts:17-40 | without `include_references` the completion comes back untouched, and the token is one of the header's tokens, none only when there are none |
| QwenRoute.ReferencedCompletion | Qwen-Free-API-master/src/api/routes/chat.ts:41-57 | with `include_references` the reply is the completion plus a distinct `references` list covering every URL found, and nothing else changes |
| QwenRoute.NonStringNoReferences | Qwen-Free-API-master/src/api/routes/chat.ts:44-46 | an answer whose content is not a string has no references |
| GlmModels.AnyId | GLM-Free-API-master/src/api/routes/models.ts:51 | true exactly when some listed model has the id |
| GlmModels.ValidIffListed | GLM-Free-API-master/src/api/routes/models.ts:4-33 | a model id is valid exactly when it is one of the four ids `glm-4.6`, `glm-4.5`, `glm-4.5-x` and `glm-4.5-air` |
| GlmModels.DisplayNameInvalid | GLM-Free-API-master/src/api/routes/models.ts:50-52 | the comparison is on the exact id, so display names such as `GLM-4.6` are rejected |
| GlmModels.DefaultIsValid | GLM-Free-API-master/src/api/routes/models.ts:55 | the default model passes the check |
| GlmModels.ModelJson | GLM-Free-API-master/src/api/routes/models.ts:5-11 | a model is shown as a five-field object whose first field is its id |
| GlmModels.ListModels | GLM-Free-API-master/src/api/routes/models.ts:40-44 | the reply is `{data: ...}` listing every supported model, in order |
| GlmModels.ListedIdsValid | GLM-Free-API-master/src/api/routes/models.ts:40-52 | an id is accepted exactly when the model list shows it |
| DoubaoModels.AsDictList | DoubaoFreeApi/src/model/request.py:7 | a value reads as `list[dict]` exactly when it is an array of objects |
| DoubaoModels.Required | DoubaoFreeApi/src/model/request.py:5-6 | a required field validates exactly when it is present and of its type |
| DoubaoModels.Defaulted | DoubaoFreeApi/src/model/request.py:7-11 | an absent defaulted field takes its default |
| DoubaoModels.Nullable | DoubaoFreeApi/src/model/request.py:8-9 | an absent or `null` optional field is `None` |
| DoubaoModels.Failed | DoubaoFreeApi/src/model/request.py:4-11 | a field is reported exactly when it failed to validate |
| DoubaoModels.ReadCompletionRequest | DoubaoFreeApi/src/model/request.py:4-11 | absent `attachments`, ids and switches take `[]`, `None` and `False`; `prompt` and `guest` fail exactly when missing or of the wrong JSON type |
| DoubaoModels.BuildCompletionRequest | DoubaoFreeApi/src/model/request.py:4-11 | a failure names at least one field, and names `prompt` or `guest` when that field failed |
| DoubaoModels.ParseCompletionRequest | DoubaoFreeApi/src/model/request.py:4-11 | a valid request carries the given `prompt` string and `guest` boolean, and `[]`, `None` or `False` for each absent optional field; a missing or mistyped `prompt` or `guest` is rejected naming it |
| DoubaoModels.CompletionRequestDefaults | DoubaoFreeApi/src/model/request.py:4-11 | a request giving only `prompt` and `guest` gets the declared defaults for every other field |
| DoubaoModels.CompletionRequestNeedsPromptAndGuest | DoubaoFreeApi/src/model/request.py:5-6 | a request without `prompt` or without `guest` is rejected, naming the missing field |
| DoubaoModels.ExtraKeysIgnored | DoubaoFreeApi/src/model/request.py:4-11 | an undeclared key does not change the validation result |
| DoubaoModels.DumpCompletionRequest | DoubaoFreeApi/src/model/request.py:4-11 | the dump has the seven declared fields |
| DoubaoModels.DumpKeys | DoubaoFreeApi/src/model/request.py:4-11 | the dump holds each declared field once, in declaration order |
| DoubaoModels.CompletionRequestRoundTrip | DoubaoFreeApi/src/model/request.py:4-11 | validating a dumped request gives back the same request |
| DoubaoModels.ParseAttachment | DoubaoFreeApi/src/model/request.py:14-23 | validation succeeds exactly when the six required fields have their types and the three optional ones are absent, `null` or of their types; absent optional fields are `None` |
| DoubaoModels.ParseUpload | DoubaoFreeApi/src/model/request.py:26-29 | validation succeeds exactly when all three fields have their types, and keeps the file type and name as given |
| DoubaoModels.AsStrList | DoubaoFreeApi/src/model/response.py:8 | a value reads as `list[str]` only when it is an array of exactly those strings |
| DoubaoModels.ParseCompletionResponse | DoubaoFreeApi/src/model/response.py:6-11 | validation succeeds exactly when all five fields have their types; a missing `messageg_id` is always reported |
| DoubaoModels.ConventionalSpellingRejected | DoubaoFreeApi/src/model/response.py:10 | a response spelling the field `message_id` is rejected |
| DoubaoModels.NewImageResponse | DoubaoFreeApi/src/model/response.py:26-33 | an image response is of type `vlm_image` with review and parse state 3, the class-wide identifier and the given key, name and option |
| DoubaoModels.NewFileResponse | DoubaoFreeApi/src/model/response.py:36-44 | a file response is of type `file` with review state 1, parse state 3, the class-wide identifier and the given key and name |
| DoubaoModels.SharedIdentifier | DoubaoFreeApi/src/model/response.py:33 | every image response carries the same identifier |
| DoubaoModels.ImageAndFileDiffer | DoubaoFreeApi/src/model/response.py:26-44 | an image and a file response for the same key and name differ in their file information |
| DoubaoModels.ParseDelete | DoubaoFreeApi/src/model/response.py:47-49 | validation succeeds exactly when `ok` is a boolean and `msg` a string |

## Left out

- Network I/O is not modelled. That covers every HTTP call, the upstream probe and `/api/monitor`, the Yuanbao QR login, the Kimi Connect client, the Sora client, DeepSeek telemetry, and version and IP fetching. Each upstream reply is an input: a status and a sequence of chunks.
- File persistence is not modelled: reading and writing `config.json`, `session.json` and the cookie files. `SessionPool.SaveToFile` and `SessionPool.LoadFromFile` produce and consume the JSON document the file would hold.
- Crypto, hashing, randomness and time are parameters with no properties assumed. That covers MD5, SHA-256, HMAC, the DeepSeek proof-of-work, uuids, `random.choice`, `_.sample`, the clock, and the hash-derived device and web ids. Base64 in `BaiDu-AI-main/app.py` is modelled, because the `tk` token depends on it.
- JSON parsing, regular expressions and URL parsing are parameters, treated as partial functions. JSON numbers are integers: floating-point values are not modelled.
- Concurrency and timing are modelled as folds over a finite sequence of lines or events. Left out: retry loops with `setTimeout`, the version updater, promise coalescing for token requests, Node stream wiring, and async generators.
- A vendor line split across two network buffers is not modelled: every stream is a sequence of whole lines. The Doubao new-protocol frame buffer is the exception, and is modelled.
- DoubaoSse: each 1024-byte chunk is decoded on its own, as in the source, but UTF-8 decoding with replacement characters is the `decode` parameter. `DoubaoSse.WholeBody` states that splitting does not matter only for chunks whose separate decodings join to the decoding of the whole; a character cut in two by a chunk boundary is left to `decode`.
- Json.JsStringToNumber: only the integer forms of `Number()` are modelled. A string with a fraction, an exponent or `Infinity` gives NaN here, because JSON numbers are integers in this model.
- Json.PyEq: dicts are compared as parsed JSON objects, whose keys are distinct. A field list with a repeated key is not modelled.
- Upload byte shuffling is not modelled: Doubao `upload_file`, Baidu `upload_img`, and the legacy Doubao `uploadFile`/`checkFileUrl`. Only Baidu's chunking and its multipart part list are kept.
- UI pages, the decompiled `BaiDu-AI-main/key_js.js`, the command-line scripts, and the route glue that flattens errors to status 500 are not modelled.
- Yuanbao: the content of `MODEL_MAPPING` (in `src/const.py`, which is not part of this model) is a parameter.
- Gateway: a configuration whose top level is not an object is not modelled. The other endpoints (images, videos, monitor, login) are not modelled.
- Case mapping in the gateway and in Yuanbao: `lower()` and `upper()` map ASCII letters only. The full Unicode case tables are not modelled.
- `SessionPool` is an immutable value, and each pool operation returns the new pool. The source mutates one object in place.
- `fetch_guest_session` and the other Doubao service endpoints are network calls and are not modelled.
- `DoubaoChat.ExtractFp` states only what the `fp` field is made of. The partner lemma `DoubaoChat.FpOfCookie` ties it to a concrete cookie.
- DoubaoCookie: a session configuration field that is not a string is not modelled. The configuration is a record of strings.
- DoubaoModels: pydantic's lax coercion of one scalar type into another is not modelled; a wrong type is a validation failure. Bytes fields are strings. The uuid drawn when the class is defined is the `classId` parameter. A validation error is the list of failing field names, not pydantic's error objects.
- DeepSeekChat has four gaps:
  - a `BATCH` op that targets an array entry sets a JavaScript property, which JSON never shows, so the array is left unchanged;
  - a citation index that is `NaN` as a sort key is not modelled;
  - an `undefined` op value is treated like a missing one;
  - the `endCallback` hook is not modelled.
- Claude and Gemini adapters:
  - the content and reasoning buffers that the stream converters fill but never read are not modelled;
  - `createClaudeCompletion` and `createGeminiCompletion` are not modelled: the model mapping always yields `deepseek`, and the rest is the controller's network calls.
- Yuanbao: the schema validation of `ChoiceDelta` is not modelled. The `status` variable that is never read is dropped.
- Baidu:
  - the chat request body and the quoting of the `X-Chat-Message` header are not modelled;
  - the non-streamed path drains the same generator and is not modelled separately;
  - a token or `lid` that is not a string is not modelled;
  - `quote` is modelled for string parameters only.
- Baidu copies: `parse_cookie_string` and `get_tk` in `BaiDu-AI-main/baiduAIv2.py` behave identically to the ones in `BaiDu-AI-main/app.py`. `BaiduCookies.ParseCookieString` and `BaiduChat.GetTk` model both copies.
- Sora:
  - `get_sora_client` runs outside the handler's `try` and is not modelled;
  - the text of exception messages is a parameter;
  - the other Sora endpoints are not modelled.
- Qwen: `tokenSplit`, the URL regex, the URL parser and the streamed reply are parameters of the route.

## Findings

| source | as written | input that shows it | evidently intended | confidence | as-written member | corrected member |
|---|---|---|---|---|---|---|
| DoubaoFreeApi/src/pool/session_pool.py:82-88 | `del_session` reads `session.is_logged`, which a session does not have, so it raises `AttributeError` before anything is removed or saved | any session held in the authenticated list | remove the session from the list that holds it, or report that it is unknown | not executed | SessionPool.DelSessionDiscrepancy | SessionPool.DelSession |
| DoubaoFreeApi/src/service/doubao_service.py:189-196 | the exception raised for a gateway error is caught by the handler around it, which raises again carrying the whole buffer, so the code and message are never reported | buffer `event: gateway-error` then `data: {}`, whose data parses to code 7 and message `busy` | a failure that reports the gateway's code and message | not executed | DoubaoSse.GatewayMessageDiscrepancy | DoubaoSse.GatewayMessage |
| DoubaoFreeApi/src/service/doubao_service.py:166-170 | on the guest limit, the eviction raises `AttributeError`, so the session stays in the pool and the caller sees a generic failure instead of the guest-limit error | a guest session whose reply carries the limit marker | evict the session and report the guest limit | not executed | DoubaoChat.LimitDiscrepancy | DoubaoChat.ChatCompletion |
