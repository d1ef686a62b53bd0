/** The DeepSeek controller: the prompt built from an OpenAI-style message
    list, the `{code, msg, data}` check with its token eviction, the cached
    access token, and the two consumers of the upstream event stream (the
    non-streaming accumulator and the streaming transcoder with its
    citation handling). `JSON.parse` is the parameter `parse`; the removal
    of markdown images is the parameter `removeImages`; fetching a token is
    the parameter `request`. */
module DeepSeekChat {
  import opened Wrappers
  import opened Text
  import opened Json
  import opened Sorting
  import Seqs

  type Parser = string -> Option<Json>

  // ---------------------------------------------------------------------------
  // messagesPrepare

  /** A message reduced to its role (any JSON value, compared with `===`)
      and its text. */
  datatype Block = Block(role: Option<Json>, text: string)

  const AssistantOpen: string := "<｜Assistant｜>"
  const AssistantClose: string := "<｜end of sentence｜>"
  const UserOpen: string := "<｜User｜>"
  const TurnSeparator: string := "\n\n"

  /** The `text` of the items of array content whose `type` is `"text"`;
      reading `type` of a `null` item throws. */
  function TextItems(items: seq<Json>): (r: Result<seq<Option<Json>>, Exn>)
    ensures r.Ok? ==> |r.value| <= |items|
    ensures r.Err? <==> exists k :: 0 <= k < |items| && items[k] == JNull
  {
    if |items| == 0 then Ok([])
    else if items[0] == JNull then Err(TypeError)
    else
      match TextItems(items[1..])
      case Err(e) =>
        assert forall k :: 0 <= k < |items| - 1 ==> items[1..][k] == items[k + 1];
        Err(e)
      case Ok(rest) =>
        assert forall k :: 1 <= k < |items| ==> items[k] == items[1..][k - 1];
        if JsOpt(Some(items[0]), "type") == Some(JStr("text")) then Ok([JsOpt(Some(items[0]), "text")] + rest)
        else Ok(rest)
  }

  /** A message's text: array content is its text items joined with `\n`
      (`null`/`undefined` items render as ""), anything else is
      `String(content)`. */
  function ContentText(content: Option<Json>): (r: Result<string, Exn>)
    ensures !(content.Some? && content.value.JArr?) ==> r == Ok(JsToString(content))
  {
    match content
    case Some(JArr(items)) =>
      (match TextItems(items)
       case Err(e) => Err(e)
       case Ok(texts) => Ok(JsJoin(texts, "\n")))
    case _ => Ok(JsToString(content))
  }

  /** `{role: message.role, text}`; a `null` message throws. */
  function MessageBlock(message: Json): (r: Result<Block, Exn>)
    ensures message == JNull ==> r.Err?
  {
    if message == JNull then Err(TypeError)
    else
      match ContentText(JsOpt(Some(message), "content"))
      case Err(e) => Err(e)
      case Ok(text) => Ok(Block(JsOpt(Some(message), "role"), text))
  }

  function MessageBlocks(messages: seq<Json>): (r: Result<seq<Block>, Exn>)
    ensures r.Ok? ==> |r.value| == |messages|
  {
    if |messages| == 0 then Ok([])
    else
      match MessageBlock(messages[0])
      case Err(e) => Err(e)
      case Ok(b) =>
        match MessageBlocks(messages[1..])
        case Err(e) => Err(e)
        case Ok(rest) => Ok([b] + rest)
  }

  predicate SameRole(a: Block, b: Block) {
    JsStrictEq(a.role, b.role)
  }

  /** No two neighbouring blocks have `===` roles. */
  predicate Alternating(blocks: seq<Block>) {
    forall i :: 0 <= i < |blocks| - 1 ==> !SameRole(blocks[i], blocks[i + 1])
  }

  /** The merge loop with `current` the block being grown: a block whose
      role is `===` the current one is appended to it after a blank line,
      any other block starts a new one. */
  function MergeFrom(current: Block, rest: seq<Block>): (r: seq<Block>)
    decreases |rest|
    ensures |r| >= 1 && r[0].role == current.role && Alternating(r)
    ensures |r| <= |rest| + 1
  {
    if |rest| == 0 then [current]
    else if SameRole(rest[0], current) then
      MergeFrom(Block(current.role, current.text + TurnSeparator + rest[0].text), rest[1..])
    else
      var tail := MergeFrom(rest[0], rest[1..]);
      var r := [current] + tail;
      assert forall i :: 1 <= i < |r| - 1 ==> r[i] == tail[i - 1] && r[i + 1] == tail[i];
      r
  }

  function MergeRuns(blocks: seq<Block>): (r: seq<Block>)
    ensures |r| <= |blocks| && (|r| == 0 <==> |blocks| == 0)
    ensures Alternating(r)
  {
    if |blocks| == 0 then [] else MergeFrom(blocks[0], blocks[1..])
  }

  /** Blocks that already alternate are left as they are. */
  lemma {:induction false} MergeAlternating(current: Block, rest: seq<Block>)
    requires Alternating([current] + rest)
    ensures MergeFrom(current, rest) == [current] + rest
    decreases |rest|
  {
    if |rest| > 0 {
      var all := [current] + rest;
      assert all[0] == current && all[1] == rest[0];
      assert [rest[0]] + rest[1..] == rest;
      forall i | 0 <= i < |rest| - 1 ensures !SameRole(rest[i], rest[i + 1]) {
        assert rest[i] == all[i + 1] && rest[i + 1] == all[i + 2];
      }
      MergeAlternating(rest[0], rest[1..]);
    }
  }

  /** A run of messages of one role becomes one block holding their texts
      separated by blank lines. */
  lemma {:induction false} MergeOneRole(current: Block, rest: seq<Block>)
    requires forall k :: 0 <= k < |rest| ==> SameRole(rest[k], current)
    ensures MergeFrom(current, rest) == [Block(current.role, Join([current.text] + Texts(rest), TurnSeparator))]
    decreases |rest|
  {
    if |rest| > 0 {
      var next := Block(current.role, current.text + TurnSeparator + rest[0].text);
      assert forall k :: 0 <= k < |rest| - 1 ==> rest[1..][k] == rest[k + 1];
      MergeOneRole(next, rest[1..]);
      JoinFront(current.text, rest[0].text, Texts(rest[1..]));
      assert Texts(rest) == [rest[0].text] + Texts(rest[1..]);
    }
  }

  function Texts(blocks: seq<Block>): (r: seq<string>)
    ensures |r| == |blocks|
  {
    if |blocks| == 0 then [] else [blocks[0].text] + Texts(blocks[1..])
  }

  /** Joining with the first two parts fused is joining them apart. */
  lemma JoinFront(a: string, b: string, rest: seq<string>)
    ensures Join([a + TurnSeparator + b] + rest, TurnSeparator) == Join([a] + ([b] + rest), TurnSeparator)
  {
    var xs := [a] + ([b] + rest);
    assert xs[1..] == [b] + rest;
    if |rest| > 0 {
      var ys := [a + TurnSeparator + b] + rest;
      assert ys[1..] == rest;
      assert ([b] + rest)[1..] == rest;
    }
  }

  /** The speaker tag of a merged block: assistant turns are wrapped, user
      and system turns are prefixed unless they open the prompt, other roles
      are bare. */
  function Tagged(b: Block, index: nat): string {
    if b.role == Some(JStr("assistant")) then AssistantOpen + b.text + AssistantClose
    else if b.role == Some(JStr("user")) || b.role == Some(JStr("system")) then
      (if index > 0 then UserOpen + b.text else b.text)
    else b.text
  }

  function TagFrom(blocks: seq<Block>, index: nat): string
    decreases |blocks|
  {
    if |blocks| == 0 then "" else Tagged(blocks[0], index) + TagFrom(blocks[1..], index + 1)
  }

  /** `messagesPrepare`: merge runs, tag, concatenate, remove images. No
      messages give the empty prompt. */
  function MessagesPrepare(messages: seq<Json>, removeImages: string -> string): (r: Result<string, Exn>)
    ensures |messages| == 0 ==> r == Ok("")
    ensures r.Err? <==> MessageBlocks(messages).Err?
  {
    match MessageBlocks(messages)
    case Err(e) => Err(e)
    case Ok(blocks) =>
      if |blocks| == 0 then Ok("") else Ok(removeImages(TagFrom(MergeRuns(blocks), 0)))
  }

  /** The usual dialogue shape: the opening user turn is bare, the
      assistant's turn is wrapped, the next user turn is tagged. */
  lemma Dialogue(u1: string, a1: string, u2: string)
    ensures TagFrom(MergeRuns([Block(Some(JStr("user")), u1), Block(Some(JStr("assistant")), a1),
                               Block(Some(JStr("user")), u2)]), 0)
         == u1 + AssistantOpen + a1 + AssistantClose + UserOpen + u2
  {
    var bs := [Block(Some(JStr("user")), u1), Block(Some(JStr("assistant")), a1), Block(Some(JStr("user")), u2)];
    assert "user" != "assistant" by { assert "user"[0] != "assistant"[0]; }
    MergeAlternating(bs[0], bs[1..]);
    assert [bs[0]] + bs[1..] == bs;
    assert bs[1..][1..] == [bs[2]];
    var t := TagFrom(bs, 0);
    assert TagFrom(bs[1..][1..], 2) == UserOpen + u2;
  }

  // ---------------------------------------------------------------------------
  // checkResult and the token cache

  const FailedPrefix: string := "[请求deepseek失败]: "
  const TokenInvalidCode: int := 40003

  /** A cached access token and the time after which it is renewed. */
  datatype AccessToken = AccessToken(accessToken: string, refreshTime: int)

  type TokenCache = map<string, AccessToken>

  datatype Checked = Checked(result: Result<Option<Json>, string>, cache: TokenCache)

  /** `checkResult`: as for every `{code, msg, data}` envelope, and code
      40003 also drops the refresh token's cached access token before
      failing. */
  function CheckResult(body: Option<Json>, cache: TokenCache, refreshToken: string): (r: Checked)
    ensures r.result.Err? ==> StartsWith(r.result.error, FailedPrefix)
    ensures r.cache == cache || r.cache == cache - {refreshToken}
    ensures r.cache != cache ==> r.result.Err?
  {
    if !JsTruthy(body) then Checked(Ok(Some(JNull)), cache)
    else
      var code := JsOpt(body, "code");
      if !(code.Some? && code.value.JNum?) then Checked(Ok(body), cache)
      else if code.value.n == 0 then Checked(Ok(JsOpt(body, "data")), cache)
      else
        var msg := JsToString(JsOpt(body, "msg"));
        AppendKeepsPrefix(FailedPrefix, FailedPrefix, msg);
        Checked(Err(FailedPrefix + msg), if code.value.n == TokenInvalidCode then cache - {refreshToken} else cache)
  }

  /** Code 40003 evicts exactly the token that failed; other codes keep the
      cache. */
  lemma CheckEvicts(cache: TokenCache, refreshToken: string, code: int, msg: string)
    requires code != 0
    ensures CheckResult(Some(JObj([Field("code", JNum(code)), Field("msg", JStr(msg))])), cache, refreshToken)
         == Checked(Err(FailedPrefix + msg), if code == TokenInvalidCode then cache - {refreshToken} else cache)
  {
    var fields := [Field("code", JNum(code)), Field("msg", JStr(msg))];
    assert "code"[0] != "msg"[0];
    assert fields[1..] == [Field("msg", JStr(msg))];
    assert Lookup(fields[1..], "msg") == Some(JStr(msg));
  }

  datatype Acquired = Acquired(accessToken: string, cache: TokenCache, requests: nat)

  /** `acquireToken` at time `now`: a missing entry is fetched and cached,
      and an entry past its refresh time is fetched again. `request(k)` is
      what the `k`-th fetch returns. */
  function AcquireToken(cache: TokenCache, refreshToken: string, now: int, request: nat -> AccessToken): (r: Acquired)
    ensures r.requests <= 2
    ensures r.requests == 0 <==> refreshToken in cache && now <= cache[refreshToken].refreshTime
    ensures r.requests == 0 ==> r.cache == cache && r.accessToken == cache[refreshToken].accessToken
    ensures r.requests > 0 ==>
              r.cache == cache[refreshToken := request(r.requests - 1)]
              && r.accessToken == request(r.requests - 1).accessToken
  {
    var cached := refreshToken in cache;
    var first := if cached then cache[refreshToken] else request(0);
    var n: nat := if cached then 0 else 1;
    var c1 := if cached then cache else cache[refreshToken := first];
    if now > first.refreshTime then
      var second := request(n);
      Acquired(second.accessToken, c1[refreshToken := second], n + 1)
    else Acquired(first.accessToken, c1, n)
  }

  /** Only the entry of the refresh token in use ever changes. */
  lemma AcquireKeepsOthers(cache: TokenCache, refreshToken: string, now: int, request: nat -> AccessToken, other: string)
    requires other != refreshToken
    ensures var r := AcquireToken(cache, refreshToken, now, request);
            (other in r.cache <==> other in cache) && (other in cache ==> r.cache[other] == cache[other])
  {
  }

  // ---------------------------------------------------------------------------
  // The upstream events

  /** An event from the SSE parser: its `event` name (absent for plain
      messages) and its data, or a `retry` interval. */
  datatype SseEvent = Event(name: Option<string>, data: string) | Retry

  const ThinkingPath: string := "response/thinking_content"
  const ContentPath: string := "response/content"
  const SearchStatusPath: string := "response/search_status"
  const SearchResultsPath: string := "response/search_results"

  /** Which accumulator string values go to, as set by the last `p`. */
  datatype Path = NoPath | Thinking | Content

  /** The path after a chunk whose `p` is `p`. */
  function NextPath(path: Path, p: Option<Json>): (r: Path)
    ensures r != path ==> p == Some(JStr(ThinkingPath)) || p == Some(JStr(ContentPath))
  {
    if p == Some(JStr(ThinkingPath)) then Thinking
    else if p == Some(JStr(ContentPath)) then Content
    else path
  }

  /** The first truthy `response_message_id` is kept. */
  function NextMessageId(id: Json, chunk: Json): (r: Json)
    ensures JsTruthy(Some(id)) ==> r == id
  {
    var m := JsOpt(Some(chunk), "response_message_id");
    if JsTruthy(m) && !JsTruthy(Some(id)) then m.value else id
  }

  // ---------------------------------------------------------------------------
  // receiveStream

  datatype Accumulated = Accumulated(messageId: Json, path: Path, content: string, thinking: string)

  const Start: Accumulated := Accumulated(JStr(""), NoPath, "", "")

  /** The chunk an event carries: its data parsed, unless the event is a
      `retry`, has empty data, does not parse or is `null`. */
  function EventChunk(ev: SseEvent, parse: Parser): (r: Option<Json>)
    ensures r.Some? ==> r.value != JNull
  {
    if ev.Retry? || ev.data == "" then None
    else
      match parse(ev.data)
      case Some(chunk) => if chunk == JNull then None else Some(chunk)
      case None => None
  }

  /** The string `v` of an event's chunk, if it has one. */
  function Carried(ev: SseEvent, parse: Parser): Option<string> {
    match EventChunk(ev, parse)
    case Some(chunk) =>
      (match JsOpt(Some(chunk), "v")
       case Some(JStr(v)) => Some(v)
       case _ => None)
    case None => None
  }

  /** The path once an event has been seen: set by its chunk's `p`. */
  function PathAfter(path: Path, ev: SseEvent, parse: Parser): Path {
    match EventChunk(ev, parse)
    case Some(chunk) => NextPath(path, JsOpt(Some(chunk), "p"))
    case None => path
  }

  /** One event: chunks that do not parse, and `null` (reading a field of it
      throws and is caught), change nothing; a string `v` goes to the
      accumulator of the current path, and is dropped while there is none. */
  function Accumulate(a: Accumulated, ev: SseEvent, parse: Parser): (r: Accumulated)
    ensures a.content <= r.content && a.thinking <= r.thinking
    ensures r.content != a.content ==> r.path == Content
    ensures r.thinking != a.thinking ==> r.path == Thinking
    ensures JsTruthy(Some(a.messageId)) ==> r.messageId == a.messageId
    ensures a.path != NoPath ==> r.path != NoPath
    ensures EventChunk(ev, parse).None? ==> r == a
    ensures r.path == PathAfter(a.path, ev, parse)
    ensures Carried(ev, parse).None? ==> r.content == a.content && r.thinking == a.thinking
    ensures Carried(ev, parse).Some? && r.path == Content ==>
      r.content == a.content + Carried(ev, parse).value && r.thinking == a.thinking
    ensures Carried(ev, parse).Some? && r.path == Thinking ==>
      r.thinking == a.thinking + Carried(ev, parse).value && r.content == a.content
  {
    if ev.Retry? || ev.data == "" then a
    else
      match parse(ev.data)
      case None => a
      case Some(chunk) =>
        if chunk == JNull then a
        else
          var path := NextPath(a.path, JsOpt(Some(chunk), "p"));
          var b := Accumulated(NextMessageId(a.messageId, chunk), path, a.content, a.thinking);
          match JsOpt(Some(chunk), "v")
          case Some(JStr(v)) =>
            (if path == Thinking then b.(thinking := b.thinking + v)
             else if path == Content then b.(content := b.content + v)
             else b)
          case _ => b
  }

  function AccumulateAll(a: Accumulated, events: seq<SseEvent>, parse: Parser): (r: Accumulated)
    decreases |events|
    ensures a.content <= r.content && a.thinking <= r.thinking
    ensures JsTruthy(Some(a.messageId)) ==> r.messageId == a.messageId
  {
    if |events| == 0 then a else AccumulateAll(Accumulate(a, events[0], parse), events[1..], parse)
  }

  /** A string value, with the path it was sent under. */
  datatype Piece = Piece(path: Path, text: string)

  /** The string value of one event, with the path in force once its chunk
      has been read. */
  function HeadPiece(path: Path, ev: SseEvent, parse: Parser): (r: seq<Piece>)
    ensures |r| <= 1
  {
    match Carried(ev, parse)
    case Some(v) => [Piece(PathAfter(path, ev, parse), v)]
    case None => []
  }

  /** The string values of a run of events, each with the path in force
      once its own chunk has been read, starting from `path`. */
  function Pieces(path: Path, events: seq<SseEvent>, parse: Parser): seq<Piece>
    decreases |events|
  {
    if |events| == 0 then []
    else HeadPiece(path, events[0], parse) + Pieces(PathAfter(path, events[0], parse), events[1..], parse)
  }

  /** The texts of the pieces sent under `target`, in order. */
  function OnPath(pieces: seq<Piece>, target: Path): string {
    if |pieces| == 0 then ""
    else (if pieces[0].path == target then pieces[0].text else "") + OnPath(pieces[1..], target)
  }

  lemma OnPathHead(head: seq<Piece>, rest: seq<Piece>, target: Path)
    requires |head| <= 1
    ensures OnPath(head + rest, target) == OnPath(head, target) + OnPath(rest, target)
  {
    if |head| == 1 {
      assert (head + rest)[1..] == rest;
      assert head[1..] == [];
    } else {
      assert head + rest == rest;
    }
  }

  /** One event appends to each accumulator the value it sends under that
      accumulator's path. */
  lemma AccumulateHead(a: Accumulated, ev: SseEvent, parse: Parser)
    ensures Accumulate(a, ev, parse).content == a.content + OnPath(HeadPiece(a.path, ev, parse), Content)
    ensures Accumulate(a, ev, parse).thinking == a.thinking + OnPath(HeadPiece(a.path, ev, parse), Thinking)
  {
    var head := HeadPiece(a.path, ev, parse);
    if |head| == 1 {
      assert head[1..] == [];
    }
  }

  /** Each accumulator ends up as the string values sent under its path, in
      order, appended to what it held. */
  lemma {:induction false} AccumulatedPieces(a: Accumulated, events: seq<SseEvent>, parse: Parser)
    ensures AccumulateAll(a, events, parse).content == a.content + OnPath(Pieces(a.path, events, parse), Content)
    ensures AccumulateAll(a, events, parse).thinking == a.thinking + OnPath(Pieces(a.path, events, parse), Thinking)
    decreases |events|
  {
    if |events| > 0 {
      var b := Accumulate(a, events[0], parse);
      var head := HeadPiece(a.path, events[0], parse);
      var rest := Pieces(b.path, events[1..], parse);
      AccumulatedPieces(b, events[1..], parse);
      AccumulateHead(a, events[0], parse);
      assert AccumulateAll(a, events, parse) == AccumulateAll(b, events[1..], parse);
      assert Pieces(a.path, events, parse) == head + rest;
      OnPathHead(head, rest, Content);
      OnPathHead(head, rest, Thinking);
      Seqs.Assoc(a.content, OnPath(head, Content), OnPath(rest, Content));
      Seqs.Assoc(a.thinking, OnPath(head, Thinking), OnPath(rest, Thinking));
    }
  }

  /** From the start, the answer's content is the values sent under
      `response/content` and its reasoning those sent under
      `response/thinking_content`. */
  lemma StartPieces(events: seq<SseEvent>, parse: Parser)
    ensures AccumulateAll(Start, events, parse).content == OnPath(Pieces(NoPath, events, parse), Content)
    ensures AccumulateAll(Start, events, parse).thinking == OnPath(Pieces(NoPath, events, parse), Thinking)
  {
    AccumulatedPieces(Start, events, parse);
  }

  /** Until a chunk names a path, nothing is accumulated; once one has, the
      stream never goes back to having none. */
  lemma {:induction false} PathlessKeepsText(a: Accumulated, events: seq<SseEvent>, parse: Parser)
    ensures a.path != NoPath ==> AccumulateAll(a, events, parse).path != NoPath
    ensures AccumulateAll(a, events, parse).path == NoPath ==>
              AccumulateAll(a, events, parse).content == a.content
              && AccumulateAll(a, events, parse).thinking == a.thinking
    decreases |events|
  {
    if |events| > 0 {
      PathlessKeepsText(Accumulate(a, events[0], parse), events[1..], parse);
    }
  }

  /** Accumulating two stretches of events is accumulating one after the
      other. */
  lemma {:induction false} AccumulateAppend(a: Accumulated, xs: seq<SseEvent>, ys: seq<SseEvent>, parse: Parser)
    ensures AccumulateAll(a, xs + ys, parse) == AccumulateAll(AccumulateAll(a, xs, parse), ys, parse)
    decreases |xs|
  {
    if |xs| == 0 {
      assert xs + ys == ys;
    } else {
      assert (xs + ys)[0] == xs[0];
      assert (xs + ys)[1..] == xs[1..] + ys;
      AccumulateAppend(Accumulate(a, xs[0], parse), xs[1..], ys, parse);
    }
  }

  /** The non-streaming answer. */
  datatype Completion = Completion(id: string, content: string, reasoning: string)

  /** `${refConvId}` renders a missing id as `undefined`. */
  function IdText(refConvId: Option<string>): string {
    match refConvId
    case None => "undefined"
    case Some(s) => s
  }

  /** `receiveStream`: on `close`, the id `refConvId@messageId` and both
      accumulators trimmed; an upstream `error` rejects. */
  function ReceiveStream(events: seq<SseEvent>, closed: bool, refConvId: Option<string>, parse: Parser)
    : (r: Option<Completion>)
    ensures r.Some? <==> closed
    ensures r.Some? ==> r.value.content == JsTrim(AccumulateAll(Start, events, parse).content)
    ensures r.Some? ==> r.value.reasoning == JsTrim(AccumulateAll(Start, events, parse).thinking)
  {
    if !closed then None
    else
      var a := AccumulateAll(Start, events, parse);
      Some(Completion(IdText(refConvId) + "@" + JsToString(Some(a.messageId)), JsTrim(a.content), JsTrim(a.thinking)))
  }

  /** Text before the first path marker is dropped: a stream that never
      names a path answers with empty content and reasoning. */
  lemma NoPathNoText(events: seq<SseEvent>, refConvId: Option<string>, parse: Parser)
    requires AccumulateAll(Start, events, parse).path == NoPath
    ensures ReceiveStream(events, true, refConvId, parse).value.content == ""
    ensures ReceiveStream(events, true, refConvId, parse).value.reasoning == ""
  {
    PathlessKeepsText(Start, events, parse);
    StripIdentity("", JsSpace);
  }

  // ---------------------------------------------------------------------------
  // Citation markers in streamed text

  const CitationOpen: string := "[citation:"

  /** The number of ASCII digits `s` starts with. */
  function DigitRun(s: string): (n: nat)
    ensures n <= |s| && AllDigits(s[..n])
    ensures n < |s| ==> !IsDigit(s[n])
  {
    if |s| == 0 || !IsDigit(s[0]) then 0
    else
      var n := 1 + DigitRun(s[1..]);
      assert s[..n] == [s[0]] + s[1..][..n - 1];
      n
  }

  /** The length of the `[citation:N]` marker `s` starts with, if it does. */
  function CitationAt(s: string): (r: Option<nat>)
    ensures r.Some? ==> |CitationOpen| + 2 <= r.value <= |s|
  {
    if !StartsWith(s, CitationOpen) then None
    else
      var d := DigitRun(s[|CitationOpen|..]);
      if d > 0 && |CitationOpen| + d < |s| && s[|CitationOpen| + d] == ']' then Some(|CitationOpen| + d + 1)
      else None
  }

  /** `replace(/\[citation:(\d+)\]/g, ...)`: each marker, scanning left to
      right, becomes `[N]`, or nothing for a search-silent model. */
  function RewriteCitations(s: string, silent: bool): (r: string)
    decreases |s|
    ensures |r| <= |s|
  {
    if |s| == 0 then ""
    else
      match CitationAt(s)
      case Some(k) =>
        (if silent then "" else "[" + s[|CitationOpen|..k - 1] + "]") + RewriteCitations(s[k..], silent)
      case None => [s[0]] + RewriteCitations(s[1..], silent)
  }

  /** Text without a `[` is never rewritten. */
  lemma {:induction false} RewriteLeavesPlainText(s: string, silent: bool)
    requires NoneOf(s, '[')
    ensures RewriteCitations(s, silent) == s
    decreases |s|
  {
    if |s| > 0 {
      assert s[0] != CitationOpen[0];
      assert CitationAt(s).None?;
      RewriteLeavesPlainText(s[1..], silent);
    }
  }

  /** A marker is replaced by its number in brackets, or dropped. */
  lemma RewriteMarker(d: string, rest: string, silent: bool)
    requires |d| > 0 && AllDigits(d)
    ensures RewriteCitations(CitationOpen + d + "]" + rest, silent)
         == (if silent then "" else "[" + d + "]") + RewriteCitations(rest, silent)
  {
    var s := CitationOpen + d + "]" + rest;
    var n := |CitationOpen|;
    assert s[..n] == CitationOpen;
    assert s[n..] == d + "]" + rest;
    DigitRunOf(d, "]" + rest);
    assert s[n + |d|] == ']';
    assert CitationAt(s) == Some(n + |d| + 1);
    assert s[n..n + |d|] == d;
    assert s[n + |d| + 1..] == rest;
  }

  /** The digit run of digits followed by a non-digit is those digits. */
  lemma {:induction false} DigitRunOf(d: string, rest: string)
    requires AllDigits(d) && |rest| > 0 && !IsDigit(rest[0])
    ensures DigitRun(d + rest) == |d|
    decreases |d|
  {
    if |d| == 0 {
      assert d + rest == rest;
    } else {
      assert (d + rest)[1..] == d[1..] + rest;
      DigitRunOf(d[1..], rest);
    }
  }

  // ---------------------------------------------------------------------------
  // Search results and the citation list

  const CiteSuffix: string := "/cite_index"

  /** `op.p.match(/^(\d+)\/cite_index$/)`: the index named by a BATCH path. */
  function CiteIndexPath(p: string): (r: Option<nat>)
    ensures r.Some? ==> EndsWith(p, CiteSuffix)
  {
    var n := |p| - |CiteSuffix|;
    if n > 0 && EndsWith(p, CiteSuffix) && AllDigits(p[..n]) then Some(DigitsValue(p[..n])) else None
  }

  /** `searchResults[i].cite_index = v` on a truthy entry: objects take the
      field; setting a field on any other value throws (module code is
      strict). */
  function SetCite(entry: Json, v: Json): Result<Json, Exn> {
    match entry
    case JObj(fields) => Ok(JObj(Put(fields, "cite_index", v)))
    case _ => Err(TypeError)
  }

  /** A BATCH of `{p: "N/cite_index", v}` operations: existing truthy entries
      get their `cite_index` set; a `null` op or a non-string `p` throws;
      other paths and missing entries are skipped. */
  function ApplyBatch(results: seq<Json>, ops: seq<Json>): (r: Result<seq<Json>, Exn>)
    decreases |ops|
    ensures r.Ok? ==> |r.value| == |results|
  {
    if |ops| == 0 then Ok(results)
    else if ops[0] == JNull then Err(TypeError)
    else
      match JsOpt(Some(ops[0]), "p")
      case Some(JStr(p)) =>
        (match CiteIndexPath(p)
         case Some(i) =>
           if i < |results| && JsTruthy(Some(results[i])) then
             match SetCite(results[i], JsOpt(Some(ops[0]), "v").GetOr(JNull))
             case Err(e) => Err(e)
             case Ok(entry) => ApplyBatch(results[i := entry], ops[1..])
           else ApplyBatch(results, ops[1..])
         case None => ApplyBatch(results, ops[1..]))
      case _ => Err(TypeError)
  }

  /** A BATCH never adds, removes or reorders results, and touches nothing
      but `cite_index` fields. */
  lemma {:induction false} BatchOnlyCites(results: seq<Json>, ops: seq<Json>)
    requires ApplyBatch(results, ops).Ok?
    ensures forall k :: 0 <= k < |results| ==> CiteUpdateChain(results[k], ApplyBatch(results, ops).value[k])
    decreases |ops|
  {
    if |ops| > 0 {
      var p := JsOpt(Some(ops[0]), "p");
      var i := CiteIndexPath(p.value.s);
      if i.Some? && i.value < |results| && JsTruthy(Some(results[i.value])) {
        var entry := SetCite(results[i.value], JsOpt(Some(ops[0]), "v").GetOr(JNull)).value;
        var next := results[i.value := entry];
        BatchOnlyCites(next, ops[1..]);
        forall k | 0 <= k < |results|
          ensures CiteUpdateChain(results[k], ApplyBatch(results, ops).value[k])
        {
          if k == i.value {
            CiteChainStep(results[k], entry, ApplyBatch(next, ops[1..]).value[k],
                          JsOpt(Some(ops[0]), "v").GetOr(JNull));
          }
        }
      } else {
        BatchOnlyCites(results, ops[1..]);
      }
    }
  }

  /** Same value, or an object that differs at most in `cite_index`. */
  ghost predicate CiteUpdateChain(before: Json, after: Json) {
    after == before || (before.JObj? && after.JObj? && SameExceptCite(before.fields, after.fields))
  }

  ghost predicate SameExceptCite(a: seq<Field>, b: seq<Field>) {
    forall key :: key != "cite_index" ==> Lookup(b, key) == Lookup(a, key)
  }

  lemma CiteChainStep(before: Json, mid: Json, after: Json, v: Json)
    requires before.JObj? && mid == JObj(Put(before.fields, "cite_index", v))
    requires CiteUpdateChain(mid, after)
    ensures CiteUpdateChain(before, after)
  {
    forall key | key != "cite_index" ensures Lookup(mid.fields, key) == Lookup(before.fields, key) {
      LookupPutOther(before.fields, "cite_index", v, key);
    }
  }

  predicate HasCite(r: Json) {
    JsTruthy(JsOpt(Some(r), "cite_index"))
  }

  /** `a.cite_index - b.cite_index`; a value that is not a number compares
      as 0. */
  function CiteKey(r: Json): int {
    match JsToNumber(JsOpt(Some(r), "cite_index"))
    case Some(n) => n
    case None => 0
  }

  predicate CiteLe(a: Json, b: Json) {
    CiteKey(a) <= CiteKey(b)
  }

  lemma CiteLeTotal()
    ensures TotalPreorder(CiteLe)
  {
  }

  /** The entries the citation block lists: those with a truthy
      `cite_index`, in ascending `cite_index` order. Reading the field of a
      `null` entry throws. */
  function CitedEntries(results: seq<Json>): (r: Result<seq<Json>, Exn>)
    ensures r.Err? <==> JNull in results
  {
    if JNull in results then Err(TypeError) else Ok(SortBy(Seqs.Filter(results, HasCite), CiteLe))
  }

  /** The listed entries are exactly the cited ones, sorted ascending. */
  lemma CitedEntriesSorted(results: seq<Json>)
    requires JNull !in results
    ensures Sorted(CitedEntries(results).value, CiteLe)
    ensures multiset(CitedEntries(results).value) == multiset(Seqs.Filter(results, HasCite))
    ensures forall k :: 0 <= k < |CitedEntries(results).value| ==> HasCite(CitedEntries(results).value[k])
  {
    var f := Seqs.Filter(results, HasCite);
    CiteLeTotal();
    SortBySorted(f, CiteLe);
    SortKeepsProperty(f, CiteLe, HasCite);
  }

  /** `N. [title](url)`. */
  function CitationLine(r: Json): string {
    JsToString(JsOpt(Some(r), "cite_index")) + ". [" + JsToString(JsOpt(Some(r), "title")) + "]("
    + JsToString(JsOpt(Some(r), "url")) + ")"
  }

  function CitationLines(rs: seq<Json>): (r: seq<string>)
    ensures |r| == |rs|
  {
    if |rs| == 0 then [] else [CitationLine(rs[0])] + CitationLines(rs[1..])
  }

  const CitationHeader: string := "\n\n**参考资料**:\n"

  /** A citation line is never empty, so the block is written exactly when
      some entry is cited. */
  lemma CitationsNonEmpty(cited: seq<Json>)
    ensures Join(CitationLines(cited), "\n") != "" <==> |cited| > 0
  {
    var lines := CitationLines(cited);
    if |cited| > 0 {
      assert |lines[0]| > 0;
      if |lines| > 1 {
        assert Join(lines, "\n") == lines[0] + "\n" + Join(lines[1..], "\n");
      }
    }
  }

  // ---------------------------------------------------------------------------
  // createTransStream

  /** What the model name switches on. */
  datatype Flags = Flags(thinking: bool, silent: bool, fold: bool, searchSilent: bool)

  function ModelFlags(model: string): (f: Flags)
    ensures f.thinking <==> Contains(model, "think") || Contains(model, "r1")
    ensures f.fold <==> (Contains(model, "fold") || Contains(model, "search")) && !f.thinking
    ensures f.silent <==> Contains(model, "silent")
    ensures f.searchSilent <==> Contains(model, "search-silent")
  {
    var thinking := Contains(model, "think") || Contains(model, "r1");
    Flags(thinking, Contains(model, "silent"), (Contains(model, "fold") || Contains(model, "search")) && !thinking,
          Contains(model, "search-silent"))
  }

  /** A search-silent model is also a search model, so it folds its thinking
      unless it is a thinking model, and it is silent. */
  lemma SearchSilentFolds(model: string)
    requires Contains(model, "search-silent")
    ensures ModelFlags(model).silent
    ensures !ModelFlags(model).thinking ==> ModelFlags(model).fold
  {
    var i := IndexOf(model, "search-silent").value;
    assert model[i..i + 6] == model[i..i + 13][..6] == "search";
    ContainsAt(model, "search", i);
    assert model[i + 7..i + 13] == model[i..i + 13][7..] == "silent";
    ContainsAt(model, "silent", i + 7);
  }

  /** The fields of a `chat.completion.chunk` the transcoder sets. */
  datatype Delta = Delta(role: bool, content: Option<string>, reasoning: Option<string>)

  datatype Chunk =
    | DeltaChunk(id: string, delta: Delta)
    | StopChunk(id: string)
    | DoneChunk

  const FoldOpen: string := "<details><summary>思考过程</summary><pre>"
  const FoldClose: string := "</pre></details>"

  /** The transcoder's state between events: whether the role is still to
      be sent, the message id, the current path, the search results, whether
      a folded thinking block is open, and the output so far. */
  datatype Tx = Tx(first: bool, messageId: Json, path: Path, results: seq<Json>,
                   thinkingStarted: bool, ended: bool, out: seq<Chunk>)

  const TxStart: Tx := Tx(true, JStr(""), NoPath, [], false, false, [])

  /** A write once the output has ended is dropped. */
  function Write(t: Tx, c: Chunk): (r: Tx)
    ensures r.out == if t.ended then t.out else t.out + [c]
    ensures r.(out := t.out) == t
  {
    if t.ended then t else t.(out := t.out + [c])
  }

  /** `transStream.end("data: [DONE]\n\n")` unless already ended. */
  function EndStream(t: Tx): (r: Tx)
    ensures r.ended
    ensures t.ended ==> r == t
    ensures !t.ended ==> r.out == t.out + [DoneChunk]
  {
    if t.ended then t else t.(out := t.out + [DoneChunk], ended := true)
  }

  /** `${refConvId}@${messageId}`. */
  function ChunkId(conv: string, t: Tx): string {
    conv + "@" + JsToString(Some(t.messageId))
  }

  /** The `close` event, or data `[DONE]`: the open folded block is closed,
      then the citations, the stop chunk and `[DONE]` are written. */
  function Close(t: Tx, f: Flags, conv: string): (r: Tx)
    ensures r.ended
    ensures t.ended ==> r.out == t.out
  {
    var id := ChunkId(conv, t);
    var t1 := if f.fold && t.thinkingStarted then Write(t, DeltaChunk(id, Delta(false, Some(FoldClose), None))) else t;
    CloseCitations(t1, f, id)
  }

  /** The citation block is written if any result is cited. A `null`
      search result makes the citation filter throw, and the handler's
      catch ends the output at once. */
  function CloseCitations(t: Tx, f: Flags, id: string): (r: Tx)
    ensures r.ended
    ensures t.ended ==> r.out == t.out
  {
    if |t.results| > 0 && !f.searchSilent then
      match CitedEntries(t.results)
      case Err(_) => EndStream(t)
      case Ok(cited) =>
        var citations := Join(CitationLines(cited), "\n");
        var t2 := if citations != "" then Write(t, DeltaChunk(id, Delta(false, Some(CitationHeader + citations), None))) else t;
        EndStream(Write(t2, StopChunk(id)))
    else EndStream(Write(t, StopChunk(id)))
  }

  /** A string `v`: the role goes with the first one (even when a silent
      model then writes nothing), citation markers are rewritten, and the
      text goes to the reasoning, to the folded block or to the content. */
  function TextDelta(t: Tx, f: Flags, id: string, v: string): (r: Tx)
    ensures !r.first
    ensures r.ended == t.ended
    ensures t.ended ==> r.out == t.out
  {
    var role := t.first;
    var t1 := t.(first := false);
    var content := RewriteCitations(v, f.searchSilent);
    if t.path == Thinking then
      if f.silent then t1
      else if f.fold then
        if !t.thinkingStarted then Write(t1.(thinkingStarted := true), DeltaChunk(id, Delta(role, Some(FoldOpen + content), None)))
        else Write(t1, DeltaChunk(id, Delta(role, Some(content), None)))
      else Write(t1, DeltaChunk(id, Delta(role, None, Some(content))))
    else if t.path == Content && f.fold && t.thinkingStarted then
      Write(t1.(thinkingStarted := false), DeltaChunk(id, Delta(role, Some(FoldClose + content), None)))
    else Write(t1, DeltaChunk(id, Delta(role, Some(content), None)))
  }

  /** Search results: a plain array replaces the list, a BATCH updates
      `cite_index` fields (a throw ends the output); otherwise a string `v`
      is text. */
  function SearchOrText(t: Tx, f: Flags, conv: string, chunk: Json, p: Option<Json>): (r: Tx)
    ensures t.ended ==> r.ended && r.out == t.out
  {
    var v := JsOpt(Some(chunk), "v");
    if p == Some(JStr(SearchResultsPath)) && v.Some? && v.value.JArr? then
      if JsOpt(Some(chunk), "o") != Some(JStr("BATCH")) then t.(results := v.value.items)
      else
        match ApplyBatch(t.results, v.value.items)
        case Err(_) => EndStream(t)
        case Ok(rs) => t.(results := rs)
    else if v.Some? && v.value.JStr? then TextDelta(t, f, ChunkId(conv, t), v.value.s)
    else t
  }

  /** A parsed chunk. Reading a field of `null` throws and ends the output. */
  function TxChunk(t: Tx, f: Flags, conv: string, chunk: Json): (r: Tx) {
    if chunk == JNull then EndStream(t)
    else
      var p := JsOpt(Some(chunk), "p");
      var t1 := t.(messageId := NextMessageId(t.messageId, chunk), path := NextPath(t.path, p));
      if p == Some(JStr(SearchStatusPath)) then t1
      else SearchOrText(t1, f, conv, chunk, p)
  }

  /** One event from the parser. */
  function TxEvent(t: Tx, f: Flags, conv: string, ev: SseEvent, parse: Parser): (r: Tx)
    ensures t.ended ==> r.ended && r.out == t.out
  {
    match ev
    case Retry => t
    case Event(name, data) =>
      if name == Some("close") || JsTrim(data) == "[DONE]" then Close(t, f, conv)
      else if data == "" then t
      else
        match parse(data)
        case None => t
        case Some(chunk) => TxChunk(t, f, conv, chunk)
  }

  function TxRun(t: Tx, f: Flags, conv: string, events: seq<SseEvent>, parse: Parser): (r: Tx)
    decreases |events|
  {
    if |events| == 0 then t else TxRun(TxEvent(t, f, conv, events[0], parse), f, conv, events[1..], parse)
  }

  /** The whole output: after the last event the input stream's `close`
      or `error` ends it if nothing has. */
  function TransStream(model: string, refConvId: Option<string>, events: seq<SseEvent>, parse: Parser)
    : (r: seq<Chunk>)
    ensures Closed(r)
    ensures RoleFirst(r)
    ensures Plain(ModelFlags(model), r)
  {
    var f := ModelFlags(model);
    RunFramed(TxStart, f, IdText(refConvId), events, parse);
    EndFramed(TxRun(TxStart, f, IdText(refConvId), events, parse), f);
    EndStream(TxRun(TxStart, f, IdText(refConvId), events, parse)).out
  }

  // ---------------------------------------------------------------------------
  // The shape of the transcoded stream

  /** Only text deltas are written while the output is open. */
  predicate AllDeltas(cs: seq<Chunk>) {
    forall k :: 0 <= k < |cs| ==> cs[k].DeltaChunk?
  }

  /** An ended output: `[DONE]` last and only there, and a stop chunk, if
      any, just before it. */
  predicate Closed(cs: seq<Chunk>) {
    |cs| >= 1 && cs[|cs| - 1] == DoneChunk
    && forall k :: 0 <= k < |cs| - 1 ==> cs[k].DeltaChunk? || (cs[k].StopChunk? && k == |cs| - 2)
  }

  /** `role: "assistant"` is only ever on the first delta. */
  predicate RoleFirst(cs: seq<Chunk>) {
    forall i, j :: 0 <= i < j < |cs| && cs[j].DeltaChunk? && cs[j].delta.role ==> !cs[i].DeltaChunk?
  }

  /** A folding or silent model never sends `reasoning_content`. */
  predicate Plain(f: Flags, cs: seq<Chunk>) {
    (f.fold || f.silent) ==> forall k :: 0 <= k < |cs| && cs[k].DeltaChunk? ==> cs[k].delta.reasoning.None?
  }

  /** The invariant kept between events. */
  predicate Framed(t: Tx, f: Flags) {
    RoleFirst(t.out) && Plain(f, t.out) && (t.thinkingStarted ==> !t.first)
    && if t.ended then Closed(t.out) else AllDeltas(t.out) && (t.first ==> t.out == [])
  }

  /** A delta written after the role has been spent, carrying the role only
      if nothing was written before. */
  lemma WriteFramed(t: Tx, f: Flags, id: string, d: Delta)
    requires Framed(t, f) && !t.first
    requires d.role && !t.ended ==> t.out == []
    requires (f.fold || f.silent) ==> d.reasoning.None?
    ensures Framed(Write(t, DeltaChunk(id, d)), f)
  {
  }

  lemma EndFramed(t: Tx, f: Flags)
    requires Framed(t, f)
    ensures Framed(EndStream(t), f)
  {
  }

  /** The state while the close handler writes: open, deltas only, but the
      role may still be unspent. */
  predicate Closing(t: Tx, f: Flags) {
    !t.ended && RoleFirst(t.out) && Plain(f, t.out) && AllDeltas(t.out) && (t.thinkingStarted ==> !t.first)
  }

  /** A delta with neither role nor reasoning keeps the closing state. */
  lemma FillerClosing(t: Tx, f: Flags, id: string, text: string)
    requires Closing(t, f)
    ensures Closing(Write(t, DeltaChunk(id, Delta(false, Some(text), None))), f)
  {
  }

  /** Ending from the closing state, with or without a stop chunk. */
  lemma ClosingEnds(t: Tx, f: Flags, id: string)
    requires Closing(t, f)
    ensures Framed(EndStream(t), f)
    ensures Framed(EndStream(Write(t, StopChunk(id))), f)
  {
    var cs := t.out + [StopChunk(id), DoneChunk];
    assert t.out + [StopChunk(id)] + [DoneChunk] == cs;
    forall i, j | 0 <= i < j < |cs| && cs[j].DeltaChunk? && cs[j].delta.role ensures !cs[i].DeltaChunk? {
      assert j < |t.out|;
    }
  }

  lemma CitationsFramed(t: Tx, f: Flags, id: string)
    requires Closing(t, f)
    ensures Framed(CloseCitations(t, f, id), f)
  {
    ClosingEnds(t, f, id);
    if |t.results| > 0 && !f.searchSilent && CitedEntries(t.results).Ok? {
      var citations := Join(CitationLines(CitedEntries(t.results).value), "\n");
      if citations != "" {
        FillerClosing(t, f, id, CitationHeader + citations);
        ClosingEnds(Write(t, DeltaChunk(id, Delta(false, Some(CitationHeader + citations), None))), f, id);
      }
    }
  }

  lemma CloseFramed(t: Tx, f: Flags, conv: string)
    requires Framed(t, f)
    ensures Framed(Close(t, f, conv), f)
  {
    if !t.ended {
      var id := ChunkId(conv, t);
      FillerClosing(t, f, id, FoldClose);
      CitationsFramed(t, f, id);
      CitationsFramed(Write(t, DeltaChunk(id, Delta(false, Some(FoldClose), None))), f, id);
    }
  }

  lemma TextFramed(t: Tx, f: Flags, id: string, v: string)
    requires Framed(t, f)
    ensures Framed(TextDelta(t, f, id, v), f)
  {
    var t1 := t.(first := false);
    var content := RewriteCitations(v, f.searchSilent);
    if t.path == Thinking {
      if f.silent {
      } else if f.fold {
        if !t.thinkingStarted {
          WriteFramed(t1.(thinkingStarted := true), f, id, Delta(t.first, Some(FoldOpen + content), None));
        } else {
          WriteFramed(t1, f, id, Delta(t.first, Some(content), None));
        }
      } else {
        WriteFramed(t1, f, id, Delta(t.first, None, Some(content)));
      }
    } else if t.path == Content && f.fold && t.thinkingStarted {
      WriteFramed(t1.(thinkingStarted := false), f, id, Delta(t.first, Some(FoldClose + content), None));
    } else {
      WriteFramed(t1, f, id, Delta(t.first, Some(content), None));
    }
  }

  lemma SearchOrTextFramed(t: Tx, f: Flags, conv: string, chunk: Json, p: Option<Json>)
    requires Framed(t, f)
    ensures Framed(SearchOrText(t, f, conv, chunk, p), f)
  {
    var v := JsOpt(Some(chunk), "v");
    if p == Some(JStr(SearchResultsPath)) && v.Some? && v.value.JArr? {
      if JsOpt(Some(chunk), "o") == Some(JStr("BATCH")) {
        EndFramed(t, f);
      }
    } else if v.Some? && v.value.JStr? {
      TextFramed(t, f, ChunkId(conv, t), v.value.s);
    }
  }

  lemma EventFramed(t: Tx, f: Flags, conv: string, ev: SseEvent, parse: Parser)
    requires Framed(t, f)
    ensures Framed(TxEvent(t, f, conv, ev, parse), f)
  {
    if ev.Event? {
      if ev.name == Some("close") || JsTrim(ev.data) == "[DONE]" {
        CloseFramed(t, f, conv);
      } else if ev.data != "" && parse(ev.data).Some? {
        ChunkFramed(t, f, conv, parse(ev.data).value);
      }
    }
  }

  lemma ChunkFramed(t: Tx, f: Flags, conv: string, chunk: Json)
    requires Framed(t, f)
    ensures Framed(TxChunk(t, f, conv, chunk), f)
  {
    if chunk == JNull {
      EndFramed(t, f);
    } else {
      var p := JsOpt(Some(chunk), "p");
      SearchOrTextFramed(t.(messageId := NextMessageId(t.messageId, chunk), path := NextPath(t.path, p)), f, conv, chunk, p);
    }
  }

  lemma {:induction false} RunFramed(t: Tx, f: Flags, conv: string, events: seq<SseEvent>, parse: Parser)
    requires Framed(t, f)
    ensures Framed(TxRun(t, f, conv, events, parse), f)
    decreases |events|
  {
    if |events| > 0 {
      EventFramed(t, f, conv, events[0], parse);
      RunFramed(TxEvent(t, f, conv, events[0], parse), f, conv, events[1..], parse);
    }
  }

  // ---------------------------------------------------------------------------
  // Further properties of the transcoder

  /** Transcoding two stretches of events is transcoding one after the
      other. */
  lemma {:induction false} TxRunAppend(t: Tx, f: Flags, conv: string, xs: seq<SseEvent>, ys: seq<SseEvent>, parse: Parser)
    ensures TxRun(t, f, conv, xs + ys, parse) == TxRun(TxRun(t, f, conv, xs, parse), f, conv, ys, parse)
    decreases |xs|
  {
    if |xs| == 0 {
      assert xs + ys == ys;
    } else {
      assert (xs + ys)[0] == xs[0];
      assert (xs + ys)[1..] == xs[1..] + ys;
      TxRunAppend(TxEvent(t, f, conv, xs[0], parse), f, conv, xs[1..], ys, parse);
    }
  }

  /** Once ended, the output is final. */
  lemma {:induction false} EndedIsFinal(t: Tx, f: Flags, conv: string, events: seq<SseEvent>, parse: Parser)
    requires t.ended
    ensures TxRun(t, f, conv, events, parse).out == t.out
    decreases |events|
  {
    if |events| > 0 {
      EndedIsFinal(TxEvent(t, f, conv, events[0], parse), f, conv, events[1..], parse);
    }
  }

  /** A `null` chunk throws in the handler, whose catch writes `[DONE]`
      without a stop chunk. */
  lemma NullChunkEnds(t: Tx, f: Flags, conv: string)
    requires !t.ended
    ensures TxChunk(t, f, conv, JNull).out == t.out + [DoneChunk]
    ensures TxChunk(t, f, conv, JNull).ended
  {
  }

  /** Without search results or an open folded block, closing writes just
      the stop chunk and `[DONE]`. */
  lemma PlainClose(t: Tx, f: Flags, conv: string)
    requires !t.ended && t.results == [] && !(f.fold && t.thinkingStarted)
    ensures Close(t, f, conv).out == t.out + [StopChunk(ChunkId(conv, t)), DoneChunk]
  {
  }

  /** A silent model's first text, if it is thinking, spends the role
      without writing anything, so a later content delta carries no role. */
  lemma SilentThinkingSpendsRole(t: Tx, f: Flags, id: string, v: string)
    requires f.silent && t.path == Thinking
    ensures TextDelta(t, f, id, v).out == t.out
    ensures !TextDelta(t, f, id, v).first
  {
  }

  /** Text on the content path of a plain model is written as content with
      its citation markers rewritten, and the role if it is the first. */
  lemma ContentDelta(t: Tx, f: Flags, id: string, v: string)
    requires !t.ended && t.path == Content && !f.fold
    ensures TextDelta(t, f, id, v).out
         == t.out + [DeltaChunk(id, Delta(t.first, Some(RewriteCitations(v, f.searchSilent)), None))]
  {
  }

  /** A failed BATCH update ends the output without a stop chunk. */
  lemma BadBatchEnds(t: Tx, f: Flags, conv: string, chunk: Json, ops: seq<Json>)
    requires !t.ended
    requires JsOpt(Some(chunk), "v") == Some(JArr(ops)) && JsOpt(Some(chunk), "o") == Some(JStr("BATCH"))
    requires ApplyBatch(t.results, ops).Err?
    ensures SearchOrText(t, f, conv, chunk, Some(JStr(SearchResultsPath))).out == t.out + [DoneChunk]
  {
  }
}
