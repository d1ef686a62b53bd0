/** The older Doubao controller's response handling: the `{code, msg, data}`
    envelope check, the search references pulled out of an event, the
    non-streaming assembler (`receiveStream`, a promise settled by the first
    of: a finishing event, a failing event, the stream closing or erroring)
    and the streaming transcoder (`createTransStream`, which writes
    OpenAI-style chunks and ends with a single `[DONE]`), plus the
    `Bearer a,b,c` token split. Events arrive already cut by the SSE parser;
    `JSON.parse` is the parameter `parse` (`None` when it throws). */
module DoubaoLegacy {
  import opened Wrappers
  import opened Text
  import opened Json
  import Seqs

  type Parser = string -> Option<Json>

  const FailedPrefix: string := "[请求doubao失败]: "
  const InvalidPrefix: string := "Stream response invalid: "
  const UnknownError: string := "未知错误"

  // ---------------------------------------------------------------------------
  // checkResult

  /** A response body `{code, msg, data}` as the service sends it. */
  function Envelope(code: int, msg: string, data: Json): Json {
    JObj([Field("code", JNum(code)), Field("msg", JStr(msg)), Field("data", data)])
  }

  /** `checkResult`: an empty body is `null`; a body without a numeric `code`
      is passed through whole; code 0 yields `data` (`None` when absent);
      any other code fails with the service's `msg`. */
  function CheckResult(body: Option<Json>): (r: Result<Option<Json>, string>)
    ensures r.Err? ==> StartsWith(r.error, FailedPrefix)
  {
    if !JsTruthy(body) then Ok(Some(JNull))
    else
      var code := JsOpt(body, "code");
      if !(code.Some? && code.value.JNum?) then Ok(body)
      else if code.value.n == 0 then Ok(JsOpt(body, "data"))
      else
        AppendKeepsPrefix(FailedPrefix, FailedPrefix, JsToString(JsOpt(body, "msg")));
        Err(FailedPrefix + JsToString(JsOpt(body, "msg")))
  }

  /** The envelope round trip: code 0 gives back the data, any other code
      fails carrying the message. */
  lemma CheckEnvelope(code: int, msg: string, data: Json)
    ensures CheckResult(Some(Envelope(code, msg, data)))
         == if code == 0 then Ok(Some(data)) else Err(FailedPrefix + msg)
  {
    var fields := [Field("code", JNum(code)), Field("msg", JStr(msg)), Field("data", data)];
    assert Envelope(code, msg, data) == JObj(fields);
    assert Lookup(fields, "code") == Some(JNum(code));
    assert "code"[0] != "msg"[0] && "code"[0] != "data"[0] && "msg"[0] != "data"[0];
    assert fields[1..] == [Field("msg", JStr(msg)), Field("data", data)];
    assert fields[1..][1..] == [Field("data", data)];
    assert Lookup(fields, "msg") == Some(JStr(msg));
    assert Lookup(fields[1..][1..], "data") == Some(data);
    assert Lookup(fields[1..], "data") == Some(data);
    assert Lookup(fields, "data") == Some(data);
  }

  /** Bodies the service did not wrap (no numeric `code`) pass through. */
  lemma CheckUnwrapped(body: Json)
    requires JsTruthy(Some(body))
    requires body.JObj? ==> !HasKey(body.fields, "code")
    ensures CheckResult(Some(body)) == Ok(Some(body))
  {
  }

  // ---------------------------------------------------------------------------
  // extractReferences

  /** One search reference; JSON values are kept as found (only `url` is
      required to be truthy). `index` is `None` when neither `index` nor
      `original_doc_rank` is present. */
  datatype Reference = Reference(title: Json, url: Json, snippet: Json, index: Option<Json>,
                                 sitename: Json, publishTime: Json)

  /** JS `a || b`. */
  function Or(a: Option<Json>, b: Json): (r: Json)
    ensures JsTruthy(a) ==> Some(r) == a
    ensures !JsTruthy(a) ==> r == b
  {
    if JsTruthy(a) then a.value else b
  }

  /** `Array.isArray(j.key) ? j.key : []` for a non-null `j`. */
  function ArrayField(j: Json, key: string): seq<Json> {
    match JsOpt(Some(j), key)
    case Some(JArr(items)) => items
    case _ => []
  }

  /** A falsy text field defaults to the empty string. */
  predicate Defaulted(j: Json) {
    JsTruthy(Some(j)) || j == JStr("")
  }

  /** What every stored reference looks like: a truthy url, the text fields
      defaulted. */
  predicate GoodRef(r: Reference) {
    JsTruthy(Some(r.url)) && Defaulted(r.title) && Defaulted(r.snippet)
    && Defaulted(r.sitename) && Defaulted(r.publishTime)
  }

  /** Some stored reference has a url `===` to `url`. Urls that are arrays or
      objects never compare equal. */
  predicate HasUrl(refs: seq<Reference>, url: Json) {
    exists k :: 0 <= k < |refs| && JsStrictEq(Some(refs[k].url), Some(url))
  }

  /** The invariant of every reference list: well-formed entries, no two with
      `===` urls. */
  predicate GoodRefs(refs: seq<Reference>) {
    (forall k :: 0 <= k < |refs| ==> GoodRef(refs[k]))
    && forall i, j :: 0 <= i < j < |refs| ==> !JsStrictEq(Some(refs[i].url), Some(refs[j].url))
  }

  /** The reference a text card describes: `None` for a falsy or non-object
      card or a falsy url; `index` falls back to `original_doc_rank` only
      when `index` is absent. */
  function CardReference(card: Option<Json>): (r: Option<Reference>)
    ensures r.Some? ==> GoodRef(r.value)
    ensures r.Some? <==> JsIsObject(card) && JsTruthy(JsOpt(card, "url"))
  {
    if !JsTruthy(card) || !JsIsObject(card) then None
    else
      var url := Or(JsOpt(card, "url"), JStr(""));
      if !JsTruthy(Some(url)) then None
      else
        var index := if JsOpt(card, "index").Some? then JsOpt(card, "index") else JsOpt(card, "original_doc_rank");
        Some(Reference(Or(JsOpt(card, "title"), JStr("")), url, Or(JsOpt(card, "summary"), JStr("")), index,
                       Or(JsOpt(card, "sitename"), JStr("")), Or(JsOpt(card, "publish_time_second"), JStr(""))))
  }

  /** `references.push` guarded by `some(r => r.url === ref.url)`. */
  function Insert(refs: seq<Reference>, ref: Reference): (r: seq<Reference>)
    requires GoodRef(ref)
    ensures refs <= r && (r == refs || r == refs + [ref])
    ensures HasUrl(r, ref.url) || ref in r
    ensures GoodRefs(refs) ==> GoodRefs(r)
  {
    if HasUrl(refs, ref.url) then refs
    else
      var r := refs + [ref];
      assert r[|refs|] == ref;
      r
  }

  /** The receiving side's merge of one event's references into the ones
      collected so far. */
  function Merge(all: seq<Reference>, found: seq<Reference>): (r: seq<Reference>)
    requires forall k :: 0 <= k < |found| ==> GoodRef(found[k])
    decreases |found|
    ensures all <= r
    ensures GoodRefs(all) ==> GoodRefs(r)
  {
    if |found| == 0 then all else Merge(Insert(all, found[0]), found[1..])
  }

  /** Nothing found is lost: each reference of the event is in the merge, or
      a reference with a `===` url already is. */
  lemma {:induction false} MergeCovers(all: seq<Reference>, found: seq<Reference>)
    requires forall k :: 0 <= k < |found| ==> GoodRef(found[k])
    ensures forall k :: 0 <= k < |found| ==> found[k] in Merge(all, found) || HasUrl(Merge(all, found), found[k].url)
    decreases |found|
  {
    if |found| > 0 {
      var next := Insert(all, found[0]);
      MergeCovers(next, found[1..]);
      var r := Merge(all, found);
      assert r == Merge(next, found[1..]);
      forall k | 0 <= k < |found|
        ensures found[k] in r || HasUrl(r, found[k].url)
      {
        if k == 0 {
          HasUrlGrows(next, r, found[0].url);
        } else {
          assert found[k] == found[1..][k - 1];
        }
      }
    }
  }

  lemma HasUrlGrows(a: seq<Reference>, b: seq<Reference>, url: Json)
    requires a <= b
    ensures HasUrl(a, url) ==> HasUrl(b, url)
    ensures forall x :: x in a ==> x in b
  {
    if HasUrl(a, url) {
      var k :| 0 <= k < |a| && JsStrictEq(Some(a[k].url), Some(url));
      assert b[k] == a[k];
    }
    forall x | x in a ensures x in b {
      var k :| 0 <= k < |a| && a[k] == x;
      assert b[k] == x;
    }
  }

  /** The scan's state: the references pushed so far, and whether an
      exception has cut the scan short (pushed references stay pushed). */
  datatype Scan = Scan(refs: seq<Reference>, thrown: bool)

  /** `addReferenceFromTextCard`. The push comes before the log line that
      calls `title.substring`, so a truthy title that is not a string throws
      after the reference is stored. */
  function AddCard(scan: Scan, card: Option<Json>): (r: Scan)
    ensures scan.thrown ==> r == scan
    ensures scan.refs <= r.refs
    ensures GoodRefs(scan.refs) ==> GoodRefs(r.refs)
    ensures !scan.thrown && CardReference(card).Some? && !HasUrl(scan.refs, CardReference(card).value.url)
            ==> r.refs == scan.refs + [CardReference(card).value]
    ensures !scan.thrown && (CardReference(card).None? || HasUrl(scan.refs, CardReference(card).value.url))
            ==> r == scan
  {
    if scan.thrown then scan
    else
      match CardReference(card)
      case None => scan
      case Some(ref) =>
        if HasUrl(scan.refs, ref.url) then scan
        else Scan(Insert(scan.refs, ref), !ref.title.JStr?)
  }

  /** The cards `x?.text_card` of a list of items, in order. */
  function AddCards(scan: Scan, items: seq<Json>): (r: Scan)
    decreases |items|
    ensures scan.thrown ==> r == scan
    ensures scan.refs <= r.refs
    ensures GoodRefs(scan.refs) ==> GoodRefs(r.refs)
  {
    if |items| == 0 then scan
    else AddCards(AddCard(scan, JsOpt(Some(items[0]), "text_card")), items[1..])
  }

  /** `extractFromSearchResult`: the cards of an object's `results` array. */
  function FromSearchResult(scan: Scan, result: Option<Json>): (r: Scan)
    ensures scan.thrown ==> r == scan
    ensures scan.refs <= r.refs
    ensures GoodRefs(scan.refs) ==> GoodRefs(r.refs)
  {
    if scan.thrown || !JsTruthy(result) || !JsIsObject(result) then scan
    else AddCards(scan, ArrayField(result.value, "results"))
  }

  /** The search result inside a block: `(block.content || {}).search_query_result_block || {}`. */
  function BlockResult(block: Json): Json {
    var content := Or(JsOpt(Some(block), "content"), JObj([]));
    Or(JsOpt(Some(content), "search_query_result_block"), JObj([]))
  }

  /** A loop over content blocks: reading `block_type` of `null` throws;
      blocks of type 10025 carry a search result. */
  function FromBlocks(scan: Scan, blocks: seq<Json>): (r: Scan)
    decreases |blocks|
    ensures scan.thrown ==> r == scan
    ensures scan.refs <= r.refs
    ensures GoodRefs(scan.refs) ==> GoodRefs(r.refs)
  {
    if scan.thrown || |blocks| == 0 then scan
    else if blocks[0] == JNull then Scan(scan.refs, true)
    else if JsOpt(Some(blocks[0]), "block_type") == Some(JNum(10025)) then
      FromBlocks(FromSearchResult(scan, Some(BlockResult(blocks[0]))), blocks[1..])
    else FromBlocks(scan, blocks[1..])
  }

  /** The `patch_op` loop: ops of `patch_type` 1 have their
      `patch_value?.content_block || []` iterated, which throws when it is
      neither an array nor a string. */
  function FromPatchOps(scan: Scan, ops: seq<Json>): (r: Scan)
    decreases |ops|
    ensures scan.thrown ==> r == scan
    ensures scan.refs <= r.refs
    ensures GoodRefs(scan.refs) ==> GoodRefs(r.refs)
  {
    if scan.thrown || |ops| == 0 then scan
    else if ops[0] == JNull then Scan(scan.refs, true)
    else if JsOpt(Some(ops[0]), "patch_type") == Some(JNum(1)) then
      match JsIter(Some(Or(JsOpt(JsOpt(Some(ops[0]), "patch_value"), "content_block"), JArr([]))))
      case Err(_) => Scan(scan.refs, true)
      case Ok(blocks) => FromPatchOps(FromBlocks(scan, blocks), ops[1..])
    else FromPatchOps(scan, ops[1..])
  }

  /** The inner `try` over `message.content`: a string is parsed (a parse
      failure throws), an object is used as is; its `search_references`
      cards are added, and for content type 10025 the content is itself a
      search result. Whatever throws here is caught right away. */
  function FromMessageContent(refs: seq<Reference>, message: Json, parse: Parser): (r: Scan)
    ensures refs <= r.refs
    ensures GoodRefs(refs) ==> GoodRefs(r.refs)
  {
    var content := JsOpt(Some(message), "content");
    if content.Some? && content.value.JStr? && parse(content.value.s).None? then Scan(refs, true)
    else
      var data := if content.Some? && content.value.JStr? then parse(content.value.s)
                  else if JsIsObject(content) then content else None;
      if !JsTruthy(data) || !JsIsObject(data) then Scan(refs, false)
      else
        var s := AddCards(Scan(refs, false), ArrayField(data.value, "search_references"));
        if JsOpt(Some(message), "content_type") == Some(JNum(10025)) then FromSearchResult(s, data) else s
  }

  /** `extractReferences`: the references of one event, in the order found,
      deduplicated by `===` on the url. An exception outside the inner `try`
      ends the scan with what was collected so far. */
  function ExtractReferences(event: Json, parse: Parser): (r: seq<Reference>)
    ensures GoodRefs(r)
  {
    if event == JNull then []
    else
      var s := FromPatchOps(Scan([], false), ArrayField(event, "patch_op"));
      var message := JsOpt(Some(event), "message");
      if s.thrown || !JsTruthy(message) then s.refs
      else
        var inner := FromMessageContent(s.refs, message.value, parse);
        FromBlocks(Scan(inner.refs, false), ArrayField(message.value, "content_block")).refs
  }

  // ---------------------------------------------------------------------------
  // Events, failures and the parts the two consumers share

  /** What the SSE parser hands over: an event's data, or a `retry` interval
      (which both consumers ignore). */
  datatype SseEvent = DataEvent(data: string) | RetryEvent

  /** Why a response failed: an error with this message, a `TypeError`
      raised by reading a property of `null` (its text is the engine's), or
      the upstream stream's own `error`. */
  datatype Failure = Failed(text: string) | EngineTypeError | StreamFailure

  /** `[10000, 2001, 2008].includes(content_type)`. */
  predicate TextContentType(ct: Option<Json>) {
    ct == Some(JNum(10000)) || ct == Some(JNum(2001)) || ct == Some(JNum(2008))
  }

  /** The message of a 2005 error event:
      `error_detail?.message || message || "未知错误"`, as text. */
  function ErrorEventMessage(e: Json): string {
    JsToString(Some(Or(JsOpt(JsOpt(Some(e), "error_detail"), "message"),
                       Or(JsOpt(Some(e), "message"), JStr(UnknownError)))))
  }

  /** `contentData?.text || ""` followed by `contentText.substring(...)`:
      the text of the content when it is a non-empty string; a truthy value
      of another type throws (and is caught), a falsy one gives no text. */
  function ContentText(data: Option<Json>): (r: Option<string>)
    ensures r.Some? ==> |r.value| > 0
  {
    match Or(JsOpt(data, "text"), JStr(""))
    case JStr(t) => if |t| > 0 then Some(t) else None
    case _ => None
  }

  /** Drops one `\n` at the end (`replace(/\n$/, "")`). */
  function StripNewline(s: string): (r: string)
    ensures r <= s && |s| - 1 <= |r|
  {
    if |s| > 0 && s[|s| - 1] == '\n' then s[..|s| - 1] else s
  }

  /** Exactly one trailing newline goes, and text without one is kept. */
  lemma StripNewlineOnce(s: string)
    ensures StripNewline(s + "\n") == s
    ensures StripNewline(s + "\n\n") == s + "\n"
    ensures (|s| == 0 || s[|s| - 1] != '\n') ==> StripNewline(s) == s
  {
    assert (s + "\n")[..|s|] == s;
    assert (s + "\n\n")[..|s| + 1] == s + "\n";
  }

  // ---------------------------------------------------------------------------
  // receiveStream

  /** The answer the promise resolves with. `references` is empty when the
      answer carries none (the key is only set when there are some). */
  datatype Answer = Answer(id: Json, content: string, references: seq<Reference>)

  /** The state of the assembly: the conversation id (`""` until one is
      seen), the text so far and the references collected. */
  datatype Receiving = Receiving(id: Json, content: string, refs: seq<Reference>)

  /** A promise is pending with some state, or settled for good. */
  datatype Outcome = Pending(state: Receiving) | Resolved(answer: Answer) | Rejected(failure: Failure)

  const Initial: Receiving := Receiving(JStr(""), "", [])

  predicate GoodState(st: Receiving) {
    GoodRefs(st.refs)
  }

  /** Every way the promise can stand keeps the reference invariant. */
  predicate GoodOutcome(o: Outcome) {
    match o
    case Pending(st) => GoodState(st)
    case Resolved(a) => GoodRefs(a.references)
    case Rejected(_) => true
  }

  /** The end of the stream by event 2003 or `is_finish`: the trailing
      newline is stripped and the references attached. */
  function Finish(st: Receiving): (a: Answer)
    ensures a.id == st.id && a.references == st.refs
    ensures a.content + "\n" == st.content || a.content == st.content
  {
    Answer(st.id, StripNewline(st.content), st.refs)
  }

  function RequestFailed(text: string): Failure {
    Failed(FailedPrefix + text)
  }

  /** Event 2002: a parsed `conversation_id` that is truthy becomes the id
      (replacing any earlier one); `null` event data throws. */
  function StartEvent(st: Receiving, payload: Option<Json>): (r: Outcome)
    ensures r.Pending? ==> r.state.content == st.content && r.state.refs == st.refs
  {
    match payload
    case None => Pending(st)
    case Some(start) =>
      if start == JNull then Rejected(EngineTypeError)
      else
        var cid := JsOpt(Some(start), "conversation_id");
        if JsTruthy(cid) then Pending(st.(id := cid.value)) else Pending(st)
  }

  /** Event 2005: a truthy `code` in the parsed data rejects; anything else
      is ignored. */
  function ErrorEvent(st: Receiving, payload: Option<Json>): (r: Outcome)
    ensures r.Pending? ==> r.state == st
  {
    match payload
    case None => Pending(st)
    case Some(e) =>
      if e == JNull then Rejected(EngineTypeError)
      else
        var code := JsOpt(Some(e), "code");
        if JsTruthy(code) then Rejected(RequestFailed(ErrorEventMessage(e) + " (code: " + JsToString(code) + ")"))
        else Pending(st)
  }

  /** The text a 2001 message adds: string content is parsed first, and a
      parse failure adds nothing. */
  function ReceivedText(message: Json, parse: Parser): (r: Option<string>)
    ensures r.Some? ==> |r.value| > 0
  {
    var content := JsOpt(Some(message), "content");
    if content.Some? && content.value.JStr? then
      match parse(content.value.s)
      case None => None
      case Some(data) => ContentText(Some(data))
    else ContentText(content)
  }

  /** The text a 2001 message that does not finish adds to the answer: the
      received text of a truthy message of a text content type, else
      nothing. */
  function AddedText(result: Json, parse: Parser): string {
    var message := JsOpt(Some(result), "message");
    if JsTruthy(message) && TextContentType(JsOpt(message, "content_type")) then
      match ReceivedText(message.value, parse)
      case Some(t) => t
      case None => ""
    else ""
  }

  /** Event 2001 with parsed data `result`: its references are merged in; a
      truthy `is_finish` ends the answer; otherwise the first truthy
      `conversation_id` becomes the id and a message of a text content type
      contributes its text. */
  function MessageEvent(st: Receiving, result: Json, parse: Parser): (r: Outcome)
    ensures GoodState(st) ==> GoodOutcome(r)
    ensures r.Pending? ==> st.content <= r.state.content
    ensures result != JNull && !JsTruthy(JsOpt(Some(result), "is_finish")) ==>
      r.Pending? && r.state.content == st.content + AddedText(result, parse)
      && r.state.refs == Merge(st.refs, ExtractReferences(result, parse))
    ensures result != JNull && JsTruthy(JsOpt(Some(result), "is_finish")) ==>
      r == Resolved(Finish(st.(refs := Merge(st.refs, ExtractReferences(result, parse)))))
  {
    if result == JNull then Rejected(EngineTypeError)
    else
      var st1 := st.(refs := Merge(st.refs, ExtractReferences(result, parse)));
      if JsTruthy(JsOpt(Some(result), "is_finish")) then Resolved(Finish(st1))
      else
        var cid := JsOpt(Some(result), "conversation_id");
        var st2 := if !JsTruthy(Some(st1.id)) && JsTruthy(cid) then st1.(id := cid.value) else st1;
        var message := JsOpt(Some(result), "message");
        if !JsTruthy(message) || !TextContentType(JsOpt(message, "content_type")) then Pending(st2)
        else
          match ReceivedText(message.value, parse)
          case None => Pending(st2)
          case Some(t) => Pending(st2.(content := st2.content + t))
  }

  /** One event. Event types compare with loose `==`, so `"2003"` ends the
      answer as `2003` does. A truthy `code` on the event rejects before the
      type is looked at. */
  function ReceiveStep(st: Receiving, ev: SseEvent, parse: Parser): (r: Outcome)
    ensures GoodState(st) ==> GoodOutcome(r)
    ensures r.Pending? ==> st.content <= r.state.content
  {
    match ev
    case RetryEvent => Pending(st)
    case DataEvent(data) =>
      match parse(data)
      case None => Rejected(Failed(InvalidPrefix + data))
      case Some(raw) =>
        if raw == JNull then Rejected(EngineTypeError)
        else
          var code := JsOpt(Some(raw), "code");
          if JsTruthy(code) then
            Rejected(RequestFailed(JsToString(code) + "-" + JsToString(JsOpt(Some(raw), "message"))))
          else
            var kind := JsOpt(Some(raw), "event_type");
            var payload := parse(JsToString(JsOpt(Some(raw), "event_data")));
            if JsLooseEqNum(kind, 2002) then StartEvent(st, payload)
            else if JsLooseEqNum(kind, 2003) then Resolved(Finish(st))
            else if JsLooseEqNum(kind, 2005) then ErrorEvent(st, payload)
            else if !JsLooseEqNum(kind, 2001) then Pending(st)
            else
              match payload
              case None => Rejected(Failed(InvalidPrefix + JsToString(JsOpt(Some(raw), "event_data"))))
              case Some(result) => MessageEvent(st, result, parse)
  }

  /** The events in order until the promise settles; later events change
      nothing. */
  function Run(st: Receiving, events: seq<SseEvent>, parse: Parser): (r: Outcome)
    decreases |events|
    ensures GoodState(st) ==> GoodOutcome(r)
    ensures r.Pending? ==> st.content <= r.state.content
  {
    if |events| == 0 then Pending(st)
    else
      match ReceiveStep(st, events[0], parse)
      case Pending(next) => Run(next, events[1..], parse)
      case settled => settled
  }

  /** How the upstream stream ended after its last event. */
  datatype Ending = Closed | Errored

  /** `receiveStream`: the answer, or why there is none. Closing before a
      finishing event resolves with the text as it stands: no newline is
      stripped and no references are attached. */
  function ReceiveStream(events: seq<SseEvent>, ending: Ending, parse: Parser): (r: Outcome)
    ensures !r.Pending?
    ensures GoodOutcome(r)
  {
    match Run(Initial, events, parse)
    case Pending(st) =>
      if ending == Closed then Resolved(Answer(st.id, st.content, [])) else Rejected(StreamFailure)
    case settled => settled
  }

  /** Running two stretches of events is running them one after the other,
      unless the first stretch settled the promise. */
  lemma {:induction false} RunAppend(st: Receiving, a: seq<SseEvent>, b: seq<SseEvent>, parse: Parser)
    ensures Run(st, a + b, parse)
         == if Run(st, a, parse).Pending? then Run(Run(st, a, parse).state, b, parse) else Run(st, a, parse)
    decreases |a|
  {
    if |a| == 0 {
      assert a + b == b;
    } else {
      assert (a + b)[0] == a[0];
      assert (a + b)[1..] == a[1..] + b;
      match ReceiveStep(st, a[0], parse)
      case Pending(next) => RunAppend(next, a[1..], b, parse);
      case _ =>
    }
  }

  /** Once settled, the promise ignores every later event and the stream's
      end. */
  lemma SettledIgnoresRest(a: seq<SseEvent>, b: seq<SseEvent>, ending: Ending, parse: Parser)
    requires !Run(Initial, a, parse).Pending?
    ensures ReceiveStream(a + b, ending, parse) == Run(Initial, a, parse)
  {
    RunAppend(Initial, a, b, parse);
  }

  /** An event carrying a truthy `code` rejects with that code and message,
      whatever its type. */
  lemma CodeRejects(st: Receiving, data: string, raw: Json, parse: Parser)
    requires parse(data) == Some(raw) && raw.JObj?
    requires JsTruthy(Lookup(raw.fields, "code"))
    ensures ReceiveStep(st, DataEvent(data), parse)
         == Rejected(RequestFailed(JsToString(Lookup(raw.fields, "code")) + "-" + JsToString(Lookup(raw.fields, "message"))))
  {
  }

  /** Event 2003, as a number or as its decimal string, ends the answer with
      one trailing newline stripped and the references attached. */
  lemma EndEventFinishes(st: Receiving, data: string, raw: Json, parse: Parser)
    requires parse(data) == Some(raw) && raw.JObj? && !JsTruthy(Lookup(raw.fields, "code"))
    requires Lookup(raw.fields, "event_type") in {Some(JNum(2003)), Some(JStr("2003"))}
    ensures ReceiveStep(st, DataEvent(data), parse)
         == Resolved(Answer(st.id, StripNewline(st.content), st.refs))
  {
    EndKind(Lookup(raw.fields, "event_type"));
  }

  lemma EndKind(kind: Option<Json>)
    requires kind in {Some(JNum(2003)), Some(JStr("2003"))}
    ensures JsLooseEqNum(kind, 2003) && !JsLooseEqNum(kind, 2002)
  {
    if kind == Some(JStr("2003")) {
      assert AllDigits("2003");
      assert DigitsValue("2003") == 2003 by {
        assert "2003"[..3] == "200" && "200"[..2] == "20" && "20"[..1] == "2" && "2"[..0] == "";
      }
    }
    LooseKindExcludes(kind, 2003, 2002);
  }

  /** A value loosely equal to one number is loosely equal to no other. */
  lemma LooseKindExcludes(kind: Option<Json>, n: int, m: int)
    requires JsLooseEqNum(kind, n) && m != n
    ensures !JsLooseEqNum(kind, m)
  {
  }

  /** An event of type 2001 without a truthy `code` is handled by its
      parsed data. */
  lemma MessageEventDispatch(st: Receiving, data: string, raw: Json, result: Json, parse: Parser)
    requires parse(data) == Some(raw) && raw.JObj? && !JsTruthy(Lookup(raw.fields, "code"))
    requires Lookup(raw.fields, "event_type") == Some(JNum(2001))
    requires parse(JsToString(Lookup(raw.fields, "event_data"))) == Some(result)
    ensures ReceiveStep(st, DataEvent(data), parse) == MessageEvent(st, result, parse)
  {
    MessageKind(JsOpt(Some(raw), "event_type"));
  }

  lemma MessageKind(kind: Option<Json>)
    requires kind == Some(JNum(2001))
    ensures JsLooseEqNum(kind, 2001)
    ensures !JsLooseEqNum(kind, 2002) && !JsLooseEqNum(kind, 2003) && !JsLooseEqNum(kind, 2005)
  {
  }

  /** A message whose content type is not a text type adds no text. */
  lemma NonTextMessageKeepsContent(st: Receiving, result: Json, parse: Parser)
    requires result.JObj? && !JsTruthy(Lookup(result.fields, "is_finish"))
    requires !TextContentType(JsOpt(Lookup(result.fields, "message"), "content_type"))
    ensures MessageEvent(st, result, parse).Pending?
    ensures MessageEvent(st, result, parse).state.content == st.content
  {
  }

  /** The parsed `event_data` of a 2001 event (numeric type, no truthy
      `code`) whose data is not `null` and does not finish the answer. */
  function PlainMessage(ev: SseEvent, parse: Parser): (r: Option<Json>)
    ensures r.Some? ==> r.value != JNull && !JsTruthy(JsOpt(Some(r.value), "is_finish"))
  {
    match ev
    case RetryEvent => None
    case DataEvent(data) =>
      match parse(data)
      case None => None
      case Some(raw) =>
        if !raw.JObj? || JsTruthy(Lookup(raw.fields, "code")) || Lookup(raw.fields, "event_type") != Some(JNum(2001)) then None
        else
          match parse(JsToString(Lookup(raw.fields, "event_data")))
          case None => None
          case Some(result) =>
            if result == JNull || JsTruthy(JsOpt(Some(result), "is_finish")) then None else Some(result)
  }

  /** Events that only carry text: `retry` intervals and plain 2001 messages. */
  predicate Plain(ev: SseEvent, parse: Parser) {
    ev.RetryEvent? || PlainMessage(ev, parse).Some?
  }

  /** Every event of the run is plain. */
  predicate AllPlain(events: seq<SseEvent>, parse: Parser) {
    |events| == 0 || (Plain(events[0], parse) && AllPlain(events[1..], parse))
  }

  /** The text the assembler takes from one plain event. */
  function EventText(ev: SseEvent, parse: Parser): string
    requires Plain(ev, parse)
  {
    if ev.RetryEvent? then "" else AddedText(PlainMessage(ev, parse).value, parse)
  }

  /** The text the assembler takes from a run of plain events. */
  function ReceivedTexts(events: seq<SseEvent>, parse: Parser): string
    requires AllPlain(events, parse)
  {
    if |events| == 0 then "" else EventText(events[0], parse) + ReceivedTexts(events[1..], parse)
  }

  /** A plain event keeps the promise pending and appends its text. */
  lemma PlainStep(st: Receiving, ev: SseEvent, parse: Parser)
    requires Plain(ev, parse)
    ensures ReceiveStep(st, ev, parse).Pending?
    ensures ReceiveStep(st, ev, parse).state.content == st.content + EventText(ev, parse)
  {
    if ev.DataEvent? {
      var raw := parse(ev.data).value;
      MessageEventDispatch(st, ev.data, raw, PlainMessage(ev, parse).value, parse);
    }
  }

  /** A run of plain events appends exactly their texts, in order. */
  lemma {:induction false} RunPlain(st: Receiving, events: seq<SseEvent>, parse: Parser)
    requires AllPlain(events, parse)
    ensures Run(st, events, parse).Pending?
    ensures Run(st, events, parse).state.content == st.content + ReceivedTexts(events, parse)
    decreases |events|
  {
    if |events| > 0 {
      PlainStep(st, events[0], parse);
      var next := ReceiveStep(st, events[0], parse).state;
      assert Run(st, events, parse) == Run(next, events[1..], parse);
      RunPlain(next, events[1..], parse);
      var t := EventText(events[0], parse);
      var rest := ReceivedTexts(events[1..], parse);
      assert ReceivedTexts(events, parse) == t + rest;
      assert next.content == st.content + t;
      assert st.content + t + rest == st.content + (t + rest);
    }
  }

  /** Plain messages followed by event 2003 resolve with their texts
      concatenated, one trailing newline stripped, however the stream ends. */
  lemma ReceiveStreamText(events: seq<SseEvent>, data: string, raw: Json, ending: Ending, parse: Parser)
    requires AllPlain(events, parse)
    requires parse(data) == Some(raw) && raw.JObj? && !JsTruthy(Lookup(raw.fields, "code"))
    requires Lookup(raw.fields, "event_type") in {Some(JNum(2003)), Some(JStr("2003"))}
    ensures ReceiveStream(events + [DataEvent(data)], ending, parse).Resolved?
    ensures ReceiveStream(events + [DataEvent(data)], ending, parse).answer.content
         == StripNewline(ReceivedTexts(events, parse))
  {
    RunPlain(Initial, events, parse);
    ResolvedAfter(events, data, raw, ending, parse);
  }

  /** Event 2003 after a run that left the promise pending resolves it. */
  lemma ResolvedAfter(events: seq<SseEvent>, data: string, raw: Json, ending: Ending, parse: Parser)
    requires Run(Initial, events, parse).Pending?
    requires parse(data) == Some(raw) && raw.JObj? && !JsTruthy(Lookup(raw.fields, "code"))
    requires Lookup(raw.fields, "event_type") in {Some(JNum(2003)), Some(JStr("2003"))}
    ensures ReceiveStream(events + [DataEvent(data)], ending, parse)
         == Resolved(Finish(Run(Initial, events, parse).state))
  {
    RunAppend(Initial, events, [DataEvent(data)], parse);
    var st := Run(Initial, events, parse).state;
    RunEndEvent(st, data, raw, parse);
  }

  lemma RunEndEvent(st: Receiving, data: string, raw: Json, parse: Parser)
    requires parse(data) == Some(raw) && raw.JObj? && !JsTruthy(Lookup(raw.fields, "code"))
    requires Lookup(raw.fields, "event_type") in {Some(JNum(2003)), Some(JStr("2003"))}
    ensures Run(st, [DataEvent(data)], parse) == Resolved(Finish(st))
  {
    EndEventFinishes(st, data, raw, parse);
  }

  /** Plain messages and then the end of the stream resolve with their texts
      concatenated, as they stand. */
  lemma ReceiveStreamClosed(events: seq<SseEvent>, parse: Parser)
    requires AllPlain(events, parse)
    ensures ReceiveStream(events, Closed, parse).Resolved?
    ensures ReceiveStream(events, Closed, parse).answer.content == ReceivedTexts(events, parse)
  {
    RunPlain(Initial, events, parse);
  }

  // ---------------------------------------------------------------------------
  // createTransStream

  /** The chunks written to the client, by kind. Ids are the conversation id
      at the time of writing (`None` once it has been set to an undefined
      `conversation_id`). `references` is empty when the chunk carries none.
      The error chunk's text is `❌ ` followed by the failure's message. */
  datatype Chunk =
    | RoleChunk(id: Option<Json>)
    | TextChunk(id: Option<Json>, text: string)
    | ErrorChunk(id: Option<Json>, failure: Failure)
    | StopChunk(id: Option<Json>, references: seq<Reference>)
    | DoneChunk

  /** The transcoder's state: conversation id, references, whether it has
      ended, what it has written, and the id handed to the end callback
      (`None` while it has not been called). */
  datatype Transcoder = Transcoder(convId: Option<Json>, refs: seq<Reference>, ended: bool,
                                   out: seq<Chunk>, finished: Option<Json>)

  const FirstChunk: Chunk := RoleChunk(Some(JStr("")))
  const Opened: Transcoder := Transcoder(Some(JStr("")), [], false, [FirstChunk], None)

  predicate NoDone(cs: seq<Chunk>) {
    forall k :: 0 <= k < |cs| ==> cs[k] != DoneChunk
  }

  /** The shape of the output at every point: the role chunk first; while
      open, no `[DONE]`; once ended, exactly one `[DONE]`, written last. The
      end callback, if called, got a truthy id. */
  predicate Shaped(t: Transcoder) {
    |t.out| >= 1 && t.out[0] == FirstChunk && GoodRefs(t.refs)
    && (t.finished.Some? ==> JsTruthy(t.finished))
    && if t.ended then t.out[|t.out| - 1] == DoneChunk && NoDone(t.out[..|t.out| - 1])
       else NoDone(t.out)
  }

  /** Ending adds the chunks `more`, the last of them the only `[DONE]`. */
  lemma EndShape(t: Transcoder, more: seq<Chunk>)
    requires Shaped(t) && !t.ended
    requires |more| >= 1 && more[|more| - 1] == DoneChunk && NoDone(more[..|more| - 1])
    ensures Shaped(t.(ended := true, out := t.out + more))
  {
    var out := t.out + more;
    assert out[0] == FirstChunk;
    assert out[..|out| - 1] == t.out + more[..|more| - 1];
  }

  /** Writing a chunk that is not `[DONE]` to an open stream keeps its
      shape. */
  lemma WriteShape(t: Transcoder, c: Chunk)
    requires Shaped(t) && !t.ended && c != DoneChunk
    ensures Shaped(t.(out := t.out + [c]))
  {
    assert (t.out + [c])[0] == FirstChunk;
  }

  /** `safeEndDone`: `[DONE]` alone, once. */
  function SafeEnd(t: Transcoder): (r: Transcoder)
    requires Shaped(t)
    ensures Shaped(r) && r.ended
    ensures t.out <= r.out && r.finished == t.finished
  {
    if t.ended then t
    else
      EndShape(t, [DoneChunk]);
      t.(ended := true, out := t.out + [DoneChunk])
  }

  /** `endWithError`: an error chunk, a stop chunk with the references, then
      `[DONE]`, once. */
  function EndWithError(t: Transcoder, f: Failure): (r: Transcoder)
    requires Shaped(t)
    ensures Shaped(r) && r.ended
    ensures t.out <= r.out && r.convId == t.convId && r.finished == t.finished
  {
    if t.ended then t
    else
      var more := [ErrorChunk(t.convId, f), StopChunk(t.convId, t.refs), DoneChunk];
      assert more[..2] == [ErrorChunk(t.convId, f), StopChunk(t.convId, t.refs)];
      EndShape(t, more);
      t.(ended := true, out := t.out + more)
  }

  /** The normal end (event 2003 or `is_finish`): a stop chunk with the
      references, `[DONE]`, and the end callback when the id is truthy. */
  function Complete(t: Transcoder): (r: Transcoder)
    requires Shaped(t) && !t.ended
    ensures Shaped(r) && r.ended && t.out <= r.out && r.convId == t.convId
    ensures r.finished == if JsTruthy(t.convId) then t.convId else None
  {
    var more := [StopChunk(t.convId, t.refs), DoneChunk];
    assert more[..1] == [StopChunk(t.convId, t.refs)];
    EndShape(t, more);
    t.(ended := true, out := t.out + more, finished := if JsTruthy(t.convId) then t.convId else None)
  }

  /** Keeps the first truthy conversation id. */
  predicate KeepsId(t: Transcoder, r: Transcoder) {
    JsTruthy(t.convId) ==> r.convId == t.convId
  }

  /** Event 2002: the id is taken only while none is set. */
  function TransStart(t: Transcoder, payload: Option<Json>): (r: Transcoder)
    requires Shaped(t) && !t.ended
    ensures Shaped(r) && t.out <= r.out && KeepsId(t, r)
  {
    match payload
    case None => t
    case Some(start) =>
      if start == JNull then EndWithError(t, EngineTypeError)
      else
        var cid := JsOpt(Some(start), "conversation_id");
        if JsTruthy(cid) && !JsTruthy(t.convId) then t.(convId := cid) else t
  }

  /** Event 2005: a truthy `code` ends the stream with an error. */
  function TransError(t: Transcoder, payload: Option<Json>): (r: Transcoder)
    requires Shaped(t) && !t.ended
    ensures Shaped(r) && t.out <= r.out && r.convId == t.convId
  {
    match payload
    case None => t
    case Some(e) =>
      if e == JNull then EndWithError(t, EngineTypeError)
      else
        var code := JsOpt(Some(e), "code");
        if JsTruthy(code) then EndWithError(t, Failed(ErrorEventMessage(e) + " (code: " + JsToString(code) + ")"))
        else t
  }

  /** The text a 2001 message streams: string content that does not parse is
      taken as the text itself. */
  function StreamedText(message: Json, parse: Parser): (r: Option<string>)
    ensures r.Some? ==> |r.value| > 0
  {
    var content := JsOpt(Some(message), "content");
    if content.Some? && content.value.JStr? then
      match parse(content.value.s)
      case None => if |content.value.s| > 0 then Some(content.value.s) else None
      case Some(data) => ContentText(Some(data))
    else ContentText(content)
  }

  /** The text a 2001 message that does not finish streams to the client:
      none, or one non-empty piece from a truthy message of a text content
      type. */
  function StreamedAdded(result: Json, parse: Parser): (r: seq<string>)
    ensures |r| <= 1
  {
    var message := JsOpt(Some(result), "message");
    if JsTruthy(message) && TextContentType(JsOpt(message, "content_type")) then
      match StreamedText(message.value, parse)
      case Some(text) => [text]
      case None => []
    else []
  }

  /** One text chunk per piece of text, all with the id `id`. */
  function TextChunks(id: Option<Json>, texts: seq<string>): (r: seq<Chunk>)
    ensures |r| == |texts|
  {
    if |texts| == 0 then [] else [TextChunk(id, texts[0])] + TextChunks(id, texts[1..])
  }

  /** The texts of the text chunks among `cs`, in order. */
  function ChunkTexts(cs: seq<Chunk>): seq<string> {
    if |cs| == 0 then []
    else (if cs[0].TextChunk? then [cs[0].text] else []) + ChunkTexts(cs[1..])
  }

  lemma {:induction false} ChunkTextsAppend(a: seq<Chunk>, b: seq<Chunk>)
    ensures ChunkTexts(a + b) == ChunkTexts(a) + ChunkTexts(b)
    decreases |a|
  {
    if |a| == 0 {
      assert a + b == b;
    } else {
      assert (a + b)[0] == a[0];
      assert (a + b)[1..] == a[1..] + b;
      ChunkTextsAppend(a[1..], b);
      var h := if a[0].TextChunk? then [a[0].text] else [];
      assert h + (ChunkTexts(a[1..]) + ChunkTexts(b)) == h + ChunkTexts(a[1..]) + ChunkTexts(b);
    }
  }

  /** Text chunks give back the texts they were made of. */
  lemma {:induction false} ChunkTextsOfTextChunks(id: Option<Json>, texts: seq<string>)
    ensures ChunkTexts(TextChunks(id, texts)) == texts
    decreases |texts|
  {
    if |texts| > 0 {
      ChunkTextsOfTextChunks(id, texts[1..]);
      var rest := TextChunks(id, texts[1..]);
      var cs := [TextChunk(id, texts[0])] + rest;
      assert TextChunks(id, texts) == cs;
      assert cs[0] == TextChunk(id, texts[0]);
      assert cs[1..] == rest;
      assert ChunkTexts(cs) == [texts[0]] + ChunkTexts(rest);
      assert [texts[0]] + texts[1..] == texts;
    }
  }

  lemma {:induction false} TextChunksAppend(id: Option<Json>, a: seq<string>, b: seq<string>)
    ensures TextChunks(id, a + b) == TextChunks(id, a) + TextChunks(id, b)
    decreases |a|
  {
    if |a| == 0 {
      assert a + b == b;
    } else {
      assert (a + b)[0] == a[0];
      assert (a + b)[1..] == a[1..] + b;
      TextChunksAppend(id, a[1..], b);
      Seqs.Assoc([TextChunk(id, a[0])], TextChunks(id, a[1..]), TextChunks(id, b));
    }
  }

  /** Event 2001 with parsed data `result`. The id is copied from the data
      whenever the current one is falsy, before anything else; a `null`
      result throws. */
  function TransMessage(t: Transcoder, result: Json, parse: Parser): (r: Transcoder)
    requires Shaped(t) && !t.ended
    ensures Shaped(r) && t.out <= r.out && KeepsId(t, r)
    ensures result != JNull ==>
      r.convId == if JsTruthy(t.convId) then t.convId else JsOpt(Some(result), "conversation_id")
    ensures result != JNull && !JsTruthy(JsOpt(Some(result), "is_finish")) ==>
      !r.ended && r.out == t.out + TextChunks(r.convId, StreamedAdded(result, parse))
    ensures result != JNull && JsTruthy(JsOpt(Some(result), "is_finish")) ==>
      r.ended && r.out == t.out + [StopChunk(r.convId, r.refs), DoneChunk]
  {
    if result == JNull then EndWithError(t, EngineTypeError)
    else
      var t1 := if JsTruthy(t.convId) then t else t.(convId := JsOpt(Some(result), "conversation_id"));
      var t2 := t1.(refs := Merge(t1.refs, ExtractReferences(result, parse)));
      if JsTruthy(JsOpt(Some(result), "is_finish")) then Complete(t2)
      else
        var message := JsOpt(Some(result), "message");
        if !JsTruthy(message) || !TextContentType(JsOpt(message, "content_type")) then t2
        else
          match StreamedText(message.value, parse)
          case None => t2
          case Some(text) =>
            WriteShape(t2, TextChunk(t2.convId, text));
            assert TextChunks(t2.convId, [text]) == [TextChunk(t2.convId, text)];
            t2.(out := t2.out + [TextChunk(t2.convId, text)])
  }

  /** One event. Types 2002, 2003 and 2005 compare with `===`, 2001 with
      loose `!=`, so `"2001"` streams text while `"2003"` is skipped. An
      ended transcoder ignores everything. */
  function TransStep(t: Transcoder, ev: SseEvent, parse: Parser): (r: Transcoder)
    requires Shaped(t)
    ensures Shaped(r) && t.out <= r.out && KeepsId(t, r)
    ensures t.ended ==> r == t
  {
    if t.ended || ev.RetryEvent? then t
    else
      match parse(ev.data)
      case None => EndWithError(t, Failed(InvalidPrefix + ev.data))
      case Some(raw) =>
        if raw == JNull then EndWithError(t, EngineTypeError) else TransEvent(t, raw, parse)
  }

  /** A parsed, non-null event on an open stream. */
  function TransEvent(t: Transcoder, raw: Json, parse: Parser): (r: Transcoder)
    requires Shaped(t) && !t.ended && raw != JNull
    ensures Shaped(r) && t.out <= r.out && KeepsId(t, r)
  {
    var code := JsOpt(Some(raw), "code");
    if JsTruthy(code) then
      EndWithError(t, Failed(JsToString(code) + "-" + JsToString(JsOpt(Some(raw), "message"))))
    else
      TransKind(t, JsOpt(Some(raw), "event_type"), JsOpt(Some(raw), "event_data"), parse)
  }

  /** Dispatch on `event_type` for an event without a truthy `code`. */
  function TransKind(t: Transcoder, kind: Option<Json>, eventData: Option<Json>, parse: Parser): (r: Transcoder)
    requires Shaped(t) && !t.ended
    ensures Shaped(r) && t.out <= r.out && KeepsId(t, r)
  {
    var payload := parse(JsToString(eventData));
    if kind == Some(JNum(2002)) then TransStart(t, payload)
    else if kind == Some(JNum(2003)) then Complete(t)
    else if kind == Some(JNum(2005)) then TransError(t, payload)
    else if !JsLooseEqNum(kind, 2001) then t
    else
      match payload
      case None => EndWithError(t, Failed(InvalidPrefix + JsToString(eventData)))
      case Some(result) => TransMessage(t, result, parse)
  }

  /** The end event spelled as a string is not `=== 2003` and is loosely
      unequal to 2001, so the transcoder skips it (where the assembler
      finishes on it). */
  lemma TransSkipsStringEnd(t: Transcoder, data: string, raw: Json, parse: Parser)
    requires Shaped(t)
    requires parse(data) == Some(raw) && raw.JObj? && !JsTruthy(Lookup(raw.fields, "code"))
    requires Lookup(raw.fields, "event_type") == Some(JStr("2003"))
    ensures TransStep(t, DataEvent(data), parse) == t
  {
    if !t.ended {
      var kind := JsOpt(Some(raw), "event_type");
      EndKind(kind);
      LooseKindExcludes(kind, 2003, 2001);
      TransKindSkips(t, kind, JsOpt(Some(raw), "event_data"), parse);
    }
  }

  lemma TransKindSkips(t: Transcoder, kind: Option<Json>, eventData: Option<Json>, parse: Parser)
    requires Shaped(t) && !t.ended
    requires kind !in {Some(JNum(2002)), Some(JNum(2003)), Some(JNum(2005))} && !JsLooseEqNum(kind, 2001)
    ensures TransKind(t, kind, eventData, parse) == t
  {
  }

  /** An event with a truthy `code` ends an open stream with an error chunk
      carrying `code-message`, a stop chunk and `[DONE]`. */
  lemma TransCodeEnds(t: Transcoder, data: string, raw: Json, parse: Parser)
    requires Shaped(t) && !t.ended
    requires parse(data) == Some(raw) && raw.JObj? && JsTruthy(Lookup(raw.fields, "code"))
    ensures TransStep(t, DataEvent(data), parse).out
         == t.out + [ErrorChunk(t.convId, Failed(JsToString(Lookup(raw.fields, "code")) + "-"
                                                 + JsToString(Lookup(raw.fields, "message")))),
                     StopChunk(t.convId, t.refs), DoneChunk]
  {
  }

  function TransRun(t: Transcoder, events: seq<SseEvent>, parse: Parser): (r: Transcoder)
    requires Shaped(t)
    decreases |events|
    ensures Shaped(r) && t.out <= r.out && KeepsId(t, r)
    ensures t.ended ==> r == t
  {
    if |events| == 0 then t else TransRun(TransStep(t, events[0], parse), events[1..], parse)
  }

  /** `createTransStream` over a whole upstream stream: the events, then
      `close` or `error`, both of which end with `[DONE]` if nothing has
      ended the output yet. */
  function TransStream(events: seq<SseEvent>, parse: Parser): (r: Transcoder)
    ensures Shaped(r) && r.ended
    ensures r.finished.Some? ==> JsTruthy(r.finished)
  {
    SafeEnd(TransRun(Opened, events, parse))
  }

  /** What the client receives starts with the role chunk and carries
      exactly one `[DONE]`, as its last chunk. */
  lemma TransStreamFraming(events: seq<SseEvent>, parse: Parser)
    ensures TransStream(events, parse).out[0] == FirstChunk
    ensures Last(TransStream(events, parse).out) == DoneChunk
    ensures forall k :: 0 <= k < |TransStream(events, parse).out| - 1 ==> TransStream(events, parse).out[k] != DoneChunk
  {
    EndedFraming(TransStream(events, parse));
  }

  lemma EndedFraming(t: Transcoder)
    requires Shaped(t) && t.ended
    ensures t.out[0] == FirstChunk && Last(t.out) == DoneChunk
    ensures forall k :: 0 <= k < |t.out| - 1 ==> t.out[k] != DoneChunk
  {
    forall k | 0 <= k < |t.out| - 1 ensures t.out[k] != DoneChunk {
      assert t.out[k] == t.out[..|t.out| - 1][k];
    }
  }

  function Last(cs: seq<Chunk>): Chunk
    requires |cs| > 0
  {
    cs[|cs| - 1]
  }

  /** Once the output has ended, later events write nothing more. */
  lemma EndedIgnoresRest(a: seq<SseEvent>, b: seq<SseEvent>, parse: Parser)
    requires TransRun(Opened, a, parse).ended
    ensures TransRun(Opened, a + b, parse) == TransRun(Opened, a, parse)
  {
    TransRunAppend(Opened, a, b, parse);
  }

  lemma {:induction false} TransRunAppend(t: Transcoder, a: seq<SseEvent>, b: seq<SseEvent>, parse: Parser)
    requires Shaped(t)
    ensures TransRun(t, a + b, parse) == TransRun(TransRun(t, a, parse), b, parse)
    decreases |a|
  {
    if |a| == 0 {
      assert a + b == b;
    } else {
      assert (a + b)[0] == a[0];
      assert (a + b)[1..] == a[1..] + b;
      TransRunAppend(TransStep(t, a[0], parse), a[1..], b, parse);
    }
  }

  /** The first truthy conversation id stays for the rest of the stream, so
      every chunk after it carries it. */
  lemma IdSticks(t: Transcoder, events: seq<SseEvent>, parse: Parser)
    requires Shaped(t) && JsTruthy(t.convId)
    ensures TransRun(t, events, parse).convId == t.convId
  {
  }

  /** What the transcoder streams for one plain event. */
  function EventStreamed(ev: SseEvent, parse: Parser): seq<string>
    requires Plain(ev, parse)
  {
    if ev.RetryEvent? then [] else StreamedAdded(PlainMessage(ev, parse).value, parse)
  }

  /** What the transcoder streams for a run of plain events. */
  function StreamedTexts(events: seq<SseEvent>, parse: Parser): seq<string>
    requires AllPlain(events, parse)
  {
    if |events| == 0 then [] else EventStreamed(events[0], parse) + StreamedTexts(events[1..], parse)
  }

  /** On an open stream a plain event writes its text chunk, if any, and
      nothing else. */
  lemma TransPlainStep(t: Transcoder, ev: SseEvent, parse: Parser)
    requires Shaped(t) && !t.ended && Plain(ev, parse)
    ensures !TransStep(t, ev, parse).ended
    ensures TransStep(t, ev, parse).out
         == t.out + TextChunks(TransStep(t, ev, parse).convId, EventStreamed(ev, parse))
  {
    if ev.DataEvent? {
      TransDispatch(t, ev.data, parse(ev.data).value, PlainMessage(ev, parse).value, parse);
    } else {
      assert TextChunks(t.convId, []) == [];
    }
  }

  lemma TransDispatch(t: Transcoder, data: string, raw: Json, result: Json, parse: Parser)
    requires Shaped(t) && !t.ended
    requires parse(data) == Some(raw) && raw.JObj? && !JsTruthy(Lookup(raw.fields, "code"))
    requires Lookup(raw.fields, "event_type") == Some(JNum(2001))
    requires parse(JsToString(Lookup(raw.fields, "event_data"))) == Some(result)
    ensures TransStep(t, DataEvent(data), parse) == TransMessage(t, result, parse)
  {
    var kind := JsOpt(Some(raw), "event_type");
    var eventData := JsOpt(Some(raw), "event_data");
    assert TransStep(t, DataEvent(data), parse) == TransEvent(t, raw, parse);
    assert TransEvent(t, raw, parse) == TransKind(t, kind, eventData, parse);
    MessageKind(kind);
    assert TransKind(t, kind, eventData, parse) == TransMessage(t, result, parse);
  }

  /** A run of plain events keeps the stream open and streams their texts,
      in order. */
  lemma {:induction false} TransRunPlain(t: Transcoder, events: seq<SseEvent>, parse: Parser)
    requires Shaped(t) && !t.ended && AllPlain(events, parse)
    ensures !TransRun(t, events, parse).ended
    ensures ChunkTexts(TransRun(t, events, parse).out) == ChunkTexts(t.out) + StreamedTexts(events, parse)
    decreases |events|
  {
    if |events| > 0 {
      var next := TransStep(t, events[0], parse);
      var head := EventStreamed(events[0], parse);
      var rest := StreamedTexts(events[1..], parse);
      TransPlainStep(t, events[0], parse);
      TransRunPlain(next, events[1..], parse);
      TransRunCons(t, events, parse);
      assert StreamedTexts(events, parse) == head + rest;
      ChunkTextsAppend(t.out, TextChunks(next.convId, head));
      ChunkTextsOfTextChunks(next.convId, head);
      Seqs.Assoc(ChunkTexts(t.out), head, rest);
    }
  }

  /** Once the conversation id is truthy, a run of plain events writes one
      text chunk per piece of text, each carrying that id, and nothing
      else. */
  lemma {:induction false} TransRunPlainChunks(t: Transcoder, events: seq<SseEvent>, parse: Parser)
    requires Shaped(t) && !t.ended && AllPlain(events, parse) && JsTruthy(t.convId)
    ensures TransRun(t, events, parse).out == t.out + TextChunks(t.convId, StreamedTexts(events, parse))
    decreases |events|
  {
    if |events| == 0 {
      assert TextChunks(t.convId, []) == [];
    } else {
      var next := TransStep(t, events[0], parse);
      var head := EventStreamed(events[0], parse);
      var rest := StreamedTexts(events[1..], parse);
      TransPlainStep(t, events[0], parse);
      TransRunPlainChunks(next, events[1..], parse);
      TransRunCons(t, events, parse);
      assert StreamedTexts(events, parse) == head + rest;
      TextChunksAppend(t.convId, head, rest);
      Seqs.Assoc(t.out, TextChunks(t.convId, head), TextChunks(t.convId, rest));
    }
  }

  lemma TransRunCons(t: Transcoder, events: seq<SseEvent>, parse: Parser)
    requires Shaped(t) && |events| > 0
    ensures TransRun(t, events, parse) == TransRun(TransStep(t, events[0], parse), events[1..], parse)
  {
  }

  /** The client of a stream of plain messages that then closes receives the
      role chunk, their texts as text chunks in order, and `[DONE]`. */
  lemma TransStreamText(events: seq<SseEvent>, parse: Parser)
    requires AllPlain(events, parse)
    ensures ChunkTexts(TransStream(events, parse).out) == StreamedTexts(events, parse)
    ensures TransStream(events, parse).out == TransRun(Opened, events, parse).out + [DoneChunk]
  {
    TransRunPlain(Opened, events, parse);
    var run := TransRun(Opened, events, parse);
    assert ChunkTexts(Opened.out) == [];
    DoneAddsNoText(run.out);
  }

  lemma DoneAddsNoText(out: seq<Chunk>)
    ensures ChunkTexts(out + [DoneChunk]) == ChunkTexts(out)
  {
    ChunkTextsAppend(out, [DoneChunk]);
    assert ChunkTexts([DoneChunk]) == [];
  }

  /** Event 2003, as a number, completes an open stream. */
  lemma TransEndStep(t: Transcoder, data: string, raw: Json, parse: Parser)
    requires Shaped(t) && !t.ended
    requires parse(data) == Some(raw) && raw.JObj? && !JsTruthy(Lookup(raw.fields, "code"))
    requires Lookup(raw.fields, "event_type") == Some(JNum(2003))
    ensures TransStep(t, DataEvent(data), parse) == Complete(t)
  {
    var kind := JsOpt(Some(raw), "event_type");
    var eventData := JsOpt(Some(raw), "event_data");
    assert TransStep(t, DataEvent(data), parse) == TransEvent(t, raw, parse);
    assert TransEvent(t, raw, parse) == TransKind(t, kind, eventData, parse);
  }

  /** Plain messages followed by event 2003: their texts in order, then the
      stop chunk with the references collected and `[DONE]`. */
  lemma TransStreamEndText(events: seq<SseEvent>, data: string, raw: Json, parse: Parser)
    requires AllPlain(events, parse)
    requires parse(data) == Some(raw) && raw.JObj? && !JsTruthy(Lookup(raw.fields, "code"))
    requires Lookup(raw.fields, "event_type") == Some(JNum(2003))
    ensures ChunkTexts(TransStream(events + [DataEvent(data)], parse).out) == StreamedTexts(events, parse)
    ensures TransStream(events + [DataEvent(data)], parse).out
         == TransRun(Opened, events, parse).out
            + [StopChunk(TransRun(Opened, events, parse).convId, TransRun(Opened, events, parse).refs), DoneChunk]
  {
    TransRunPlain(Opened, events, parse);
    var run := TransRun(Opened, events, parse);
    TransRunAppend(Opened, events, [DataEvent(data)], parse);
    TransEndStep(run, data, raw, parse);
    TransRunCons(run, [DataEvent(data)], parse);
    assert [DataEvent(data)][1..] == [];
    assert TransRun(Opened, events + [DataEvent(data)], parse) == Complete(run);
    assert ChunkTexts(Opened.out) == [];
    StopDoneAddNoText(run.out, run.convId, run.refs);
  }

  lemma StopDoneAddNoText(out: seq<Chunk>, id: Option<Json>, refs: seq<Reference>)
    ensures ChunkTexts(out + [StopChunk(id, refs), DoneChunk]) == ChunkTexts(out)
  {
    var more := [StopChunk(id, refs), DoneChunk];
    ChunkTextsAppend(out, more);
    assert more[1..] == [DoneChunk];
    assert ChunkTexts([DoneChunk]) == [];
    assert ChunkTexts(more) == [];
  }

  // ---------------------------------------------------------------------------
  // tokenSplit

  const BearerPrefix: string := "Bearer "

  /** `authorization.replace("Bearer ", "").split(",")`: the first
      `Bearer ` anywhere is dropped, then the text is cut at every comma. */
  function TokenSplit(authorization: string): (r: seq<string>)
    ensures |r| >= 1
    ensures Join(r, ",") == ReplaceFirst(authorization, BearerPrefix, "")
    ensures forall k :: 0 <= k < |r| ==> !Contains(r[k], ",")
  {
    Split(ReplaceFirst(authorization, BearerPrefix, ""), ",")
  }

  /** A `Bearer` header listing comma-free tokens gives back those tokens. */
  lemma TokenSplitBearer(tokens: seq<string>)
    requires |tokens| >= 1
    requires forall k :: 0 <= k < |tokens| ==> NoneOf(tokens[k], ',')
    ensures TokenSplit(BearerPrefix + Join(tokens, ",")) == tokens
  {
    ReplaceLeading(BearerPrefix, Join(tokens, ","));
    assert ","[0] == ',';
    SplitJoin(tokens, ",");
  }

  /** Replacing a pattern the text starts with removes that prefix. */
  lemma ReplaceLeading(p: string, x: string)
    ensures ReplaceFirst(p + x, p, "") == x
  {
    var s := p + x;
    assert s[0..|p|] == p;
    IndexOfFirst(s, p, 0);
    assert s[..0] + "" + s[|p|..] == s[|p|..];
    assert s[|p|..] == x;
  }
}
