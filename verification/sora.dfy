/** The Sora proxy's chat-completions disguise: an OpenAI chat request is
    turned into a video-generation task and the task id is returned as the
    assistant's answer. The prompt and image URLs come from the last user
    message; the model is passed through only when it names Sora. The call
    that creates the task is the parameter `create`. */
module Sora {
  import opened Wrappers
  import opened Text
  import opened Json

  // ---------------------------------------------------------------------------
  // Prompt and image extraction

  /** The prompt text and the image URLs collected so far. */
  type Extracted = (string, seq<Json>)

  /** What one element of a list content adds to the prompt: the `text` of a
      `text` item (a non-string `text` cannot be added to a string), nothing
      for any other element. */
  function ItemText(item: Json): (r: Option<string>)
    ensures !item.JObj? ==> r == Some("")
    ensures r.None? <==> item.JObj? && Lookup(item.fields, "type") == Some(JStr("text"))
                         && Lookup(item.fields, "text").Some? && !Lookup(item.fields, "text").value.JStr?
  {
    if !item.JObj? then Some("")
    else if Lookup(item.fields, "type") == Some(JStr("text")) then
      match Lookup(item.fields, "text").GetOr(JStr(""))
      case JStr(s) => Some(s)
      case _ => None
    else Some("")
  }

  /** The image URLs one element adds: the truthy `url` of an `image_url`
      object, or the `image_url` itself when it is a string (even an empty
      one). */
  function ItemUrls(item: Json): (r: seq<Json>)
    ensures |r| <= 1
    ensures |r| == 1 ==> item.JObj? && Lookup(item.fields, "type") == Some(JStr("image_url"))
    ensures |r| == 1 ==> r[0].JStr? || PyTruthy(r[0])
  {
    if !item.JObj? || Lookup(item.fields, "type") != Some(JStr("image_url")) then []
    else
      match Lookup(item.fields, "image_url").GetOr(JObj([]))
      case JObj(fields) =>
        var url := Lookup(fields, "url").GetOr(JStr(""));
        if PyTruthy(url) then [url] else []
      case JStr(s) => [JStr(s)]
      case _ => []
  }

  type TextOf = Json -> Option<string>
  type UrlsOf = Json -> seq<Json>

  /** The loop over a list content, item by item: `text` is what an item
      adds to the prompt (`None` when adding it raises `TypeError`), `urls`
      the image URLs it adds. The first failing item ends the loop. */
  function Collect(items: seq<Json>, acc: Extracted, text: TextOf, urls: UrlsOf): (r: Result<Extracted, Exn>)
    decreases |items|
  {
    if |items| == 0 then Ok(acc)
    else
      match text(items[0])
      case None => Err(TypeError)
      case Some(t) => Collect(items[1..], (acc.0 + t, acc.1 + urls(items[0])), text, urls)
  }

  /** Every element can be added to the prompt. */
  predicate AddsUp(items: seq<Json>, text: TextOf) {
    forall k :: 0 <= k < |items| ==> text(items[k]).Some?
  }

  /** The whole prompt text of a list content, read element by element. */
  function Texts(items: seq<Json>, text: TextOf): string
    requires AddsUp(items, text)
  {
    if |items| == 0 then "" else text(items[0]).value + Texts(items[1..], text)
  }

  /** All image URLs of a list content, in order. */
  function Urls(items: seq<Json>, urls: UrlsOf): seq<Json> {
    if |items| == 0 then [] else urls(items[0]) + Urls(items[1..], urls)
  }

  lemma AddsUpCons(items: seq<Json>, text: TextOf)
    requires |items| > 0
    ensures AddsUp(items, text) <==> text(items[0]).Some? && AddsUp(items[1..], text)
  {
    if text(items[0]).Some? && AddsUp(items[1..], text) {
      forall k | 0 <= k < |items| ensures text(items[k]).Some? {
        if k > 0 {
          assert items[k] == items[1..][k - 1];
        }
      }
    }
  }

  /** The loop fails exactly when some item cannot be added to the prompt;
      otherwise the prompt gains the concatenated texts and the URL list
      gains every image URL, in order. */
  lemma {:induction false} CollectSpec(items: seq<Json>, acc: Extracted, text: TextOf, urls: UrlsOf)
    ensures Collect(items, acc, text, urls).Ok? <==> AddsUp(items, text)
    ensures AddsUp(items, text) ==> Collect(items, acc, text, urls) == Ok((acc.0 + Texts(items, text), acc.1 + Urls(items, urls)))
    decreases |items|
  {
    if |items| > 0 {
      AddsUpCons(items, text);
      match text(items[0])
      case None =>
      case Some(t) =>
        var next := (acc.0 + t, acc.1 + urls(items[0]));
        assert Collect(items, acc, text, urls) == Collect(items[1..], next, text, urls);
        CollectSpec(items[1..], next, text, urls);
        if AddsUp(items, text) {
          assert Texts(items, text) == t + Texts(items[1..], text);
          assert Urls(items, urls) == urls(items[0]) + Urls(items[1..], urls);
          assert acc.0 + t + Texts(items[1..], text) == acc.0 + (t + Texts(items[1..], text));
          assert acc.1 + urls(items[0]) + Urls(items[1..], urls) == acc.1 + (urls(items[0]) + Urls(items[1..], urls));
        }
    } else {
      assert acc.0 + "" == acc.0 && acc.1 + [] == acc.1;
    }
  }

  /** What a user message's `content` yields: a string is the prompt, a
      list is scanned, anything else yields nothing. */
  function ContentParts(content: Json): (r: Result<Extracted, Exn>)
    ensures content.JStr? ==> r == Ok((content.s, []))
    ensures !content.JStr? && !content.JArr? ==> r == Ok(("", []))
  {
    match content
    case JStr(s) => Ok((s, []))
    case JArr(items) => Collect(items, ("", []), ItemText, ItemUrls)
    case _ => Ok(("", []))
  }

  predicate IsUser(msg: Json)
    requires msg.JObj?
  {
    Lookup(msg.fields, "role") == Some(JStr("user"))
  }

  function Content(msg: Json): Json
    requires msg.JObj?
  {
    Lookup(msg.fields, "content").GetOr(JStr(""))
  }

  /** The backwards walk over `messages[..end]`: the content of the last user
      message, `None` when there is none; a non-object message met on the way
      has no `get`. */
  function LastUser(messages: seq<Json>, end: nat): (r: Result<Option<Json>, Exn>)
    requires end <= |messages|
  {
    if end == 0 then Ok(None)
    else
      var msg := messages[end - 1];
      if !msg.JObj? then Err(AttributeError)
      else if IsUser(msg) then Ok(Some(Content(msg)))
      else LastUser(messages, end - 1)
  }

  /** The walk reaches the last user message past any run of non-user
      objects, and looks at nothing before it. */
  lemma {:induction false} LastUserFound(messages: seq<Json>, k: nat, end: nat)
    requires k < end <= |messages|
    requires messages[k].JObj? && IsUser(messages[k])
    requires forall j :: k < j < end ==> messages[j].JObj? && !IsUser(messages[j])
    ensures LastUser(messages, end) == Ok(Some(Content(messages[k])))
    decreases end
  {
    if end - 1 != k {
      LastUserFound(messages, k, end - 1);
    }
  }

  /** A walk that finds no user message fails or reports none. */
  lemma {:induction false} NoUserNone(messages: seq<Json>, end: nat)
    requires end <= |messages|
    requires forall j :: 0 <= j < end ==> messages[j].JObj? && !IsUser(messages[j])
    ensures LastUser(messages, end) == Ok(None)
    decreases end
  {
    if end > 0 {
      NoUserNone(messages, end - 1);
    }
  }

  /** When the last user message yields neither prompt nor image, the first
      message's string content becomes the prompt. */
  function Fallback(messages: seq<Json>, found: Extracted): (r: Result<Extracted, Exn>)
    ensures found.0 != "" || found.1 != [] ==> r == Ok(found)
    ensures found.0 == "" && found.1 == [] && |messages| > 0 && messages[0].JObj? && Content(messages[0]).JStr?
            ==> r == Ok((Content(messages[0]).s, []))
  {
    if found.0 != "" || found.1 != [] || |messages| == 0 then Ok(found)
    else if !messages[0].JObj? then Err(AttributeError)
    else
      match Content(messages[0])
      case JStr(s) => Ok((s, []))
      case _ => Ok(found)
  }

  /** The prompt and image URLs of a message list. */
  function FromList(items: seq<Json>): (r: Result<Extracted, Exn>) {
    match LastUser(items, |items|)
    case Err(e) => Err(e)
    case Ok(None) => Fallback(items, ("", []))
    case Ok(Some(content)) =>
      match ContentParts(content)
      case Err(e) => Err(e)
      case Ok(found) => Fallback(items, found)
  }

  /** Prompt and image URLs from `body.get("messages", [])`. `reversed` works
      on lists, dicts (their keys) and strings (their characters); only a
      list can get past the first `msg.get` unless it is empty. */
  function Extract(messages: Json): (r: Result<Extracted, Exn>)
    ensures !(messages.JArr? || messages.JObj? || messages.JStr?) ==> r == Err(TypeError)
    ensures messages.JObj? && |messages.fields| > 0 ==> r == Err(AttributeError)
    ensures messages.JStr? && |messages.s| > 0 ==> r == Err(AttributeError)
  {
    match messages
    case JArr(items) => FromList(items)
    case JObj(fields) => if |fields| == 0 then Ok(("", [])) else Err(AttributeError)
    case JStr(s) => if |s| == 0 then Ok(("", [])) else Err(AttributeError)
    case _ => Err(TypeError)
  }

  /** Only the last user message is read: anything placed before it, other
      than the first message's fallback role, does not change the prompt it
      gives. A string content is the prompt verbatim. */
  lemma LastUserString(items: seq<Json>, k: nat, text: string)
    requires k < |items| && items[k].JObj? && IsUser(items[k]) && Content(items[k]) == JStr(text)
    requires forall j :: k < j < |items| ==> items[j].JObj? && !IsUser(items[j])
    requires text != ""
    ensures Extract(JArr(items)) == Ok((text, []))
  {
    LastUserFound(items, k, |items|);
  }

  /** The walk stops at the last user message even when it yields nothing:
      an earlier user message with a usable prompt is not consulted, and the
      result is the first message's string content. */
  lemma StopsAtLastUser(first: string, earlier: Json, last: Json)
    requires first != ""
    requires last.JObj? && IsUser(last) && Content(last) == JNum(0)
    ensures Extract(JArr([JObj([Field("content", JStr(first))]), earlier, last])) == Ok((first, []))
  {
    var items := [JObj([Field("content", JStr(first))]), earlier, last];
    LastUserFound(items, 2, 3);
  }

  /** A list content gives the concatenated texts and every image URL. */
  lemma LastUserList(items: seq<Json>, k: nat, parts: seq<Json>)
    requires k < |items| && items[k].JObj? && IsUser(items[k]) && Content(items[k]) == JArr(parts)
    requires forall j :: k < j < |items| ==> items[j].JObj? && !IsUser(items[j])
    requires AddsUp(parts, ItemText) && (Texts(parts, ItemText) != "" || Urls(parts, ItemUrls) != [])
    ensures Extract(JArr(items)) == Ok((Texts(parts, ItemText), Urls(parts, ItemUrls)))
  {
    LastUserFound(items, k, |items|);
    CollectSpec(parts, ("", []), ItemText, ItemUrls);
    assert "" + Texts(parts, ItemText) == Texts(parts, ItemText);
    assert [] + Urls(parts, ItemUrls) == Urls(parts, ItemUrls);
  }

  // ---------------------------------------------------------------------------
  // The Sora request

  const DefaultModel: string := "sora-2"
  const AspectRatio: string := "16:9"
  const Duration: int := 15

  /** The task payload: the model only when it mentions Sora, a fixed aspect
      ratio and duration, and `image_urls` only when there are some. */
  function SoraPayload(model: Json, namesSora: bool, prompt: string, images: seq<Json>): (r: seq<Field>)
    ensures UniqueKeys(r)
    ensures |images| == 0 <==> |r| == 4
    ensures Lookup(r, "model") == Some(if namesSora then model else JStr(DefaultModel))
    ensures Lookup(r, "prompt") == Some(JStr(prompt))
    ensures Lookup(r, "aspect_ratio") == Some(JStr(AspectRatio)) && Lookup(r, "duration") == Some(JNum(Duration))
    ensures Lookup(r, "image_urls") == if |images| > 0 then Some(JArr(images)) else None
  {
    var base := [Field("model", if namesSora then model else JStr(DefaultModel)),
                 Field("prompt", JStr(prompt)),
                 Field("aspect_ratio", JStr(AspectRatio)),
                 Field("duration", JNum(Duration))];
    var r := if |images| == 0 then base else base + [Field("image_urls", JArr(images))];
    assert |r[0].key| == 5 && |r[1].key| == 6 && |r[2].key| == 12 && |r[3].key| == 8;
    assert |images| > 0 ==> |r[4].key| == 10;
    KeysByLength(r);
    assert r[0].key == "model" && r[1].key == "prompt" && r[2].key == "aspect_ratio" && r[3].key == "duration";
    assert |images| > 0 ==> r[4].key == "image_urls";
    r
  }

  // ---------------------------------------------------------------------------
  // The reply

  const CreatedPrefix: string := "视频生成任务已创建。任务ID: "
  const CreatedSuffix: string := "\n请使用查询接口查询进度。"
  const Created: int := 1234567890

  function TaskMessage(taskId: Json): string {
    CreatedPrefix + PyStr(taskId) + CreatedSuffix
  }

  /** The completion announcing the task, as the fields of the OpenAI
      `chat.completion` object it is sent as (see `ReplyJson`). */
  datatype TaskReply = TaskReply(id: string, model: Json, content: string, promptTokens: nat, completionTokens: nat, totalTokens: nat)

  /** The completion for a created task: its id is the task id behind
      `chatcmpl-`, its answer is `TaskMessage`, `model` is the request's own
      model (not the one sent to Sora), and the token counts are string
      lengths that add up. */
  function Completion(model: Json, prompt: string, taskId: Json): (r: TaskReply)
    ensures r.id == "chatcmpl-" + PyStr(taskId) && r.model == model && r.content == TaskMessage(taskId)
    ensures r.promptTokens == |prompt| && r.completionTokens == |r.content|
    ensures r.totalTokens == r.promptTokens + r.completionTokens
  {
    var content := TaskMessage(taskId);
    TaskReply("chatcmpl-" + PyStr(taskId), model, content, |prompt|, |content|, |prompt| + |content|)
  }

  /** The reply as sent. */
  function ReplyJson(c: TaskReply): Json {
    JObj([Field("id", JStr(c.id)),
          Field("object", JStr("chat.completion")),
          Field("created", JNum(Created)),
          Field("model", c.model),
          Field("choices", JArr([JObj([Field("index", JNum(0)),
                                       Field("message", JObj([Field("role", JStr("assistant")), Field("content", JStr(c.content))])),
                                       Field("finish_reason", JStr("stop"))])])),
          Field("usage", JObj([Field("prompt_tokens", JNum(c.promptTokens)),
                               Field("completion_tokens", JNum(c.completionTokens)),
                               Field("total_tokens", JNum(c.totalTokens))]))])
  }

  /** What creating the task does: a JSON reply, an HTTP error status with
      its body text, or some other failure with its message. */
  datatype Upstream = Answer(data: Json) | StatusError(code: int, text: string) | Failure(message: string)

  /** The handler's outcome: a JSON body, an HTTP error (with a detail,
      `None` where it is Python's own exception text), or an exception that
      escapes the handler. */
  datatype Response = Reply(body: TaskReply) | Status(code: int, detail: Option<string>) | Raised(error: Exn)

  const NoPrompt: string := "No prompt or image found in messages"

  /** The task id of a reply, `unknown_id` when it has none. */
  function TaskId(data: seq<Field>): (r: Json)
    ensures !HasKey(data, "id") ==> r == JStr("unknown_id")
    ensures HasKey(data, "id") ==> Some(r) == Lookup(data, "id")
  {
    Lookup(data, "id").GetOr(JStr("unknown_id"))
  }

  /** Turning the upstream outcome into the reply: a status error keeps its
      code, anything else that goes wrong (a reply that is not an object
      included) is 502. */
  function Answered(model: Json, prompt: string, outcome: Upstream): (r: Response)
    ensures outcome.StatusError? ==> r == Status(outcome.code, Some("SORA Error: " + outcome.text))
    ensures outcome.Failure? ==> r == Status(502, Some(outcome.message))
    ensures r.Reply? <==> outcome.Answer? && outcome.data.JObj?
  {
    match outcome
    case StatusError(code, text) => Status(code, Some("SORA Error: " + text))
    case Failure(message) => Status(502, Some(message))
    case Answer(data) =>
      if !data.JObj? then Status(502, None)
      else Reply(Completion(model, prompt, TaskId(data.fields)))
  }

  /** After the messages are read: 400 when they gave nothing, otherwise the
      model check (`"sora" in model`, which needs a container or string),
      the task creation and its answer. */
  function Dispatch(fields: seq<Field>, found: Extracted, create: Json -> Upstream): (r: Response)
    ensures found.0 == "" && found.1 == [] ==> r == Status(400, Some(NoPrompt))
  {
    if found.0 == "" && found.1 == [] then Status(400, Some(NoPrompt))
    else
      var model := Lookup(fields, "model").GetOr(JStr(DefaultModel));
      match PyContains(model, "sora")
      case Err(e) => Raised(e)
      case Ok(namesSora) =>
        var payload := JObj(SoraPayload(model, namesSora, found.0, found.1));
        Answered(model, found.0, create(payload))
  }

  /** The whole handler. `body` is `None` when the request is not JSON. */
  function FakeChatCompletions(body: Option<Json>, create: Json -> Upstream): (r: Response)
    ensures body.None? ==> r == Status(400, Some("Invalid JSON"))
    ensures body.Some? && !body.value.JObj? ==> r == Raised(AttributeError)
    ensures body.Some? && body.value.JObj? ==>
              var found := Extract(Lookup(body.value.fields, "messages").GetOr(JArr([])));
              (found.Err? ==> r == Raised(found.error)) && (found.Ok? ==> r == Dispatch(body.value.fields, found.value, create))
  {
    if body.None? then Status(400, Some("Invalid JSON"))
    else if !body.value.JObj? then Raised(AttributeError)
    else
      var fields := body.value.fields;
      match Extract(Lookup(fields, "messages").GetOr(JArr([])))
      case Err(e) => Raised(e)
      case Ok(found) => Dispatch(fields, found, create)
  }

  /** 400 for "no prompt" exactly when the messages yield neither a prompt
      nor an image (an upstream 400 carries a different detail); the upstream
      is then never called. */
  lemma NoPromptIsBadRequest(fields: seq<Field>, found: Extracted, create: Json -> Upstream, other: Json -> Upstream)
    ensures Dispatch(fields, found, create) == Status(400, Some(NoPrompt)) <==> found.0 == "" && found.1 == []
    ensures found.0 == "" && found.1 == [] ==> Dispatch(fields, found, create) == Dispatch(fields, found, other)
  {
    if !(found.0 == "" && found.1 == []) {
      var model := Lookup(fields, "model").GetOr(JStr(DefaultModel));
      if PyContains(model, "sora").Ok? {
        var namesSora := PyContains(model, "sora").value;
        var outcome := create(JObj(SoraPayload(model, namesSora, found.0, found.1)));
        if outcome.StatusError? {
          assert ("SORA Error: " + outcome.text)[0] != NoPrompt[0];
        }
      }
    }
  }

  /** A successful request sends Sora the extracted prompt, the model only if
      it names Sora, and answers with the task id. */
  lemma SuccessfulTask(fields: seq<Field>, found: Extracted, create: Json -> Upstream, model: string, data: seq<Field>)
    requires found.0 != "" || found.1 != []
    requires Lookup(fields, "model") == Some(JStr(model))
    requires create(JObj(SoraPayload(JStr(model), Contains(model, "sora"), found.0, found.1))) == Answer(JObj(data))
    ensures var r := Dispatch(fields, found, create);
            r.Reply? && r.body == Completion(JStr(model), found.0, TaskId(data))
  {
  }

  /** The answer text starts with the task id, so the caller can read it
      back. */
  lemma TaskMessageNamesTask(taskId: Json)
    ensures StartsWith(TaskMessage(taskId), CreatedPrefix + PyStr(taskId))
  {
    PrefixOfAppend(CreatedPrefix + PyStr(taskId), CreatedSuffix);
  }

  lemma PrefixOfAppend(a: string, b: string)
    ensures StartsWith(a + b, a)
  {
    assert (a + b)[..|a|] == a;
  }
}
