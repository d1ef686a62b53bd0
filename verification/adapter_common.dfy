/** What the Claude and Gemini adapters share: the message shape they build
    for the DeepSeek controller, the placement of a system prompt on the
    first user message, the reading of a DeepSeek completion, and the
    filtering of the DeepSeek stream down to the choices its `data:` lines
    carry. `JSON.parse` is the parameter `parse`. */
module AdapterCommon {
  import opened Wrappers
  import opened Text
  import opened Json

  type Parser = string -> Option<Json>

  // ---------------------------------------------------------------------------
  // Requests

  /** `{role, content}` as pushed for the DeepSeek controller. */
  datatype Converted = Converted(role: string, content: Json)

  const SystemSeparator: string := "\n\n"

  /** The message with the system text written before its content. */
  function WithSystem(m: Converted, system: string): Converted {
    m.(content := JStr(system + SystemSeparator + JsToString(Some(m.content))))
  }

  predicate IsFirstUser(ms: seq<Converted>, k: int)
    requires 0 <= k < |ms|
  {
    ms[k].role == "user" && forall j :: 0 <= j < k ==> ms[j].role != "user"
  }

  /** The reference placement: the system text goes on the first user
      message and nowhere else. */
  function PrependFirstUser(ms: seq<Converted>, system: string): (r: seq<Converted>)
    ensures |r| == |ms|
    ensures forall k :: 0 <= k < |ms| ==> r[k] == if IsFirstUser(ms, k) then WithSystem(ms[k], system) else ms[k]
  {
    if |ms| == 0 then []
    else
      FirstUserFront(ms);
      if ms[0].role == "user" then [WithSystem(ms[0], system)] + ms[1..]
      else [ms[0]] + PrependFirstUser(ms[1..], system)
  }

  /** A user message in front is the first user message; any other message
      in front shifts the first user message by one. */
  lemma FirstUserFront(ms: seq<Converted>)
    requires |ms| > 0
    ensures ms[0].role == "user" ==> IsFirstUser(ms, 0) && forall k :: 1 <= k < |ms| ==> !IsFirstUser(ms, k)
    ensures ms[0].role != "user" ==> !IsFirstUser(ms, 0)
    ensures ms[0].role != "user" ==> forall k :: 1 <= k < |ms| ==> (IsFirstUser(ms, k) <==> IsFirstUser(ms[1..], k - 1))
  {
    if ms[0].role != "user" {
      forall k | 1 <= k < |ms| ensures IsFirstUser(ms, k) <==> IsFirstUser(ms[1..], k - 1) {
        assert ms[k] == ms[1..][k - 1];
        assert forall j :: 0 <= j < k - 1 ==> ms[1..][j] == ms[j + 1];
      }
    }
  }

  // ---------------------------------------------------------------------------
  // Completions

  /** `o[i]`: arrays give their element (`undefined` past the end), strings
      their character, objects the property named by the index's decimal
      digits, numbers and booleans `undefined`; `null`/`undefined` throw. */
  function JsAt(o: Option<Json>, i: nat): (r: Result<Option<Json>, Exn>)
    ensures r.Err? <==> (o.None? || o == Some(JNull))
    ensures o.Some? && o.value.JArr? && i < |o.value.items| ==> r == Ok(Some(o.value.items[i]))
    ensures o.Some? && o.value.JArr? && i >= |o.value.items| ==> r == Ok(None)
    ensures o.Some? && o.value.JObj? ==> r == Ok(Lookup(o.value.fields, NatToString(i)))
    ensures o.Some? && (o.value.JNum? || o.value.JBool?) ==> r == Ok(None)
  {
    match o
    case None => Err(TypeError)
    case Some(JNull) => Err(TypeError)
    case Some(JArr(items)) => Ok(if i < |items| then Some(items[i]) else None)
    case Some(JStr(s)) => Ok(if i < |s| then Some(JStr([s[i]])) else None)
    case Some(JObj(fields)) => Ok(Lookup(fields, NatToString(i)))
    case Some(_) => Ok(None)
  }

  /** What the adapters read from a DeepSeek completion. */
  datatype Reply = Reply(content: Option<Json>, reasoning: Option<Json>, finishReason: Option<Json>, usage: Option<Json>)

  /** `response.choices[0].message.content` and its neighbours; each step of
      the chain throws on `null`/`undefined`. */
  function ReadReply(response: Json): (r: Result<Reply, Exn>)
    ensures response == JNull ==> r.Err?
  {
    match JsProp(Some(response), "choices")
    case Err(e) => Err(e)
    case Ok(choices) =>
      match JsAt(choices, 0)
      case Err(e) => Err(e)
      case Ok(choice) =>
        match JsProp(choice, "message")
        case Err(e) => Err(e)
        case Ok(message) =>
          match JsProp(message, "content")
          case Err(e) => Err(e)
          case Ok(content) =>
            Ok(Reply(content, JsOpt(message, "reasoning_content"), JsOpt(choice, "finish_reason"),
                     JsOpt(Some(response), "usage")))
  }

  /** A completion of the usual shape, an object whose `choices` list starts
      with an object holding a `message` object, is read back field by field,
      whatever else it holds. */
  lemma ReadReplyFields(response: seq<Field>, items: seq<Json>, choice: seq<Field>, message: seq<Field>)
    requires Lookup(response, "choices") == Some(JArr(items)) && |items| > 0 && items[0] == JObj(choice)
    requires Lookup(choice, "message") == Some(JObj(message))
    ensures ReadReply(JObj(response))
         == Ok(Reply(Lookup(message, "content"), Lookup(message, "reasoning_content"),
                     Lookup(choice, "finish_reason"), Lookup(response, "usage")))
  {
  }

  /** `reasoning_content || ""`, then `reasoning ? `${reasoning}\n\n${content}` : content`. */
  function FullContent(content: Option<Json>, reasoning: Option<Json>): (r: Option<Json>)
    ensures !JsTruthy(reasoning) ==> r == content
    ensures JsTruthy(reasoning) ==> r.Some? && r.value.JStr?
  {
    if JsTruthy(reasoning) then Some(JStr(JsToString(reasoning) + "\n\n" + JsToString(content))) else content
  }

  /** With both present as text, the reasoning comes first, then a blank
      line, then the answer. */
  lemma FullContentJoins(content: string, reasoning: string)
    ensures FullContent(Some(JStr(content)), Some(JStr(reasoning)))
         == if reasoning == "" then Some(JStr(content)) else Some(JStr(reasoning + "\n\n" + content))
  {
  }

  /** `usage?.key || 0`. */
  function UsageCount(usage: Option<Json>, key: string): (r: Json)
    ensures JsTruthy(Some(r)) <==> JsTruthy(JsOpt(usage, key))
    ensures JsOpt(usage, key).None? ==> r == JNum(0)
    ensures JsTruthy(JsOpt(usage, key)) ==> Some(r) == JsOpt(usage, key)
  {
    var v := JsOpt(usage, key);
    if JsTruthy(v) then v.value else JNum(0)
  }

  // ---------------------------------------------------------------------------
  // Streams

  /** Each buffer is split at `\n` on its own, so a line cut across two
      buffers arrives as two lines. */
  function Lines(buffers: seq<string>): (r: seq<string>)
    ensures |buffers| == 0 ==> r == []
  {
    if |buffers| == 0 then [] else Split(buffers[0], "\n") + Lines(buffers[1..])
  }

  /** Splitting buffers one by one distributes over their concatenation. */
  lemma {:induction false} LinesAppend(xs: seq<string>, ys: seq<string>)
    ensures Lines(xs + ys) == Lines(xs) + Lines(ys)
  {
    if |xs| == 0 {
      assert xs + ys == ys;
    } else {
      assert (xs + ys)[1..] == xs[1..] + ys;
      LinesAppend(xs[1..], ys);
    }
  }

  const DataPrefix: string := "data: "

  /** The first choice a stream line carries: blank lines and `data: [DONE]`
      are skipped, only lines starting `data: ` are parsed, a parse failure
      or a `null` payload is caught, and `choices` and `choices[0]` must be
      truthy. */
  function LineChoice(line: string, parse: Parser): (r: Option<Json>)
    ensures r.Some? ==> StartsWith(line, DataPrefix) && JsTruthy(r)
  {
    if JsTrim(line) == "" || JsTrim(line) == "data: [DONE]" || !StartsWith(line, DataPrefix) then None
    else
      match parse(line[|DataPrefix|..])
      case None => None
      case Some(data) =>
        if data == JNull then None
        else
          var choices := JsOpt(Some(data), "choices");
          if !JsTruthy(choices) then None
          else
            match JsAt(choices, 0)
            case Err(_) => None
            case Ok(choice) => if JsTruthy(choice) then choice else None
  }

  /** The deltas of a choice: reading `delta.content` of a missing or `null`
      delta throws. */
  function DeltaParts(choice: Json): (r: Result<(Option<Json>, Option<Json>), Exn>)
    ensures r.Err? <==> JsOpt(Some(choice), "delta").None? || JsOpt(Some(choice), "delta") == Some(JNull)
  {
    var delta := JsOpt(Some(choice), "delta");
    match JsProp(delta, "content")
    case Err(e) => Err(e)
    case Ok(content) => Ok((content, JsOpt(delta, "reasoning_content")))
  }

  /** What a choice contributes to the text: its truthy content and
      reasoning, in that order. */
  function ChoiceTexts(choice: Json): (r: seq<Json>)
    ensures |r| <= 2
  {
    match DeltaParts(choice)
    case Err(_) => []
    case Ok((content, reasoning)) =>
      (if JsTruthy(content) then [content.value] else []) + (if JsTruthy(reasoning) then [reasoning.value] else [])
  }
}
