/** The Gemini adapter over the DeepSeek controller: Gemini contents and
    system instruction to DeepSeek messages, a DeepSeek completion to a
    Gemini response, and the DeepSeek chunk stream to Gemini chunks. */
module GeminiAdapter {
  import opened Wrappers
  import opened Text
  import opened Json
  import opened AdapterCommon

  // ---------------------------------------------------------------------------
  // convertGeminiToDeepSeek

  /** `parts.filter(p => p.text).map(p => p.text)`; reading `text` of a
      `null` part throws. */
  function PartTexts(parts: seq<Json>): (r: Result<seq<Option<Json>>, Exn>)
    ensures r.Err? <==> JNull in parts
    ensures r.Ok? ==> forall k :: 0 <= k < |r.value| ==> JsTruthy(r.value[k])
  {
    if |parts| == 0 then Ok([])
    else if parts[0] == JNull then Err(TypeError)
    else
      match PartTexts(parts[1..])
      case Err(e) =>
        assert JNull in parts[1..];
        Err(e)
      case Ok(rest) =>
        assert JNull !in parts;
        var text := JsOpt(Some(parts[0]), "text");
        Ok(if JsTruthy(text) then [text] + rest else rest)
  }

  function PartsText(parts: seq<Json>): (r: Result<string, Exn>)
    ensures r.Err? <==> JNull in parts
  {
    match PartTexts(parts)
    case Err(e) => Err(e)
    case Ok(texts) => Ok(JsJoin(texts, "\n"))
  }

  /** The system instruction as text: a string is itself; otherwise truthy
      `parts` must be an array (calling `filter` on anything else throws);
      everything else gives "". */
  function SystemText(instruction: Option<Json>): (r: Result<string, Exn>)
    ensures !JsTruthy(instruction) ==> r == Ok("")
    ensures instruction.Some? && instruction.value.JStr? ==> r == Ok(instruction.value.s)
  {
    if !JsTruthy(instruction) then Ok("")
    else if instruction.value.JStr? then Ok(instruction.value.s)
    else
      var parts := JsOpt(instruction, "parts");
      if !JsTruthy(parts) then Ok("")
      else if parts.value.JArr? then PartsText(parts.value.items)
      else Err(TypeError)
  }

  /** `model` is the assistant; every other role, or none, is the user. */
  function RoleOf(content: Json): (r: string)
    ensures r == "assistant" <==> JsOpt(Some(content), "role") == Some(JStr("model"))
    ensures r == "assistant" || r == "user"
  {
    if JsOpt(Some(content), "role") == Some(JStr("model")) then "assistant" else "user"
  }

  /** An entry's text: its array `parts`' texts, or "" without them. */
  function EntryText(content: Json): (r: Result<string, Exn>)
    ensures !(JsTruthy(JsOpt(Some(content), "parts")) && JsOpt(Some(content), "parts").value.JArr?) ==> r == Ok("")
  {
    var parts := JsOpt(Some(content), "parts");
    if JsTruthy(parts) && parts.value.JArr? then PartsText(parts.value.items) else Ok("")
  }

  /** The loop over the contents: every entry is kept, in order; the first
      user-mapped entry takes the system text when it is non-empty; a `null`
      entry throws on `content.role`. */
  function ConvertLoop(contents: seq<Json>, system: string, prepended: bool): (r: Result<seq<Converted>, Exn>)
    decreases |contents|
    ensures r.Ok? ==> |r.value| == |contents|
    ensures r.Ok? ==> forall k :: 0 <= k < |contents| ==> r.value[k].role == RoleOf(contents[k])
  {
    if |contents| == 0 then Ok([])
    else if contents[0] == JNull then Err(TypeError)
    else
      match EntryText(contents[0])
      case Err(e) => Err(e)
      case Ok(text) =>
        var m := Converted(RoleOf(contents[0]), JStr(text));
        var prepend := m.role == "user" && system != "" && !prepended;
        match ConvertLoop(contents[1..], system, prepended || prepend)
        case Err(e) => Err(e)
        case Ok(rest) =>
          assert forall k :: 1 <= k < |contents| ==> contents[k] == contents[1..][k - 1];
          Ok([if prepend then WithSystem(m, system) else m] + rest)
  }

  function ConvertGeminiToDeepSeek(contents: seq<Json>, instruction: Option<Json>): (r: Result<seq<Converted>, Exn>)
    ensures !JsTruthy(instruction) ==> r == ConvertLoop(contents, "", false)
  {
    match SystemText(instruction)
    case Err(e) => Err(e)
    case Ok(text) => ConvertLoop(contents, text, false)
  }

  lemma {:induction false} PrependedIsPlain(contents: seq<Json>, system: string, prepended: bool)
    requires prepended || system == ""
    ensures ConvertLoop(contents, system, prepended) == ConvertLoop(contents, "", false)
    decreases |contents|
  {
    if |contents| > 0 && contents[0] != JNull {
      PrependedIsPlain(contents[1..], system, prepended);
    }
  }

  /** The system text ends up on the first user-mapped entry and nowhere
      else. */
  lemma {:induction false} SystemOnFirstUser(contents: seq<Json>, system: string)
    requires system != ""
    ensures ConvertLoop(contents, system, false)
         == match ConvertLoop(contents, "", false)
            case Err(e) => Err(e)
            case Ok(ms) => Ok(PrependFirstUser(ms, system))
    decreases |contents|
  {
    if |contents| > 0 && contents[0] != JNull {
      if RoleOf(contents[0]) == "user" {
        PrependedIsPlain(contents[1..], system, true);
      } else {
        SystemOnFirstUser(contents[1..], system);
      }
    }
  }

  // ---------------------------------------------------------------------------
  // convertDeepSeekToGemini

  datatype GeminiResponse = GeminiResponse(text: Option<Json>, finishReason: string,
                                           promptTokens: Json, candidatesTokens: Json, totalTokens: Json)

  function ConvertDeepSeekToGemini(response: Json): (r: Result<GeminiResponse, Exn>)
    ensures r.Ok? <==> ReadReply(response).Ok?
    ensures r.Ok? ==> r.value.text == FullContent(ReadReply(response).value.content, ReadReply(response).value.reasoning)
    ensures r.Ok? ==> (r.value.finishReason == "STOP" <==> ReadReply(response).value.finishReason == Some(JStr("stop")))
    ensures r.Ok? ==> (r.value.finishReason == "STOP" || r.value.finishReason == "MAX_TOKENS")
    ensures r.Ok? && ReadReply(response).value.usage.None? ==>
              r.value.promptTokens == JNum(0) && r.value.candidatesTokens == JNum(0) && r.value.totalTokens == JNum(0)
  {
    match ReadReply(response)
    case Err(e) => Err(e)
    case Ok(reply) =>
      Ok(GeminiResponse(
        FullContent(reply.content, reply.reasoning),
        if reply.finishReason == Some(JStr("stop")) then "STOP" else "MAX_TOKENS",
        UsageCount(reply.usage, "prompt_tokens"),
        UsageCount(reply.usage, "completion_tokens"),
        UsageCount(reply.usage, "total_tokens")))
  }

  // ---------------------------------------------------------------------------
  // convertDeepSeekStreamToGemini

  /** A chunk with one text part, or the closing `STOP` chunk (empty text,
      usage 1/1/2). */
  datatype GeminiChunk = TextChunk(text: Json) | StopChunk

  datatype GeminiState = GeminiState(ended: bool, out: seq<GeminiChunk>)

  function Emit(s: GeminiState, c: GeminiChunk): (r: GeminiState)
    ensures r.ended == s.ended
    ensures r.out == if s.ended then s.out else s.out + [c]
  {
    if s.ended then s else s.(out := s.out + [c])
  }

  /** One choice: a chunk for truthy `content`, one for truthy
      `reasoning_content`, and on a truthy `finish_reason` the stop chunk and
      `end()`. A missing or `null` delta throws and writes nothing. */
  function GeminiChoice(s: GeminiState, choice: Json): (r: GeminiState)
    ensures s.ended ==> r == s
  {
    match DeltaParts(choice)
    case Err(_) => s
    case Ok((content, reasoning)) =>
      var s2 := if JsTruthy(content) then Emit(s, TextChunk(content.value)) else s;
      var s3 := if JsTruthy(reasoning) then Emit(s2, TextChunk(reasoning.value)) else s2;
      if JsTruthy(JsOpt(Some(choice), "finish_reason")) then Emit(s3, StopChunk).(ended := true) else s3
  }

  function GeminiLines(s: GeminiState, lines: seq<string>, parse: Parser): (r: GeminiState)
    decreases |lines|
  {
    if |lines| == 0 then s
    else
      var next := match LineChoice(lines[0], parse)
        case None => s
        case Some(choice) => GeminiChoice(s, choice);
      GeminiLines(next, lines[1..], parse)
  }

  function GeminiStream(buffers: seq<string>, parse: Parser): (r: seq<GeminiChunk>)
    ensures Shaped(r)
  {
    LinesShaped(GeminiState(false, []), Lines(buffers), parse);
    GeminiLines(GeminiState(false, []), Lines(buffers), parse).out
  }

  // ---------------------------------------------------------------------------
  // The shape of the Gemini stream

  /** Text chunks carry a truthy text. */
  predicate TextChunks(cs: seq<GeminiChunk>) {
    forall k :: 0 <= k < |cs| ==> cs[k].TextChunk? && JsTruthy(Some(cs[k].text))
  }

  /** Text chunks, then possibly one stop chunk, last. */
  predicate Shaped(cs: seq<GeminiChunk>) {
    TextChunks(cs) || (|cs| >= 1 && cs[|cs| - 1] == StopChunk && TextChunks(cs[..|cs| - 1]))
  }

  predicate StateShaped(s: GeminiState) {
    if s.ended then |s.out| >= 1 && s.out[|s.out| - 1] == StopChunk && TextChunks(s.out[..|s.out| - 1])
    else TextChunks(s.out)
  }

  lemma ChoiceShaped(s: GeminiState, choice: Json)
    requires StateShaped(s)
    ensures StateShaped(GeminiChoice(s, choice))
  {
    if !s.ended && DeltaParts(choice).Ok? {
      var (content, reasoning) := DeltaParts(choice).value;
      var s2 := if JsTruthy(content) then Emit(s, TextChunk(content.value)) else s;
      var s3 := if JsTruthy(reasoning) then Emit(s2, TextChunk(reasoning.value)) else s2;
      assert TextChunks(s3.out);
      assert Emit(s3, StopChunk).out[..|s3.out|] == s3.out;
    }
  }

  lemma {:induction false} LinesShaped(s: GeminiState, lines: seq<string>, parse: Parser)
    requires StateShaped(s)
    ensures Shaped(GeminiLines(s, lines, parse).out)
    ensures StateShaped(GeminiLines(s, lines, parse))
    decreases |lines|
  {
    if |lines| > 0 {
      if LineChoice(lines[0], parse).Some? {
        ChoiceShaped(s, LineChoice(lines[0], parse).value);
      }
      var next := match LineChoice(lines[0], parse)
        case None => s
        case Some(choice) => GeminiChoice(s, choice);
      LinesShaped(next, lines[1..], parse);
    }
  }

  /** The texts written before the stop chunk, in order. */
  function Texts(cs: seq<GeminiChunk>): seq<Json> {
    if |cs| == 0 then [] else (if cs[0].TextChunk? then [cs[0].text] else []) + Texts(cs[1..])
  }

  lemma {:induction false} TextsAppend(a: seq<GeminiChunk>, b: seq<GeminiChunk>)
    ensures Texts(a + b) == Texts(a) + Texts(b)
    decreases |a|
  {
    if |a| == 0 {
      assert a + b == b;
    } else {
      assert (a + b)[0] == a[0];
      assert (a + b)[1..] == a[1..] + b;
      TextsAppend(a[1..], b);
    }
  }

  /** On an open stream each choice adds exactly its truthy deltas' texts:
      one chunk per non-empty content or reasoning delta. */
  lemma ChoiceAddsItsTexts(s: GeminiState, choice: Json)
    requires !s.ended
    ensures Texts(GeminiChoice(s, choice).out) == Texts(s.out) + ChoiceTexts(choice)
  {
    if DeltaParts(choice).Ok? {
      var (content, reasoning) := DeltaParts(choice).value;
      var s2 := if JsTruthy(content) then Emit(s, TextChunk(content.value)) else s;
      var s3 := if JsTruthy(reasoning) then Emit(s2, TextChunk(reasoning.value)) else s2;
      var a := if JsTruthy(content) then [content.value] else [];
      var b := if JsTruthy(reasoning) then [reasoning.value] else [];
      if JsTruthy(content) { EmitTexts(s, TextChunk(content.value)); }
      if JsTruthy(reasoning) { EmitTexts(s2, TextChunk(reasoning.value)); }
      EmitTexts(s3, StopChunk);
      ChoiceEnd(s, choice, s3);
      AppendTwice(Texts(s.out), a, b);
    }
  }

  /** One emitted chunk adds its text, if it has one. */
  lemma EmitTexts(s: GeminiState, c: GeminiChunk)
    requires !s.ended
    ensures Texts(Emit(s, c).out) == Texts(s.out) + (if c.TextChunk? then [c.text] else [])
  {
    TextsAppend(s.out, [c]);
  }

  /** The choice's final state is the one after its deltas, stopped or not. */
  lemma ChoiceEnd(s: GeminiState, choice: Json, s3: GeminiState)
    requires DeltaParts(choice).Ok?
    requires var (content, reasoning) := DeltaParts(choice).value;
      var s2 := if JsTruthy(content) then Emit(s, TextChunk(content.value)) else s;
      s3 == if JsTruthy(reasoning) then Emit(s2, TextChunk(reasoning.value)) else s2
    ensures GeminiChoice(s, choice) == s3 || GeminiChoice(s, choice) == Emit(s3, StopChunk).(ended := true)
  {
  }

  lemma AppendTwice(x: seq<Json>, a: seq<Json>, b: seq<Json>)
    ensures x + a + b == x + (a + b)
  {
  }
}
