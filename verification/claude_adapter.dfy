/** The Claude Messages adapter over the DeepSeek controller: Claude
    messages and system prompt to DeepSeek messages, a DeepSeek completion
    to a Claude message, and the DeepSeek chunk stream to Claude's event
    stream. The fresh message id is the parameter `uuid`. */
module ClaudeAdapter {
  import opened Wrappers
  import opened Text
  import opened Json
  import opened AdapterCommon
  import DeepSeekChat
  import Seqs

  // ---------------------------------------------------------------------------
  // convertClaudeToDeepSeek

  /** Text items joined with `\n`; a `null` item throws. */
  function ItemsText(items: seq<Json>): (r: Result<string, Exn>)
    ensures r.Err? <==> JNull in items
  {
    match DeepSeekChat.TextItems(items)
    case Err(e) => Err(e)
    case Ok(texts) => Ok(JsJoin(texts, "\n"))
  }

  /** The system prompt as text: an array gives its text items, a string
      itself; any other value, or a falsy one, gives none. */
  function SystemText(system: Option<Json>): (r: Result<Option<string>, Exn>)
    ensures !JsTruthy(system) ==> r == Ok(None)
    ensures system.Some? && system.value.JStr? ==> r == Ok(if system.value.s == "" then None else Some(system.value.s))
  {
    if !JsTruthy(system) then Ok(None)
    else
      match system.value
      case JArr(items) =>
        (match ItemsText(items)
         case Err(e) => Err(e)
         case Ok(text) => Ok(Some(text)))
      case JStr(s) => Ok(Some(s))
      case _ => Ok(None)
  }

  /** `null`/`undefined` content becomes "", array content its text items;
      anything else is passed on as it is. */
  function MessageContent(content: Option<Json>): (r: Result<Json, Exn>)
    ensures content.None? || content == Some(JNull) ==> r == Ok(JStr(""))
    ensures content.Some? && !content.value.JNull? && !content.value.JArr? ==> r == Ok(content.value)
  {
    match content
    case None => Ok(JStr(""))
    case Some(JNull) => Ok(JStr(""))
    case Some(JArr(items)) =>
      (match ItemsText(items)
       case Err(e) => Err(e)
       case Ok(text) => Ok(JStr(text)))
    case Some(c) => Ok(c)
  }

  /** The roles the adapter keeps, under the names it gives them. */
  function ChatRole(message: Json): Option<string> {
    var role := JsOpt(Some(message), "role");
    if role == Some(JStr("user")) then Some("user")
    else if role == Some(JStr("assistant")) then Some("assistant")
    else None
  }

  predicate IsChat(message: Json) {
    ChatRole(message).Some?
  }

  /** The loop over the messages: user and assistant messages are kept in
      order, anything else dropped; the first user message takes the system
      text (when it is non-empty); a `null` message throws on `msg.role`. */
  function ConvertLoop(messages: seq<Json>, system: Option<string>, prepended: bool): (r: Result<seq<Converted>, Exn>)
    decreases |messages|
    ensures r.Ok? ==> |r.value| <= |messages|
  {
    if |messages| == 0 then Ok([])
    else if messages[0] == JNull then Err(TypeError)
    else
      match ChatRole(messages[0])
      case None => ConvertLoop(messages[1..], system, prepended)
      case Some(role) =>
        match MessageContent(JsOpt(Some(messages[0]), "content"))
        case Err(e) => Err(e)
        case Ok(content) =>
          var m := Converted(role, content);
          var prepend := role == "user" && system.Some? && system.value != "" && !prepended;
          match ConvertLoop(messages[1..], system, prepended || prepend)
          case Err(e) => Err(e)
          case Ok(rest) => Ok([if prepend then WithSystem(m, system.value) else m] + rest)
  }

  /** `convertClaudeToDeepSeek(messages, system)`. */
  function ConvertClaudeToDeepSeek(messages: seq<Json>, system: Option<Json>): (r: Result<seq<Converted>, Exn>)
    ensures system.None? ==> r == ConvertLoop(messages, None, false)
  {
    match SystemText(system)
    case Err(e) => Err(e)
    case Ok(text) => ConvertLoop(messages, text, false)
  }

  /** A converted message carries the role and the converted content of the
      message it comes from. */
  predicate ConvertedFrom(message: Json, c: Converted) {
    ChatRole(message) == Some(c.role) && MessageContent(JsOpt(Some(message), "content")) == Ok(c.content)
  }

  /** Without system text the loop is a filter-and-map. */
  lemma {:induction false} KeepsChatMessages(messages: seq<Json>)
    requires ConvertLoop(messages, None, false).Ok?
    ensures |ConvertLoop(messages, None, false).value| == |Seqs.Filter(messages, IsChat)|
    ensures forall k :: 0 <= k < |Seqs.Filter(messages, IsChat)| ==>
              ConvertedFrom(Seqs.Filter(messages, IsChat)[k], ConvertLoop(messages, None, false).value[k])
    decreases |messages|
  {
    if |messages| > 0 {
      PlainLoopStep(messages);
      KeepsChatMessages(messages[1..]);
      if IsChat(messages[0]) {
        ConvertedCons(ConvertLoop(messages, None, false).value, ConvertLoop(messages[1..], None, false).value,
                  Seqs.Filter(messages, IsChat), Seqs.Filter(messages[1..], IsChat));
      }
    }
  }

  /** One message of the loop without system text: a chat message adds one
      converted message with its role, anything else adds nothing. */
  lemma PlainLoopStep(messages: seq<Json>)
    requires |messages| > 0 && ConvertLoop(messages, None, false).Ok?
    ensures ConvertLoop(messages[1..], None, false).Ok?
    ensures var r := ConvertLoop(messages, None, false).value;
      var rest := ConvertLoop(messages[1..], None, false).value;
      var f := Seqs.Filter(messages, IsChat);
      var g := Seqs.Filter(messages[1..], IsChat);
      if IsChat(messages[0]) then
        |r| == |rest| + 1 && r[1..] == rest && ConvertedFrom(messages[0], r[0]) && f == [messages[0]] + g
      else r == rest && f == g
  {
    assert Seqs.Filter(messages, IsChat) == (if IsChat(messages[0]) then [messages[0]] else []) + Seqs.Filter(messages[1..], IsChat);
  }

  /** The message-by-message agreement survives putting one more message in front. */
  lemma ConvertedCons(r: seq<Converted>, rest: seq<Converted>, f: seq<Json>, g: seq<Json>)
    requires |r| == |rest| + 1 && r[1..] == rest && |f| == |g| + 1 && f[1..] == g
    requires ConvertedFrom(f[0], r[0])
    requires |rest| == |g| && forall k :: 0 <= k < |g| ==> ConvertedFrom(g[k], rest[k])
    ensures forall k :: 0 <= k < |f| ==> ConvertedFrom(f[k], r[k])
  {
    forall k | 0 <= k < |f| ensures ConvertedFrom(f[k], r[k]) {
      if k > 0 {
        assert r[k] == rest[k - 1] && f[k] == g[k - 1];
      }
    }
  }

  /** Once the system text has been placed, or when there is none, the loop
      is the same as without it. */
  lemma {:induction false} PrependedIsPlain(messages: seq<Json>, system: Option<string>, prepended: bool)
    requires prepended || system.None? || system == Some("")
    ensures ConvertLoop(messages, system, prepended) == ConvertLoop(messages, None, false)
    decreases |messages|
  {
    if |messages| > 0 && messages[0] != JNull && ChatRole(messages[0]).Some? {
      PrependedIsPlain(messages[1..], system, prepended);
    } else if |messages| > 0 && messages[0] != JNull {
      PrependedIsPlain(messages[1..], system, prepended);
    }
  }

  /** The system text ends up on the first user message and nowhere else:
      the loop agrees with converting without it and then placing it. */
  lemma {:induction false} SystemOnFirstUser(messages: seq<Json>, system: string)
    requires system != ""
    ensures ConvertLoop(messages, Some(system), false)
         == match ConvertLoop(messages, None, false)
            case Err(e) => Err(e)
            case Ok(ms) => Ok(PrependFirstUser(ms, system))
    decreases |messages|
  {
    if |messages| > 0 && messages[0] != JNull {
      var role := ChatRole(messages[0]);
      if role == Some("user") {
        PrependedIsPlain(messages[1..], Some(system), true);
      } else {
        SystemOnFirstUser(messages[1..], system);
      }
    }
  }

  // ---------------------------------------------------------------------------
  // convertDeepSeekToClaude

  /** The Claude message built from a DeepSeek completion. */
  datatype ClaudeMessage = ClaudeMessage(id: Json, text: Option<Json>, stopReason: string,
                                         inputTokens: Json, outputTokens: Json)

  function ConvertDeepSeekToClaude(response: Json, uuid: string): (r: Result<ClaudeMessage, Exn>)
    ensures r.Ok? <==> ReadReply(response).Ok?
    ensures r.Ok? ==> r.value.text == FullContent(ReadReply(response).value.content, ReadReply(response).value.reasoning)
    ensures r.Ok? ==> (r.value.stopReason == "end_turn" <==> ReadReply(response).value.finishReason == Some(JStr("stop")))
    ensures r.Ok? ==> (r.value.stopReason == "end_turn" || r.value.stopReason == "max_tokens")
    ensures r.Ok? && JsOpt(ReadReply(response).value.usage, "prompt_tokens").None? ==> r.value.inputTokens == JNum(0)
    ensures r.Ok? && JsOpt(ReadReply(response).value.usage, "completion_tokens").None? ==> r.value.outputTokens == JNum(0)
    ensures r.Ok? ==> (r.value.id == JStr(uuid) || JsTruthy(Some(r.value.id)))
    ensures r.Ok? ==>
      r.value.id == if JsTruthy(JsOpt(Some(response), "id")) then JsOpt(Some(response), "id").value else JStr(uuid)
  {
    match ReadReply(response)
    case Err(e) => Err(e)
    case Ok(reply) =>
      var id := JsOpt(Some(response), "id");
      Ok(ClaudeMessage(
        if JsTruthy(id) then id.value else JStr(uuid),
        FullContent(reply.content, reply.reasoning),
        if reply.finishReason == Some(JStr("stop")) then "end_turn" else "max_tokens",
        UsageCount(reply.usage, "prompt_tokens"),
        UsageCount(reply.usage, "completion_tokens")))
  }

  // ---------------------------------------------------------------------------
  // convertDeepSeekStreamToClaude

  datatype ClaudeEvent =
    | MessageStart(id: string)
    | BlockStart
    | BlockDelta(text: Json)
    | BlockStop
    | MessageDelta
    | MessageStop

  /** Whether the two opening events are still to come, whether the output
      has ended, and the events written. */
  datatype ClaudeState = ClaudeState(first: bool, ended: bool, out: seq<ClaudeEvent>)

  const ClaudeStart: ClaudeState := ClaudeState(true, false, [])

  /** Writes after `end()` are dropped. */
  function Emit(s: ClaudeState, events: seq<ClaudeEvent>): (r: ClaudeState)
    ensures r.out == if s.ended then s.out else s.out + events
    ensures r.first == s.first && r.ended == s.ended
  {
    if s.ended then s else s.(out := s.out + events)
  }

  function Head(id: string): seq<ClaudeEvent> {
    [MessageStart(id), BlockStart]
  }

  const Tail: seq<ClaudeEvent> := [BlockStop, MessageDelta, MessageStop]

  /** One choice: the opening events before the first one; a delta event
      for truthy `content` and then for truthy `reasoning_content`; on a
      truthy `finish_reason` the three closing events and `end()`. A missing
      or `null` delta throws after the opening events are written. */
  function ClaudeChoice(s: ClaudeState, id: string, choice: Json): (r: ClaudeState)
    ensures !r.first
    ensures s.ended ==> r.ended && r.out == s.out
    ensures r.ended <==> s.ended || Finishing(choice)
  {
    ChoiceDeltas(if s.first then Emit(s, Head(id)).(first := false) else s, choice)
  }

  /** A choice once the opening events are out of the way. */
  function ChoiceDeltas(s1: ClaudeState, choice: Json): (r: ClaudeState)
    ensures r.first == s1.first
    ensures s1.ended ==> r.ended && r.out == s1.out
    ensures r.ended <==> s1.ended || Finishing(choice)
  {
    match DeltaParts(choice)
    case Err(_) => s1
    case Ok((content, reasoning)) =>
      var s3 := EmitTruthy(EmitTruthy(s1, content), reasoning);
      if JsTruthy(JsOpt(Some(choice), "finish_reason")) then Emit(s3, Tail).(ended := true) else s3
  }

  /** A delta event for a truthy text; nothing for a falsy one. */
  function EmitTruthy(s: ClaudeState, text: Option<Json>): (r: ClaudeState)
    ensures r.first == s.first && r.ended == s.ended
    ensures r.out == if s.ended then s.out else s.out + DeltaEvents(if JsTruthy(text) then [text.value] else [])
  {
    if JsTruthy(text) then
      assert DeltaEvents([text.value]) == [BlockDelta(text.value)];
      Emit(s, [BlockDelta(text.value)])
    else
      assert DeltaEvents([]) == [];
      s
  }

  /** A choice that closes the stream: its delta can be read and its
      `finish_reason` is truthy. */
  predicate Finishing(choice: Json) {
    DeltaParts(choice).Ok? && JsTruthy(JsOpt(Some(choice), "finish_reason"))
  }

  function ClaudeLines(s: ClaudeState, id: string, lines: seq<string>, parse: Parser): (r: ClaudeState)
    decreases |lines|
  {
    if |lines| == 0 then s
    else
      var next := match LineChoice(lines[0], parse)
        case None => s
        case Some(choice) => ClaudeChoice(s, id, choice);
      ClaudeLines(next, id, lines[1..], parse)
  }

  /** The Claude event stream; the upstream's end or error only ends it. */
  function ClaudeStream(buffers: seq<string>, id: string, parse: Parser): (r: seq<ClaudeEvent>)
    ensures ClaudeShaped(r, id)
  {
    var s := ClaudeLines(ClaudeStart, id, Lines(buffers), parse);
    LinesShaped(ClaudeStart, id, Lines(buffers), parse);
    ShapedIsClaudeShaped(s, id);
    s.out
  }

  // ---------------------------------------------------------------------------
  // The shape of the Claude stream

  predicate AllDeltas(es: seq<ClaudeEvent>) {
    forall k :: 0 <= k < |es| ==> es[k].BlockDelta?
  }

  /** Nothing, or the opening pair, then deltas, then possibly the closing
      three: `message_start` and `content_block_start` once each before
      every delta, and nothing after `message_stop`. */
  predicate ClaudeShaped(es: seq<ClaudeEvent>, id: string) {
    es == [] || (|es| >= 2 && es[..2] == Head(id)
      && (AllDeltas(es[2..]) || (|es| >= 5 && AllDeltas(es[2..|es| - 3]) && es[|es| - 3..] == Tail)))
  }

  /** The invariant between lines. */
  predicate Shaped(s: ClaudeState, id: string) {
    if s.first then s.out == [] && !s.ended
    else |s.out| >= 2 && s.out[..2] == Head(id)
         && if s.ended then |s.out| >= 5 && AllDeltas(s.out[2..|s.out| - 3]) && s.out[|s.out| - 3..] == Tail
            else AllDeltas(s.out[2..])
  }

  lemma ShapedIsClaudeShaped(s: ClaudeState, id: string)
    requires Shaped(s, id)
    ensures ClaudeShaped(s.out, id)
  {
  }

  /** Appending deltas to an open stream keeps its shape. */
  lemma EmitDeltas(s: ClaudeState, id: string, ds: seq<ClaudeEvent>)
    requires Shaped(s, id) && !s.first && AllDeltas(ds)
    ensures Shaped(Emit(s, ds), id)
  {
    if !s.ended {
      assert (s.out + ds)[2..] == s.out[2..] + ds;
      assert (s.out + ds)[..2] == s.out[..2];
    }
  }

  lemma EmitTail(s: ClaudeState, id: string)
    requires Shaped(s, id) && !s.first
    ensures Shaped(Emit(s, Tail).(ended := true), id)
  {
    if !s.ended {
      var o := s.out + Tail;
      assert o[2..|o| - 3] == s.out[2..];
      assert o[|o| - 3..] == Tail;
      assert o[..2] == s.out[..2];
    }
  }

  lemma ChoiceShaped(s: ClaudeState, id: string, choice: Json)
    requires Shaped(s, id)
    ensures Shaped(ClaudeChoice(s, id, choice), id)
  {
    var s1 := if s.first then Emit(s, Head(id)).(first := false) else s;
    if s.first {
      assert s1.out == Head(id);
      assert s1.out[2..] == [];
    }
    assert Shaped(s1, id);
    match DeltaParts(choice)
    case Err(_) =>
    case Ok((content, reasoning)) =>
      var s2 := EmitTruthy(s1, content);
      if JsTruthy(content) {
        assert s2 == Emit(s1, [BlockDelta(content.value)]);
        EmitDeltas(s1, id, [BlockDelta(content.value)]);
      }
      var s3 := EmitTruthy(s2, reasoning);
      if JsTruthy(reasoning) {
        assert s3 == Emit(s2, [BlockDelta(reasoning.value)]);
        EmitDeltas(s2, id, [BlockDelta(reasoning.value)]);
      }
      EmitTail(s3, id);
  }

  lemma {:induction false} LinesShaped(s: ClaudeState, id: string, lines: seq<string>, parse: Parser)
    requires Shaped(s, id)
    ensures Shaped(ClaudeLines(s, id, lines, parse), id)
    decreases |lines|
  {
    if |lines| > 0 {
      var next := match LineChoice(lines[0], parse)
        case None => s
        case Some(choice) => ClaudeChoice(s, id, choice);
      if LineChoice(lines[0], parse).Some? {
        ChoiceShaped(s, id, LineChoice(lines[0], parse).value);
      }
      LinesShaped(next, id, lines[1..], parse);
    }
  }

  /** After the closing events nothing more is written. */
  lemma {:induction false} EndedIsFinal(s: ClaudeState, id: string, lines: seq<string>, parse: Parser)
    requires s.ended
    ensures ClaudeLines(s, id, lines, parse).out == s.out
    decreases |lines|
  {
    if |lines| > 0 {
      var next := match LineChoice(lines[0], parse)
        case None => s
        case Some(choice) => ClaudeChoice(s, id, choice);
      EndedIsFinal(next, id, lines[1..], parse);
    }
  }

  /** A finishing first chunk with text gives the whole Claude event
      sequence at once. */
  lemma SingleFinishingChoice(id: string, choice: Json, text: string)
    requires DeltaParts(choice) == Ok((Some(JStr(text)), None)) && text != ""
    requires JsTruthy(JsOpt(Some(choice), "finish_reason"))
    ensures ClaudeChoice(ClaudeStart, id, choice).out == Head(id) + [BlockDelta(JStr(text))] + Tail
  {
    FinishingChoiceState(id, choice, text);
  }

  lemma FinishingChoiceState(id: string, choice: Json, text: string)
    requires DeltaParts(choice) == Ok((Some(JStr(text)), None)) && text != ""
    requires JsTruthy(JsOpt(Some(choice), "finish_reason"))
    ensures ClaudeChoice(ClaudeStart, id, choice) == Emit(ClaudeState(false, false, Head(id) + [BlockDelta(JStr(text))]), Tail).(ended := true)
  {
    assert JsTruthy(Some(JStr(text)));
    var s1 := ClaudeState(false, false, Head(id));
    var s2 := ClaudeState(false, false, Head(id) + [BlockDelta(JStr(text))]);
    assert ClaudeChoice(ClaudeStart, id, choice) == ChoiceDeltas(s1, choice);
    assert EmitTruthy(s1, Some(JStr(text))) == s2;
    assert EmitTruthy(s2, None) == s2;
  }

  // ---------------------------------------------------------------------------
  // The text carried by the Claude stream

  /** The texts of the delta events among `es`, in order. */
  function Deltas(es: seq<ClaudeEvent>): seq<Json> {
    if |es| == 0 then [] else (if es[0].BlockDelta? then [es[0].text] else []) + Deltas(es[1..])
  }

  /** One delta event per text. */
  function DeltaEvents(texts: seq<Json>): (r: seq<ClaudeEvent>)
    ensures |r| == |texts|
  {
    if |texts| == 0 then [] else [BlockDelta(texts[0])] + DeltaEvents(texts[1..])
  }

  /** The reference: the texts of the choices of `lines`, up to and
      including the first choice that closes the stream. */
  function StreamTexts(lines: seq<string>, parse: Parser): seq<Json>
    decreases |lines|
  {
    if |lines| == 0 then []
    else
      match LineChoice(lines[0], parse)
      case None => StreamTexts(lines[1..], parse)
      case Some(choice) => ChoiceTexts(choice) + (if Finishing(choice) then [] else StreamTexts(lines[1..], parse))
  }

  lemma {:induction false} DeltasAppend(a: seq<ClaudeEvent>, b: seq<ClaudeEvent>)
    ensures Deltas(a + b) == Deltas(a) + Deltas(b)
    decreases |a|
  {
    if |a| == 0 {
      assert a + b == b;
    } else {
      assert (a + b)[0] == a[0];
      assert (a + b)[1..] == a[1..] + b;
      DeltasAppend(a[1..], b);
      Seqs.Assoc(if a[0].BlockDelta? then [a[0].text] else [], Deltas(a[1..]), Deltas(b));
    }
  }

  /** On an open stream, a choice writes the opening pair if it is the
      first, a delta for its truthy content and then one for its truthy
      reasoning, and the closing three if it finishes the stream. */
  lemma ChoiceEvents(s: ClaudeState, id: string, choice: Json)
    requires !s.ended
    ensures ClaudeChoice(s, id, choice).out
         == s.out + (if s.first then Head(id) else []) + DeltaEvents(ChoiceTexts(choice))
            + (if Finishing(choice) then Tail else [])
  {
    var s1 := if s.first then Emit(s, Head(id)).(first := false) else s;
    assert s1.out == s.out + (if s.first then Head(id) else []);
    DeltaStage(s1, choice);
  }

  lemma DeltaStage(s1: ClaudeState, choice: Json)
    requires !s1.ended
    ensures ChoiceDeltas(s1, choice).out
         == s1.out + DeltaEvents(ChoiceTexts(choice)) + (if Finishing(choice) then Tail else [])
  {
    if DeltaParts(choice).Ok? {
      var content := DeltaParts(choice).value.0;
      var reasoning := DeltaParts(choice).value.1;
      var a := if JsTruthy(content) then [content.value] else [];
      var b := if JsTruthy(reasoning) then [reasoning.value] else [];
      var s3 := EmitTruthy(EmitTruthy(s1, content), reasoning);
      assert s3.out == s1.out + DeltaEvents(a) + DeltaEvents(b);
      assert ChoiceTexts(choice) == a + b;
      DeltaEventsOfTwo(a, b);
      Seqs.Assoc(s1.out, DeltaEvents(a), DeltaEvents(b));
    } else {
      assert DeltaEvents([]) == [];
    }
  }

  lemma DeltaEventsOfTwo(a: seq<Json>, b: seq<Json>)
    requires |a| <= 1
    ensures DeltaEvents(a + b) == DeltaEvents(a) + DeltaEvents(b)
  {
    if |a| == 1 {
      assert (a + b)[0] == a[0];
      assert (a + b)[1..] == b;
      assert a[1..] == [];
      assert DeltaEvents(a) == [BlockDelta(a[0])];
    } else {
      assert a + b == b;
    }
  }

  lemma {:induction false} DeltasOfDeltaEvents(texts: seq<Json>)
    ensures Deltas(DeltaEvents(texts)) == texts
    decreases |texts|
  {
    if |texts| > 0 {
      DeltasOfDeltaEvents(texts[1..]);
      var rest := DeltaEvents(texts[1..]);
      var es := [BlockDelta(texts[0])] + rest;
      assert DeltaEvents(texts) == es;
      assert es[1..] == rest;
      assert [texts[0]] + texts[1..] == texts;
    }
  }

  /** On an open stream each choice adds exactly its truthy texts as
      deltas. */
  lemma ChoiceAddsItsTexts(s: ClaudeState, id: string, choice: Json)
    requires !s.ended
    ensures Deltas(ClaudeChoice(s, id, choice).out) == Deltas(s.out) + ChoiceTexts(choice)
  {
    ChoiceEvents(s, id, choice);
    var head := if s.first then Head(id) else [];
    var tail := if Finishing(choice) then Tail else [];
    FramingHasNoDeltas(id);
    DeltasOfDeltaEvents(ChoiceTexts(choice));
    DeltasBetween(s.out, head, DeltaEvents(ChoiceTexts(choice)), tail);
  }

  lemma FramingHasNoDeltas(id: string)
    ensures Deltas(Head(id)) == [] && Deltas(Tail) == [] && Deltas([]) == []
  {
    assert Head(id)[1..][1..] == [];
    var t1 := Tail[1..];
    var t2 := t1[1..];
    assert t1 == [MessageDelta, MessageStop] && t2 == [MessageStop] && t2[1..] == [];
    assert Deltas(t2) == [];
    assert Deltas(t1) == [];
  }

  lemma DeltasBetween(x: seq<ClaudeEvent>, head: seq<ClaudeEvent>, mid: seq<ClaudeEvent>, tail: seq<ClaudeEvent>)
    requires Deltas(head) == [] && Deltas(tail) == []
    ensures Deltas(x + head + mid + tail) == Deltas(x) + Deltas(mid)
  {
    DeltasAppend(x + head + mid, tail);
    DeltasAppend(x + head, mid);
    DeltasAppend(x, head);
    assert Deltas(x) + [] == Deltas(x);
    assert Deltas(x) + Deltas(mid) + [] == Deltas(x) + Deltas(mid);
  }

  /** Over a run of lines, an open stream gains the texts of every choice up
      to the one that closes it; an ended one gains nothing. */
  lemma {:induction false} LinesAddTheirTexts(s: ClaudeState, id: string, lines: seq<string>, parse: Parser)
    ensures Deltas(ClaudeLines(s, id, lines, parse).out) == Deltas(s.out) + (if s.ended then [] else StreamTexts(lines, parse))
    decreases |lines|
  {
    if s.ended {
      EndedIsFinal(s, id, lines, parse);
    } else if |lines| > 0 {
      var next := match LineChoice(lines[0], parse)
        case None => s
        case Some(choice) => ClaudeChoice(s, id, choice);
      LinesAddTheirTexts(next, id, lines[1..], parse);
      assert ClaudeLines(s, id, lines, parse) == ClaudeLines(next, id, lines[1..], parse);
      match LineChoice(lines[0], parse)
      case None =>
      case Some(choice) =>
        ChoiceAddsItsTexts(s, id, choice);
        var rest := if next.ended then [] else StreamTexts(lines[1..], parse);
        Seqs.Assoc(Deltas(s.out), ChoiceTexts(choice), rest);
    }
  }

  /** The deltas of the Claude stream are the texts of its choices, in
      order, up to the one that closes it. */
  lemma StreamAddsTexts(buffers: seq<string>, id: string, parse: Parser)
    ensures Deltas(ClaudeStream(buffers, id, parse)) == StreamTexts(Lines(buffers), parse)
  {
    LinesAddTheirTexts(ClaudeStart, id, Lines(buffers), parse);
  }
}
