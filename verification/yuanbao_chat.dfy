/** Yuanbao's chat helpers: the model table lookup, the flattening of a
    message list into one prompt, and the translation of Yuanbao's `data:`
    lines into OpenAI chunks. The model table is the parameter `mapping`;
    `json.loads` of a line starting with `{` is the parameter `parse`,
    which yields the object's fields or fails. */
module YuanbaoChat {
  import opened Wrappers
  import opened Text
  import opened Json
  import Seqs

  /** `json.loads` of text that starts with `{`: a dict or a decode error. */
  type ObjectParser = string -> Option<seq<Field>>

  // ---------------------------------------------------------------------------
  // get_model_info

  /** `MODEL_MAPPING.get(model_name.lower(), None)`. */
  function GetModelInfo(mapping: map<string, Json>, name: string): (r: Option<Json>)
    ensures r.Some? <==> AsciiLower(name) in mapping
    ensures r.Some? ==> r.value == mapping[AsciiLower(name)]
  {
    if AsciiLower(name) in mapping then Some(mapping[AsciiLower(name)]) else None
  }

  lemma LowerIdempotent(s: string)
    ensures AsciiLower(AsciiLower(s)) == AsciiLower(s)
  {
  }

  /** The lookup ignores case: a name and its lower-case form find the same
      entry. */
  lemma ModelInfoIgnoresCase(mapping: map<string, Json>, name: string)
    ensures GetModelInfo(mapping, AsciiLower(name)) == GetModelInfo(mapping, name)
  {
    LowerIdempotent(name);
  }

  // ---------------------------------------------------------------------------
  // parse_messages

  datatype Message = Message(role: string, content: string)

  predicate HasUser(messages: seq<Message>) {
    exists k :: 0 <= k < |messages| && messages[k].role == "user"
  }

  function RoleLines(messages: seq<Message>): (r: seq<string>)
    ensures |r| == |messages|
    ensures forall k :: 0 <= k < |messages| ==> r[k] == messages[k].role + ": " + messages[k].content
  {
    if |messages| == 0 then [] else [messages[0].role + ": " + messages[0].content] + RoleLines(messages[1..])
  }

  function ContentLines(messages: seq<Message>): (r: seq<string>)
    ensures |r| == |messages|
    ensures forall k :: 0 <= k < |messages| ==> r[k] == messages[k].content
  {
    if |messages| == 0 then [] else [messages[0].content] + ContentLines(messages[1..])
  }

  /** Without any user message every line names its role; with one, lines
      are the bare contents. */
  function ParseMessages(messages: seq<Message>): (r: string)
    ensures HasUser(messages) ==> r == Join(ContentLines(messages), "\n")
    ensures !HasUser(messages) ==> r == Join(RoleLines(messages), "\n")
    ensures |messages| == 0 ==> r == ""
  {
    var lines := if HasUser(messages) then ContentLines(messages) else RoleLines(messages);
    Join(lines, "\n")
  }

  /** Single-line messages can be read back from the prompt, one per line. */
  lemma PromptLines(messages: seq<Message>)
    requires |messages| >= 1 && HasUser(messages)
    requires forall k :: 0 <= k < |messages| ==> NoneOf(messages[k].content, '\n')
    ensures Split(ParseMessages(messages), "\n") == ContentLines(messages)
  {
    SplitJoin(ContentLines(messages), "\n");
  }

  // ---------------------------------------------------------------------------
  // process_response_stream

  /** A yielded item: an OpenAI chunk with its content and finish reason
      (`None` when unset), or the `[DONE]` marker. */
  datatype Out = Chunk(content: Json, finish: Option<Json>) | DoneMarker

  const StartWord: string := "data: "
  const DoneLine: string := "data: [DONE]"
  const ReferenceHeader: string := "\n\n**引用来源**：\n"
  const UnknownSource: string := "未知来源"

  /** `{i}. [{title}]({url})\n` with a dict's defaults; only dicts have `get`. */
  function DocLine(number: nat, doc: Json): (r: Result<string, Exn>)
    ensures r.Err? <==> !doc.JObj?
  {
    match PyGet(doc, "title", JStr(UnknownSource))
    case Err(e) => Err(e)
    case Ok(title) =>
      match PyGet(doc, "url", JStr("#"))
      case Err(e) => Err(e)
      case Ok(url) => Ok(NatToString(number) + ". [" + PyStr(title) + "](" + PyStr(url) + ")\n")
  }

  /** The numbered lines for `docs[from..]`, numbering from `from + 1`. */
  function DocLines(docs: seq<Json>, from: nat): (r: Result<seq<string>, Exn>)
    requires from <= |docs|
    decreases |docs| - from
    ensures r.Ok? ==> |r.value| == |docs| - from
    ensures r.Ok? ==> forall k :: 0 <= k < |r.value| ==> DocLine(from + k + 1, docs[from + k]) == Ok(r.value[k])
    ensures r.Err? <==> exists k :: from <= k < |docs| && !docs[k].JObj?
  {
    if from == |docs| then Ok([])
    else
      match DocLine(from + 1, docs[from])
      case Err(e) => Err(e)
      case Ok(line) =>
        match DocLines(docs, from + 1)
        case Err(e) => Err(e)
        case Ok(rest) => Ok([line] + rest)
  }

  /** The reference block for a truthy `docs`/`references` value. */
  function ReferenceBlock(docs: Json): (r: Result<string, Exn>)
    ensures r.Ok? ==> StartsWith(r.value, ReferenceHeader)
  {
    match PyIter(docs)
    case Err(e) => Err(e)
    case Ok(items) =>
      match DocLines(items, 0)
      case Err(e) => Err(e)
      case Ok(lines) =>
        AppendKeepsPrefix(ReferenceHeader, ReferenceHeader, Seqs.Flatten(lines));
        Ok(ReferenceHeader + Seqs.Flatten(lines))
  }

  function Get(fields: seq<Field>, key: string, default: Json): Json {
    Lookup(fields, key).GetOr(default)
  }

  predicate TypeIs(fields: seq<Field>, t: string) {
    Lookup(fields, "type") == Some(JStr(t))
  }

  /** The content of a chunk of type `text`, `searchGuid` or `reference`
      (and "" for others). A `reference` chunk without references falls back
      to its `msg`, unless that looks like JSON; `.strip()` of a non-string
      `msg` raises. */
  function ChunkContent(fields: seq<Field>): (r: Result<Json, Exn>)
    ensures TypeIs(fields, "text") ==> r == Ok(Get(fields, "msg", JStr("")))
    ensures !TypeIs(fields, "text") && !TypeIs(fields, "searchGuid") && !TypeIs(fields, "reference") ==> r == Ok(JStr(""))
  {
    if TypeIs(fields, "text") then Ok(Get(fields, "msg", JStr("")))
    else if TypeIs(fields, "searchGuid") then
      var docs := Get(fields, "docs", JArr([]));
      if !PyTruthy(docs) then Ok(JStr(""))
      else
        match ReferenceBlock(docs)
        case Err(e) => Err(e)
        case Ok(text) => Ok(JStr(text))
    else if TypeIs(fields, "reference") then
      var refs := Get(fields, "references", JArr([]));
      var block := if PyTruthy(refs) then ReferenceBlock(refs) else Ok("");
      match block
      case Err(e) => Err(e)
      case Ok(content) =>
        var msg := Get(fields, "msg", JNull);
        if content == "" && PyTruthy(msg) then
          if !msg.JStr? then Err(AttributeError)
          else if StartsWith(PyStrip(msg.s), "{") then Ok(JStr(content))
          else Ok(JStr(content + "\n\n参考资料: " + msg.s + "\n"))
        else Ok(JStr(content))
    else Ok(JStr(""))
  }

  /** A `reference` chunk without references shows its plain-text `msg`
      under a `参考资料` heading. */
  lemma ReferenceFallsBackToMsg(fields: seq<Field>, m: string)
    requires TypeIs(fields, "reference") && !PyTruthy(Get(fields, "references", JArr([])))
    requires Get(fields, "msg", JNull) == JStr(m)
    requires |m| > 0 && !StartsWith(PyStrip(m), "{")
    ensures ChunkContent(fields) == Ok(JStr("\n\n参考资料: " + m + "\n"))
  {
    assert "" + "\n\n参考资料: " + m + "\n" == "\n\n参考资料: " + m + "\n";
  }

  /** A `searchGuid` chunk with documents shows the reference block. */
  lemma SearchGuidShowsReferences(docs: seq<Json>)
    requires |docs| > 0 && forall k :: 0 <= k < |docs| ==> docs[k].JObj?
    ensures var r := ChunkContent([Field("type", JStr("searchGuid")), Field("docs", JArr(docs))]);
            r.Ok? && r.value.JStr? && StartsWith(r.value.s, ReferenceHeader)
  {
    var fields := [Field("type", JStr("searchGuid")), Field("docs", JArr(docs))];
    assert Lookup(fields, "type") == Some(JStr("searchGuid"));
    assert JStr("searchGuid") != JStr("text");
    assert "type"[0] != "docs"[0];
    assert Lookup(fields[1..], "docs") == Some(JArr(docs));
    assert ReferenceBlock(JArr(docs)).Ok?;
  }

  /** What one line does. */
  datatype Step = Skip | Stop | Fail(e: Exn) | Emit(content: Json) | NewFinish(reason: Json)

  /** The object a `data: {...}` line carries, when it parses. */
  function LineObject(line: string): (r: Option<string>)
    ensures r.Some? ==> line == StartWord + r.value && StartsWith(r.value, "{")
  {
    if !StartsWith(line, StartWord) then None
    else
      var data := line[|StartWord|..];
      assert line == StartWord + data;
      if StartsWith(data, "{") then Some(data) else None
  }

  /** Tips and meta chunks never show their content. */
  predicate Shown(fields: seq<Field>) {
    !TypeIs(fields, "tips") && !TypeIs(fields, "meta")
  }

  function LineStep(line: string, parse: ObjectParser): (r: Step)
    ensures !StartsWith(line, StartWord) ==> r == Skip
    ensures r == Stop <==> line == DoneLine
    ensures r.Emit? ==> PyTruthy(r.content)
    ensures r.NewFinish? ==> PyTruthy(r.reason)
    ensures LineObject(line).None? || parse(LineObject(line).value).None? ==> r == Skip || r == Stop
    ensures LineObject(line).Some? && parse(LineObject(line).value).Some? ==>
      r == ObjectStep(parse(LineObject(line).value).value)
    ensures r.Emit? ==>
      LineObject(line).Some? && parse(LineObject(line).value).Some?
      && ChunkContent(parse(LineObject(line).value).value) == Ok(r.content)
  {
    if line == "" || !StartsWith(line, StartWord) then
      assert StartsWith(DoneLine, StartWord);
      Skip
    else
      var data := line[|StartWord|..];
      assert line == StartWord + data;
      if data == "[DONE]" then
        assert data[..1] == "[";
        Stop
      else if !StartsWith(data, "{") then Skip
      else
        match parse(data)
        case None => Skip
        case Some(fields) =>
          ObjectStep(fields)
  }

  /** What the object of a `data:` line does: a content that raises fails
      the stream; tips are skipped; a meta chunk may set the finish reason;
      any other chunk's truthy content is emitted. */
  function ObjectStep(fields: seq<Field>): (r: Step)
    ensures r != Stop
    ensures match ChunkContent(fields)
      case Err(e) => r == Fail(e)
      case Ok(content) =>
        && (r.Emit? <==> Shown(fields) && PyTruthy(content))
        && (r.Emit? ==> r.content == content)
        && (r.NewFinish? <==> TypeIs(fields, "meta") && PyTruthy(Get(fields, "stopReason", JNull)))
        && (r.NewFinish? ==> r.reason == Get(fields, "stopReason", JNull))
  {
    match ChunkContent(fields)
    case Err(e) => Fail(e)
    case Ok(content) =>
      if TypeIs(fields, "tips") then Skip
      else if TypeIs(fields, "meta") then
        var reason := Get(fields, "stopReason", JNull);
        if PyTruthy(reason) then NewFinish(reason) else Skip
      else if PyTruthy(content) then Emit(content)
      else Skip
  }

  /** What the generator yields, and the exception it ends with, if any. */
  datatype Yielded = Yielded(out: seq<Out>, error: Option<Exn>)

  /** The generator over the response lines; `finish` starts as "stop". */
  function Process(lines: seq<string>, finish: Json, parse: ObjectParser): (r: Yielded)
    decreases |lines|
    ensures Shaped(r)
  {
    if |lines| == 0 then Yielded([], None)
    else
      match LineStep(lines[0], parse)
      case Skip => Process(lines[1..], finish, parse)
      case Stop => Yielded([Chunk(JStr(""), Some(finish)), DoneMarker], None)
      case Fail(e) => Yielded([], Some(e))
      case NewFinish(reason) => Process(lines[1..], reason, parse)
      case Emit(content) =>
        var rest := Process(lines[1..], finish, parse);
        ShapedCons(content, rest);
        Yielded([Chunk(content, None)] + rest.out, rest.error)
  }

  function ProcessResponseStream(lines: seq<string>, parse: ObjectParser): (r: Yielded)
    ensures Shaped(r)
  {
    Process(lines, JStr("stop"), parse)
  }

  /** The contents of the chunks without a finish reason, in order. */
  function Contents(out: seq<Out>): seq<Json> {
    if |out| == 0 then []
    else (if out[0].Chunk? && out[0].finish.None? then [out[0].content] else []) + Contents(out[1..])
  }

  /** The reference: the truthy contents of the shown chunks of the lines,
      up to `[DONE]` or the first chunk whose content raises. */
  function LineContents(lines: seq<string>, parse: ObjectParser): seq<Json>
    decreases |lines|
  {
    if |lines| == 0 || lines[0] == DoneLine then []
    else
      match LineObject(lines[0])
      case None => LineContents(lines[1..], parse)
      case Some(data) =>
        match parse(data)
        case None => LineContents(lines[1..], parse)
        case Some(fields) =>
          match ChunkContent(fields)
          case Err(_) => []
          case Ok(content) =>
            (if Shown(fields) && PyTruthy(content) then [content] else []) + LineContents(lines[1..], parse)
  }

  /** The content chunks yielded are the truthy contents of the shown
      chunks before `[DONE]`, in order; the final chunk carries none. */
  lemma {:induction false} ProcessContents(lines: seq<string>, finish: Json, parse: ObjectParser)
    ensures Contents(Process(lines, finish, parse).out) == LineContents(lines, parse)
    decreases |lines|
  {
    if |lines| > 0 {
      var step := LineStep(lines[0], parse);
      var next := if step.NewFinish? then step.reason else finish;
      if step.Stop? {
        FinalHasNoContents(finish);
      } else if !step.Fail? {
        ProcessContents(lines[1..], next, parse);
        if step.Emit? {
          var rest := Process(lines[1..], finish, parse).out;
          var out := [Chunk(step.content, None)] + rest;
          assert out[1..] == rest;
          assert Contents(out) == [step.content] + Contents(rest);
        }
      }
    }
  }

  lemma FinalHasNoContents(finish: Json)
    ensures Contents([Chunk(JStr(""), Some(finish)), DoneMarker]) == []
  {
    var out := [Chunk(JStr(""), Some(finish)), DoneMarker];
    var last: seq<Out> := [DoneMarker];
    assert out[1..] == last;
    assert last[1..] == [];
    assert Contents(last) == [] + Contents([]);
    assert Contents(out) == [] + Contents(last);
  }

  /** From the start of the response: the same, with `stop` as the first
      finish reason. */
  lemma StreamContents(lines: seq<string>, parse: ObjectParser)
    ensures Contents(ProcessResponseStream(lines, parse).out) == LineContents(lines, parse)
  {
    ProcessContents(lines, JStr("stop"), parse);
  }

  /** Content chunks carry text and no finish reason; `[DONE]`, if yielded,
      comes last, right after the one chunk with a finish reason, and not
      after an exception. */
  predicate Shaped(y: Yielded) {
    var n := |y.out|;
    (forall k :: 0 <= k < n && y.out[k] != DoneMarker && y.out[k].finish.None? ==> PyTruthy(y.out[k].content))
    && if DoneMarker in y.out then
         n >= 2 && y.out[n - 1] == DoneMarker && y.out[n - 2].Chunk? && y.out[n - 2].finish.Some?
         && y.error.None?
         && forall k :: 0 <= k < n - 2 ==> y.out[k].Chunk? && y.out[k].finish.None?
       else forall k :: 0 <= k < n ==> y.out[k].Chunk? && y.out[k].finish.None?
  }

  lemma ShapedCons(content: Json, y: Yielded)
    requires Shaped(y) && PyTruthy(content)
    ensures Shaped(Yielded([Chunk(content, None)] + y.out, y.error))
  {
    var out := [Chunk(content, None)] + y.out;
    assert forall k :: 1 <= k < |out| ==> out[k] == y.out[k - 1];
    assert DoneMarker in out <==> DoneMarker in y.out;
  }

  /** The final chunk carries the last truthy `stopReason` of a `meta`
      chunk before `[DONE]`: whatever came before that meta line (short of
      `[DONE]` or an exception), and whatever content follows it up to
      `[DONE]`, as long as no later meta line sets another reason. The lines
      are `pre`, the meta line, `mid`, `[DONE]`, then `post`. */
  lemma {:induction false} FinishFromMeta(pre: seq<string>, meta: string, mid: seq<string>, post: seq<string>,
                                          finish: Json, parse: ObjectParser, reason: Json)
    requires forall k :: 0 <= k < |pre| ==> !LineStep(pre[k], parse).Stop? && !LineStep(pre[k], parse).Fail?
    requires LineStep(meta, parse) == NewFinish(reason)
    requires forall k :: 0 <= k < |mid| ==> LineStep(mid[k], parse).Skip? || LineStep(mid[k], parse).Emit?
    ensures var out := Process(pre + ([meta] + (mid + ([DoneLine] + post))), finish, parse).out;
      |out| >= 2 && out[|out| - 2..] == [Chunk(JStr(""), Some(reason)), DoneMarker]
    decreases |pre|
  {
    var tail := [meta] + (mid + ([DoneLine] + post));
    if |pre| == 0 {
      assert pre + tail == tail;
      Seqs.Cons(meta, mid + ([DoneLine] + post));
      DoneCarriesFinish(mid, post, reason, parse);
    } else {
      Seqs.ConcatFront(pre, tail);
      var step := LineStep(pre[0], parse);
      var next := if step.NewFinish? then step.reason else finish;
      FinishFromMeta(pre[1..], meta, mid, post, next, parse, reason);
    }
  }

  /** Content and skipped lines before `[DONE]` leave the finish reason in
      effect for the final chunk. */
  lemma {:induction false} DoneCarriesFinish(mid: seq<string>, post: seq<string>, finish: Json, parse: ObjectParser)
    requires forall k :: 0 <= k < |mid| ==> LineStep(mid[k], parse).Skip? || LineStep(mid[k], parse).Emit?
    ensures var out := Process(mid + ([DoneLine] + post), finish, parse).out;
      |out| >= 2 && out[|out| - 2..] == [Chunk(JStr(""), Some(finish)), DoneMarker]
    decreases |mid|
  {
    var tail := [DoneLine] + post;
    if |mid| == 0 {
      assert mid + tail == tail;
      Seqs.Cons(DoneLine, post);
      assert LineStep(DoneLine, parse) == Stop;
    } else {
      Seqs.ConcatFront(mid, tail);
      DoneCarriesFinish(mid[1..], post, finish, parse);
    }
  }

  /** Lines after `[DONE]` are never read. */
  lemma {:induction false} DoneStops(pre: seq<string>, post: seq<string>, finish: Json, parse: ObjectParser)
    requires forall k :: 0 <= k < |pre| ==> LineStep(pre[k], parse) == Skip
    ensures Process(pre + [DoneLine] + post, finish, parse).out == [Chunk(JStr(""), Some(finish)), DoneMarker]
    decreases |pre|
  {
    var lines := pre + [DoneLine] + post;
    if |pre| == 0 {
      assert lines[0] == DoneLine;
      assert LineStep(lines[0], parse) == Stop;
    } else {
      assert lines[0] == pre[0];
      assert lines[1..] == pre[1..] + [DoneLine] + post;
      DoneStops(pre[1..], post, finish, parse);
    }
  }

  /** Without a `[DONE]` line the stream just ends: no final chunk. */
  lemma {:induction false} NoDoneNoMarker(lines: seq<string>, finish: Json, parse: ObjectParser)
    requires forall k :: 0 <= k < |lines| ==> lines[k] != DoneLine
    ensures DoneMarker !in Process(lines, finish, parse).out
    decreases |lines|
  {
    if |lines| > 0 {
      var step := LineStep(lines[0], parse);
      if step.Skip? || step.NewFinish? || step.Emit? {
        var next := if step.NewFinish? then step.reason else finish;
        NoDoneNoMarker(lines[1..], next, parse);
      }
    }
  }

  /** The reference list is numbered from 1, with `未知来源` and `#` for a
      missing title or url. */
  lemma DefaultsInDocLine(number: nat)
    ensures DocLine(number, JObj([])) == Ok(NatToString(number) + ". [" + UnknownSource + "](#)\n")
  {
    assert PyGet(JObj([]), "title", JStr(UnknownSource)) == Ok(JStr(UnknownSource));
    assert PyGet(JObj([]), "url", JStr("#")) == Ok(JStr("#"));
    var head := NatToString(number) + ". [" + UnknownSource;
    assert head + "](" + "#" + ")\n" == head + "](#)\n";
  }
}
