/** `handle_sse` of the Doubao web client: the decoded response chunks are
    appended to a buffer, two failure markers are looked for in the buffer,
    every complete event (text up to a blank line, `\n\n`) is cut off the
    front and classified by its last `event: ` and `data: ` lines, and the
    event's JSON is read with Python's dynamic semantics, an event whose
    handling raises being skipped with whatever it did before raising.
    `json.loads` is the parameter `parse`. */
module DoubaoSse {
  import opened Wrappers
  import opened Text
  import opened Json
  import Seqs
  import Bytes

  const Separator: string := "\n\n"
  const LimitMarker: string := "tourist conversation reach limited"
  const GatewayMarker: string := "event: gateway-error"
  const GatewayPrefix: string := "服务器返回网关错误: "

  // ---------------------------------------------------------------------------
  // Cutting the buffer into events

  /** The complete events of a buffer: the text before each `\n\n`, scanning
      from the left. */
  function Frames(s: string): seq<string>
    decreases |s|
  {
    match IndexOf(s, Separator)
    case None => []
    case Some(i) => [s[..i]] + Frames(s[i + 2..])
  }

  /** What stays in the buffer: the text after the last `\n\n`. */
  function Remainder(s: string): (r: string)
    decreases |s|
    ensures !Contains(r, Separator)
  {
    match IndexOf(s, Separator)
    case None => s
    case Some(i) => Remainder(s[i + 2..])
  }

  /** Cutting events is independent of where the text was split into chunks:
      the events of `x + y` are those of `x` followed by those of what `x`
      left over followed by `y`. */
  lemma {:induction false} FramesAppend(x: string, y: string)
    ensures Frames(x + y) == Frames(x) + Frames(Remainder(x) + y)
    ensures Remainder(x + y) == Remainder(Remainder(x) + y)
    decreases |x|
  {
    match IndexOf(x, Separator)
    case None =>
    case Some(i) =>
      IndexOfAppend(x, y, Separator);
      var rest := x[i + 2..];
      assert (x + y)[i + 2..] == rest + y;
      assert (x + y)[..i] == x[..i];
      FramesAppend(rest, y);
  }

  /** Each event is followed in the text by a separator: the buffer is the
      events, each with `\n\n` after it, then the remainder. */
  lemma {:induction false} FramesReassemble(s: string)
    ensures s == Flatten(Frames(s)) + Remainder(s)
    decreases |s|
  {
    match IndexOf(s, Separator)
    case None =>
    case Some(i) =>
      FramesReassemble(s[i + 2..]);
      ReassembleStep(s, i);
  }

  lemma ReassembleStep(s: string, i: nat)
    requires IndexOf(s, Separator) == Some(i)
    requires s[i + 2..] == Flatten(Frames(s[i + 2..])) + Remainder(s[i + 2..])
    ensures s == Flatten(Frames(s)) + Remainder(s)
  {
    var rest := s[i + 2..];
    FramesStep(s, i);
    RemainderStep(s, i);
    SplitAroundSeparator(s, i);
    FlattenCons(s[..i], Frames(rest));
    Regroup(s, s[..i], rest, Flatten(Frames(rest)), Remainder(rest));
  }

  lemma Regroup(s: string, head: string, rest: string, f: string, r: string)
    requires s == head + Separator + rest && rest == f + r
    ensures s == (head + Separator + f) + r
  {
  }

  lemma FramesStep(s: string, i: nat)
    requires IndexOf(s, Separator) == Some(i)
    ensures i + 2 <= |s|
    ensures Frames(s) == [s[..i]] + Frames(s[i + 2..])
  {
  }

  lemma RemainderStep(s: string, i: nat)
    requires IndexOf(s, Separator) == Some(i)
    ensures i + 2 <= |s|
    ensures Remainder(s) == Remainder(s[i + 2..])
  {
  }

  lemma SplitAroundSeparator(s: string, i: nat)
    requires OccursAt(s, Separator, i)
    ensures s == s[..i] + Separator + s[i + 2..]
  {
    assert s[i..i + 2] == Separator;
    assert s == s[..i] + s[i..i + 2] + s[i + 2..];
  }

  lemma FlattenCons(frame: string, frames: seq<string>)
    ensures Flatten([frame] + frames) == frame + Separator + Flatten(frames)
  {
    assert ([frame] + frames)[1..] == frames;
  }

  /** The events joined back together, each closed by its separator. */
  function Flatten(frames: seq<string>): string {
    if |frames| == 0 then "" else frames[0] + Separator + Flatten(frames[1..])
  }

  // ---------------------------------------------------------------------------
  // Reading one event

  /** The event type and data of an event's lines: the last `event: ` line and
      the last `data: ` line each win, their values stripped. */
  function ScanLines(lines: seq<string>, eventType: string, data: string): (r: (string, string))
    decreases |lines|
  {
    if |lines| == 0 then (eventType, data)
    else
      var line := lines[0];
      if StartsWith(line, "event: ") then ScanLines(lines[1..], PyStrip(line[7..]), data)
      else if StartsWith(line, "data: ") then ScanLines(lines[1..], eventType, PyStrip(line[6..]))
      else ScanLines(lines[1..], eventType, data)
  }

  /** The value of the last line with the given prefix, stripped, or `none`. */
  function LastField(lines: seq<string>, prefix: string, none: string): string
    decreases |lines|
  {
    if |lines| == 0 then none
    else
      var line := lines[|lines| - 1];
      if StartsWith(line, prefix) then PyStrip(line[|prefix|..])
      else LastField(lines[..|lines| - 1], prefix, none)
  }

  predicate IsEventLine(line: string) {
    StartsWith(line, "event: ")
  }

  predicate IsDataLine(line: string) {
    !StartsWith(line, "event: ") && StartsWith(line, "data: ")
  }

  /** The scan keeps the last event line and the last data line. (No line
      starts with both prefixes, so the `elif` loses nothing.) */
  lemma {:induction false} ScanLinesLast(lines: seq<string>, eventType: string, data: string)
    ensures ScanLines(lines, eventType, data).0 == LastField(lines, "event: ", eventType)
    ensures ScanLines(lines, eventType, data).1 == LastField(lines, "data: ", data)
    decreases |lines|
  {
    if |lines| > 0 {
      var line := lines[0];
      LastFieldFront(lines, "event: ", eventType);
      LastFieldFront(lines, "data: ", data);
      if StartsWith(line, "event: ") {
        NotBothPrefixes(line);
        ScanLinesLast(lines[1..], PyStrip(line[7..]), data);
      } else if StartsWith(line, "data: ") {
        ScanLinesLast(lines[1..], eventType, PyStrip(line[6..]));
      } else {
        ScanLinesLast(lines[1..], eventType, data);
      }
    }
  }

  lemma LastFieldFront(lines: seq<string>, prefix: string, none: string)
    requires |lines| > 0
    ensures LastField(lines, prefix, none)
         == LastField(lines[1..], prefix, if StartsWith(lines[0], prefix) then PyStrip(lines[0][|prefix|..]) else none)
  {
    LastFieldCons(lines[0], lines[1..], prefix, none);
    assert lines == [lines[0]] + lines[1..];
  }

  lemma NotBothPrefixes(line: string)
    requires StartsWith(line, "event: ")
    ensures !StartsWith(line, "data: ")
  {
    assert line[0] == "event: "[0];
  }

  /** Peeling the first line off: a later matching line still wins; with none,
      the first line is the last match. */
  lemma {:induction false} LastFieldCons(line: string, rest: seq<string>, prefix: string, none: string)
    ensures LastField([line] + rest, prefix, none)
         == LastField(rest, prefix, if StartsWith(line, prefix) then PyStrip(line[|prefix|..]) else none)
    decreases |rest|
  {
    var all := [line] + rest;
    if |rest| > 0 {
      assert all[|all| - 1] == rest[|rest| - 1];
      assert all[..|all| - 1] == [line] + rest[..|rest| - 1];
      LastFieldCons(line, rest[..|rest| - 1], prefix, none);
    } else {
      assert all[..|all| - 1] == [];
    }
  }

  /** The event type and data string of an event; data with no event type is
      an `implicit_message`. */
  function Classify(evt: string): (string, string) {
    var lines := Split(PyStrip(evt), "\n");
    var (eventType, data) := ScanLines(lines, "", "");
    (if eventType == "" && data != "" then "implicit_message" else eventType, data)
  }

  // ---------------------------------------------------------------------------
  // Handling one event

  /** What the handlers accumulate. The identifiers are whatever JSON the
      events carried (`""` initially); `texts` may hold non-strings, which the
      final join rejects. */
  datatype Progress = Progress(conversationId: Json, messageId: Json, sectionId: Json, texts: seq<Json>)

  const Initial := Progress(JStr(""), JStr(""), JStr(""), [])

  /** The truthy `block.get("content", {}).get("text_block", {}).get("text")`. */
  function BlockText(block: Json): (r: Result<Option<Json>, Exn>)
    ensures r.Ok? && r.value.Some? ==> PyTruthy(r.value.value)
  {
    var content :- PyGet(block, "content", JObj([]));
    var textBlock :- PyGet(content, "text_block", JObj([]));
    var text :- PyGet(textBlock, "text", JNull);
    Ok(if PyTruthy(text) then Some(text) else None)
  }

  /** The text one block shows: its truthy text, when its lookups succeed. */
  function Own(block: Json): seq<Json> {
    match BlockText(block)
    case Ok(Some(t)) => [t]
    case _ => []
  }

  /** The texts a list of blocks shows, one per block that has a truthy
      text, in order. */
  function Shown(blocks: seq<Json>): (r: seq<Json>)
    decreases |blocks|
    ensures |r| <= |blocks|
    ensures forall k :: 0 <= k < |r| ==> PyTruthy(r[k])
  {
    if |blocks| == 0 then [] else Own(blocks[0]) + Shown(blocks[1..])
  }

  /** A text is shown exactly when some block has it as its truthy text. */
  lemma {:induction false} ShownHas(blocks: seq<Json>, x: Json)
    ensures x in Shown(blocks) <==> exists k :: 0 <= k < |blocks| && BlockText(blocks[k]) == Ok(Some(x))
    decreases |blocks|
  {
    if |blocks| > 0 {
      var rest := blocks[1..];
      ShownHas(rest, x);
      ShownFront(blocks, blocks[0], rest);
      OwnHas(blocks[0], x);
      Seqs.ExistsFront(blocks, b => BlockText(b) == Ok(Some(x)));
    }
  }

  lemma OwnHas(block: Json, x: Json)
    ensures x in Own(block) <==> BlockText(block) == Ok(Some(x))
  {
  }

  /** How many blocks the loop gets through: all of them, or those before
      the first whose lookups raise. */
  function Readable(blocks: seq<Json>): (n: nat)
    decreases |blocks|
    ensures n <= |blocks|
    ensures forall k :: 0 <= k < n ==> BlockText(blocks[k]).Ok?
    ensures n < |blocks| ==> BlockText(blocks[n]).Err?
  {
    if |blocks| == 0 || BlockText(blocks[0]).Err? then 0 else 1 + Readable(blocks[1..])
  }

  /** The texts the loop over `blocks` appends: those shown by the blocks it
      gets through. */
  function LoopTexts(blocks: seq<Json>): seq<Json> {
    Shown(blocks[..Readable(blocks)])
  }

  /** Texts appended so far and whether the loop ran to the end. */
  datatype Run = Run(texts: seq<Json>, ok: bool)

  /** The loop over content blocks, appending each truthy text, ending at the
      first block whose lookups raise. It appends exactly the texts the
      blocks before that one show, and runs to the end exactly when every
      block is read. */
  function BlockTexts(blocks: seq<Json>, texts: seq<Json>): (r: Run)
    decreases |blocks|
    ensures r == Run(texts + LoopTexts(blocks), Readable(blocks) == |blocks|)
  {
    if |blocks| == 0 then Run(texts, true)
    else match BlockText(blocks[0])
      case Err(_) =>
        LoopTextsStop(blocks);
        Run(texts, false)
      case Ok(t) =>
        var texts' := if t.Some? then texts + [t.value] else texts;
        LoopTextsCons(blocks, texts, texts');
        BlockTexts(blocks[1..], texts')
  }

  lemma LoopTextsStop(blocks: seq<Json>)
    requires |blocks| > 0 && BlockText(blocks[0]).Err?
    ensures Readable(blocks) == 0 && LoopTexts(blocks) == []
  {
  }

  lemma LoopTextsCons(blocks: seq<Json>, texts: seq<Json>, texts': seq<Json>)
    requires |blocks| > 0 && BlockText(blocks[0]).Ok?
    requires texts' == if BlockText(blocks[0]).value.Some? then texts + [BlockText(blocks[0]).value.value] else texts
    ensures Readable(blocks) == 1 + Readable(blocks[1..])
    ensures texts' + LoopTexts(blocks[1..]) == texts + LoopTexts(blocks)
  {
    OwnIsAppended(blocks[0], texts, texts');
    LoopTextsFront(blocks);
    Seqs.Assoc(texts, Own(blocks[0]), LoopTexts(blocks[1..]));
  }

  lemma OwnIsAppended(block: Json, texts: seq<Json>, texts': seq<Json>)
    requires BlockText(block).Ok?
    requires texts' == if BlockText(block).value.Some? then texts + [BlockText(block).value.value] else texts
    ensures texts' == texts + Own(block)
  {
  }

  lemma LoopTextsFront(blocks: seq<Json>)
    requires |blocks| > 0 && BlockText(blocks[0]).Ok?
    ensures Readable(blocks) == 1 + Readable(blocks[1..])
    ensures LoopTexts(blocks) == Own(blocks[0]) + LoopTexts(blocks[1..])
  {
    var n := Readable(blocks[1..]);
    assert Readable(blocks) == n + 1;
    Seqs.FrontSlice(blocks, n);
    ShownFront(blocks[..n + 1], blocks[0], blocks[1..][..n]);
  }

  lemma ShownFront(pre: seq<Json>, b: Json, rest: seq<Json>)
    requires pre == [b] + rest
    ensures Shown(pre) == Own(b) + Shown(rest)
  {
    assert pre[1..] == rest;
  }

  /** `j.get(key, [])` iterated over: its items, or `None` when the lookup
      or the iteration raises. */
  function ItemsAt(j: Json, key: string): Option<seq<Json>> {
    match PyGet(j, key, JArr([]))
    case Err(_) => None
    case Ok(v) =>
      match PyIter(v)
      case Err(_) => None
      case Ok(items) => Some(items)
  }

  /** The texts a block loop over `items` appends, nothing when there are
      none to loop over. */
  function ItemsTexts(items: Option<seq<Json>>): seq<Json> {
    match items
    case None => []
    case Some(blocks) => LoopTexts(blocks)
  }

  /** `SSE_ACK`: both identifiers overwritten from `ack_client_meta`. */
  function OnAck(data: Json, p: Progress): (r: Progress)
    ensures r.texts == p.texts && r.messageId == p.messageId
    ensures data.JObj? && Lookup(data.fields, "ack_client_meta").GetOr(JObj([])).JObj? ==>
      var meta := Lookup(data.fields, "ack_client_meta").GetOr(JObj([])).fields;
      r.conversationId == Lookup(meta, "conversation_id").GetOr(JNull) && r.sectionId == Lookup(meta, "section_id").GetOr(JNull)
    ensures !(data.JObj? && Lookup(data.fields, "ack_client_meta").GetOr(JObj([])).JObj?) ==> r == p
  {
    if !data.JObj? then p
    else
      var meta := Lookup(data.fields, "ack_client_meta").GetOr(JObj([]));
      if !meta.JObj? then p
      else p.(conversationId := Lookup(meta.fields, "conversation_id").GetOr(JNull),
              sectionId := Lookup(meta.fields, "section_id").GetOr(JNull))
  }

  /** `STREAM_MSG_NOTIFY`: identifiers from `meta` (conversation and section
      only while still falsy, the message id always), then the texts of
      `content.content_block`. A `meta` that is not a dict skips the event. */
  function OnNotify(data: Json, p: Progress): (r: Progress)
    ensures PyTruthy(p.conversationId) ==> r.conversationId == p.conversationId
    ensures PyTruthy(p.sectionId) ==> r.sectionId == p.sectionId
    ensures data.JObj? && Lookup(data.fields, "meta").GetOr(JObj([])).JObj? && !PyTruthy(p.conversationId) ==>
      r.conversationId == Lookup(Lookup(data.fields, "meta").GetOr(JObj([])).fields, "conversation_id").GetOr(JNull)
    ensures data.JObj? && Lookup(data.fields, "meta").GetOr(JObj([])).JObj? && !PyTruthy(p.sectionId) ==>
      r.sectionId == Lookup(Lookup(data.fields, "meta").GetOr(JObj([])).fields, "section_id").GetOr(JNull)
    ensures !(data.JObj? && Lookup(data.fields, "meta").GetOr(JObj([])).JObj?) ==> r == p
    ensures data.JObj? && Lookup(data.fields, "meta").GetOr(JObj([])).JObj? ==>
      r.messageId == Lookup(Lookup(data.fields, "meta").GetOr(JObj([])).fields, "message_id").GetOr(JNull)
      && r.texts == p.texts + ItemsTexts(ItemsAt(Lookup(data.fields, "content").GetOr(JObj([])), "content_block"))
  {
    if !data.JObj? then p
    else
      var meta := Lookup(data.fields, "meta").GetOr(JObj([]));
      if !meta.JObj? then p
      else
        var p1 := p.(conversationId := if PyTruthy(p.conversationId) then p.conversationId
                                       else Lookup(meta.fields, "conversation_id").GetOr(JNull),
                     sectionId := if PyTruthy(p.sectionId) then p.sectionId
                                  else Lookup(meta.fields, "section_id").GetOr(JNull),
                     messageId := Lookup(meta.fields, "message_id").GetOr(JNull));
        match ItemsAt(Lookup(data.fields, "content").GetOr(JObj([])), "content_block")
        case None => p1
        case Some(items) => p1.(texts := BlockTexts(items, p1.texts).texts)
  }

  /** `op.get("patch_value", {})`. */
  function PatchValue(op: Json): Json
    requires op.JObj?
  {
    Lookup(op.fields, "patch_value").GetOr(JObj([]))
  }

  /** A truthy `tts_content` of a patch value. */
  function TtsText(value: seq<Field>): (r: seq<Json>)
    ensures |r| <= 1 && forall k :: 0 <= k < |r| ==> PyTruthy(r[k])
  {
    match Lookup(value, "tts_content")
    case Some(t) => if PyTruthy(t) then [t] else []
    case None => []
  }

  /** What a patch whose value is a dict contributes: the texts of the
      `content_block` items the loop gets through, and, when it gets through
      all of them (or there is no such key), a truthy `tts_content` after
      them. */
  function DictPatch(value: seq<Field>): Run {
    match Lookup(value, "content_block")
    case None => Run(TtsText(value), true)
    case Some(b) =>
      match PyIter(b)
      case Err(_) => Run([], false)
      case Ok(items) =>
        if Readable(items) < |items| then Run(LoopTexts(items), false)
        else Run(LoopTexts(items) + TtsText(value), true)
  }

  /** Whether a patch value that is not a dict gets through both membership
      tests without being indexed: a list or string that mentions neither
      key. */
  predicate PassesNonDict(value: Json) {
    match value
    case JArr(items) => JStr("content_block") !in items && JStr("tts_content") !in items
    case JStr(s) => !Contains(s, "content_block") && !Contains(s, "tts_content")
    case _ => false
  }

  /** One patch operation of `STREAM_CHUNK`: the texts of
      `patch_value["content_block"]`, then a truthy `patch_value["tts_content"]`
      as well. A patch value that is not a dict contributes nothing. */
  function PatchTexts(op: Json, texts: seq<Json>): (r: Run)
    ensures !op.JObj? ==> r == Run(texts, false)
    ensures op.JObj? && !PatchValue(op).JObj? ==> r == Run(texts, PassesNonDict(PatchValue(op)))
    ensures op.JObj? && PatchValue(op).JObj? ==>
      r == Run(texts + DictPatch(PatchValue(op).fields).texts, DictPatch(PatchValue(op).fields).ok)
  {
    if !op.JObj? then Run(texts, false)
    else
      var value := PatchValue(op);
      var afterBlocks := BlocksPart(value, texts);
      var r := if !afterBlocks.ok then afterBlocks else TtsPart(value, afterBlocks.texts);
      if value.JObj? then
        DictPatchSplit(value.fields, texts);
        r
      else r
  }

  /** The `content_block` half of a patch operation. */
  function BlocksPart(value: Json, texts: seq<Json>): (r: Run)
    ensures !value.JObj? ==> r == Run(texts, PyContains(value, "content_block") == Ok(false))
    ensures value.JObj? ==> r == DictBlocks(value.fields, texts)
  {
    match PyContains(value, "content_block")
    case Err(_) => Run(texts, false)
    case Ok(hasBlocks) =>
      if !hasBlocks then Run(texts, true)
      else match PyIndex(value, "content_block")
        case Err(_) => Run(texts, false)
        case Ok(blocks) =>
          match PyIter(blocks)
          case Err(_) => Run(texts, false)
          case Ok(items) => BlockTexts(items, texts)
  }

  /** The `tts_content` half of a patch operation, once the blocks are done. */
  function TtsPart(value: Json, texts: seq<Json>): (r: Run)
    ensures !value.JObj? ==> r == Run(texts, PyContains(value, "tts_content") == Ok(false))
    ensures value.JObj? ==> r == Run(texts + TtsText(value.fields), true)
  {
    match PyContains(value, "tts_content")
    case Err(_) => Run(texts, false)
    case Ok(false) => Run(texts, true)
    case Ok(true) =>
      match PyIndex(value, "tts_content")
      case Err(_) => Run(texts, false)
      case Ok(tts) => Run(if PyTruthy(tts) then texts + [tts] else texts, true)
  }

  /** What the `content_block` half of a dict patch does to `texts`. */
  function DictBlocks(value: seq<Field>, texts: seq<Json>): Run {
    match Lookup(value, "content_block")
    case None => Run(texts, true)
    case Some(b) =>
      match PyIter(b)
      case Err(_) => Run(texts, false)
      case Ok(items) => BlockTexts(items, texts)
  }

  /** The two halves of a dict patch together make `DictPatch`. */
  lemma DictPatchSplit(value: seq<Field>, texts: seq<Json>)
    ensures var b := DictBlocks(value, texts);
      (if !b.ok then b else TtsPart(JObj(value), b.texts))
        == Run(texts + DictPatch(value).texts, DictPatch(value).ok)
  {
    match Lookup(value, "content_block")
    case None =>
    case Some(b) =>
      match PyIter(b)
      case Err(_) =>
        assert texts + [] == texts;
      case Ok(items) =>
        Seqs.Assoc(texts, LoopTexts(items), TtsText(value));
  }

  /** What a patch appends does not depend on the texts before it. */
  lemma PatchTextsShift(op: Json, texts: seq<Json>)
    ensures PatchTexts(op, texts) == Run(texts + PatchTexts(op, []).texts, PatchTexts(op, []).ok)
  {
    if op.JObj? && PatchValue(op).JObj? {
      var d := DictPatch(PatchValue(op).fields);
      assert [] + d.texts == d.texts;
    } else {
      assert texts + [] == texts;
    }
  }

  /** What the operations append, each on its own, through the first one
      that fails. */
  function OpsTexts(ops: seq<Json>): seq<Json>
    decreases |ops|
  {
    if |ops| == 0 then []
    else
      var r := PatchTexts(ops[0], []);
      if r.ok then r.texts + OpsTexts(ops[1..]) else r.texts
  }

  function PatchesTexts(ops: seq<Json>, texts: seq<Json>): (r: Run)
    decreases |ops|
    ensures r.texts == texts + OpsTexts(ops)
  {
    if |ops| == 0 then Run(texts, true)
    else
      var r := PatchTexts(ops[0], texts);
      PatchTextsShift(ops[0], texts);
      Seqs.Assoc(texts, PatchTexts(ops[0], []).texts, OpsTexts(ops[1..]));
      if !r.ok then r else PatchesTexts(ops[1..], r.texts)
  }

  /** `STREAM_CHUNK`: the texts of the `patch_op` operations, in order,
      through the first one that fails. */
  function OnChunk(data: Json, p: Progress): (r: Progress)
    ensures r.conversationId == p.conversationId && r.sectionId == p.sectionId && r.messageId == p.messageId
    ensures r.texts == p.texts + (match ItemsAt(data, "patch_op") case None => [] case Some(ops) => OpsTexts(ops))
  {
    match ItemsAt(data, "patch_op")
    case None => p
    case Some(items) => p.(texts := PatchesTexts(items, p.texts).texts)
  }

  /** Where a `FULL_MSG_NOTIFY` event's texts come from. */
  datatype FullSource = NoText | Blocks(items: seq<Json>) | Content(content: Json)

  /** The message's `content_block` items when it has that key; otherwise
      its `content` when truthy. */
  function FullSourceOf(data: Json): FullSource {
    if !data.JObj? then NoText
    else
      var message := Lookup(data.fields, "message").GetOr(JObj([]));
      match PyContains(message, "content_block")
      case Err(_) => NoText
      case Ok(true) =>
        (match ItemsAt(message, "content_block")
         case None => NoText
         case Some(items) => Blocks(items))
      case Ok(false) =>
        match PyGet(message, "content", JStr(""))
        case Err(_) => NoText
        case Ok(content) => if PyTruthy(content) then Content(content) else NoText
  }

  /** `FULL_MSG_NOTIFY`: the texts of `message.content_block` when the message
      has one; otherwise a truthy `content` string is parsed as a list of
      blocks, and whenever that fails or gives no list, `str(content)` itself
      is appended (after any block texts appended before the failure). */
  function OnFull(data: Json, p: Progress, parse: string -> Option<Json>): (r: Progress)
    ensures r.conversationId == p.conversationId && r.sectionId == p.sectionId && r.messageId == p.messageId
    ensures match FullSourceOf(data)
      case NoText => r == p
      case Blocks(items) => r.texts == p.texts + LoopTexts(items)
      case Content(content) => r.texts == ContentTexts(content, p.texts, parse)
  {
    match FullSourceOf(data)
    case NoText => p
    case Blocks(items) => p.(texts := BlockTexts(items, p.texts).texts)
    case Content(content) => p.(texts := ContentTexts(content, p.texts, parse))
  }

  /** The `try`/bare `except` around parsing a `content` string: a list's
      block texts, with the content itself after them when a block could not
      be read; the content itself when it is not a string or does not parse
      to a list. */
  function ContentTexts(content: Json, texts: seq<Json>, parse: string -> Option<Json>): (r: seq<Json>)
    ensures !content.JStr? ==> r == texts + [JStr(PyStr(content))]
    ensures content.JStr? ==> match parse(content.s)
      case Some(JArr(blocks)) =>
        r == texts + LoopTexts(blocks) + (if Readable(blocks) < |blocks| then [content] else [])
      case _ => r == texts + [content]
  {
    var fallback := JStr(PyStr(content));
    if !content.JStr? then texts + [fallback]
    else match parse(content.s)
      case Some(JArr(blocks)) =>
        var run := BlockTexts(blocks, texts);
        if run.ok then run.texts else run.texts + [fallback]
      case _ => texts + [fallback]
  }

  /** `message` and `implicit_message`: a dict's non-empty string `content`,
      or the data itself when it is a string. */
  function OnMessage(data: Json, p: Progress): (r: Progress)
    ensures r.conversationId == p.conversationId && r.sectionId == p.sectionId && r.messageId == p.messageId
    ensures data.JStr? ==> r.texts == p.texts + [data]
    ensures data.JObj? ==>
      var c := Lookup(data.fields, "content").GetOr(JStr(""));
      r.texts == if c.JStr? && |c.s| > 0 then p.texts + [c] else p.texts
    ensures !data.JObj? && !data.JStr? ==> r == p
  {
    match data
    case JObj(fields) =>
      var content := Lookup(fields, "content").GetOr(JStr(""));
      if PyTruthy(content) && content.JStr? then p.(texts := p.texts + [content]) else p
    case JStr(_) => p.(texts := p.texts + [data])
    case _ => p
  }

  /** One complete event. Events without a type or without data, and events
      whose data does not parse, change nothing; unknown types (and
      `SSE_REPLY_END`) are ignored. */
  function ProcessFrame(evt: string, p: Progress, parse: string -> Option<Json>): (r: Progress)
    ensures Classify(evt).0 == "" || Classify(evt).1 == "" || parse(Classify(evt).1).None? ==> r == p
    ensures Classify(evt).0 !in EventTypes ==> r == p
    ensures p.texts <= r.texts
  {
    var (eventType, data) := Classify(evt);
    if eventType == "" || data == "" then p
    else match parse(data)
      case None => p
      case Some(j) => Dispatch(eventType, j, p, parse)
  }

  /** The handler for a parsed event of the given type. */
  function Dispatch(eventType: string, j: Json, p: Progress, parse: string -> Option<Json>): (r: Progress)
    ensures eventType !in EventTypes ==> r == p
    ensures p.texts <= r.texts
    ensures eventType != "SSE_ACK" && eventType != "STREAM_MSG_NOTIFY" ==>
      r.conversationId == p.conversationId && r.sectionId == p.sectionId && r.messageId == p.messageId
  {
    if eventType == "SSE_ACK" then OnAck(j, p)
    else if eventType == "STREAM_MSG_NOTIFY" then OnNotify(j, p)
    else if eventType == "STREAM_CHUNK" then OnChunk(j, p)
    else if eventType == "FULL_MSG_NOTIFY" then OnFull(j, p, parse)
    else if eventType == "message" || eventType == "implicit_message" then OnMessage(j, p)
    else p
  }

  /** The event types a handler exists for. */
  const EventTypes: set<string> := {"SSE_ACK", "STREAM_MSG_NOTIFY", "STREAM_CHUNK", "FULL_MSG_NOTIFY", "message", "implicit_message"}

  /** The events in order; collected texts are only ever appended to. */
  function ProcessFrames(frames: seq<string>, p: Progress, parse: string -> Option<Json>): (r: Progress)
    decreases |frames|
    ensures p.texts <= r.texts
  {
    if |frames| == 0 then p else ProcessFrames(frames[1..], ProcessFrame(frames[0], p, parse), parse)
  }

  /** The texts one event contributes when it comes first. */
  function EventTexts(evt: string, parse: string -> Option<Json>): seq<Json> {
    ProcessFrame(evt, Initial, parse).texts
  }

  /** What an event appends does not depend on the events before it: the
      identifiers it reads never decide which texts it adds. */
  lemma FrameTexts(evt: string, p: Progress, parse: string -> Option<Json>)
    ensures ProcessFrame(evt, p, parse).texts == p.texts + EventTexts(evt, parse)
  {
    var (eventType, data) := Classify(evt);
    if eventType != "" && data != "" && parse(data).Some? {
      DispatchTexts(eventType, parse(data).value, p, parse);
    }
  }

  lemma DispatchTexts(eventType: string, j: Json, p: Progress, parse: string -> Option<Json>)
    ensures Dispatch(eventType, j, p, parse).texts == p.texts + Dispatch(eventType, j, Initial, parse).texts
  {
    if eventType == "STREAM_MSG_NOTIFY" {
      NotifyTexts(j, p);
    } else if eventType == "STREAM_CHUNK" {
      ChunkTexts(j, p);
    } else if eventType == "FULL_MSG_NOTIFY" {
      FullTexts(j, p, parse);
    } else if eventType == "message" || eventType == "implicit_message" {
      MessageTexts(j, p);
    }
  }

  lemma NotifyTexts(j: Json, p: Progress)
    ensures OnNotify(j, p).texts == p.texts + OnNotify(j, Initial).texts
  {
    if j.JObj? && Lookup(j.fields, "meta").GetOr(JObj([])).JObj? {
      var x := ItemsTexts(ItemsAt(Lookup(j.fields, "content").GetOr(JObj([])), "content_block"));
      assert [] + x == x;
    } else {
      assert p.texts + [] == p.texts;
    }
  }

  lemma ChunkTexts(j: Json, p: Progress)
    ensures OnChunk(j, p).texts == p.texts + OnChunk(j, Initial).texts
  {
    var x := match ItemsAt(j, "patch_op") case None => [] case Some(ops) => OpsTexts(ops);
    assert [] + x == x;
  }

  lemma MessageTexts(j: Json, p: Progress)
    ensures OnMessage(j, p).texts == p.texts + OnMessage(j, Initial).texts
  {
    if j.JObj? || j.JStr? {
    } else {
      assert p.texts + [] == p.texts;
    }
  }

  lemma FullTexts(j: Json, p: Progress, parse: string -> Option<Json>)
    ensures OnFull(j, p, parse).texts == p.texts + OnFull(j, Initial, parse).texts
  {
    match FullSourceOf(j)
    case NoText =>
      assert p.texts + [] == p.texts;
    case Blocks(items) =>
      assert [] + LoopTexts(items) == LoopTexts(items);
    case Content(content) => ContentTextsShift(content, p.texts, parse);
  }

  lemma ContentTextsShift(content: Json, texts: seq<Json>, parse: string -> Option<Json>)
    ensures ContentTexts(content, texts, parse) == texts + ContentTexts(content, [], parse)
  {
    if content.JStr? {
      match parse(content.s)
      case Some(JArr(blocks)) =>
        var tail := if Readable(blocks) < |blocks| then [content] else [];
        Seqs.Assoc(texts, LoopTexts(blocks), tail);
        assert [] + LoopTexts(blocks) == LoopTexts(blocks);
      case _ =>
        assert [] + [content] == [content];
    } else {
      assert [] + [JStr(PyStr(content))] == [JStr(PyStr(content))];
    }
  }

  /** The texts of a run of events: what each contributes, in order. */
  function RunTexts(frames: seq<string>, parse: string -> Option<Json>): seq<Json>
    decreases |frames|
  {
    if |frames| == 0 then [] else EventTexts(frames[0], parse) + RunTexts(frames[1..], parse)
  }

  /** A run of events appends, in order, what each event contributes on its
      own, and nothing else. */
  lemma {:induction false} ProcessFramesTexts(frames: seq<string>, p: Progress, parse: string -> Option<Json>)
    ensures ProcessFrames(frames, p, parse).texts == p.texts + RunTexts(frames, parse)
    decreases |frames|
  {
    if |frames| > 0 {
      FrameTexts(frames[0], p, parse);
      ProcessFramesTexts(frames[1..], ProcessFrame(frames[0], p, parse), parse);
      Seqs.Assoc(p.texts, EventTexts(frames[0], parse), RunTexts(frames[1..], parse));
    } else {
      assert p.texts + [] == p.texts;
    }
  }

  /** Processing consecutive runs of events is processing them all. */
  lemma {:induction false} ProcessFramesAppend(a: seq<string>, b: seq<string>, p: Progress, parse: string -> Option<Json>)
    ensures ProcessFrames(a + b, p, parse) == ProcessFrames(b, ProcessFrames(a, p, parse), parse)
    decreases |a|
  {
    if |a| > 0 {
      assert (a + b)[0] == a[0];
      assert (a + b)[1..] == a[1..] + b;
      ProcessFramesAppend(a[1..], b, ProcessFrame(a[0], p, parse), parse);
    } else {
      assert a + b == b;
    }
  }

  /** An event whose data does not parse is skipped; the events after it are
      still processed. */
  lemma SkipUnparsable(evt: string, rest: seq<string>, p: Progress, parse: string -> Option<Json>)
    requires parse(Classify(evt).1).None?
    ensures ProcessFrames([evt] + rest, p, parse) == ProcessFrames(rest, p, parse)
  {
    assert ([evt] + rest)[1..] == rest;
  }

  /** `SSE_REPLY_END` does not end the stream: it changes nothing and the
      events after it are processed. */
  lemma ReplyEndContinues(evt: string, rest: seq<string>, p: Progress, parse: string -> Option<Json>)
    requires Classify(evt).0 == "SSE_REPLY_END"
    ensures ProcessFrames([evt] + rest, p, parse) == ProcessFrames(rest, p, parse)
  {
    assert ([evt] + rest)[1..] == rest;
  }

  /** A patch whose value carries both readable blocks and a truthy
      `tts_content` contributes the block texts and then the TTS text. */
  lemma TtsAddedAfterBlocks(op: Json, texts: seq<Json>, blocks: seq<Json>, tts: Json)
    requires op.JObj? && PatchValue(op).JObj?
    requires Lookup(PatchValue(op).fields, "content_block") == Some(JArr(blocks)) && Readable(blocks) == |blocks|
    requires Lookup(PatchValue(op).fields, "tts_content") == Some(tts) && PyTruthy(tts)
    ensures PatchTexts(op, texts) == Run(texts + LoopTexts(blocks) + [tts], true)
  {
    assert DictPatch(PatchValue(op).fields) == Run(LoopTexts(blocks) + [tts], true);
    Seqs.Assoc(texts, LoopTexts(blocks), [tts]);
  }

  // ---------------------------------------------------------------------------
  // The chunk loop

  datatype SseError = Limited | GatewayFailure(message: string) | JoinTypeError

  /** The message of the gateway failure raised for a buffer, as the source
      has it: the exception raised from the parsed error is caught by the
      handler around it, so the message is always the whole buffer. */
  function GatewayMessageAsWritten(buffer: string): string {
    GatewayPrefix + buffer
  }

  /** The message the gateway failure was meant to carry: the `code` and
      `message` of the JSON on the `data: {` line when it parses to an
      object, the whole buffer otherwise. */
  function GatewayMessage(buffer: string, parse: string -> Option<Json>): (r: string)
    ensures StartsWith(r, GatewayPrefix)
    ensures !Contains(buffer, "data: {") ==> r == GatewayMessageAsWritten(buffer)
  {
    AppendKeepsPrefix(GatewayPrefix, GatewayPrefix, buffer);
    match IndexOf(buffer, "data: {")
    case None => GatewayPrefix + buffer
    case Some(at) =>
      var line := Split(buffer[at + 6..], "\n")[0];
      match parse(line)
      case Some(JObj(fields)) =>
        AppendKeepsPrefix(GatewayPrefix, GatewayPrefix, PyStr(Lookup(fields, "code").GetOr(JNull)) + " - " + PyStr(Lookup(fields, "message").GetOr(JNull)));
        GatewayPrefix + PyStr(Lookup(fields, "code").GetOr(JNull)) + " - " + PyStr(Lookup(fields, "message").GetOr(JNull))
      case _ => GatewayPrefix + buffer
  }

  /** The wording the corrected handler gives the gateway failure. */
  function IntendedReport(parse: string -> Option<Json>): string -> string {
    buffer => GatewayMessage(buffer, parse)
  }

  /** The vendor's code and message are reported when the error line parses. */
  lemma GatewayMessageReportsCode(buffer: string, parse: string -> Option<Json>, code: int, msg: string)
    requires Contains(buffer, "data: {")
    requires parse(Split(buffer[IndexOf(buffer, "data: {").value + 6..], "\n")[0]) == Some(JObj([Field("code", JNum(code)), Field("message", JStr(msg))]))
    ensures GatewayMessage(buffer, parse) == GatewayPrefix + IntToString(code) + " - " + msg
  {
    var fields := [Field("code", JNum(code)), Field("message", JStr(msg))];
    assert Lookup(fields, "code") == Some(JNum(code));
    assert fields[1..][0] == Field("message", JStr(msg));
    assert Lookup(fields, "message") == Some(JStr(msg));
  }

  /** A concrete gateway error whose code and message the source drops. */
  lemma GatewayMessageDiscrepancy()
    ensures var buffer := "event: gateway-error\ndata: {}\n";
      var parse := (s: string) => Some(JObj([Field("code", JNum(7)), Field("message", JStr("busy"))]));
      Contains(buffer, "data: {")
      && GatewayMessageAsWritten(buffer) != GatewayMessage(buffer, parse)
  {
    var buffer := "event: gateway-error\ndata: {}\n";
    var parse := (s: string) => Some(JObj([Field("code", JNum(7)), Field("message", JStr("busy"))]));
    assert OccursAt(buffer, "data: {", 21);
    ContainsAt(buffer, "data: {", 21);
    var m := GatewayMessage(buffer, parse);
    assert m == GatewayPrefix + "7" + " - " + "busy";
    assert |m| != |GatewayMessageAsWritten(buffer)|;
  }

  /** The checks made on the buffer when a chunk arrives, before any event in
      it is handled. A gateway marker without a `data: {` line passes. The
      gateway failure is worded by `report`: `GatewayMessageAsWritten` in the
      handler as written, `IntendedReport(parse)` in the corrected one. */
  function CheckBuffer(buffer: string, report: string -> string): (r: Option<SseError>)
    ensures r.None? <==> !Contains(buffer, LimitMarker) && !(Contains(buffer, GatewayMarker) && Contains(buffer, "data: {"))
    ensures Contains(buffer, LimitMarker) ==> r == Some(Limited)
    ensures r.Some? && !Contains(buffer, LimitMarker) ==> r == Some(GatewayFailure(report(buffer)))
  {
    if Contains(buffer, LimitMarker) then Some(Limited)
    else if Contains(buffer, GatewayMarker) && Contains(buffer, "data: {") then Some(GatewayFailure(report(buffer)))
    else None
  }

  /** As written, a gateway failure reports the whole buffer, whatever its
      error line says. */
  lemma GatewayAsWrittenReportsBuffer(buffer: string)
    requires !Contains(buffer, LimitMarker) && Contains(buffer, GatewayMarker) && Contains(buffer, "data: {")
    ensures CheckBuffer(buffer, GatewayMessageAsWritten) == Some(GatewayFailure(GatewayPrefix + buffer))
  {
  }

  /** The events cut off the buffer after a chunk arrives, and what stays. */
  function Drain(buffer: string, p: Progress, parse: string -> Option<Json>): (r: (string, Progress))
    decreases |buffer|
    ensures !Contains(r.0, Separator)
    ensures |r.0| <= |buffer| && buffer[|buffer| - |r.0|..] == r.0
    ensures p.texts <= r.1.texts
  {
    match IndexOf(buffer, Separator)
    case None => (buffer, p)
    case Some(i) => Drain(buffer[i + 2..], ProcessFrame(buffer[..i], p, parse), parse)
  }

  lemma {:induction false} DrainIsFrames(buffer: string, p: Progress, parse: string -> Option<Json>)
    ensures Drain(buffer, p, parse) == (Remainder(buffer), ProcessFrames(Frames(buffer), p, parse))
    decreases |buffer|
  {
    match IndexOf(buffer, Separator)
    case None =>
    case Some(i) =>
      var rest := buffer[i + 2..];
      var p' := ProcessFrame(buffer[..i], p, parse);
      DrainIsFrames(rest, p', parse);
      ProcessFramesCons(buffer[..i], Frames(rest), p, parse);
  }

  lemma ProcessFramesCons(evt: string, frames: seq<string>, p: Progress, parse: string -> Option<Json>)
    ensures ProcessFrames([evt] + frames, p, parse) == ProcessFrames(frames, ProcessFrame(evt, p, parse), parse)
  {
    Seqs.Cons(evt, frames);
  }

  /** The `async for` over the decoded chunks. */
  function Feed(chunks: seq<string>, buffer: string, p: Progress, parse: string -> Option<Json>, report: string -> string): (r: Result<(string, Progress), SseError>)
    decreases |chunks|
    ensures r.Err? ==> r.error == Limited || r.error.GatewayFailure?
    ensures r.Ok? ==> p.texts <= r.value.1.texts
    ensures r.Ok? && |chunks| > 0 ==> !Contains(r.value.0, Separator)
  {
    if |chunks| == 0 then Ok((buffer, p))
    else
      var full := buffer + chunks[0];
      match CheckBuffer(full, report)
      case Some(e) => Err(e)
      case None =>
        var (rest, p') := Drain(full, p, parse);
        Feed(chunks[1..], rest, p', parse, report)
  }

  /** The wording of the gateway failure changes nothing else: with either
      wording the loop succeeds alike, or fails alike on the guest limit. */
  lemma {:induction false} FeedReport(chunks: seq<string>, buffer: string, p: Progress, parse: string -> Option<Json>, r1: string -> string, r2: string -> string)
    ensures Feed(chunks, buffer, p, parse, r1).Ok? <==> Feed(chunks, buffer, p, parse, r2).Ok?
    ensures Feed(chunks, buffer, p, parse, r1).Ok? ==> Feed(chunks, buffer, p, parse, r1) == Feed(chunks, buffer, p, parse, r2)
    ensures Feed(chunks, buffer, p, parse, r1) == Err(Limited) <==> Feed(chunks, buffer, p, parse, r2) == Err(Limited)
    decreases |chunks|
  {
    if |chunks| > 0 {
      var full := buffer + chunks[0];
      if CheckBuffer(full, r1).None? {
        var (rest, p') := Drain(full, p, parse);
        FeedReport(chunks[1..], rest, p', parse, r1, r2);
      }
    }
  }

  /** `"".join(texts)`: every element must be a string. */
  function JoinTexts(texts: seq<Json>): (r: Result<string, SseError>)
    ensures r.Ok? <==> forall k :: 0 <= k < |texts| ==> texts[k].JStr?
  {
    if |texts| == 0 then Ok("")
    else if !texts[0].JStr? then Err(JoinTypeError)
    else
      var rest :- JoinTexts(texts[1..]);
      Ok(texts[0].s + rest)
  }

  /** What `handle_sse` returns (no image URLs are ever collected). */
  datatype SseReply = SseReply(text: string, imageUrls: seq<string>, conversationId: Json, messageId: Json, sectionId: Json)

  /** The handler over the raw body chunks: each chunk is decoded on its
      own by `decode` (`chunk.decode('utf-8', errors='replace')`) before it
      is added to the buffer. */
  function HandleSse(chunks: seq<seq<Bytes.byte>>, decode: seq<Bytes.byte> -> string, parse: string -> Option<Json>, report: string -> string): (r: Result<SseReply, SseError>)
    ensures r.Ok? ==> r.value.imageUrls == []
  {
    var (_, p) :- Feed(Seqs.Map(chunks, decode), "", Initial, parse, report);
    var text :- JoinTexts(p.texts);
    Ok(SseReply(text, [], p.conversationId, p.messageId, p.sectionId))
  }

  /** A first chunk carrying a gateway error line fails the handler with
      the failure worded by `report` from that chunk's text: as written, the
      whole text; as intended, the vendor's code and message. */
  lemma GatewayChunkFails(chunk: seq<Bytes.byte>, decode: seq<Bytes.byte> -> string, parse: string -> Option<Json>, report: string -> string)
    requires !Contains(decode(chunk), LimitMarker)
    requires Contains(decode(chunk), GatewayMarker) && Contains(decode(chunk), "data: {")
    ensures HandleSse([chunk], decode, parse, report) == Err(GatewayFailure(report(decode(chunk))))
  {
    assert Seqs.Map([chunk], decode) == [decode(chunk)];
    assert "" + decode(chunk) == decode(chunk);
  }

  /** The wording of the gateway failure changes nothing else in the
      handler's outcome. */
  lemma HandleSseReport(chunks: seq<seq<Bytes.byte>>, decode: seq<Bytes.byte> -> string, parse: string -> Option<Json>, r1: string -> string, r2: string -> string)
    ensures HandleSse(chunks, decode, parse, r1).Ok? ==> HandleSse(chunks, decode, parse, r1) == HandleSse(chunks, decode, parse, r2)
    ensures HandleSse(chunks, decode, parse, r1) == Err(Limited) <==> HandleSse(chunks, decode, parse, r2) == Err(Limited)
  {
    FeedReport(Seqs.Map(chunks, decode), "", Initial, parse, r1, r2);
  }

  function Concat(chunks: seq<string>): string {
    if |chunks| == 0 then "" else chunks[0] + Concat(chunks[1..])
  }

  /** Neither failure marker appears anywhere in the stream. */
  predicate NoMarkers(s: string) {
    !Contains(s, LimitMarker) && !Contains(s, GatewayMarker)
  }

  /** Without failure markers, the chunk loop handles exactly the complete
      events of the whole decoded text, in order, however that text was cut
      into chunks; the text after the last `\n\n` is never handled. */
  lemma {:induction false} FeedIsFrames(chunks: seq<string>, prefix: string, p: Progress, parse: string -> Option<Json>, report: string -> string)
    requires NoMarkers(prefix + Concat(chunks))
    ensures Feed(chunks, Remainder(prefix), ProcessFrames(Frames(prefix), p, parse), parse, report)
         == Ok((Remainder(prefix + Concat(chunks)), ProcessFrames(Frames(prefix + Concat(chunks)), p, parse)))
    decreases |chunks|
  {
    if |chunks| == 0 {
      assert prefix + Concat(chunks) == prefix;
    } else {
      var c := chunks[0];
      var full := Remainder(prefix) + c;
      var all := prefix + Concat(chunks);
      assert all == (prefix + c) + Concat(chunks[1..]);
      FramesAppend(prefix, c);
      NoMarkersInBuffer(prefix, c, Concat(chunks[1..]));
      DrainIsFrames(full, ProcessFrames(Frames(prefix), p, parse), parse);
      ProcessFramesAppend(Frames(prefix), Frames(full), p, parse);
      FeedIsFrames(chunks[1..], prefix + c, p, parse, report);
    }
  }

  /** The buffer at any point is a piece of the stream, so it holds no marker
      the stream lacks. */
  lemma NoMarkersInBuffer(prefix: string, c: string, rest: string)
    requires NoMarkers(prefix + c + rest)
    ensures NoMarkers(Remainder(prefix) + c)
    ensures NoMarkers(prefix + c)
  {
    var all := prefix + c + rest;
    FramesReassemble(prefix);
    var head := Flatten(Frames(prefix));
    assert prefix == head + Remainder(prefix);
    var lo := |head|;
    var hi := |prefix| + |c|;
    assert all[lo..hi] == Remainder(prefix) + c;
    assert all[..hi] == prefix + c;
    if Contains(Remainder(prefix) + c, LimitMarker) { ContainsSlice(all, lo, hi, LimitMarker); }
    if Contains(Remainder(prefix) + c, GatewayMarker) { ContainsSlice(all, lo, hi, GatewayMarker); }
    if Contains(prefix + c, LimitMarker) { ContainsSlice(all, 0, hi, LimitMarker); }
    if Contains(prefix + c, GatewayMarker) { ContainsSlice(all, 0, hi, GatewayMarker); }
  }

  /** The text the handler sees: the chunks decoded one by one, joined. */
  function DecodedText(chunks: seq<seq<Bytes.byte>>, decode: seq<Bytes.byte> -> string): string {
    Concat(Seqs.Map(chunks, decode))
  }

  /** What the handler returns for a marker-free decoded text: the texts of
      its complete events joined, with the identifiers those events set. */
  function Handled(text: string, parse: string -> Option<Json>): Result<SseReply, SseError> {
    var p := ProcessFrames(Frames(text), Initial, parse);
    var joined :- JoinTexts(p.texts);
    Ok(SseReply(joined, [], p.conversationId, p.messageId, p.sectionId))
  }

  /** The whole of `handle_sse` on a stream whose decoded text is
      marker-free. */
  lemma HandleSseIsFrames(chunks: seq<seq<Bytes.byte>>, decode: seq<Bytes.byte> -> string, parse: string -> Option<Json>, report: string -> string)
    requires NoMarkers(DecodedText(chunks, decode))
    ensures HandleSse(chunks, decode, parse, report) == Handled(DecodedText(chunks, decode), parse)
  {
    var text := DecodedText(chunks, decode);
    assert "" + text == text;
    assert IndexOf("", Separator).None?;
    FeedIsFrames(Seqs.Map(chunks, decode), "", Initial, parse, report);
  }

  /** Chunks cut at character boundaries, so that decoding them one by one
      gives the decoding of the whole body, are handled as the whole body in
      one chunk would be. A character cut across two chunks is decoded as
      replacement characters instead, and then the cut can change the
      outcome. */
  lemma WholeBody(chunks: seq<seq<Bytes.byte>>, decode: seq<Bytes.byte> -> string, parse: string -> Option<Json>, report: string -> string)
    requires DecodedText(chunks, decode) == decode(Seqs.Flatten(chunks))
    requires NoMarkers(decode(Seqs.Flatten(chunks)))
    ensures HandleSse(chunks, decode, parse, report) == HandleSse([Seqs.Flatten(chunks)], decode, parse, report)
  {
    var whole := Seqs.Flatten(chunks);
    SingleChunkText(whole, decode);
    HandleSseIsFrames(chunks, decode, parse, report);
    HandleSseIsFrames([whole], decode, parse, report);
  }

  lemma SingleChunkText(chunk: seq<Bytes.byte>, decode: seq<Bytes.byte> -> string)
    ensures DecodedText([chunk], decode) == decode(chunk)
  {
    assert Seqs.Map([chunk], decode) == [decode(chunk)];
    assert Concat([decode(chunk)]) == decode(chunk) + Concat([]);
  }

  /** The limit marker arriving in a chunk fails the whole stream. */
  lemma LimitMarkerFails(before: seq<seq<Bytes.byte>>, chunk: seq<Bytes.byte>, decode: seq<Bytes.byte> -> string, parse: string -> Option<Json>, report: string -> string)
    requires NoMarkers(DecodedText(before, decode))
    requires Contains(decode(chunk), LimitMarker)
    ensures HandleSse(before + [chunk], decode, parse, report) == Err(Limited)
  {
    var texts := Seqs.Map(before, decode);
    Seqs.MapAppend(before, [chunk], decode);
    assert Seqs.Map(before + [chunk], decode) == texts + [decode(chunk)];
    assert "" + Concat(texts) == Concat(texts);
    assert IndexOf("", Separator).None?;
    FeedIsFrames(texts, "", Initial, parse, report);
    FeedAppendOne(texts, decode(chunk), "", Initial, parse, report);
    var (rem, q) := Feed(texts, "", Initial, parse, report).value;
    ContainsAfter(rem, decode(chunk), LimitMarker);
    FeedOneLimited(decode(chunk), rem, q, parse, report);
  }

  /** Text put in front keeps an occurrence. */
  lemma ContainsAfter(a: string, c: string, sub: string)
    requires Contains(c, sub)
    ensures Contains(a + c, sub)
  {
    assert (a + c)[|a|..|a + c|] == c;
    ContainsSlice(a + c, |a|, |a + c|, sub);
  }

  /** A chunk that completes the limit marker fails the loop at once. */
  lemma FeedOneLimited(c: string, buffer: string, p: Progress, parse: string -> Option<Json>, report: string -> string)
    requires Contains(buffer + c, LimitMarker)
    ensures Feed([c], buffer, p, parse, report) == Err(Limited)
  {
  }

  /** Feeding one more chunk after a successful run. */
  lemma {:induction false} FeedAppendOne(chunks: seq<string>, c: string, buffer: string, p: Progress, parse: string -> Option<Json>, report: string -> string)
    requires Feed(chunks, buffer, p, parse, report).Ok?
    ensures var (b, q) := Feed(chunks, buffer, p, parse, report).value;
      Feed(chunks + [c], buffer, p, parse, report) == Feed([c], b, q, parse, report)
    decreases |chunks|
  {
    if |chunks| == 0 {
      assert chunks + [c] == [c];
    } else {
      assert (chunks + [c])[0] == chunks[0];
      assert (chunks + [c])[1..] == chunks[1..] + [c];
      var full := buffer + chunks[0];
      var (rest, p') := Drain(full, p, parse);
      FeedAppendOne(chunks[1..], c, rest, p', parse, report);
    }
  }
}
