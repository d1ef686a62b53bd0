/** The Baidu chat request and its stream: the query taken from the
    messages, the `chat_token` (`tk`), the randomised `anti_ext` timings, and
    the translation of Baidu's `event:`/`data:` lines into OpenAI chunks.
    The clock (`ms`), the MD5 digest (`md5`), the random draws and
    `json.loads` (`parse`) are parameters. */
module BaiduChat {
  import opened Wrappers
  import opened Text
  import opened Json
  import Base64

  type Parser = string -> Option<Json>

  // ---------------------------------------------------------------------------
  // The query

  const DefaultQuery: string := "你好"

  /** A message whose `role` is `user`. */
  predicate IsUser(m: map<string, string>) {
    "role" in m && m["role"] == "user"
  }

  /** Scanning `messages[..end]` from the back: the content of the last user
      message; `msg['role']` and `msg['content']` raise `KeyError` when
      missing. */
  function QueryFrom(messages: seq<map<string, string>>, end: nat): (r: Result<string, Exn>)
    requires end <= |messages|
    ensures (forall k :: 0 <= k < end ==> "role" in messages[k] && !IsUser(messages[k])) ==> r == Ok(DefaultQuery)
  {
    if end == 0 then Ok(DefaultQuery)
    else
      var m := messages[end - 1];
      if "role" !in m then Err(KeyError)
      else if m["role"] == "user" then
        if "content" in m then Ok(m["content"]) else Err(KeyError)
      else QueryFrom(messages, end - 1)
  }

  function Query(messages: seq<map<string, string>>): (r: Result<string, Exn>)
    ensures (forall k :: 0 <= k < |messages| ==> "role" in messages[k] && !IsUser(messages[k])) ==> r == Ok(DefaultQuery)
  {
    QueryFrom(messages, |messages|)
  }

  /** The query is the content of the last user message, whatever comes
      before it. */
  lemma {:induction false} QueryIsLastUser(messages: seq<map<string, string>>, k: nat, end: nat)
    requires k < end <= |messages| && IsUser(messages[k]) && "content" in messages[k]
    requires forall j :: k < j < end ==> "role" in messages[j] && !IsUser(messages[j])
    ensures QueryFrom(messages, end) == Ok(messages[k]["content"])
    decreases end
  {
    if end - 1 != k {
      QueryIsLastUser(messages, k, end - 1);
    }
  }

  // ---------------------------------------------------------------------------
  // get_tk

  /** `token|md5(query)|ms|lid`, the text the token encodes. */
  function TkPayload(token: string, query: string, lid: string, ms: nat, md5: string -> string): string {
    token + "|" + md5(query) + "|" + NatToString(ms) + "|" + lid
  }

  /** `b64encode(payload.encode()) + "-" + lid + "-3"`. */
  function GetTk(token: string, query: string, lid: string, ms: nat, md5: string -> string): (r: string)
    ensures EndsWith(r, "-" + lid + "-3")
  {
    var head := Base64.Encode(Base64.Utf8(TkPayload(token, query, lid, ms, md5)));
    assert head + "-" + lid + "-3" == head + ("-" + lid + "-3");
    assert (head + ("-" + lid + "-3"))[|head|..] == "-" + lid + "-3";
    head + "-" + lid + "-3"
  }

  /** A `lid` without `-` can be read back from the token, and the first
      part decodes to the payload. */
  lemma TkRoundTrip(token: string, query: string, lid: string, ms: nat, md5: string -> string)
    requires NoneOf(lid, '-')
    ensures var parts := Split(GetTk(token, query, lid, ms, md5), "-");
            parts == [Base64.Encode(Base64.Utf8(TkPayload(token, query, lid, ms, md5))), lid, "3"]
            && |parts[0]| % 4 == 0
            && Base64.Decode(parts[0]) == Base64.Utf8(TkPayload(token, query, lid, ms, md5))
  {
    var bytes := Base64.Utf8(TkPayload(token, query, lid, ms, md5));
    var head := Base64.Encode(bytes);
    Base64.NoDash(bytes);
    var parts := [head, lid, "3"];
    assert parts[1..] == [lid, "3"];
    assert Join(parts[1..], "-") == lid + "-" + "3";
    assert Join(parts, "-") == head + "-" + (lid + "-" + "3");
    assert GetTk(token, query, lid, ms, md5) == head + "-" + (lid + "-" + "3");
    SplitJoin(parts, "-");
    Base64.DecodeEncode(bytes);
  }

  // ---------------------------------------------------------------------------
  // get_anti_ext

  /** `random.randint(lo, hi)`, the draw being any natural number. */
  function RandInt(lo: int, hi: int, draw: nat): (r: int)
    requires lo <= hi
    ensures lo <= r <= hi
  {
    lo + draw % (hi - lo + 1)
  }

  /** Every value in range is drawn by some draw. */
  lemma RandIntCovers(lo: int, hi: int, v: int)
    requires lo <= v <= hi
    ensures RandInt(lo, hi, v - lo) == v
  {
  }

  datatype AntiExt = AntiExt(inputT: int, ck1: int, ck9: int, ck10: int)

  /** The typing-time and click timings: `inputT` about a second per
      character of the query. */
  function GetAntiExt(query: string, draws: (nat, nat, nat, nat)): (r: AntiExt)
    ensures 990 * |query| <= r.inputT <= 1020 * |query| + 300
    ensures 79 <= r.ck1 <= 246 && 281 <= r.ck9 <= 1025 && 847 <= r.ck10 <= 926
  {
    var n := |query|;
    AntiExt(n * 1000 + RandInt(-10 * n, n * 20 + 300, draws.0),
            RandInt(79, 246, draws.1), RandInt(281, 1025, draws.2), RandInt(847, 926, draws.3))
  }

  // ---------------------------------------------------------------------------
  // generate_stream

  /** What the upstream request produced: a connection failure before any
      output, or the response lines, perhaps cut short by a read error. */
  datatype Upstream = Failed(message: string) | Response(lines: seq<string>, broken: Option<string>)

  datatype Failure = Raised(e: Exn) | Network(message: string)

  /** The OpenAI chunks sent: the opening role chunk, content chunks, the
      stop chunk, `[DONE]`, or an error chunk. */
  datatype Chunk = RoleChunk | TextChunk(content: Json) | StopChunk | DoneMarker | ErrorChunk(failure: Failure)

  /** What one line contributes: a new `referenceList`, a stop, and text. */
  datatype Effect = Effect(refs: Option<Json>, stop: bool, text: Option<Json>)

  const Ignore: Effect := Effect(None, false, None)

  /** `mdata.get('data', {}).get('message', {}).get('content', {}).get('generator', {})`
      and its `data`; a non-dict anywhere on the path raises. */
  function Generator(m: Json): (r: Result<(Json, Json), Exn>)
    ensures r.Ok? ==> r.value.0.JObj?
  {
    var empty := JObj([]);
    match PyGet(m, "data", empty)
    case Err(e) => Err(e)
    case Ok(d) =>
      match PyGet(d, "message", empty)
      case Err(e) => Err(e)
      case Ok(msg) =>
        match PyGet(msg, "content", empty)
        case Err(e) => Err(e)
        case Ok(content) =>
          match PyGet(content, "generator", empty)
          case Err(e) => Err(e)
          case Ok(generator) =>
            match PyGet(generator, "data", empty)
            case Err(e) => Err(e)
            case Ok(data) => Ok((generator, data))
  }

  /** `''.join(x)`: every item iterated must be a string. */
  function JoinStrings(items: seq<Json>): (r: Result<string, Exn>)
    ensures r.Err? <==> exists k :: 0 <= k < |items| && !items[k].JStr?
  {
    if |items| == 0 then Ok("")
    else if !items[0].JStr? then Err(TypeError)
    else
      match JoinStrings(items[1..])
      case Err(e) => Err(e)
      case Ok(rest) => Ok(items[0].s + rest)
  }

  function PyJoin(x: Json): Result<string, Exn> {
    match PyIter(x)
    case Err(e) => Err(e)
    case Ok(items) => JoinStrings(items)
  }

  /** The text a generator block shows: joined reasoning steps with a
      trailing newline, or a markdown value. A failed join still keeps the
      `referenceList` read before it. */
  function BlockText(generator: Json, data: Json): (r: Option<Json>)
    requires generator.JObj? && data.JObj?
    ensures r.Some? ==> PyTruthy(r.value)
    ensures r.Some? && Lookup(generator.fields, "component") == Some(JStr("thinkingSteps"))
            ==> r.value.JStr? && EndsWith(r.value.s, "\n")
    ensures Lookup(generator.fields, "component") == Some(JStr("thinkingSteps")) ==>
      match PyJoin(Lookup(data.fields, "reasoningContentArr").GetOr(JArr([])))
      case Ok(steps) => r == (if steps == "" then None else Some(JStr(steps + "\n")))
      case Err(_) => r.None?
    ensures Lookup(generator.fields, "component") == Some(JStr("markdown-yiyan")) ==>
      var value := Lookup(data.fields, "value").GetOr(JStr(""));
      r == (if PyTruthy(value) then Some(value) else None)
    ensures Lookup(generator.fields, "component") !in {Some(JStr("thinkingSteps")), Some(JStr("markdown-yiyan"))} ==> r.None?
  {
    var component := Lookup(generator.fields, "component");
    if component == Some(JStr("thinkingSteps")) then
      match PyJoin(Lookup(data.fields, "reasoningContentArr").GetOr(JArr([])))
      case Err(_) => None
      case Ok(steps) =>
        if steps == "" then None
        else
          assert (steps + "\n")[|steps + "\n"| - 1..] == "\n";
          Some(JStr(steps + "\n"))
    else if component == Some(JStr("markdown-yiyan")) then
      var value := Lookup(data.fields, "value").GetOr(JStr(""));
      if PyTruthy(value) then Some(value) else None
    else None
  }

  /** One line of the upstream response. `event:` lines only set a status
      nobody reads; a `data:` line that fails to parse or whose path is not
      made of dicts is skipped. */
  function LineEffect(line: string, parse: Parser): (r: Effect)
    ensures !StartsWith(line, "data:") ==> r == Ignore
    ensures r.text.Some? ==> PyTruthy(r.text.value) && !r.stop
    ensures StartsWith(line, "data:") ==>
      var m := parse(PyStrip(line[5..]));
      if m.Some? && Generator(m.value).Ok? && Generator(m.value).value.1.JObj? then
        var generator := Generator(m.value).value.0;
        var data := Generator(m.value).value.1;
        && r.refs == Lookup(data.fields, "referenceList")
        && (r.stop <==> Lookup(data.fields, "status") == Some(JStr("finished")))
        && (!r.stop ==> r.text == BlockText(generator, data))
      else r == Ignore
  {
    if line == "" || StartsWith(line, "event:") then
      EventIsNotData(line);
      Ignore
    else if !StartsWith(line, "data:") then Ignore
    else
      match parse(PyStrip(line[5..]))
      case None => Ignore
      case Some(m) =>
        match Generator(m)
        case Err(_) => Ignore
        case Ok((generator, data)) =>
          if !data.JObj? then Ignore
          else
            var refs := Lookup(data.fields, "referenceList");
            if Lookup(data.fields, "status") == Some(JStr("finished")) then Effect(refs, true, None)
            else Effect(refs, false, BlockText(generator, data))
  }

  lemma EventIsNotData(line: string)
    requires line == "" || StartsWith(line, "event:")
    ensures !StartsWith(line, "data:")
  {
    if line != "" {
      assert line[..6][0] == 'e';
      assert line[..5][0] == 'e';
    }
  }

  /** The read loop: texts in order, the last `referenceList`, and whether
      a `finished` status stopped it. */
  datatype Scanned = Scanned(texts: seq<Json>, refs: Json, finished: bool)

  /** A line reader that only yields truthy text. */
  ghost predicate TruthyText(effect: string -> Effect) {
    forall line :: effect(line).text.Some? ==> PyTruthy(effect(line).text.value)
  }

  /** The loop over the lines; `effect` is what one line does. */
  function Scan(lines: seq<string>, refs: Json, effect: string -> Effect): (r: Scanned)
    decreases |lines|
    ensures TruthyText(effect) ==> forall k :: 0 <= k < |r.texts| ==> PyTruthy(r.texts[k])
  {
    if |lines| == 0 then Scanned([], refs, false)
    else
      var e := effect(lines[0]);
      var refs' := e.refs.GetOr(refs);
      if e.stop then Scanned([], refs', true)
      else
        var rest := Scan(lines[1..], refs', effect);
        Scanned((if e.text.Some? then [e.text.value] else []) + rest.texts, rest.refs, rest.finished)
  }

  function LineReader(parse: Parser): (r: string -> Effect)
    ensures TruthyText(r)
    ensures forall line :: r(line) == LineEffect(line, parse)
  {
    line => LineEffect(line, parse)
  }

  const ReferenceHeader: string := "\n\n**引用来源:**\n"
  const UnknownTitle: string := "未知标题"

  /** `{i}. [{title}]({url}) {source}\n`, the source falling back to the
      author. */
  function ReferenceLine(number: nat, ref: Json): (r: Result<string, Exn>)
    ensures r.Err? <==> !ref.JObj?
    ensures r.Ok? ==> StartsWith(r.value, NatToString(number) + ". [") && EndsWith(r.value, "\n")
  {
    if !ref.JObj? then Err(AttributeError)
    else
      var title := Lookup(ref.fields, "text").GetOr(JStr(UnknownTitle));
      var url := Lookup(ref.fields, "url").GetOr(JStr("#"));
      var source := Lookup(ref.fields, "source").GetOr(JStr(""));
      var shown := if PyTruthy(source) then source else Lookup(ref.fields, "author_name").GetOr(JStr(""));
      var line := NatToString(number) + ". [" + PyStr(title) + "](" + PyStr(url) + ") " + PyStr(shown) + "\n";
      assert line[..|NatToString(number) + ". ["|] == NatToString(number) + ". [";
      assert line[|line| - 1..] == "\n";
      Ok(line)
  }

  /** An entry with none of the fields is shown with the fallback title, the
      `#` link and an empty source. */
  lemma ReferenceLineDefaults(number: nat)
    ensures ReferenceLine(number, JObj([])) == Ok(NatToString(number) + ". [" + UnknownTitle + "](#) \n")
  {
    assert NatToString(number) + ". [" + UnknownTitle + "](" + "#" + ") " + "" + "\n"
        == NatToString(number) + ". [" + UnknownTitle + "](#) \n";
  }

  /** An entry whose `source` is missing or falsy shows its `author_name`
      instead; a title and link that are strings are shown as they are. */
  lemma ReferenceLineAuthor(number: nat, fields: seq<Field>, title: string, url: string, author: string)
    requires Lookup(fields, "text") == Some(JStr(title)) && Lookup(fields, "url") == Some(JStr(url))
    requires !PyTruthy(Lookup(fields, "source").GetOr(JStr("")))
    requires Lookup(fields, "author_name") == Some(JStr(author))
    ensures ReferenceLine(number, JObj(fields)) == Ok(NatToString(number) + ". [" + title + "](" + url + ") " + author + "\n")
  {
  }

  function ReferenceLines(refs: seq<Json>, from: nat): (r: Result<string, Exn>)
    requires from <= |refs|
    decreases |refs| - from
    ensures r.Err? <==> exists k :: from <= k < |refs| && !refs[k].JObj?
  {
    if from == |refs| then Ok("")
    else
      match ReferenceLine(from + 1, refs[from])
      case Err(e) => Err(e)
      case Ok(line) =>
        match ReferenceLines(refs, from + 1)
        case Err(e) => Err(e)
        case Ok(rest) => Ok(line + rest)
  }

  /** The block gains one line per entry: the entry `k` (from 0) is line
      `k + 1`, after the lines of the entries before it. */
  lemma {:induction false} ReferenceLinesSnoc(refs: seq<Json>, x: Json)
    ensures ReferenceLines(refs + [x], 0) ==
      match ReferenceLines(refs, 0)
      case Err(e) => Err(e)
      case Ok(before) =>
        match ReferenceLine(|refs| + 1, x)
        case Err(e) => Err(e)
        case Ok(line) => Ok(before + line)
  {
    LinesSnocFrom(refs, x, 0);
  }

  /** The lines of `refs + [x]` from `from` on: those of `refs`, then the
      line of `x` numbered after them. */
  ghost predicate SnocLines(refs: seq<Json>, x: Json, from: nat)
    requires from <= |refs|
  {
    ReferenceLines(refs + [x], from) ==
      match ReferenceLines(refs, from)
      case Err(e) => Err(e)
      case Ok(before) =>
        match ReferenceLine(|refs| + 1, x)
        case Err(e) => Err(e)
        case Ok(line) => Ok(before + line)
  }

  lemma {:induction false} LinesSnocFrom(refs: seq<Json>, x: Json, from: nat)
    requires from <= |refs|
    ensures SnocLines(refs, x, from)
    decreases |refs| - from
  {
    if from == |refs| {
      LinesSnocLast(refs, x);
    } else {
      LinesSnocFrom(refs, x, from + 1);
      LinesSnocStep(refs, x, from);
    }
  }

  lemma LinesSnocLast(refs: seq<Json>, x: Json)
    ensures SnocLines(refs, x, |refs|)
  {
    var all := refs + [x];
    var tail := ReferenceLine(|refs| + 1, x);
    assert all[|refs|] == x;
    assert ReferenceLines(all, |refs| + 1) == Ok("");
    if tail.Ok? {
      assert tail.value + "" == "" + tail.value;
    }
  }

  lemma LinesSnocStep(refs: seq<Json>, x: Json, from: nat)
    requires from < |refs|
    requires SnocLines(refs, x, from + 1)
    ensures SnocLines(refs, x, from)
  {
    var all := refs + [x];
    var tail := ReferenceLine(|refs| + 1, x);
    assert all[from] == refs[from];
    var head := ReferenceLine(from + 1, refs[from]);
    var rest := ReferenceLines(refs, from + 1);
    if head.Ok? && rest.Ok? && tail.Ok? {
      assert head.value + (rest.value + tail.value) == (head.value + rest.value) + tail.value;
    }
  }

  /** The closing reference block; iterating a non-list or reading a
      non-dict entry raises. */
  function ReferenceText(refs: Json): (r: Result<string, Exn>)
    ensures r.Ok? ==> StartsWith(r.value, ReferenceHeader)
    ensures refs.JArr? ==> (r.Err? <==> exists k :: 0 <= k < |refs.items| && !refs.items[k].JObj?)
    ensures refs.JArr? && ReferenceLines(refs.items, 0).Ok? ==> r == Ok(ReferenceHeader + ReferenceLines(refs.items, 0).value)
  {
    match PyIter(refs)
    case Err(e) => Err(e)
    case Ok(items) =>
      match ReferenceLines(items, 0)
      case Err(e) => Err(e)
      case Ok(lines) =>
        assert (ReferenceHeader + lines)[..|ReferenceHeader|] == ReferenceHeader;
        Ok(ReferenceHeader + lines)
  }

  function TextChunks(texts: seq<Json>): (r: seq<Chunk>)
    ensures |r| == |texts|
    ensures forall k :: 0 <= k < |texts| ==> r[k] == TextChunk(texts[k])
  {
    if |texts| == 0 then [] else [TextChunk(texts[0])] + TextChunks(texts[1..])
  }

  /** The whole generator. */
  function GenerateStream(upstream: Upstream, parse: Parser): (r: seq<Chunk>)
    ensures Shaped(r)
    ensures upstream.Failed? ==> r == [ErrorChunk(Network(upstream.message))]
    ensures upstream.Response? ==> r[0] == RoleChunk
    ensures upstream.Response? ==>
      var s := Scan(upstream.lines, JArr([]), LineReader(parse));
      r == [RoleChunk] + TextChunks(s.texts) + Ending(s, upstream.broken)
  {
    match upstream
    case Failed(message) => [ErrorChunk(Network(message))]
    case Response(lines, broken) =>
      var s := Scan(lines, JArr([]), LineReader(parse));
      var ending := Ending(s, broken);
      BodyShaped(s.texts, ending);
      [RoleChunk] + TextChunks(s.texts) + ending
  }

  /** What follows the content: the network error that broke the read, or
      the reference block (when there is one) with the stop chunk and
      `[DONE]`, or the error formatting the references raised. */
  function Ending(s: Scanned, broken: Option<string>): (r: seq<Chunk>)
    ensures EndShaped(r)
    ensures !s.finished && broken.Some? ==> r == [ErrorChunk(Network(broken.value))]
    ensures (s.finished || broken.None?) && !PyTruthy(s.refs) ==> r == [StopChunk, DoneMarker]
    ensures (s.finished || broken.None?) && PyTruthy(s.refs) ==>
      match ReferenceText(s.refs)
      case Ok(text) => r == [TextChunk(JStr(text)), StopChunk, DoneMarker]
      case Err(e) => r == [ErrorChunk(Raised(e))]
  {
    if !s.finished && broken.Some? then [ErrorChunk(Network(broken.value))]
    else if !PyTruthy(s.refs) then [StopChunk, DoneMarker]
    else
      match ReferenceText(s.refs)
      case Err(e) => [ErrorChunk(Raised(e))]
      case Ok(text) =>
        assert |text| >= |ReferenceHeader|;
        [TextChunk(JStr(text)), StopChunk, DoneMarker]
  }

  /** An ending: `[DONE]` after the stop chunk, or an error chunk, with only
      truthy text or the stop chunk before. */
  predicate EndShaped(e: seq<Chunk>) {
    |e| >= 1
    && (e[|e| - 1] == DoneMarker ==> |e| >= 2 && e[|e| - 2] == StopChunk)
    && (e[|e| - 1] == DoneMarker || e[|e| - 1].ErrorChunk?)
    && forall k :: 0 <= k < |e| - 1 && e[k] != StopChunk ==> e[k].TextChunk? && PyTruthy(e[k].content)
  }

  /** The role chunk followed by truthy text chunks. */
  predicate Opening(b: seq<Chunk>) {
    |b| >= 1 && b[0] == RoleChunk
    && forall k :: 1 <= k < |b| ==> b[k].TextChunk? && PyTruthy(b[k].content)
  }

  lemma BodyShaped(texts: seq<Json>, ending: seq<Chunk>)
    requires forall k :: 0 <= k < |texts| ==> PyTruthy(texts[k])
    requires EndShaped(ending)
    ensures Shaped([RoleChunk] + TextChunks(texts) + ending)
  {
    OpeningOfTexts(texts);
    JoinShaped([RoleChunk] + TextChunks(texts), ending);
  }

  lemma OpeningOfTexts(texts: seq<Json>)
    requires forall k :: 0 <= k < |texts| ==> PyTruthy(texts[k])
    ensures Opening([RoleChunk] + TextChunks(texts))
  {
    var body := [RoleChunk] + TextChunks(texts);
    forall k | 1 <= k < |body| ensures body[k].TextChunk? && PyTruthy(body[k].content) {
      assert body[k] == TextChunks(texts)[k - 1];
    }
  }

  lemma JoinShaped(b: seq<Chunk>, e: seq<Chunk>)
    requires Opening(b) && EndShaped(e)
    ensures Shaped(b + e)
  {
    var r := b + e;
    assert r[0] == b[0];
    assert r[|r| - 1] == e[|e| - 1];
    assert |e| >= 2 ==> r[|r| - 2] == e[|e| - 2];
    forall k | 1 <= k < |r| - 1 && r[k] != StopChunk
      ensures r[k].TextChunk? && PyTruthy(r[k].content)
    {
      if k < |b| {
        assert r[k] == b[k];
      } else {
        assert r[k] == e[k - |b|];
      }
    }
  }


  /** Either one error chunk, or a role chunk, content chunks and an ending:
      `[DONE]` after the stop chunk, or an error chunk. */
  predicate Shaped(r: seq<Chunk>) {
    |r| >= 1
    && (r[0] == RoleChunk || (|r| == 1 && r[0].ErrorChunk?))
    && (r[|r| - 1] == DoneMarker ==> |r| >= 3 && r[|r| - 2] == StopChunk)
    && (r[|r| - 1] == DoneMarker || r[|r| - 1].ErrorChunk?)
    && forall k :: 1 <= k < |r| - 1 && r[k] != StopChunk ==> r[k].TextChunk? && PyTruthy(r[k].content)
  }

  /** A `finished` line ends the read: nothing after it is looked at. */
  lemma {:induction false} FinishedStops(pre: seq<string>, line: string, post: seq<string>, refs: Json, effect: string -> Effect)
    requires effect(line).stop
    ensures Scan(pre + [line] + post, refs, effect) == Scan(pre + [line], refs, effect)
    decreases |pre|
  {
    if |pre| == 0 {
      assert (pre + [line] + post)[0] == line && (pre + [line])[0] == line;
    } else {
      assert (pre + [line] + post)[0] == pre[0] && (pre + [line])[0] == pre[0];
      assert (pre + [line] + post)[1..] == pre[1..] + [line] + post;
      assert (pre + [line])[1..] == pre[1..] + [line];
      var e := effect(pre[0]);
      FinishedStops(pre[1..], line, post, e.refs.GetOr(refs), effect);
    }
  }

  /** Lines that carry no `referenceList` leave the collected one alone. */
  lemma {:induction false} NoRefsKeep(lines: seq<string>, refs: Json, effect: string -> Effect)
    requires forall k :: 0 <= k < |lines| ==> effect(lines[k]).refs.None?
    ensures Scan(lines, refs, effect).refs == refs
    decreases |lines|
  {
    if |lines| > 0 && !effect(lines[0]).stop {
      NoRefsKeep(lines[1..], refs, effect);
    }
  }

  /** The references shown are those of the last line that carried a
      `referenceList`. */
  lemma {:induction false} LastReferencesWin(lines: seq<string>, k: nat, refs: Json, effect: string -> Effect)
    requires k < |lines| && effect(lines[k]).refs.Some?
    requires forall j :: 0 <= j < k ==> !effect(lines[j]).stop
    requires forall j :: k < j < |lines| ==> effect(lines[j]).refs.None?
    ensures Scan(lines, refs, effect).refs == effect(lines[k]).refs.value
    decreases k
  {
    var e := effect(lines[0]);
    if k == 0 {
      if !e.stop {
        NoRefsKeep(lines[1..], e.refs.value, effect);
      }
    } else {
      LastReferencesWin(lines[1..], k - 1, e.refs.GetOr(refs), effect);
    }
  }

  /** A stream that ends cleanly closes with the block for the last
      `referenceList` it carried, then the stop chunk and `[DONE]`. */
  lemma ReferencesShownLast(lines: seq<string>, k: nat, parse: Parser)
    requires k < |lines| && LineEffect(lines[k], parse).refs.Some?
    requires forall j :: 0 <= j < k ==> !LineEffect(lines[j], parse).stop
    requires forall j :: k < j < |lines| ==> LineEffect(lines[j], parse).refs.None?
    requires PyTruthy(LineEffect(lines[k], parse).refs.value)
    requires ReferenceText(LineEffect(lines[k], parse).refs.value).Ok?
    ensures var r := GenerateStream(Response(lines, None), parse);
      |r| >= 3 && r[|r| - 3..] == [TextChunk(JStr(ReferenceText(LineEffect(lines[k], parse).refs.value).value)), StopChunk, DoneMarker]
  {
    LastReferencesWin(lines, k, JArr([]), LineReader(parse));
  }
}
