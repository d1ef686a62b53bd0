/** The Connect RPC binary envelope used by the Kimi client: every message is
    one flags octet (0x00 for a normal message), a 4-octet big-endian payload
    length and the JSON payload; a streaming response is such envelopes back to
    back. JSON text <-> value conversion (`JSON.stringify`/`JSON.parse` together
    with UTF-8) is a parameter: `stringify` is total, `parse` may fail. */
module ConnectRpc {
  import opened Wrappers
  import opened Json
  import opened Bytes
  import opened Seqs

  const HeaderSize: nat := 5
  const FlagNormal: byte := 0

  datatype EncodeError = LengthOutOfRange

  /** The envelope around a payload. Node's `writeUInt32BE` throws a RangeError
      for a length that does not fit in 32 bits. */
  function EncodeFrame(payload: seq<byte>): (r: Result<seq<byte>, EncodeError>)
    ensures r.Ok? <==> |payload| < TwoTo32
    ensures r.Ok? ==> |r.value| == HeaderSize + |payload| && r.value[0] == FlagNormal
    ensures r.Ok? ==> ReadUInt32BE(r.value, 1) == |payload| && r.value[HeaderSize..] == payload
  {
    if |payload| >= TwoTo32 then Err(LengthOutOfRange)
    else
      var frame := [FlagNormal] + UInt32BE(|payload|) + payload;
      ReadWriteUInt32BE(|payload|);
      ReadUInt32BEFrame(frame, 1, UInt32BE(|payload|), 0);
      Ok(frame)
  }

  /** `encodeConnectMessage`. */
  function EncodeConnectMessage(data: Json, stringify: Json -> seq<byte>): (r: Result<seq<byte>, EncodeError>)
    ensures r.Ok? <==> |stringify(data)| < TwoTo32
    ensures r.Ok? ==> |r.value| == HeaderSize + |stringify(data)| && r.value[0] == FlagNormal && ReadUInt32BE(r.value, 1) == |stringify(data)|
                      && r.value[HeaderSize..] == stringify(data)
  {
    EncodeFrame(stringify(data))
  }

  /** The payload `decodeConnectMessage` hands to `JSON.parse`: `None` when the
      buffer is shorter than a header or than the length it declares. The flags
      octet is read and ignored. */
  function FramePayload(data: seq<byte>): (r: Option<seq<byte>>)
    ensures r.Some? <==> |data| >= HeaderSize && |data| >= HeaderSize + ReadUInt32BE(data, 1)
    ensures r.Some? ==> r.value == data[HeaderSize..HeaderSize + ReadUInt32BE(data, 1)]
  {
    if |data| < HeaderSize then None
    else
      var length := ReadUInt32BE(data, 1);
      if |data| < HeaderSize + length then None
      else Some(data[HeaderSize..HeaderSize + length])
  }

  /** `decodeConnectMessage`: the parsed payload, `None` for the `null` it returns
      on a short buffer or a payload that does not parse. (A payload that parses
      to JSON `null` comes back as `Some(JNull)`; both are `null` to the caller.) */
  function DecodeConnectMessage(data: seq<byte>, parse: seq<byte> -> Option<Json>): (r: Option<Json>)
    ensures |data| < HeaderSize ==> r.None?
    ensures |data| >= HeaderSize ==>
      r == if |data| < HeaderSize + ReadUInt32BE(data, 1) then None
           else parse(data[HeaderSize..HeaderSize + ReadUInt32BE(data, 1)])
  {
    match FramePayload(data)
    case None => None
    case Some(p) => parse(p)
  }

  /** Decoding an encoded payload gives the payload back. */
  lemma FramePayloadOfEncode(payload: seq<byte>)
    requires |payload| < TwoTo32
    ensures FramePayload(EncodeFrame(payload).value) == Some(payload)
  {
    var f := EncodeFrame(payload).value;
    assert f[HeaderSize..HeaderSize + |payload|] == f[HeaderSize..];
  }

  /** Round trip: a value whose JSON text parses back to itself survives
      encode-then-decode. */
  lemma DecodeEncodeRoundTrip(data: Json, stringify: Json -> seq<byte>, parse: seq<byte> -> Option<Json>)
    requires |stringify(data)| < TwoTo32
    requires parse(stringify(data)) == Some(data)
    ensures EncodeConnectMessage(data, stringify).Ok?
    ensures DecodeConnectMessage(EncodeConnectMessage(data, stringify).value, parse) == Some(data)
  {
    FramePayloadOfEncode(stringify(data));
  }

  /** The flags octet does not influence decoding. */
  lemma DecodeIgnoresFlags(data: seq<byte>, flags: byte, parse: seq<byte> -> Option<Json>)
    requires |data| >= 1
    ensures DecodeConnectMessage([flags] + data[1..], parse) == DecodeConnectMessage(data, parse)
  {
    var other := [flags] + data[1..];
    assert other[1..] == data[1..];
    if |data| >= HeaderSize {
      assert other[1..5] == data[1..5];
      ReadUInt32BEFrame(data, 1, other, 1);
      var length := ReadUInt32BE(data, 1);
      if |data| >= HeaderSize + length {
        assert other[HeaderSize..HeaderSize + length] == data[HeaderSize..HeaderSize + length];
      }
    }
  }

  // ---------------------------------------------------------------------------
  // Streaming responses

  /** The complete envelopes of a response from `offset` on, in order; a
      trailing envelope that is cut short (header or payload incomplete) is
      dropped. */
  function FramesFrom(data: seq<byte>, offset: nat): seq<seq<byte>>
    requires offset <= |data|
    decreases |data| - offset
  {
    if offset + HeaderSize > |data| then []
    else
      var length := ReadUInt32BE(data, offset + 1);
      if offset + HeaderSize + length > |data| then []
      else [data[offset..offset + HeaderSize + length]] + FramesFrom(data, offset + HeaderSize + length)
  }

  /** Keeps the decoded messages that are truthy (`if (message)`). */
  function TruthyDecoded(frames: seq<seq<byte>>, parse: seq<byte> -> Option<Json>): seq<Json>
  {
    if |frames| == 0 then []
    else
      var m := DecodeConnectMessage(frames[0], parse);
      (if JsTruthy(m) then [m.value] else []) + TruthyDecoded(frames[1..], parse)
  }

  lemma TruthyDecodedCons(frame: seq<byte>, frames: seq<seq<byte>>, parse: seq<byte> -> Option<Json>)
    ensures var m := DecodeConnectMessage(frame, parse);
      TruthyDecoded([frame] + frames, parse) == (if JsTruthy(m) then [m.value] else []) + TruthyDecoded(frames, parse)
  {
    assert ([frame] + frames)[1..] == frames;
  }

  lemma AppendAssoc(a: seq<Json>, b: seq<Json>, c: seq<Json>)
    ensures (a + b) + c == a + (b + c)
  {
  }

  /** `parseStreamingResponse`, walking the buffer with an offset as the source
      does; its result is the truthy decoded messages of `FramesFrom(data, 0)`. */
  method ParseStreamingResponse(data: seq<byte>, parse: seq<byte> -> Option<Json>) returns (messages: seq<Json>)
    ensures messages == TruthyDecoded(FramesFrom(data, 0), parse)
    ensures forall i :: 0 <= i < |messages| ==> JsTruthy(Some(messages[i]))
  {
    messages := [];
    var offset := 0;
    var dataLen := |data|;
    ghost var total := TruthyDecoded(FramesFrom(data, 0), parse);
    while offset < dataLen
      invariant 0 <= offset <= dataLen
      invariant messages + TruthyDecoded(FramesFrom(data, offset), parse) == total
      decreases dataLen - offset
    {
      if offset + HeaderSize > dataLen {
        break;
      }
      var length := ReadUInt32BE(data, offset + 1);
      if offset + HeaderSize + length > dataLen {
        break;
      }
      var next := offset + HeaderSize + length;
      var message := DecodeConnectMessage(data[offset..next], parse);
      WalkStep(data, offset, next, parse, messages, message, total);
      messages := KeepIfTruthy(messages, message);
      offset := next;
    }
    WalkEnd(data, offset, parse, messages);
    TruthyDecodedTruthy(FramesFrom(data, 0), parse);
  }

  lemma TruthyDecodedTruthy(frames: seq<seq<byte>>, parse: seq<byte> -> Option<Json>)
    ensures forall i :: 0 <= i < |TruthyDecoded(frames, parse)| ==> JsTruthy(Some(TruthyDecoded(frames, parse)[i]))
  {
    if |frames| > 0 {
      TruthyDecodedTruthy(frames[1..], parse);
    }
  }

  /** `if (message) messages.push(message)`. */
  function KeepIfTruthy(messages: seq<Json>, m: Option<Json>): seq<Json> {
    if JsTruthy(m) then messages + [m.value] else messages
  }

  /** Where the walk stops early, the messages collected so far are all of them. */
  lemma WalkEnd(data: seq<byte>, offset: nat, parse: seq<byte> -> Option<Json>, messages: seq<Json>)
    requires offset <= |data|
    requires offset + HeaderSize > |data| || offset + HeaderSize + ReadUInt32BE(data, offset + 1) > |data|
    requires messages + TruthyDecoded(FramesFrom(data, offset), parse) == TruthyDecoded(FramesFrom(data, 0), parse)
    ensures messages == TruthyDecoded(FramesFrom(data, 0), parse)
  {
    assert FramesFrom(data, offset) == [];
    assert messages + [] == messages;
  }

  /** One iteration of the walk keeps the loop invariant of `ParseStreamingResponse`. */
  lemma WalkStep(data: seq<byte>, offset: nat, next: nat, parse: seq<byte> -> Option<Json>,
                 messages: seq<Json>, m: Option<Json>, total: seq<Json>)
    requires offset + HeaderSize <= |data|
    requires next == offset + HeaderSize + ReadUInt32BE(data, offset + 1) <= |data|
    requires m == DecodeConnectMessage(data[offset..next], parse)
    requires messages + TruthyDecoded(FramesFrom(data, offset), parse) == total
    ensures KeepIfTruthy(messages, m) + TruthyDecoded(FramesFrom(data, next), parse) == total
  {
    var messageData := data[offset..next];
    assert FramesFrom(data, offset) == [messageData] + FramesFrom(data, next);
    TruthyDecodedCons(messageData, FramesFrom(data, next), parse);
    if JsTruthy(m) {
      AppendAssoc(messages, [m.value], TruthyDecoded(FramesFrom(data, next), parse));
    } else {
      assert [] + TruthyDecoded(FramesFrom(data, next), parse) == TruthyDecoded(FramesFrom(data, next), parse);
    }
  }

  /** Frames after a prefix depend only on what follows the prefix. */
  lemma {:induction false} FramesFromShift(prefix: seq<byte>, rest: seq<byte>, offset: nat)
    requires offset <= |rest|
    ensures FramesFrom(prefix + rest, |prefix| + offset) == FramesFrom(rest, offset)
    decreases |rest| - offset
  {
    var all := prefix + rest;
    var at := |prefix| + offset;
    if offset + HeaderSize <= |rest| {
      ShiftSlice(prefix, rest, offset + 1, 4);
      ReadUInt32BEFrame(all, at + 1, rest, offset + 1);
      var length := ReadUInt32BE(rest, offset + 1);
      if offset + HeaderSize + length <= |rest| {
        ShiftSlice(prefix, rest, offset, HeaderSize + length);
        FramesFromShift(prefix, rest, offset + HeaderSize + length);
        SameNextFrame(all, at, rest, offset, length);
      }
    }
  }

  /** Two walks that read the same envelope go on alike. */
  lemma SameNextFrame(data: seq<byte>, at: nat, other: seq<byte>, offset: nat, length: nat)
    requires at + HeaderSize + length <= |data| && offset + HeaderSize + length <= |other|
    requires ReadUInt32BE(data, at + 1) == length && ReadUInt32BE(other, offset + 1) == length
    requires data[at..at + HeaderSize + length] == other[offset..offset + HeaderSize + length]
    requires FramesFrom(data, at + HeaderSize + length) == FramesFrom(other, offset + HeaderSize + length)
    ensures FramesFrom(data, at) == FramesFrom(other, offset)
  {
    FramesFromStep(data, at);
    FramesFromStep(other, offset);
  }

  /** A slice of the text after a prefix, addressed from the start. */
  lemma ShiftSlice(prefix: seq<byte>, rest: seq<byte>, from: nat, len: nat)
    requires from + len <= |rest|
    ensures (prefix + rest)[|prefix| + from..|prefix| + from + len] == rest[from..from + len]
  {
  }

  /** A complete envelope at `offset` is the next frame. */
  lemma FramesFromStep(data: seq<byte>, offset: nat)
    requires offset + HeaderSize <= |data|
    requires offset + HeaderSize + ReadUInt32BE(data, offset + 1) <= |data|
    ensures var next := offset + HeaderSize + ReadUInt32BE(data, offset + 1);
      FramesFrom(data, offset) == [data[offset..next]] + FramesFrom(data, next)
  {
  }

  /** Envelopes written back to back are split apart again exactly. */
  lemma {:induction false} FramesOfConcatenation(payloads: seq<seq<byte>>)
    requires forall i :: 0 <= i < |payloads| ==> |payloads[i]| < TwoTo32
    ensures FramesFrom(EncodeAll(payloads), 0) == seq(|payloads|, i requires 0 <= i < |payloads| => EncodeFrame(payloads[i]).value)
  {
    if |payloads| > 0 {
      var first := EncodeFrame(payloads[0]).value;
      var rest := EncodeAll(payloads[1..]);
      FirstFrame(first, rest, |payloads[0]|);
      FramesFromShift(first, rest, 0);
      FramesOfConcatenation(payloads[1..]);
      EncodedCons(payloads);
    }
  }

  /** An encoded envelope at the front of a stream is its first frame. */
  lemma FirstFrame(first: seq<byte>, rest: seq<byte>, n: nat)
    requires |first| == HeaderSize + n && ReadUInt32BE(first, 1) == n
    ensures FramesFrom(first + rest, 0) == [first] + FramesFrom(first + rest, |first|)
  {
    var all := first + rest;
    assert all[1..5] == first[1..5];
    ReadUInt32BEFrame(all, 1, first, 1);
    assert all[0..HeaderSize + n] == first;
    FramesFromStep(all, 0);
  }

  lemma EncodedCons(payloads: seq<seq<byte>>)
    requires |payloads| > 0
    requires forall i :: 0 <= i < |payloads| ==> |payloads[i]| < TwoTo32
    ensures EncodeAll(payloads) == EncodeFrame(payloads[0]).value + EncodeAll(payloads[1..])
    ensures seq(|payloads|, i requires 0 <= i < |payloads| => EncodeFrame(payloads[i]).value)
         == [EncodeFrame(payloads[0]).value] + seq(|payloads| - 1, i requires 0 <= i < |payloads| - 1 => EncodeFrame(payloads[1..][i]).value)
  {
  }

  function EncodeAll(payloads: seq<seq<byte>>): seq<byte>
    requires forall i :: 0 <= i < |payloads| ==> |payloads[i]| < TwoTo32
  {
    if |payloads| == 0 then [] else EncodeFrame(payloads[0]).value + EncodeAll(payloads[1..])
  }

  /** A stream of encoded messages parses back to those messages (the falsy
      ones are dropped), whatever partial envelope trails it. */
  lemma {:induction false} ParseEncodedStream(values: seq<Json>, stringify: Json -> seq<byte>, parse: seq<byte> -> Option<Json>)
    requires forall i :: 0 <= i < |values| ==> |stringify(values[i])| < TwoTo32
    requires forall i :: 0 <= i < |values| ==> parse(stringify(values[i])) == Some(values[i])
    ensures TruthyDecoded(FramesFrom(EncodeAll(seq(|values|, i requires 0 <= i < |values| => stringify(values[i]))), 0), parse)
            == KeepTruthy(values)
  {
    var payloads := seq(|values|, i requires 0 <= i < |values| => stringify(values[i]));
    FramesOfConcatenation(payloads);
    assert seq(|payloads|, i requires 0 <= i < |payloads| => EncodeFrame(payloads[i]).value)
        == seq(|values|, i requires 0 <= i < |values| => EncodeFrame(stringify(values[i])).value);
    TruthyDecodedOfEncoded(values, stringify, parse);
  }

  lemma {:induction false} TruthyDecodedOfEncoded(values: seq<Json>, stringify: Json -> seq<byte>, parse: seq<byte> -> Option<Json>)
    requires forall i :: 0 <= i < |values| ==> |stringify(values[i])| < TwoTo32
    requires forall i :: 0 <= i < |values| ==> parse(stringify(values[i])) == Some(values[i])
    ensures TruthyDecoded(seq(|values|, i requires 0 <= i < |values| => EncodeFrame(stringify(values[i])).value), parse)
            == KeepTruthy(values)
  {
    if |values| > 0 {
      var frames := seq(|values|, i requires 0 <= i < |values| => EncodeFrame(stringify(values[i])).value);
      FramePayloadOfEncode(stringify(values[0]));
      assert frames[1..] == seq(|values[1..]|, i requires 0 <= i < |values[1..]| => EncodeFrame(stringify(values[1..][i])).value);
      TruthyDecodedOfEncoded(values[1..], stringify, parse);
    }
  }

  function KeepTruthy(values: seq<Json>): seq<Json> {
    if |values| == 0 then []
    else (if JsTruthy(Some(values[0])) then [values[0]] else []) + KeepTruthy(values[1..])
  }

  // ---------------------------------------------------------------------------
  // Reading the decoded messages

  /** `msg.block?.text?.content`. */
  function BlockContent(msg: Json): Option<Json> {
    JsOpt(JsOpt(JsOpt(Some(msg), "block"), "text"), "content")
  }

  /** `(msg.op || '')` is 'set' or 'append'. */
  predicate IsTextOp(msg: Json) {
    var op := JsOpt(Some(msg), "op");
    JsTruthy(op) && (op.value == JStr("set") || op.value == JStr("append"))
  }

  /** What one message contributes to the text. */
  function ContributedText(msg: Json): seq<Json> {
    var content := BlockContent(msg);
    if JsTruthy(content) && IsTextOp(msg) then [content.value] else []
  }

  /** The text parts collected by `extractTextFromMessages`: each message's
      block content when it is truthy and the op is set or append, stopping
      after the first message carrying a truthy `done`. */
  function TextParts(messages: seq<Json>): (r: seq<Json>)
    ensures forall i :: 0 <= i < |r| ==> JsTruthy(Some(r[i]))
  {
    if |messages| == 0 then []
    else if JsTruthy(JsOpt(Some(messages[0]), "done")) then ContributedText(messages[0])
    else ContributedText(messages[0]) + TextParts(messages[1..])
  }

  /** `extractTextFromMessages`: the parts joined with ''. Message elements are
      objects by the declared type (a `null` element would throw). */
  function ExtractTextFromMessages(messages: seq<Json>): (r: string)
    requires forall i :: 0 <= i < |messages| ==> messages[i] != JNull
    ensures r == JsConcat(TextParts(messages))
  {
    var parts := TextParts(messages);
    JsJoinEmptyIsConcat(parts);
    JsJoin(seq(|parts|, i requires 0 <= i < |parts| => Some(parts[i])), "")
  }

  predicate IsDone(msg: Json) {
    JsTruthy(JsOpt(Some(msg), "done"))
  }

  /** Messages after the first `done` never contribute text. */
  lemma {:induction false} TextStopsAtDone(before: seq<Json>, done: Json, after: seq<Json>)
    requires forall i :: 0 <= i < |before| ==> !IsDone(before[i])
    requires IsDone(done)
    ensures TextParts(before + [done] + after) == TextParts(before + [done])
  {
    if |before| > 0 {
      assert (before + [done] + after)[1..] == before[1..] + [done] + after;
      assert (before + [done])[1..] == before[1..] + [done];
      TextStopsAtDone(before[1..], done, after);
    }
  }

  /** Without a `done`, every set/append message with content contributes, in order. */
  lemma {:induction false} TextPartsWithoutDone(messages: seq<Json>)
    requires forall i :: 0 <= i < |messages| ==> !IsDone(messages[i])
    ensures TextParts(messages) == FlattenContributions(messages)
  {
    if |messages| > 0 {
      TextPartsWithoutDone(messages[1..]);
    }
  }

  function FlattenContributions(messages: seq<Json>): seq<Json> {
    if |messages| == 0 then [] else ContributedText(messages[0]) + FlattenContributions(messages[1..])
  }

  /** Messages before any `done` add their text in front of what follows. */
  lemma {:induction false} TextPartsAppend(a: seq<Json>, b: seq<Json>)
    requires forall i :: 0 <= i < |a| ==> !IsDone(a[i])
    ensures TextParts(a + b) == TextParts(a) + TextParts(b)
  {
    if |a| == 0 {
      assert a + b == b;
    } else {
      assert (a + b)[0] == a[0];
      assert (a + b)[1..] == a[1..] + b;
      TextPartsAppend(a[1..], b);
    }
  }

  /** The extracted text ignores every message after the first `done`. */
  lemma ExtractTextStopsAtDone(before: seq<Json>, done: Json, after: seq<Json>)
    requires forall i :: 0 <= i < |before| ==> !IsDone(before[i]) && before[i] != JNull
    requires IsDone(done) && done != JNull
    requires forall i :: 0 <= i < |after| ==> after[i] != JNull
    ensures ExtractTextFromMessages(before + [done] + after) == ExtractTextFromMessages(before + [done])
  {
    TextStopsAtDone(before, done, after);
  }

  /** Before any `done`, the text of a longer read extends the text so far. */
  lemma ExtractTextAppend(a: seq<Json>, b: seq<Json>)
    requires forall i :: 0 <= i < |a| ==> !IsDone(a[i]) && a[i] != JNull
    requires forall i :: 0 <= i < |b| ==> b[i] != JNull
    ensures ExtractTextFromMessages(a + b) == ExtractTextFromMessages(a) + ExtractTextFromMessages(b)
  {
    TextPartsAppend(a, b);
    JsConcatAppend(TextParts(a), TextParts(b));
  }

  /** A `set` or `append` message whose content is a non-empty string adds
      exactly that string. */
  lemma TextOfOneMessage(msg: Json, text: string)
    requires msg != JNull && BlockContent(msg) == Some(JStr(text)) && text != "" && IsTextOp(msg)
    ensures ExtractTextFromMessages([msg]) == text
  {
    assert [msg][1..] == [];
    assert JsTruthy(Some(JStr(text)));
    assert ContributedText(msg) == [JStr(text)];
    assert TextParts([msg]) == [JStr(text)];
    assert JsJoinElement(JStr(text)) == text;
    assert JsConcat([JStr(text)]) == text + JsConcat([]);
  }

  function ChatId(msg: Json): Option<Json> {
    JsOpt(JsOpt(Some(msg), "chat"), "id")
  }

  predicate HasChatId(msg: Json) {
    JsTruthy(ChatId(msg))
  }

  /** `extractChatId`: the first truthy `msg.chat?.id`; `None` is `undefined`. */
  function ExtractChatId(messages: seq<Json>): (r: Option<Json>)
    ensures r.None? <==> forall i :: 0 <= i < |messages| ==> !HasChatId(messages[i])
    ensures r.Some? ==> JsTruthy(r) && exists i :: (0 <= i < |messages| && ChatId(messages[i]) == r
        && (forall j :: 0 <= j < i ==> !HasChatId(messages[j])))
  {
    match FirstIndex(messages, HasChatId)
    case None => None
    case Some(i) => ChatId(messages[i])
  }

  function MessageId(msg: Json): Option<Json> {
    JsOpt(JsOpt(Some(msg), "message"), "id")
  }

  /** `msg.message?.id && msg.message.role === 'assistant'`. */
  predicate IsAssistantMessage(msg: Json) {
    JsTruthy(MessageId(msg)) && JsOpt(JsOpt(Some(msg), "message"), "role") == Some(JStr("assistant"))
  }

  /** `extractMessageId`: the id of the first assistant message with a truthy id. */
  function ExtractMessageId(messages: seq<Json>): (r: Option<Json>)
    ensures r.None? <==> forall i :: 0 <= i < |messages| ==> !IsAssistantMessage(messages[i])
    ensures r.Some? ==> exists i :: (0 <= i < |messages| && IsAssistantMessage(messages[i]) && MessageId(messages[i]) == r
        && (forall j :: 0 <= j < i ==> !IsAssistantMessage(messages[j])))
  {
    match FirstIndex(messages, IsAssistantMessage)
    case None => None
    case Some(i) => MessageId(messages[i])
  }
}
