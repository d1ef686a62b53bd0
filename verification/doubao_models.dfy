/** The Doubao API's request and response models: which fields each one
    requires, which it fills with a default, and what validating a JSON
    object against it yields. Validation is strict on JSON types (a `str`
    field takes a JSON string, an `int` field a JSON number, a `bool` field
    a JSON boolean); unknown keys are ignored; every offending field is
    reported, in declaration order. The `identifier` default of the image
    and file responses is one value computed when the class is defined; it
    is the parameter `classId`. */
module DoubaoModels {
  import opened Wrappers
  import opened Json

  // ---------------------------------------------------------------------------
  // Field readers

  /** A JSON value read as a field's type, `None` when it does not fit. */
  type Reader<T> = Json -> Option<T>

  function AsStr(j: Json): Option<string> {
    if j.JStr? then Some(j.s) else None
  }

  function AsBool(j: Json): Option<bool> {
    if j.JBool? then Some(j.b) else None
  }

  function AsInt(j: Json): Option<int> {
    if j.JNum? then Some(j.n) else None
  }

  function AsDict(j: Json): Option<seq<Field>> {
    if j.JObj? then Some(j.fields) else None
  }

  /** `list[dict]`. */
  function AsDictList(j: Json): (r: Option<seq<seq<Field>>>)
    ensures r.Some? <==> j.JArr? && forall k :: 0 <= k < |j.items| ==> j.items[k].JObj?
  {
    if j.JArr? && forall k :: 0 <= k < |j.items| ==> j.items[k].JObj? then
      Some(seq(|j.items|, k requires 0 <= k < |j.items| => j.items[k].fields))
    else None
  }

  /** A field without a default: absent or ill-typed is an error. */
  function Required<T>(fields: seq<Field>, key: string, read: Reader<T>): (r: Option<T>)
    ensures r.Some? <==> Lookup(fields, key).Some? && read(Lookup(fields, key).value).Some?
  {
    match Lookup(fields, key)
    case None => None
    case Some(j) => read(j)
  }

  /** A field with a non-`None` default: absent takes the default, present
      must fit. */
  function Defaulted<T>(fields: seq<Field>, key: string, read: Reader<T>, default: T): (r: Option<T>)
    ensures Lookup(fields, key).None? ==> r == Some(default)
  {
    match Lookup(fields, key)
    case None => Some(default)
    case Some(j) => read(j)
  }

  /** An `Optional[...] = None` field: absent or `null` is `None`, anything
      else must fit. The outer `None` is a validation error. */
  function Nullable<T>(fields: seq<Field>, key: string, read: Reader<T>): (r: Option<Option<T>>)
    ensures Lookup(fields, key).None? || Lookup(fields, key) == Some(JNull) ==> r == Some(None)
  {
    match Lookup(fields, key)
    case None => Some(None)
    case Some(JNull) => Some(None)
    case Some(j) =>
      match read(j)
      case None => None
      case Some(v) => Some(Some(v))
  }

  /** `[key]` when the field failed. */
  function Failed<T>(key: string, v: Option<T>): (r: seq<string>)
    ensures r == [] <==> v.Some?
  {
    if v.None? then [key] else []
  }

  // ---------------------------------------------------------------------------
  // Requests

  datatype CompletionRequest = CompletionRequest(
    prompt: string, guest: bool, attachments: seq<seq<Field>>,
    conversationId: Option<string>, sectionId: Option<string>,
    useDeepThink: bool, useAutoCot: bool)

  /** Each declared field of a completion request as read from the object;
      a field's `None` is a validation error. */
  datatype CompletionFields = CompletionFields(
    prompt: Option<string>, guest: Option<bool>, attachments: Option<seq<seq<Field>>>,
    conversationId: Option<Option<string>>, sectionId: Option<Option<string>>,
    useDeepThink: Option<bool>, useAutoCot: Option<bool>)

  /** `prompt` and `guest` are required, `attachments` defaults to an empty
      list, the ids to `None`, the two switches to `False`. */
  function ReadCompletionRequest(fields: seq<Field>): (r: CompletionFields)
    ensures Lookup(fields, "attachments").None? ==> r.attachments == Some([])
    ensures Lookup(fields, "conversation_id").None? ==> r.conversationId == Some(None)
    ensures Lookup(fields, "section_id").None? ==> r.sectionId == Some(None)
    ensures Lookup(fields, "use_deep_think").None? ==> r.useDeepThink == Some(false)
    ensures Lookup(fields, "use_auto_cot").None? ==> r.useAutoCot == Some(false)
    ensures r.prompt.None? <==> Lookup(fields, "prompt").None? || !Lookup(fields, "prompt").value.JStr?
    ensures r.guest.None? <==> Lookup(fields, "guest").None? || !Lookup(fields, "guest").value.JBool?
  {
    CompletionFields(Required(fields, "prompt", AsStr), Required(fields, "guest", AsBool),
                     Defaulted(fields, "attachments", AsDictList, []),
                     Nullable(fields, "conversation_id", AsStr), Nullable(fields, "section_id", AsStr),
                     Defaulted(fields, "use_deep_think", AsBool, false), Defaulted(fields, "use_auto_cot", AsBool, false))
  }

  /** The request when every field validated, else the failing fields in
      declaration order. */
  function BuildCompletionRequest(f: CompletionFields): (r: Result<CompletionRequest, seq<string>>)
    ensures r.Err? ==> |r.error| > 0
    ensures f.prompt.None? ==> r.Err? && "prompt" in r.error
    ensures f.guest.None? ==> r.Err? && "guest" in r.error
  {
    var errors := Failed("prompt", f.prompt) + Failed("guest", f.guest) + Failed("attachments", f.attachments)
                  + Failed("conversation_id", f.conversationId) + Failed("section_id", f.sectionId)
                  + Failed("use_deep_think", f.useDeepThink) + Failed("use_auto_cot", f.useAutoCot);
    if errors != [] then Err(errors)
    else Ok(CompletionRequest(f.prompt.value, f.guest.value, f.attachments.value, f.conversationId.value,
                              f.sectionId.value, f.useDeepThink.value, f.useAutoCot.value))
  }

  /** `CompletionRequest(**fields)`. */
  function ParseCompletionRequest(fields: seq<Field>): (r: Result<CompletionRequest, seq<string>>)
    ensures r.Ok? ==> Lookup(fields, "prompt") == Some(JStr(r.value.prompt))
                      && Lookup(fields, "guest") == Some(JBool(r.value.guest))
    ensures r.Ok? && Lookup(fields, "attachments").None? ==> r.value.attachments == []
    ensures r.Ok? && Lookup(fields, "conversation_id").None? ==> r.value.conversationId.None?
    ensures r.Ok? && Lookup(fields, "section_id").None? ==> r.value.sectionId.None?
    ensures r.Ok? && Lookup(fields, "use_deep_think").None? ==> !r.value.useDeepThink
    ensures r.Ok? && Lookup(fields, "use_auto_cot").None? ==> !r.value.useAutoCot
    ensures !(Lookup(fields, "prompt").Some? && Lookup(fields, "prompt").value.JStr?) ==> r.Err? && "prompt" in r.error
    ensures !(Lookup(fields, "guest").Some? && Lookup(fields, "guest").value.JBool?) ==> r.Err? && "guest" in r.error
  {
    BuildCompletionRequest(ReadCompletionRequest(fields))
  }

  /** A request with only `prompt` and `guest` gets every default. */
  lemma CompletionRequestDefaults(prompt: string, guest: bool)
    ensures ParseCompletionRequest([Field("prompt", JStr(prompt)), Field("guest", JBool(guest))])
            == Ok(CompletionRequest(prompt, guest, [], None, None, false, false))
  {
    var fields := [Field("prompt", JStr(prompt)), Field("guest", JBool(guest))];
    NotAmong(fields, "attachments");
    NotAmong(fields, "conversation_id");
    NotAmong(fields, "section_id");
    NotAmong(fields, "use_deep_think");
    NotAmong(fields, "use_auto_cot");
    assert fields[0].key == "prompt" && fields[1].key != "prompt";
    LookupFirst(fields, 0);
    LookupFirst(fields, 1);
  }

  /** A key is absent when it matches none of the (two) keys by length. */
  lemma NotAmong(fields: seq<Field>, key: string)
    requires forall k :: 0 <= k < |fields| ==> |fields[k].key| != |key|
    ensures Lookup(fields, key).None?
  {
  }

  /** Without `prompt` or `guest` the request is rejected, naming them. */
  lemma CompletionRequestNeedsPromptAndGuest(fields: seq<Field>)
    requires !HasKey(fields, "prompt") || !HasKey(fields, "guest")
    ensures ParseCompletionRequest(fields).Err?
    ensures !HasKey(fields, "prompt") ==> "prompt" in ParseCompletionRequest(fields).error
    ensures !HasKey(fields, "guest") ==> "guest" in ParseCompletionRequest(fields).error
  {
  }

  const RequestKeys: seq<string> := ["prompt", "guest", "attachments", "conversation_id", "section_id", "use_deep_think", "use_auto_cot"]

  /** Two objects that hold the same value at a key read the same there. */
  lemma SameAt<T>(a: seq<Field>, b: seq<Field>, key: string, read: Reader<T>, default: T)
    requires Lookup(a, key) == Lookup(b, key)
    ensures Required(a, key, read) == Required(b, key, read)
    ensures Defaulted(a, key, read, default) == Defaulted(b, key, read, default)
    ensures Nullable(a, key, read) == Nullable(b, key, read)
  {
  }

  /** Appending a key the model does not declare changes no declared
      field's value. */
  lemma AppendUndeclared<T>(fields: seq<Field>, extra: Field, key: string, read: Reader<T>, default: T)
    requires extra.key != key
    ensures Required(fields + [extra], key, read) == Required(fields, key, read)
    ensures Defaulted(fields + [extra], key, read, default) == Defaulted(fields, key, read, default)
    ensures Nullable(fields + [extra], key, read) == Nullable(fields, key, read)
  {
    LookupAppend(fields, extra, key);
    SameAt(fields + [extra], fields, key, read, default);
  }

  /** Keys the model does not declare are ignored. */
  lemma ExtraKeysIgnored(fields: seq<Field>, extra: Field)
    requires extra.key !in RequestKeys
    ensures ParseCompletionRequest(fields + [extra]) == ParseCompletionRequest(fields)
  {
    assert RequestKeys[0] == "prompt" && RequestKeys[1] == "guest" && RequestKeys[2] == "attachments";
    assert RequestKeys[3] == "conversation_id" && RequestKeys[4] == "section_id";
    assert RequestKeys[5] == "use_deep_think" && RequestKeys[6] == "use_auto_cot";
    AppendUndeclared(fields, extra, "prompt", AsStr, "");
    AppendUndeclared(fields, extra, "guest", AsBool, false);
    AppendUndeclared(fields, extra, "attachments", AsDictList, []);
    AppendUndeclared(fields, extra, "conversation_id", AsStr, "");
    AppendUndeclared(fields, extra, "section_id", AsStr, "");
    AppendUndeclared(fields, extra, "use_deep_think", AsBool, false);
    AppendUndeclared(fields, extra, "use_auto_cot", AsBool, false);
  }

  /** `model_dump()` of a request. */
  function DumpCompletionRequest(q: CompletionRequest): (r: seq<Field>)
    ensures |r| == 7
  {
    [Field("prompt", JStr(q.prompt)), Field("guest", JBool(q.guest)),
     Field("attachments", JArr(seq(|q.attachments|, k requires 0 <= k < |q.attachments| => JObj(q.attachments[k])))),
     Field("conversation_id", if q.conversationId.Some? then JStr(q.conversationId.value) else JNull),
     Field("section_id", if q.sectionId.Some? then JStr(q.sectionId.value) else JNull),
     Field("use_deep_think", JBool(q.useDeepThink)), Field("use_auto_cot", JBool(q.useAutoCot))]
  }

  /** The dump holds each field once, in declaration order. */
  lemma DumpKeys(q: CompletionRequest)
    ensures var d := DumpCompletionRequest(q);
            UniqueKeys(d) && seq(7, k requires 0 <= k < 7 => d[k].key) == RequestKeys
  {
    var d := DumpCompletionRequest(q);
    assert |d[0].key| == 6 && |d[1].key| == 5 && |d[2].key| == 11 && |d[3].key| == 15;
    assert |d[4].key| == 10 && |d[5].key| == 14 && |d[6].key| == 12;
    KeysByLength(d);
  }

  /** Each declared key of the dump holds the value stored at its position. */
  lemma DumpLookup(q: CompletionRequest, k: nat)
    requires k < 7
    ensures Lookup(DumpCompletionRequest(q), RequestKeys[k]) == Some(DumpCompletionRequest(q)[k].value)
  {
    DumpKeys(q);
    var d := DumpCompletionRequest(q);
    assert d[k].key == seq(7, k requires 0 <= k < 7 => d[k].key)[k];
    LookupUnique(d, k);
  }

  lemma DumpAttachments(q: CompletionRequest)
    ensures AsDictList(DumpCompletionRequest(q)[2].value) == Some(q.attachments)
  {
    var items := DumpCompletionRequest(q)[2].value.items;
    assert forall k :: 0 <= k < |items| ==> items[k] == JObj(q.attachments[k]);
    assert seq(|items|, k requires 0 <= k < |items| => items[k].fields) == q.attachments;
  }

  /** `None` is dumped as `null`, which reads back as `None`. */
  lemma NullableString(fields: seq<Field>, key: string, v: Option<string>)
    requires Lookup(fields, key) == Some(if v.Some? then JStr(v.value) else JNull)
    ensures Nullable(fields, key, AsStr) == Some(v)
  {
  }

  lemma DumpPromptGuest(q: CompletionRequest)
    ensures Required(DumpCompletionRequest(q), "prompt", AsStr) == Some(q.prompt)
    ensures Required(DumpCompletionRequest(q), "guest", AsBool) == Some(q.guest)
  {
    DumpLookup(q, 0);
    DumpLookup(q, 1);
  }

  lemma DumpIds(q: CompletionRequest)
    ensures Nullable(DumpCompletionRequest(q), "conversation_id", AsStr) == Some(q.conversationId)
    ensures Nullable(DumpCompletionRequest(q), "section_id", AsStr) == Some(q.sectionId)
  {
    DumpLookup(q, 3);
    NullableString(DumpCompletionRequest(q), "conversation_id", q.conversationId);
    DumpLookup(q, 4);
    NullableString(DumpCompletionRequest(q), "section_id", q.sectionId);
  }

  lemma DumpRest(q: CompletionRequest)
    ensures Defaulted(DumpCompletionRequest(q), "attachments", AsDictList, []) == Some(q.attachments)
    ensures Defaulted(DumpCompletionRequest(q), "use_deep_think", AsBool, false) == Some(q.useDeepThink)
    ensures Defaulted(DumpCompletionRequest(q), "use_auto_cot", AsBool, false) == Some(q.useAutoCot)
  {
    DumpLookup(q, 2);
    DumpAttachments(q);
    DumpLookup(q, 5);
    DumpLookup(q, 6);
  }

  /** Validating a dumped request gives the request back. */
  lemma CompletionRequestRoundTrip(q: CompletionRequest)
    ensures ParseCompletionRequest(DumpCompletionRequest(q)) == Ok(q)
  {
    DumpPromptGuest(q);
    DumpIds(q);
    DumpRest(q);
  }

  datatype AttachmentRequest = AttachmentRequest(
    key: string, name: string, kind: string, fileReviewState: int, fileParseState: int,
    identifier: string, option: Option<seq<Field>>, md5: Option<string>, size: Option<int>)

  /** `AttachmentRequest(**fields)` (and `UploadResponse`, which declares the
      same fields): six required fields; `option`, `md5` and `size` default
      to `None`. */
  function ParseAttachment(fields: seq<Field>): (r: Result<AttachmentRequest, seq<string>>)
    ensures r.Err? ==> |r.error| > 0
    ensures r.Ok? ==> Lookup(fields, "option").None? ==> r.value.option.None?
    ensures r.Ok? ==> Lookup(fields, "md5").None? ==> r.value.md5.None?
    ensures r.Ok? ==> Lookup(fields, "size").None? ==> r.value.size.None?
    ensures r.Ok? <==> Required(fields, "key", AsStr).Some? && Required(fields, "name", AsStr).Some?
                       && Required(fields, "type", AsStr).Some? && Required(fields, "file_review_state", AsInt).Some?
                       && Required(fields, "file_parse_state", AsInt).Some? && Required(fields, "identifier", AsStr).Some?
                       && Nullable(fields, "option", AsDict).Some? && Nullable(fields, "md5", AsStr).Some?
                       && Nullable(fields, "size", AsInt).Some?
  {
    var key := Required(fields, "key", AsStr);
    var name := Required(fields, "name", AsStr);
    var kind := Required(fields, "type", AsStr);
    var review := Required(fields, "file_review_state", AsInt);
    var parse := Required(fields, "file_parse_state", AsInt);
    var identifier := Required(fields, "identifier", AsStr);
    var option := Nullable(fields, "option", AsDict);
    var md5 := Nullable(fields, "md5", AsStr);
    var size := Nullable(fields, "size", AsInt);
    var errors := Failed("key", key) + Failed("name", name) + Failed("type", kind)
                  + Failed("file_review_state", review) + Failed("file_parse_state", parse)
                  + Failed("identifier", identifier) + Failed("option", option)
                  + Failed("md5", md5) + Failed("size", size);
    if errors != [] then Err(errors)
    else Ok(AttachmentRequest(key.value, name.value, kind.value, review.value, parse.value, identifier.value,
                              option.value, md5.value, size.value))
  }

  datatype UploadRequest = UploadRequest(fileType: int, fileName: string, fileBytes: string)

  /** `UploadRequest(**fields)`: all three fields are required. */
  function ParseUpload(fields: seq<Field>): (r: Result<UploadRequest, seq<string>>)
    ensures r.Ok? <==> Required(fields, "file_type", AsInt).Some? && Required(fields, "file_name", AsStr).Some?
                       && Required(fields, "file_bytes", AsStr).Some?
    ensures r.Ok? ==> Lookup(fields, "file_type") == Some(JNum(r.value.fileType))
                      && Lookup(fields, "file_name") == Some(JStr(r.value.fileName))
  {
    var t := Required(fields, "file_type", AsInt);
    var n := Required(fields, "file_name", AsStr);
    var b := Required(fields, "file_bytes", AsStr);
    var errors := Failed("file_type", t) + Failed("file_name", n) + Failed("file_bytes", b);
    if errors != [] then Err(errors) else Ok(UploadRequest(t.value, n.value, b.value))
  }

  // ---------------------------------------------------------------------------
  // Responses

  /** The completion response; its message-id field is spelled
      `messageg_id`. */
  datatype CompletionResponse = CompletionResponse(text: string, imgUrls: seq<string>, conversationId: string, messagegId: string, sectionId: string)

  function AsStrList(j: Json): (r: Option<seq<string>>)
    ensures r.Some? ==> j.JArr? && |r.value| == |j.items| && forall k :: 0 <= k < |j.items| ==> j.items[k] == JStr(r.value[k])
  {
    if j.JArr? && forall k :: 0 <= k < |j.items| ==> j.items[k].JStr? then
      Some(seq(|j.items|, k requires 0 <= k < |j.items| => j.items[k].s))
    else None
  }

  /** All five fields are required. */
  function ParseCompletionResponse(fields: seq<Field>): (r: Result<CompletionResponse, seq<string>>)
    ensures r.Ok? <==> Required(fields, "text", AsStr).Some? && Required(fields, "img_urls", AsStrList).Some?
                       && Required(fields, "conversation_id", AsStr).Some? && Required(fields, "messageg_id", AsStr).Some?
                       && Required(fields, "section_id", AsStr).Some?
    ensures Lookup(fields, "messageg_id").None? ==> r.Err? && "messageg_id" in r.error
  {
    var text := Required(fields, "text", AsStr);
    var urls := Required(fields, "img_urls", AsStrList);
    var conv := Required(fields, "conversation_id", AsStr);
    var msg := Required(fields, "messageg_id", AsStr);
    var sec := Required(fields, "section_id", AsStr);
    var errors := Failed("text", text) + Failed("img_urls", urls) + Failed("conversation_id", conv)
                  + Failed("messageg_id", msg) + Failed("section_id", sec);
    if errors != [] then Err(errors) else Ok(CompletionResponse(text.value, urls.value, conv.value, msg.value, sec.value))
  }

  /** A response that spells the field `message_id` is rejected. */
  lemma ConventionalSpellingRejected(text: string, conv: string, id: string, sec: string)
    ensures var fields := [Field("text", JStr(text)), Field("img_urls", JArr([])), Field("conversation_id", JStr(conv)),
                           Field("message_id", JStr(id)), Field("section_id", JStr(sec))];
            ParseCompletionResponse(fields).Err?
  {
    var fields := [Field("text", JStr(text)), Field("img_urls", JArr([])), Field("conversation_id", JStr(conv)),
                   Field("message_id", JStr(id)), Field("section_id", JStr(sec))];
    assert |fields[0].key| == 4 && |fields[1].key| == 8 && |fields[2].key| == 15 && |fields[3].key| == 10 && |fields[4].key| == 10;
    assert fields[3].key[8] != "messageg_id"[8] && fields[4].key[0] != "messageg_id"[0];
    assert Lookup(fields, "messageg_id").None?;
  }

  /** The file metadata of an uploaded image or file. */
  datatype FileInfo = FileInfo(key: string, name: string, kind: string, fileReviewState: int, fileParseState: int, identifier: string)

  datatype ImageResponse = ImageResponse(info: FileInfo, option: seq<Field>)
  datatype FileResponse = FileResponse(info: FileInfo, md5: string, size: int)

  /** `ImageResponse(key=…, name=…, option=…)`: type `vlm_image`, review and
      parse state 3, and the class-wide identifier. */
  function NewImageResponse(key: string, name: string, option: seq<Field>, classId: string): (r: ImageResponse)
    ensures r.info.kind == "vlm_image" && r.info.fileReviewState == 3 && r.info.fileParseState == 3
    ensures r.info.identifier == classId && r.info.key == key && r.info.name == name && r.option == option
  {
    ImageResponse(FileInfo(key, name, "vlm_image", 3, 3, classId), option)
  }

  /** `FileResponse(key=…, name=…, md5=…, size=…)`: type `file`, review
      state 1, parse state 3, and the class-wide identifier. */
  function NewFileResponse(key: string, name: string, md5: string, size: int, classId: string): (r: FileResponse)
    ensures r.info.kind == "file" && r.info.fileReviewState == 1 && r.info.fileParseState == 3
    ensures r.info.identifier == classId && r.info.key == key && r.info.name == name
  {
    FileResponse(FileInfo(key, name, "file", 1, 3, classId), md5, size)
  }

  /** The identifier default is evaluated once: two images built without an
      identifier carry the same one, whatever else differs. */
  lemma SharedIdentifier(k1: string, n1: string, o1: seq<Field>, k2: string, n2: string, o2: seq<Field>, classId: string)
    ensures NewImageResponse(k1, n1, o1, classId).info.identifier == NewImageResponse(k2, n2, o2, classId).info.identifier
  {
  }

  /** Images and files are told apart by type and review state. */
  lemma ImageAndFileDiffer(k: string, n: string, o: seq<Field>, m: string, s: int, id: string)
    ensures NewImageResponse(k, n, o, id).info != NewFileResponse(k, n, m, s, id).info
  {
  }

  datatype DeleteResponse = DeleteResponse(ok: bool, msg: string)

  /** Both fields are required. */
  function ParseDelete(fields: seq<Field>): (r: Result<DeleteResponse, seq<string>>)
    ensures r.Ok? <==> Required(fields, "ok", AsBool).Some? && Required(fields, "msg", AsStr).Some?
  {
    var ok := Required(fields, "ok", AsBool);
    var msg := Required(fields, "msg", AsStr);
    var errors := Failed("ok", ok) + Failed("msg", msg);
    if errors != [] then Err(errors) else Ok(DeleteResponse(ok.value, msg.value))
  }
}
