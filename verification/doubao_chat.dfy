/** `chat_completion` of the Doubao web client: picking a session, building
    the completion request from it, and binding or evicting the session
    according to how the event stream ended. The HTTP exchange is an input
    (`Upstream`), the pool is passed in and the updated pool returned, and
    identifiers drawn from `uuid4` and the clock are not modelled. */
module DoubaoChat {
  import opened Wrappers
  import opened Text
  import opened Json
  import opened Seqs
  import opened DoubaoSse
  import opened SessionPool
  import Bytes

  // ---------------------------------------------------------------------------
  // The request

  const FpKey: string := "s_v_web_id="
  const CookieSeparator: string := "; "
  const CompletionBase: string := "https://www.doubao.com/chat/completion?"

  /** The device fingerprint taken from the cookie: in the first `; `-part
      that starts with `s_v_web_id=`, the text between its first and second
      `=`; empty when there is no such part. */
  function ExtractFp(cookie: string): (r: string)
    ensures (forall k :: 0 <= k < |Split(cookie, CookieSeparator)| ==> !StartsWith(Split(cookie, CookieSeparator)[k], FpKey)) ==> r == ""
  {
    if cookie == "" then ""
    else
      var parts := Split(cookie, CookieSeparator);
      match FirstIndex(parts, part => StartsWith(part, FpKey))
      case None => ""
      case Some(i) =>
        var fields := Split(parts[i], "=");
        SplitHasTwo(parts[i], "=", 10);
        fields[1]
  }

  /** A string holding the separator splits into at least two parts. */
  lemma SplitHasTwo(s: string, sep: string, at: nat)
    requires |sep| > 0 && OccursAt(s, sep, at)
    ensures |Split(s, sep)| >= 2
  {
    ContainsAt(s, sep, at);
  }

  /** A cookie opening with `s_v_web_id=v` yields `v` as the fingerprint. */
  lemma FpOfCookie(v: string, rest: string)
    requires NoneOf(v, '=') && NoneOf(v, ';')
    ensures ExtractFp(FpKey + v + CookieSeparator + rest) == v
  {
    var parts := Split(FpKey + v + CookieSeparator + rest, CookieSeparator);
    FpFirstPart(v, rest);
    assert FirstIndex(parts, part => StartsWith(part, FpKey)) == Some(0);
    FpField(v);
  }

  lemma FpFirstPart(v: string, rest: string)
    requires NoneOf(v, ';')
    ensures Split(FpKey + v + CookieSeparator + rest, CookieSeparator)[0] == FpKey + v
    ensures StartsWith(FpKey + v, FpKey)
  {
    var first := FpKey + v;
    NoneOfConcat(FpKey, v, ';');
    IndexOfAfter(first, CookieSeparator, rest);
    SplitCons(first, CookieSeparator, rest);
  }

  lemma FpField(v: string)
    requires NoneOf(v, '=')
    ensures |Split(FpKey + v, "=")| >= 2 && Split(FpKey + v, "=")[1] == v
  {
    var key := "s_v_web_id";
    assert FpKey + v == key + "=" + v;
    IndexOfAfter(key, "=", v);
    SplitCons(key, "=", v);
    SplitJoin([v], "=");
  }

  /** The fourteen query parameters, in the order sent. */
  function QueryParameters(s: Session): seq<string> {
    ["aid=497858", "device_id=" + s.deviceId, "device_platform=web", "language=zh", "pc_version=2.23.2",
     "pkg_type=release_version", "real_aid=497858", "region=CN", "samantha_web=1", "sys_region=CN",
     "tea_uuid=" + s.teaUuid, "use-olympus-account=1", "version_code=20800", "web_id=" + s.webId]
  }

  /** The completion URL: the endpoint, then the parameters joined by `&`,
      the web id last. */
  function CompletionUrl(s: Session): (r: string)
    ensures StartsWith(r, CompletionBase) && EndsWith(r, "&web_id=" + s.webId)
  {
    var ps := QueryParameters(s);
    JoinLast(ps, "&");
    assert Join(ps, "&") == Join(ps[..13], "&") + "&" + ("web_id=" + s.webId);
    AppendKeepsPrefix(CompletionBase, CompletionBase, Join(ps, "&"));
    assert CompletionBase + Join(ps, "&") == (CompletionBase + Join(ps[..13], "&")) + ("&web_id=" + s.webId);
    AppendKeepsPrefix(CompletionBase + Join(ps[..13], "&"), "", "&web_id=" + s.webId);
    CompletionBase + Join(ps, "&")
  }

  /** The parts of the request body that depend on the call. */
  datatype RequestBody = RequestBody(
    conversationId: string,
    lastSectionId: string,
    prompt: string,
    needDeepThink: int,
    useDeepThink: string,
    fp: string)

  datatype CompletionRequest = CompletionRequest(url: string, headers: seq<(string, string)>, body: RequestBody)

  const Origin: string := "https://www.doubao.com"
  const RefererBase: string := "https://www.doubao.com/chat/"
  const BrowserAgent: string := "Mozilla/5.0 (Windows NT 10.0; Win64; x64) AppleWebKit/537.36 (KHTML, like Gecko) Chrome/137.0.0.0 Safari/537.36 Edg/137.0.0.0"

  /** A conversation continues unless it is absent, empty or `"0"`. */
  function ConversationField(conversationId: Option<string>): (r: string)
    ensures r == "" <==> conversationId.None? || conversationId.value == "" || conversationId.value == "0"
    ensures r != "" ==> conversationId == Some(r)
  {
    match conversationId
    case Some(c) => if c != "" && c != "0" then c else ""
    case None => ""
  }

  function BuildRequest(s: Session, prompt: string, conversationId: Option<string>, sectionId: Option<string>, deepThink: bool): (r: CompletionRequest)
    ensures r.body.prompt == prompt && r.body.fp == ExtractFp(s.cookie)
    ensures r.body.conversationId == ConversationField(conversationId)
    ensures r.body.lastSectionId == (if sectionId.Some? then sectionId.value else "")
    ensures (r.body.needDeepThink == 1 <==> deepThink) && (r.body.needDeepThink == 0 <==> !deepThink)
    ensures r.body.useDeepThink == (if r.body.needDeepThink == 1 then "1" else "0")
    ensures ("cookie", s.cookie) in r.headers && ("x-flow-trace", s.xFlowTrace) in r.headers
    ensures ("referer", RefererBase + s.roomId) in r.headers
  {
    CompletionRequest(CompletionUrl(s), RequestHeaders(s), BodyFor(s.cookie, prompt, conversationId, sectionId, deepThink))
  }

  /** The request headers: fixed ones plus the session's cookie, room
      (in the referer) and flow trace. */
  function RequestHeaders(s: Session): (r: seq<(string, string)>)
    ensures ("cookie", s.cookie) in r && ("x-flow-trace", s.xFlowTrace) in r
    ensures ("referer", RefererBase + s.roomId) in r
  {
    var headers := [("content-type", "application/json"), ("accept", "text/event-stream"), ("agw-js-conv", "str"),
                    ("cookie", s.cookie), ("origin", Origin), ("referer", RefererBase + s.roomId),
                    ("user-agent", BrowserAgent), ("x-flow-trace", s.xFlowTrace)];
    assert headers[3] == ("cookie", s.cookie);
    assert headers[5] == ("referer", RefererBase + s.roomId);
    assert headers[7] == ("x-flow-trace", s.xFlowTrace);
    headers
  }

  function BodyFor(cookie: string, prompt: string, conversationId: Option<string>, sectionId: Option<string>, deepThink: bool): (r: RequestBody)
    ensures r.prompt == prompt && r.fp == ExtractFp(cookie)
    ensures r.conversationId == ConversationField(conversationId)
    ensures r.lastSectionId == (if sectionId.Some? then sectionId.value else "")
    ensures r.needDeepThink == (if deepThink then 1 else 0) && r.useDeepThink == (if deepThink then "1" else "0")
  {
    RequestBody(
      ConversationField(conversationId),
      match sectionId case Some(id) => (if id != "" then id else "") case None => "",
      prompt,
      if deepThink then 1 else 0,
      if deepThink then "1" else "0",
      ExtractFp(cookie))
  }

  // ---------------------------------------------------------------------------
  // The exchange

  /** What the POST produced: a status with its body text and the raw
      event-stream chunks, or a transport failure. */
  datatype Upstream = Responded(status: nat, text: string, chunks: seq<seq<Bytes.byte>>) | TransportFailed(message: string)

  /** The library calls the stream is read with: the per-chunk UTF-8 decoding
      with replacement characters, and `json.loads`. */
  datatype Codec = Codec(decode: seq<Bytes.byte> -> string, parse: string -> Option<Json>)

  /** Why a completion failed. `NoSession` is the 404 raised before anything
      is sent; every other failure surfaces wrapped in the generic
      "request failed" exception. */
  datatype ChatError = NoSession | RequestFailed(cause: Failure)

  datatype Failure =
    | UpstreamStatus(status: nat, detail: string)
    | Transport(message: string)
    | StreamFailed(error: SseError)
    | GuestLimitReached
    | Raised(exn: Exn)

  /** The outcome of a call and the pool after it. */
  datatype Outcome = Outcome(pool: Pool, reply: Result<SseReply, ChatError>)

  /** The session a call uses: the override when given, else the pool's. */
  function ChooseSession(pool: Pool, override: Option<Session>, conversationId: Option<string>, guest: bool, pick: nat): (r: Option<Session>)
    ensures override.Some? ==> r == override
    ensures override.None? ==> r == GetSession(pool, conversationId, guest, pick)
  {
    if override.Some? then override else GetSession(pool, conversationId, guest, pick)
  }

  /** The call with the eviction step as a parameter. */
  function Complete(
    pool: Pool, override: Option<Session>, conversationId: Option<string>, guest: bool, pick: nat,
    upstream: Upstream, codec: Codec, evict: (Pool, Session) -> Result<Pool, Exn>, report: string -> string): (r: Outcome)
    ensures r.reply.Ok? ==> upstream.Responded? && upstream.status == 200
    ensures r.reply == Err(NoSession) <==> ChooseSession(pool, override, conversationId, guest, pick).None?
    ensures r.reply.Ok? ==> r.pool.auth == pool.auth && r.pool.guest == pool.guest
    ensures r.reply.Err? && r.reply.error != RequestFailed(GuestLimitReached) ==> r.pool == pool
  {
    match ChooseSession(pool, override, conversationId, guest, pick)
    case None => Outcome(pool, Err(NoSession))
    case Some(s) =>
      match upstream
      case TransportFailed(message) => Outcome(pool, Err(RequestFailed(Transport(message))))
      case Responded(status, text, chunks) =>
        if status != 200 then Outcome(pool, Err(RequestFailed(UpstreamStatus(status, text))))
        else match HandleSse(chunks, codec.decode, codec.parse, report)
          case Err(Limited) =>
            (match evict(pool, s)
             case Ok(pool') => Outcome(pool', Err(RequestFailed(GuestLimitReached)))
             case Err(e) => Outcome(pool, Err(RequestFailed(Raised(e)))))
          case Err(e) => Outcome(pool, Err(RequestFailed(StreamFailed(e))))
          case Ok(reply) =>
            if !PyTruthy(reply.conversationId) then Outcome(pool, Ok(reply))
            else match SetSession(pool, reply.conversationId, s)
              case Ok(pool') => Outcome(pool', Ok(reply))
              case Err(e) => Outcome(pool, Err(RequestFailed(Raised(e))))
  }

  /** `chat_completion` as written: the guest limit tries to evict through
      the failing `del_session`, and a gateway error reports the whole
      buffer. */
  function ChatCompletionAsWritten(
    pool: Pool, override: Option<Session>, conversationId: Option<string>, guest: bool, pick: nat,
    upstream: Upstream, codec: Codec): (r: Outcome)
    ensures r.pool.auth == pool.auth && r.pool.guest == pool.guest
  {
    Complete(pool, override, conversationId, guest, pick, upstream, codec, DelSessionAsWritten, GatewayMessageAsWritten)
  }

  /** `chat_completion` with the intended eviction and the intended gateway
      error message. */
  function ChatCompletion(
    pool: Pool, override: Option<Session>, conversationId: Option<string>, guest: bool, pick: nat,
    upstream: Upstream, codec: Codec): (r: Outcome)
    ensures r.reply.Ok? ==> r.pool.auth == pool.auth && r.pool.guest == pool.guest
    ensures r.reply.Err? && r.reply.error != RequestFailed(GuestLimitReached) ==> r.pool == pool
  {
    Complete(pool, override, conversationId, guest, pick, upstream, codec, DelSession, IntendedReport(codec.parse))
  }

  /** A conversation the service names is bound to the session used, so the
      next call naming it gets the same session back. */
  lemma ConversationBound(
    pool: Pool, override: Option<Session>, conversationId: Option<string>, guest: bool, pick: nat,
    upstream: Upstream, codec: Codec, s: Session, cid: string, pick2: nat, guest2: bool)
    requires ChooseSession(pool, override, conversationId, guest, pick) == Some(s)
    requires var r := ChatCompletion(pool, override, conversationId, guest, pick, upstream, codec);
      r.reply.Ok? && r.reply.value.conversationId == JStr(cid) && cid != ""
    ensures var r := ChatCompletion(pool, override, conversationId, guest, pick, upstream, codec);
      GetSession(r.pool, Some(cid), guest2, pick2) == Some(s)
  {
  }

  /** Given an override the pool is not consulted: neither `guest` nor the
      random pick matters. */
  lemma OverrideBypassesPool(
    pool: Pool, s: Session, c1: Option<string>, g1: bool, p1: nat, c2: Option<string>, g2: bool, p2: nat,
    upstream: Upstream, codec: Codec)
    ensures ChatCompletion(pool, Some(s), c1, g1, p1, upstream, codec) == ChatCompletion(pool, Some(s), c2, g2, p2, upstream, codec)
  {
  }

  /** Without a session nothing is sent and the pool is unchanged. */
  lemma NoSessionNoRequest(pool: Pool, conversationId: Option<string>, guest: bool, pick: nat, upstream: Upstream, codec: Codec)
    requires GetSession(pool, conversationId, guest, pick).None?
    ensures ChatCompletion(pool, None, conversationId, guest, pick, upstream, codec) == Outcome(pool, Err(NoSession))
  {
  }

  /** The guest limit on a pooled session: the source leaves the session in
      the pool and reports the eviction's `AttributeError`; the intended
      behaviour removes it and reports the limit. */
  lemma LimitDiscrepancy(pool: Pool, guest: bool, pick: nat, chunks: seq<seq<Bytes.byte>>, codec: Codec)
    requires HandleSse(chunks, codec.decode, codec.parse, GatewayMessageAsWritten) == Err(Limited)
    requires |if guest then pool.guest else pool.auth| > 0
    ensures var asWritten := ChatCompletionAsWritten(pool, None, None, guest, pick, Responded(200, "", chunks), codec);
      asWritten == Outcome(pool, Err(RequestFailed(Raised(AttributeError))))
    ensures var s := GetSession(pool, None, guest, pick).value;
      var fixed := ChatCompletion(pool, None, None, guest, pick, Responded(200, "", chunks), codec);
      fixed.reply == Err(RequestFailed(GuestLimitReached))
      && multiset(fixed.pool.auth + fixed.pool.guest) == multiset(pool.auth + pool.guest) - multiset{s}
  {
    var s := GetSession(pool, None, guest, pick).value;
    assert s in pool.auth || s in pool.guest;
    HandleSseReport(chunks, codec.decode, codec.parse, GatewayMessageAsWritten, IntendedReport(codec.parse));
  }
}
