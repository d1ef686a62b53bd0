/** The Qwen proxy's `POST /v1/chat/completions` route: request validation,
    picking one of the comma-separated tokens, and, for a non-streamed
    answer with `include_references`, the list of distinct URLs found in the
    answer text with their query strings cleared. The token splitter, the
    random pick, the completion call, the URL regex and the WHATWG URL
    parser are parameters. */
module QwenRoute {
  import opened Wrappers
  import opened Json
  import Seqs

  // ---------------------------------------------------------------------------
  // `_.uniq`

  predicate Distinct(s: seq<string>) {
    forall i, j :: 0 <= i < j < |s| ==> s[i] != s[j]
  }

  /** Each value once, at the place of its first occurrence. */
  function Uniq(s: seq<string>): (r: seq<string>)
    ensures forall x :: x in r <==> x in s
    ensures Distinct(r)
    ensures |r| <= |s|
  {
    if |s| == 0 then []
    else
      var u := Uniq(s[..|s| - 1]);
      assert forall x :: x in s <==> x in s[..|s| - 1] || x == s[|s| - 1] by {
        assert s == s[..|s| - 1] + [s[|s| - 1]];
      }
      if s[|s| - 1] in u then u else u + [s[|s| - 1]]
  }

  /** Values already distinct are kept as they are. */
  lemma {:induction false} UniqOfDistinct(s: seq<string>)
    requires Distinct(s)
    ensures Uniq(s) == s
  {
    if |s| > 0 {
      var init := s[..|s| - 1];
      assert Distinct(init) by {
        forall i, j | 0 <= i < j < |init| ensures init[i] != init[j] {
          assert init[i] == s[i] && init[j] == s[j];
        }
      }
      UniqOfDistinct(init);
      assert s[|s| - 1] !in init;
      assert init + [s[|s| - 1]] == s;
    }
  }

  /** Deduplicating twice is deduplicating once. */
  lemma UniqIdempotent(s: seq<string>)
    ensures Uniq(Uniq(s)) == Uniq(s)
  {
    UniqOfDistinct(Uniq(s));
  }

  /** Later values never reorder earlier ones: the deduplicated prefix is a
      prefix of the deduplicated whole. */
  lemma {:induction false} UniqPrefix(a: seq<string>, b: seq<string>)
    ensures |Uniq(a)| <= |Uniq(a + b)| && Uniq(a + b)[..|Uniq(a)|] == Uniq(a)
    decreases |b|
  {
    if |b| == 0 {
      assert a + b == a;
    } else {
      var b0 := b[..|b| - 1];
      UniqPrefix(a, b0);
      assert (a + b)[..|a + b| - 1] == a + b0;
    }
  }

  // ---------------------------------------------------------------------------
  // The route

  /** What the completion controller is called with. */
  datatype Call = Call(model: Option<Json>, messages: Json, searchType: Option<Json>, token: Option<string>, convId: Option<Json>)

  /** A validation failure names the offending path; a streamed request
      returns the controller's stream for `call`; otherwise the JSON body. */
  datatype Outcome = Invalid(path: string) | Streamed(call: Call) | Completed(body: seq<Field>)

  /** The collaborators: the controller's `tokenSplit`, the index `_.sample`
      draws, the non-streamed completion, the URL regex's matches and
      `new URL(u)` with its search cleared (`None` when `u` does not
      parse). */
  datatype Env = Env(split: string -> seq<string>, draw: nat, complete: Call -> seq<Field>,
                     findUrls: string -> seq<string>, clearQuery: string -> Option<string>)

  /** `_.sample(tokens)`: one of them, `undefined` for none. */
  function Sample(tokens: seq<string>, draw: nat): (r: Option<string>)
    ensures r.None? <==> |tokens| == 0
    ensures r.Some? ==> r.value in tokens
  {
    if |tokens| == 0 then None else Some(tokens[draw % |tokens|])
  }

  /** The validations in order: `conversation_id` absent or a string,
      `messages` an array, the `authorization` header a string. */
  function Validate(body: seq<Field>, authorization: Option<string>): (r: Option<string>)
    ensures r.None? <==> (Lookup(body, "conversation_id").None? || Lookup(body, "conversation_id").value.JStr?)
                         && JsIsArray(Lookup(body, "messages")) && authorization.Some?
  {
    var convId := Lookup(body, "conversation_id");
    if convId.Some? && !convId.value.JStr? then Some("body.conversation_id")
    else if !JsIsArray(Lookup(body, "messages")) then Some("body.messages")
    else if authorization.None? then Some("headers.authorization")
    else None
  }

  predicate JsIsArray(o: Option<Json>) {
    o.Some? && o.value.JArr?
  }

  /** lodash `_.get` through a key: objects by key, nothing else has it. */
  function Prop(o: Option<Json>, key: string): Option<Json> {
    match o
    case Some(JObj(fields)) => Lookup(fields, key)
    case _ => None
  }

  /** lodash `_.get` through index `0`: an array's first element, a
      string's first character, an object's `"0"` key. */
  function First(o: Option<Json>): Option<Json> {
    match o
    case Some(JArr(items)) => if |items| > 0 then Some(items[0]) else None
    case Some(JStr(s)) => if |s| > 0 then Some(JStr([s[0]])) else None
    case Some(JObj(fields)) => Lookup(fields, "0")
    case _ => None
  }

  /** `_.get(result, "choices[0].message.content", "")`: the default only
      replaces a missing value, not a `null` one. */
  function Content(result: seq<Field>): Json {
    Prop(Prop(First(Lookup(result, "choices")), "message"), "content").GetOr(JStr(""))
  }

  /** A URL with its query string cleared, or unchanged when it does not
      parse. */
  function Normalize(u: string, clearQuery: string -> Option<string>): string {
    match clearQuery(u)
    case Some(v) => v
    case None => u
  }

  /** The URLs found in the answer text: none when the content is not a
      string. */
  function FoundUrls(result: seq<Field>, findUrls: string -> seq<string>): (r: seq<string>)
    ensures !Content(result).JStr? ==> r == []
  {
    if Content(result).JStr? then findUrls(Content(result).s) else []
  }

  /** The distinct normalized URLs, in the order they first appear. */
  function References(result: seq<Field>, env: Env): (r: seq<string>)
    ensures Distinct(r)
    ensures forall x :: x in r <==> exists k :: 0 <= k < |FoundUrls(result, env.findUrls)| && x == Normalize(FoundUrls(result, env.findUrls)[k], env.clearQuery)
  {
    var urls := FoundUrls(result, env.findUrls);
    var normalized := Seqs.Map(urls, u => Normalize(u, env.clearQuery));
    Uniq(normalized)
  }

  function ToJson(refs: seq<string>): (r: Json)
    ensures r.JArr? && |r.items| == |refs| && forall k :: 0 <= k < |refs| ==> r.items[k] == JStr(refs[k])
  {
    JArr(Seqs.Map(refs, (u: string) => JStr(u)))
  }

  /** `{ ...result, references }`: every key of the result keeps its place
      and value, except `references`, which is set (in place if present). */
  function WithReferences(result: seq<Field>, env: Env): (r: seq<Field>)
    ensures Lookup(r, "references") == Some(ToJson(References(result, env)))
    ensures forall key :: key != "references" ==> Lookup(r, key) == Lookup(result, key)
  {
    var r := Put(result, "references", ToJson(References(result, env)));
    forall key | key != "references" ensures Lookup(r, key) == Lookup(result, key) {
      LookupPutOther(result, "references", ToJson(References(result, env)), key);
    }
    r
  }

  /** The route. */
  function Completions(body: seq<Field>, authorization: Option<string>, env: Env): (r: Outcome)
    ensures r.Invalid? <==> Validate(body, authorization).Some?
    ensures r.Streamed? ==> r.call.token == Sample(env.split(authorization.value), env.draw)
  {
    match Validate(body, authorization)
    case Some(path) => Invalid(path)
    case None =>
      var token := Sample(env.split(authorization.value), env.draw);
      var call := Call(Lookup(body, "model"), Lookup(body, "messages").value, Lookup(body, "search_type"), token, Lookup(body, "conversation_id"));
      if JsTruthy(Lookup(body, "stream")) then Streamed(call)
      else
        var result := env.complete(call);
        if JsTruthy(Lookup(body, "include_references")) then Completed(WithReferences(result, env))
        else Completed(result)
  }

  /** The call a valid request makes. */
  function CallFor(body: seq<Field>, authorization: string, env: Env): Call
    requires JsIsArray(Lookup(body, "messages"))
  {
    Call(Lookup(body, "model"), Lookup(body, "messages").value, Lookup(body, "search_type"),
         Sample(env.split(authorization), env.draw), Lookup(body, "conversation_id"))
  }

  /** A valid request uses one of its tokens (none when the header splits
      into none), and without `include_references` the completion comes back
      untouched. */
  lemma PlainCompletion(body: seq<Field>, authorization: string, env: Env)
    requires Validate(body, Some(authorization)).None?
    requires !JsTruthy(Lookup(body, "stream")) && !JsTruthy(Lookup(body, "include_references"))
    ensures Completions(body, Some(authorization), env) == Completed(env.complete(CallFor(body, authorization, env)))
    ensures var t := CallFor(body, authorization, env).token;
            t.None? <==> |env.split(authorization)| == 0
    ensures var t := CallFor(body, authorization, env).token;
            t.Some? ==> t.value in env.split(authorization)
  {
  }

  /** With `include_references`, the reply is the completion plus a
      `references` list of distinct normalized URLs covering every URL found;
      nothing else in the reply changes. */
  lemma ReferencedCompletion(body: seq<Field>, authorization: string, env: Env)
    requires Validate(body, Some(authorization)).None?
    requires !JsTruthy(Lookup(body, "stream")) && JsTruthy(Lookup(body, "include_references"))
    ensures var result := env.complete(CallFor(body, authorization, env));
            var r := Completions(body, Some(authorization), env);
            var refs := References(result, env);
            r == Completed(WithReferences(result, env))
            && Lookup(r.body, "references") == Some(ToJson(refs))
            && Distinct(refs)
            && (forall u :: u in FoundUrls(result, env.findUrls) ==> Normalize(u, env.clearQuery) in refs)
            && (forall key :: key != "references" ==> Lookup(r.body, key) == Lookup(result, key))
  {
    var result := env.complete(CallFor(body, authorization, env));
    var urls := FoundUrls(result, env.findUrls);
    forall u | u in urls ensures Normalize(u, env.clearQuery) in References(result, env) {
      var k :| 0 <= k < |urls| && urls[k] == u;
    }
  }

  /** An answer whose content is not a string has no references. */
  lemma NonStringNoReferences(result: seq<Field>, env: Env)
    requires !Content(result).JStr?
    ensures References(result, env) == []
  {
  }
}
