/** Where the Baidu proxy finds its cookies: the `name=value; ...` parser,
    the start-up sources (environment, then `cookie.txt`), the per-request
    override carried in a Bearer header, and the token check that decides
    between 500, 401 and going ahead. `json.loads` is the parameter `parse`;
    the page fetch that yields a token and `lid` for a cookie set is the
    parameter `fetch`. */
module BaiduCookies {
  import opened Wrappers
  import opened Text
  import opened Json
  import Seqs

  type Parser = string -> Option<Json>

  // ---------------------------------------------------------------------------
  // parse_cookie_string

  predicate IsEquals(c: char) {
    c == '='
  }

  /** Stripping whitespace keeps every non-space character. */
  lemma StripKeeps(s: string, c: char)
    requires c in s && !PySpace(c)
    ensures c in PyStrip(s)
  {
    var k :| 0 <= k < |s| && s[k] == c;
    var l := LStrip(s, PySpace);
    assert k >= |s| - |l|;
    assert l[k - (|s| - |l|)] == s[k];
    var r := RStrip(l, PySpace);
    assert k - (|s| - |l|) < |r|;
    assert r[k - (|s| - |l|)] == s[k];
  }

  /** `t.split('=', 1)` of a text holding `=`. */
  function CutAtEquals(t: string): (r: (string, string))
    requires '=' in t
    ensures t == r.0 + "=" + r.1 && NoneOf(r.0, '=')
  {
    var i := Seqs.FirstIndex(t, IsEquals).value;
    assert t == t[..i] + "=" + t[i + 1..];
    (t[..i], t[i + 1..])
  }

  /** One `;`-separated item: the stripped item cut at its first `=`, or
      nothing when the item has no `=`. */
  function CookieItem(item: string): (r: Option<(string, string)>)
    ensures r.Some? <==> '=' in item
    ensures r.Some? ==> PyStrip(item) == r.value.0 + "=" + r.value.1 && NoneOf(r.value.0, '=')
  {
    if '=' !in item then None
    else
      StripKeeps(item, '=');
      Some(CutAtEquals(PyStrip(item)))
  }

  /** Setting a string value keeps keys unique and values strings. */
  lemma PutString(acc: seq<Field>, name: string, v: string)
    requires UniqueKeys(acc) && forall k :: 0 <= k < |acc| ==> acc[k].value.JStr?
    ensures var r := Put(acc, name, JStr(v));
            UniqueKeys(r) && forall k :: 0 <= k < |r| ==> r[k].value.JStr?
  {
    var r := Put(acc, name, JStr(v));
    if HasKey(acc, name) {
      forall k | 0 <= k < |r| ensures r[k].value.JStr? {
        if acc[k].key == name {
          LookupUnique(acc, k);
          LookupUnique(r, k);
        }
      }
    }
  }

  /** The dict built item by item; a later item overwrites an earlier value
      in place. */
  function ParseItems(items: seq<string>): (r: seq<Field>)
    ensures UniqueKeys(r)
    ensures forall k :: 0 <= k < |r| ==> r[k].value.JStr?
  {
    if |items| == 0 then []
    else
      var acc := ParseItems(items[..|items| - 1]);
      match CookieItem(items[|items| - 1])
      case None => acc
      case Some((name, value)) =>
        PutString(acc, name, value);
        Put(acc, name, JStr(value))
  }

  function ParseCookieString(s: string): (r: seq<Field>)
    ensures UniqueKeys(r)
  {
    ParseItems(Split(s, ";"))
  }

  /** The value the last item carrying `name` gives it. */
  function LastValue(items: seq<string>, name: string): Option<string> {
    if |items| == 0 then None
    else
      match CookieItem(items[|items| - 1])
      case Some((n, v)) => if n == name then Some(v) else LastValue(items[..|items| - 1], name)
      case None => LastValue(items[..|items| - 1], name)
  }

  /** For a repeated name the last value wins; an absent name is absent. */
  lemma {:induction false} LastValueWins(items: seq<string>, name: string)
    ensures LastValue(items, name).None? ==> Lookup(ParseItems(items), name).None?
    ensures LastValue(items, name).Some? ==> Lookup(ParseItems(items), name) == Some(JStr(LastValue(items, name).value))
    decreases |items|
  {
    if |items| > 0 {
      var init := items[..|items| - 1];
      LastValueWins(init, name);
      match CookieItem(items[|items| - 1])
      case None =>
      case Some((n, v)) =>
        if n != name {
          LookupPutOther(ParseItems(init), n, JStr(v), name);
        }
    }
  }

  /** Items are the `;`-separated pieces, so a cookie text of plain
      `name=value` pairs gives each pair. */
  lemma CookieLookup(s: string, name: string)
    ensures var v := LastValue(Split(s, ";"), name);
            (v.None? ==> Lookup(ParseCookieString(s), name).None?)
            && (v.Some? ==> Lookup(ParseCookieString(s), name) == Some(JStr(v.value)))
  {
    LastValueWins(Split(s, ";"), name);
  }

  // ---------------------------------------------------------------------------
  // load_cookies

  /** `json.loads`, falling back to the cookie-string parser. */
  function JsonOrCookies(text: string, parse: Parser): Json {
    match parse(text)
    case Some(j) => j
    case None => JObj(ParseCookieString(text))
  }

  /** The start-up cookies: a non-empty `BAIDU_COOKIE` first, then the
      stripped `cookie.txt` (JSON only when it starts with `{`), else `{}`.
      `file` is `None` when the file does not exist. */
  function LoadCookies(env: Option<string>, file: Option<string>, parse: Parser): (r: Json)
    ensures env.Some? && env.value != "" ==> r == JsonOrCookies(env.value, parse)
    ensures (env.None? || env.value == "") && file.None? ==> r == JObj([])
    ensures (env.None? || env.value == "") && file.Some? && !StartsWith(PyStrip(file.value), "{")
            ==> r == JObj(ParseCookieString(PyStrip(file.value)))
  {
    if env.Some? && env.value != "" then JsonOrCookies(env.value, parse)
    else if file.Some? then
      var content := PyStrip(file.value);
      if StartsWith(content, "{") then JsonOrCookies(content, parse) else JObj(ParseCookieString(content))
    else JObj([])
  }

  /** A set environment variable hides the file entirely. */
  lemma EnvShadowsFile(env: string, f1: Option<string>, f2: Option<string>, parse: Parser)
    requires env != ""
    ensures LoadCookies(Some(env), f1, parse) == LoadCookies(Some(env), f2, parse)
  {
  }

  // ---------------------------------------------------------------------------
  // The Authorization header

  const BearerWord: string := "Bearer "

  /** `auth_header.split("Bearer ")[1].strip()`: the text between the
      leading `Bearer ` and the next one, stripped. */
  function BearerToken(header: string): (r: string)
    requires StartsWith(header, BearerWord)
  {
    var parts := Split(header, BearerWord);
    SplitAtStart(header);
    PyStrip(parts[1])
  }

  lemma SplitAtStart(header: string)
    requires StartsWith(header, BearerWord)
    ensures |Split(header, BearerWord)| >= 2
    ensures Split(header, BearerWord)[1] == Split(header[|BearerWord|..], BearerWord)[0]
  {
    assert OccursAt(header, BearerWord, 0);
    IndexOfFirst(header, BearerWord, 0);
    assert header == "" + BearerWord + header[|BearerWord|..];
    SplitCons("", BearerWord, header[|BearerWord|..]);
  }

  /** With a single `Bearer `, the token is the whole rest of the header. */
  lemma BearerTokenIsRest(header: string)
    requires StartsWith(header, BearerWord) && !Contains(header[|BearerWord|..], BearerWord)
    ensures BearerToken(header) == PyStrip(header[|BearerWord|..])
  {
    SplitAtStart(header);
  }

  /** The cookies for one request: a Bearer value starting with `{` is
      JSON (a parse failure keeps the server's), one containing `BDUSS` or
      `=` is a cookie string, anything else keeps the server's. */
  function CookiesFor(header: Option<string>, server: Json, parse: Parser): (r: Json)
    ensures header.None? || !StartsWith(header.value, BearerWord) ==> r == server
  {
    if header.None? || !StartsWith(header.value, BearerWord) then server
    else
      var token := BearerToken(header.value);
      if token == "" then server
      else if StartsWith(token, "{") then
        match parse(token)
        case Some(j) => j
        case None => server
      else if Contains(token, "BDUSS") || '=' in token then JObj(ParseCookieString(token))
      else server
  }

  /** A plain cookie string in the header replaces the server's cookies. */
  lemma CookieStringOverrides(header: string, server: Json, parse: Parser)
    requires StartsWith(header, BearerWord)
    requires var t := BearerToken(header); t != "" && !StartsWith(t, "{") && '=' in t
    ensures CookiesFor(Some(header), server, parse) == JObj(ParseCookieString(BearerToken(header)))
  {
  }

  // ---------------------------------------------------------------------------
  // Token check

  /** The global state: start-up cookies and the token and `lid` fetched
      for them. */
  datatype Server = Server(cookies: Json, token: Option<Json>, lid: Option<Json>)

  /** What a page fetch yields for a cookie set: `(None, None)` on any
      failure. */
  type Fetch = Json -> (Option<Json>, Option<Json>)

  datatype Auth = Authorized(token: Json, lid: Option<Json>) | Refused(status: nat)

  predicate Truthy(o: Option<Json>) {
    o.Some? && PyTruthy(o.value)
  }

  /** Empty cookies give 500; cookies other than the server's are fetched
      afresh (401 if that fails, the server state untouched); the server's
      cookies reuse its token, refreshing it (and storing the refresh, even a
      failed one) when it is missing. */
  function Authorize(cookies: Json, server: Server, fetch: Fetch): (r: (Auth, Server))
    ensures r.0 == Refused(500) <==> !PyTruthy(cookies)
    ensures r.0.Refused? ==> r.0.status == 500 || r.0.status == 401
    ensures r.0.Authorized? ==> PyTruthy(r.0.token)
    ensures !PyEq(cookies, server.cookies) ==> r.1 == server
    ensures PyTruthy(cookies) && PyEq(cookies, server.cookies) && Truthy(server.token) ==> r == (Authorized(server.token.value, server.lid), server)
    ensures PyTruthy(cookies) && !PyEq(cookies, server.cookies) ==>
      r.0 == (if Truthy(fetch(cookies).0) then Authorized(fetch(cookies).0.value, fetch(cookies).1) else Refused(401))
    ensures PyTruthy(cookies) && PyEq(cookies, server.cookies) && !Truthy(server.token) ==>
      r.1 == server.(token := fetch(server.cookies).0, lid := fetch(server.cookies).1)
      && r.0 == (if Truthy(fetch(server.cookies).0) then Authorized(fetch(server.cookies).0.value, fetch(server.cookies).1) else Refused(401))
  {
    if !PyTruthy(cookies) then (Refused(500), server)
    else if !PyEq(cookies, server.cookies) then
      var (token, lid) := fetch(cookies);
      if Truthy(token) then (Authorized(token.value, lid), server) else (Refused(401), server)
    else if Truthy(server.token) then (Authorized(server.token.value, server.lid), server)
    else
      var (token, lid) := fetch(server.cookies);
      var next := server.(token := token, lid := lid);
      if Truthy(token) then (Authorized(token.value, lid), next) else (Refused(401), next)
  }

  /** Cookies other than the server's are fetched afresh whatever token the
      server holds, and the server's state is left as it was. */
  lemma CustomIgnoresCache(cookies: Json, server: Server, token: Option<Json>, lid: Option<Json>, fetch: Fetch)
    requires PyTruthy(cookies) && !PyEq(cookies, server.cookies)
    ensures var cached := server.(token := token, lid := lid);
      Authorize(cookies, cached, fetch) == (Authorize(cookies, server, fetch).0, cached)
  {
  }

  /** Once a refresh succeeds, the next request with the server's cookies
      reuses it without fetching. */
  lemma RefreshIsCached(cookies: Json, server: Server, fetch: Fetch, other: Fetch)
    requires PyTruthy(cookies) && PyEq(cookies, server.cookies)
    requires Authorize(cookies, server, fetch).0.Authorized?
    ensures var next := Authorize(cookies, server, fetch).1;
            Authorize(cookies, next, other) == Authorize(cookies, server, fetch)
  {
  }
}
