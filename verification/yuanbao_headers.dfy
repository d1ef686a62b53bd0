/** The headers sent with every Yuanbao request, built from the request's
    `hy_source`, `hy_user` and `agent_id` fields (with defaults) and the
    caller's token. */
module YuanbaoHeaders {
  import opened Wrappers
  import opened Text
  import opened Json

  const Origin: string := "https://yuanbao.tencent.com"
  const RefererBase: string := "https://yuanbao.tencent.com/chat/"
  const UserAgent: string := "Mozilla/5.0 (Windows NT 10.0; Win64; x64) AppleWebKit/537.36 (KHTML, like Gecko) Chrome/134.0.0.0 Safari/537.36"

  /** `request.get(key, default)` on the request dict. */
  function Get(request: seq<Field>, key: string, default: Json): (r: Json)
    ensures HasKey(request, key) ==> Some(r) == Lookup(request, key)
    ensures !HasKey(request, key) ==> r == default
  {
    Lookup(request, key).GetOr(default)
  }

  function CookieHeader(source: Json, user: Json, token: string): string {
    "hy_source=" + PyStr(source) + "; hy_user=" + PyStr(user) + "; hy_token=" + token
  }

  /** The header dict, in insertion order. `X-Agentid` is the `agent_id`
      value itself; the others are strings. */
  function GenerateHeaders(request: seq<Field>, token: string): (r: seq<Field>)
    ensures Keys(r) == ["Cookie", "Origin", "Referer", "X-Agentid", "User-Agent"]
    ensures UniqueKeys(r)
    ensures r[1].value == JStr(Origin) && r[4].value == JStr(UserAgent)
    ensures r[0].value == JStr(CookieHeader(Get(request, "hy_source", JStr("web")), Get(request, "hy_user", JStr("")), token))
    ensures r[3].value == Get(request, "agent_id", JStr("na"))
    ensures r[2].value == JStr(RefererBase + PyStr(r[3].value))
  {
    var source := Get(request, "hy_source", JStr("web"));
    var user := Get(request, "hy_user", JStr(""));
    var agent := Get(request, "agent_id", JStr("na"));
    var r := [Field("Cookie", JStr(CookieHeader(source, user, token))),
              Field("Origin", JStr(Origin)),
              Field("Referer", JStr(RefererBase + PyStr(agent))),
              Field("X-Agentid", agent),
              Field("User-Agent", JStr(UserAgent))];
    DistinctInitials(r);
    r
  }

  /** The cookie header ends with the token. */
  lemma CookieEndsWithToken(request: seq<Field>, token: string)
    ensures EndsWith(GenerateHeaders(request, token)[0].value.s, "; hy_token=" + token)
  {
    var source := Get(request, "hy_source", JStr("web"));
    var user := Get(request, "hy_user", JStr(""));
    var prefix := "hy_source=" + PyStr(source) + "; hy_user=" + PyStr(user);
    assert CookieHeader(source, user, token) == prefix + ("; hy_token=" + token);
    AppendEnds(prefix, "; hy_token=" + token);
  }

  /** Keys with distinct first letters are distinct. */
  lemma DistinctInitials(fields: seq<Field>)
    requires forall i :: 0 <= i < |fields| ==> |fields[i].key| > 0
    requires forall i, j :: 0 <= i < j < |fields| ==> fields[i].key[0] != fields[j].key[0]
    ensures UniqueKeys(fields)
  {
  }

  lemma AppendEnds(s: string, t: string)
    ensures EndsWith(s + t, t)
  {
    assert (s + t)[|s|..] == t;
  }

  /** A request with none of the fields gets the web source, an empty user
      and the agent `na`. */
  lemma DefaultHeaders(token: string)
    ensures GenerateHeaders([], token)[0].value == JStr("hy_source=web; hy_user=; hy_token=" + token)
    ensures GenerateHeaders([], token)[2].value == JStr(RefererBase + "na")
    ensures GenerateHeaders([], token)[3].value == JStr("na")
  {
    assert "hy_source=" + "web" + "; hy_user=" + "" + "; hy_token=" + token == "hy_source=web; hy_user=; hy_token=" + token;
  }

  /** A string agent id appears as the `X-Agentid` header and as the last
      path segment of the referer. */
  lemma AgentInReferer(request: seq<Field>, token: string, agent: string)
    requires Lookup(request, "agent_id") == Some(JStr(agent))
    ensures var r := GenerateHeaders(request, token);
            r[3].value == JStr(agent) && StartsWith(r[2].value.s, RefererBase) && r[2].value.s[|RefererBase|..] == agent
  {
    var referer := RefererBase + agent;
    assert referer[..|RefererBase|] == RefererBase;
    assert referer[|RefererBase|..] == agent;
  }
}
