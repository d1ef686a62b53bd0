/** The cookie-string algebra of the legacy Doubao client: a cookie is read
    as its `;`-separated parts, each trimmed, empty ones dropped; a part's key
    is the text before its first `=`. Values are read and replaced by key,
    `msToken` is added when missing, and the cookie sent for a token is
    chosen from the configured sessions, a template cookie, or a cookie
    synthesised from the session id (the synthesis hashes and draws random
    text, so it is the parameter `synth`). */
module DoubaoCookie {
  import opened Wrappers
  import opened Text

  // ---------------------------------------------------------------------------
  // Parts and keys

  /** The parts that survive `.map(trim).filter(Boolean)`. */
  function TrimParts(raw: seq<string>): (r: seq<string>)
    decreases |raw|
    ensures |r| <= |raw|
  {
    if |raw| == 0 then []
    else (if JsTrim(raw[0]) == "" then [] else [JsTrim(raw[0])]) + TrimParts(raw[1..])
  }

  function CookieParts(cookie: string): seq<string> {
    TrimParts(Split(cookie, ";"))
  }

  /** The key of a part: the text before its first `=` (all of it when
      there is none). */
  function KeyOf(part: string): (r: string)
    ensures r <= part
  {
    TakeUntil(part, '=')
  }

  /** The value of a part: the text after its first `=`, or nothing. */
  function ValueOf(part: string): string {
    var key := KeyOf(part);
    if |key| < |part| then part[|key| + 1..] else ""
  }

  /** `const [key, ...rest] = part.split("=")` binds `key` to `KeyOf(part)`,
      and `rest.join("=")` is `ValueOf(part)`. */
  lemma KeyValueOfSplit(part: string)
    ensures KeyOf(part) == Split(part, "=")[0]
    ensures ValueOf(part) == Join(Split(part, "=")[1..], "=")
  {
    var key := KeyOf(part);
    if |key| == |part| {
      assert key == part;
      SplitJoin([part], "=");
    } else {
      var rest := part[|key| + 1..];
      assert part == key + "=" + rest;
      IndexOfAfter(key, "=", rest);
      SplitCons(key, "=", rest);
      assert Split(part, "=")[1..] == Split(rest, "=");
    }
  }

  lemma {:induction false} TakeUntilAfter(a: string, c: char, b: string)
    requires NoneOf(a, c)
    ensures TakeUntil(a + [c] + b, c) == a
    decreases |a|
  {
    if |a| > 0 {
      assert (a + [c] + b)[1..] == a[1..] + [c] + b;
      TakeUntilAfter(a[1..], c, b);
    }
  }

  /** `getCookieKeys`: the trimmed, non-empty keys of the parts. */
  function CookieKeys(cookie: string): (r: set<string>)
    ensures forall k :: k in r ==> k != ""
  {
    PartKeys(CookieParts(cookie))
  }

  /** The trimmed, non-empty keys of a list of parts. */
  function PartKeys(parts: seq<string>): (r: set<string>)
    ensures forall k :: k in r ==> k != ""
  {
    set i | 0 <= i < |parts| && JsTrim(KeyOf(parts[i])) != "" :: JsTrim(KeyOf(parts[i]))
  }

  const SessionIdOnlyKeys: set<string> := {"sessionid", "sessionid_ss", "msToken"}

  /** `isSessionIdOnlyCookie`. */
  predicate IsSessionIdOnly(cookie: string)
    ensures IsSessionIdOnly(cookie) ==> cookie != ""
  {
    EmptyCookieParts();
    "sessionid" in CookieKeys(cookie) && CookieKeys(cookie) <= SessionIdOnlyKeys
  }

  /** A part as the cookie functions produce and keep it: non-empty, no `;`,
      no surrounding whitespace. */
  predicate WellFormedPart(p: string) {
    |p| > 0 && NoneOf(p, ';') && !JsSpace(p[0]) && !JsSpace(p[|p| - 1])
  }

  /** `name=value` is a well-formed part whose key is `name` and whose value
      is `value`, for a name without `=` or `;` and a value without `;`,
      neither with whitespace at the outer ends. */
  predicate GoodName(name: string) {
    NoneOf(name, '=') && NoneOf(name, ';') && (|name| == 0 || !JsSpace(name[0]))
  }

  predicate GoodValue(value: string) {
    NoneOf(value, ';') && (|value| == 0 || !JsSpace(value[|value| - 1]))
  }

  lemma PairPart(name: string, value: string)
    requires GoodName(name) && GoodValue(value)
    ensures WellFormedPart(name + "=" + value)
    ensures KeyOf(name + "=" + value) == name && ValueOf(name + "=" + value) == value
  {
    var p := name + "=" + value;
    NoneOfConcat(name, "=", ';');
    NoneOfConcat(name + "=", value, ';');
    assert p[0] == (if |name| > 0 then name[0] else '=');
    assert p[|p| - 1] == (if |value| > 0 then value[|value| - 1] else '=');
    assert p == name + ['='] + value;
    TakeUntilAfter(name, '=', value);
  }

  lemma EmptyCookieParts()
    ensures CookieParts("") == []
  {
    SplitJoin([""], ";");
  }

  /** Every part of a cookie is well formed. */
  lemma {:induction false} TrimPartsWellFormed(raw: seq<string>)
    requires forall k :: 0 <= k < |raw| ==> NoneOf(raw[k], ';')
    ensures forall k :: 0 <= k < |TrimParts(raw)| ==> WellFormedPart(TrimParts(raw)[k])
    decreases |raw|
  {
    if |raw| > 0 {
      TrimPartsWellFormed(raw[1..]);
      if JsTrim(raw[0]) != "" {
        TrimWellFormed(raw[0]);
      }
    }
  }

  lemma TrimWellFormed(s: string)
    requires NoneOf(s, ';') && JsTrim(s) != ""
    ensures WellFormedPart(JsTrim(s))
  {
    var l := LStrip(s, JsSpace);
    var t := RStrip(l, JsSpace);
    assert t == l[..|t|] && l == s[|s| - |l|..];
    forall k | 0 <= k < |t| ensures t[k] != ';' {
      assert t[k] == s[|s| - |l| + k];
    }
  }

  lemma CookiePartsWellFormed(cookie: string)
    ensures forall k :: 0 <= k < |CookieParts(cookie)| ==> WellFormedPart(CookieParts(cookie)[k])
  {
    var raw := Split(cookie, ";");
    forall k | 0 <= k < |raw| ensures NoneOf(raw[k], ';') {
      NoSeparatorChar(raw[k], ";");
    }
    TrimPartsWellFormed(raw);
  }

  /** A part that does not contain a one-character separator holds no such
      character. */
  lemma NoSeparatorChar(s: string, sep: string)
    requires |sep| == 1 && !Contains(s, sep)
    ensures NoneOf(s, sep[0])
  {
    forall k | 0 <= k < |s| ensures s[k] != sep[0] {
      if s[k] == sep[0] {
        assert s[k..k + 1] == sep;
        ContainsAt(s, sep, k);
      }
    }
  }

  lemma TrimLeadingSpace(p: string)
    requires WellFormedPart(p)
    ensures JsTrim(" " + p) == p
  {
    assert (" " + p)[1..] == p;
    StripIdentity(p, JsSpace);
  }

  /** The parts joined with `"; "` are read back as the same parts. */
  lemma {:induction false} PartsOfJoin(ps: seq<string>)
    requires forall k :: 0 <= k < |ps| ==> WellFormedPart(ps[k])
    ensures CookieParts(Join(ps, "; ")) == ps
    decreases |ps|
  {
    if |ps| == 0 {
      EmptyCookieParts();
    } else if |ps| == 1 {
      SplitJoin([ps[0]], ";");
      StripIdentity(ps[0], JsSpace);
    } else {
      var rest := Join(ps[1..], "; ");
      PartsOfJoin(ps[1..]);
      SpacedParts(rest);
      PartsOfJoinStep(ps[0], rest, ps[1..]);
    }
  }

  /** One well-formed part before `"; "` and the rest. */
  lemma PartsOfJoinStep(p: string, rest: string, ps: seq<string>)
    requires WellFormedPart(p) && |ps| > 0
    requires CookieParts(" " + rest) == ps && rest == Join(ps, "; ")
    ensures CookieParts(Join([p] + ps, "; ")) == [p] + ps
  {
    JoinCons(p, ps);
    SplitAfterPart(p, " " + rest);
    StripIdentity(p, JsSpace);
    TrimPartsCons(p, Split(" " + rest, ";"));
  }

  lemma JoinCons(p: string, ps: seq<string>)
    requires |ps| > 0
    ensures Join([p] + ps, "; ") == p + ";" + (" " + Join(ps, "; "))
  {
    assert ([p] + ps)[1..] == ps;
    SpacedSeparator(p, Join(ps, "; "));
  }

  lemma SpacedSeparator(p: string, j: string)
    ensures p + "; " + j == p + ";" + (" " + j)
  {
  }

  lemma SplitAfterPart(p: string, t: string)
    requires NoneOf(p, ';')
    ensures Split(p + ";" + t, ";") == [p] + Split(t, ";")
  {
    IndexOfAfter(p, ";", t);
    SplitCons(p, ";", t);
  }

  /** A leading space changes only the first raw part, which trimming
      undoes. */
  lemma SpacedParts(s: string)
    ensures CookieParts(" " + s) == CookieParts(s)
  {
    var raw := Split(s, ";");
    var first := raw[0];
    SplitLeadingSpace(s);
    TrimPartsCons(" " + first, raw[1..]);
    TrimPartsCons(first, raw[1..]);
    assert raw == [first] + raw[1..];
    LeadingSpaceTrim(first);
  }

  lemma LeadingSpaceTrim(p: string)
    ensures JsTrim(" " + p) == JsTrim(p)
  {
    assert (" " + p)[1..] == p;
  }

  lemma TrimPartsCons(p: string, rest: seq<string>)
    ensures TrimParts([p] + rest) == (if JsTrim(p) == "" then [] else [JsTrim(p)]) + TrimParts(rest)
  {
    assert ([p] + rest)[1..] == rest;
  }

  /** A leading space attaches to the first raw part. */
  lemma SplitLeadingSpace(s: string)
    ensures Split(" " + s, ";") == [" " + Split(s, ";")[0]] + Split(s, ";")[1..]
  {
    SplitPrepend(" ", s, ";");
  }

  /** Text free of a one-character separator joins the first piece. */
  lemma SplitPrepend(a: string, s: string, sep: string)
    requires |sep| == 1 && NoneOf(a, sep[0])
    ensures Split(a + s, sep) == [a + Split(s, sep)[0]] + Split(s, sep)[1..]
  {
    match IndexOf(s, sep)
    case None =>
      NoSeparatorChar(s, sep);
      NoneOfConcat(a, s, sep[0]);
      SplitJoin([a + s], sep);
      SplitJoin([s], sep);
    case Some(i) =>
      var first := s[..i];
      var rest := s[i + 1..];
      NoEarlierOccurrence(s, sep, i);
      NoSeparatorChar(first, sep);
      NoneOfConcat(a, first, sep[0]);
      assert s == first + sep + rest;
      IndexOfAfter(first, sep, rest);
      SplitCons(first, sep, rest);
      assert a + s == (a + first) + sep + rest;
      IndexOfAfter(a + first, sep, rest);
      SplitCons(a + first, sep, rest);
  }

  // ---------------------------------------------------------------------------
  // Reading and writing values

  /** The value of the first part with the given key. */
  function FindValue(parts: seq<string>, name: string): (r: Option<string>)
    decreases |parts|
    ensures r.None? <==> forall k :: 0 <= k < |parts| ==> KeyOf(parts[k]) != name
  {
    if |parts| == 0 then None
    else if KeyOf(parts[0]) == name then Some(ValueOf(parts[0]))
    else FindValue(parts[1..], name)
  }

  /** `getCookieValue`: `null` for an empty cookie or a missing key. */
  function GetCookieValue(cookie: string, name: string): (r: Option<string>)
    ensures r.None? <==> cookie == "" || forall k :: 0 <= k < |CookieParts(cookie)| ==> KeyOf(CookieParts(cookie)[k]) != name
  {
    if cookie == "" then None else FindValue(CookieParts(cookie), name)
  }

  /** Every part with the key replaced by `name=value`. */
  function ReplaceParts(parts: seq<string>, name: string, value: string): (r: seq<string>)
    decreases |parts|
    ensures |r| == |parts|
    ensures forall k :: 0 <= k < |parts| ==> r[k] == if KeyOf(parts[k]) == name then name + "=" + value else parts[k]
  {
    if |parts| == 0 then []
    else [if KeyOf(parts[0]) == name then name + "=" + value else parts[0]] + ReplaceParts(parts[1..], name, value)
  }

  /** The parts after setting a key: every part with the key replaced by
      `name=value`, or the pair appended when there is none. */
  function SetParts(parts: seq<string>, name: string, value: string): (r: seq<string>)
    ensures |r| > 0
  {
    if FindValue(parts, name).Some? then ReplaceParts(parts, name, value)
    else ReplaceParts(parts, name, value) + [name + "=" + value]
  }

  /** `setCookieValue`: `name=value` alone for an empty cookie; otherwise
      the parts after setting the key, re-joined with `"; "`. */
  function SetCookieValue(cookie: string, name: string, value: string): (r: string)
    ensures GoodName(name) && GoodValue(value) ==> CookieParts(r) == SetParts(CookieParts(cookie), name, value)
  {
    var parts := CookieParts(cookie);
    var r := if cookie == "" then name + "=" + value else Join(SetParts(parts, name, value), "; ");
    if GoodName(name) && GoodValue(value) then
      CookiePartsWellFormed(cookie);
      SetPartsWellFormed(parts, name, value);
      PartsOfJoin(SetParts(parts, name, value));
      if cookie == "" then
        EmptyCookieParts();
        assert SetParts(parts, name, value) == [name + "=" + value];
        r
      else r
    else r
  }

  /** Setting a key in well-formed parts keeps them well formed. */
  lemma SetPartsWellFormed(parts: seq<string>, name: string, value: string)
    requires GoodName(name) && GoodValue(value)
    requires forall k :: 0 <= k < |parts| ==> WellFormedPart(parts[k])
    ensures forall k :: 0 <= k < |SetParts(parts, name, value)| ==> WellFormedPart(SetParts(parts, name, value)[k])
  {
    PairPart(name, value);
  }

  /** The parts of a cookie after `setCookieValue`, whatever it held. */
  lemma SetCookieParts(cookie: string, name: string, value: string)
    requires GoodName(name) && GoodValue(value)
    ensures CookieParts(SetCookieValue(cookie, name, value)) == SetParts(CookieParts(cookie), name, value)
    ensures SetCookieValue(cookie, name, value) == Join(SetParts(CookieParts(cookie), name, value), "; ")
  {
    var parts := CookieParts(cookie);
    CookiePartsWellFormed(cookie);
    SetPartsWellFormed(parts, name, value);
    if cookie == "" {
      EmptyCookieParts();
      assert SetParts(parts, name, value) == [name + "=" + value];
    }
    PartsOfJoin(SetParts(parts, name, value));
  }

  lemma {:induction false} FindReplaced(parts: seq<string>, name: string, value: string)
    requires GoodName(name) && GoodValue(value)
    requires FindValue(parts, name).Some?
    ensures FindValue(ReplaceParts(parts, name, value), name) == Some(value)
    decreases |parts|
  {
    PairPart(name, value);
    if KeyOf(parts[0]) != name {
      FindReplaced(parts[1..], name, value);
    }
  }

  lemma {:induction false} FindAppended(parts: seq<string>, name: string, value: string)
    requires GoodName(name) && GoodValue(value)
    requires FindValue(parts, name).None?
    ensures FindValue(ReplaceParts(parts, name, value) + [name + "=" + value], name) == Some(value)
    decreases |parts|
  {
    PairPart(name, value);
    var r := ReplaceParts(parts, name, value) + [name + "=" + value];
    if |parts| > 0 {
      assert r[1..] == ReplaceParts(parts[1..], name, value) + [name + "=" + value];
      FindAppended(parts[1..], name, value);
    }
  }

  lemma {:induction false} FindReplacedOther(parts: seq<string>, name: string, value: string, other: string)
    requires GoodName(name) && GoodValue(value) && other != name
    ensures FindValue(ReplaceParts(parts, name, value), other) == FindValue(parts, other)
    decreases |parts|
  {
    PairPart(name, value);
    if |parts| > 0 {
      FindReplacedOther(parts[1..], name, value, other);
    }
  }

  /** After setting a key its value is the one set, and every other key
      reads as before. */
  lemma FindSetParts(parts: seq<string>, name: string, value: string, other: string)
    requires GoodName(name) && GoodValue(value)
    ensures FindValue(SetParts(parts, name, value), other) == if other == name then Some(value) else FindValue(parts, other)
  {
    if other == name {
      if FindValue(parts, name).Some? {
        FindReplaced(parts, name, value);
      } else {
        FindAppended(parts, name, value);
      }
    } else {
      PairPart(name, value);
      FindReplacedOther(parts, name, value, other);
      FindAppendOther(ReplaceParts(parts, name, value), name + "=" + value, other);
    }
  }

  /** Reading back a value just set gives it; every other key reads as
      before. */
  lemma GetSetCookieValue(cookie: string, name: string, value: string, other: string)
    requires GoodName(name) && GoodValue(value)
    ensures GetCookieValue(SetCookieValue(cookie, name, value), other)
      == if other == name then Some(value) else GetCookieValue(cookie, other)
  {
    SetCookieParts(cookie, name, value);
    FindSetParts(CookieParts(cookie), name, value, other);
    var parts := SetParts(CookieParts(cookie), name, value);
    EmptyCookieParts();
  }

  /** `patchCookieSessionId`. */
  function PatchSessionId(cookie: string, sessionId: string): (r: string)
    ensures GoodValue(sessionId) ==>
      GetCookieValue(r, "sessionid") == Some(sessionId) && GetCookieValue(r, "sessionid_ss") == Some(sessionId)
  {
    var once := SetCookieValue(cookie, "sessionid", sessionId);
    if GoodValue(sessionId) then
      SessionKeysGood();
      GetSetCookieValue(cookie, "sessionid", sessionId, "sessionid");
      GetSetCookieValue(once, "sessionid_ss", sessionId, "sessionid");
      GetSetCookieValue(once, "sessionid_ss", sessionId, "sessionid_ss");
      SetCookieValue(once, "sessionid_ss", sessionId)
    else SetCookieValue(once, "sessionid_ss", sessionId)
  }

  /** The keys the legacy client writes are plain names. */
  lemma SessionKeysGood()
    ensures GoodName("sessionid") && GoodName("sessionid_ss") && GoodName("msToken")
  {
  }

  /** Patching an empty cookie gives a session-id-only cookie. */
  lemma PatchedEmptyIsSessionIdOnly(sessionId: string)
    requires GoodValue(sessionId)
    ensures IsSessionIdOnly(PatchSessionId("", sessionId))
  {
    var first := "sessionid" + "=" + sessionId;
    var second := "sessionid_ss" + "=" + sessionId;
    PatchedEmptyParts(sessionId);
    SessionKeysGood();
    PairPart("sessionid", sessionId);
    PairPart("sessionid_ss", sessionId);
    TwoKeys(PatchSessionId("", sessionId), first, second);
  }

  lemma PatchedEmptyParts(sessionId: string)
    requires GoodValue(sessionId)
    ensures CookieParts(PatchSessionId("", sessionId)) == ["sessionid" + "=" + sessionId, "sessionid_ss" + "=" + sessionId]
  {
    SessionKeysGood();
    SetTwiceFromEmpty("sessionid", "sessionid_ss", sessionId);
  }

  /** Two different keys set on an empty cookie give exactly two parts. */
  lemma SetTwiceFromEmpty(first: string, second: string, value: string)
    requires GoodName(first) && GoodName(second) && GoodValue(value) && first != second
    ensures CookieParts(SetCookieValue(SetCookieValue("", first, value), second, value))
      == [first + "=" + value, second + "=" + value]
  {
    var p := first + "=" + value;
    SetOnEmpty(first, value);
    SetNewKeyAfter(p, second, value);
  }

  lemma SetNewKeyAfter(p: string, name: string, value: string)
    requires GoodName(name) && GoodValue(value)
    requires CookieParts(p) == [p] && FindValue([p], name).None?
    ensures CookieParts(SetCookieValue(p, name, value)) == [p, name + "=" + value]
  {
    SetNewKey(p, name, value);
  }

  lemma SetOnEmpty(name: string, value: string)
    requires GoodName(name) && GoodValue(value)
    ensures SetCookieValue("", name, value) == name + "=" + value
    ensures CookieParts(name + "=" + value) == [name + "=" + value]
    ensures forall other :: other != name ==> FindValue([name + "=" + value], other).None?
  {
    PairPart(name, value);
    EmptyCookieParts();
    SetCookieParts("", name, value);
    SetPartsNew([], name, value);
  }

  lemma SetNewKey(cookie: string, name: string, value: string)
    requires GoodName(name) && GoodValue(value)
    requires FindValue(CookieParts(cookie), name).None?
    ensures CookieParts(SetCookieValue(cookie, name, value)) == CookieParts(cookie) + [name + "=" + value]
  {
    SetCookieParts(cookie, name, value);
    SetPartsNew(CookieParts(cookie), name, value);
  }

  /** Setting a key no part has appends the pair and changes nothing else. */
  lemma SetPartsNew(parts: seq<string>, name: string, value: string)
    requires FindValue(parts, name).None?
    ensures SetParts(parts, name, value) == parts + [name + "=" + value]
  {
    assert ReplaceParts(parts, name, value) == parts;
  }

  lemma TwoKeys(cookie: string, first: string, second: string)
    requires CookieParts(cookie) == [first, second]
    requires KeyOf(first) == "sessionid" && KeyOf(second) == "sessionid_ss"
    ensures IsSessionIdOnly(cookie)
  {
    TrimmedKeyNames();
    KeysOfTwo(cookie, first, second);
  }

  lemma TrimmedKeyNames()
    ensures JsTrim("sessionid") == "sessionid" && JsTrim("sessionid_ss") == "sessionid_ss"
  {
    TrimmedName("sessionid");
    TrimmedName("sessionid_ss");
  }

  /** A name between lower-case letters trims to itself. */
  lemma TrimmedName(n: string)
    requires |n| > 0 && 'a' <= n[0] <= 'z' && 'a' <= n[|n| - 1] <= 'z'
    ensures JsTrim(n) == n
  {
    StripIdentity(n, JsSpace);
  }

  /** The keys of a two-part cookie are the two parts' trimmed keys. */
  lemma KeysOfTwo(cookie: string, first: string, second: string)
    requires CookieParts(cookie) == [first, second]
    ensures forall k :: k in CookieKeys(cookie) ==> k == JsTrim(KeyOf(first)) || k == JsTrim(KeyOf(second))
    ensures JsTrim(KeyOf(first)) != "" ==> JsTrim(KeyOf(first)) in CookieKeys(cookie)
  {
    PartKeysOfTwo(first, second);
  }

  lemma PartKeysOfTwo(first: string, second: string)
    ensures forall k :: k in PartKeys([first, second]) ==> k == JsTrim(KeyOf(first)) || k == JsTrim(KeyOf(second))
    ensures JsTrim(KeyOf(first)) != "" ==> JsTrim(KeyOf(first)) in PartKeys([first, second])
  {
    var parts := [first, second];
    assert parts[0] == first && parts[1] == second;
  }

  /** A patched cookie carries the session id under both keys. */
  lemma PatchSessionIdValues(cookie: string, sessionId: string, other: string)
    requires GoodValue(sessionId)
    ensures GetCookieValue(PatchSessionId(cookie, sessionId), "sessionid") == Some(sessionId)
    ensures GetCookieValue(PatchSessionId(cookie, sessionId), "sessionid_ss") == Some(sessionId)
    ensures other != "sessionid" && other != "sessionid_ss" ==>
      GetCookieValue(PatchSessionId(cookie, sessionId), other) == GetCookieValue(cookie, other)
  {
    var once := SetCookieValue(cookie, "sessionid", sessionId);
    SessionKeysGood();
    GetSetCookieValue(cookie, "sessionid", sessionId, other);
    GetSetCookieValue(once, "sessionid_ss", sessionId, other);
  }

  // ---------------------------------------------------------------------------
  // msToken

  const MsTokenMark: string := "msToken="

  /** `ensureMsToken`: an empty cookie, or one already mentioning
      `msToken=`, is left alone; otherwise the token is appended. */
  function EnsureMsToken(cookie: string, msToken: string): (r: string)
    ensures cookie <= r
    ensures cookie != "" ==> Contains(r, MsTokenMark)
  {
    if cookie == "" || Contains(cookie, MsTokenMark) then cookie
    else
      var r := cookie + "; " + MsTokenMark + msToken;
      assert r[|cookie| + 2..|cookie| + 2 + |MsTokenMark|] == MsTokenMark;
      ContainsAt(r, MsTokenMark, |cookie| + 2);
      r
  }

  /** Every non-empty cookie leaves `ensureMsToken` mentioning `msToken=`,
      so a second call changes nothing. */
  lemma EnsureMsTokenIdempotent(cookie: string, msToken: string, other: string)
    ensures cookie != "" ==> Contains(EnsureMsToken(cookie, msToken), MsTokenMark)
    ensures EnsureMsToken(EnsureMsToken(cookie, msToken), other) == EnsureMsToken(cookie, msToken)
  {
    if cookie != "" && !Contains(cookie, MsTokenMark) {
      var r := cookie + "; " + MsTokenMark + msToken;
      assert r[|cookie| + 2..|cookie| + 2 + |MsTokenMark|] == MsTokenMark;
      ContainsAt(r, MsTokenMark, |cookie| + 2);
    }
  }

  /** A cookie without `msToken=` gains it as its own last part. */
  lemma EnsureMsTokenParts(cookie: string, msToken: string)
    requires cookie != "" && !Contains(cookie, MsTokenMark) && GoodValue(msToken)
    requires ReadsBack(cookie)
    ensures CookieParts(EnsureMsToken(cookie, msToken)) == CookieParts(cookie) + [MsTokenMark + msToken]
  {
    var x := MsTokenPart(msToken);
    var parts := CookieParts(cookie);
    var all := parts + [x];
    EnsureMsTokenAppends(cookie, msToken);
    AppendPart(parts, x);
    PartsOfJoin(all);
  }

  lemma EnsureMsTokenAppends(cookie: string, msToken: string)
    requires cookie != "" && !Contains(cookie, MsTokenMark)
    ensures EnsureMsToken(cookie, msToken) == cookie + "; " + (MsTokenMark + msToken)
  {
  }

  /** The appended `msToken=…` is a well-formed part with key `msToken`. */
  lemma MsTokenPart(msToken: string) returns (x: string)
    requires GoodValue(msToken)
    ensures x == MsTokenMark + msToken
    ensures WellFormedPart(x) && KeyOf(x) == "msToken"
  {
    SessionKeysGood();
    PairPart("msToken", msToken);
    x := MsTokenMark + msToken;
    assert x == "msToken" + "=" + msToken;
  }

  /** Appending a part to the list appends `"; "` and the part to the
      joined text, and keeps the parts well formed. */
  lemma AppendPart(ps: seq<string>, x: string)
    requires |ps| > 0 && WellFormedPart(x)
    requires forall k :: 0 <= k < |ps| ==> WellFormedPart(ps[k])
    ensures Join(ps + [x], "; ") == Join(ps, "; ") + "; " + x
    ensures forall k :: 0 <= k < |ps + [x]| ==> WellFormedPart((ps + [x])[k])
  {
    var all := ps + [x];
    JoinLast(all, "; ");
    assert all[..|ps|] == ps;
    forall k | 0 <= k < |all| ensures WellFormedPart(all[k]) {
      if k < |ps| { assert all[k] == ps[k]; }
    }
  }

  /** A cookie that is exactly its well-formed parts joined with `"; "`, as
      every cookie `setCookieValue` writes is. */
  predicate ReadsBack(cookie: string) {
    var parts := CookieParts(cookie);
    |parts| > 0 && Join(parts, "; ") == cookie
    && forall k :: 0 <= k < |parts| ==> WellFormedPart(parts[k])
  }

  lemma SetCookieReadsBack(cookie: string, name: string, value: string)
    requires GoodName(name) && GoodValue(value)
    ensures ReadsBack(SetCookieValue(cookie, name, value))
  {
    SetCookieParts(cookie, name, value);
    CookiePartsWellFormed(SetCookieValue(cookie, name, value));
  }

  lemma {:induction false} FindAppendOther(parts: seq<string>, x: string, name: string)
    requires KeyOf(x) != name
    ensures FindValue(parts + [x], name) == FindValue(parts, name)
    decreases |parts|
  {
    if |parts| > 0 {
      assert (parts + [x])[1..] == parts[1..] + [x];
      FindAppendOther(parts[1..], x, name);
    }
  }

  /** Adding `msToken` changes no other key's value. */
  lemma EnsureMsTokenKeeps(cookie: string, msToken: string, name: string)
    requires ReadsBack(cookie) && GoodValue(msToken) && name != "msToken"
    ensures GetCookieValue(EnsureMsToken(cookie, msToken), name) == GetCookieValue(cookie, name)
  {
    if cookie != "" && !Contains(cookie, MsTokenMark) {
      EnsureMsTokenParts(cookie, msToken);
      var x := MsTokenPart(msToken);
      FindAppendOther(CookieParts(cookie), x, name);
    }
  }

  // ---------------------------------------------------------------------------
  // Picking the cookie for a token

  /** The session id in a cookie as `/sessionid=([^;]+)/` finds it, trimmed:
      the first `sessionid=` followed by at least one character other than
      `;`. */
  function ExtractSessionId(cookie: string): (r: Option<string>)
    ensures r.Some? <==> exists j :: 0 <= j && j + 10 < |cookie| && OccursAt(cookie, "sessionid=", j) && cookie[j + 10] != ';'
  {
    ExtractSessionIdFrom(cookie, 0)
  }

  function ExtractSessionIdFrom(cookie: string, i: nat): (r: Option<string>)
    requires i <= |cookie|
    decreases |cookie| - i
    ensures r.Some? <==> exists j :: i <= j && j + 10 < |cookie| && OccursAt(cookie, "sessionid=", j) && cookie[j + 10] != ';'
  {
    if i == |cookie| then None
    else if OccursAt(cookie, "sessionid=", i) && i + 10 < |cookie| && cookie[i + 10] != ';' then
      Some(JsTrim(TakeUntil(cookie[i + 10..], ';')))
    else ExtractSessionIdFrom(cookie, i + 1)
  }

  /** A cookie that opens with `sessionid=` and a plain value yields that
      value, whatever follows the next `;`. */
  lemma ExtractLeadingSessionId(v: string, rest: string)
    requires |v| > 0 && GoodValue(v) && !JsSpace(v[0])
    ensures ExtractSessionId("sessionid=" + v + ";" + rest) == Some(v)
  {
    var c := "sessionid=" + v + ";" + rest;
    assert c[..10] == "sessionid=";
    assert c[10] == v[0];
    assert c[10..] == v + [';'] + rest;
    TakeUntilAfter(v, ';', rest);
    StripIdentity(v, JsSpace);
  }

  /** The longest prefix free of `c`. */
  function TakeUntil(s: string, c: char): (r: string)
    ensures r <= s && NoneOf(r, c)
    ensures |r| < |s| ==> s[|r|] == c
  {
    if |s| == 0 || s[0] == c then [] else [s[0]] + TakeUntil(s[1..], c)
  }

  /** A configured session: a bare string (a session id), or an object that
      may carry a cookie. */
  datatype SessionConfig = SessionIdConfig(sessionId: string) | CookieConfig(cookie: Option<string>)

  datatype ConfigEntry = ConfigEntry(key: string, value: SessionConfig)

  function ConfigFor(configs: seq<ConfigEntry>, key: string): Option<SessionConfig>
    decreases |configs|
  {
    if |configs| == 0 then None
    else if configs[0].key == key then Some(configs[0].value)
    else ConfigFor(configs[1..], key)
  }

  /** The cookie a configured value stands for (`value?.cookie`, or the
      string itself). */
  function ConfigCookie(value: SessionConfig): Option<string> {
    match value
    case SessionIdConfig(s) => Some(s)
    case CookieConfig(c) => c
  }

  predicate UsableTemplate(cookie: Option<string>) {
    cookie.Some? && cookie.value != "" && !IsSessionIdOnly(cookie.value)
  }

  /** `getCookieTemplate`: the `__template__` entry when its cookie is a
      full one, else the first configured full cookie. */
  function CookieTemplate(configs: seq<ConfigEntry>): (r: Option<string>)
    ensures r.Some? ==> r.value != "" && !IsSessionIdOnly(r.value)
    ensures r.None? ==> forall k :: 0 <= k < |configs| ==> !UsableTemplate(ConfigCookie(configs[k].value))
  {
    var template := ConfigFor(configs, "__template__");
    if template.Some? && UsableTemplate(ConfigCookie(template.value)) then
      ConfigCookie(template.value)
    else FirstTemplate(configs)
  }

  function FirstTemplate(configs: seq<ConfigEntry>): (r: Option<string>)
    decreases |configs|
    ensures r.Some? ==> UsableTemplate(r)
    ensures r.None? <==> forall k :: 0 <= k < |configs| ==> !UsableTemplate(ConfigCookie(configs[k].value))
  {
    if |configs| == 0 then None
    else if UsableTemplate(ConfigCookie(configs[0].value)) then ConfigCookie(configs[0].value)
    else FirstTemplate(configs[1..])
  }

  /** The template with the session id patched in and `msToken` ensured,
      or, without a template, the synthesised cookie. */
  function FromTemplate(template: Option<string>, sessionId: string, msToken: string, synth: (string, string) -> string): string {
    match template
    case Some(t) => EnsureMsToken(PatchSessionId(t, sessionId), msToken)
    case None => synth(sessionId, msToken)
  }

  /** `generateCookie`. A configured object cookie wins (a session-id-only
      one is grafted onto the template); a configured non-empty string is a
      session id to synthesise from; otherwise the token itself is patched
      into the template or synthesised from. */
  function GenerateCookie(configs: seq<ConfigEntry>, token: string, msToken: string, synth: (string, string) -> string): (r: string)
    ensures var config := ConfigFor(configs, token);
      config.Some? && config.value.CookieConfig? && config.value.cookie.Some? && config.value.cookie.value != ""
      && !IsSessionIdOnly(config.value.cookie.value) ==>
        config.value.cookie.value <= r && Contains(r, MsTokenMark)
    ensures ConfigFor(configs, token).None? && CookieTemplate(configs).Some? && GoodValue(token) && GoodValue(msToken) ==>
      GetCookieValue(r, "sessionid") == Some(token) && GetCookieValue(r, "sessionid_ss") == Some(token)
      && Contains(r, MsTokenMark)
  {
    var config := ConfigFor(configs, token);
    if config.Some? && config.value.CookieConfig? && config.value.cookie.Some? && config.value.cookie.value != "" then
      var configured := config.value.cookie.value;
      if IsSessionIdOnly(configured) then
        var found := ExtractSessionId(configured);
        var sid := if found.Some? && found.value != "" then found.value else token;
        FromTemplate(CookieTemplate(configs), sid, msToken, synth)
      else EnsureMsToken(configured, msToken)
    else if config.Some? && config.value.SessionIdConfig? && config.value.sessionId != "" then
      synth(config.value.sessionId, msToken)
    else
      var template := CookieTemplate(configs);
      if template.Some? && GoodValue(token) && GoodValue(msToken) then
        TemplateCarriesSession(template.value, token, msToken, synth);
        FromTemplate(template, token, msToken, synth)
      else FromTemplate(template, token, msToken, synth)
  }

  /** A full configured cookie is sent as configured, with `msToken`. */
  lemma ConfiguredCookieWins(configs: seq<ConfigEntry>, token: string, msToken: string, synth: (string, string) -> string, cookie: string)
    requires ConfigFor(configs, token) == Some(CookieConfig(Some(cookie)))
    requires cookie != "" && !IsSessionIdOnly(cookie)
    ensures GenerateCookie(configs, token, msToken, synth) == EnsureMsToken(cookie, msToken)
    ensures Contains(GenerateCookie(configs, token, msToken, synth), MsTokenMark)
  {
    EnsureMsTokenIdempotent(cookie, msToken, msToken);
  }

  /** A session-id-only configured cookie is grafted onto the template with
      the session id it names, or the token when it names none. */
  lemma SessionIdOnlyGrafted(configs: seq<ConfigEntry>, token: string, msToken: string, synth: (string, string) -> string, cookie: string)
    requires ConfigFor(configs, token) == Some(CookieConfig(Some(cookie)))
    requires IsSessionIdOnly(cookie)
    ensures var found := ExtractSessionId(cookie);
      GenerateCookie(configs, token, msToken, synth)
        == FromTemplate(CookieTemplate(configs), if found.Some? && found.value != "" then found.value else token, msToken, synth)
  {
    EmptyCookieParts();
  }

  /** Nothing configured for the token: the template carries the token. */
  lemma UnconfiguredUsesToken(configs: seq<ConfigEntry>, token: string, msToken: string, synth: (string, string) -> string)
    requires ConfigFor(configs, token).None?
    ensures GenerateCookie(configs, token, msToken, synth) == FromTemplate(CookieTemplate(configs), token, msToken, synth)
  {
  }

  /** A template cookie is sent carrying the session id under both keys
      and an `msToken`. */
  lemma TemplateCarriesSession(template: string, sessionId: string, msToken: string, synth: (string, string) -> string)
    requires GoodValue(sessionId) && GoodValue(msToken)
    ensures GetCookieValue(FromTemplate(Some(template), sessionId, msToken, synth), "sessionid") == Some(sessionId)
    ensures GetCookieValue(FromTemplate(Some(template), sessionId, msToken, synth), "sessionid_ss") == Some(sessionId)
    ensures Contains(FromTemplate(Some(template), sessionId, msToken, synth), MsTokenMark)
  {
    var once := SetCookieValue(template, "sessionid", sessionId);
    SessionKeysGood();
    PatchSessionIdValues(template, sessionId, "sessionid");
    SetCookieReadsBack(once, "sessionid_ss", sessionId);
    var patched := PatchSessionId(template, sessionId);
    EnsureMsTokenKeeps(patched, msToken, "sessionid");
    EnsureMsTokenKeeps(patched, msToken, "sessionid_ss");
    EnsureMsTokenIdempotent(patched, msToken, msToken);
  }

  /** No configured value makes a usable template: there is none. */
  lemma NoTemplate(configs: seq<ConfigEntry>)
    requires forall k :: 0 <= k < |configs| ==> !UsableTemplate(ConfigCookie(configs[k].value))
    ensures CookieTemplate(configs).None?
  {
    var template := ConfigFor(configs, "__template__");
    if template.Some? {
      ConfigForFound(configs, "__template__");
      var k :| 0 <= k < |configs| && configs[k].value == template.value;
    }
  }

  lemma {:induction false} ConfigForFound(configs: seq<ConfigEntry>, key: string)
    ensures ConfigFor(configs, key).Some? ==> exists k :: 0 <= k < |configs| && configs[k].value == ConfigFor(configs, key).value
    decreases |configs|
  {
    if |configs| > 0 && configs[0].key != key {
      ConfigForFound(configs[1..], key);
      if ConfigFor(configs, key).Some? {
        var k :| 0 <= k < |configs[1..]| && configs[1..][k].value == ConfigFor(configs, key).value;
        assert configs[k + 1].value == ConfigFor(configs, key).value;
      }
    }
  }

  /** Nothing configured and no template: the cookie is synthesised from the
      token. */
  lemma SynthesisedLast(configs: seq<ConfigEntry>, token: string, msToken: string, synth: (string, string) -> string)
    requires ConfigFor(configs, token).None?
    requires forall k :: 0 <= k < |configs| ==> !UsableTemplate(ConfigCookie(configs[k].value))
    ensures GenerateCookie(configs, token, msToken, synth) == synth(token, msToken)
  {
    NoTemplate(configs);
    UnconfiguredUsesToken(configs, token, msToken, synth);
  }
}
