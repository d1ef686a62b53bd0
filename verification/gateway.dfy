/** The API gateway in front of the individual chat proxies: the per-service
    configuration merge, the choice of a service for a model name, the choice
    of an account token and the `Authorization` header, the Qwen body clean-up
    and the line rewriting of the relayed event stream. Configurations, bodies
    and accounts are parsed JSON objects; `json.loads`/`json.dumps` and
    `random.choice` are parameters. */
module Gateway {
  import opened Wrappers
  import opened Text
  import opened Json
  import opened Seqs

  // ---------------------------------------------------------------------------
  // Configuration merge (`load_config`)

  /** A default `models` entry is added when nothing equal is in `existing`
      (Python set membership: `1 == True`). */
  predicate InModels(existing: seq<Json>, m: Json) {
    exists k :: 0 <= k < |existing| && PyEq(existing[k], m)
  }

  /** The default models appended after the user's: every entry of `defaults`
      not in `existing`, in order. `existing` is the set built once before the
      loop, so a model listed twice in the defaults is appended twice. Putting
      an unhashable value in or looking one up in a set raises `TypeError`. */
  function AppendMissing(existing: seq<Json>, defaults: seq<Json>): (r: Result<seq<Json>, Exn>)
    ensures r.Ok? <==> forall k :: 0 <= k < |defaults| ==> PyHashable(defaults[k])
    ensures r.Ok? ==> r.value == Filter(defaults, m => !InModels(existing, m))
  {
    if |defaults| == 0 then Ok([])
    else if !PyHashable(defaults[0]) then Err(TypeError)
    else
      var rest :- AppendMissing(existing, defaults[1..]);
      Ok((if InModels(existing, defaults[0]) then [] else [defaults[0]]) + rest)
  }

  /** What `key` maps to after the merge, given the default value and the
      user's value (`None` when the user configuration lacks the key). */
  function MergedValue(default: Json, user: Option<Json>): (r: Result<Json, Exn>)
    ensures user.None? ==> r == Ok(default)
    ensures user.Some? && !(default.JObj? && user.value.JObj? && HasKey(default.fields, "models")) ==> r == Ok(user.value)
  {
    if user.None? then Ok(default)
    else
      var us := user.value;
      if !(default.JObj? && us.JObj? && HasKey(default.fields, "models")) then Ok(us)
      else
        var dm := Lookup(default.fields, "models").value;
        if !HasKey(us.fields, "models") then Ok(JObj(Put(us.fields, "models", dm)))
        else
          var um := Lookup(us.fields, "models").value;
          if !um.JArr? then Ok(us)
          else
            var models :- MergeModels(um.items, dm);
            Ok(JObj(Put(us.fields, "models", JArr(models))))
  }

  /** The user's model list extended with the default entries it lacks. */
  function MergeModels(user: seq<Json>, default: Json): (r: Result<seq<Json>, Exn>)
    ensures r.Ok? <==> (forall k :: 0 <= k < |user| ==> PyHashable(user[k])) && PyIter(default).Ok?
                       && forall k :: 0 <= k < |PyIter(default).value| ==> PyHashable(PyIter(default).value[k])
    ensures r.Ok? ==> r.value == user + Filter(PyIter(default).value, m => !InModels(user, m))
  {
    if exists k :: 0 <= k < |user| && !PyHashable(user[k]) then Err(TypeError)
    else
      var entries :- PyIter(default);
      var added :- AppendMissing(user, entries);
      Ok(user + added)
  }

  /** The loop over the default configuration's items, updating the user's. */
  function MergeFrom(defaults: seq<Field>, user: seq<Field>): (r: Result<seq<Field>, Exn>)
    decreases |defaults|
  {
    if |defaults| == 0 then Ok(user)
    else
      var f := defaults[0];
      var v :- MergedValue(f.value, Lookup(user, f.key));
      MergeFrom(defaults[1..], Put(user, f.key, v))
  }

  /** `load_config` on the two parsed files (`None` when `config.json` is
      missing or does not parse): without defaults the user file is taken
      as is; a merge that raises falls back to the defaults. */
  function LoadConfig(defaults: seq<Field>, user: Option<seq<Field>>): (r: seq<Field>)
    ensures user.None? ==> r == defaults
    ensures user.Some? && |defaults| == 0 ==> r == user.value
  {
    match user
    case None => defaults
    case Some(u) =>
      if |defaults| == 0 then u
      else match MergeFrom(defaults, u)
        case Ok(c) => c
        case Err(_) => defaults
  }

  /** Keys the defaults do not mention keep the user's value, and each key of
      the defaults ends with its merged value. */
  lemma {:induction false} MergeFromLookup(defaults: seq<Field>, user: seq<Field>, k: string)
    requires UniqueKeys(defaults)
    requires MergeFrom(defaults, user).Ok?
    ensures !HasKey(defaults, k) ==> Lookup(MergeFrom(defaults, user).value, k) == Lookup(user, k)
    ensures HasKey(defaults, k) ==> MergedValue(Lookup(defaults, k).value, Lookup(user, k)).Ok?
    ensures HasKey(defaults, k) ==>
      Lookup(MergeFrom(defaults, user).value, k) == Some(MergedValue(Lookup(defaults, k).value, Lookup(user, k)).value)
    decreases |defaults|
  {
    if |defaults| > 0 {
      var f := defaults[0];
      var v := MergedValue(f.value, Lookup(user, f.key)).value;
      var next := Put(user, f.key, v);
      UniqueTail(defaults);
      MergeFromLookup(defaults[1..], next, k);
      if k != f.key {
        LookupPutOther(user, f.key, v, k);
      }
    }
  }

  /** The rest of an object with unique keys has unique keys and lacks the first key. */
  lemma UniqueTail(fields: seq<Field>)
    requires UniqueKeys(fields) && |fields| > 0
    ensures UniqueKeys(fields[1..]) && !HasKey(fields[1..], fields[0].key)
  {
    forall i | 0 <= i < |fields[1..]| ensures fields[1..][i].key != fields[0].key {
      assert fields[1..][i] == fields[i + 1];
    }
  }

  /** User values win: a key whose default is not an object with `models`, or
      whose user value is not an object, keeps the user's value. */
  lemma UserValueWins(defaults: seq<Field>, user: seq<Field>, k: string)
    requires UniqueKeys(defaults)
    requires MergeFrom(defaults, user).Ok?
    requires HasKey(user, k)
    requires HasKey(defaults, k) ==>
      var d := Lookup(defaults, k).value;
      !(d.JObj? && Lookup(user, k).value.JObj? && HasKey(d.fields, "models"))
    ensures Lookup(MergeFrom(defaults, user).value, k) == Lookup(user, k)
  {
    MergeFromLookup(defaults, user, k);
  }

  /** Default-only keys are added with the default's value. */
  lemma DefaultOnlyKeyAdded(defaults: seq<Field>, user: seq<Field>, k: string)
    requires UniqueKeys(defaults)
    requires MergeFrom(defaults, user).Ok?
    requires HasKey(defaults, k) && !HasKey(user, k)
    ensures Lookup(MergeFrom(defaults, user).value, k) == Lookup(defaults, k)
  {
    MergeFromLookup(defaults, user, k);
  }

  /** When both sides list models, the merged list is the user's list followed
      by the default models it lacks, in the default order. */
  lemma ModelsUnion(default: seq<Field>, user: seq<Field>, dm: seq<Json>, um: seq<Json>)
    requires Lookup(default, "models") == Some(JArr(dm))
    requires Lookup(user, "models") == Some(JArr(um))
    requires forall k :: 0 <= k < |um| ==> PyHashable(um[k])
    requires forall k :: 0 <= k < |dm| ==> PyHashable(dm[k])
    ensures MergedValue(JObj(default), Some(JObj(user))).Ok?
    ensures Lookup(MergedValue(JObj(default), Some(JObj(user))).value.fields, "models")
         == Some(JArr(um + Filter(dm, m => !InModels(um, m))))
  {
    assert PyIter(JArr(dm)) == Ok(dm);
    assert MergeModels(um, JArr(dm)).Ok?;
  }

  // ---------------------------------------------------------------------------
  // Choosing a service (`_select_service_for_model`)

  /** Some string entry of `models` is a prefix of the model name. */
  predicate PrefixEntry(entries: seq<Json>, model: string) {
    exists k :: 0 <= k < |entries| && entries[k].JStr? && StartsWith(model, entries[k].s)
  }

  /** The first-pass test for one service: `model in models` (element of a
      list, key of a dict, substring of a string), else an entry of `models`
      that is a string the name starts with. `models` defaults to `[]`; a
      service that is not a dict raises `AttributeError`, a scalar `models`
      `TypeError`. */
  function ServiceHit(service: Json, model: string): (r: Result<bool, Exn>)
    ensures r.Ok? <==> service.JObj? && var m := Lookup(service.fields, "models");
                       m.None? || m.value.JArr? || m.value.JObj? || m.value.JStr?
    ensures service.JObj? && Lookup(service.fields, "models").None? ==> r == Ok(false)
  {
    var models :- PyGet(service, "models", JArr([]));
    var exact :- PyContains(models, model);
    if exact then Ok(true)
    else
      Ok(PrefixEntry(PyIter(models).value, model))
  }

  /** For a list of models, a service is hit exactly when one of its string
      entries is a prefix of the name, the name itself included. */
  lemma ListHit(service: seq<Field>, items: seq<Json>, model: string)
    requires Lookup(service, "models") == Some(JArr(items))
    ensures ServiceHit(JObj(service), model) == Ok(PrefixEntry(items, model))
  {
    if JStr(model) in items {
      var k :| 0 <= k < |items| && items[k] == JStr(model);
      assert StartsWith(model, items[k].s);
    }
  }

  /** The first service, from index `i` on, that the first pass picks. */
  function FirstPassFrom(config: seq<Field>, model: string, i: nat): (r: Result<Option<nat>, Exn>)
    requires i <= |config|
    decreases |config| - i
    ensures r.Ok? && r.value.Some? ==> i <= r.value.value < |config| && ServiceHit(config[r.value.value].value, model) == Ok(true)
    ensures r.Ok? && r.value.Some? ==> forall j :: i <= j < r.value.value ==> ServiceHit(config[j].value, model) == Ok(false)
    ensures r.Ok? && r.value.None? ==> forall j :: i <= j < |config| ==> ServiceHit(config[j].value, model) == Ok(false)
    ensures r.Err? ==> exists j :: i <= j < |config| && ServiceHit(config[j].value, model).Err?
  {
    if i == |config| then Ok(None)
    else
      var hit :- ServiceHit(config[i].value, model);
      if hit then Ok(Some(i)) else FirstPassFrom(config, model, i + 1)
  }

  /** Python's `(target_key, target_service)`, `None` for nothing chosen. */
  datatype Selection = Selection(key: Option<string>, service: Option<Json>)

  /** `if target_service:` — a selected but empty service does not count. */
  predicate Chosen(s: Selection) {
    s.service.Some? && PyTruthy(s.service.value)
  }

  predicate NameMatch(model: string, f: Field) {
    Contains(AsciiLower(model), f.key)
  }

  predicate KeyPrefix(model: string, f: Field) {
    StartsWith(model, f.key)
  }

  /** The legacy rule sending `DeepSeek-R1` to a configured `baidu` service. */
  predicate LegacyBaidu(config: seq<Field>, model: string) {
    model == "DeepSeek-R1" && HasKey(config, "baidu")
  }

  /** The fallbacks after a first pass without a hit: service key contained in
      the lower-cased name, the legacy `DeepSeek-R1` rule, a service key the
      name starts with. Each runs only while nothing truthy is chosen. */
  function Fallbacks(config: seq<Field>, model: string): (r: Selection)
    ensures Chosen(r) ==> r.key.Some? && r.service == Lookup(config, r.key.value)
    ensures Chosen(r) ==> Contains(AsciiLower(model), r.key.value) || (LegacyBaidu(config, model) && r.key.value == "baidu") || StartsWith(model, r.key.value)
  {
    var second :=
      match FirstIndex(config, f => NameMatch(model, f))
      case Some(i) => Selection(Some(config[i].key), Some(config[i].value))
      case None => Selection(None, None);
    assert Chosen(second) ==> second.service == Lookup(config, second.key.value) by {
      if Chosen(second) {
        var i := FirstIndex(config, f => NameMatch(model, f)).value;
        FirstKeyLookup(config, i);
      }
    }
    var third :=
      if !Chosen(second) && LegacyBaidu(config, model) then Selection(Some("baidu"), Lookup(config, "baidu"))
      else second;
    if Chosen(third) then third
    else
      match FirstIndex(config, f => KeyPrefix(model, f))
      case Some(i) => Selection(Some(config[i].key), Lookup(config, config[i].key))
      case None => third
  }

  /** With a key seen for the first time at `i`, `config[key]` is the value at `i`. */
  lemma FirstKeyLookup(config: seq<Field>, i: nat)
    requires i < |config|
    requires forall j :: 0 <= j < i ==> config[j].key != config[i].key
    ensures Lookup(config, config[i].key) == Some(config[i].value)
  {
    if i > 0 {
      FirstKeyLookup(config[1..], i - 1);
    }
  }

  /** `_select_service_for_model`. */
  function SelectService(config: seq<Field>, model: string): (r: Result<Selection, Exn>)
    ensures r.Err? <==> FirstPassFrom(config, model, 0).Err?
    ensures r.Ok? && FirstPassFrom(config, model, 0).value.Some? ==>
      var i := FirstPassFrom(config, model, 0).value.value;
      r.value == Selection(Some(config[i].key), Some(config[i].value))
    ensures r.Ok? && FirstPassFrom(config, model, 0).value.None? ==> r.value == Fallbacks(config, model)
  {
    var first :- FirstPassFrom(config, model, 0);
    match first
    case Some(i) => Ok(Selection(Some(config[i].key), Some(config[i].value)))
    case None => Ok(Fallbacks(config, model))
  }

  /** The first pass is not tiered: a service hit only through a prefix entry
      wins over any later service that lists the name exactly, as long as the
      services before it are misses. */
  lemma PrefixBeatsLaterExact(config: seq<Field>, model: string, i: nat, j: nat)
    requires i < j < |config|
    requires forall k :: 0 <= k < i ==> ServiceHit(config[k].value, model) == Ok(false)
    requires ServiceHit(config[i].value, model) == Ok(true)
    requires config[j].value.JObj? && Lookup(config[j].value.fields, "models").Some?
    requires Lookup(config[j].value.fields, "models").value.JArr?
    requires JStr(model) in Lookup(config[j].value.fields, "models").value.items
    ensures SelectService(config, model) == Ok(Selection(Some(config[i].key), Some(config[i].value)))
  {
    FirstPassPicks(config, model, i, 0);
  }

  lemma {:induction false} FirstPassPicks(config: seq<Field>, model: string, i: nat, from: nat)
    requires from <= i < |config|
    requires forall k :: from <= k < i ==> ServiceHit(config[k].value, model) == Ok(false)
    requires ServiceHit(config[i].value, model) == Ok(true)
    ensures FirstPassFrom(config, model, from) == Ok(Some(i))
    decreases i - from
  {
    if from < i {
      FirstPassPicks(config, model, i, from + 1);
    }
  }

  /** The first-pass test for a name that is not a string (the route does not
      check the type): `model in models` compares it with the elements of a
      list; after a miss, the loop over `models` calls `model.startswith` at
      the first string entry, which raises `AttributeError`. */
  function ServiceHitValue(service: Json, model: Json): (r: Result<bool, Exn>)
    requires !model.JStr?
    ensures r == Ok(true) ==> service.JObj? && Lookup(service.fields, "models").Some? && Lookup(service.fields, "models").value.JArr?
    ensures r == Ok(true) ==> var items := Lookup(service.fields, "models").value.items;
      exists k :: 0 <= k < |items| && PyEq(items[k], model)
    ensures service.JObj? && Lookup(service.fields, "models").None? ==> r == Ok(false)
    ensures service.JObj? && Lookup(service.fields, "models").Some? && Lookup(service.fields, "models").value.JArr? ==>
      var items := Lookup(service.fields, "models").value.items;
      (exists k :: 0 <= k < |items| && PyEq(items[k], model)) ||
      ((exists k :: 0 <= k < |items| && items[k].JStr?) <==> r == Err(AttributeError))
  {
    var models :- PyGet(service, "models", JArr([]));
    var exact :- PyContainsValue(models, model);
    if exact then Ok(true)
    else
      var entries := PyIter(models).value;
      if exists k :: 0 <= k < |entries| && entries[k].JStr? then Err(AttributeError) else Ok(false)
  }

  /** `_select_service_for_model` for a name that is not a string. Past a
      first pass without a hit, the second pass calls `model.lower()` at the
      first configured key and raises `AttributeError`; only an empty
      configuration selects nothing. So such a name is listed by value in a
      service's `models`, raises, or finds no service at all. */
  function SelectValue(config: seq<Field>, model: Json): (r: Result<Selection, Exn>)
    requires !model.JStr?
    ensures |config| == 0 ==> r == Ok(Selection(None, None))
    ensures |config| > 0 && r.Ok? ==> Chosen(r.value)
    ensures r.Ok? && Chosen(r.value) ==>
      exists i :: 0 <= i < |config| && ServiceHitValue(config[i].value, model) == Ok(true) &&
                  r.value == Selection(Some(config[i].key), Some(config[i].value))
    ensures |config| > 0 && (forall i :: 0 <= i < |config| ==> ServiceHitValue(config[i].value, model) != Ok(true)) ==> r.Err?
  {
    match FirstIndex(config, (f: Field) => ServiceHitValue(f.value, model) != Ok(false))
    case Some(i) =>
      var hit :- ServiceHitValue(config[i].value, model);
      assert PyTruthy(config[i].value) by {
        assert HasKey(config[i].value.fields, "models");
      }
      Ok(Selection(Some(config[i].key), Some(config[i].value)))
    case None =>
      if |config| == 0 then Ok(Selection(None, None)) else Err(AttributeError)
  }

  /** The selection for any truthy name the request carries. */
  function SelectModel(config: seq<Field>, model: Json): (r: Result<Selection, Exn>)
    ensures model.JStr? ==> r == SelectService(config, model.s)
    ensures !model.JStr? ==> r == SelectValue(config, model)
  {
    if model.JStr? then SelectService(config, model.s) else SelectValue(config, model)
  }

  /** When every configured service is a non-empty object and nothing is
      chosen, no rule applied: no first-pass hit, no service key inside the
      lower-cased name or at its start, and no legacy rule. */
  lemma NothingChosen(config: seq<Field>, model: string)
    requires forall k :: 0 <= k < |config| ==> PyTruthy(config[k].value)
    requires SelectService(config, model).Ok? && !Chosen(SelectService(config, model).value)
    ensures forall k :: 0 <= k < |config| ==> ServiceHit(config[k].value, model) == Ok(false)
    ensures forall k :: 0 <= k < |config| ==> !NameMatch(model, config[k]) && !KeyPrefix(model, config[k])
    ensures !LegacyBaidu(config, model)
  {
    var second := FirstIndex(config, f => NameMatch(model, f));
    if second.Some? {
      FirstKeyLookup(config, second.value);
    }
    var fourth := FirstIndex(config, f => KeyPrefix(model, f));
    if fourth.Some? {
      FirstKeyLookup(config, fourth.value);
    }
  }

  // ---------------------------------------------------------------------------
  // Accounts and the Authorization header

  /** The account chosen from the service's `token` setting (`JNull` for
      Python `None`): `random.choice` of a non-empty list (the `pick`-th
      element), a string with non-blank content, nothing otherwise. */
  function SelectAccount(token: Json, pick: nat): (r: Json)
    ensures token.JArr? && |token.items| > 0 ==> r in token.items
    ensures token.JStr? && PyStrip(token.s) != "" ==> r == token
    ensures !(token.JArr? && |token.items| > 0) && !(token.JStr? && PyStrip(token.s) != "") ==> r == JNull
  {
    if token.JArr? && |token.items| > 0 then token.items[pick % |token.items|]
    else if token.JStr? && PyStrip(token.s) != "" then token
    else JNull
  }

  /** The token used for a selected account: for an account object,
      `hy_token or token`; otherwise the account itself. */
  function AccountToken(account: Json): (r: Json)
    ensures !PyTruthy(account) ==> r == JNull
    ensures PyTruthy(account) && !account.JObj? ==> r == account
    ensures account.JObj? && PyTruthy(Lookup(account.fields, "hy_token").GetOr(JNull)) ==> Some(r) == Lookup(account.fields, "hy_token")
    ensures account.JObj? && !PyTruthy(Lookup(account.fields, "hy_token").GetOr(JNull)) ==> r == Lookup(account.fields, "token").GetOr(JNull)
  {
    if !PyTruthy(account) then JNull
    else if account.JObj? then
      var h := Lookup(account.fields, "hy_token").GetOr(JNull);
      if PyTruthy(h) then h else Lookup(account.fields, "token").GetOr(JNull)
    else account
  }

  predicate IsTokenKey(k: string) {
    k == "token" || k == "hy_token"
  }

  /** Copies every field of an account object except the two token keys into
      the body, overwriting existing keys, in the account's order. */
  function CopyAccountFields(body: seq<Field>, fields: seq<Field>): (r: seq<Field>)
    decreases |fields|
  {
    if |fields| == 0 then body
    else
      var f := fields[0];
      CopyAccountFields(if IsTokenKey(f.key) then body else Put(body, f.key, f.value), fields[1..])
  }

  /** The body after account injection: unchanged unless the account is a
      non-empty object. */
  function InjectAccount(body: seq<Field>, account: Json): seq<Field> {
    if PyTruthy(account) && account.JObj? then CopyAccountFields(body, account.fields) else body
  }

  /** Keys the account does not carry (and the token keys) keep the body's
      value; every other account key ends with the account's value. */
  lemma {:induction false} CopyAccountFieldsLookup(body: seq<Field>, fields: seq<Field>, k: string)
    requires UniqueKeys(fields)
    ensures IsTokenKey(k) || !HasKey(fields, k) ==> Lookup(CopyAccountFields(body, fields), k) == Lookup(body, k)
    ensures !IsTokenKey(k) && HasKey(fields, k) ==> Lookup(CopyAccountFields(body, fields), k) == Lookup(fields, k)
    decreases |fields|
  {
    if |fields| > 0 {
      var f := fields[0];
      var next := if IsTokenKey(f.key) then body else Put(body, f.key, f.value);
      UniqueTail(fields);
      CopyAccountFieldsLookup(next, fields[1..], k);
      if f.key != k && !IsTokenKey(f.key) {
        LookupPutOther(body, f.key, f.value, k);
      }
    }
  }

  /** The `Authorization` value for a service key and a final token; `None`
      when the token is falsy (no header is sent). For `baidu`, a token that
      starts with `{` after stripping or contains `BDUSS` is sent raw (a token
      that is not a string raises `AttributeError` there); everything else is
      `Bearer ` followed by `str(token)`. */
  function Authorization(serviceKey: string, token: Json): (r: Result<Option<string>, Exn>)
    ensures !PyTruthy(token) ==> r == Ok(None)
    ensures r.Err? <==> PyTruthy(token) && serviceKey == "baidu" && !token.JStr?
    ensures r.Ok? && r.value.Some? ==> (token.JStr? && r.value.value == token.s) || r.value.value == "Bearer " + PyStr(token)
    ensures PyTruthy(token) && token.JStr? ==>
      r == Ok(Some(if serviceKey == "baidu" && (StartsWith(PyStrip(token.s), "{") || Contains(token.s, "BDUSS"))
                   then token.s else "Bearer " + token.s))
  {
    if !PyTruthy(token) then Ok(None)
    else if serviceKey == "baidu" then
      if !token.JStr? then Err(AttributeError)
      else if StartsWith(PyStrip(token.s), "{") || Contains(token.s, "BDUSS") then Ok(Some(token.s))
      else Ok(Some("Bearer " + token.s))
    else Ok(Some("Bearer " + PyStr(token)))
  }

  /** No `Authorization` header exactly when the selected account is falsy or
      yields a falsy token. */
  lemma NoAuthorizationCases(serviceKey: string, token: Json, pick: nat)
    ensures var account := SelectAccount(token, pick);
      Authorization(serviceKey, AccountToken(account)) == Ok(None) <==> !PyTruthy(AccountToken(account))
  {
    var t := AccountToken(SelectAccount(token, pick));
    if PyTruthy(t) && t.JStr? {
      assert |t.s| > 0;
    }
  }

  datatype Header = Header(name: string, value: string)

  const UserAgent: string := "Mozilla/5.0 (Windows NT 10.0; Win64; x64) AppleWebKit/537.36 (KHTML, like Gecko) Chrome/131.0.0.0 Safari/537.36"

  function AuthorizationHeader(auth: Option<string>): seq<Header> {
    match auth
    case Some(v) => [Header("Authorization", v)]
    case None => []
  }

  /** The headers of a proxied chat completion: only the content type, the
      fixed user agent and the authorization. */
  function ChatHeaders(auth: Option<string>): (r: seq<Header>)
    ensures |r| == 2 + (if auth.Some? then 1 else 0)
    ensures r[0] == Header("Content-Type", "application/json") && r[1] == Header("User-Agent", UserAgent)
    ensures auth.Some? ==> r[2] == Header("Authorization", auth.value)
  {
    [Header("Content-Type", "application/json"), Header("User-Agent", UserAgent)] + AuthorizationHeader(auth)
  }

  /** The headers `_build_upstream_headers` writes. */
  function UpstreamHeaders(contentType: string, auth: Option<string>): (r: seq<Header>)
    ensures |r| >= 1 && r[0] == Header("User-Agent", UserAgent)
    ensures |contentType| > 0 ==> |r| >= 2 && r[1] == Header("Content-Type", contentType)
    ensures |contentType| == 0 ==> forall k :: 0 <= k < |r| ==> r[k].name != "Content-Type"
    ensures (exists k :: 0 <= k < |r| && r[k].name == "Authorization") <==> auth.Some?
  {
    var r := [Header("User-Agent", UserAgent)] + (if |contentType| > 0 then [Header("Content-Type", contentType)] else []) + AuthorizationHeader(auth);
    assert auth.Some? ==> r[|r| - 1].name == "Authorization";
    r
  }

  /** `_build_upstream_headers`: the user agent, the content type unless it is
      empty, the authorization for the account chosen with `pick`; a body that
      is a dict receives the account's other fields. */
  function BuildUpstreamHeaders(serviceKey: string, service: Json, body: Option<seq<Field>>, contentType: string, pick: nat)
    : (r: Result<(seq<Header>, Option<seq<Field>>), Exn>)
    ensures r.Ok? ==> var account := SelectAccount(if service.JObj? then Lookup(service.fields, "token").GetOr(JNull) else JNull, pick);
      Authorization(serviceKey, AccountToken(account)).Ok?
      && r.value.0 == UpstreamHeaders(contentType, Authorization(serviceKey, AccountToken(account)).value)
      && r.value.1 == (if body.Some? then Some(InjectAccount(body.value, account)) else None)
  {
    var token := if service.JObj? then Lookup(service.fields, "token").GetOr(JNull) else JNull;
    var account := SelectAccount(token, pick);
    var auth :- Authorization(serviceKey, AccountToken(account));
    Ok((UpstreamHeaders(contentType, auth), if body.Some? then Some(InjectAccount(body.value, account)) else None))
  }

  // ---------------------------------------------------------------------------
  // Qwen body clean-up

  const QwenDroppedKeys: seq<string> := ["stream_options", "response_format", "tools", "tool_choice", "functions", "function_call"]

  /** Removes `key` when it holds an integer (booleans included) that is not positive. */
  function DropNonPositive(body: seq<Field>, key: string): (r: seq<Field>)
    ensures forall other :: other != key ==> Lookup(r, other) == Lookup(body, other)
    ensures NonPositiveInt(Lookup(body, key)) ==> Lookup(r, key).None?
    ensures !NonPositiveInt(Lookup(body, key)) ==> Lookup(r, key) == Lookup(body, key)
  {
    if NonPositiveInt(Lookup(body, key)) then Remove(body, key) else body
  }

  function RemoveAll(body: seq<Field>, keys: seq<string>): (r: seq<Field>)
    ensures forall k :: k in keys ==> Lookup(r, k).None?
    ensures forall other :: other !in keys ==> Lookup(r, other) == Lookup(body, other)
    decreases |keys|
  {
    if |keys| == 0 then body else RemoveAll(Remove(body, keys[0]), keys[1..])
  }

  /** An integer setting (booleans included) that is not positive. */
  predicate NonPositiveInt(v: Option<Json>) {
    v.Some? && PyIsInt(v.value) && PyIntValue(v.value) <= 0
  }

  /** What the Qwen clean-up leaves under one key: nothing for the six
      tool/format keys and for a non-positive integer token limit, the
      body's value otherwise. */
  function QwenValue(body: seq<Field>, k: string): Option<Json> {
    if k in QwenDroppedKeys then None
    else if (k == "max_tokens" || k == "max_completion_tokens") && NonPositiveInt(Lookup(body, k)) then None
    else Lookup(body, k)
  }

  /** The body sent to the `qwen` service. */
  function SanitizeQwen(body: seq<Field>): (r: seq<Field>)
    ensures forall k :: Lookup(r, k) == QwenValue(body, k)
  {
    var b1 := DropNonPositive(body, "max_tokens");
    var b2 := DropNonPositive(b1, "max_completion_tokens");
    var r := RemoveAll(b2, QwenDroppedKeys);
    forall k ensures Lookup(r, k) == QwenValue(body, k) {
      SanitizeQwenKey(body, k);
    }
    r
  }

  lemma SanitizeQwenKey(body: seq<Field>, k: string)
    ensures Lookup(RemoveAll(DropNonPositive(DropNonPositive(body, "max_tokens"), "max_completion_tokens"), QwenDroppedKeys), k)
         == QwenValue(body, k)
  {
    var b1 := DropNonPositive(body, "max_tokens");
    var b2 := DropNonPositive(b1, "max_completion_tokens");
    if k !in QwenDroppedKeys {
      assert Lookup(RemoveAll(b2, QwenDroppedKeys), k) == Lookup(b2, k);
      if k == "max_tokens" {
        assert Lookup(b2, k) == Lookup(b1, k);
      } else if k != "max_completion_tokens" {
        assert Lookup(b2, k) == Lookup(b1, k) == Lookup(body, k);
      }
    }
  }

  /** JSON `false` counts as the integer 0 and is removed. */
  lemma QwenDropsFalseMaxTokens(body: seq<Field>)
    requires Lookup(body, "max_tokens") == Some(JBool(false))
    ensures Lookup(SanitizeQwen(body), "max_tokens").None?
  {
  }

  // ---------------------------------------------------------------------------
  // The chat-completions request as sent upstream

  datatype GatewayError = HttpError(status: nat, detail: string) | Raised(exn: Exn)

  datatype UpstreamRequest = UpstreamRequest(serviceKey: string, url: string, headers: seq<Header>, body: seq<Field>, stream: bool)

  /** The service a chat completion for `model` is sent to: a service must be
      chosen, and the image/video service `jimeng` is refused. The 404 detail
      shows the name as `str()` does. */
  function Route(config: seq<Field>, model: Json): (r: Result<(string, Json), GatewayError>)
    ensures SelectModel(config, model).Err? ==> r == Err(Raised(SelectModel(config, model).error))
    ensures r.Ok? ==> SelectModel(config, model).Ok? && Chosen(SelectModel(config, model).value)
    ensures r.Ok? ==> var sel := SelectModel(config, model).value;
      r.value == (sel.key.GetOr(""), sel.service.value) && r.value.0 != "jimeng"
    ensures SelectModel(config, model).Ok? && !Chosen(SelectModel(config, model).value) ==>
      r == Err(HttpError(404, "No service found for model: " + PyStr(model)))
  {
    match SelectModel(config, model)
    case Err(e) => Err(Raised(e))
    case Ok(sel) =>
      if !Chosen(sel) then Err(HttpError(404, "No service found for model: " + PyStr(model)))
      else if sel.key.GetOr("") == "jimeng" then
        Err(HttpError(400, "Jimeng is an image/video service. Use /v1/images/generations or /v1/videos/generations."))
      else Ok((sel.key.GetOr(""), sel.service.value))
  }

  /** The upstream request for a routed service: its `url` (a missing one
      raises), the account chosen with `pick` injected into the body, the
      Qwen clean-up, the headers. */
  function BuildChatRequest(key: string, service: Json, body: seq<Field>, pick: nat): (r: Result<UpstreamRequest, GatewayError>)
    ensures r.Ok? ==> service.JObj? && HasKey(service.fields, "url")
    ensures r.Ok? ==> r.value.serviceKey == key && EndsWith(r.value.url, "/v1/chat/completions")
    ensures r.Ok? && key == "qwen" ==> forall k :: k in QwenDroppedKeys ==> Lookup(r.value.body, k).None?
    ensures r.Ok? ==> r.value.stream == PyTruthy(Lookup(r.value.body, "stream").GetOr(JNull))
    ensures PyIndex(service, "url").Err? ==> r == Err(Raised(PyIndex(service, "url").error))
    ensures PyIndex(service, "url").Ok? ==>
      var account := SelectAccount(PyGet(service, "token", JNull).value, pick);
      var auth := Authorization(key, AccountToken(account));
      var injected := InjectAccount(body, account);
      && (auth.Err? ==> r == Err(Raised(auth.error)))
      && (auth.Ok? ==>
            && r.Ok?
            && r.value.url == PyStr(PyIndex(service, "url").value) + "/v1/chat/completions"
            && r.value.headers == ChatHeaders(auth.value)
            && r.value.body == if key == "qwen" then SanitizeQwen(injected) else injected)
  {
    match PyIndex(service, "url")
    case Err(e) => Err(Raised(e))
    case Ok(base) =>
      var account := SelectAccount(PyGet(service, "token", JNull).value, pick);
      var injected := InjectAccount(body, account);
      var sent := if key == "qwen" then SanitizeQwen(injected) else injected;
      match Authorization(key, AccountToken(account))
      case Err(e) => Err(Raised(e))
      case Ok(auth) =>
        Ok(UpstreamRequest(key, PyStr(base) + "/v1/chat/completions", ChatHeaders(auth), sent,
                           PyTruthy(Lookup(sent, "stream").GetOr(JNull))))
  }

  /** `proxy_chat_completions` up to the upstream call. The model name is
      required but its type is not checked: a name that is not a string is
      routed only when a service lists an equal value, raises once selection
      reaches a string method, and with no service configured is a 404. */
  function PrepareChatRequest(config: seq<Field>, request: Json, pick: nat): (r: Result<UpstreamRequest, GatewayError>)
    ensures !request.JObj? ==> r == Err(Raised(AttributeError))
    ensures request.JObj? && !PyTruthy(Lookup(request.fields, "model").GetOr(JNull)) ==> r == Err(HttpError(400, "Model is required"))
    ensures r.Ok? ==> request.JObj? && Route(config, Lookup(request.fields, "model").GetOr(JNull)).Ok?
    ensures request.JObj? && PyTruthy(Lookup(request.fields, "model").GetOr(JNull)) ==>
      var model := Lookup(request.fields, "model").value;
      (!model.JStr? && |config| == 0 ==> r == Err(HttpError(404, "No service found for model: " + PyStr(model)))) &&
      (!model.JStr? && |config| > 0 && (forall i :: 0 <= i < |config| ==> ServiceHitValue(config[i].value, model) != Ok(true)) ==>
        r.Err? && r.error.Raised?)
  {
    if !request.JObj? then Err(Raised(AttributeError))
    else
      var model := Lookup(request.fields, "model").GetOr(JNull);
      if !PyTruthy(model) then Err(HttpError(400, "Model is required"))
      else
        var (key, service) :- Route(config, model);
        BuildChatRequest(key, service, request.fields, pick)
  }

  // ---------------------------------------------------------------------------
  // Relaying the upstream event stream (`proxy_stream_sse`)

  /** An SSE chunk as the relay writes them: a `data:`, `event:` or comment
      line followed by a blank line. */
  predicate IsSseChunk(c: string) {
    EndsWith(c, "\n\n") && (StartsWith(c, "data:") || StartsWith(c, "event:") || StartsWith(c, ":"))
  }

  predicate PassThrough(line: string) {
    StartsWith(line, "data:") || StartsWith(line, "event:") || StartsWith(line, ":")
  }

  /** A line is blank exactly when stripping leaves nothing. */
  lemma StripEmptyIffBlank(s: string)
    ensures PyStrip(s) == "" <==> forall k :: 0 <= k < |s| ==> PySpace(s[k])
  {
    var l := LStrip(s, PySpace);
    assert PyStrip(s) == "" ==> l == "";
  }

  lemma PassThroughNotBlank(line: string)
    requires PassThrough(line)
    ensures |line| > 0 && !PySpace(line[0])
  {
    if StartsWith(line, "data:") {
      assert line[0] == line[..5][0] == 'd';
    } else if StartsWith(line, "event:") {
      assert line[0] == line[..6][0] == 'e';
    } else {
      assert line[0] == line[..1][0] == ':';
    }
  }

  /** The chunk written for one upstream line: blank lines are dropped. */
  function RelayLine(line: string): (r: Option<string>)
    ensures r.None? <==> PyStrip(line) == ""
  {
    StripEmptyIffBlank(line);
    if |line| == 0 then None
    else if PassThrough(line) then
      PassThroughNotBlank(line);
      Some(line + "\n\n")
    else if PyStrip(line) == "[DONE]" then Some("data: [DONE]\n\n")
    else if PyStrip(line) != "" then Some("data: " + line + "\n\n")
    else None
  }

  /** Every chunk the relay writes is a well-formed SSE field line: field
      lines and comments pass through, a bare `[DONE]` becomes the data
      line `data: [DONE]`, anything else is wrapped as data. */
  lemma RelayLineChunk(line: string)
    requires RelayLine(line).Some?
    ensures IsSseChunk(RelayLine(line).value)
    ensures PassThrough(line) ==> RelayLine(line).value == line + "\n\n"
    ensures !PassThrough(line) && PyStrip(line) == "[DONE]" ==> RelayLine(line).value == "data: [DONE]\n\n"
    ensures !PassThrough(line) && PyStrip(line) != "[DONE]" ==> RelayLine(line).value == "data: " + line + "\n\n"
  {
    if PassThrough(line) {
      AppendKeepsPrefix(line, if StartsWith(line, "data:") then "data:" else if StartsWith(line, "event:") then "event:" else ":", "\n\n");
    } else if PyStrip(line) == "[DONE]" {
      AppendKeepsPrefix("data: [DONE]", "data:", "\n\n");
      assert "data: [DONE]" + "\n\n" == "data: [DONE]\n\n";
    } else {
      AppendKeepsPrefix("data: " + line, "data:", "\n\n");
    }
  }

  function RelayLines(lines: seq<string>): (r: seq<string>)
    ensures |r| <= |lines|
    ensures forall k :: 0 <= k < |r| ==> IsSseChunk(r[k])
  {
    if |lines| == 0 then []
    else
      match RelayLine(lines[0])
      case Some(c) =>
        RelayLineChunk(lines[0]);
        [c] + RelayLines(lines[1..])
      case None => RelayLines(lines[1..])
  }

  /** The relay is line by line: relaying a concatenation relays each part. */
  lemma {:induction false} RelayLinesAppend(a: seq<string>, b: seq<string>)
    ensures RelayLines(a + b) == RelayLines(a) + RelayLines(b)
  {
    if |a| == 0 {
      assert a + b == b;
    } else {
      assert (a + b)[0] == a[0];
      assert (a + b)[1..] == a[1..] + b;
      RelayLinesAppend(a[1..], b);
    }
  }

  /** Blank lines are dropped: appending them changes nothing. */
  lemma BlankLinesDropped(lines: seq<string>, blank: string)
    requires forall k :: 0 <= k < |blank| ==> PySpace(blank[k])
    ensures RelayLines(lines + [blank]) == RelayLines(lines)
  {
    StripEmptyIffBlank(blank);
    RelayLinesAppend(lines, [blank]);
    assert RelayLines([blank]) == [];
  }

  /** How the upstream answered: a failure before or during the response, or a
      status, content type, whole body text and its lines, with the message of
      a failure after those lines if the stream broke. */
  datatype Upstream =
    | Failed(message: string)
    | Responded(status: int, contentType: string, text: string, lines: seq<string>, broke: Option<string>)

  function ErrorChunk(message: string, dumps: Json -> string): string {
    "data: " + dumps(JObj([Field("error", JStr(message))])) + "\n\n"
  }

  /** A 200 JSON body counts as an error only when it parses and `"error" in`
      it holds (key of an object, element of a list, substring of a string);
      a failure while checking counts as no error. */
  predicate BodyIsError(text: string, parse: string -> Option<Json>) {
    var j := parse(text);
    j.Some? && PyContains(j.value, "error") == Ok(true)
  }

  /** The chunks the gateway streams back to its client. */
  function RelayResponse(up: Upstream, parse: string -> Option<Json>, dumps: Json -> string): (r: seq<string>)
    ensures up.Responded? && up.status >= 400 ==>
      r == [ErrorChunk("Upstream error " + IntToString(up.status) + ": " + up.text, dumps)]
    ensures up.Responded? && up.status < 400 && Contains(up.contentType, "application/json") ==>
      |r| == 1 && (if BodyIsError(up.text, parse) then r[0] == ErrorChunk("Upstream error " + IntToString(up.status) + ": " + up.text, dumps)
                   else r[0] == "data: " + up.text + "\n\n")
    ensures up.Failed? ==> r == [ErrorChunk(up.message, dumps)]
    ensures up.Responded? && up.status < 400 && !Contains(up.contentType, "application/json") && up.broke.None? ==>
      r == RelayLines(up.lines)
    ensures up.Responded? && up.status < 400 && !Contains(up.contentType, "application/json") && up.broke.Some? ==>
      r == RelayLines(up.lines) + [ErrorChunk(up.broke.value, dumps)]
  {
    match up
    case Failed(message) => [ErrorChunk(message, dumps)]
    case Responded(status, contentType, text, lines, broke) =>
      if status >= 400 || Contains(contentType, "application/json") then
        if status >= 400 || BodyIsError(text, parse) then
          [ErrorChunk("Upstream error " + IntToString(status) + ": " + text, dumps)]
        else ["data: " + text + "\n\n"]
      else
        RelayLines(lines) + (if broke.Some? then [ErrorChunk(broke.value, dumps)] else [])
  }

  /** An error chunk is a `data:` line ending the event. */
  lemma ErrorChunkIsSse(message: string, dumps: Json -> string)
    ensures IsSseChunk(ErrorChunk(message, dumps))
  {
    AppendKeepsPrefix("data: " + dumps(JObj([Field("error", JStr(message))])), "data:", "\n\n");
  }

  /** Whatever the upstream does, the client receives only well-formed SSE
      chunks, and a failure ends the stream with its error chunk. */
  lemma RelayedChunksAreSse(up: Upstream, parse: string -> Option<Json>, dumps: Json -> string)
    ensures forall k :: 0 <= k < |RelayResponse(up, parse, dumps)| ==> IsSseChunk(RelayResponse(up, parse, dumps)[k])
    ensures up.Failed? ==> RelayResponse(up, parse, dumps)[|RelayResponse(up, parse, dumps)| - 1] == ErrorChunk(up.message, dumps)
    ensures up.Responded? && up.broke.Some? && up.status < 400 && !Contains(up.contentType, "application/json") ==>
      RelayResponse(up, parse, dumps)[|RelayResponse(up, parse, dumps)| - 1] == ErrorChunk(up.broke.value, dumps)
  {
    var r := RelayResponse(up, parse, dumps);
    match up
    case Failed(message) => ErrorChunkIsSse(message, dumps);
    case Responded(status, contentType, text, lines, broke) =>
      if status >= 400 || Contains(contentType, "application/json") {
        ErrorChunkIsSse("Upstream error " + IntToString(status) + ": " + text, dumps);
        AppendKeepsPrefix("data: " + text, "data:", "\n\n");
      } else if broke.Some? {
        ErrorChunkIsSse(broke.value, dumps);
      }
  }
}
