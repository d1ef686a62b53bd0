/** The Doubao session pool: authenticated and guest session lists plus a map
    from conversation identifiers to the session that conversation was held
    on. Each operation returns the new pool; reading and writing the session
    file is left to the caller (`save_to_file` returns what it would write,
    `load_from_file` takes what was read). `random.choice` is the parameter
    `pick`, used as an index modulo the list length. */
module SessionPool {
  import opened Wrappers
  import opened Json
  import opened Seqs

  /** `DoubaoSession`: six string fields and nothing else (in particular no
      `is_logged`). */
  datatype Session = Session(cookie: string, deviceId: string, teaUuid: string, webId: string, roomId: string, xFlowTrace: string)

  datatype Pool = Pool(sessionMap: map<Json, Session>, auth: seq<Session>, guest: seq<Session>)

  const EmptyPool := Pool(map[], [], [])

  const SessionKeys: seq<string> := ["cookie", "device_id", "tea_uuid", "web_id", "room_id", "x_flow_trace"]

  /** `to_dict`. */
  function ToDict(s: Session): (r: Json)
    ensures r.JObj? && Keys(r.fields) == SessionKeys
  {
    JObj([Field("cookie", JStr(s.cookie)), Field("device_id", JStr(s.deviceId)), Field("tea_uuid", JStr(s.teaUuid)),
          Field("web_id", JStr(s.webId)), Field("room_id", JStr(s.roomId)), Field("x_flow_trace", JStr(s.xFlowTrace))])
  }

  /** The string under `key`, or `None` when it is missing or not a string. */
  function StringField(fields: seq<Field>, key: string): Option<string> {
    match Lookup(fields, key)
    case Some(JStr(v)) => Some(v)
    case _ => None
  }

  predicate AllStrings(fields: seq<Field>) {
    StringField(fields, "cookie").Some? && StringField(fields, "device_id").Some?
    && StringField(fields, "tea_uuid").Some? && StringField(fields, "web_id").Some?
    && StringField(fields, "room_id").Some? && StringField(fields, "x_flow_trace").Some?
  }

  function Build(fields: seq<Field>): Session
    requires AllStrings(fields)
  {
    Session(StringField(fields, "cookie").value, StringField(fields, "device_id").value,
            StringField(fields, "tea_uuid").value, StringField(fields, "web_id").value,
            StringField(fields, "room_id").value, StringField(fields, "x_flow_trace").value)
  }

  /** `from_dict`, i.e. `DoubaoSession(**data)`: a mapping is required
      (`TypeError`), each of the six fields must be a string (validation
      fails with a `ValueError` otherwise), and other keys are ignored. */
  function FromDict(data: Json): (r: Result<Session, Exn>)
    ensures r.Ok? <==> data.JObj? && AllStrings(data.fields)
    ensures r.Ok? ==> (StringField(data.fields, "cookie") == Some(r.value.cookie)
                   && StringField(data.fields, "device_id") == Some(r.value.deviceId)
                   && StringField(data.fields, "tea_uuid") == Some(r.value.teaUuid)
                   && StringField(data.fields, "web_id") == Some(r.value.webId)
                   && StringField(data.fields, "room_id") == Some(r.value.roomId)
                   && StringField(data.fields, "x_flow_trace") == Some(r.value.xFlowTrace))
  {
    if !data.JObj? then Err(TypeError)
    else if !AllStrings(data.fields) then Err(ValueError)
    else Ok(Build(data.fields))
  }

  /** With each key held once, a string field reads back as stored. */
  lemma StringFieldAt(fields: seq<Field>, i: nat)
    requires UniqueKeys(fields) && i < |fields| && fields[i].value.JStr?
    ensures StringField(fields, fields[i].key) == Some(fields[i].value.s)
  {
    LookupUnique(fields, i);
  }

  lemma ToDictStrings(s: Session)
    ensures var f := ToDict(s).fields;
      StringField(f, "cookie") == Some(s.cookie) && StringField(f, "device_id") == Some(s.deviceId)
      && StringField(f, "tea_uuid") == Some(s.teaUuid) && StringField(f, "web_id") == Some(s.webId)
      && StringField(f, "room_id") == Some(s.roomId) && StringField(f, "x_flow_trace") == Some(s.xFlowTrace)
  {
    var f := ToDict(s).fields;
    assert UniqueKeys(f);
    StringFieldAt(f, 0);
    StringFieldAt(f, 1);
    StringFieldAt(f, 2);
    StringFieldAt(f, 3);
    StringFieldAt(f, 4);
    StringFieldAt(f, 5);
  }

  /** `from_dict(to_dict(s)) == s`. */
  lemma FromDictToDict(s: Session)
    ensures FromDict(ToDict(s)) == Ok(s)
  {
    ToDictStrings(s);
  }

  // ---------------------------------------------------------------------------
  // Pool operations

  /** `create_session`: the new session goes to exactly one list. */
  function CreateSession(pool: Pool, guest: bool, s: Session): (r: Pool)
    ensures r.sessionMap == pool.sessionMap
    ensures guest ==> r.guest == pool.guest + [s] && r.auth == pool.auth
    ensures !guest ==> r.auth == pool.auth + [s] && r.guest == pool.guest
  {
    if guest then pool.(guest := pool.guest + [s]) else pool.(auth := pool.auth + [s])
  }

  /** `get_session`: with no conversation a random member of the chosen list
      (none if it is empty); with one, exactly its binding, whatever `guest`
      says. */
  function GetSession(pool: Pool, conversationId: Option<string>, guest: bool, pick: nat): (r: Option<Session>)
    ensures conversationId.None? ==> (r.Some? <==> |if guest then pool.guest else pool.auth| > 0)
    ensures conversationId.None? && r.Some? ==> r.value in (if guest then pool.guest else pool.auth)
    ensures conversationId.Some? ==>
      (r.Some? <==> JStr(conversationId.value) in pool.sessionMap)
      && (r.Some? ==> r.value == pool.sessionMap[JStr(conversationId.value)])
  {
    match conversationId
    case None =>
      var list := if guest then pool.guest else pool.auth;
      if |list| == 0 then None else Some(list[pick % |list|])
    case Some(cid) =>
      if JStr(cid) in pool.sessionMap then Some(pool.sessionMap[JStr(cid)]) else None
  }

  /** `set_session`: binds (or rebinds) one identifier; the identifier must be
      hashable to be a dict key. */
  function SetSession(pool: Pool, conversationId: Json, s: Session): (r: Result<Pool, Exn>)
    ensures r.Ok? <==> PyHashable(conversationId)
    ensures r.Ok? ==> r.value.auth == pool.auth && r.value.guest == pool.guest
    ensures r.Ok? ==> conversationId in r.value.sessionMap && r.value.sessionMap[conversationId] == s
    ensures r.Ok? ==> forall c :: c != conversationId ==> (c in r.value.sessionMap <==> c in pool.sessionMap)
    ensures r.Ok? ==> forall c :: c != conversationId && c in pool.sessionMap ==> r.value.sessionMap[c] == pool.sessionMap[c]
  {
    if PyHashable(conversationId) then Ok(pool.(sessionMap := pool.sessionMap[conversationId := s]))
    else Err(TypeError)
  }

  /** `list.remove`: the first equal element goes; a missing one raises
      `ValueError`. */
  function RemoveFirst(list: seq<Session>, s: Session): (r: Result<seq<Session>, Exn>)
    ensures r.Ok? <==> s in list
    ensures r.Ok? ==> exists i :: 0 <= i < |list| && list[i] == s && s !in list[..i] && r.value == list[..i] + list[i + 1..]
    ensures r.Ok? ==> multiset(r.value) == multiset(list) - multiset{s}
  {
    match FirstIndex(list, x => x == s)
    case None => Err(ValueError)
    case Some(i) =>
      assert list == list[..i] + [list[i]] + list[i + 1..];
      assert s !in list[..i] by {
        forall j | 0 <= j < i ensures list[..i][j] != s { assert list[..i][j] == list[j]; }
      }
      Ok(list[..i] + list[i + 1..])
  }

  /** `del_session` as written: it asks the session for `is_logged`, a field
      the session model does not have, so it always raises `AttributeError`
      before removing or saving anything. */
  function DelSessionAsWritten(pool: Pool, s: Session): (r: Result<Pool, Exn>)
    ensures r == Err(AttributeError)
  {
    Err(AttributeError)
  }

  /** `del_session` as evidently intended: a session held in the
      authenticated list is removed from it, otherwise it is removed from the
      guest list (`ValueError` if it is in neither). The conversation map
      keeps its bindings. */
  function DelSession(pool: Pool, s: Session): (r: Result<Pool, Exn>)
    ensures r.Ok? <==> s in pool.auth || s in pool.guest
    ensures r.Ok? ==> r.value.sessionMap == pool.sessionMap
    ensures r.Ok? ==> multiset(r.value.auth + r.value.guest) == multiset(pool.auth + pool.guest) - multiset{s}
    ensures s in pool.auth ==> r.Ok? && r.value.guest == pool.guest
    ensures s !in pool.auth ==> r.Ok? ==> r.value.auth == pool.auth
  {
    if s in pool.auth then
      Ok(pool.(auth := RemoveFirst(pool.auth, s).value))
    else
      var guest :- RemoveFirst(pool.guest, s);
      Ok(pool.(guest := guest))
  }

  /** Evicting a held session: the source never succeeds, the intended
      version does. */
  lemma DelSessionDiscrepancy(pool: Pool, s: Session)
    requires s in pool.auth
    ensures DelSessionAsWritten(pool, s).Err?
    ensures DelSession(pool, s).Ok? && multiset(DelSession(pool, s).value.auth) == multiset(pool.auth) - multiset{s}
  {
  }

  // ---------------------------------------------------------------------------
  // Persistence

  /** `save_to_file`: the authenticated sessions, then the guest ones. */
  function SaveToFile(pool: Pool): (r: seq<Json>)
    ensures |r| == |pool.auth| + |pool.guest|
    ensures forall i :: 0 <= i < |pool.auth| ==> r[i] == ToDict(pool.auth[i])
    ensures forall i :: 0 <= i < |pool.guest| ==> r[|pool.auth| + i] == ToDict(pool.guest[i])
  {
    var all := pool.auth + pool.guest;
    seq(|all|, i requires 0 <= i < |all| => ToDict(all[i]))
  }

  predicate IsSessionKey(key: string) {
    key in SessionKeys
  }

  /** One entry of the session file, passed as `create_session(guest=False,
      **entry)`: a mapping is required and its keys must be exactly the six
      parameters (`TypeError`), then the fields are validated. */
  function LoadEntry(entry: Json): (r: Result<Session, Exn>)
    ensures r.Ok? <==> entry.JObj? && (forall k :: 0 <= k < |entry.fields| ==> IsSessionKey(entry.fields[k].key)) && AllStrings(entry.fields)
  {
    if !entry.JObj? then Err(TypeError)
    else if !forall k :: 0 <= k < |entry.fields| ==> IsSessionKey(entry.fields[k].key) then Err(TypeError)
    else if !AllStrings(entry.fields) then Err(TypeError)
    else Ok(Build(entry.fields))
  }

  /** A file entry loads as the session `from_dict` would make of it. */
  lemma LoadEntryIsFromDict(entry: Json)
    requires LoadEntry(entry).Ok?
    ensures LoadEntry(entry) == FromDict(entry)
  {
  }

  /** The loop over entries, each checked by `load` and added as
      authenticated; the first bad entry ends the loop, keeping those before
      it. */
  function LoadEntries(pool: Pool, entries: seq<Json>, load: Json -> Result<Session, Exn>): (r: Pool)
    decreases |entries|
  {
    if |entries| == 0 then pool
    else match load(entries[0])
      case Err(_) => pool
      case Ok(s) => LoadEntries(CreateSession(pool, false, s), entries[1..], load)
  }

  /** `load_from_file`: a missing or unreadable file changes nothing; what is
      read is iterated (only a list yields entries: iterating a dict or a
      string yields strings, which are not mappings). */
  function LoadFromFile(pool: Pool, contents: Option<Json>): (r: Pool)
    ensures contents.None? ==> r == pool
  {
    match contents
    case Some(JArr(entries)) => LoadEntries(pool, entries, LoadEntry)
    case _ => pool
  }

  /** The loaded sessions are exactly the valid entries before the first
      invalid one, appended to the authenticated list. */
  lemma {:induction false} LoadEntriesPrefix(pool: Pool, entries: seq<Json>, load: Json -> Result<Session, Exn>, loaded: seq<Session>)
    requires |loaded| <= |entries|
    requires forall i :: 0 <= i < |loaded| ==> load(entries[i]) == Ok(loaded[i])
    requires |loaded| == |entries| || load(entries[|loaded|]).Err?
    ensures LoadEntries(pool, entries, load) == pool.(auth := pool.auth + loaded)
    decreases |loaded|
  {
    if |loaded| == 0 {
      assert pool.auth + loaded == pool.auth;
    } else {
      var rest := entries[1..];
      assert load(entries[0]) == Ok(loaded[0]);
      forall i | 0 <= i < |loaded| - 1 ensures load(rest[i]) == Ok(loaded[1..][i]) {
        assert rest[i] == entries[i + 1];
      }
      assert |loaded| - 1 == |rest| || rest[|loaded| - 1] == entries[|loaded|];
      LoadEntriesPrefix(CreateSession(pool, false, loaded[0]), rest, load, loaded[1..]);
      assert pool.auth + [loaded[0]] + loaded[1..] == pool.auth + loaded;
    }
  }

  /** Loading never touches the guest list or the conversation map. */
  lemma {:induction false} LoadKeepsOthers(pool: Pool, entries: seq<Json>, load: Json -> Result<Session, Exn>)
    ensures LoadEntries(pool, entries, load).guest == pool.guest
    ensures LoadEntries(pool, entries, load).sessionMap == pool.sessionMap
    ensures pool.auth <= LoadEntries(pool, entries, load).auth
    decreases |entries|
  {
    if |entries| > 0 && load(entries[0]).Ok? {
      LoadKeepsOthers(CreateSession(pool, false, load(entries[0]).value), entries[1..], load);
    }
  }

  /** A saved session is a valid entry of the file. */
  lemma LoadEntryToDict(s: Session)
    ensures LoadEntry(ToDict(s)) == Ok(s)
  {
    FromDictToDict(s);
    var f := ToDict(s).fields;
    forall k | 0 <= k < |f| ensures IsSessionKey(f[k].key) { assert f[k].key == SessionKeys[k]; }
  }

  /** Saving a pool and loading the file into an empty pool gives every
      session back, all as authenticated, guests last. */
  lemma SaveLoadRoundTrip(pool: Pool)
    ensures LoadFromFile(EmptyPool, Some(JArr(SaveToFile(pool)))) == Pool(map[], pool.auth + pool.guest, [])
  {
    var saved := SaveToFile(pool);
    var all := pool.auth + pool.guest;
    forall i | 0 <= i < |saved| ensures LoadEntry(saved[i]) == Ok(all[i]) {
      LoadEntryToDict(all[i]);
    }
    LoadEntriesPrefix(EmptyPool, saved, LoadEntry, all);
  }
}
