/** JSON values as both Python (`json.loads`) and JavaScript (`JSON.parse`) see
    them, and the parts of each language's dynamic semantics the modelled code
    relies on: truthiness, `dict.get`, `in`, iteration, `str()`, property access,
    `String()`, `===` and `==` against a number. JSON numbers are integers here. */
module Json {
  import opened Wrappers
  import opened Text

  datatype Json =
    | JNull
    | JBool(b: bool)
    | JNum(n: int)
    | JStr(s: string)
    | JArr(items: seq<Json>)
    | JObj(fields: seq<Field>)

  datatype Field = Field(key: string, value: Json)

  /** The exceptions the modelled code can raise through dynamic typing. */
  datatype Exn = AttributeError | TypeError | KeyError | IndexError | ValueError

  // ---------------------------------------------------------------------------
  // Objects as ordered key/value lists (Python dicts and JS objects keep
  // insertion order; parsed objects carry each key once).

  predicate UniqueKeys(fields: seq<Field>) {
    forall i, j :: 0 <= i < j < |fields| ==> fields[i].key != fields[j].key
  }

  function Lookup(fields: seq<Field>, key: string): (r: Option<Json>)
    ensures r.None? <==> forall i :: 0 <= i < |fields| ==> fields[i].key != key
    ensures r.Some? ==> exists i :: 0 <= i < |fields| && fields[i] == Field(key, r.value)
  {
    if |fields| == 0 then None
    else if fields[0].key == key then Some(fields[0].value)
    else Lookup(fields[1..], key)
  }

  /** With each key held once, a key's value is the one stored with it. */
  lemma LookupUnique(fields: seq<Field>, i: nat)
    requires UniqueKeys(fields) && i < |fields|
    ensures Lookup(fields, fields[i].key) == Some(fields[i].value)
  {
  }

  predicate HasKey(fields: seq<Field>, key: string) {
    Lookup(fields, key).Some?
  }

  /** A key's value is the one stored at its first occurrence. */
  lemma {:induction false} LookupFirst(fields: seq<Field>, i: nat)
    requires i < |fields|
    requires forall j :: 0 <= j < i ==> fields[j].key != fields[i].key
    ensures Lookup(fields, fields[i].key) == Some(fields[i].value)
    decreases i
  {
    if i > 0 {
      assert fields[1..][i - 1] == fields[i];
      forall j | 0 <= j < i - 1 ensures fields[1..][j].key != fields[1..][i - 1].key {
        assert fields[1..][j] == fields[j + 1];
      }
      LookupFirst(fields[1..], i - 1);
    }
  }

  /** A key whose first letter starts no earlier key is found with its own
      value. */
  lemma LookupByInitial(fields: seq<Field>, i: nat)
    requires i < |fields| && |fields[i].key| > 0
    requires forall j :: 0 <= j < i ==> |fields[j].key| > 0 && fields[j].key[0] != fields[i].key[0]
    ensures Lookup(fields, fields[i].key) == Some(fields[i].value)
  {
    LookupFirst(fields, i);
  }

  /** Keys of pairwise different lengths are distinct, so each is found with
      its own value. */
  lemma KeysByLength(fields: seq<Field>)
    requires forall i, j :: 0 <= i < j < |fields| ==> |fields[i].key| != |fields[j].key|
    ensures UniqueKeys(fields)
    ensures forall i :: 0 <= i < |fields| ==> Lookup(fields, fields[i].key) == Some(fields[i].value)
  {
    forall i | 0 <= i < |fields| ensures Lookup(fields, fields[i].key) == Some(fields[i].value) {
      LookupUnique(fields, i);
    }
  }

  function Keys(fields: seq<Field>): (r: seq<string>)
    ensures |r| == |fields|
    ensures forall i :: 0 <= i < |fields| ==> r[i] == fields[i].key
  {
    if |fields| == 0 then [] else [fields[0].key] + Keys(fields[1..])
  }

  /** Python `d[key] = v`, JS `o[key] = v`: an existing key keeps its position
      and gets the new value; a new key goes to the end. */
  function Put(fields: seq<Field>, key: string, v: Json): (r: seq<Field>)
    ensures HasKey(fields, key) ==> |r| == |fields|
    ensures !HasKey(fields, key) ==> r == fields + [Field(key, v)]
    ensures forall i :: 0 <= i < |fields| ==> r[i].key == fields[i].key
    ensures forall i :: 0 <= i < |fields| && fields[i].key != key ==> r[i] == fields[i]
    ensures Lookup(r, key) == Some(v)
  {
    if !HasKey(fields, key) then
      LookupAppendNew(fields, key, v);
      fields + [Field(key, v)]
    else PutExisting(fields, key, v)
  }

  lemma LookupAppendNew(fields: seq<Field>, key: string, v: Json)
    requires !HasKey(fields, key)
    ensures Lookup(fields + [Field(key, v)], key) == Some(v)
  {
    if |fields| > 0 {
      assert (fields + [Field(key, v)])[1..] == fields[1..] + [Field(key, v)];
      LookupAppendNew(fields[1..], key, v);
    }
  }

  function PutExisting(fields: seq<Field>, key: string, v: Json): (r: seq<Field>)
    requires HasKey(fields, key)
    ensures |r| == |fields|
    ensures forall i :: 0 <= i < |fields| ==> r[i].key == fields[i].key
    ensures forall i :: 0 <= i < |fields| && fields[i].key != key ==> r[i] == fields[i]
    ensures Lookup(r, key) == Some(v)
  {
    var head := if fields[0].key == key then Field(key, v) else fields[0];
    var tail := if HasKey(fields[1..], key) then PutExisting(fields[1..], key, v) else fields[1..];
    PutCons(fields, key, v, head, tail);
    [head] + tail
  }

  /** The step of `PutExisting`: a first field replaced when it has the key,
      in front of the rest already updated. */
  lemma PutCons(fields: seq<Field>, key: string, v: Json, head: Field, tail: seq<Field>)
    requires |fields| > 0 && head == (if fields[0].key == key then Field(key, v) else fields[0])
    requires |tail| == |fields| - 1
    requires forall i :: 0 <= i < |tail| ==> tail[i].key == fields[1..][i].key
    requires forall i :: 0 <= i < |tail| && fields[1..][i].key != key ==> tail[i] == fields[1..][i]
    requires head.key == key || Lookup(tail, key) == Some(v)
    ensures |[head] + tail| == |fields|
    ensures forall i :: 0 <= i < |fields| ==> ([head] + tail)[i].key == fields[i].key
    ensures forall i :: 0 <= i < |fields| && fields[i].key != key ==> ([head] + tail)[i] == fields[i]
    ensures Lookup([head] + tail, key) == Some(v)
  {
    assert ([head] + tail)[1..] == tail;
  }

  /** Setting one key leaves every other key's value alone. */
  lemma LookupPutOther(fields: seq<Field>, key: string, v: Json, other: string)
    requires other != key
    ensures Lookup(Put(fields, key, v), other) == Lookup(fields, other)
  {
    var r := Put(fields, key, v);
    if !HasKey(fields, key) {
      LookupAppend(fields, Field(key, v), other);
    } else {
      LookupSameKeys(fields, r, other);
    }
  }

  lemma LookupAppend(fields: seq<Field>, f: Field, other: string)
    requires f.key != other
    ensures Lookup(fields + [f], other) == Lookup(fields, other)
  {
    if |fields| > 0 {
      assert (fields + [f])[1..] == fields[1..] + [f];
      LookupAppend(fields[1..], f, other);
    }
  }

  lemma LookupSameKeys(a: seq<Field>, b: seq<Field>, other: string)
    requires |a| == |b|
    requires forall i :: 0 <= i < |a| ==> b[i].key == a[i].key
    requires forall i :: 0 <= i < |a| && a[i].key == other ==> b[i] == a[i]
    ensures Lookup(b, other) == Lookup(a, other)
  {
    if |a| > 0 {
      LookupSameKeys(a[1..], b[1..], other);
    }
  }

  /** Python `d.pop(key, None)` / JS `delete o[key]`. */
  function Remove(fields: seq<Field>, key: string): (r: seq<Field>)
    ensures Lookup(r, key).None?
    ensures |r| <= |fields|
    ensures forall other :: other != key ==> Lookup(r, other) == Lookup(fields, other)
  {
    if |fields| == 0 then []
    else if fields[0].key == key then Remove(fields[1..], key)
    else [fields[0]] + Remove(fields[1..], key)
  }

  // ---------------------------------------------------------------------------
  // Python semantics

  /** `bool(x)` in Python. */
  predicate PyTruthy(j: Json) {
    match j
    case JNull => false
    case JBool(b) => b
    case JNum(n) => n != 0
    case JStr(s) => |s| > 0
    case JArr(items) => |items| > 0
    case JObj(fields) => |fields| > 0
  }

  /** `x.get(key, default)`: only dicts have `get`. */
  function PyGet(j: Json, key: string, default: Json): (r: Result<Json, Exn>)
    ensures r.Err? <==> !j.JObj?
    ensures j.JObj? && HasKey(j.fields, key) ==> r == Ok(Lookup(j.fields, key).value)
    ensures j.JObj? && !HasKey(j.fields, key) ==> r == Ok(default)
  {
    if j.JObj? then Ok(Lookup(j.fields, key).GetOr(default)) else Err(AttributeError)
  }

  /** `x[key]` with a string key. */
  function PyIndex(j: Json, key: string): (r: Result<Json, Exn>)
    ensures r.Ok? <==> j.JObj? && HasKey(j.fields, key)
  {
    if !j.JObj? then Err(TypeError)
    else match Lookup(j.fields, key)
      case Some(v) => Ok(v)
      case None => Err(KeyError)
  }

  /** Python `needle in x` for a string needle: key of a dict, element of a
      list, substring of a string; anything else raises `TypeError`. */
  function PyContains(j: Json, needle: string): (r: Result<bool, Exn>)
    ensures r.Err? <==> !(j.JObj? || j.JArr? || j.JStr?)
    ensures j.JObj? ==> r == Ok(HasKey(j.fields, needle))
    ensures j.JArr? ==> r == Ok(JStr(needle) in j.items)
  {
    match j
    case JObj(fields) => Ok(HasKey(fields, needle))
    case JArr(items) => Ok(JStr(needle) in items)
    case JStr(s) => Ok(Contains(s, needle))
    case _ => Err(TypeError)
  }

  /** Python `needle in x` for a needle that is not a string: an element of a
      list equal to it; never a key of a dict, whose keys are strings, though
      a list or dict needle is unhashable there; a string or scalar `x` raises
      `TypeError`. */
  function PyContainsValue(j: Json, needle: Json): (r: Result<bool, Exn>)
    requires !needle.JStr?
    ensures r.Err? <==> !(j.JArr? || (j.JObj? && PyHashable(needle)))
    ensures r == Ok(true) ==> j.JArr? && exists k :: 0 <= k < |j.items| && PyEq(j.items[k], needle)
    ensures j.JArr? && (exists k :: 0 <= k < |j.items| && PyEq(j.items[k], needle)) ==> r == Ok(true)
  {
    match j
    case JArr(items) => Ok(exists k :: 0 <= k < |items| && PyEq(items[k], needle))
    case JObj(_) => if PyHashable(needle) then Ok(false) else Err(TypeError)
    case _ => Err(TypeError)
  }

  /** What `for x in j` visits: list elements, dict keys, one-character strings. */
  function PyIter(j: Json): (r: Result<seq<Json>, Exn>)
    ensures r.Ok? <==> (j.JArr? || j.JObj? || j.JStr?)
    ensures j.JArr? ==> r == Ok(j.items)
    ensures j.JObj? ==> |r.value| == |j.fields| && forall i :: 0 <= i < |j.fields| ==> r.value[i] == JStr(j.fields[i].key)
    ensures j.JStr? ==> |r.value| == |j.s| && forall i :: 0 <= i < |j.s| ==> r.value[i] == JStr([j.s[i]])
  {
    match j
    case JArr(items) => Ok(items)
    case JObj(fields) => Ok(seq(|fields|, i requires 0 <= i < |fields| => JStr(fields[i].key)))
    case JStr(s) => Ok(seq(|s|, i requires 0 <= i < |s| => JStr([s[i]])))
    case _ => Err(TypeError)
  }

  /** `isinstance(x, int)`: Python booleans are integers too. */
  predicate PyIsInt(j: Json) {
    j.JNum? || j.JBool?
  }

  function PyIntValue(j: Json): int
    requires PyIsInt(j)
  {
    match j
    case JNum(n) => n
    case JBool(b) => if b then 1 else 0
  }

  /** Python `==` between JSON values: booleans equal the integers 0 and 1,
      dicts compare as mappings, lists element by element. */
  predicate PyEq(a: Json, b: Json)
    decreases a
  {
    match a
    case JNull => b.JNull?
    case JBool(_) => PyIsInt(b) && PyIntValue(a) == PyIntValue(b)
    case JNum(_) => PyIsInt(b) && PyIntValue(a) == PyIntValue(b)
    case JStr(s) => b == JStr(s)
    case JArr(xs) =>
      b.JArr? && |xs| == |b.items| && forall i :: 0 <= i < |xs| ==> PyEq(xs[i], b.items[i])
    case JObj(fs) =>
      b.JObj? && |fs| == |b.fields|
      && (forall i :: 0 <= i < |fs| ==> HasKey(b.fields, fs[i].key) && PyEq(fs[i].value, Lookup(b.fields, fs[i].key).value))
      && (forall i :: 0 <= i < |b.fields| ==> HasKey(fs, b.fields[i].key))
  }

  /** Hashable JSON values (what a Python `set` may hold). */
  predicate PyHashable(j: Json) {
    !j.JArr? && !j.JObj?
  }

  /** Python `repr()` of a value, as `str()` shows the elements of a container.
      String escaping is not modelled. */
  function PyRepr(j: Json): string
    decreases j, 1
  {
    match j
    case JStr(s) => "'" + s + "'"
    case _ => PyStr(j)
  }

  /** Python `str(x)` / f-string interpolation of a JSON value. */
  function PyStr(j: Json): (r: string)
    decreases j, 0
    ensures j.JStr? ==> r == j.s
  {
    match j
    case JNull => "None"
    case JBool(b) => if b then "True" else "False"
    case JNum(n) => IntToString(n)
    case JStr(s) => s
    case JArr(items) => "[" + Join(seq(|items|, i requires 0 <= i < |items| => PyRepr(items[i])), ", ") + "]"
    case JObj(fields) =>
      "{" + Join(seq(|fields|, i requires 0 <= i < |fields| => "'" + fields[i].key + "': " + PyRepr(fields[i].value)), ", ") + "}"
  }

  // ---------------------------------------------------------------------------
  // JavaScript semantics. `None` stands for `undefined`.

  /** JS truthiness (`if (x)`, `x || y`): objects and arrays are always truthy. */
  predicate JsTruthy(o: Option<Json>) {
    match o
    case None => false
    case Some(j) =>
      match j
      case JNull => false
      case JBool(b) => b
      case JNum(n) => n != 0
      case JStr(s) => |s| > 0
      case JArr(_) => true
      case JObj(_) => true
  }

  /** `x.key`: throws on `null`/`undefined`; only objects carry JSON keys. */
  function JsProp(o: Option<Json>, key: string): (r: Result<Option<Json>, Exn>)
    ensures r.Err? <==> (o.None? || o == Some(JNull))
    ensures o.Some? && o.value.JObj? ==> r == Ok(Lookup(o.value.fields, key))
  {
    match o
    case None => Err(TypeError)
    case Some(JNull) => Err(TypeError)
    case Some(JObj(fields)) => Ok(Lookup(fields, key))
    case Some(_) => Ok(None)
  }

  /** `x?.key`: never throws. */
  function JsOpt(o: Option<Json>, key: string): (r: Option<Json>)
    ensures r.Some? ==> o.Some? && o.value.JObj? && Lookup(o.value.fields, key) == r
  {
    match o
    case Some(JObj(fields)) => Lookup(fields, key)
    case _ => None
  }

  /** lodash `_.isObject` / `typeof x === "object"` for a non-null value. */
  predicate JsIsObject(o: Option<Json>) {
    o.Some? && (o.value.JArr? || o.value.JObj?)
  }

  predicate JsIsString(o: Option<Json>) {
    o.Some? && o.value.JStr?
  }

  /** `a === b`. Two parsed arrays or objects are distinct references. */
  predicate JsStrictEq(a: Option<Json>, b: Option<Json>) {
    a == b && (a.None? || !(a.value.JArr? || a.value.JObj?))
  }

  /** `String(x)`; `Array.prototype.join` renders `null`/`undefined` elements as "". */
  function JsToString(o: Option<Json>): (r: string)
    ensures o.Some? && o.value.JStr? ==> r == o.value.s
  {
    match o
    case None => "undefined"
    case Some(j) => JsValueString(j)
  }

  function JsValueString(j: Json): string
    decreases j, 0
  {
    match j
    case JNull => "null"
    case JBool(b) => if b then "true" else "false"
    case JNum(n) => IntToString(n)
    case JStr(s) => s
    case JArr(items) => Join(seq(|items|, i requires 0 <= i < |items| => JsJoinElement(items[i])), ",")
    case JObj(_) => "[object Object]"
  }

  function JsJoinElement(j: Json): string
    decreases j, 1
  {
    if j.JNull? then "" else JsValueString(j)
  }

  /** JS `Array.prototype.join(sep)` over possibly-undefined elements. */
  function JsJoin(items: seq<Option<Json>>, sep: string): string
  {
    Join(seq(|items|, i requires 0 <= i < |items| => if items[i].None? then "" else JsJoinElement(items[i].value)), sep)
  }

  /** The parts' strings one after another, with no separator. */
  function JsConcat(parts: seq<Json>): string {
    if |parts| == 0 then "" else JsJoinElement(parts[0]) + JsConcat(parts[1..])
  }

  lemma {:induction false} JsConcatAppend(a: seq<Json>, b: seq<Json>)
    ensures JsConcat(a + b) == JsConcat(a) + JsConcat(b)
  {
    if |a| == 0 {
      assert a + b == b;
    } else {
      assert (a + b)[0] == a[0];
      assert (a + b)[1..] == a[1..] + b;
      JsConcatAppend(a[1..], b);
    }
  }

  /** Joining with '' puts the parts' strings side by side. */
  lemma {:induction false} JsJoinEmptyIsConcat(parts: seq<Json>)
    ensures JsJoin(seq(|parts|, i requires 0 <= i < |parts| => Some(parts[i])), "") == JsConcat(parts)
  {
    var strs := seq(|parts|, i requires 0 <= i < |parts| => JsJoinElement(parts[i]));
    var items := seq(|parts|, i requires 0 <= i < |parts| => Some(parts[i]));
    assert seq(|items|, i requires 0 <= i < |items| => if items[i].None? then "" else JsJoinElement(items[i].value)) == strs;
    JoinEmptySeparator(parts, strs);
  }

  lemma {:induction false} JoinEmptySeparator(parts: seq<Json>, strs: seq<string>)
    requires |strs| == |parts| && forall i :: 0 <= i < |parts| ==> strs[i] == JsJoinElement(parts[i])
    ensures Join(strs, "") == JsConcat(parts)
  {
    if |parts| == 1 {
      assert JsConcat(parts[1..]) == "";
    } else if |parts| > 1 {
      JoinEmptySeparator(parts[1..], strs[1..]);
      assert Join(strs, "") == strs[0] + "" + Join(strs[1..], "");
    }
  }

  /** The value of `c` as a digit in base `radix` (2, 8 or 16, letters in
      either case), if it is one. */
  function RadixDigit(c: char, radix: nat): (r: Option<nat>)
    ensures r.Some? ==> r.value < radix
  {
    var d: int :=
      if '0' <= c <= '9' then c as int - 48
      else if 'a' <= c <= 'f' then c as int - 87
      else if 'A' <= c <= 'F' then c as int - 55
      else radix;
    if 0 <= d < radix then Some(d) else None
  }

  /** The value of a string of base-`radix` digits; `None` if any character
      is not such a digit. */
  function RadixValue(s: string, radix: nat): (r: Option<nat>)
    ensures r.Some? <==> forall k :: 0 <= k < |s| ==> RadixDigit(s[k], radix).Some?
  {
    if |s| == 0 then Some(0)
    else
      var init := RadixValue(s[..|s| - 1], radix);
      var last := RadixDigit(s[|s| - 1], radix);
      assert forall k :: 0 <= k < |s| - 1 ==> s[..|s| - 1][k] == s[k];
      if init.Some? && last.Some? then Some(init.value * radix + last.value) else None
  }

  /** The base named by the letter after a leading `0`: `x`, `o`, `b` in
      either case. */
  function RadixOf(c: char): Option<nat> {
    if c == 'x' || c == 'X' then Some(16)
    else if c == 'o' || c == 'O' then Some(8)
    else if c == 'b' || c == 'B' then Some(2)
    else None
  }

  /** `Number(s)` for the integer forms once surrounding whitespace is
      gone: the empty string is 0, an optional sign then decimal digits, or an
      unsigned `0x`/`0o`/`0b` prefix then at least one digit of that base;
      `None` is NaN. */
  function TrimmedToNumber(t: string): (r: Option<int>)
    ensures AllDigits(t) && |t| > 0 ==> r == Some(DigitsValue(t))
    ensures |t| > 2 && t[0] == '0' && RadixOf(t[1]).Some? ==> r == RadixValue(t[2..], RadixOf(t[1]).value)
    ensures |t| > 0 && (t[0] == '-' || t[0] == '+') && !AllDigits(t[1..]) ==> r.None?
  {
    if |t| == 0 then Some(0)
    else if |t| > 2 && t[0] == '0' && RadixOf(t[1]).Some? then
      match RadixValue(t[2..], RadixOf(t[1]).value)
      case Some(v) => Some(v)
      case None => None
    else if t[0] == '-' && |t| > 1 && AllDigits(t[1..]) then Some(0 - DigitsValue(t[1..]) as int)
    else if t[0] == '+' && |t| > 1 && AllDigits(t[1..]) then Some(DigitsValue(t[1..]))
    else if AllDigits(t) then Some(DigitsValue(t))
    else None
  }

  /** `Number(s)` for the integer forms; `None` is NaN. */
  function JsStringToNumber(s: string): (r: Option<int>)
    ensures AllDigits(s) && |s| > 0 ==> r == Some(DigitsValue(s))
    ensures r == TrimmedToNumber(JsTrim(s))
  {
    if AllDigits(s) && |s| > 0 then
      assert !JsSpace(s[0]) && !JsSpace(s[|s| - 1]);
      StripIdentity(s, JsSpace);
      TrimmedToNumber(JsTrim(s))
    else TrimmedToNumber(JsTrim(s))
  }

  /** `Number(String(n))` gives `n` back for a natural number. */
  lemma NumberOfDecimal(n: nat)
    ensures JsStringToNumber(NatToString(n)) == Some(n)
  {
    NatToStringRoundTrip(n);
  }

  /** `ToNumber(x)` for any value, `None` being NaN. */
  function JsToNumber(o: Option<Json>): Option<int> {
    match o
    case None => None
    case Some(JNull) => Some(0)
    case Some(JBool(b)) => Some(if b then 1 else 0)
    case Some(JNum(n)) => Some(n)
    case Some(JStr(s)) => JsStringToNumber(s)
    case Some(j) => JsStringToNumber(JsToString(Some(j)))
  }

  /** `x == n` for a number `n` (loose equality). `null` and `undefined` are
      only loosely equal to each other. */
  predicate JsLooseEqNum(o: Option<Json>, n: int) {
    match o
    case None => false
    case Some(JNull) => false
    case _ => JsToNumber(o) == Some(n)
  }

  /** Loose equality agrees with strict equality on numbers, and also accepts the
      decimal string of the number. */
  lemma LooseEqNumCases(n: nat)
    ensures JsLooseEqNum(Some(JNum(n)), n)
    ensures JsLooseEqNum(Some(JStr(NatToString(n))), n)
    ensures !JsLooseEqNum(None, n) && !JsLooseEqNum(Some(JNull), n)
  {
    NatToStringRoundTrip(n);
  }

  /** `for (const x of v)`: arrays yield elements, strings yield characters,
      everything else throws. */
  function JsIter(o: Option<Json>): (r: Result<seq<Json>, Exn>)
    ensures r.Ok? <==> o.Some? && (o.value.JArr? || o.value.JStr?)
  {
    match o
    case Some(JArr(items)) => Ok(items)
    case Some(JStr(s)) => Ok(seq(|s|, i requires 0 <= i < |s| => JStr([s[i]])))
    case _ => Err(TypeError)
  }
}
