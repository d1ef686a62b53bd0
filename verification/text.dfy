/** String operations shared by the Python and TypeScript code being modelled:
    substring search, `split`/`join` on a non-empty separator, whitespace
    stripping with each language's whitespace set, ASCII case folding and
    decimal rendering of integers. Strings are sequences of code points. */
module Text {
  import opened Wrappers

  predicate StartsWith(s: string, p: string) {
    |p| <= |s| && s[..|p|] == p
  }

  predicate EndsWith(s: string, p: string) {
    |p| <= |s| && s[|s| - |p|..] == p
  }

  /** A prefix stays a prefix when text is appended; the appended text ends the result. */
  lemma AppendKeepsPrefix(s: string, p: string, t: string)
    requires StartsWith(s, p)
    ensures StartsWith(s + t, p) && EndsWith(s + t, t)
  {
    assert (s + t)[..|p|] == s[..|p|];
    assert (s + t)[|s + t| - |t|..] == t;
  }

  /** `sub` occurs in `s` starting at index `i`. */
  predicate OccursAt(s: string, sub: string, i: int) {
    0 <= i && i + |sub| <= |s| && s[i..i + |sub|] == sub
  }

  /** The first index at or after `i` where `sub` occurs. */
  function IndexFrom(s: string, sub: string, i: nat): (r: Option<nat>)
    requires i <= |s|
    decreases |s| - i
    ensures r.Some? ==> i <= r.value && OccursAt(s, sub, r.value)
    ensures r.Some? ==> forall j :: i <= j < r.value ==> !OccursAt(s, sub, j)
    ensures r.None? ==> forall j :: i <= j ==> !OccursAt(s, sub, j)
  {
    if OccursAt(s, sub, i) then Some(i)
    else if i == |s| then None
    else IndexFrom(s, sub, i + 1)
  }

  /** Python `str.find` / JS `indexOf`, with `None` for "not found". */
  function IndexOf(s: string, sub: string): (r: Option<nat>)
    ensures r.Some? ==> OccursAt(s, sub, r.value)
    ensures r.Some? ==> forall j :: 0 <= j < r.value ==> !OccursAt(s, sub, j)
    ensures r.None? ==> forall j :: !OccursAt(s, sub, j)
  {
    IndexFrom(s, sub, 0)
  }

  /** An occurrence with none before it is the one `IndexOf` finds. */
  lemma IndexOfFirst(s: string, sub: string, i: nat)
    requires OccursAt(s, sub, i)
    requires forall j :: 0 <= j < i ==> !OccursAt(s, sub, j)
    ensures IndexOf(s, sub) == Some(i)
  {
  }

  /** Appending text does not move the first occurrence found in the prefix. */
  lemma IndexOfAppend(s: string, t: string, sub: string)
    requires IndexOf(s, sub).Some?
    ensures IndexOf(s + t, sub) == IndexOf(s, sub)
  {
    var i := IndexOf(s, sub).value;
    assert (s + t)[i..i + |sub|] == s[i..i + |sub|];
    forall j | 0 <= j < i ensures !OccursAt(s + t, sub, j) {
      if OccursAt(s + t, sub, j) {
        assert (s + t)[j..j + |sub|] == s[j..j + |sub|];
        assert OccursAt(s, sub, j);
      }
    }
    IndexOfFirst(s + t, sub, i);
  }

  /** Python `sub in s`, JS `s.includes(sub)`. */
  predicate Contains(s: string, sub: string) {
    IndexOf(s, sub).Some?
  }

  lemma ContainsAt(s: string, sub: string, i: int)
    requires OccursAt(s, sub, i)
    ensures Contains(s, sub)
  {
  }

  /** A substring found in a suffix (or any slice) is found in the whole string. */
  lemma ContainsSlice(s: string, lo: nat, hi: nat, sub: string)
    requires lo <= hi <= |s|
    requires Contains(s[lo..hi], sub)
    ensures Contains(s, sub)
  {
    var j := IndexOf(s[lo..hi], sub).value;
    assert s[lo..hi][j..j + |sub|] == s[lo + j..lo + j + |sub|];
    ContainsAt(s, sub, lo + j);
  }

  function Join(parts: seq<string>, sep: string): (r: string)
  {
    if |parts| == 0 then ""
    else if |parts| == 1 then parts[0]
    else parts[0] + sep + Join(parts[1..], sep)
  }

  /** Python `s.split(sep)` / JS `s.split(sep)` for a non-empty separator:
      cut at every occurrence, scanning left to right. */
  function Split(s: string, sep: string): (r: seq<string>)
    requires |sep| > 0
    decreases |s|
    ensures |r| >= 1
    ensures Join(r, sep) == s
    ensures forall k :: 0 <= k < |r| ==> !Contains(r[k], sep)
  {
    match IndexOf(s, sep)
    case None => [s]
    case Some(i) =>
      var head := s[..i];
      var rest := Split(s[i + |sep|..], sep);
      assert s == head + sep + s[i + |sep|..];
      NoEarlierOccurrence(s, sep, i);
      assert ([head] + rest)[1..] == rest;
      [head] + rest
  }

  /** A separator whose first character does not occur in `a` is first found
      right after `a`. */
  lemma IndexOfAfter(a: string, sep: string, b: string)
    requires |sep| > 0 && NoneOf(a, sep[0])
    ensures IndexOf(a + sep + b, sep) == Some(|a|)
  {
    var s := a + sep + b;
    assert s[|a|..|a| + |sep|] == sep;
    forall j | 0 <= j < |a| ensures !OccursAt(s, sep, j) {
      assert s[j] == a[j];
    }
    IndexOfFirst(s, sep, |a|);
  }

  /** Splitting peels off the text before the first separator. */
  lemma SplitCons(a: string, sep: string, b: string)
    requires |sep| > 0 && IndexOf(a + sep + b, sep) == Some(|a|)
    ensures Split(a + sep + b, sep) == [a] + Split(b, sep)
  {
    var s := a + sep + b;
    assert s[..|a|] == a;
    assert s[|a| + |sep|..] == b;
  }

  predicate NoneOf(s: string, c: char) {
    forall k :: 0 <= k < |s| ==> s[k] != c
  }

  lemma NoneOfConcat(a: string, b: string, c: char)
    requires NoneOf(a, c) && NoneOf(b, c)
    ensures NoneOf(a + b, c)
  {
    forall k | 0 <= k < |a + b| ensures (a + b)[k] != c {
      if k >= |a| { assert (a + b)[k] == b[k - |a|]; }
    }
  }

  /** A join avoids a character its parts and separator avoid. */
  lemma {:induction false} NoneOfJoin(parts: seq<string>, sep: string, c: char)
    requires NoneOf(sep, c) && forall k :: 0 <= k < |parts| ==> NoneOf(parts[k], c)
    ensures NoneOf(Join(parts, sep), c)
    decreases |parts|
  {
    if |parts| > 1 {
      NoneOfJoin(parts[1..], sep, c);
      NoneOfConcat(parts[0], sep, c);
      NoneOfConcat(parts[0] + sep, Join(parts[1..], sep), c);
    }
  }

  /** The last part of a join follows the last separator. */
  lemma {:induction false} JoinLast(parts: seq<string>, sep: string)
    requires |parts| >= 2
    ensures Join(parts, sep) == Join(parts[..|parts| - 1], sep) + sep + parts[|parts| - 1]
    decreases |parts|
  {
    if |parts| > 2 {
      JoinLast(parts[1..], sep);
      assert parts[1..][..|parts| - 2] == parts[..|parts| - 1][1..];
    }
  }

  /** Splitting undoes joining when no part holds the separator's first
      character. */
  lemma {:induction false} SplitJoin(parts: seq<string>, sep: string)
    requires |sep| > 0 && |parts| >= 1
    requires forall k :: 0 <= k < |parts| ==> NoneOf(parts[k], sep[0])
    ensures Split(Join(parts, sep), sep) == parts
    decreases |parts|
  {
    var p := parts[0];
    if |parts| == 1 {
      forall j | 0 <= j && j + |sep| <= |p| ensures !OccursAt(p, sep, j) {
        assert p[j..j + |sep|][0] == p[j];
      }
    } else {
      IndexOfAfter(p, sep, Join(parts[1..], sep));
      SplitCons(p, sep, Join(parts[1..], sep));
      SplitJoin(parts[1..], sep);
    }
  }

  /** The prefix before the first occurrence of `sub` does not contain `sub`. */
  lemma NoEarlierOccurrence(s: string, sub: string, i: nat)
    requires |sub| > 0 && IndexOf(s, sub) == Some(i)
    ensures !Contains(s[..i], sub)
  {
    if Contains(s[..i], sub) {
      var j := IndexOf(s[..i], sub).value;
      assert j < i;
      assert s[..i][j..j + |sub|] == s[j..j + |sub|];
      assert OccursAt(s, sub, j);
    }
  }

  /** JS `s.replace(old, new)` with a string pattern: only the first occurrence. */
  function ReplaceFirst(s: string, pat: string, rep: string): (r: string)
    ensures !Contains(s, pat) ==> r == s
  {
    match IndexOf(s, pat)
    case None => s
    case Some(i) => s[..i] + rep + s[i + |pat|..]
  }

  /** Characters Python's `str.isspace()` accepts (what `strip()` removes). */
  predicate PySpace(c: char) {
    c == ' ' || ('\t' <= c <= '\r') || ('\U{1C}' <= c <= '\U{1F}') || c == '\U{85}' || c == '\U{A0}'
    || c == '\U{1680}' || ('\U{2000}' <= c <= '\U{200A}') || c == '\U{2028}' || c == '\U{2029}'
    || c == '\U{202F}' || c == '\U{205F}' || c == '\U{3000}'
  }

  /** Characters JavaScript's `String.prototype.trim` removes. */
  predicate JsSpace(c: char) {
    c == ' ' || ('\t' <= c <= '\r') || c == '\U{A0}' || c == '\U{1680}'
    || ('\U{2000}' <= c <= '\U{200A}') || c == '\U{2028}' || c == '\U{2029}'
    || c == '\U{202F}' || c == '\U{205F}' || c == '\U{3000}' || c == '\U{FEFF}'
  }

  function LStrip(s: string, space: char -> bool): (r: string)
    ensures |r| <= |s| && r == s[|s| - |r|..]
    ensures forall k :: 0 <= k < |s| - |r| ==> space(s[k])
    ensures |r| > 0 ==> !space(r[0])
  {
    if |s| > 0 && space(s[0]) then LStrip(s[1..], space) else s
  }

  function RStrip(s: string, space: char -> bool): (r: string)
    ensures |r| <= |s| && r == s[..|r|]
    ensures forall k :: |r| <= k < |s| ==> space(s[k])
    ensures |r| > 0 ==> !space(r[|r| - 1])
  {
    if |s| > 0 && space(s[|s| - 1]) then RStrip(s[..|s| - 1], space) else s
  }

  /** Python `s.strip()`. */
  function PyStrip(s: string): string {
    RStrip(LStrip(s, PySpace), PySpace)
  }

  /** JS `s.trim()`. */
  function JsTrim(s: string): string {
    RStrip(LStrip(s, JsSpace), JsSpace)
  }

  /** A string with no surrounding whitespace strips to itself. */
  lemma StripIdentity(s: string, space: char -> bool)
    requires |s| > 0 ==> !space(s[0]) && !space(s[|s| - 1])
    ensures RStrip(LStrip(s, space), space) == s
  {
  }

  /** Python `str.lower()` restricted to ASCII letters. */
  function AsciiLower(s: string): (r: string)
    ensures |r| == |s|
    ensures forall k :: 0 <= k < |s| ==> ('A' <= s[k] <= 'Z' ==> r[k] == s[k] + 32 as char) && (!('A' <= s[k] <= 'Z') ==> r[k] == s[k])
  {
    if |s| == 0 then ""
    else [if 'A' <= s[0] <= 'Z' then (s[0] as int + 32) as char else s[0]] + AsciiLower(s[1..])
  }

  /** `s.upper()` restricted to ASCII letters. */
  function AsciiUpper(s: string): (r: string)
    ensures |r| == |s|
    ensures forall k :: 0 <= k < |s| ==> ('a' <= s[k] <= 'z' ==> r[k] as int == s[k] as int - 32) && (!('a' <= s[k] <= 'z') ==> r[k] == s[k])
  {
    if |s| == 0 then ""
    else [if 'a' <= s[0] <= 'z' then (s[0] as int - 32) as char else s[0]] + AsciiUpper(s[1..])
  }

  predicate IsDigit(c: char) {
    '0' <= c <= '9'
  }

  predicate AllDigits(s: string) {
    forall k :: 0 <= k < |s| ==> IsDigit(s[k])
  }

  function DigitChar(d: nat): char
    requires d < 10
  {
    (48 + d) as char
  }

  /** Decimal rendering of a natural number (Python `str(n)`, JS `String(n)`). */
  function NatToString(n: nat): (r: string)
    ensures |r| >= 1 && AllDigits(r)
    ensures n > 0 ==> r[0] != '0'
  {
    if n < 10 then [DigitChar(n)] else NatToString(n / 10) + [DigitChar(n % 10)]
  }

  function IntToString(n: int): (r: string)
    ensures |r| >= 1
  {
    if n < 0 then "-" + NatToString(-n) else NatToString(n)
  }

  /** The value of a string of decimal digits (Python `int(s)` on such a string). */
  function DigitsValue(s: string): (r: nat)
    requires AllDigits(s)
  {
    if |s| == 0 then 0 else DigitsValue(s[..|s| - 1]) * 10 + (s[|s| - 1] as int - 48)
  }

  /** Decimal rendering is inverted by reading the digits back. */
  lemma {:induction false} NatToStringRoundTrip(n: nat)
    ensures DigitsValue(NatToString(n)) == n
  {
    if n >= 10 {
      var prefix := NatToString(n / 10);
      var r := prefix + [DigitChar(n % 10)];
      assert r[..|r| - 1] == prefix;
      NatToStringRoundTrip(n / 10);
    }
  }
}
