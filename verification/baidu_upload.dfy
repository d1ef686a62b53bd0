/** The pure parts of the Baidu image upload: the random file token, the
    BCE v1 signature over a canonical request (percent-encoding, sorted
    query pairs and header lines), the 1 MiB chunking of the file and the
    part list that completes the multipart upload. The clock, the random
    octets and HMAC-SHA256 are parameters. */
module BaiduUpload {
  import opened Wrappers
  import opened Text
  import opened Bytes
  import opened Sorting
  import Base64
  import Seqs

  // ---------------------------------------------------------------------------
  // Percent-encoding (Python's `urllib.parse.quote`)

  /** Characters `quote` never escapes: ASCII letters, digits and `_.-~`. */
  predicate IsUnreserved(c: char) {
    'A' <= c <= 'Z' || 'a' <= c <= 'z' || '0' <= c <= '9' || c == '_' || c == '.' || c == '-' || c == '~'
  }

  /** `slash` is the default `safe='/'`; `safe=''` turns it off. */
  predicate IsSafe(c: char, slash: bool) {
    IsUnreserved(c) || (slash && c == '/')
  }

  function HexDigit(v: nat): (c: char)
    requires v < 16
    ensures IsUnreserved(c) && c != '%'
  {
    if v < 10 then (48 + v) as char else (55 + v) as char
  }

  function HexValue(c: char): (v: nat)
    ensures v < 16
  {
    if '0' <= c <= '9' then c as int - 48
    else if 'A' <= c <= 'F' then c as int - 55
    else 0
  }

  /** `%XX` with upper-case hex digits. */
  function Escape(b: byte): (r: string)
    ensures |r| == 3 && r[0] == '%'
    ensures HexValue(r[1]) * 16 + HexValue(r[2]) == b as int
  {
    ['%', HexDigit(b as nat / 16), HexDigit(b as nat % 16)]
  }

  /** Octets in, text out: a safe ASCII octet stands for itself, every
      other octet is escaped. */
  function QuoteOctets(data: seq<byte>, slash: bool): (r: string)
    ensures forall k :: 0 <= k < |r| ==> IsSafe(r[k], slash) || r[k] == '%'
  {
    if |data| == 0 then ""
    else
      var c := data[0] as int as char;
      (if IsSafe(c, slash) then [c] else Escape(data[0])) + QuoteOctets(data[1..], slash)
  }

  /** `quote(s, safe)`: the UTF-8 octets of `s`, percent-encoded. */
  function Quote(s: string, slash: bool): (r: string)
    ensures forall k :: 0 <= k < |r| ==> IsSafe(r[k], slash) || r[k] == '%'
  {
    QuoteOctets(Base64.Utf8(s), slash)
  }

  predicate IsLatin1(s: string) {
    forall k :: 0 <= k < |s| ==> s[k] as int < 256
  }

  /** Percent-decoding to octets (`unquote_to_bytes`), the inverse used to
      state what `quote` preserves. */
  function Unquote(s: string): (r: seq<byte>)
    requires IsLatin1(s)
  {
    if |s| == 0 then []
    else if s[0] == '%' && |s| >= 3 then [(HexValue(s[1]) * 16 + HexValue(s[2])) as byte] + Unquote(s[3..])
    else [s[0] as int as byte] + Unquote(s[1..])
  }

  lemma UnquoteCons(p: string, rest: string, b: byte)
    requires IsLatin1(p) && IsLatin1(rest)
    requires (p == [b as int as char] && b as int as char != '%') || p == Escape(b)
    ensures IsLatin1(p + rest) && Unquote(p + rest) == [b] + Unquote(rest)
  {
    var s := p + rest;
    if p == Escape(b) {
      assert s[0] == '%' && s[1] == p[1] && s[2] == p[2] && s[3..] == rest;
    } else {
      assert s[0] == p[0] && s[1..] == rest;
    }
  }

  /** Decoding undoes the encoding, octet for octet. */
  lemma {:induction false} UnquoteQuoteOctets(data: seq<byte>, slash: bool)
    ensures IsLatin1(QuoteOctets(data, slash))
    ensures Unquote(QuoteOctets(data, slash)) == data
    decreases |data|
  {
    if |data| > 0 {
      UnquoteQuoteOctets(data[1..], slash);
      var p := QuotedOctet(data, slash);
      UnquoteCons(p, QuoteOctets(data[1..], slash), data[0]);
      assert data == [data[0]] + data[1..];
    }
  }

  /** The text the first octet becomes: itself when safe, escaped
      otherwise; either way it decodes back to that octet. */
  lemma QuotedOctet(data: seq<byte>, slash: bool) returns (p: string)
    requires |data| > 0
    ensures QuoteOctets(data, slash) == p + QuoteOctets(data[1..], slash)
    ensures IsLatin1(p)
    ensures (p == [data[0] as int as char] && data[0] as int as char != '%') || p == Escape(data[0])
  {
    var c := data[0] as int as char;
    p := if IsSafe(c, slash) then [c] else Escape(data[0]);
  }

  /** `unquote_to_bytes(quote(s))` is the UTF-8 encoding of `s`: quoting
      loses nothing. */
  lemma QuoteRoundTrip(s: string, slash: bool)
    ensures IsLatin1(Quote(s, slash))
    ensures Unquote(Quote(s, slash)) == Base64.Utf8(s)
  {
    UnquoteQuoteOctets(Base64.Utf8(s), slash);
  }

  predicate AllSafe(s: string, slash: bool) {
    forall k :: 0 <= k < |s| ==> IsSafe(s[k], slash)
  }

  /** Text made only of safe characters is left as it is. */
  lemma {:induction false} QuoteKeepsSafe(s: string, slash: bool)
    requires AllSafe(s, slash)
    ensures Quote(s, slash) == s
    decreases |s|
  {
    if |s| > 0 {
      var b := s[0] as int as byte;
      assert Base64.Utf8(s) == [b] + Base64.Utf8(s[1..]);
      QuoteKeepsSafe(s[1..], slash);
      assert ([b] + Base64.Utf8(s[1..]))[1..] == Base64.Utf8(s[1..]);
      assert s == [s[0]] + s[1..];
    }
  }

  /** Quoted text holds none of the characters that structure the
      canonical request. */
  lemma QuotedHasNoDelimiters(s: string, slash: bool)
    ensures NoneOf(Quote(s, slash), '&') && NoneOf(Quote(s, slash), '=')
    ensures NoneOf(Quote(s, slash), ':') && NoneOf(Quote(s, slash), '\n')
  {
  }

  // ---------------------------------------------------------------------------
  // File token

  const Uppercase: string := "ABCDEFGHIJKLMNOPQRSTUVWXYZ"
  const Lowercase: string := "abcdefghijklmnopqrstuvwxyz"
  const Digits: string := "0123456789"

  /** `generate_nanoid`'s 63-character alphabet. */
  const NanoidAlphabet: string := Uppercase + Lowercase + Digits + "_"

  /** The alphabet's character at a position: letters, digits, then `_`. */
  function NanoChar(v: nat): (c: char)
    requires v < 63
  {
    if v < 26 then ('A' as int + v) as char
    else if v < 52 then ('a' as int + v - 26) as char
    else if v < 62 then ('0' as int + v - 52) as char
    else '_'
  }

  /** A literal run of consecutive characters. */
  lemma RunsAreConsecutive()
    ensures forall i :: 0 <= i < 26 ==> Uppercase[i] == ('A' as int + i) as char
    ensures forall i :: 0 <= i < 26 ==> Lowercase[i] == ('a' as int + i) as char
    ensures forall i :: 0 <= i < 10 ==> Digits[i] == ('0' as int + i) as char
  {
    forall i | 0 <= i < 26 ensures Uppercase[i] == ('A' as int + i) as char {
      if i < 13 { if i < 6 {} else {} } else {}
    }
    forall i | 0 <= i < 26 ensures Lowercase[i] == ('a' as int + i) as char {
      if i < 13 { if i < 6 {} else {} } else {}
    }
    forall i | 0 <= i < 10 ensures Digits[i] == ('0' as int + i) as char {
      if i < 5 {} else {}
    }
  }

  lemma AlphabetIsNanoChars()
    ensures |NanoidAlphabet| == 63
    ensures forall v :: 0 <= v < 63 ==> NanoidAlphabet[v] == NanoChar(v)
  {
    RunsAreConsecutive();
    forall v | 0 <= v < 63 ensures NanoidAlphabet[v] == NanoChar(v) {
      if v < 26 {
        assert NanoidAlphabet[v] == Uppercase[v];
      } else if v < 52 {
        assert NanoidAlphabet[v] == Lowercase[v - 26];
      } else if v < 62 {
        assert NanoidAlphabet[v] == Digits[v - 52];
      }
    }
  }

  /** `''.join(alphabet[byte % 63] for byte in random_bytes)`. */
  function GenerateNanoid(random: seq<byte>): (r: string)
    ensures |r| == |random|
    ensures forall k :: 0 <= k < |r| ==> r[k] == NanoChar(random[k] as int % 63)
  {
    if |random| == 0 then ""
    else
      AlphabetIsNanoChars();
      var rest := GenerateNanoid(random[1..]);
      var r := [NanoidAlphabet[random[0] as int % 63]] + rest;
      assert forall k :: 1 <= k < |r| ==> r[k] == rest[k - 1];
      r
  }

  /** The 63 characters are distinct: a character gives back its position. */
  lemma NanoCharInjective(v: nat, w: nat)
    requires v < 63 && w < 63
    ensures NanoChar(v) == NanoChar(w) <==> v == w
  {
  }

  /** Two nanoids agree exactly when the random octets agree modulo 63;
      so every one of the 63 residues is told apart. */
  lemma NanoidDeterminesResidues(a: seq<byte>, b: seq<byte>)
    requires |a| == |b|
    ensures GenerateNanoid(a) == GenerateNanoid(b) <==> forall k :: 0 <= k < |a| ==> a[k] as int % 63 == b[k] as int % 63
  {
    var x, y := GenerateNanoid(a), GenerateNanoid(b);
    if x == y {
      forall k | 0 <= k < |a| ensures a[k] as int % 63 == b[k] as int % 63 {
        assert x[k] == y[k];
        NanoCharInjective(a[k] as int % 63, b[k] as int % 63);
      }
    }
  }

  lemma NanoidIsSafe(random: seq<byte>, slash: bool)
    ensures AllSafe(GenerateNanoid(random), slash)
  {
  }

  const NanoidLength: nat := 6

  /** `str(int(time()*1000)) + generate_nanoid()`, with the clock reading
      and six random octets as parameters. */
  function FileToken(ms: nat, random: seq<byte>): (r: string)
    requires |random| == NanoidLength
    ensures |r| > NanoidLength
  {
    NatToString(ms) + GenerateNanoid(random)
  }

  /** The token splits back into the timestamp, read as a number, and the
      nanoid; and it is URL-safe, so quoting leaves it as it is. */
  lemma FileTokenParts(ms: nat, random: seq<byte>, slash: bool)
    requires |random| == NanoidLength
    ensures var t := FileToken(ms, random);
            var digits := t[..|t| - NanoidLength];
            AllDigits(digits) && DigitsValue(digits) == ms
            && t[|t| - NanoidLength..] == GenerateNanoid(random)
            && Quote(t, slash) == t
  {
    var d := NatToString(ms);
    var n := GenerateNanoid(random);
    NatToStringRoundTrip(ms);
    DigitsSafe(d, slash);
    NanoidIsSafe(random, slash);
    SafeHalves(d, n, slash);
    QuoteKeepsSafe(d + n, slash);
  }

  /** Decimal digits are safe characters. */
  lemma DigitsSafe(d: string, slash: bool)
    requires AllDigits(d)
    ensures AllSafe(d, slash)
  {
    forall k | 0 <= k < |d| ensures IsSafe(d[k], slash) {
      assert IsDigit(d[k]);
    }
  }

  /** Two safe texts joined are safe, and each can be cut back out. */
  lemma SafeHalves(x: string, y: string, slash: bool)
    requires AllSafe(x, slash) && AllSafe(y, slash)
    ensures AllSafe(x + y, slash)
    ensures (x + y)[..|x|] == x && (x + y)[|x|..] == y
  {
    forall k | 0 <= k < |x + y| ensures IsSafe((x + y)[k], slash) {
      if k < |x| { assert (x + y)[k] == x[k]; } else { assert (x + y)[k] == y[k - |x|]; }
    }
  }

  // ---------------------------------------------------------------------------
  // Canonical request and the Authorization header

  const BosHost: string := "aisearch.bj.bcebos.com"
  const AuthVersion: string := "bce-auth-v1"
  const SignedHeaders: string := "content-type;host;x-bce-date;x-bce-security-token"
  const UploadUserAgent: string := "Mozilla/5.0 (Windows NT 10.0; Win64; x64) AppleWebKit/537.36 (KHTML, like Gecko) Chrome/138.0.0.0 Safari/537.36 Edg/138.0.0.0"

  /** A dict as its items in insertion order. */
  type Pairs = seq<(string, string)>

  /** The four headers that are signed, in insertion order. */
  function SignedHeaderPairs(token: string, date: string): Pairs {
    [("Host", BosHost), ("x-bce-security-token", token), ("x-bce-date", date), ("content-type", "image/jpeg")]
  }

  /** `f"{quote(k)}={quote(v)}"`. */
  function QueryPair(kv: (string, string)): (r: string)
    ensures NoneOf(r, '&') && NoneOf(r, '\n')
  {
    QuotedHasNoDelimiters(kv.0, true);
    QuotedHasNoDelimiters(kv.1, true);
    Quote(kv.0, true) + "=" + Quote(kv.1, true)
  }

  function QueryPairs(params: Pairs): (r: seq<string>)
    ensures |r| == |params|
    ensures forall k :: 0 <= k < |r| ==> r[k] == QueryPair(params[k])
  {
    Seqs.Map(params, QueryPair)
  }

  /** The pairs sorted as strings and joined by `&`. */
  function CanonicalQuery(params: Pairs): (r: string)
    ensures NoneOf(r, '\n')
  {
    var sorted := SortBy(QueryPairs(params), StrLe);
    SortKeepsProperty(QueryPairs(params), StrLe, (p: string) => NoneOf(p, '\n'));
    NoneOfJoin(sorted, "&", '\n');
    Join(sorted, "&")
  }

  /** `f"{quote(k.lower(), safe='')}:{quote(v.strip(), safe='')}"`. */
  function HeaderLine(kv: (string, string)): (r: string)
    ensures NoneOf(r, '\n')
  {
    QuotedHasNoDelimiters(AsciiLower(kv.0), false);
    QuotedHasNoDelimiters(PyStrip(kv.1), false);
    Quote(AsciiLower(kv.0), false) + ":" + Quote(PyStrip(kv.1), false)
  }

  function HeaderLines(headers: Pairs): (r: seq<string>)
    ensures |r| == |headers|
    ensures forall k :: 0 <= k < |r| ==> r[k] == HeaderLine(headers[k])
  {
    Seqs.Map(headers, HeaderLine)
  }

  /** The header lines sorted as strings and joined by newlines. */
  function CanonicalHeaders(headers: Pairs): (r: string)
    ensures |headers| > 0 ==> Split(r, "\n") == SortBy(HeaderLines(headers), StrLe)
  {
    var lines := SortBy(HeaderLines(headers), StrLe);
    if |headers| > 0 then
      SortedLinesOneLine(headers);
      SplitJoin(lines, "\n");
      Join(lines, "\n")
    else Join(lines, "\n")
  }

  /** `METHOD\nURI\nQUERY\nHEADERS`: the four parts joined by newlines. For a
      method without newlines and at least one header, it splits at newlines
      into the upper-cased method, the quoted URI, the query and then each
      sorted header line. */
  function CanonicalRequest(verb: string, uri: string, params: Pairs, headers: Pairs): (r: string)
    ensures NoneOf(verb, '\n') && |headers| > 0 ==>
      Split(r, "\n") == [AsciiUpper(verb), Quote(uri, true), CanonicalQuery(params)] + SortBy(HeaderLines(headers), StrLe)
  {
    var lines := SortBy(HeaderLines(headers), StrLe);
    var fields := [AsciiUpper(verb), Quote(uri, true), CanonicalQuery(params), Join(lines, "\n")];
    if NoneOf(verb, '\n') && |headers| > 0 then
      RequestFieldsOneLine(verb, uri);
      SortedLinesOneLine(headers);
      SplitFourFields(AsciiUpper(verb), Quote(uri, true), CanonicalQuery(params), lines, "\n");
      Join(fields, "\n")
    else Join(fields, "\n")
  }

  /** `bce-auth-v1/{ak}/{date}/{timeout}`. */
  function AuthStringPrefix(ak: string, date: string, timeout: int): string {
    AuthVersion + "/" + ak + "/" + date + "/" + IntToString(timeout)
  }

  /** The hex digest of HMAC-SHA256 under a key (first argument) of a
      message (second argument), both taken as UTF-8. */
  type Hmac = (string, string) -> string

  /** The prefix, the signed-header list and the signature: the canonical
      request signed with a key derived from the secret key and the prefix. */
  function Authorization(verb: string, ak: string, sk: string, token: string, uri: string, params: Pairs,
                         timeout: int, date: string, hmac: Hmac): (r: string)
    ensures var prefix := AuthStringPrefix(ak, date, timeout);
      var sig := hmac(hmac(sk, prefix), CanonicalRequest(verb, uri, params, SignedHeaderPairs(token, date)));
      NoneOf(ak, '/') && NoneOf(date, '/') && NoneOf(sig, '/') ==>
        Split(r, "/") == [AuthVersion, ak, date, IntToString(timeout), SignedHeaders, sig]
  {
    var prefix := AuthStringPrefix(ak, date, timeout);
    var canonical := CanonicalRequest(verb, uri, params, SignedHeaderPairs(token, date));
    var sig := hmac(hmac(sk, prefix), canonical);
    if NoneOf(ak, '/') && NoneOf(date, '/') && NoneOf(sig, '/') then
      AuthorizationSplits(ak, date, timeout, sig);
      prefix + "/" + SignedHeaders + "/" + sig
    else prefix + "/" + SignedHeaders + "/" + sig
  }

  /** Fields free of `/` are read back from the authorization string. */
  lemma AuthorizationSplits(ak: string, date: string, timeout: int, sig: string)
    requires NoneOf(ak, '/') && NoneOf(date, '/') && NoneOf(sig, '/')
    ensures Split(AuthStringPrefix(ak, date, timeout) + "/" + SignedHeaders + "/" + sig, "/")
         == [AuthVersion, ak, date, IntToString(timeout), SignedHeaders, sig]
  {
    IntToStringNoSlash(timeout);
    FixedPartsNoSlash();
    SixFieldsSplit(AuthVersion, ak, date, IntToString(timeout), SignedHeaders, sig);
  }

  /** Six `/`-free fields joined by `/` split back into themselves. */
  lemma SixFieldsSplit(a: string, b: string, c: string, d: string, e: string, f: string)
    requires NoneOf(a, '/') && NoneOf(b, '/') && NoneOf(c, '/')
    requires NoneOf(d, '/') && NoneOf(e, '/') && NoneOf(f, '/')
    ensures Split(a + "/" + b + "/" + c + "/" + d + "/" + e + "/" + f, "/") == [a, b, c, d, e, f]
  {
    var parts := [a, b, c, d, e, f];
    SixFieldsJoined(a, b, c, d, e, f);
    assert forall k :: 0 <= k < |parts| ==> NoneOf(parts[k], "/"[0]);
    SplitJoin(parts, "/");
  }

  /** Six fields side by side with `/` between them are their join. */
  lemma SixFieldsJoined(a: string, b: string, c: string, d: string, e: string, f: string)
    ensures a + "/" + b + "/" + c + "/" + d + "/" + e + "/" + f == Join([a, b, c, d, e, f], "/")
  {
    var parts := [a, b, c, d, e, f];
    assert parts[1..] == [b, c, d, e, f];
    assert parts[1..][1..] == [c, d, e, f];
    assert parts[1..][1..][1..] == [d, e, f];
    assert parts[1..][1..][1..][1..] == [e, f];
    assert [e, f][1..] == [f];
    var j4 := e + "/" + f;
    var j3 := d + "/" + j4;
    var j2 := c + "/" + j3;
    var j1 := b + "/" + j2;
    assert Join([e, f], "/") == j4;
    assert Join([d, e, f], "/") == j3;
    assert Join([c, d, e, f], "/") == j2;
    assert Join([b, c, d, e, f], "/") == j1;
    assert Join(parts, "/") == a + "/" + j1;
  }

  lemma IntToStringNoSlash(n: int)
    ensures NoneOf(IntToString(n), '/')
  {
    if n < 0 {
      NoneOfConcat("-", NatToString(-n), '/');
    }
  }

  lemma FixedPartsNoSlash()
    ensures NoneOf(AuthVersion, '/') && NoneOf(SignedHeaders, '/')
  {
    assert forall k :: 0 <= k < |SignedNames| ==> NoneOf(SignedNames[k], '/');
    SignedNamesJoined();
    NoneOfJoin(SignedNames, ";", '/');
  }

  /** The returned dict: the signed headers, then the six added by
      `headers.update`. `date` is the `%Y-%m-%dT%H:%M:%SZ` rendering of the
      current UTC time. */
  function GenerateAuthorizationHeaders(verb: string, ak: string, sk: string, token: string, uri: string,
                                        params: Pairs, timeout: int, date: string, hmac: Hmac): (r: Pairs)
    ensures |r| == 10
    ensures r[..4] == SignedHeaderPairs(token, date)
    ensures r[4].0 == "Authorization" && StartsWith(r[4].1, AuthStringPrefix(ak, date, timeout) + "/" + SignedHeaders + "/")
    ensures var prefix := AuthStringPrefix(ak, date, timeout);
      r[4].1 == prefix + "/" + SignedHeaders + "/"
                + hmac(hmac(sk, prefix), CanonicalRequest(verb, uri, params, SignedHeaderPairs(token, date)))
    ensures r[5..] == AddedHeaders
  {
    var prefix := AuthStringPrefix(ak, date, timeout);
    var sig := hmac(hmac(sk, prefix), CanonicalRequest(verb, uri, params, SignedHeaderPairs(token, date)));
    AuthorizationValue(prefix + "/" + SignedHeaders + "/", sig);
    UploadHeaders(token, date, Authorization(verb, ak, sk, token, uri, params, timeout, date, hmac))
  }

  /** The authorization string starts with its fixed head. */
  lemma AuthorizationValue(head: string, sig: string)
    ensures StartsWith(head + sig, head)
  {
    assert (head + sig)[..|head|] == head;
  }

  /** The signed headers, `Authorization`, then the fixed ones. */
  function UploadHeaders(token: string, date: string, auth: string): (r: Pairs)
    ensures |r| == 10
    ensures r[..4] == SignedHeaderPairs(token, date)
    ensures r[4] == ("Authorization", auth)
    ensures r[5..] == AddedHeaders
  {
    var r := SignedHeaderPairs(token, date) + [("Authorization", auth)] + AddedHeaders;
    assert r[5..] == AddedHeaders;
    r
  }

  /** The five fixed headers `headers.update` adds after `Authorization`. */
  const AddedHeaders: Pairs := [("Connection", "keep-alive"), ("Origin", "https://chat.baidu.com"),
                                ("Referer", "https://chat.baidu.com/"), ("User-Agent", UploadUserAgent),
                                ("Accept", "*/*")]

  function LowerNames(headers: Pairs): (r: seq<string>)
    ensures |r| == |headers|
    ensures forall k :: 0 <= k < |r| ==> r[k] == AsciiLower(headers[k].0)
  {
    if |headers| == 0 then [] else [AsciiLower(headers[0].0)] + LowerNames(headers[1..])
  }

  predicate NoUpper(s: string) {
    forall k :: 0 <= k < |s| ==> !('A' <= s[k] <= 'Z')
  }

  lemma LowerKeeps(s: string)
    requires NoUpper(s)
    ensures AsciiLower(s) == s
  {
  }

  const SignedNames: seq<string> := ["content-type", "host", "x-bce-date", "x-bce-security-token"]

  lemma SignedNamesSorted()
    ensures Sorted(SignedNames, StrLe)
  {
    var c, h, d, t := "content-type", "host", "x-bce-date", "x-bce-security-token";
    StrLeByHead(c, h);
    StrLeByHead(c, d);
    StrLeByHead(c, t);
    StrLeByHead(h, d);
    StrLeByHead(h, t);
    assert "x-bce-" + "date" == d;
    assert "x-bce-" + "security-token" == t;
    StrLeByHead("date", "security-token");
    StrLeAfterPrefix("x-bce-", "date", "security-token");
    SortedFour(c, h, d, t, StrLe);
  }

  /** Strings of different lengths differ. */
  lemma DistinctByLength(names: seq<string>)
    requires forall i, j :: 0 <= i < j < |names| ==> |names[i]| != |names[j]|
    ensures forall i, j :: 0 <= i < j < |names| ==> names[i] != names[j]
  {
  }

  lemma SignedNamesDistinct()
    ensures forall i, j :: 0 <= i < j < |SignedNames| ==> SignedNames[i] != SignedNames[j]
  {
    assert |SignedNames[0]| == 12 && |SignedNames[1]| == 4 && |SignedNames[2]| == 10 && |SignedNames[3]| == 20;
    DistinctByLength(SignedNames);
  }

  lemma SignedNamesPlain()
    ensures forall k :: 0 <= k < |SignedNames| ==> NoneOf(SignedNames[k], ";"[0])
  {
  }

  lemma SignedNamesJoined()
    ensures Join(SignedNames, ";") == SignedHeaders
  {
  }

  lemma SignedNamesJoin()
    ensures Split(SignedHeaders, ";") == SignedNames
  {
    SignedNamesJoined();
    SignedNamesPlain();
    SplitJoin(SignedNames, ";");
  }

  lemma HostLower()
    ensures AsciiLower("Host") == "host"
  {
  }

  lemma TokenNameLower()
    ensures AsciiLower("x-bce-security-token") == "x-bce-security-token"
  {
    LowerKeeps("x-bce-security-token");
  }

  lemma DateNameLower()
    ensures AsciiLower("x-bce-date") == "x-bce-date"
  {
    LowerKeeps("x-bce-date");
  }

  lemma TypeNameLower()
    ensures AsciiLower("content-type") == "content-type"
  {
    LowerKeeps("content-type");
  }

  /** Each signed header's name, under any lower-casing that agrees with
      ASCII lower-casing on the four names, is in the list. */
  lemma NamesListed(lower: string -> string, token: string, date: string)
    requires lower("Host") == "host" && lower("x-bce-security-token") == "x-bce-security-token"
    requires lower("x-bce-date") == "x-bce-date" && lower("content-type") == "content-type"
    ensures forall k :: 0 <= k < 4 ==> lower(SignedHeaderPairs(token, date)[k].0) in SignedNames
  {
    var pairs := SignedHeaderPairs(token, date);
    assert pairs[0].0 == "Host" && pairs[1].0 == "x-bce-security-token";
    assert pairs[2].0 == "x-bce-date" && pairs[3].0 == "content-type";
    assert SignedNames[1] == "host" && SignedNames[3] == "x-bce-security-token";
    assert SignedNames[2] == "x-bce-date" && SignedNames[0] == "content-type";
  }

  /** The fixed signed-header list names exactly the four signed headers:
      it is their lower-cased names, each once, in sorted order. */
  lemma SignedHeaderNames(token: string, date: string)
    ensures var listed := Split(SignedHeaders, ";");
            var pairs := SignedHeaderPairs(token, date);
            Sorted(listed, StrLe) && |listed| == |pairs|
            && (forall k :: 0 <= k < |pairs| ==> AsciiLower(pairs[k].0) in listed)
            && (forall i, j :: 0 <= i < j < |listed| ==> listed[i] != listed[j])
  {
    SignedNamesJoin();
    SignedNamesSorted();
    SignedNamesDistinct();
    HostLower();
    TokenNameLower();
    DateNameLower();
    TypeNameLower();
    NamesListed(AsciiLower, token, date);
    StrLeOrder();
  }

  /** The canonical request splits at newlines into the upper-cased verb,
      the quoted URI, the query and then each sorted header line: the
      signature covers each of them separately. */
  lemma RequestFieldsOneLine(verb: string, uri: string)
    requires NoneOf(verb, '\n')
    ensures NoneOf(AsciiUpper(verb), '\n') && NoneOf(Quote(uri, true), '\n')
  {
    QuotedHasNoDelimiters(uri, true);
  }

  lemma SortedLinesOneLine(headers: Pairs)
    ensures var lines := SortBy(HeaderLines(headers), StrLe);
      |lines| == |headers| && forall k :: 0 <= k < |lines| ==> NoneOf(lines[k], '\n')
  {
    SortKeepsProperty(HeaderLines(headers), StrLe, (p: string) => NoneOf(p, '\n'));
  }

  /** Three fields and a list of lines, joined by a one-character separator
      none of them holds, split back apart. */
  lemma SplitFourFields(a: string, b: string, c: string, rest: seq<string>, sep: string)
    requires |sep| == 1 && |rest| > 0
    requires NoneOf(a, sep[0]) && NoneOf(b, sep[0]) && NoneOf(c, sep[0])
    requires forall k :: 0 <= k < |rest| ==> NoneOf(rest[k], sep[0])
    ensures Split(Join([a, b, c, Join(rest, sep)], sep), sep) == [a, b, c] + rest
  {
    var parts := [a, b, c] + rest;
    JoinFourFields(a, b, c, rest, sep);
    assert forall k :: 0 <= k < |parts| ==> NoneOf(parts[k], sep[0]) by {
      forall k | 0 <= k < |parts| ensures NoneOf(parts[k], sep[0]) {
        if k >= 3 { assert parts[k] == rest[k - 3]; }
      }
    }
    SplitJoin(parts, sep);
  }

  /** Joining three fields and an already joined list is joining them all. */
  lemma JoinFourFields(a: string, b: string, c: string, rest: seq<string>, sep: string)
    requires |rest| > 0
    ensures Join([a, b, c, Join(rest, sep)], sep) == Join([a, b, c] + rest, sep)
  {
    var parts := [a, b, c] + rest;
    assert parts[1..] == [b, c] + rest;
    assert parts[1..][1..] == [c] + rest;
    assert parts[1..][1..][1..] == rest;
    var tail := Join(rest, sep);
    assert Join(parts[1..][1..], sep) == c + sep + tail;
    assert Join(parts[1..], sep) == b + sep + (c + sep + tail);
    var fields := [a, b, c, tail];
    assert fields[1..] == [b, c, tail] && fields[1..][1..] == [c, tail] && [c, tail][1..] == [tail];
    assert Join([c, tail], sep) == c + sep + tail;
    assert Join([b, c, tail], sep) == b + sep + (c + sep + tail);
    assert Join(fields, sep) == a + sep + (b + sep + (c + sep + tail));
  }

  /** The query splits at `&` into the sorted pairs, and each pair at `=`
      into its quoted key and value. */
  lemma CanonicalQueryParts(params: Pairs)
    requires |params| > 0
    ensures Split(CanonicalQuery(params), "&") == SortBy(QueryPairs(params), StrLe)
    ensures forall k :: 0 <= k < |params| ==> Split(QueryPairs(params)[k], "=") == [Quote(params[k].0, true), Quote(params[k].1, true)]
  {
    var sorted := SortBy(QueryPairs(params), StrLe);
    SortKeepsProperty(QueryPairs(params), StrLe, (p: string) => NoneOf(p, '&'));
    SplitJoin(sorted, "&");
    forall k | 0 <= k < |params| ensures Split(QueryPairs(params)[k], "=") == [Quote(params[k].0, true), Quote(params[k].1, true)] {
      PairSplits(params[k]);
    }
  }

  lemma PairSplits(p: (string, string))
    ensures Split(QueryPair(p), "=") == [Quote(p.0, true), Quote(p.1, true)]
  {
    var key, value := Quote(p.0, true), Quote(p.1, true);
    QuotedHasNoDelimiters(p.0, true);
    QuotedHasNoDelimiters(p.1, true);
    assert Join([key, value], "=") == key + "=" + value;
    SplitJoin([key, value], "=");
  }

  /** Only the set of parameters matters, not their order in the dict: the
      query, and so the signature, comes out the same. */
  lemma ParamOrderIrrelevant(p1: Pairs, p2: Pairs)
    requires multiset(p1) == multiset(p2)
    ensures CanonicalQuery(p1) == CanonicalQuery(p2)
    ensures forall verb, ak, sk, token, uri, timeout, date, hmac ::
              Authorization(verb, ak, sk, token, uri, p1, timeout, date, hmac) == Authorization(verb, ak, sk, token, uri, p2, timeout, date, hmac)
  {
    StrLeOrder();
    SortBySorted(QueryPairs(p1), StrLe);
    SortBySorted(QueryPairs(p2), StrLe);
    Seqs.MapPermute(p1, p2, QueryPair);
    SortedUnique(SortBy(QueryPairs(p1), StrLe), SortBy(QueryPairs(p2), StrLe), StrLe);
  }

  // ---------------------------------------------------------------------------
  // Chunking and the completion part list

  const ChunkSize: nat := 1024 * 1024
  const MaxFileSize: nat := 10 * ChunkSize
  const TooLarge: string := "文件大小不能超过10MB"

  /** Successive reads of up to `ChunkSize` octets until a read comes back
      empty. */
  function Chunks(data: seq<byte>): (r: seq<seq<byte>>)
    decreases |data|
    ensures Seqs.Flatten(r) == data
    ensures forall k :: 0 <= k < |r| ==> 0 < |r[k]| <= ChunkSize
    ensures forall k :: 0 <= k < |r| - 1 ==> |r[k]| == ChunkSize
  {
    if |data| == 0 then []
    else
      var n := if |data| < ChunkSize then |data| else ChunkSize;
      var r := [data[..n]] + Chunks(data[n..]);
      assert r[1..] == Chunks(data[n..]);
      assert data == data[..n] + data[n..];
      r
  }

  /** `chunk_file`: files over 10 MiB are refused (the process exits with
      the message), others are cut into chunks. */
  function ChunkFile(data: seq<byte>): (r: Result<seq<seq<byte>>, string>)
    ensures r.Err? <==> |data| > MaxFileSize
    ensures r.Ok? ==> r.value == Chunks(data)
  {
    if |data| > MaxFileSize then Err(TooLarge) else Ok(Chunks(data))
  }

  /** `n` full chunks' worth of data gives at most `n` chunks. */
  lemma {:induction false} ChunkCount(data: seq<byte>, n: nat)
    requires |data| <= n * ChunkSize
    ensures |Chunks(data)| <= n
    decreases |data|
  {
    if |data| > 0 {
      var m := if |data| < ChunkSize then |data| else ChunkSize;
      ChunkCount(data[m..], n - 1);
    }
  }

  /** An accepted file is uploaded in at most ten parts. */
  lemma AcceptedFileParts(data: seq<byte>)
    requires ChunkFile(data).Ok?
    ensures |ChunkFile(data).value| <= 10
  {
    ChunkCount(data, 10);
  }

  /** One entry of the completion payload. */
  datatype Part = Part(partNumber: nat, partSize: nat, eTag: string)

  /** `[{"partNumber": i+1, "partSize": len(chunk_list[i]), "eTag": etag[i]}
      for i in range(len(etag))]`; indexing the chunks needs no more etags
      than chunks. */
  function CompletionParts(chunks: seq<seq<byte>>, etags: seq<string>): (r: seq<Part>)
    requires |etags| <= |chunks|
    ensures |r| == |etags|
    ensures forall i :: 0 <= i < |r| ==> r[i].partNumber == i + 1 && r[i].eTag == etags[i]
    ensures forall i :: 0 <= i < |r| ==> r[i].partSize == |chunks[i]|
  {
    seq(|etags|, i requires 0 <= i < |etags| => Part(i + 1, |chunks[i]|, etags[i]))
  }

  function TotalSize(parts: seq<Part>): nat {
    if |parts| == 0 then 0 else parts[0].partSize + TotalSize(parts[1..])
  }

  lemma {:induction false} FlattenedSize(chunks: seq<seq<byte>>, parts: seq<Part>)
    requires |parts| == |chunks|
    requires forall i :: 0 <= i < |parts| ==> parts[i].partSize == |chunks[i]|
    ensures TotalSize(parts) == |Seqs.Flatten(chunks)|
    decreases |parts|
  {
    if |parts| > 0 {
      FlattenedSize(chunks[1..], parts[1..]);
    }
  }

  /** With one etag per chunk, the declared part sizes add up to the size
      of the file. */
  lemma PartsCoverFile(data: seq<byte>, etags: seq<string>)
    requires |etags| == |Chunks(data)|
    ensures TotalSize(CompletionParts(Chunks(data), etags)) == |data|
  {
    FlattenedSize(Chunks(data), CompletionParts(Chunks(data), etags));
  }
}
