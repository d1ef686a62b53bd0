/** UTF-8 encoding of strings and standard Base64 (RFC 4648, section 4, with
    `=` padding) of octet sequences: what Python's `s.encode("utf-8")` and
    `b64encode(...).decode()` compute. */
module Base64 {
  import opened Wrappers
  import opened Bytes

  // ---------------------------------------------------------------------------
  // UTF-8

  /** The octets of one code point (section 3 of RFC 3629). */
  function EncodeChar(c: char): (r: seq<byte>)
    ensures 1 <= |r| <= 4
    ensures c as int < 0x80 <==> |r| == 1
    ensures c as int < 0x80 ==> r == [c as int as byte]
  {
    var n := c as int;
    if n < 0x80 then [n as byte]
    else if n < 0x800 then [(0xC0 + n / 64) as byte, (0x80 + n % 64) as byte]
    else if n < 0x10000 then [(0xE0 + n / 4096) as byte, (0x80 + n / 64 % 64) as byte, (0x80 + n % 64) as byte]
    else [(0xF0 + n / 262144) as byte, (0x80 + n / 4096 % 64) as byte, (0x80 + n / 64 % 64) as byte, (0x80 + n % 64) as byte]
  }

  predicate IsAscii(s: string) {
    forall k :: 0 <= k < |s| ==> s[k] as int < 0x80
  }

  /** `s.encode("utf-8")`. */
  function Utf8(s: string): (r: seq<byte>)
    ensures |s| <= |r| <= 4 * |s|
    ensures IsAscii(s) ==> |r| == |s| && forall k :: 0 <= k < |s| ==> r[k] as int == s[k] as int
  {
    if |s| == 0 then [] else EncodeChar(s[0]) + Utf8(s[1..])
  }

  /** Encoding distributes over concatenation. */
  lemma {:induction false} Utf8Append(a: string, b: string)
    ensures Utf8(a + b) == Utf8(a) + Utf8(b)
  {
    if |a| == 0 {
      assert a + b == b;
    } else {
      assert (a + b)[0] == a[0];
      assert (a + b)[1..] == a[1..] + b;
      Utf8Append(a[1..], b);
      assert EncodeChar(a[0]) + (Utf8(a[1..]) + Utf8(b)) == (EncodeChar(a[0]) + Utf8(a[1..])) + Utf8(b);
    }
  }

  // ---------------------------------------------------------------------------
  // Base64

  const Pad: char := '='

  predicate IsBase64Char(c: char) {
    'A' <= c <= 'Z' || 'a' <= c <= 'z' || '0' <= c <= '9' || c == '+' || c == '/' || c == Pad
  }

  /** The character for a six-bit value. */
  function Digit(v: nat): (c: char)
    requires v < 64
    ensures IsBase64Char(c) && c != Pad
    ensures DigitValue(c) == v
  {
    if v < 26 then ('A' as int + v) as char
    else if v < 52 then ('a' as int + v - 26) as char
    else if v < 62 then ('0' as int + v - 52) as char
    else if v == 62 then '+'
    else '/'
  }

  /** The six-bit value of a non-padding character. */
  function DigitValue(c: char): (v: nat)
    ensures v < 64
  {
    if 'A' <= c <= 'Z' then c as int - 'A' as int
    else if 'a' <= c <= 'z' then c as int - 'a' as int + 26
    else if '0' <= c <= '9' then c as int - '0' as int + 52
    else if c == '+' then 62
    else 63
  }

  /** Three octets as four characters. */
  function Group(a: byte, b: byte, c: byte): (r: string)
    ensures |r| == 4
  {
    [Digit(a as nat / 4), Digit(a as nat % 4 * 16 + b as nat / 16), Digit(b as nat % 16 * 4 + c as nat / 64), Digit(c as nat % 64)]
  }

  /** `b64encode(data).decode()`: full groups of three, then a padded tail. */
  function Encode(data: seq<byte>): (r: string)
    decreases |data|
    ensures |r| % 4 == 0
    ensures forall k :: 0 <= k < |r| ==> IsBase64Char(r[k])
  {
    if |data| == 0 then ""
    else if |data| == 1 then
      [Digit(data[0] as nat / 4), Digit(data[0] as nat % 4 * 16), Pad, Pad]
    else if |data| == 2 then
      [Digit(data[0] as nat / 4), Digit(data[0] as nat % 4 * 16 + data[1] as nat / 16), Digit(data[1] as nat % 16 * 4), Pad]
    else
      Group(data[0], data[1], data[2]) + Encode(data[3..])
  }

  /** Every started group of three octets gives four characters. */
  lemma {:induction false} EncodeLength(data: seq<byte>)
    ensures |Encode(data)| == 4 * ((|data| + 2) / 3)
    decreases |data|
  {
    if |data| > 2 {
      EncodeLength(data[3..]);
      assert (|data| + 2) / 3 == (|data[3..]| + 2) / 3 + 1;
    }
  }

  /** Four characters back to (up to) three octets. */
  function Ungroup(s: string): (r: seq<byte>)
    requires |s| == 4
  {
    var v0, v1, v2, v3 := DigitValue(s[0]), DigitValue(s[1]), DigitValue(s[2]), DigitValue(s[3]);
    var a := (v0 * 4 + v1 / 16) as byte;
    var b := (v1 % 16 * 16 + v2 / 4) as byte;
    var c := (v2 % 4 * 64 + v3) as byte;
    if s[2] == Pad then [a] else if s[3] == Pad then [a, b] else [a, b, c]
  }

  predicate Unpadded(s: string) {
    forall k :: 0 <= k < |s| ==> s[k] != Pad
  }

  /** Base64 decoding of well-formed text: one to three octets per group of
      four characters, exactly three when nothing is padding. */
  function Decode(s: string): (r: seq<byte>)
    requires |s| % 4 == 0
    decreases |s|
    ensures |s| <= 4 * |r| && 4 * |r| <= 3 * |s|
    ensures Unpadded(s) ==> 4 * |r| == 3 * |s|
  {
    if |s| == 0 then [] else Ungroup(s[..4]) + Decode(s[4..])
  }

  lemma UngroupGroup(a: byte, b: byte, c: byte)
    ensures Ungroup(Group(a, b, c)) == [a, b, c]
  {
    var x, y, z := a as nat, b as nat, c as nat;
    assert x == x / 4 * 4 + x % 4;
    assert y == y / 16 * 16 + y % 16;
    assert z == z / 64 * 64 + z % 64;
    assert (x % 4 * 16 + y / 16) / 16 == x % 4;
    assert (x % 4 * 16 + y / 16) % 16 == y / 16;
    assert (y % 16 * 4 + z / 64) / 4 == y % 16;
    assert (y % 16 * 4 + z / 64) % 4 == z / 64;
  }

  lemma UngroupOne(x: byte)
    ensures Ungroup(Encode([x])) == [x]
  {
    var n := x as nat;
    assert n == n / 4 * 4 + n % 4;
    assert (n % 4 * 16) / 16 == n % 4;
  }

  lemma UngroupTwo(x: byte, y: byte)
    ensures Ungroup(Encode([x, y])) == [x, y]
  {
    var n, m := x as nat, y as nat;
    assert n == n / 4 * 4 + n % 4;
    assert m == m / 16 * 16 + m % 16;
    assert (n % 4 * 16 + m / 16) / 16 == n % 4;
    assert (n % 4 * 16 + m / 16) % 16 == m / 16;
    assert (m % 16 * 4) / 4 == m % 16;
  }

  lemma DecodeOne(x: byte)
    ensures Decode(Encode([x])) == [x]
  {
    var s := Encode([x]);
    assert s[..4] == s && s[4..] == [];
    UngroupOne(x);
  }

  lemma DecodeTwo(x: byte, y: byte)
    ensures Decode(Encode([x, y])) == [x, y]
  {
    var s := Encode([x, y]);
    assert s[..4] == s && s[4..] == [];
    UngroupTwo(x, y);
  }

  lemma DecodeShort(data: seq<byte>)
    requires 1 <= |data| <= 2
    ensures Decode(Encode(data)) == data
  {
    if |data| == 1 {
      SplitOne(data);
      DecodeOne(data[0]);
    } else {
      SplitTwo(data);
      DecodeTwo(data[0], data[1]);
    }
  }

  lemma SplitOne<T>(s: seq<T>)
    requires |s| == 1
    ensures s == [s[0]]
  {
  }

  lemma SplitTwo<T>(s: seq<T>)
    requires |s| == 2
    ensures s == [s[0], s[1]]
  {
  }

  lemma DecodeCons(g: string, t: string)
    requires |g| == 4 && |t| % 4 == 0
    ensures Decode(g + t) == Ungroup(g) + Decode(t)
  {
    assert (g + t)[..4] == g && (g + t)[4..] == t;
  }

  lemma DecodeGroup(a: byte, b: byte, c: byte, t: string)
    requires |t| % 4 == 0
    ensures Decode(Group(a, b, c) + t) == [a, b, c] + Decode(t)
  {
    DecodeCons(Group(a, b, c), t);
    UngroupGroup(a, b, c);
  }

  /** Decoding undoes encoding. */
  lemma {:induction false} DecodeEncode(data: seq<byte>)
    ensures Decode(Encode(data)) == data
    decreases |data|
  {
    if |data| == 0 {
    } else if |data| <= 2 {
      DecodeShort(data);
    } else {
      DecodeEncode(data[3..]);
      DecodeEncodeStep(data);
    }
  }

  lemma DecodeEncodeStep(data: seq<byte>)
    requires |data| > 2 && Decode(Encode(data[3..])) == data[3..]
    ensures Decode(Encode(data)) == data
  {
    assert Encode(data) == Group(data[0], data[1], data[2]) + Encode(data[3..]);
    DecodeGroup(data[0], data[1], data[2], Encode(data[3..]));
    SplitThree(data);
  }

  lemma SplitThree<T>(s: seq<T>)
    requires |s| >= 3
    ensures s == [s[0], s[1], s[2]] + s[3..]
  {
  }

  /** Base64 text never contains `-`, so it can sit before a `-` separator. */
  lemma NoDash(data: seq<byte>)
    ensures forall k :: 0 <= k < |Encode(data)| ==> Encode(data)[k] != '-'
  {
  }
}
