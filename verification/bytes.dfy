/** Octets and the big-endian 32-bit length field used by binary framings. */
module Bytes {

  newtype byte = x: int | 0 <= x < 256

  const TwoTo32: nat := 0x1_0000_0000

  /** Node's `buf.writeUInt32BE(n)`: four octets, most significant first. */
  function UInt32BE(n: nat): (r: seq<byte>)
    requires n < TwoTo32
    ensures |r| == 4
  {
    var q1 := n / 256;
    var q2 := q1 / 256;
    var q3 := q2 / 256;
    [q3 as byte, (q2 % 256) as byte, (q1 % 256) as byte, (n % 256) as byte]
  }

  /** Node's `buf.readUInt32BE(at)`. */
  function ReadUInt32BE(data: seq<byte>, at: nat): (r: nat)
    requires at + 4 <= |data|
    ensures r < TwoTo32
  {
    ((data[at] as nat * 256 + data[at + 1] as nat) * 256 + data[at + 2] as nat) * 256 + data[at + 3] as nat
  }

  /** Reading back a written length gives the length. */
  lemma ReadWriteUInt32BE(n: nat)
    requires n < TwoTo32
    ensures ReadUInt32BE(UInt32BE(n), 0) == n
  {
    var q1 := n / 256;
    var q2 := q1 / 256;
    var q3 := q2 / 256;
    assert q2 == q3 * 256 + q2 % 256;
    assert q1 == q2 * 256 + q1 % 256;
    assert n == q1 * 256 + n % 256;
  }

  /** The length field depends only on the four octets it is read from. */
  lemma ReadUInt32BEFrame(data: seq<byte>, at: nat, other: seq<byte>, at2: nat)
    requires at + 4 <= |data| && at2 + 4 <= |other|
    requires data[at..at + 4] == other[at2..at2 + 4]
    ensures ReadUInt32BE(data, at) == ReadUInt32BE(other, at2)
  {
    assert data[at] == data[at..at + 4][0] == other[at2];
    assert data[at + 1] == data[at..at + 4][1] == other[at2 + 1];
    assert data[at + 2] == data[at..at + 4][2] == other[at2 + 2];
    assert data[at + 3] == data[at..at + 4][3] == other[at2 + 3];
  }
}
