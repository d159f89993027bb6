/** Byte strings, 32-byte block hashes and the big-endian 32-bit word
    encoding used when the filter key is built. */
module Bytes {

  type Byte = bv8
  type Bytes = seq<Byte>

  /** Size of a chainhash.Hash, the key of every record in the index bucket. */
  const HashSize: nat := 32

  function Zeros(n: nat): (z: Bytes)
    ensures |z| == n
    ensures forall i :: 0 <= i < n ==> z[i] == 0
  {
    seq(n, _ => 0)
  }

  /** A block hash: exactly HashSize bytes. */
  type Hash = h: Bytes | |h| == HashSize witness Zeros(HashSize)

  /** binary.BigEndian.PutUint32: the most significant byte first; each
      byte is the word shifted and truncated to eight bits. */
  function PutUint32BE(v: bv32): (b: Bytes)
    ensures |b| == 4
    ensures Uint32BE(b) == v
  {
    [ ((v >> 24) & 0xFF) as bv8,
      ((v >> 16) & 0xFF) as bv8,
      ((v >> 8) & 0xFF) as bv8,
      (v & 0xFF) as bv8 ]
  }

  /** binary.BigEndian.Uint32, the reading direction of PutUint32BE. */
  function Uint32BE(b: Bytes): bv32
    requires |b| == 4
  {
    (b[0] as bv32 << 24) | (b[1] as bv32 << 16) | (b[2] as bv32 << 8) | b[3] as bv32
  }

  /** Reading four bytes as a word and writing the word back gives the same bytes. */
  lemma Uint32BERoundTrip(b: Bytes)
    requires |b| == 4
    ensures PutUint32BE(Uint32BE(b)) == b
  {
    ByteOfWord(b[0], b[1], b[2], b[3]);
    assert b == [b[0], b[1], b[2], b[3]];
  }

  lemma ByteOfWord(b0: Byte, b1: Byte, b2: Byte, b3: Byte)
    ensures var w := Uint32BE([b0, b1, b2, b3]);
      && ((w >> 24) & 0xFF) as bv8 == b0
      && ((w >> 16) & 0xFF) as bv8 == b1
      && ((w >> 8) & 0xFF) as bv8 == b2
      && (w & 0xFF) as bv8 == b3
  {
  }

  /** The bytes of a string whose characters are all ASCII, as Go's
      []byte(s) conversion yields them for such a string. */
  predicate IsAscii(s: string) {
    forall i :: 0 <= i < |s| ==> s[i] as int < 0x80
  }

  function Ascii(s: string): (b: Bytes)
    requires IsAscii(s)
    ensures |b| == |s|
    ensures forall i :: 0 <= i < |s| ==> b[i] as int == s[i] as int
  {
    seq(|s|, i requires 0 <= i < |s| => s[i] as int as bv8)
  }
}
