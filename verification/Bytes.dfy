/** Bytes, and the big-endian 32-bit numbers several of the repository's streams are framed with. */
module Bytes {

  type byte = b: int | 0 <= b < 256

  function BeU32(b: seq<byte>, off: nat): (v: nat)
    requires off + 4 <= |b|
    ensures v < 0x1_0000_0000
  {
    var (b0: int, b1: int, b2: int, b3: int) := (b[off], b[off + 1], b[off + 2], b[off + 3]);
    ((b0 * 256 + b1) * 256 + b2) * 256 + b3
  }

  function PutU32(v: nat): (s: seq<byte>)
    requires v < 0x1_0000_0000
    ensures |s| == 4
  {
    [v / 256 / 256 / 256, v / 256 / 256 % 256, v / 256 % 256, v % 256]
  }

  lemma U32RoundTrip(v: nat, tail: seq<byte>)
    requires v < 0x1_0000_0000
    ensures BeU32(PutU32(v) + tail, 0) == v
  {
  }

  lemma U32Back(b: seq<byte>)
    requires |b| >= 4
    ensures PutU32(BeU32(b, 0)) == b[..4]
  {
    var s := PutU32(BeU32(b, 0));
    assert s[0] == b[0] && s[1] == b[1] && s[2] == b[2] && s[3] == b[3];
  }

  lemma SameU32(b: seq<byte>, more: seq<byte>)
    requires |b| >= 4
    ensures BeU32(b + more, 0) == BeU32(b, 0)
  {
  }

  /** The number whose base-256 digits these are, the first the most significant. */
  function BigEndian(s: seq<byte>): nat {
    if s == [] then 0 else BigEndian(s[..|s| - 1]) * 256 + s[|s| - 1]
  }

  /** What is read is the number the four bytes spell, whatever is around them; with the round trip, what is put
      spells it. */
  lemma ReadsBigEndian(b: seq<byte>, off: nat)
    requires off + 4 <= |b|
    ensures BeU32(b, off) == BigEndian(b[off..off + 4])
  {
    var s := b[off..off + 4];
    assert s[..3][..2] == s[..2] && s[..2][..1] == s[..1] && s[..1][..0] == [];
    var (b0: int, b1: int, b2: int) := (s[0], s[1], s[2]);
    assert BigEndian(s[..1]) == b0;
    assert BigEndian(s[..2]) == b0 * 256 + b1;
    assert BigEndian(s[..3]) == (b0 * 256 + b1) * 256 + b2;
  }
}
