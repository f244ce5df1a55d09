/**
 PNG chunks: length, type, data and the CRC of type and data; and what that CRC detects.
 */
module PngChunk {

  import opened Bytes
  import opened Crc
  import opened Options

  // ---------------------------------------------------------------- what the CRC tells apart

  lemma StepIsInjective(x: bv32, y: bv32)
    ensures Step(x) == Step(y) ==> x == y
  {
  }

  lemma {:induction false} StepsAreInjective(x: bv32, y: bv32, n: nat)
    ensures Steps(x, n) == Steps(y, n) ==> x == y
    decreases n
  {
    hide Step;
    if n > 0 {
      StepIsInjective(Steps(x, n - 1), Steps(y, n - 1));
      StepsAreInjective(x, y, n - 1);
    }
  }

  lemma AddIsInjective(c: bv32, d: bv32, a: bv8, b: bv8)
    ensures Add(c, a as bv32) == Add(c, b as bv32) ==> a == b
    ensures Add(c, a as bv32) == Add(d, a as bv32) ==> c == d
  {
  }

  lemma DivideByteSteps(c: bv32, b: bv8)
    ensures DivideByte(c, b) == Steps(Add(c, b as bv32), 8)
  {
    hide Add, DivideBits, Left, Steps;
    BitsInTurn(c, b, 8);
    NothingLeft(DivideBits(c, b, 8), b);
  }

  /** From one register, different bytes lead apart; from different registers, one byte keeps them apart. */
  lemma BytesLeadApart(c: bv32, d: bv32, a: bv8, b: bv8)
    ensures a != b ==> DivideByte(c, a) != DivideByte(c, b)
    ensures c != d ==> DivideByte(c, a) != DivideByte(d, a)
  {
    hide DivideByte, Steps, Add;
    DivideByteSteps(c, a);
    DivideByteSteps(c, b);
    DivideByteSteps(d, a);
    StepsAreInjective(Add(c, a as bv32), Add(c, b as bv32), 8);
    StepsAreInjective(Add(c, a as bv32), Add(d, a as bv32), 8);
    AddIsInjective(c, d, a, b);
  }

  /** Messages that differ in one byte, and in no other. */
  ghost predicate DifferAt(m: seq<bv8>, n: seq<bv8>, k: nat) {
    |m| == |n| && k < |m| && m[k] != n[k] && forall i | 0 <= i < |m| && i != k :: m[i] == n[i]
  }

  lemma {:induction false} OneByteShows(c: bv32, m: seq<bv8>, n: seq<bv8>, k: nat)
    requires DifferAt(m, n, k)
    ensures Divide(c, m) != Divide(c, n)
    decreases |m|
  {
    hide DivideByte;
    var last := |m| - 1;
    if k == last {
      assert m[..last] == n[..last];
      BytesLeadApart(Divide(c, m[..last]), c, m[last], n[last]);
    } else {
      OneByteShows(c, m[..last], n[..last], k);
      BytesLeadApart(Divide(c, m[..last]), Divide(c, n[..last]), m[last], m[last]);
    }
  }

  lemma ComplementIsInjective(c: bv32, d: bv32)
    ensures c ^ ALL_ONES == d ^ ALL_ONES ==> c == d
  {
  }

  /** A change of one byte, to any value, changes the CRC. */
  lemma OneByteChangesTheCrc(m: seq<bv8>, n: seq<bv8>, k: nat)
    requires DifferAt(m, n, k)
    ensures Crc32(m) != Crc32(n)
  {
    hide Divide;
    OneByteShows(ALL_ONES, m, n, k);
    ComplementIsInjective(Divide(ALL_ONES, m), Divide(ALL_ONES, n));
  }

  // ---------------------------------------------------------------- chunks

  function Bits(b: byte): bv8 {
    b as bv8
  }

  function AsBits(s: seq<byte>): (m: seq<bv8>)
    ensures |m| == |s|
  {
    seq(|s|, i requires 0 <= i < |s| => Bits(s[i]))
  }

  function ByteOf(b: bv8): byte {
    b as int
  }

  function CrcBytes(c: bv32): (s: seq<byte>)
    ensures |s| == 4
  {
    [ByteOf(((c >> 24) & 0xff) as bv8), ByteOf(((c >> 16) & 0xff) as bv8), ByteOf(((c >> 8) & 0xff) as bv8), ByteOf((c & 0xff) as bv8)]
  }

  predicate Fits(kind: seq<byte>, data: seq<byte>) {
    |kind| == 4 && |data| < 0x1_0000_0000
  }

  function Chunk(kind: seq<byte>, data: seq<byte>): seq<byte>
    requires Fits(kind, data)
  {
    PutU32(|data|) + (kind + data) + CrcBytes(Crc32(AsBits(kind + data)))
  }

  datatype Read = Read(kind: seq<byte>, data: seq<byte>, rest: seq<byte>)

  /** A reader by the standard: the length counts the data, and the CRC is over type and data. */
  function ReadChunk(s: seq<byte>): Option<Read> {
    if |s| < 12 || |s| < 12 + BeU32(s, 0) then None
    else
      var n := BeU32(s, 0);
      var body := s[4..8 + n];
      if s[8 + n..12 + n] != CrcBytes(Crc32(AsBits(body))) then None
      else Some(Read(body[..4], body[4..], s[12 + n..]))
  }

  /** A chunk is read back, and what follows it is left. */
  lemma ChunkRoundTrip(kind: seq<byte>, data: seq<byte>, tail: seq<byte>)
    requires Fits(kind, data)
    ensures ReadChunk(Chunk(kind, data) + tail) == Some(Read(kind, data, tail))
  {
    hide Crc32, CrcBytes, AsBits, BeU32, PutU32;
    var s, n := Chunk(kind, data) + tail, |data|;
    var crc := CrcBytes(Crc32(AsBits(kind + data)));
    assert s == PutU32(n) + (kind + data + crc + tail);
    U32RoundTrip(n, kind + data + crc + tail);
    assert s[4..8 + n] == kind + data;
    assert s[8 + n..12 + n] == crc && s[12 + n..] == tail;
    assert (kind + data)[..4] == kind && (kind + data)[4..] == data;
  }

  lemma ByteOfIsInjective(a: bv8, b: bv8)
    ensures ByteOf(a) == ByteOf(b) ==> a == b
  {
  }

  lemma FourBytesAreAll(c: bv32, d: bv32)
    requires ((c >> 24) & 0xff) as bv8 == ((d >> 24) & 0xff) as bv8
    requires ((c >> 16) & 0xff) as bv8 == ((d >> 16) & 0xff) as bv8
    requires ((c >> 8) & 0xff) as bv8 == ((d >> 8) & 0xff) as bv8 && (c & 0xff) as bv8 == (d & 0xff) as bv8
    ensures c == d
  {
  }

  lemma CrcBytesAreInjective(c: bv32, d: bv32)
    ensures CrcBytes(c) == CrcBytes(d) ==> c == d
  {
    hide ByteOf;
    ByteOfIsInjective(((c >> 24) & 0xff) as bv8, ((d >> 24) & 0xff) as bv8);
    ByteOfIsInjective(((c >> 16) & 0xff) as bv8, ((d >> 16) & 0xff) as bv8);
    ByteOfIsInjective(((c >> 8) & 0xff) as bv8, ((d >> 8) & 0xff) as bv8);
    ByteOfIsInjective((c & 0xff) as bv8, (d & 0xff) as bv8);
    if CrcBytes(c) == CrcBytes(d) {
      assert CrcBytes(c)[0] == CrcBytes(d)[0] && CrcBytes(c)[1] == CrcBytes(d)[1];
      assert CrcBytes(c)[2] == CrcBytes(d)[2] && CrcBytes(c)[3] == CrcBytes(d)[3];
      FourBytesAreAll(c, d);
    }
  }

  lemma OneMore(x: bv8)
    requires x != 0xff
    ensures ByteOf(x) < 255 && ByteOf(x + 1) == ByteOf(x) + 1
  {
  }

  lemma ByteAndBack(x: bv8)
    ensures Bits(ByteOf(x)) == x
  {
  }

  lemma NoneBefore(x: bv8)
    ensures ByteOf(x) == 0 <==> x == 0
    ensures ByteOf(x) == 255 <==> x == 0xff
  {
  }

  /** Every byte is one of the bit patterns, counted up to. */
  lemma {:induction false} BitsAreTheBytes(a: byte)
    ensures ByteOf(Bits(a)) == a
    decreases a
  {
    hide Bits, ByteOf;
    if a == 0 {
      NoneBefore(0);
      ByteAndBack(0);
    } else {
      BitsAreTheBytes(a - 1);
      var x := Bits(a - 1);
      NoneBefore(x);
      OneMore(x);
      ByteAndBack(x + 1);
    }
  }

  /** Different bytes have different bits. */
  lemma BitsTellBytesApart(a: byte, b: byte)
    ensures Bits(a) == Bits(b) ==> a == b
  {
    hide Bits, ByteOf;
    BitsAreTheBytes(a);
    BitsAreTheBytes(b);
  }

  /** A chunk with one byte of its type or data changed is refused. */
  lemma OneByteOfDamageIsRefused(kind: seq<byte>, data: seq<byte>, tail: seq<byte>, k: nat, b: byte)
    requires Fits(kind, data) && k < 4 + |data| && b != (kind + data)[k]
    ensures ReadChunk((Chunk(kind, data) + tail)[4 + k := b]).None?
  {
    hide Crc32, CrcBytes, BeU32, PutU32;
    var s, n := Chunk(kind, data) + tail, |data|;
    var body := kind + data;
    var crc := CrcBytes(Crc32(AsBits(body)));
    var damaged := body[k := b];
    var t := s[4 + k := b];
    assert s == PutU32(n) + (body + crc + tail);
    assert t == PutU32(n) + (damaged + crc + tail);
    U32RoundTrip(n, damaged + crc + tail);
    assert t[4..8 + n] == damaged && t[8 + n..12 + n] == crc;
    BitsTellBytesApart(b, body[k]);
    assert DifferAt(AsBits(body), AsBits(damaged), k);
    OneByteChangesTheCrc(AsBits(body), AsBits(damaged), k);
    CrcBytesAreInjective(Crc32(AsBits(body)), Crc32(AsBits(damaged)));
  }

  // ---------------------------------------------------------------- a chunk of the standard

  /** Eight steps, one by one. */
  lemma EightSteps(c: bv32)
    ensures Steps(c, 8) == Step(Step(Step(Step(Step(Step(Step(Step(c))))))))
  {
    hide Step;
    assert Steps(c, 1) == Step(c);
    assert Steps(c, 2) == Step(Steps(c, 1));
    assert Steps(c, 3) == Step(Steps(c, 2));
    assert Steps(c, 4) == Step(Steps(c, 3));
    assert Steps(c, 5) == Step(Steps(c, 4));
    assert Steps(c, 6) == Step(Steps(c, 5));
    assert Steps(c, 7) == Step(Steps(c, 6));
  }

  lemma FirstSteps(c: bv32, b: bv8)
    ensures DivideByte(c, b) == Step(Step(Step(Step(Step(Step(Step(Step(Add(c, b as bv32)))))))))
  {
    hide Step, Steps, Add, DivideByte;
    DivideByteSteps(c, b);
    EightSteps(Add(c, b as bv32));
  }

  lemma DividesIend()
    ensures DivideByte(ALL_ONES, 0x49) == 0x22fde946
    ensures DivideByte(0x22fde946, 0x45) == 0x992bac53
    ensures DivideByte(0x992bac53, 0x4e) == 0x639f4775
    ensures DivideByte(0x639f4775, 0x44) == 0x51bd9f7d
  {
    hide DivideByte;
    FirstSteps(ALL_ONES, 0x49);
    FirstSteps(0x22fde946, 0x45);
    FirstSteps(0x992bac53, 0x4e);
    FirstSteps(0x639f4775, 0x44);
  }

  const IEND: seq<byte> := [0x49, 0x45, 0x4e, 0x44]

  lemma CrcOfIend()
    ensures Crc32(AsBits(IEND)) == 0xae426082
  {
    hide DivideByte;
    DividesIend();
    var m: seq<bv8> := [0x49, 0x45, 0x4e, 0x44];
    assert AsBits(IEND) == m;
    assert m[..3][..2] == m[..2] && m[..2][..1] == m[..1] && m[..1][..0] == [];
    assert Divide(ALL_ONES, m[..1]) == 0x22fde946;
    assert Divide(ALL_ONES, m[..2]) == 0x992bac53;
    assert Divide(ALL_ONES, m[..3]) == 0x639f4775;
  }

  /** The chunk every PNG file ends with comes out byte for byte. */
  lemma IendIsTheStandards()
    ensures Chunk(IEND, []) == [0, 0, 0, 0, 0x49, 0x45, 0x4e, 0x44, 0xae, 0x42, 0x60, 0x82]
  {
    hide Crc32;
    CrcOfIend();
    assert IEND + [] == IEND;
    CrcBytesOfIend();
  }

  lemma CrcBytesOfIend()
    ensures CrcBytes(0xae426082) == [0xae, 0x42, 0x60, 0x82]
  {
  }
}
