/**
 The reader recovers, from every parameter set written by the standard's syntax, the size the standard
 defines, and the unescaping loop undoes emulation prevention.
 */
module SpsRoundTrip {

  import opened Bytes
  import opened Options
  import opened Sps

  // ---------------------------------------------------------------- numbers and codes

  lemma {:induction false} ValueOfBits(n: nat, v: nat)
    requires v < Pow2(n)
    ensures Value(Bits(n, v)) == v
  {
    if n > 0 {
      ValueOfBits(n - 1, v / 2);
      assert Bits(n, v)[..n - 1] == Bits(n - 1, v / 2);
    }
  }

  lemma {:induction false} BitsBelowPow2(s: bits)
    ensures Value(s) < Pow2(|s|)
  {
    if s != [] { BitsBelowPow2(s[..|s| - 1]); }
  }

  lemma ReadsU(n: nat, v: nat, tail: bits)
    requires v < Pow2(n)
    ensures ReadU(n, PutU(n, v, tail)) == Some(At(v, tail))
  {
    ValueOfBits(n, v);
    assert PutU(n, v, tail)[..n] == Bits(n, v) && PutU(n, v, tail)[n..] == tail;
  }

  lemma ReadsFlag(b: bool, tail: bits)
    ensures ReadFlag(PutFlag(b, tail)) == Some(At(b, tail))
  {
    assert PutFlag(b, tail)[1..] == tail;
  }

  lemma {:induction false} CountsZeros(k: nat, t: bits, lz: nat)
    requires lz <= 31
    ensures LeadingZeros(Zeros(k) + ([true] + t), lz) == if lz + k > 31 then None else Some(At(lz + k, t))
    decreases k
  {
    var s := Zeros(k) + ([true] + t);
    if k == 0 {
      assert s == [true] + t && s[1..] == t;
    } else {
      assert !s[0] && s[1..] == Zeros(k - 1) + ([true] + t);
      if lz < 31 { CountsZeros(k - 1, t, lz + 1); }
    }
  }

  lemma {:induction false} Pow2Grows(a: nat, b: nat)
    requires a <= b
    ensures Pow2(a) <= Pow2(b)
  {
    if a < b { Pow2Grows(a, b - 1); }
  }

  lemma Pow2Of31()
    ensures Pow2(31) == 0x8000_0000
  {
    assert Pow2(8) == 256;
    assert Pow2(16) == 0x1_0000;
    assert Pow2(24) == 0x100_0000;
  }

  /** How long the code of v is. */
  lemma CodeLength(v: nat)
    ensures Log2(v + 1) <= 31 <==> v <= MAX_CODE
    ensures Log2(v + 1) <= 30 <==> v <= MAX_EXACT
  {
    var lz := Log2(v + 1);
    Pow2Of31();
    if lz <= 30 { Pow2Grows(lz + 1, 31); } else { Pow2Grows(31, lz); }
    if lz <= 31 { Pow2Grows(lz + 1, 32); } else { Pow2Grows(32, lz); }
  }

  /** What the 32-bit shift makes of the code of v: exact up to 2^31 - 2, then 2^32 too little, then an error. */
  function AsRead(v: nat): Option<int> {
    if v <= MAX_EXACT then Some(v) else if v <= MAX_CODE then Some(v - 0x1_0000_0000) else None
  }

  lemma ReadsUE(v: nat, tail: bits)
    ensures ReadUE(PutUE(v, tail)) == if AsRead(v).None? then None else Some(At(AsRead(v).value, tail))
  {
    hide Bits, Value, ReadU, LeadingZeros, PutU, Log2;
    var lz := Log2(v + 1);
    var low := v + 1 - Pow2(lz);
    CountsZeros(lz, PutU(lz, low, tail), 0);
    CodeLength(v);
    if lz == 0 {
      NoSuffix(low, tail);
    } else if lz <= 31 {
      ReadsU(lz, low, tail);
      ShiftedIs(lz);
    }
  }

  lemma NoSuffix(low: nat, tail: bits)
    ensures PutU(0, low, tail) == tail && Pow2(0) == 1
  {
    assert Bits(0, low) == [] && [] + tail == tail;
  }

  lemma ShiftedIs(lz: nat)
    requires lz <= 31
    ensures Shifted1(lz) == if lz == 31 then Pow2(lz) - 0x1_0000_0000 else Pow2(lz)
  {
    Pow2Of31();
  }

  /** `readUE` returns the code number exactly when it is at most 2^31 - 2. */
  lemma ExactUpTo31Bits(v: nat, tail: bits)
    ensures ReadUE(PutUE(v, tail)) == Some(At(v, tail)) <==> v <= 0x7FFF_FFFE
  {
    ReadsUE(v, tail);
  }

  // ---------------------------------------------------------------- each part of the syntax

  lemma ReadsDepths(c: Chroma, tail: bits)
    requires LegalChroma(c)
    ensures ReadDepths(PutUE(c.lumaDepth, PutUE(c.chromaDepth, PutFlag(c.bypass, PutFlag(false, tail))))) == Some(At((), tail))
  {
    hide PutUE, ReadUE, PutFlag, ReadFlag;
    var t1 := PutFlag(false, tail);
    var t2 := PutFlag(c.bypass, t1);
    var t3 := PutUE(c.chromaDepth, t2);
    ReadsUE(c.lumaDepth, t3);
    ReadsUE(c.chromaDepth, t2);
    ReadsFlag(c.bypass, t1);
    ReadsFlag(false, tail);
  }

  lemma ReadsChroma(p: ParameterSet, tail: bits)
    requires Legal(p)
    ensures var sub := if p.chroma.None? then Subsampling(2, 2) else Sampling(p.chroma.value.idc);
            ReadChroma(p.profile, PutChroma(p.chroma, tail)) == Some(At(sub, tail))
  {
    hide PutUE, ReadUE, PutFlag, ReadFlag, ReadDepths;
    if p.chroma.Some? {
      var c := p.chroma.value;
      var flags := PutUE(c.lumaDepth, PutUE(c.chromaDepth, PutFlag(c.bypass, PutFlag(false, tail))));
      ReadsDepths(c, tail);
      ReadsUE(c.idc, if c.idc == 3 then PutFlag(c.separate, flags) else flags);
      if c.idc == 3 { ReadsFlag(c.separate, flags); }
    }
  }

  lemma ReadsSE(v: int, tail: bits)
    requires LegalOffset(v)
    ensures ReadUE(PutSE(v, tail)).Some? && ReadUE(PutSE(v, tail)).value.rest == tail
  {
    ReadsUE(CodeNum(v), tail);
  }

  lemma {:induction false} ReadsOffsets(offsets: seq<int>, tail: bits)
    requires forall v | v in offsets :: LegalOffset(v)
    ensures ReadOffsets(|offsets|, PutOffsets(offsets, tail)) == Some(At((), tail))
    decreases |offsets|
  {
    if offsets != [] {
      ReadsSE(offsets[0], PutOffsets(offsets[1..], tail));
      ReadsOffsets(offsets[1..], tail);
    }
  }

  lemma ReadsByOffsets(z: bool, a: int, b: int, offsets: seq<int>, tail: bits)
    requires LegalOrder(ByOffsets(z, a, b, offsets))
    ensures ReadByOffsets(PutFlag(z, PutSE(a, PutSE(b, PutUE(|offsets|, PutOffsets(offsets, tail)))))) == Some(At((), tail))
  {
    hide PutUE, ReadUE, PutFlag, ReadFlag, PutSE, PutOffsets, ReadOffsets;
    var t1 := PutOffsets(offsets, tail);
    var t2 := PutUE(|offsets|, t1);
    var t3 := PutSE(b, t2);
    ReadsFlag(z, PutSE(a, t3));
    ReadsSE(a, t3);
    ReadsSE(b, t2);
    ReadsUE(|offsets|, t1);
    ReadsOffsets(offsets, tail);
  }

  lemma ReadsOrder(o: OrderCount, tail: bits)
    requires LegalOrder(o)
    ensures ReadOrder(PutOrder(o, tail)) == Some(At((), tail))
  {
    hide PutUE, ReadUE, PutFlag, PutSE, PutOffsets, ReadByOffsets;
    match o
    case ByLsb(n) =>
      ReadsUE(0, PutUE(n, tail));
      ReadsUE(n, tail);
    case ByOffsets(z, a, b, offsets) =>
      ReadsUE(1, PutFlag(z, PutSE(a, PutSE(b, PutUE(|offsets|, PutOffsets(offsets, tail))))));
      ReadsByOffsets(z, a, b, offsets, tail);
    case ByDecoding =>
      ReadsUE(2, tail);
  }

  lemma ReadsCrop(c: Option<Crop>, tail: bits)
    requires c.Some? ==> c.value.left <= MAX_EXACT && c.value.right <= MAX_EXACT
                         && c.value.top <= MAX_EXACT && c.value.bottom <= MAX_EXACT
    ensures ReadCrop(PutCrop(c, tail)) ==
            Some(At(if c.None? then None else Some((c.value.left + c.value.right, c.value.top + c.value.bottom)), tail))
  {
    hide PutUE, ReadUE, PutFlag, ReadFlag;
    if c.None? {
      ReadsFlag(false, tail);
    } else {
      var b := PutUE(c.value.bottom, tail);
      var t := PutUE(c.value.top, b);
      var r := PutUE(c.value.right, t);
      ReadsFlag(true, PutUE(c.value.left, r));
      ReadsUE(c.value.left, r);
      ReadsUE(c.value.right, t);
      ReadsUE(c.value.top, b);
      ReadsUE(c.value.bottom, tail);
    }
  }

  lemma ReadsFieldFlags(only: bool, adaptive: bool, direct: bool, tail: bits)
    ensures var flags := PutFlag(direct, tail);
            ReadFieldFlags(PutFlag(only, if only then flags else PutFlag(adaptive, flags))) == Some(At(only, tail))
  {
    hide PutFlag, ReadFlag;
    var flags := PutFlag(direct, tail);
    ReadsFlag(direct, tail);
    ReadsFlag(adaptive, flags);
    ReadsFlag(only, if only then flags else PutFlag(adaptive, flags));
  }

  /** The size computed from the fields is the one the standard defines. */
  lemma SizeIsCroppedSize(p: ParameterSet)
    requires Legal(p)
    ensures var sub := if p.chroma.None? then Subsampling(2, 2) else Sampling(p.chroma.value.idc);
            var crop := if p.crop.None? then None
                        else Some((p.crop.value.left + p.crop.value.right, p.crop.value.top + p.crop.value.bottom));
            Size(p.widthMbs - 1, p.heightMapUnits - 1, p.frameMbsOnly, crop, sub) == CroppedSize(p)
  {
  }

  lemma ReadsSize(p: ParameterSet, sub: Subsampling, tail: bits)
    requires LegalSize(p)
    ensures var crop := if p.crop.None? then None
                        else Some((p.crop.value.left + p.crop.value.right, p.crop.value.top + p.crop.value.bottom));
            ReadSize(sub, PutSize(p, tail)) == Some(At(Size(p.widthMbs - 1, p.heightMapUnits - 1, p.frameMbsOnly, crop, sub), tail))
  {
    hide PutUE, ReadUE, PutFlag, ReadFlag, PutCrop, ReadCrop, ReadFieldFlags, Size;
    var crop := PutCrop(p.crop, tail);
    var direct := PutFlag(p.direct8x8, crop);
    var flags := PutFlag(p.frameMbsOnly, if p.frameMbsOnly then direct else PutFlag(p.adaptive, direct));
    ReadsUE(p.widthMbs - 1, PutUE(p.heightMapUnits - 1, flags));
    ReadsUE(p.heightMapUnits - 1, flags);
    ReadsFieldFlags(p.frameMbsOnly, p.adaptive, p.direct8x8, crop);
    ReadsCrop(p.crop, tail);
  }

  lemma ReadsHeader(p: ParameterSet, tail: bits)
    requires Legal(p)
    ensures ReadHeader(PutU(8, p.profile, PutU(8, p.constraints, PutU(8, p.level, PutUE(p.id, tail))))) == Some(At(p.profile, tail))
  {
    hide PutUE, ReadUE, PutU, ReadU;
    assert Pow2(8) == 256;
    var id := PutUE(p.id, tail);
    var level := PutU(8, p.level, id);
    ReadsU(8, p.profile, PutU(8, p.constraints, level));
    ReadsU(8, p.constraints, level);
    ReadsU(8, p.level, id);
    ReadsUE(p.id, tail);
  }

  lemma ReadsFrameNumbers(p: ParameterSet, tail: bits)
    requires Legal(p)
    ensures ReadFrameNumbers(PutUE(p.log2MaxFrameNum, PutOrder(p.order, PutUE(p.refFrames, PutFlag(p.gaps, tail))))) == Some(At((), tail))
  {
    hide PutUE, ReadUE, PutFlag, ReadFlag, PutOrder, ReadOrder;
    var gaps := PutFlag(p.gaps, tail);
    var refs := PutUE(p.refFrames, gaps);
    ReadsUE(p.log2MaxFrameNum, PutOrder(p.order, refs));
    ReadsOrder(p.order, refs);
    ReadsUE(p.refFrames, gaps);
    ReadsFlag(p.gaps, tail);
  }

  /** The parameter set read back: its cropped size, with nothing of what follows it touched. */
  lemma ReadsSps(p: ParameterSet, tail: bits)
    requires Legal(p)
    ensures ReadSps(PutSps(p, tail)) == Some(At(CroppedSize(p), tail))
  {
    hide PutUE, PutFlag, PutU, PutOrder, PutChroma, PutSize, ReadHeader, ReadChroma, ReadFrameNumbers, ReadSize,
      CroppedSize, Size;
    var size := PutSize(p, tail);
    var numbers := PutUE(p.log2MaxFrameNum, PutOrder(p.order, PutUE(p.refFrames, PutFlag(p.gaps, size))));
    var sub := if p.chroma.None? then Subsampling(2, 2) else Sampling(p.chroma.value.idc);
    ReadsHeader(p, PutChroma(p.chroma, numbers));
    ReadsChroma(p, numbers);
    ReadsFrameNumbers(p, size);
    ReadsSize(p, sub, tail);
    SizeIsCroppedSize(p);
  }

  // ---------------------------------------------------------------- emulation prevention

  lemma {:induction false} UnescapeNeverKeepsZeroZeroThree(payload: seq<byte>, kept: seq<byte>)
    requires !HasZeroZeroThree(kept)
    ensures !HasZeroZeroThree(Unescape(payload, kept))
    decreases |payload|
  {
    if payload != [] {
      if payload[0] == 3 && EndsInTwoZeros(kept) {
        UnescapeNeverKeepsZeroZeroThree(payload[1..], kept);
      } else {
        UnescapeNeverKeepsZeroZeroThree(payload[1..], kept + [payload[0]]);
      }
    }
  }

  /** `zeros` counts the zeros written since the last prevention byte, so at least as many end what is kept. */
  predicate ZerosKept(kept: seq<byte>, zeros: nat) {
    zeros <= 2 && zeros <= |kept| && forall i | |kept| - zeros <= i < |kept| :: kept[i] == 0
  }

  lemma NoThreeNext(kept: seq<byte>, rbsp: seq<byte>)
    requires rbsp != [] && EndsInTwoZeros(kept)
    requires !HasZeroZeroThree(kept + rbsp)
    ensures rbsp[0] != 3
  {
    var n := |kept|;
    assert (kept + rbsp)[n] == rbsp[0];
    assert (kept + rbsp)[n - 2] == 0 && (kept + rbsp)[n - 2 + 1] == 0;
  }

  lemma {:induction false} UnescapesFrom(rbsp: seq<byte>, zeros: nat, kept: seq<byte>)
    requires ZerosKept(kept, zeros)
    requires !HasZeroZeroThree(kept + rbsp)
    ensures Unescape(Escape(rbsp, zeros), kept) == kept + rbsp
    decreases |rbsp|
  {
    if rbsp != [] {
      var b := rbsp[0];
      var more := kept + [b];
      assert more + rbsp[1..] == kept + rbsp;
      if EndsInTwoZeros(kept) { NoThreeNext(kept, rbsp); }
      if zeros >= 2 && b <= 3 {
        var next := if b == 0 then 1 else 0;
        var escaped := Escape(rbsp, zeros);
        assert escaped[1..] == [b] + Escape(rbsp[1..], next);
        assert escaped[1..][1..] == Escape(rbsp[1..], next);
        UnescapesFrom(rbsp[1..], next, more);
      } else {
        var next := if b == 0 then zeros + 1 else 0;
        assert Escape(rbsp, zeros)[1..] == Escape(rbsp[1..], next);
        UnescapesFrom(rbsp[1..], next, more);
      }
    }
  }

  /** The loop that tests what it has kept undoes the escape exactly on payloads without 00 00 03. */
  lemma UnescapeUndoesEscape(rbsp: seq<byte>)
    ensures Unescape(Escape(rbsp, 0), []) == rbsp <==> !HasZeroZeroThree(rbsp)
  {
    if HasZeroZeroThree(rbsp) {
      UnescapeNeverKeepsZeroZeroThree(Escape(rbsp, 0), []);
    } else {
      assert [] + rbsp == rbsp;
      UnescapesFrom(rbsp, 0, []);
    }
  }

  // ---------------------------------------------------------------- bytes

  function FromBits(s: bits): (b: byte)
    requires |s| == 8
  {
    BitsBelowPow2(s);
    assert Pow2(8) == 256;
    Value(s)
  }

  function Pack(s: bits): (bytes: seq<byte>)
    requires |s| % 8 == 0
    ensures 8 * |bytes| == |s|
  {
    if s == [] then [] else [FromBits(s[..8])] + Pack(s[8..])
  }

  lemma {:induction false} ValueBit(s: bits, k: nat)
    requires k < |s|
    ensures Value(s) / Pow2(|s| - 1 - k) % 2 == 1 <==> s[k]
  {
    var front := s[..|s| - 1];
    if k < |s| - 1 {
      ValueBit(front, k);
      HalvingFirst(Value(s), Pow2(|s| - 2 - k));
    }
  }

  lemma HalvingFirst(v: nat, p: nat)
    requires p >= 1
    ensures v / (2 * p) == (v / 2) / p
  {
    var q := v / 2;
    var r := q / p;
    assert q == p * r + q % p;
    assert v == 2 * q + v % 2;
    assert v == (2 * p) * r + (2 * (q % p) + v % 2);
    Quotient(v, 2 * p, r, 2 * (q % p) + v % 2);
  }

  lemma Product(d: int, k: int)
    requires d >= 1
    ensures k >= 1 ==> d * k >= d
    ensures k <= -1 ==> d * k <= -d
  {
  }

  lemma Quotient(v: nat, d: nat, q: nat, r: nat)
    requires d >= 1 && r < d && v == d * q + r
    ensures v / d == q
  {
    Product(d, q - v / d);
    assert d * (q - v / d) == v % d - r;
  }

  lemma {:induction false} PackKeepsBits(s: bits)
    requires |s| % 8 == 0
    ensures BitsOf(Pack(s)) == s
    decreases |s|
  {
    if s != [] {
      PackKeepsBits(s[8..]);
      var bytes := Pack(s);
      assert bytes[1..] == Pack(s[8..]);
      forall i | 0 <= i < |s| ensures BitsOf(bytes)[i] == s[i] {
        if i < 8 {
          ValueBit(s[..8], i);
        } else {
          assert BitsOf(bytes[1..])[i - 8] == s[8..][i - 8];
          assert (i - 8) / 8 == i / 8 - 1 && (i - 8) % 8 == i % 8;
        }
      }
    }
  }

  /** rbsp_trailing_bits: the stop bit and zeros to the byte boundary. */
  function TrailingBits(n: nat): (t: bits)
    ensures (n + |t|) % 8 == 0
  {
    [true] + Zeros(7 - n % 8)
  }
}
