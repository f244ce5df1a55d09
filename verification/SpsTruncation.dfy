/**
 Reading a cut-off NAL unit: more bytes never change an answer, and a parameter set answers exactly when
 all of it is there.
 */
module SpsTruncation {

  import opened Bytes
  import opened Options
  import opened Sps
  import opened SpsRoundTrip

  /** A read that succeeded reads the same when `q` follows, and leaves `q` after what it left. */
  ghost predicate Extends<T(!new)>(r: Option<At<T>>, longer: Option<At<T>>, q: bits) {
    r.Some? ==> longer == Some(At(r.value.value, r.value.rest + q))
  }

  lemma UExtends(n: nat, s: bits, q: bits)
    ensures Extends(ReadU(n, s), ReadU(n, s + q), q)
  {
    if n <= |s| {
      assert (s + q)[..n] == s[..n] && (s + q)[n..] == s[n..] + q;
    }
  }

  lemma FlagExtends(s: bits, q: bits)
    ensures Extends(ReadFlag(s), ReadFlag(s + q), q)
  {
    if s != [] { assert (s + q)[1..] == s[1..] + q; }
  }

  lemma {:induction false} ZerosExtend(s: bits, lz: nat, q: bits)
    ensures Extends(LeadingZeros(s, lz), LeadingZeros(s + q, lz), q)
    decreases |s|
  {
    if s != [] {
      assert (s + q)[1..] == s[1..] + q;
      ZerosExtend(s[1..], lz + 1, q);
    }
  }

  lemma UEExtends(s: bits, q: bits)
    ensures Extends(ReadUE(s), ReadUE(s + q), q)
  {
    ZerosExtend(s, 0, q);
    var lz := LeadingZeros(s, 0);
    if lz.Some? { UExtends(lz.value.value, lz.value.rest, q); }
  }

  /** Two codes in a row. */
  lemma TwoUEExtend(s: bits, q: bits)
    ensures Extends(ReadUE(s), ReadUE(s + q), q)
    ensures ReadUE(s).Some? ==> var t := ReadUE(s).value.rest; Extends(ReadUE(t), ReadUE(t + q), q)
  {
    UEExtends(s, q);
    if ReadUE(s).Some? { UEExtends(ReadUE(s).value.rest, q); }
  }

  /** Two flags in a row. */
  lemma TwoFlagsExtend(s: bits, q: bits)
    ensures Extends(ReadFlag(s), ReadFlag(s + q), q)
    ensures ReadFlag(s).Some? ==> var t := ReadFlag(s).value.rest; Extends(ReadFlag(t), ReadFlag(t + q), q)
  {
    FlagExtends(s, q);
    if ReadFlag(s).Some? { FlagExtends(ReadFlag(s).value.rest, q); }
  }

  lemma DepthsExtend(s: bits, q: bits)
    ensures Extends(ReadDepths(s), ReadDepths(s + q), q)
  {
    hide ReadUE, ReadFlag;
    TwoUEExtend(s, q);
    if ReadDepths(s).Some? {
      TwoFlagsExtend(ReadUE(ReadUE(s).value.rest).value.rest, q);
    }
  }

  lemma ChromaExtends(profile: nat, s: bits, q: bits)
    ensures Extends(ReadChroma(profile, s), ReadChroma(profile, s + q), q)
  {
    hide ReadUE, ReadFlag, ReadDepths;
    UEExtends(s, q);
    if profile in CHROMA_PROFILES && ReadChroma(profile, s).Some? {
      var idc := ReadUE(s).value;
      FlagExtends(idc.rest, q);
      DepthsExtend(if idc.value == 3 then ReadFlag(idc.rest).value.rest else idc.rest, q);
    }
  }

  lemma {:induction false} OffsetsExtend(n: int, s: bits, q: bits)
    ensures Extends(ReadOffsets(n, s), ReadOffsets(n, s + q), q)
    decreases n
  {
    hide ReadUE;
    if n > 0 {
      UEExtends(s, q);
      if ReadUE(s).Some? { OffsetsExtend(n - 1, ReadUE(s).value.rest, q); }
    }
  }

  lemma ByOffsetsExtends(s: bits, q: bits)
    ensures Extends(ReadByOffsets(s), ReadByOffsets(s + q), q)
  {
    hide ReadUE, ReadFlag, ReadOffsets;
    FlagExtends(s, q);
    if ReadByOffsets(s).Some? {
      var flag := ReadFlag(s).value.rest;
      TwoUEExtend(flag, q);
      var codes := ReadUE(ReadUE(flag).value.rest).value.rest;
      UEExtends(codes, q);
      OffsetsExtend(ReadUE(codes).value.value, ReadUE(codes).value.rest, q);
    }
  }

  lemma OrderExtends(s: bits, q: bits)
    ensures Extends(ReadOrder(s), ReadOrder(s + q), q)
  {
    hide ReadUE, ReadByOffsets;
    TwoUEExtend(s, q);
    if ReadUE(s).Some? { ByOffsetsExtends(ReadUE(s).value.rest, q); }
  }

  lemma CropExtends(s: bits, q: bits)
    ensures Extends(ReadCrop(s), ReadCrop(s + q), q)
  {
    hide ReadUE, ReadFlag;
    FlagExtends(s, q);
    if ReadCrop(s).Some? && ReadFlag(s).value.value {
      var flag := ReadFlag(s).value.rest;
      TwoUEExtend(flag, q);
      TwoUEExtend(ReadUE(ReadUE(flag).value.rest).value.rest, q);
    }
  }

  lemma FieldFlagsExtend(s: bits, q: bits)
    ensures Extends(ReadFieldFlags(s), ReadFieldFlags(s + q), q)
  {
    hide ReadFlag;
    TwoFlagsExtend(s, q);
    if ReadFieldFlags(s).Some? {
      var only := ReadFlag(s).value;
      if !only.value { FlagExtends(ReadFlag(only.rest).value.rest, q); }
    }
  }

  lemma SizeExtends(sub: Subsampling, s: bits, q: bits)
    ensures Extends(ReadSize(sub, s), ReadSize(sub, s + q), q)
  {
    hide ReadUE, ReadFieldFlags, ReadCrop, Size;
    TwoUEExtend(s, q);
    if ReadSize(sub, s).Some? {
      var codes := ReadUE(ReadUE(s).value.rest).value.rest;
      FieldFlagsExtend(codes, q);
      CropExtends(ReadFieldFlags(codes).value.rest, q);
    }
  }

  lemma HeaderExtends(s: bits, q: bits)
    ensures Extends(ReadHeader(s), ReadHeader(s + q), q)
  {
    hide ReadU, ReadUE;
    UExtends(8, s, q);
    if ReadHeader(s).Some? {
      var profile := ReadU(8, s).value.rest;
      UExtends(8, profile, q);
      var constraints := ReadU(8, profile).value.rest;
      UExtends(8, constraints, q);
      UEExtends(ReadU(8, constraints).value.rest, q);
    }
  }

  lemma FrameNumbersExtend(s: bits, q: bits)
    ensures Extends(ReadFrameNumbers(s), ReadFrameNumbers(s + q), q)
  {
    hide ReadUE, ReadFlag, ReadOrder;
    UEExtends(s, q);
    if ReadFrameNumbers(s).Some? {
      var log2 := ReadUE(s).value.rest;
      OrderExtends(log2, q);
      var order := ReadOrder(log2).value.rest;
      UEExtends(order, q);
      FlagExtends(ReadUE(order).value.rest, q);
    }
  }

  lemma SpsExtends(s: bits, q: bits)
    ensures Extends(ReadSps(s), ReadSps(s + q), q)
  {
    hide ReadHeader, ReadChroma, ReadFrameNumbers, ReadSize;
    HeaderExtends(s, q);
    if ReadSps(s).Some? {
      var header := ReadHeader(s).value;
      ChromaExtends(header.value, header.rest, q);
      var chroma := ReadChroma(header.value, header.rest).value;
      FrameNumbersExtend(chroma.rest, q);
      SizeExtends(chroma.value, ReadFrameNumbers(chroma.rest).value.rest, q);
    }
  }

  // ---------------------------------------------------------------- what is written before a tail

  /** How many bits a parameter set takes. */
  function SpsLength(p: ParameterSet): nat
    requires p.widthMbs >= 1 && p.heightMapUnits >= 1
  {
    |PutSps(p, [])|
  }

  lemma UEAppends(v: nat, a: bits, b: bits)
    ensures PutUE(v, a + b) == PutUE(v, a) + b
  {
  }

  lemma UAppends(n: nat, v: nat, a: bits, b: bits)
    ensures PutU(n, v, a + b) == PutU(n, v, a) + b
  {
  }

  lemma FlagAppends(f: bool, a: bits, b: bits)
    ensures PutFlag(f, a + b) == PutFlag(f, a) + b
  {
  }

  lemma ChromaAppends(c: Option<Chroma>, a: bits, b: bits)
    ensures PutChroma(c, a + b) == PutChroma(c, a) + b
  {
    hide PutUE, PutFlag;
    if c.Some? {
      var t1 := PutFlag(false, a);
      var t2 := PutFlag(c.value.bypass, t1);
      var t3 := PutUE(c.value.chromaDepth, t2);
      var t4 := PutUE(c.value.lumaDepth, t3);
      FlagAppends(false, a, b);
      FlagAppends(c.value.bypass, t1, b);
      UEAppends(c.value.chromaDepth, t2, b);
      UEAppends(c.value.lumaDepth, t3, b);
      FlagAppends(c.value.separate, t4, b);
      UEAppends(c.value.idc, if c.value.idc == 3 then PutFlag(c.value.separate, t4) else t4, b);
    }
  }

  lemma {:induction false} OffsetsAppend(offsets: seq<int>, a: bits, b: bits)
    ensures PutOffsets(offsets, a + b) == PutOffsets(offsets, a) + b
    decreases |offsets|
  {
    hide PutUE;
    if offsets != [] {
      OffsetsAppend(offsets[1..], a, b);
      UEAppends(CodeNum(offsets[0]), PutOffsets(offsets[1..], a), b);
    }
  }

  lemma OrderAppends(o: OrderCount, a: bits, b: bits)
    ensures PutOrder(o, a + b) == PutOrder(o, a) + b
  {
    hide PutUE, PutFlag, PutOffsets;
    match o
    case ByLsb(n) =>
      UEAppends(n, a, b);
      UEAppends(0, PutUE(n, a), b);
    case ByOffsets(z, first, second, offsets) =>
      var t1 := PutOffsets(offsets, a);
      var t2 := PutUE(|offsets|, t1);
      var t3 := PutSE(second, t2);
      var t4 := PutSE(first, t3);
      OffsetsAppend(offsets, a, b);
      UEAppends(|offsets|, t1, b);
      UEAppends(CodeNum(second), t2, b);
      UEAppends(CodeNum(first), t3, b);
      FlagAppends(z, t4, b);
      UEAppends(1, PutFlag(z, t4), b);
    case ByDecoding =>
      UEAppends(2, a, b);
  }

  lemma CropAppends(c: Option<Crop>, a: bits, b: bits)
    ensures PutCrop(c, a + b) == PutCrop(c, a) + b
  {
    hide PutUE, PutFlag;
    if c.None? {
      FlagAppends(false, a, b);
    } else {
      var t1 := PutUE(c.value.bottom, a);
      var t2 := PutUE(c.value.top, t1);
      var t3 := PutUE(c.value.right, t2);
      UEAppends(c.value.bottom, a, b);
      UEAppends(c.value.top, t1, b);
      UEAppends(c.value.right, t2, b);
      UEAppends(c.value.left, t3, b);
      FlagAppends(true, PutUE(c.value.left, t3), b);
    }
  }

  lemma SizeAppends(p: ParameterSet, a: bits, b: bits)
    requires p.widthMbs >= 1 && p.heightMapUnits >= 1
    ensures PutSize(p, a + b) == PutSize(p, a) + b
  {
    hide PutUE, PutFlag, PutCrop;
    var crop := PutCrop(p.crop, a);
    var direct := PutFlag(p.direct8x8, crop);
    var inner := if p.frameMbsOnly then direct else PutFlag(p.adaptive, direct);
    var flags := PutFlag(p.frameMbsOnly, inner);
    CropAppends(p.crop, a, b);
    FlagAppends(p.direct8x8, crop, b);
    FlagAppends(p.adaptive, direct, b);
    FlagAppends(p.frameMbsOnly, inner, b);
    UEAppends(p.heightMapUnits - 1, flags, b);
    UEAppends(p.widthMbs - 1, PutUE(p.heightMapUnits - 1, flags), b);
  }

  lemma NumbersAppend(p: ParameterSet, a: bits, b: bits)
    ensures PutUE(p.log2MaxFrameNum, PutOrder(p.order, PutUE(p.refFrames, PutFlag(p.gaps, a + b)))) ==
            PutUE(p.log2MaxFrameNum, PutOrder(p.order, PutUE(p.refFrames, PutFlag(p.gaps, a)))) + b
  {
    hide PutUE, PutFlag, PutOrder;
    var gaps := PutFlag(p.gaps, a);
    var refs := PutUE(p.refFrames, gaps);
    FlagAppends(p.gaps, a, b);
    UEAppends(p.refFrames, gaps, b);
    OrderAppends(p.order, refs, b);
    UEAppends(p.log2MaxFrameNum, PutOrder(p.order, refs), b);
  }

  lemma SpsAppends(p: ParameterSet, a: bits, b: bits)
    requires p.widthMbs >= 1 && p.heightMapUnits >= 1
    ensures PutSps(p, a + b) == PutSps(p, a) + b
  {
    hide PutUE, PutFlag, PutOrder, PutU, PutChroma, PutSize;
    var size := PutSize(p, a);
    var numbers := PutUE(p.log2MaxFrameNum, PutOrder(p.order, PutUE(p.refFrames, PutFlag(p.gaps, size))));
    var chroma := PutChroma(p.chroma, numbers);
    var id := PutUE(p.id, chroma);
    var level := PutU(8, p.level, id);
    var constraints := PutU(8, p.constraints, level);
    SizeAppends(p, a, b);
    NumbersAppend(p, size, b);
    ChromaAppends(p.chroma, numbers, b);
    UEAppends(p.id, chroma, b);
    UAppends(8, p.level, id, b);
    UAppends(8, p.constraints, level, b);
    UAppends(8, p.profile, constraints, b);
  }

  // ---------------------------------------------------------------- cut-off parameter sets

  /** The first k bits of a parameter set and what follows it: enough exactly when k covers the set. */
  lemma CutSps(p: ParameterSet, tail: bits, k: nat)
    requires Legal(p) && k <= |PutSps(p, tail)|
    ensures var cut := ReadSps(PutSps(p, tail)[..k]);
            if k < SpsLength(p) then cut.None? else cut.Some? && cut.value.value == CroppedSize(p)
  {
    hide PutSps, ReadSps, CroppedSize, Legal;
    TailFollows(p, tail);
    var s := PutSps(p, tail);
    assert s == s[..k] + s[k..];
    SpsExtends(s[..k], s[k..]);
    ReadsSps(p, tail);
    if k >= SpsLength(p) {
      var kept := tail[..k - SpsLength(p)];
      TailFollows(p, kept);
      assert s[..k] == PutSps(p, []) + kept;
      ReadsSps(p, kept);
    }
  }

  lemma TailFollows(p: ParameterSet, tail: bits)
    requires Legal(p)
    ensures p.widthMbs >= 1 && p.heightMapUnits >= 1
    ensures PutSps(p, tail) == PutSps(p, []) + tail
  {
    assert [] + tail == tail;
    SpsAppends(p, [], tail);
  }

  lemma {:induction false} UnescapeOfPrefix(payload: seq<byte>, k: nat, kept: seq<byte>)
    requires k <= |payload|
    ensures Unescape(payload[..k], kept) <= Unescape(payload, kept)
    decreases k
  {
    if k == 0 {
      UnescapeKeeps(payload, kept);
    } else {
      assert payload[..k][1..] == payload[1..][..k - 1];
      if payload[0] == 3 && EndsInTwoZeros(kept) {
        UnescapeOfPrefix(payload[1..], k - 1, kept);
      } else {
        UnescapeOfPrefix(payload[1..], k - 1, kept + [payload[0]]);
      }
    }
  }

  lemma {:induction false} UnescapeKeeps(payload: seq<byte>, kept: seq<byte>)
    ensures kept <= Unescape(payload, kept)
    decreases |payload|
  {
    if payload != [] {
      if payload[0] == 3 && EndsInTwoZeros(kept) {
        UnescapeKeeps(payload[1..], kept);
      } else {
        UnescapeKeeps(payload[1..], kept + [payload[0]]);
      }
    }
  }

  lemma BitsOfPrefix(a: seq<byte>, b: seq<byte>)
    requires a <= b
    ensures BitsOf(a) == BitsOf(b)[..8 * |a|]
  {
    assert forall i | 0 <= i < 8 * |a| :: a[i / 8] == b[i / 8];
  }

  const START4: seq<byte> := [0, 0, 0, 1]
  const START3: seq<byte> := [0, 0, 1]

  lemma Framing(start: seq<byte>, header: byte, payload: seq<byte>)
    requires start == START4 || start == START3
    requires header % 32 == SPS_TYPE
    ensures var r := ReadSps(BitsOf(Unescape(payload, [])));
            ParseNal(start + [header] + payload) == if r.None? then None else Some(r.value.value)
  {
    hide ReadSps, BitsOf, Unescape;
    var nal := start + [header] + payload;
    assert nal[|start| + 1..] == payload && nal[|start|] == header && nal[..|start|] == start;
  }

  /** Every parameter set, written, escaped and framed, parses to the size the standard defines; cut after k
      bytes of payload, it parses to that size when those bytes hold the whole set, and to nothing before. */
  lemma ParsesEverySps(p: ParameterSet, tail: bits, rbsp: seq<byte>, start: seq<byte>, header: byte, k: nat)
    requires Legal(p) && BitsOf(rbsp) == PutSps(p, tail) && !HasZeroZeroThree(rbsp)
    requires start == START4 || start == START3
    requires header % 32 == SPS_TYPE && k <= |Escape(rbsp, 0)|
    ensures ParseNal(start + [header] + Escape(rbsp, 0)) == Some(CroppedSize(p))
    ensures ParseNal(start + [header] + Escape(rbsp, 0)[..k]) ==
            if 8 * |Unescape(Escape(rbsp, 0)[..k], [])| < SpsLength(p) then None else Some(CroppedSize(p))
  {
    hide PutSps, ReadSps, BitsOf, ParseNal, Escape, Unescape, CroppedSize, Legal, HasZeroZeroThree, SpsLength;
    var payload := Escape(rbsp, 0);
    Framing(start, header, payload);
    Framing(start, header, payload[..k]);
    UnescapeUndoesEscape(rbsp);
    ReadsSps(p, tail);
    UnescapeOfPrefix(payload, k, []);
    var kept := Unescape(payload[..k], []);
    BitsOfPrefix(kept, rbsp);
    CutSps(p, tail, 8 * |kept|);
  }

  /** There is such a payload for every parameter set. */
  lemma EverySpsHasAPayload(p: ParameterSet) returns (rbsp: seq<byte>, tail: bits)
    requires Legal(p)
    ensures BitsOf(rbsp) == PutSps(p, tail)
    ensures tail != [] && tail[0] && forall i | 1 <= i < |tail| :: !tail[i]
  {
    hide BitsOf, PutSps, Pack;
    tail := TrailingBits(SpsLength(p));
    TailFollows(p, tail);
    rbsp := Pack(PutSps(p, tail));
    PackKeepsBits(PutSps(p, tail));
  }

  /** Whatever the bytes, more of them never change an answer. */
  lemma MoreBytesKeepTheAnswer(nal: seq<byte>, k: nat)
    requires k <= |nal|
    ensures ParseNal(nal[..k]).Some? ==> ParseNal(nal) == ParseNal(nal[..k])
  {
    hide ReadSps, BitsOf, Unescape;
    var offset := HeaderOffset(nal[..k]);
    if offset.Some? && offset.value < k {
      assert nal[..k][..offset.value] == nal[..offset.value];
      var payload := nal[offset.value + 1..];
      assert nal[..k][offset.value + 1..] == payload[..k - offset.value - 1];
      UnescapeOfPrefix(payload, k - offset.value - 1, []);
      var few, all := BitsOf(Unescape(payload[..k - offset.value - 1], [])), BitsOf(Unescape(payload, []));
      BitsOfPrefix(Unescape(payload[..k - offset.value - 1], []), Unescape(payload, []));
      assert all == few + all[|few|..];
      SpsExtends(few, all[|few|..]);
    }
  }

  /** Only a NAL unit of a sequence parameter set behind a start code of three or four bytes is answered at all. */
  lemma AnswersOnlyParameterSets(nal: seq<byte>)
    ensures ParseNal(nal).Some? ==>
              || (|nal| > 4 && nal[0] == nal[1] == nal[2] == 0 && nal[3] == 1 && nal[4] % 32 == 7)
              || (|nal| > 3 && nal[0] == nal[1] == 0 && nal[2] == 1 && nal[3] % 32 == 7)
  {
    hide ReadSps, BitsOf, Unescape;
    if |nal| >= 4 && nal[..4] == [0, 0, 0, 1] { assert nal[..4][0] == nal[0] && nal[..4][1] == nal[1] && nal[..4][2] == nal[2]; }
    if |nal| >= 3 && nal[..3] == [0, 0, 1] { assert nal[..3][0] == nal[0] && nal[..3][1] == nal[1] && nal[..3][2] == nal[2]; }
  }

  /** High profile, progressive: 120 by 68 macroblocks with eight rows cropped off. */
  const FULL_HD := ParameterSet(100, 0, 40, 0, Some(Chroma(1, false, 0, 0, false)), 0, ByLsb(2), 4, false,
                                120, 68, true, false, true, Some(Crop(0, 0, 0, 4)))

  /** 4:4:4 in separate planes, fields, with offsets of both signs. */
  const SEPARATE_FIELDS := ParameterSet(244, 0, 31, 1, Some(Chroma(3, true, 2, 2, false)), 5, ByOffsets(true, -1, 1, [2, -2]), 1, true,
                                        45, 18, false, true, true, Some(Crop(3, 3, 0, 1)))

  /** Two that a decoder meets, with the pictures they announce. */
  lemma SetsOfBothKinds()
    ensures Legal(FULL_HD) && CroppedSize(FULL_HD) == Dims(1920, 1080)
    ensures Legal(SEPARATE_FIELDS) && CroppedSize(SEPARATE_FIELDS) == Dims(714, 574)
  {
  }

  /** The k-th signed code stands for k/2 rounded up, positive where k is odd: section 9.1.1. */
  lemma SignedCodes(k: nat)
    ensures CodeNum(if k % 2 == 1 then (k + 1) / 2 else -(k / 2)) == k
  {
  }
}
