/**
 The H.264 sequence parameter set: its syntax (ITU-T H.264, sections 7.3.1, 7.3.2.1.1, 9.1 and 9.1.1), the
 picture size that syntax defines, and the reader that recovers the size from a NAL unit.
 */
module Sps {

  import opened Bytes
  import opened Options

  type bits = seq<bool>

  /** A value read, and what is left to read. */
  datatype At<+T> = At(value: T, rest: bits)

  function Pow2(n: nat): (p: nat)
    ensures p >= 1
  {
    if n == 0 then 1 else 2 * Pow2(n - 1)
  }

  // ---------------------------------------------------------------- bits and codes

  /** The number a string of bits writes, most significant first. */
  function Value(s: bits): nat {
    if s == [] then 0 else 2 * Value(s[..|s| - 1]) + if s[|s| - 1] then 1 else 0
  }

  /** u(n): the low n bits of `v`, most significant first. */
  function Bits(n: nat, v: nat): (s: bits)
    ensures |s| == n
  {
    if n == 0 then [] else Bits(n - 1, v / 2) + [v % 2 == 1]
  }

  function PutU(n: nat, v: nat, tail: bits): bits {
    Bits(n, v) + tail
  }

  function PutFlag(b: bool, tail: bits): bits {
    [b] + tail
  }

  function Zeros(n: nat): (s: bits)
    ensures |s| == n
  {
    seq(n, _ => false)
  }

  /** The largest k with Pow2(k) <= v. */
  function Log2(v: nat): (k: nat)
    requires v >= 1
    ensures Pow2(k) <= v < Pow2(k + 1)
  {
    if v == 1 then 0 else 1 + Log2(v / 2)
  }

  /** ue(v): as many zeros as the suffix has bits, a one, the suffix. */
  function PutUE(v: nat, tail: bits): bits {
    var lz := Log2(v + 1);
    Zeros(lz) + ([true] + PutU(lz, v + 1 - Pow2(lz), tail))
  }

  /** se(v): the mapping of section 9.1.1. */
  function CodeNum(v: int): nat {
    if v > 0 then 2 * v - 1 else -2 * v
  }

  function PutSE(v: int, tail: bits): bits {
    PutUE(CodeNum(v), tail)
  }

  function ReadU(n: nat, s: bits): Option<At<nat>> {
    if |s| < n then None else Some(At(Value(s[..n]), s[n..]))
  }

  function ReadFlag(s: bits): Option<At<bool>> {
    if s == [] then None else Some(At(s[0], s[1..]))
  }

  /** Zeros up to and over the first one; more than 31 is an error. */
  function LeadingZeros(s: bits, lz: nat): (r: Option<At<nat>>)
    ensures r.Some? && lz <= 31 ==> lz <= r.value.value <= 31
  {
    if s == [] then None
    else if s[0] then Some(At(lz, s[1..]))
    else if lz + 1 > 31 then None
    else LeadingZeros(s[1..], lz + 1)
  }

  /** `1 << n` in 32-bit arithmetic. */
  function Shifted1(n: nat): int
    requires n <= 31
  {
    if n == 31 then -0x8000_0000 else Pow2(n)
  }

  function ReadUE(s: bits): Option<At<int>> {
    var lz :- LeadingZeros(s, 0);
    if lz.value == 0 then Some(At(0, lz.rest))
    else
      var low :- ReadU(lz.value, lz.rest);
      Some(At(Shifted1(lz.value) - 1 + low.value, low.rest))
  }

  // ---------------------------------------------------------------- the syntax

  const CHROMA_PROFILES: set<nat> := {100, 110, 122, 244, 44, 83, 86, 118, 128, 138, 139, 134, 135}

  datatype Chroma = Chroma(idc: nat, separate: bool, lumaDepth: nat, chromaDepth: nat, bypass: bool)

  datatype OrderCount =
    | ByLsb(log2MaxLsb: nat)
    | ByOffsets(alwaysZero: bool, nonRef: int, topToBottom: int, offsets: seq<int>)
    | ByDecoding

  datatype Crop = Crop(left: nat, right: nat, top: nat, bottom: nat)

  /** A sequence parameter set without scaling matrices, up to its cropping rectangle. */
  datatype ParameterSet = ParameterSet(
    profile: nat, constraints: nat, level: nat, id: nat,
    chroma: Option<Chroma>,
    log2MaxFrameNum: nat, order: OrderCount, refFrames: nat, gaps: bool,
    widthMbs: nat, heightMapUnits: nat, frameMbsOnly: bool, adaptive: bool, direct8x8: bool,
    crop: Option<Crop>)

  datatype Dims = Dims(width: int, height: int)

  function PutChroma(c: Option<Chroma>, tail: bits): bits {
    if c.None? then tail
    else
      var flags := PutUE(c.value.lumaDepth, PutUE(c.value.chromaDepth, PutFlag(c.value.bypass, PutFlag(false, tail))));
      PutUE(c.value.idc, if c.value.idc == 3 then PutFlag(c.value.separate, flags) else flags)
  }

  function PutOffsets(offsets: seq<int>, tail: bits): bits {
    if offsets == [] then tail else PutSE(offsets[0], PutOffsets(offsets[1..], tail))
  }

  function PutOrder(o: OrderCount, tail: bits): bits {
    match o
    case ByLsb(n) => PutUE(0, PutUE(n, tail))
    case ByOffsets(z, a, b, offsets) =>
      PutUE(1, PutFlag(z, PutSE(a, PutSE(b, PutUE(|offsets|, PutOffsets(offsets, tail))))))
    case ByDecoding => PutUE(2, tail)
  }

  function PutCrop(c: Option<Crop>, tail: bits): bits {
    if c.None? then PutFlag(false, tail)
    else PutFlag(true, PutUE(c.value.left, PutUE(c.value.right, PutUE(c.value.top, PutUE(c.value.bottom, tail)))))
  }

  /** From pic_width_in_mbs_minus1 on. */
  function PutSize(p: ParameterSet, tail: bits): bits
    requires p.widthMbs >= 1 && p.heightMapUnits >= 1
  {
    var flags := PutFlag(p.direct8x8, PutCrop(p.crop, tail));
    PutUE(p.widthMbs - 1, PutUE(p.heightMapUnits - 1,
      PutFlag(p.frameMbsOnly, if p.frameMbsOnly then flags else PutFlag(p.adaptive, flags))))
  }

  function PutSps(p: ParameterSet, tail: bits): bits
    requires p.widthMbs >= 1 && p.heightMapUnits >= 1
  {
    PutU(8, p.profile, PutU(8, p.constraints, PutU(8, p.level, PutUE(p.id,
      PutChroma(p.chroma,
        PutUE(p.log2MaxFrameNum, PutOrder(p.order,
          PutUE(p.refFrames, PutFlag(p.gaps, PutSize(p, tail))))))))))
  }

  /** Codes the reader only skips may be as long as it accepts. */
  const MAX_CODE: nat := 0xFFFF_FFFE
  /** Codes it uses must be ones it reads exactly. */
  const MAX_EXACT: nat := 0x7FFF_FFFE

  predicate LegalOffset(v: int) {
    CodeNum(v) <= MAX_CODE
  }

  /** The profiles whose parameter sets carry the chroma format, by section 7.3.2.1.1. */
  predicate HasChromaFormat(profileIdc: nat) {
    || profileIdc == 100 || profileIdc == 110 || profileIdc == 122 || profileIdc == 244 || profileIdc == 44
    || profileIdc == 83 || profileIdc == 86 || profileIdc == 118 || profileIdc == 128 || profileIdc == 138
    || profileIdc == 139 || profileIdc == 134 || profileIdc == 135
  }

  predicate LegalChroma(c: Chroma) {
    c.idc <= 3 && c.lumaDepth <= MAX_CODE && c.chromaDepth <= MAX_CODE
  }

  predicate LegalOrder(o: OrderCount) {
    match o
    case ByLsb(n) => n <= MAX_CODE
    case ByOffsets(_, a, b, offsets) =>
      LegalOffset(a) && LegalOffset(b) && |offsets| <= MAX_EXACT && forall v | v in offsets :: LegalOffset(v)
    case ByDecoding => true
  }

  predicate LegalSize(p: ParameterSet) {
    && 1 <= p.widthMbs <= MAX_EXACT + 1
    && 1 <= p.heightMapUnits <= MAX_EXACT + 1
    && (p.crop.Some? ==>
          && p.crop.value.left <= MAX_EXACT && p.crop.value.right <= MAX_EXACT
          && p.crop.value.top <= MAX_EXACT && p.crop.value.bottom <= MAX_EXACT)
  }

  predicate Legal(p: ParameterSet) {
    && p.profile < 256 && p.constraints < 256 && p.level < 256 && p.id <= MAX_CODE
    && (p.chroma.Some? <==> HasChromaFormat(p.profile))
    && (p.chroma.Some? ==> LegalChroma(p.chroma.value))
    && p.log2MaxFrameNum <= MAX_CODE
    && LegalOrder(p.order)
    && p.refFrames <= MAX_CODE
    && LegalSize(p)
  }

  // ---------------------------------------------------------------- the size the standard defines

  /** ChromaArrayType, with chroma_format_idc inferred to be 1 where it is absent. */
  function ChromaArrayType(p: ParameterSet): nat {
    if p.chroma.None? then 1 else if p.chroma.value.idc == 3 && p.chroma.value.separate then 0 else p.chroma.value.idc
  }

  /** Table 6-1, and 1 by 1 where there are no chroma arrays. */
  function SubWidthC(chromaArrayType: nat): nat {
    if chromaArrayType == 1 || chromaArrayType == 2 then 2 else 1
  }

  function SubHeightC(chromaArrayType: nat): nat {
    if chromaArrayType == 1 then 2 else 1
  }

  function FieldFactor(p: ParameterSet): nat {
    if p.frameMbsOnly then 1 else 2
  }

  /** The cropping rectangle of section 7.4.2.1.1: CropUnitX and CropUnitY samples off each side. */
  function CroppedSize(p: ParameterSet): Dims {
    var crop := if p.crop.Some? then p.crop.value else Crop(0, 0, 0, 0);
    var cropUnitX := SubWidthC(ChromaArrayType(p));
    var cropUnitY := SubHeightC(ChromaArrayType(p)) * FieldFactor(p);
    Dims(16 * p.widthMbs - cropUnitX * (crop.left + crop.right),
         16 * FieldFactor(p) * p.heightMapUnits - cropUnitY * (crop.top + crop.bottom))
  }

  // ---------------------------------------------------------------- the reader

  datatype Subsampling = Subsampling(w: nat, h: nat)

  function Sampling(idc: int): Subsampling {
    Subsampling(
      if idc == 0 then 1 else if idc == 2 then 2 else if idc == 3 then 1 else 2,
      if idc == 0 then 1 else if idc == 1 then 2 else 1)
  }

  /** The flags after the chroma format; a scaling matrix is not read. */
  function ReadDepths(s: bits): Option<At<()>> {
    var luma :- ReadUE(s);
    var chroma :- ReadUE(luma.rest);
    var bypass :- ReadFlag(chroma.rest);
    var scaling :- ReadFlag(bypass.rest);
    if scaling.value then None else Some(At((), scaling.rest))
  }

  function ReadChroma(profile: nat, s: bits): Option<At<Subsampling>> {
    if profile !in CHROMA_PROFILES then Some(At(Subsampling(2, 2), s))
    else
      var idc :- ReadUE(s);
      if idc.value == 3 then
        var separate :- ReadFlag(idc.rest);
        var depths :- ReadDepths(separate.rest);
        Some(At(Sampling(idc.value), depths.rest))
      else
        var depths :- ReadDepths(idc.rest);
        Some(At(Sampling(idc.value), depths.rest))
  }

  function ReadOffsets(n: int, s: bits): Option<At<()>>
    decreases n
  {
    if n <= 0 then Some(At((), s))
    else
      var offset :- ReadUE(s);
      ReadOffsets(n - 1, offset.rest)
  }

  function ReadByOffsets(s: bits): Option<At<()>> {
    var zero :- ReadFlag(s);
    var nonRef :- ReadUE(zero.rest);
    var topToBottom :- ReadUE(nonRef.rest);
    var n :- ReadUE(topToBottom.rest);
    ReadOffsets(n.value, n.rest)
  }

  function ReadOrder(s: bits): Option<At<()>> {
    var poc :- ReadUE(s);
    if poc.value == 0 then
      var lsb :- ReadUE(poc.rest);
      Some(At((), lsb.rest))
    else if poc.value == 1 then ReadByOffsets(poc.rest)
    else Some(At((), poc.rest))
  }

  function ReadCrop(s: bits): Option<At<Option<(int, int)>>> {
    var flag :- ReadFlag(s);
    if !flag.value then Some(At(None, flag.rest))
    else
      var l :- ReadUE(flag.rest);
      var r :- ReadUE(l.rest);
      var t :- ReadUE(r.rest);
      var b :- ReadUE(t.rest);
      Some(At(Some((l.value + r.value, t.value + b.value)), b.rest))
  }

  /** The flags between the size and the cropping rectangle. */
  function ReadFieldFlags(s: bits): Option<At<bool>> {
    var frameMbsOnly :- ReadFlag(s);
    if frameMbsOnly.value then
      var direct :- ReadFlag(frameMbsOnly.rest);
      Some(At(true, direct.rest))
    else
      var adaptive :- ReadFlag(frameMbsOnly.rest);
      var direct :- ReadFlag(adaptive.rest);
      Some(At(false, direct.rest))
  }

  function Size(widthMinus1: int, heightMinus1: int, frameMbsOnly: bool, crop: Option<(int, int)>, sub: Subsampling): Dims {
    var fields := if frameMbsOnly then 1 else 2;
    var codedW := (widthMinus1 + 1) * 16;
    var codedH := (heightMinus1 + 1) * 16 * fields;
    if crop.None? then Dims(codedW, codedH)
    else Dims(codedW - crop.value.0 * sub.w, codedH - crop.value.1 * sub.h * fields)
  }

  function ReadSize(sub: Subsampling, s: bits): Option<At<Dims>> {
    var w :- ReadUE(s);
    var h :- ReadUE(w.rest);
    var fields :- ReadFieldFlags(h.rest);
    var crop :- ReadCrop(fields.rest);
    Some(At(Size(w.value, h.value, fields.value, crop.value, sub), crop.rest))
  }

  function ReadHeader(s: bits): Option<At<nat>> {
    var profile :- ReadU(8, s);
    var constraints :- ReadU(8, profile.rest);
    var level :- ReadU(8, constraints.rest);
    var id :- ReadUE(level.rest);
    Some(At(profile.value, id.rest))
  }

  /** From log2_max_frame_num_minus4 to gaps_in_frame_num_value_allowed_flag. */
  function ReadFrameNumbers(s: bits): Option<At<()>> {
    var log2 :- ReadUE(s);
    var order :- ReadOrder(log2.rest);
    var refs :- ReadUE(order.rest);
    var gaps :- ReadFlag(refs.rest);
    Some(At((), gaps.rest))
  }

  function ReadSps(s: bits): Option<At<Dims>> {
    var header :- ReadHeader(s);
    var chroma :- ReadChroma(header.value, header.rest);
    var numbers :- ReadFrameNumbers(chroma.rest);
    ReadSize(chroma.value, numbers.rest)
  }

  // ---------------------------------------------------------------- NAL units

  /** The bits of a byte string, most significant first. */
  function BitsOf(bytes: seq<byte>): (s: bits)
    ensures |s| == 8 * |bytes|
  {
    seq(8 * |bytes|, i requires 0 <= i < 8 * |bytes| => bytes[i / 8] / Pow2(7 - i % 8) % 2 == 1)
  }

  predicate EndsInTwoZeros(s: seq<byte>) {
    |s| >= 2 && s[|s| - 1] == 0 && s[|s| - 2] == 0
  }

  predicate HasZeroZeroThree(s: seq<byte>) {
    exists i :: 0 <= i <= |s| - 3 && s[i] == 0 && s[i + 1] == 0 && s[i + 2] == 3
  }

  /** Emulation prevention: a 3 before any byte of at most 3 after two zero bytes. An SPS ends in its stop
      bit, so the rule for a final zero byte does not arise. */
  function Escape(rbsp: seq<byte>, zeros: nat): seq<byte>
    decreases |rbsp|
  {
    if rbsp == [] then []
    else if zeros >= 2 && rbsp[0] <= 3 then [3, rbsp[0]] + Escape(rbsp[1..], if rbsp[0] == 0 then 1 else 0)
    else [rbsp[0]] + Escape(rbsp[1..], if rbsp[0] == 0 then zeros + 1 else 0)
  }

  /** Drop each 3 that comes while the bytes kept so far end in two zeros. */
  function Unescape(payload: seq<byte>, kept: seq<byte>): seq<byte>
    decreases |payload|
  {
    if payload == [] then kept
    else if payload[0] == 3 && EndsInTwoZeros(kept) then Unescape(payload[1..], kept)
    else Unescape(payload[1..], kept + [payload[0]])
  }

  /** Where the NAL header is, after a four- or three-byte start code. */
  function HeaderOffset(nal: seq<byte>): Option<nat> {
    if |nal| >= 4 && nal[..4] == [0, 0, 0, 1] then Some(4)
    else if |nal| >= 3 && nal[..3] == [0, 0, 1] then Some(3)
    else None
  }

  const SPS_TYPE := 7

  function ParseNal(nal: seq<byte>): Option<Dims> {
    var offset :- HeaderOffset(nal);
    if offset >= |nal| || nal[offset] % 32 != SPS_TYPE then None
    else
      var size :- ReadSps(BitsOf(Unescape(nal[offset + 1..], [])));
      Some(size.value)
  }
}
