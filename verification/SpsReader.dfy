/**
 `parseSpsFromNal` as it runs: a loop that collects the unescaped bytes, a bit cursor over them, and
 reads that give up at the end of the bytes.
 */
module SpsReader {

  import opened Bytes
  import opened Options
  import opened Sps

  /** The cursor did what the read says: gave up with it, or returned its value and stands at its rest. */
  ghost predicate Did<T(!new)>(spec: Option<At<T>>, got: Option<T>, rest: bits) {
    if spec.None? then got.None? else got == Some(spec.value.value) && rest == spec.value.rest
  }

  lemma NextBit(bytes: seq<byte>, bit: nat)
    requires bit < 8 * |bytes|
    ensures BitsOf(bytes)[bit] <==> bytes[bit / 8] / Pow2(7 - bit % 8) % 2 == 1
  {
  }

  lemma NextValue(s: bits, i: nat)
    requires i < |s|
    ensures Value(s[..i + 1]) == 2 * Value(s[..i]) + if s[i] then 1 else 0
  {
    assert s[..i + 1][..i] == s[..i];
  }

  class BitReader {
    const bytes: seq<byte>
    var bit: nat

    ghost predicate Valid()
      reads this
    {
      bit <= 8 * |bytes|
    }

    ghost function Rest(): bits
      requires Valid()
      reads this
    {
      BitsOf(bytes)[bit..]
    }

    constructor (bytes: seq<byte>)
      ensures Valid() && this.bytes == bytes && Rest() == BitsOf(bytes)
    {
      this.bytes, bit := bytes, 0;
    }

    method ReadBits(n: nat) returns (r: Option<nat>)
      requires Valid() && n <= 31
      modifies this
      ensures Valid() && Did(ReadU(n, old(Rest())), r, Rest())
    {
      hide BitsOf, Pow2;
      var v: nat := 0;
      for i := 0 to n
        invariant Valid() && bit == old(bit) + i
        invariant v == Value(old(Rest())[..i])
      {
        if bit / 8 >= |bytes| { return None; }
        var b := bytes[bit / 8] / Pow2(7 - bit % 8) % 2;
        NextBit(bytes, bit);
        NextValue(old(Rest()), i);
        v := 2 * v + b;
        bit := bit + 1;
      }
      r := Some(v);
    }

    /** One bit. */
    method ReadBit() returns (r: Option<bool>)
      requires Valid()
      modifies this
      ensures Valid() && Did(ReadFlag(old(Rest())), r, Rest())
    {
      var v :- ReadBits(1);
      ghost var s := old(Rest());
      assert s[..1][..0] == [] && Value(s[..1]) == if s[0] then 1 else 0;
      r := Some(v == 1);
    }

    method ReadCode() returns (r: Option<int>)
      requires Valid()
      modifies this
      ensures Valid() && Did(ReadUE(old(Rest())), r, Rest())
    {
      hide BitsOf, Pow2, Value;
      var lz := 0;
      while true
        invariant Valid() && lz <= 31
        invariant LeadingZeros(old(Rest()), 0) == LeadingZeros(Rest(), lz)
        decreases 31 - lz
      {
        var one :- ReadBit();
        if one { break; }
        lz := lz + 1;
        if lz > 31 { return None; }
      }
      assert LeadingZeros(old(Rest()), 0) == Some(At(lz, Rest()));
      if lz == 0 { return Some(0); }
      var low :- ReadBits(lz);
      r := Some(Shifted1(lz) - 1 + low);
    }

    /** A signed code, whose value nothing uses. */
    method SkipCode() returns (r: Option<()>)
      requires Valid()
      modifies this
      ensures Valid() && Skipped(ReadUE(old(Rest())), r, Rest())
    {
      var _ :- ReadCode();
      r := Some(());
    }

    /** The chroma format of a profile that has one, and the flags after it. */
    method ReadSampling(profile: nat) returns (r: Option<Subsampling>)
      requires Valid()
      modifies this
      ensures Valid() && Did(ReadChroma(profile, old(Rest())), r, Rest())
    {
      hide ReadUE, ReadFlag, BitsOf;
      var sub := Subsampling(2, 2);
      if profile in CHROMA_PROFILES {
        var idc :- ReadCode();
        sub := Sampling(idc);
        if idc == 3 { var _ :- ReadBit(); }
        var _ :- ReadCode();
        var _ :- ReadCode();
        var _ :- ReadBit();
        var scaling :- ReadBit();
        if scaling { return None; }
      }
      r := Some(sub);
    }

    method SkipOffsets(n: int) returns (r: Option<()>)
      requires Valid()
      modifies this
      ensures Valid() && Did(ReadOffsets(n, old(Rest())), r, Rest())
    {
      hide ReadUE, BitsOf;
      var i := 0;
      while i < n
        invariant Valid() && (n >= 0 ==> i <= n)
        invariant ReadOffsets(n, old(Rest())) == ReadOffsets(n - i, Rest())
      {
        var _ :- SkipCode();
        i := i + 1;
      }
      r := Some(());
    }

    /** pic_order_cnt_type and what depends on it. */
    method SkipOrder() returns (r: Option<()>)
      requires Valid()
      modifies this
      ensures Valid() && Did(ReadOrder(old(Rest())), r, Rest())
    {
      hide ReadUE, ReadFlag, ReadOffsets, BitsOf;
      var poc :- ReadCode();
      if poc == 0 {
        var _ :- ReadCode();
      } else if poc == 1 {
        var _ :- ReadBit();
        var _ :- SkipCode();
        var _ :- SkipCode();
        var n :- ReadCode();
        var _ :- SkipOffsets(n);
      }
      r := Some(());
    }

    method ReadCropping() returns (r: Option<Option<(int, int)>>)
      requires Valid()
      modifies this
      ensures Valid() && Did(ReadCrop(old(Rest())), r, Rest())
    {
      hide ReadUE, ReadFlag, BitsOf;
      var flag :- ReadBit();
      if !flag { return Some(None); }
      var left :- ReadCode();
      var right :- ReadCode();
      var top :- ReadCode();
      var bottom :- ReadCode();
      r := Some(Some((left + right, top + bottom)));
    }

    method ReadFields() returns (r: Option<bool>)
      requires Valid()
      modifies this
      ensures Valid() && Did(ReadFieldFlags(old(Rest())), r, Rest())
    {
      hide ReadFlag, BitsOf;
      var frameMbsOnly :- ReadBit();
      if !frameMbsOnly { var _ :- ReadBit(); }
      var _ :- ReadBit();
      r := Some(frameMbsOnly);
    }

    method ReadDims(sub: Subsampling) returns (r: Option<Dims>)
      requires Valid()
      modifies this
      ensures Valid() && Did(ReadSize(sub, old(Rest())), r, Rest())
    {
      hide ReadUE, ReadFieldFlags, ReadCrop, BitsOf;
      var w :- ReadCode();
      var h :- ReadCode();
      var frameMbsOnly :- ReadFields();
      var crop :- ReadCropping();
      r := Some(Size(w, h, frameMbsOnly, crop, sub));
    }

    /** The whole parameter set. */
    method ReadParameterSet() returns (r: Option<Dims>)
      requires Valid()
      modifies this
      ensures Valid() && Did(ReadSps(old(Rest())), r, Rest())
    {
      hide ReadU, ReadUE, ReadFlag, ReadChroma, ReadOrder, ReadSize, BitsOf;
      var profile :- ReadBits(8);
      var _ :- ReadBits(8);
      var _ :- ReadBits(8);
      var _ :- ReadCode();
      var sub :- ReadSampling(profile);
      var _ :- ReadCode();
      var _ :- SkipOrder();
      var _ :- ReadCode();
      var _ :- ReadBit();
      r := ReadDims(sub);
    }
  }

  ghost predicate Skipped<T(!new)>(spec: Option<At<T>>, got: Option<()>, rest: bits) {
    if spec.None? then got.None? else got.Some? && rest == spec.value.rest
  }

  /** The payload without its emulation prevention bytes. */
  method CollectRbsp(nal: seq<byte>, offset: nat) returns (rbsp: seq<byte>)
    requires offset < |nal|
    ensures rbsp == Unescape(nal[offset + 1..], [])
  {
    rbsp := [];
    for i := offset + 1 to |nal|
      invariant Unescape(nal[i..], rbsp) == Unescape(nal[offset + 1..], [])
    {
      assert nal[i..][1..] == nal[i + 1..];
      if nal[i] == 3 && EndsInTwoZeros(rbsp) { continue; }
      rbsp := rbsp + [nal[i]];
    }
  }

  /** `parseSpsFromNal`. */
  method ParseSpsFromNal(nal: seq<byte>) returns (size: Option<Dims>)
    ensures size == ParseNal(nal)
  {
    hide ReadSps, BitsOf, Unescape, HeaderOffset;
    var offset :- HeaderOffset(nal);
    if offset >= |nal| || nal[offset] % 32 != SPS_TYPE { return None; }
    var rbsp := CollectRbsp(nal, offset);
    var reader := new BitReader(rbsp);
    size := reader.ReadParameterSet();
  }
}
