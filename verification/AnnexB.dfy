/**
 The emulator encoder's two byte conversions: length-prefixed NAL units to start codes (Annex B of ITU-T
 H.264), and RGBA rows to the cropped BGRA buffer it encodes.
 */
module AnnexB {

  import opened Bytes
  import opened Options

  type Nal = seq<byte>

  const START_CODE: seq<byte> := [0, 0, 0, 1]

  /** What a length prefix can carry and the loop does not stop at. */
  predicate Carried(n: Nal) {
    0 < |n| < 0x1_0000_0000
  }

  ghost predicate AllCarried(ns: seq<Nal>) {
    forall i | 0 <= i < |ns| :: Carried(ns[i])
  }

  function Avcc(ns: seq<Nal>): seq<byte>
    requires AllCarried(ns)
  {
    if ns == [] then [] else PutU32(|ns[0]|) + ns[0] + Avcc(ns[1..])
  }

  function StartCoded(ns: seq<Nal>): seq<byte> {
    if ns == [] then [] else START_CODE + ns[0] + StartCoded(ns[1..])
  }

  /** A whole, non-empty unit is at the front. */
  predicate Whole(b: seq<byte>) {
    |b| >= 4 && 0 < BeU32(b, 0) <= |b| - 4
  }

  function First(b: seq<byte>): (n: Nal)
    requires Whole(b)
    ensures Carried(n)
  {
    b[4..4 + BeU32(b, 0)]
  }

  function Rest(b: seq<byte>): seq<byte>
    requires Whole(b)
  {
    b[4 + BeU32(b, 0)..]
  }

  /** The units at the front of a buffer, up to the first that is empty or cut off. */
  function Units(b: seq<byte>): (ns: seq<Nal>)
    ensures AllCarried(ns)
    decreases |b|
  {
    if !Whole(b) then [] else [First(b)] + Units(Rest(b))
  }

  lemma FrontOf(n: Nal, tail: seq<byte>)
    requires Carried(n)
    ensures var b := PutU32(|n|) + n + tail; Whole(b) && First(b) == n && Rest(b) == tail
  {
    var b := PutU32(|n|) + n + tail;
    assert b == PutU32(|n|) + (n + tail);
    U32RoundTrip(|n|, n + tail);
  }

  lemma FrontBack(b: seq<byte>)
    requires Whole(b)
    ensures b == PutU32(|First(b)|) + First(b) + Rest(b)
  {
    U32Back(b);
    assert b == b[..4] + First(b) + Rest(b);
  }

  lemma PutFirst(ns: seq<Nal>, tail: seq<byte>)
    requires AllCarried(ns) && ns != []
    ensures Carried(ns[0]) && AllCarried(ns[1..])
    ensures Avcc(ns) + tail == PutU32(|ns[0]|) + ns[0] + (Avcc(ns[1..]) + tail)
  {
  }

  /** Units put in front of a buffer are found there, whole and in order. */
  lemma {:induction false} FindsUnits(ns: seq<Nal>, tail: seq<byte>)
    requires AllCarried(ns)
    ensures Units(Avcc(ns) + tail) == ns + Units(tail)
    decreases |ns|
  {
    hide Whole, First, Rest, PutU32, BeU32, Carried;
    if ns == [] {
      assert Avcc(ns) + tail == tail && ns + Units(tail) == Units(tail);
    } else {
      var more := Avcc(ns[1..]) + tail;
      PutFirst(ns, tail);
      FrontOf(ns[0], more);
      FindsUnits(ns[1..], tail);
      assert [ns[0]] + (ns[1..] + Units(tail)) == ns + Units(tail);
    }
  }

  lemma {:induction false} UnitsAreAPrefix(b: seq<byte>)
    ensures Avcc(Units(b)) <= b
    decreases |b|
  {
    if Whole(b) {
      UnitsAreAPrefix(Rest(b));
      FrontBack(b);
      assert Units(b)[1..] == Units(Rest(b));
    }
  }

  /** The units found are the longest well-formed front of the buffer: any units it begins with begin them. */
  lemma LongestWellFormedFront(b: seq<byte>, ns: seq<Nal>)
    requires AllCarried(ns) && Avcc(ns) <= b
    ensures ns <= Units(b)
    ensures Avcc(Units(b)) <= b
  {
    FindsUnits(ns, b[|Avcc(ns)|..]);
    assert b == Avcc(ns) + b[|Avcc(ns)|..];
    UnitsAreAPrefix(b);
  }

  /** One more unit taken from `offset`. */
  lemma TakesUnit(b: seq<byte>, offset: nat)
    requires offset <= |b| && Whole(b[offset..])
    ensures var n := BeU32(b, offset);
            StartCoded(Units(b[offset..])) == START_CODE + b[offset + 4..offset + 4 + n] + StartCoded(Units(b[offset + 4 + n..]))
  {
    hide BeU32;
    var rest := b[offset..];
    var n := BeU32(b, offset);
    SameLength(b, offset);
    assert First(rest) == b[offset + 4..offset + 4 + n] && Rest(rest) == b[offset + 4 + n..];
    var ns := Units(Rest(rest));
    assert Units(rest) == [First(rest)] + ns && ([First(rest)] + ns)[1..] == ns;
  }

  lemma SameLength(b: seq<byte>, offset: nat)
    requires offset + 4 <= |b|
    ensures BeU32(b, offset) == BeU32(b[offset..], 0)
  {
  }

  lemma NothingWhole(b: seq<byte>, offset: nat)
    requires offset <= |b| && !Whole(b[offset..])
    ensures Units(b[offset..]) == []
  {
  }

  lemma WholeAt(b: seq<byte>, offset: nat)
    requires offset <= |b|
    ensures Whole(b[offset..]) <==> offset + 4 <= |b| && BeU32(b, offset) > 0 && offset + 4 + BeU32(b, offset) <= |b|
  {
  }

  /** The callback's loop. */
  method ToStartCodes(b: seq<byte>) returns (out: seq<byte>)
    ensures out == StartCoded(Units(b))
  {
    hide StartCoded, Units, Whole, BeU32;
    out := [];
    var offset := 0;
    Empty();
    while offset + 4 <= |b|
      invariant offset <= |b|
      invariant out + StartCoded(Units(b[offset..])) == StartCoded(Units(b))
      decreases |b| - offset
    {
      var n := BeU32(b, offset);
      WholeAt(b, offset);
      if n == 0 || offset + 4 + n > |b| {
        NothingWhole(b, offset);
        return;
      }
      TakesUnit(b, offset);
      offset := offset + 4;
      out := out + (START_CODE + b[offset..offset + n]);
      offset := offset + n;
    }
    WholeAt(b, offset);
    NothingWhole(b, offset);
  }

  lemma Empty()
    ensures StartCoded([]) == []
  {
  }

  /** For any list of non-empty units, their length-prefixed form comes out as each behind a start code. */
  lemma EveryUnitIsStartCoded(ns: seq<Nal>)
    requires AllCarried(ns)
    ensures StartCoded(Units(Avcc(ns))) == StartCoded(ns)
  {
    FindsUnits(ns, []);
    assert Avcc(ns) + [] == Avcc(ns) && ns + [] == ns;
  }

  // ---------------------------------------------------------------- read back by the standard

  /** Where a unit ends: before three zero bytes, or two and a one, or with the stream. */
  function UnitEnd(s: seq<byte>, k: nat): (e: nat)
    requires k <= |s|
    ensures k <= e <= |s|
    decreases |s| - k
  {
    if k == |s| || (k + 3 <= |s| && s[k] == 0 && s[k + 1] == 0 && s[k + 2] <= 1) then k else UnitEnd(s, k + 1)
  }

  /** The units of a byte stream whose units each follow a four-byte start code. */
  function Scanned(s: seq<byte>): Option<seq<Nal>>
    decreases |s|
  {
    if s == [] then Some([])
    else if |s| < 4 || s[..4] != [0, 0, 0, 1] then None
    else
      var e := UnitEnd(s, 4);
      var rest :- Scanned(s[e..]);
      Some([s[4..e]] + rest)
  }

  /** A unit as emulation prevention leaves it: no start code or run of zeros within, and no zero at its end. */
  ghost predicate Prevented(n: Nal) {
    && n != [] && n[|n| - 1] != 0
    && forall k | 0 <= k && k + 3 <= |n| :: !(n[k] == 0 && n[k + 1] == 0 && n[k + 2] <= 1)
  }

  lemma {:induction false} EndsAtTheNext(n: Nal, tail: seq<byte>, k: nat)
    requires Prevented(n) && k <= |n|
    requires tail == [] || (|tail| >= 3 && tail[0] == 0 && tail[1] == 0 && tail[2] <= 1)
    ensures UnitEnd([0, 0, 0, 1] + n + tail, 4 + k) == 4 + |n|
    decreases |n| - k
  {
    var s := [0, 0, 0, 1] + n + tail;
    if k < |n| {
      assert s[4 + k] == n[k];
      assert s[4 + |n| - 1] == n[|n| - 1];
      if k + 3 <= |n| { assert s[4 + k + 1] == n[k + 1] && s[4 + k + 2] == n[k + 2]; }
      EndsAtTheNext(n, tail, k + 1);
    }
  }

  /** Units that came out of emulation prevention are read back from the converted stream by the standard's rule,
      each whole and in order. */
  lemma {:induction false} ScansWhatWasCoded(ns: seq<Nal>)
    requires forall n | n in ns :: Prevented(n)
    ensures Scanned(StartCoded(ns)) == Some(ns)
    decreases |ns|
  {
    hide Prevented, StartCoded;
    if ns == [] {
      Empty();
    } else {
      StartsCoded(ns[1..]);
      ScansWhatWasCoded(ns[1..]);
      CodesFirst(ns);
      ScansFirst(ns[0], StartCoded(ns[1..]));
      assert [ns[0]] + ns[1..] == ns;
    }
  }

  lemma CodesFirst(ns: seq<Nal>)
    requires ns != []
    ensures StartCoded(ns) == [0, 0, 0, 1] + ns[0] + StartCoded(ns[1..])
  {
  }

  lemma StartsCoded(ns: seq<Nal>)
    ensures var s := StartCoded(ns); s == [] || (|s| >= 3 && s[0] == 0 && s[1] == 0 && s[2] <= 1)
  {
    if ns != [] { assert StartCoded(ns) == [0, 0, 0, 1] + (ns[0] + StartCoded(ns[1..])); }
  }

  lemma ScansFirst(n: Nal, tail: seq<byte>)
    requires Prevented(n) && (tail == [] || (|tail| >= 3 && tail[0] == 0 && tail[1] == 0 && tail[2] <= 1))
    ensures var rest := Scanned(tail);
            Scanned([0, 0, 0, 1] + n + tail) == if rest.None? then None else Some([n] + rest.value)
  {
    hide Prevented;
    var s := [0, 0, 0, 1] + n + tail;
    EndsAtTheNext(n, tail, 0);
    assert s[..4] == [0, 0, 0, 1] && s[4..4 + |n|] == n && s[4 + |n|..] == tail;
  }

  // ---------------------------------------------------------------- the pixel buffer

  /** The largest multiple of 16 up to n. */
  function Cropped(n: nat): (c: nat)
    ensures c <= n < c + 16 && c % 16 == 0
  {
    n - n % 16
  }

  lemma InRows(row: nat, rows: nat, stride: nat)
    requires row < rows
    ensures 0 <= row * stride && row * stride + stride <= rows * stride
  {
    Product(rows - row - 1, stride);
    assert rows * stride == row * stride + stride + (rows - row - 1) * stride;
  }

  lemma Product(a: int, b: int)
    requires a >= 0 && b >= 0
    ensures a * b >= 0
  {
  }

  /** The x-th pixel of a row of the buffer, blue first, is that of the frame's row, red first. */
  predicate PixelDone(dst: seq<byte>, to: nat, src: seq<byte>, from: nat, x: nat)
    requires to + 4 * x + 4 <= |dst| && from + 4 * x + 4 <= |src|
  {
    var (d, s) := (to + 4 * x, from + 4 * x);
    var (blue, green, red, alpha) := (dst[d], dst[d + 1], dst[d + 2], dst[d + 3]);
    [red, green, blue, alpha] == src[s..s + 4]
  }

  /** A row of the buffer holds the first `cols` pixels of the frame's row. */
  ghost predicate RowDone(dst: seq<byte>, to: nat, src: seq<byte>, from: nat, cols: nat) {
    to + 4 * cols <= |dst| && from + 4 * cols <= |src| && forall x: nat | x < cols :: PixelDone(dst, to, src, from, x)
  }

  /** One row, red and blue swapped. */
  method CopyRow(src: seq<byte>, from: nat, dst: array<byte>, to: nat, cols: nat)
    requires from + 4 * cols <= |src| && to + 4 * cols <= dst.Length
    modifies dst
    ensures RowDone(dst[..], to, src, from, cols)
    ensures forall i | 0 <= i < dst.Length && !(to <= i < to + 4 * cols) :: dst[i] == old(dst[i])
  {
    var x := 0;
    while x < cols
      invariant 0 <= x <= cols
      invariant forall k: nat | k < x :: PixelDone(dst[..], to, src, from, k)
      invariant forall i | 0 <= i < dst.Length && !(to <= i < to + 4 * x) :: dst[i] == old(dst[i])
    {
      ghost var before := dst[..];
      var s, d := from + 4 * x, to + 4 * x;
      dst[d] := src[s + 2];
      dst[d + 1] := src[s + 1];
      dst[d + 2] := src[s];
      dst[d + 3] := src[s + 3];
      forall k: nat | k < x ensures PixelDone(dst[..], to, src, from, k) {
        assert PixelDone(before, to, src, from, k);
      }
      x := x + 1;
    }
  }

  /** The kept part of a row lies within the frame, and its place within the buffer. */
  lemma RowFits(row: nat, width: nat, height: nat, stride: nat)
    requires row < Cropped(height) && stride >= 4 * Cropped(width)
    ensures 0 <= row * stride && row * stride + 4 * Cropped(width) <= stride * Cropped(height)
    ensures 0 <= row * (width * 4) && row * (width * 4) + 4 * Cropped(width) <= width * height * 4
  {
    InRows(row, Cropped(height), stride);
    InRows(row, height, width * 4);
    assert height * (width * 4) == width * height * 4;
  }

  /** `makePixelBuffer` into a buffer of the cropped size: every kept pixel, and nothing of the row padding. */
  method FillPixels(rgba: seq<byte>, width: nat, height: nat, dst: array<byte>, stride: nat)
    requires |rgba| == width * height * 4
    requires stride >= 4 * Cropped(width) && dst.Length == stride * Cropped(height)
    modifies dst
    ensures forall row: nat | row < Cropped(height) ::
              RowDone(dst[..], row * stride, rgba, row * (width * 4), Cropped(width))
  {
    hide RowDone;
    var cols, rows := Cropped(width), Cropped(height);
    for row := 0 to rows
      invariant forall r: nat | r < row :: RowDone(dst[..], r * stride, rgba, r * (width * 4), cols)
    {
      RowFits(row, width, height, stride);
      ghost var before := dst[..];
      var to := row * stride;
      CopyRow(rgba, row * (width * 4), dst, to, cols);
      forall r: nat | r < row ensures RowDone(dst[..], r * stride, rgba, r * (width * 4), cols) {
        InRows(r, row, stride);
        KeepsRow(before, dst[..], r * stride, rgba, r * (width * 4), cols);
      }
    }
  }

  lemma KeepsRow(before: seq<byte>, after: seq<byte>, to: nat, src: seq<byte>, from: nat, cols: nat)
    requires RowDone(before, to, src, from, cols) && |after| == |before|
    requires forall i | to <= i < to + 4 * cols :: after[i] == before[i]
    ensures RowDone(after, to, src, from, cols)
  {
    forall x: nat | x < cols ensures PixelDone(after, to, src, from, x) {
      assert PixelDone(before, to, src, from, x);
    }
  }

  /** Every kept pixel's four bytes lie within the frame. */
  lemma KeptPixelsAreInFrame(width: nat, height: nat, row: nat, x: nat)
    requires row < Cropped(height) && x < Cropped(width)
    ensures row * (width * 4) + 4 * x + 4 <= width * height * 4
  {
    InRows(row, height, width * 4);
    assert height * (width * 4) == width * height * 4;
  }
}
