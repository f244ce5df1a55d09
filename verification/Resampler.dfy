/**
 Linear resampling over callbacks: the phase and the last frame of one callback carried into the next.
 */
module Resampler {

  datatype Frame = Frame(l: real, r: real)

  datatype State = State(pos: real, prev: Frame)

  const FRESH := State(0.0, Frame(0.0, 0.0))

  /** Toward zero, as a conversion to an integer type truncates. */
  function Truncated(x: real): int {
    if x >= 0.0 then x.Floor else -((-x).Floor)
  }

  function Clamped(x: real): real {
    if x > 1.0 then 1.0 else if x < -1.0 then -1.0 else x
  }

  function ToSample(x: real): int {
    Truncated(Clamped(x) * 32767.0)
  }

  function Between(a: real, b: real, frac: real): real {
    a + (b - a) * frac
  }

  /** The pair of samples between two frames. */
  function Mixed(a: Frame, b: Frame, frac: real): seq<int> {
    [ToSample(Between(a.l, b.l, frac)), ToSample(Between(a.r, b.r, frac))]
  }

  /** The frame at index i of a callback; the one before it comes from the last callback. */
  function FrameAt(c: seq<Frame>, prev: Frame, i: int): Frame
    requires -1 <= i < |c|
  {
    if i < 0 then prev else c[i]
  }

  /** How many steps from `p` to `end`, at most. */
  function StepsLeft(p: real, end: real, step: real): nat
    requires step > 0.0
  {
    if p >= end then 0 else ((end - p) / step).Floor + 1
  }

  lemma Times(a: real, b: real)
    requires a >= 0.0 && b >= 0.0
    ensures a * b >= 0.0
  {
  }

  lemma OneStepFewer(x: real, step: real)
    requires step > 0.0
    ensures (x - step) / step == x / step - 1.0
  {
    var q := x / step;
    var r := (x - step) / step;
    assert q * step == x && r * step == x - step;
    Signs(q - 1.0 - r, step);
    assert (q - 1.0 - r) * step == q * step - step - r * step;
  }

  lemma Signs(a: real, b: real)
    requires b > 0.0
    ensures a > 0.0 ==> a * b > 0.0
    ensures a < 0.0 ==> a * b < 0.0
  {
  }

  lemma StepLess(p: real, end: real, step: real)
    requires step > 0.0 && p < end
    ensures StepsLeft(p + step, end, step) < StepsLeft(p, end, step)
  {
    if p + step < end { OneStepFewer(end - p, step); }
  }

  /** What one callback emits from position `p` on. */
  function ChunkFrom(c: seq<Frame>, prev: Frame, p: real, step: real): seq<int>
    requires step > 0.0 && p >= -1.0
    decreases StepsLeft(p, (|c| - 1) as real, step)
  {
    var end := (|c| - 1) as real;
    if p >= end then []
    else
      StepLess(p, end, step);
      var i := p.Floor;
      Mixed(FrameAt(c, prev, i), FrameAt(c, prev, i + 1), p - i as real) + ChunkFrom(c, prev, p + step, step)
  }

  /** The first position the steps from `a` reach at or after `end`. */
  function Reached(a: real, end: real, step: real): (b: real)
    requires step > 0.0
    ensures b >= end && b >= a
    decreases StepsLeft(a, end, step)
  {
    if a >= end then a else StepLess(a, end, step); Reached(a + step, end, step)
  }

  /** The state a callback leaves. */
  function After(c: seq<Frame>, st: State, step: real): (t: State)
    requires step > 0.0 && st.pos >= -1.0
    ensures t.pos >= -1.0
  {
    State(Reached(st.pos, (|c| - 1) as real, step) - |c| as real, FrameAt(c, st.prev, |c| - 1))
  }

  /** The samples of a run of callbacks. */
  function Chunks(cs: seq<seq<Frame>>, st: State, step: real): seq<int>
    requires step > 0.0 && st.pos >= -1.0
  {
    if cs == [] then [] else ChunkFrom(cs[0], st.prev, st.pos, step) + Chunks(cs[1..], After(cs[0], st, step), step)
  }

  function Joined(cs: seq<seq<Frame>>): seq<Frame> {
    if cs == [] then [] else cs[0] + Joined(cs[1..])
  }

  // ---------------------------------------------------------------- one-shot resampling

  /** The samples at position `a` of the whole input. */
  function SamplesAt(w: seq<Frame>, a: real): (s: seq<int>)
    requires 0.0 <= a < (|w| - 1) as real
    ensures |s| == 2
  {
    var i := a.Floor;
    Mixed(w[i], w[i + 1], a - i as real)
  }

  /** The samples at a, a + step, … before the last frame. */
  function WholeFrom(w: seq<Frame>, a: real, step: real): seq<int>
    requires step > 0.0 && a >= 0.0
    decreases StepsLeft(a, (|w| - 1) as real, step)
  {
    var end := (|w| - 1) as real;
    if a >= end then [] else StepLess(a, end, step); SamplesAt(w, a) + WholeFrom(w, a + step, step)
  }

  /** One-shot resampling of the whole input. */
  function Whole(w: seq<Frame>, step: real): seq<int>
    requires step > 0.0
  {
    WholeFrom(w, 0.0, step)
  }

  // ---------------------------------------------------------------- callbacks add up to the whole

  /** A state that has seen exactly `w`. */
  ghost predicate Seen(w: seq<Frame>, st: State, step: real)
    requires step > 0.0
  {
    if w == [] then st == FRESH
    else st.prev == w[|w| - 1] && st.pos == Reached(0.0, (|w| - 1) as real, step) - |w| as real
  }

  lemma {:induction false} ChunkIsWhole(w: seq<Frame>, c: seq<Frame>, st: State, p: real, step: real)
    requires step > 0.0 && Seen(w, st, step) && p >= st.pos && p >= -1.0
    requires w == [] ==> p >= 0.0
    ensures ChunkFrom(c, st.prev, p, step) == WholeFrom(w + c, p + |w| as real, step)
    decreases StepsLeft(p, (|c| - 1) as real, step)
  {
    hide Mixed, SamplesAt, Seen;
    var end := (|c| - 1) as real;
    var a := p + |w| as real;
    if p < end {
      StepLess(p, end, step);
      ChunkIsWhole(w, c, st, p + step, step);
      StepIsWhole(w, c, st, p, step);
      assert p + step + |w| as real == a + step;
    }
  }

  lemma StepIsWhole(w: seq<Frame>, c: seq<Frame>, st: State, p: real, step: real)
    requires step > 0.0 && Seen(w, st, step) && st.pos <= p < (|c| - 1) as real && p >= -1.0
    requires w == [] ==> p >= 0.0
    ensures Mixed(FrameAt(c, st.prev, p.Floor), FrameAt(c, st.prev, p.Floor + 1), p - p.Floor as real)
            == SamplesAt(w + c, p + |w| as real)
  {
    hide Mixed;
    var a := p + |w| as real;
    assert a.Floor == p.Floor + |w|;
    assert FrameAt(c, st.prev, p.Floor) == (w + c)[a.Floor];
    assert FrameAt(c, st.prev, p.Floor + 1) == (w + c)[a.Floor + 1];
  }

  lemma {:induction false} WholeSplits(w: seq<Frame>, c: seq<Frame>, a: real, step: real)
    requires step > 0.0 && a >= 0.0
    ensures WholeFrom(w + c, a, step) == WholeFrom(w, a, step) + WholeFrom(w + c, Reached(a, (|w| - 1) as real, step), step)
    decreases StepsLeft(a, (|w| - 1) as real, step)
  {
    var end := (|w| - 1) as real;
    if a < end {
      StepLess(a, end, step);
      WholeSplits(w, c, a + step, step);
      assert SamplesAt(w + c, a) == SamplesAt(w, a);
    }
  }

  lemma {:induction false} ReachedAgain(a: real, mid: real, end: real, step: real)
    requires step > 0.0 && mid <= end
    ensures Reached(Reached(a, mid, step), end, step) == Reached(a, end, step)
    decreases StepsLeft(a, mid, step)
  {
    if a < mid {
      StepLess(a, mid, step);
      ReachedAgain(a + step, mid, end, step);
    }
  }

  lemma {:induction false} ReachedShifts(a: real, end: real, step: real, n: real)
    requires step > 0.0
    ensures Reached(a + n, end + n, step) == Reached(a, end, step) + n
    decreases StepsLeft(a, end, step)
  {
    if a < end {
      StepLess(a, end, step);
      ReachedShifts(a + step, end, step, n);
      assert a + n + step == a + step + n;
    }
  }

  /** After a callback, the state has seen one callback more. */
  lemma AfterHasSeen(w: seq<Frame>, c: seq<Frame>, st: State, step: real)
    requires step > 0.0 && Seen(w, st, step) && st.pos >= -1.0
    ensures Seen(w + c, After(c, st, step), step)
  {
    var n := |w| as real;
    var end := (|c| - 1) as real;
    if w == [] {
      assert w + c == c;
    } else {
      ReachedShifts(st.pos, end, step, n);
      ReachedAgain(0.0, n - 1.0, end + n, step);
      assert st.pos + n == Reached(0.0, n - 1.0, step);
      assert (|w + c| - 1) as real == end + n;
    }
  }

  lemma {:induction false} ChunksFrom(w: seq<Frame>, cs: seq<seq<Frame>>, st: State, step: real)
    requires step > 0.0 && Seen(w, st, step) && st.pos >= -1.0
    ensures Whole(w, step) + Chunks(cs, st, step) == Whole(w + Joined(cs), step)
    decreases |cs|
  {
    if cs == [] {
      assert w + Joined(cs) == w;
    } else {
      var c := cs[0];
      OneChunk(w, c, st, step);
      AfterHasSeen(w, c, st, step);
      ChunksFrom(w + c, cs[1..], After(c, st, step), step);
      assert w + c + Joined(cs[1..]) == w + Joined(cs);
    }
  }

  lemma OneChunk(w: seq<Frame>, c: seq<Frame>, st: State, step: real)
    requires step > 0.0 && Seen(w, st, step) && st.pos >= -1.0
    ensures Whole(w, step) + ChunkFrom(c, st.prev, st.pos, step) == Whole(w + c, step)
  {
    ChunkIsWhole(w, c, st, st.pos, step);
    WholeSplits(w, c, 0.0, step);
  }

  /** However the input is cut into callbacks, the output is that of the whole input at once. */
  lemma ChunksAreOneShot(cs: seq<seq<Frame>>, step: real)
    requires step > 0.0
    ensures Chunks(cs, FRESH, step) == Whole(Joined(cs), step)
  {
    ChunksFrom([], cs, FRESH, step);
    assert [] + Joined(cs) == Joined(cs);
  }

  // ---------------------------------------------------------------- what one shot emits

  lemma NextMultiple(a: real, step: real, k: nat)
    requires k > 0
    ensures a + step + (k - 1) as real * step == a + k as real * step
  {
  }

  lemma TailSlice(first: seq<int>, rest: seq<int>, k: nat)
    requires |first| == 2 && k > 0
    ensures 2 * k < |first + rest| <==> 2 * (k - 1) < |rest|
    ensures 2 * k + 2 <= |first + rest| ==> (first + rest)[2 * k..2 * k + 2] == rest[2 * (k - 1)..2 * (k - 1) + 2]
  {
  }

  lemma {:induction false} EmitsAt(w: seq<Frame>, a: real, step: real, k: nat)
    requires step > 0.0 && a >= 0.0
    ensures 2 * k < |WholeFrom(w, a, step)| <==> a + k as real * step < (|w| - 1) as real
    ensures 2 * k < |WholeFrom(w, a, step)| ==>
              2 * k + 2 <= |WholeFrom(w, a, step)| &&
              WholeFrom(w, a, step)[2 * k..2 * k + 2] == SamplesAt(w, a + k as real * step)
    decreases k
  {
    var end := (|w| - 1) as real;
    hide SamplesAt;
    if a >= end {
      Times(k as real, step);
    } else {
      StepLess(a, end, step);
      var rest := WholeFrom(w, a + step, step);
      assert WholeFrom(w, a, step) == SamplesAt(w, a) + rest;
      if k > 0 {
        EmitsAt(w, a + step, step, k - 1);
        NextMultiple(a, step, k);
        TailSlice(SamplesAt(w, a), rest, k);
      }
    }
  }

  lemma EmitsSamples(w: seq<Frame>, step: real, k: nat)
    requires step > 0.0
    ensures 2 * k < |Whole(w, step)| <==> k as real * step < (|w| - 1) as real
    ensures 2 * k < |Whole(w, step)| ==>
              2 * k + 2 <= |Whole(w, step)| && Whole(w, step)[2 * k..2 * k + 2] == SamplesAt(w, k as real * step)
  {
    EmitsAt(w, 0.0, step, k);
  }

  /** A 16-bit sample of the value `y`, full scale at 1 and cut toward zero: 32767 from 1 up, -32767 from -1 down,
      and between them less than 1 from 32767 y and no larger in size. */
  predicate IsSampleOf(s: int, y: real) {
    if y >= 1.0 then s == 32767
    else if y <= -1.0 then s == -32767
    else if y >= 0.0 then 32767.0 * y - 1.0 < s as real <= 32767.0 * y
    else 32767.0 * y <= s as real < 32767.0 * y + 1.0
  }

  lemma SamplesTheValue(y: real)
    ensures IsSampleOf(ToSample(y), y)
  {
  }

  /** The straight line from `a` at 0 to `b` at 1. */
  function Line(a: real, b: real, at: real): real {
    (1.0 - at) * a + at * b
  }

  lemma OnTheLine(a: real, b: real, frac: real)
    ensures Between(a, b, frac) == Line(a, b, frac)
  {
  }

  lemma MixesOnTheLine(a: Frame, b: Frame, frac: real)
    ensures var m := Mixed(a, b, frac);
            && |m| == 2
            && IsSampleOf(m[0], Line(a.l, b.l, frac))
            && IsSampleOf(m[1], Line(a.r, b.r, frac))
  {
    hide ToSample, Between, IsSampleOf, Line;
    OnTheLine(a.l, b.l, frac);
    OnTheLine(a.r, b.r, frac);
    SamplesTheValue(Between(a.l, b.l, frac));
    SamplesTheValue(Between(a.r, b.r, frac));
  }

  /** The pair of samples is that of the straight line between the two frames around position `at`. */
  predicate OnTheInput(w: seq<Frame>, at: real, l: int, r: int)
    requires 0.0 <= at < (|w| - 1) as real
  {
    var i := at.Floor;
    var frac := at - i as real;
    && IsSampleOf(l, Line(w[i].l, w[i + 1].l, frac))
    && IsSampleOf(r, Line(w[i].r, w[i + 1].r, frac))
  }

  lemma SamplesOnTheInput(w: seq<Frame>, at: real)
    requires 0.0 <= at < (|w| - 1) as real
    ensures OnTheInput(w, at, SamplesAt(w, at)[0], SamplesAt(w, at)[1])
  {
    hide Mixed, IsSampleOf, Line;
    MixesOnTheLine(w[at.Floor], w[at.Floor + 1], at - at.Floor as real);
  }

  /** For every input there is a pair for exactly the multiples of the step before the last frame, and its
      samples are those of the input there. */
  lemma EmitsEveryStep(w: seq<Frame>, step: real, k: nat)
    requires step > 0.0
    ensures 2 * k < |Whole(w, step)| <==> k as real * step < (|w| - 1) as real
    ensures 2 * k < |Whole(w, step)| ==>
              && 2 * k + 2 <= |Whole(w, step)| && 0.0 <= k as real * step
              && OnTheInput(w, k as real * step, Whole(w, step)[2 * k], Whole(w, step)[2 * k + 1])
  {
    hide Whole, OnTheInput, SamplesAt;
    EmitsSamples(w, step, k);
    if 2 * k < |Whole(w, step)| {
      Times(k as real, step);
      var pair := Whole(w, step)[2 * k..2 * k + 2];
      assert pair[0] == Whole(w, step)[2 * k] && pair[1] == Whole(w, step)[2 * k + 1];
      SamplesOnTheInput(w, k as real * step);
    }
  }

  lemma SampleGrows(a: real, b: real, s: int, t: int)
    requires a <= b && IsSampleOf(s, a) && IsSampleOf(t, b)
    ensures -32767 <= s <= t <= 32767
  {
  }

  lemma LineLiesBetween(a: real, b: real, frac: real)
    requires 0.0 <= frac <= 1.0
    ensures (if a <= b then a else b) <= Line(a, b, frac) <= (if a <= b then b else a)
  {
    if a <= b {
      Times(b - a, frac);
      Times(b - a, 1.0 - frac);
    } else {
      Times(a - b, frac);
      Times(a - b, 1.0 - frac);
    }
  }

  lemma SampleLiesBetween(a: real, b: real, frac: real, s: int, from: int, to: int)
    requires 0.0 <= frac <= 1.0 && IsSampleOf(s, Line(a, b, frac)) && IsSampleOf(from, a) && IsSampleOf(to, b)
    ensures Min(from, to) <= s <= Max(from, to) && -32768 <= s <= 32767
  {
    hide IsSampleOf, Line;
    LineLiesBetween(a, b, frac);
    if a <= b {
      SampleGrows(a, Line(a, b, frac), from, s);
      SampleGrows(Line(a, b, frac), b, s, to);
    } else {
      SampleGrows(b, Line(a, b, frac), to, s);
      SampleGrows(Line(a, b, frac), a, s, from);
    }
  }

  /** Every sample is a 16-bit number between those of the two frames around it. */
  lemma SamplesLieBetween(w: seq<Frame>, step: real, k: nat, a: (int, int), b: (int, int))
    requires step > 0.0 && 2 * k < |Whole(w, step)|
    requires var i := (k as real * step).Floor;
             0 <= i < |w| - 1 ==>
               && IsSampleOf(a.0, w[i].l) && IsSampleOf(a.1, w[i].r)
               && IsSampleOf(b.0, w[i + 1].l) && IsSampleOf(b.1, w[i + 1].r)
    ensures 2 * k + 2 <= |Whole(w, step)|
    ensures var (l, r) := (Whole(w, step)[2 * k], Whole(w, step)[2 * k + 1]);
            && Min(a.0, b.0) <= l <= Max(a.0, b.0) && -32768 <= l <= 32767
            && Min(a.1, b.1) <= r <= Max(a.1, b.1) && -32768 <= r <= 32767
  {
    hide Whole, IsSampleOf, Line, Min, Max;
    EmitsEveryStep(w, step, k);
    var at := k as real * step;
    var i := at.Floor;
    SampleLiesBetween(w[i].l, w[i + 1].l, at - i as real, Whole(w, step)[2 * k], a.0, b.0);
    SampleLiesBetween(w[i].r, w[i + 1].r, at - i as real, Whole(w, step)[2 * k + 1], a.1, b.1);
  }

  function Min(a: int, b: int): int { if a <= b then a else b }

  function Max(a: int, b: int): int { if a <= b then b else a }

  // ---------------------------------------------------------------- the loop

  /** The frames of an interleaved buffer: its first two channels, or its one channel twice. */
  function FramesOf(src: seq<real>, n: nat, channels: nat): (fs: seq<Frame>)
    requires channels >= 1 && n * channels <= |src|
    ensures |fs| == n
  {
    seq(n, i requires 0 <= i < n =>
      InBuffer(i, n, channels); Frame(src[i * channels], if channels > 1 then src[i * channels + 1] else src[i * channels]))
  }

  lemma NatTimes(a: int, b: int)
    requires a >= 0 && b >= 0
    ensures a * b >= 0
  {
  }

  lemma InBuffer(i: nat, n: nat, channels: nat)
    requires i < n && channels >= 1
    ensures i * channels + channels <= n * channels
  {
    NatTimes(n - i - 1, channels);
  }

  /** The frames of a stereo buffer laid out again are the buffer; those of a mono one are its samples, twice. */
  lemma FramesAreTheBuffer(src: seq<real>, n: nat, channels: nat, i: nat)
    requires channels >= 1 && n * channels <= |src| && i < n
    ensures channels == 1 ==> i < |src| && FramesOf(src, n, channels)[i] == Frame(src[i], src[i])
    ensures channels == 2 ==>
              2 * i + 2 <= |src| && [FramesOf(src, n, channels)[i].l, FramesOf(src, n, channels)[i].r] == src[2 * i..2 * i + 2]
  {
    InBuffer(i, n, channels);
  }

  /** `resample`, with the state it carries. */
  class Stream {
    var pos: real
    var prevL: real
    var prevR: real

    ghost function St(): State
      reads this
    {
      State(pos, Frame(prevL, prevR))
    }

    ghost predicate Valid()
      reads this
    {
      pos >= -1.0
    }

    constructor ()
      ensures Valid() && St() == FRESH
    {
      pos, prevL, prevR := 0.0, 0.0, 0.0;
    }

    method FrameOf(src: seq<real>, n: nat, channels: nat, i: int) returns (f: Frame)
      requires channels >= 1 && n * channels <= |src| && -1 <= i < n
      ensures f == FrameAt(FramesOf(src, n, channels), St().prev, i)
    {
      if i < 0 { return Frame(prevL, prevR); }
      InBuffer(i, n, channels);
      var l := src[i * channels];
      f := Frame(l, if channels > 1 then src[i * channels + 1] else l);
    }

    method Resample(src: seq<real>, n: nat, channels: nat, step: real) returns (out: seq<int>)
      requires Valid() && step > 0.0 && channels >= 1 && n * channels <= |src|
      modifies this
      ensures Valid()
      ensures var c := FramesOf(src, n, channels);
              out == ChunkFrom(c, old(St()).prev, old(pos), step) && St() == After(c, old(St()), step)
    {
      hide FramesOf, Mixed;
      ghost var c := FramesOf(src, n, channels);
      ghost var end := (n - 1) as real;
      out := [];
      var p := pos;
      while p < (n - 1) as real
        invariant p >= -1.0 && Valid() && St() == old(St())
        invariant out + ChunkFrom(c, St().prev, p, step) == ChunkFrom(c, St().prev, pos, step)
        invariant Reached(p, end, step) == Reached(pos, end, step)
        decreases StepsLeft(p, end, step)
      {
        StepLess(p, end, step);
        var i := p.Floor;
        var a := FrameOf(src, n, channels, i);
        var b := FrameOf(src, n, channels, i + 1);
        out := out + Mixed(a, b, p - i as real);
        p := p + step;
      }
      var last := FrameOf(src, n, channels, n - 1);
      pos, prevL, prevR := p - n as real, last.l, last.r;
    }
  }
}
