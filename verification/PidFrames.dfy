/**
 The process ids the agent sends its audio helper: frames of a big-endian count and that many big-endian
 ids, read from a stream that may be cut anywhere.
 */
module PidFrames {

  import opened Bytes

  /** A 32-bit process id. */
  type pid = p: int | -0x8000_0000 <= p < 0x8000_0000

  const MAX_PIDS := 1024

  /** The bits of an unsigned number as a signed one, and back. */
  function Signed(v: nat): pid
    requires v < 0x1_0000_0000
  {
    if v < 0x8000_0000 then v else v - 0x1_0000_0000
  }

  function Unsigned(p: pid): (v: nat)
    ensures v < 0x1_0000_0000
  {
    if p >= 0 then p else p + 0x1_0000_0000
  }

  /** The two have the same 32 bits, and each undoes the other. */
  lemma SameBits(p: pid, v: nat)
    requires v < 0x1_0000_0000
    ensures (Unsigned(p) - p) % 0x1_0000_0000 == 0 && (v - Signed(v)) % 0x1_0000_0000 == 0
    ensures Signed(Unsigned(p)) == p && Unsigned(Signed(v)) == v
  {
  }

  // ---------------------------------------------------------------- frames

  function PutPids(pids: seq<pid>): (s: seq<byte>)
    ensures |s| == 4 * |pids|
  {
    if pids == [] then [] else PutU32(Unsigned(pids[0])) + PutPids(pids[1..])
  }

  predicate Fits(pids: seq<pid>) {
    |pids| <= MAX_PIDS
  }

  function PutFrame(pids: seq<pid>): seq<byte>
    requires Fits(pids)
  {
    PutU32(|pids|) + PutPids(pids)
  }

  function PutFrames(fs: seq<seq<pid>>): seq<byte>
    requires forall f | f in fs :: Fits(f)
  {
    if fs == [] then [] else PutFrame(fs[0]) + PutFrames(fs[1..])
  }

  function GetPids(b: seq<byte>, n: nat): (pids: seq<pid>)
    requires 4 * n <= |b|
    ensures |pids| == n
    decreases n
  {
    if n == 0 then [] else [Signed(BeU32(b, 0))] + GetPids(b[4..], n - 1)
  }

  // ---------------------------------------------------------------- decoding a whole stream

  /** The frames at the front of a stream, what follows them, and whether that is a count too large. */
  datatype Decoded = Decoded(frames: seq<seq<pid>>, rest: seq<byte>, bogus: bool)

  predicate Bogus(b: seq<byte>) {
    |b| >= 4 && BeU32(b, 0) > MAX_PIDS
  }

  /** A whole frame is at the front. */
  predicate Whole(b: seq<byte>) {
    |b| >= 4 && BeU32(b, 0) <= MAX_PIDS && |b| >= 4 + 4 * BeU32(b, 0)
  }

  function FirstFrame(b: seq<byte>): (f: seq<pid>)
    requires Whole(b)
    ensures Fits(f)
  {
    GetPids(b[4..], BeU32(b, 0))
  }

  function AfterFrame(b: seq<byte>): seq<byte>
    requires Whole(b)
  {
    b[4 + 4 * BeU32(b, 0)..]
  }

  function Decode(b: seq<byte>): (d: Decoded)
    ensures forall f | f in d.frames :: Fits(f)
    ensures d.bogus <==> Bogus(d.rest)
    ensures !Whole(d.rest)
    decreases |b|
  {
    if !Whole(b) then Decoded([], b, Bogus(b))
    else
      var d := Decode(AfterFrame(b));
      d.(frames := [FirstFrame(b)] + d.frames)
  }

  /** A stream is refused exactly where its count, spelled by its first four bytes, is above 1024. */
  lemma RefusesLargeCounts(b: seq<byte>)
    ensures Decode(b).bogus <==> var rest := Decode(b).rest; |rest| >= 4 && BigEndian(rest[..4]) > 1024
  {
    var rest := Decode(b).rest;
    if |rest| >= 4 {
      ReadsBigEndian(rest, 0);
      assert rest[0..4] == rest[..4];
    }
  }

  // ---------------------------------------------------------------- round trips

  lemma {:induction false} PidsRoundTrip(pids: seq<pid>, tail: seq<byte>)
    ensures GetPids(PutPids(pids) + tail, |pids|) == pids
    decreases |pids|
  {
    if pids != [] {
      var more := PutPids(pids[1..]) + tail;
      assert PutPids(pids) + tail == PutU32(Unsigned(pids[0])) + more;
      U32RoundTrip(Unsigned(pids[0]), more);
      assert (PutU32(Unsigned(pids[0])) + more)[4..] == more;
      PidsRoundTrip(pids[1..], tail);
    }
  }

  lemma {:induction false} PidsBack(b: seq<byte>, n: nat)
    requires 4 * n <= |b|
    ensures PutPids(GetPids(b, n)) == b[..4 * n]
    decreases n
  {
    if n > 0 {
      PidsBack(b[4..], n - 1);
      U32Back(b);
      assert b[..4 * n] == b[..4] + b[4..][..4 * (n - 1)];
    }
  }

  lemma FrameRoundTrip(f: seq<pid>, tail: seq<byte>)
    requires Fits(f)
    ensures var b := PutFrame(f) + tail; Whole(b) && FirstFrame(b) == f && AfterFrame(b) == tail
  {
    var b := PutFrame(f) + tail;
    assert b == PutU32(|f|) + (PutPids(f) + tail);
    U32RoundTrip(|f|, PutPids(f) + tail);
    assert b[4..] == PutPids(f) + tail;
    PidsRoundTrip(f, tail);
  }

  lemma FrameBack(b: seq<byte>)
    requires Whole(b)
    ensures b == PutFrame(FirstFrame(b)) + AfterFrame(b)
  {
    var n := BeU32(b, 0);
    U32Back(b);
    PidsBack(b[4..], n);
    assert b == b[..4] + b[4..][..4 * n] + b[4 + 4 * n..];
  }

  /** Frames put on the stream are read back, and what follows them is decoded after them. */
  lemma {:induction false} DecodesWhatWasPut(fs: seq<seq<pid>>, tail: seq<byte>)
    requires forall f | f in fs :: Fits(f)
    ensures Decode(PutFrames(fs) + tail) == Decoded(fs + Decode(tail).frames, Decode(tail).rest, Decode(tail).bogus)
    decreases |fs|
  {
    hide PutFrame, FirstFrame, AfterFrame, Whole, Fits, Bogus;
    if fs == [] {
      assert PutFrames(fs) + tail == tail;
      assert fs + Decode(tail).frames == Decode(tail).frames;
    } else {
      var more := PutFrames(fs[1..]) + tail;
      assert PutFrames(fs) + tail == PutFrame(fs[0]) + more;
      FrameRoundTrip(fs[0], more);
      DecodesWhatWasPut(fs[1..], tail);
      assert [fs[0]] + (fs[1..] + Decode(tail).frames) == fs + Decode(tail).frames;
    }
  }

  /** A stream is exactly its frames and what is left of it. */
  lemma {:induction false} StreamIsFramesAndRest(b: seq<byte>)
    ensures b == PutFrames(Decode(b).frames) + Decode(b).rest
    decreases |b|
  {
    if Whole(b) {
      StreamIsFramesAndRest(AfterFrame(b));
      FrameBack(b);
      assert Decode(b).frames[1..] == Decode(AfterFrame(b)).frames;
    }
  }

  /** The least count that begins with these bytes. */
  function LeastCount(rest: seq<byte>): nat {
    BeU32(rest + [0, 0, 0, 0], 0)
  }

  lemma RestOfAFrameBeginsSmall(rest: seq<byte>, f: seq<pid>)
    requires Fits(f) && rest < PutFrame(f)
    ensures LeastCount(rest) <= MAX_PIDS
  {
    var b := PutFrame(f);
    U32RoundTrip(|f|, PutPids(f));
    assert BeU32(b, 0) == |f|;
    forall i | 0 <= i < 4 ensures (rest + [0, 0, 0, 0])[i] <= b[i] {
    }
  }

  /** What is left begins a frame, being less than all of it, exactly when the count it begins can still be
      small enough; a count cut off before its fourth byte may already be too large. */
  lemma RestIsPartOfAFrame(b: seq<byte>)
    ensures (exists f: seq<pid> :: Fits(f) && Decode(b).rest < PutFrame(f)) <==> LeastCount(Decode(b).rest) <= MAX_PIDS
  {
    var rest := Decode(b).rest;
    forall f: seq<pid> | Fits(f) && rest < PutFrame(f) ensures LeastCount(rest) <= MAX_PIDS {
      RestOfAFrameBeginsSmall(rest, f);
    }
    if LeastCount(rest) <= MAX_PIDS {
      var n := 4 + 4 * LeastCount(rest);
      var zeros: seq<byte> := seq(n, _ => 0);
      var whole := rest + zeros[..n - |rest|];
      assert whole[..4] == (rest + [0, 0, 0, 0])[..4];
      FrameBack(whole);
      assert AfterFrame(whole) == [];
      assert whole == PutFrame(FirstFrame(whole));
    }
  }

  // ---------------------------------------------------------------- the stream cut into reads

  /** More bytes change nothing of the frames read, and a count too large stays so. */
  lemma {:induction false} DecodeExtends(b: seq<byte>, more: seq<byte>)
    ensures var d, r := Decode(b), Decode(Decode(b).rest + more);
            Decode(b + more) == Decoded(d.frames + r.frames, r.rest, r.bogus)
    ensures Decode(b).bogus ==> Decode(Decode(b).rest + more) == Decoded([], Decode(b).rest + more, true)
    decreases |b|
  {
    hide FirstFrame, BeU32;
    if Whole(b) {
      FrontOf(b, more);
      DecodeExtends(AfterFrame(b), more);
      var d, r := Decode(AfterFrame(b)), Decode(Decode(b).rest + more);
      assert [FirstFrame(b)] + (d.frames + r.frames) == Decode(b).frames + r.frames;
    } else {
      assert [] + Decode(b + more).frames == Decode(b + more).frames;
      if Bogus(b) { SameU32(b, more); }
    }
  }

  lemma FrontOf(b: seq<byte>, more: seq<byte>)
    requires Whole(b)
    ensures Whole(b + more) && FirstFrame(b + more) == FirstFrame(b) && AfterFrame(b + more) == AfterFrame(b) + more
  {
    FrameBack(b);
    assert b + more == PutFrame(FirstFrame(b)) + (AfterFrame(b) + more);
    FrameRoundTrip(FirstFrame(b), AfterFrame(b) + more);
  }

  /** What the helper has: unread bytes, whether it still reads, and the id lists applied so far. */
  datatype Helper = Helper(cmd: seq<byte>, connected: bool, applied: seq<seq<pid>>)

  /** One read; nothing is read after a count too large. */
  function OnRead(h: Helper, chunk: seq<byte>): Helper {
    if !h.connected then h
    else
      var d := Decode(h.cmd + chunk);
      Helper(d.rest, !d.bogus, h.applied + d.frames)
  }

  function OnReads(h: Helper, chunks: seq<seq<byte>>): Helper
    decreases |chunks|
  {
    if chunks == [] then h else OnReads(OnRead(h, chunks[0]), chunks[1..])
  }

  function Joined(chunks: seq<seq<byte>>): seq<byte> {
    if chunks == [] then [] else chunks[0] + Joined(chunks[1..])
  }

  /** The buffer holds what decoding leaves. */
  predicate Settled(h: Helper) {
    Decode(h.cmd) == Decoded([], h.cmd, !h.connected)
  }

  lemma {:induction false} RestIsSettled(b: seq<byte>)
    ensures Decode(Decode(b).rest) == Decoded([], Decode(b).rest, Decode(b).bogus)
    decreases |b|
  {
    hide FirstFrame, BeU32;
    if Whole(b) { RestIsSettled(AfterFrame(b)); }
  }

  lemma {:induction false} ClosedReadsNothing(h: Helper, chunks: seq<seq<byte>>)
    requires !h.connected
    ensures OnReads(h, chunks) == h
    decreases |chunks|
  {
    if chunks != [] { ClosedReadsNothing(h, chunks[1..]); }
  }

  lemma {:induction false} ReadsFrom(h: Helper, chunks: seq<seq<byte>>)
    requires Settled(h)
    ensures var d, t := Decode(h.cmd + Joined(chunks)), OnReads(h, chunks);
            t.applied == h.applied + d.frames && t.connected == !d.bogus && (t.connected ==> t.cmd == d.rest)
    decreases |chunks|
  {
    hide Decode;
    if !h.connected {
      ClosedReadsNothing(h, chunks);
      DecodeExtends(h.cmd, Joined(chunks));
    } else if chunks == [] {
      assert h.cmd + Joined(chunks) == h.cmd;
    } else {
      var b, more := h.cmd + chunks[0], Joined(chunks[1..]);
      var t := OnRead(h, chunks[0]);
      assert h.cmd + Joined(chunks) == b + more;
      RestIsSettled(b);
      ReadsFrom(t, chunks[1..]);
      DecodeExtends(b, more);
    }
  }

  const OPEN := Helper([], true, [])

  /** However the stream is cut, the lists applied are those of the whole stream, and reading stops exactly at
      a count above 1024. */
  lemma ReadsAreOneDecode(chunks: seq<seq<byte>>)
    ensures var d := Decode(Joined(chunks));
            var t := OnReads(OPEN, chunks);
            t.applied == d.frames && t.connected == !d.bogus && (t.connected ==> t.cmd == d.rest)
  {
    hide OnReads;
    ReadsFrom(OPEN, chunks);
    assert [] + Joined(chunks) == Joined(chunks);
  }

  /** The agent's lists arrive, however the bytes are cut and with whatever is still on its way. */
  lemma ListsArrive(fs: seq<seq<pid>>, part: seq<byte>, chunks: seq<seq<byte>>)
    requires forall f | f in fs :: Fits(f)
    requires Joined(chunks) == PutFrames(fs) + part && !Whole(part)
    ensures OnReads(OPEN, chunks).applied == fs
  {
    ReadsAreOneDecode(chunks);
    DecodesWhatWasPut(fs, part);
  }

  // ---------------------------------------------------------------- the loop

  class Reader {
    var cmd: seq<byte>
    var connected: bool
    var applied: seq<seq<pid>>

    ghost function Snapshot(): Helper
      reads this
    {
      Helper(cmd, connected, applied)
    }

    constructor ()
      ensures Snapshot() == OPEN
    {
      cmd, connected, applied := [], true, [];
    }

    /** The ids of the frame at the front of the buffer. */
    method TakePids(count: nat) returns (pids: seq<pid>)
      requires |cmd| >= 4 + 4 * count
      ensures pids == GetPids(cmd[4..], count)
    {
      pids := [];
      for i := 0 to count
        invariant pids + GetPids(cmd[4 + 4 * i..], count - i) == GetPids(cmd[4..], count)
      {
        assert cmd[4 + 4 * i..][4..] == cmd[4 + 4 * (i + 1)..];
        var v := BeU32(cmd, 4 + 4 * i);
        assert v == BeU32(cmd[4 + 4 * i..], 0);
        pids := pids + [Signed(v)];
      }
    }

    method Read(chunk: seq<byte>)
      requires connected
      modifies this
      ensures Snapshot() == OnRead(old(Snapshot()), chunk)
    {
      hide GetPids;
      cmd := cmd + chunk;
      ghost var all := Decode(cmd);
      while |cmd| >= 4
        invariant connected
        invariant old(applied) + all.frames == applied + Decode(cmd).frames
        invariant Decode(cmd).rest == all.rest
        decreases |cmd|
      {
        var count := BeU32(cmd, 0);
        if count > MAX_PIDS {
          connected := false;
          break;
        }
        var need := 4 + count * 4;
        if |cmd| < need { break; }
        var pids := TakePids(count);
        cmd, applied := cmd[need..], applied + [pids];
      }
    }
  }
}
