/**
 What one read can leave behind, told from what it hears alone.
 */
module ClipboardReads {

  import opened Options
  import opened Clipboard
  import opened ClipboardSafety

  /** What a read hears when the call it awaits ends: whether that went well, whether its deadline has
      passed, and the clipboard if it read it. A set the device did not take has not gone well. */
  datatype Hearing = Hearing(ok: bool, expired: bool, read: Option<Text>)

  /** The awaits that read the clipboard. */
  predicate Reads(pc: Pc) {
    pc.Original? || pc.Waiting? || pc.Copying? || pc.Confirming? || pc.Peeking? || pc.Landing?
  }

  function Hears(s: State, o: Outcome): Hearing
    requires s.current.Some?
  {
    var op := s.current.value;
    Hearing(o.ok && (op.pc.Parking? || op.pc.Writing? ==> op.sent), o.expired, if o.ok && Reads(op.pc) then Some(s.clip) else None)
  }

  /** All the current operation hears in a run. */
  ghost function Heard(s: State, es: seq<Event>): seq<Hearing>
    requires Sane(s)
    decreases |es|
  {
    if es == [] then []
    else
      NextIsSane(s, es[0]);
      (if es[0].Resume? && s.current.Some? then [Hears(s, es[0].outcome)] else []) + Heard(Next(s, es[0]), es[1..])
  }

  /** The run is over when the current operation is. */
  ghost predicate Ends(s: State, es: seq<Event>)
    requires Sane(s)
    decreases |es|
  {
    && es != []
    && s.current.Some?
    && (NextIsSane(s, es[0]);
        if |es| == 1 then Next(s, es[0]).current.None? else Ends(Next(s, es[0]), es[1..]))
  }

  /** The sentinel is on the device or still to be set. */
  predicate Left(s: State, id: nat) {
    s.clip == Sentinel(id) || Sentinel(id) in s.pending
  }

  /** The read has read its own sentinel, and something else since. */
  predicate Cleared(h: seq<Hearing>, id: nat) {
    exists i, j | 0 <= i < j < |h| :: h[i].read == Some(Sentinel(id)) && h[j].read.Some? && h[j].read != Some(Sentinel(id))
  }

  /** The read took an original and has not seen its sentinel gone. */
  predicate MayLeave(h: seq<Hearing>, id: nat) {
    h != [] && h[0].ok && !Cleared(h, id)
  }

  // ---------------------------------------------------------------- what the read remembers is what it heard

  /** `Cleared`, from a read that has or has not seen its sentinel. */
  predicate ClearedFrom(saw: bool, h: seq<Hearing>, id: nat)
    decreases |h|
  {
    h != [] &&
    ((saw && h[0].read.Some? && h[0].read != Some(Sentinel(id))) || ClearedFrom(saw || h[0].read == Some(Sentinel(id)), h[1..], id))
  }

  lemma {:induction false} ClearedLater(h: seq<Hearing>, id: nat)
    ensures ClearedFrom(true, h, id) <==> exists j | 0 <= j < |h| :: h[j].read.Some? && h[j].read != Some(Sentinel(id))
  {
    if h != [] {
      ClearedLater(h[1..], id);
      if j :| 0 <= j < |h| && h[j].read.Some? && h[j].read != Some(Sentinel(id)) {
        if j > 0 { assert h[1..][j - 1] == h[j]; }
      }
    }
  }

  lemma {:induction false} ClearedIs(h: seq<Hearing>, id: nat)
    ensures ClearedFrom(false, h, id) <==> Cleared(h, id)
  {
    if h != [] {
      var rest := h[1..];
      ClearedIs(rest, id);
      ClearedLater(rest, id);
      if i, j :| 0 <= i < j < |h| && h[i].read == Some(Sentinel(id)) && h[j].read.Some? && h[j].read != Some(Sentinel(id)) {
        assert rest[j - 1] == h[j];
        if i > 0 { assert rest[i - 1] == h[i]; }
      }
      if i, j :| 0 <= i < j < |rest| && rest[i].read == Some(Sentinel(id)) && rest[j].read.Some? && rest[j].read != Some(Sentinel(id)) {
        assert h[i + 1] == rest[i] && h[j + 1] == rest[j];
      }
      if h[0].read == Some(Sentinel(id)) {
        if j :| 0 <= j < |rest| && rest[j].read.Some? && rest[j].read != Some(Sentinel(id)) {
          assert h[j + 1] == rest[j];
        }
      }
    }
  }

  /** What is still to come leaves the sentinel. */
  predicate Endures(op: Op, h: seq<Hearing>) {
    && (op.pc.Original? ==> h != [] && h[0].ok)
    && !op.cleared
    && !ClearedFrom(op.saw, h, op.id)
  }

  /** What the read remembers after hearing `x`. */
  predicate Remembered(op: Op, x: Hearing, next: Op) {
    && next.id == op.id
    && next.saw == (op.saw || x.read == Some(Sentinel(op.id)))
    && next.cleared == (op.cleared || (op.saw && x.read.Some? && x.read != Some(Sentinel(op.id))))
  }

  lemma EnduresStep(op: Op, x: Hearing, h: seq<Hearing>, next: Op)
    requires Remembered(op, x, next) && !next.pc.Original? && (op.pc.Original? ==> x.ok)
    ensures Endures(op, [x] + h) <==> Endures(next, h)
  {
    assert ([x] + h)[1..] == h;
  }

  lemma EnduresLast(op: Op, x: Hearing, next: Op)
    requires Remembered(op, x, next)
    ensures Endures(op, [x]) <==> !next.cleared && (op.pc.Original? ==> x.ok)
  {
    assert !ClearedFrom(op.saw || x.read == Some(Sentinel(op.id)), [x][1..], op.id);
  }

  lemma ListenedRemembers(s: State, o: Outcome)
    requires Sane(s) && Unique(s) && Reading(s)
    ensures Remembered(s.current.value, Hears(s, o), Listened(s, s.current.value, o).current.value)
  {
  }

  /** The same read, past its first call. */
  predicate Onward(op: Op, next: Op) {
    next.id == op.id && next.kind == op.kind && next.saw == op.saw && next.cleared == op.cleared && !next.pc.Original?
  }

  /** A parked read's step leaves the clipboard, and may set its original. */
  predicate StepsOn(s: State, op: Op, t: State) {
    && t.clip == s.clip
    && (t.pending == s.pending || t.pending == s.pending + [Plain(op.before)])
    && (t.current.Some? ==> Onward(op, t.current.value))
  }

  lemma GiveUpStepsOn(s: State, op: Op, takes: bool)
    ensures StepsOn(s, op, GiveUp(s, op, takes))
  {
  }

  lemma CopiedStepsOn(s: State, op: Op)
    requires s.parked > 0 && s.history != [] && op.seenAt.Some?
    ensures StepsOn(s, op, ReadCopied(s, op)) && ReadCopied(s, op).current.None?
  {
  }

  lemma ParkedStepsOn(s: State, o: Outcome)
    requires Sane(s) && Parked(s)
    ensures StepsOn(s, s.current.value, Stepped(s, s.current.value, o))
  {
    hide StepsOn, GiveUp, ReadCopied;
    var op := s.current.value;
    var t := Stepped(s, op, o);
    if t == GiveUp(s, op, o.takes) {
      GiveUpStepsOn(s, op, o.takes);
    } else if op.seenAt.Some? && t == ReadCopied(s, op) {
      CopiedStepsOn(s, op);
    } else {
      MovesOn(s, t);
    }
  }

  lemma MovesOn(s: State, t: State)
    requires Parked(s) && t.clip == s.clip && t.pending == s.pending
    requires t.current.Some? ==> Onward(s.current.value, t.current.value)
    ensures StepsOn(s, s.current.value, t)
  {
  }

  /** A read that has begun parks its sentinel or ends. */
  lemma OriginalSteps(s: State, o: Outcome)
    requires Sane(s) && AtOriginal(s)
    ensures var op := s.current.value; var t := Stepped(s, op, o);
            && t.clip == s.clip
            && t.pending == s.pending + (if o.ok && o.takes then [Sentinel(op.id)] else [])
            && (if o.ok then
                  t.current == Some(op.(pc := Parking, sent := o.takes, before := if s.clip.Plain? then s.clip.text else ""))
                else t.current.None?)
  {
  }

  /** After its step, the read is no longer at its first call, or it has ended. */
  lemma SteppedGoesOn(s: State, o: Outcome)
    requires Sane(s) && Reading(s)
    ensures var op := s.current.value; var t := Stepped(s, op, o);
            && (op.pc.Original? ==> (t.current.None? <==> !o.ok))
            && (t.current.Some? ==> Onward(op, t.current.value))
  {
    hide Stepped;
    if AtOriginal(s) { OriginalSteps(s, o); } else { ParkedStepsOn(s, o); }
  }

  lemma ResumeRemembers(s: State, o: Outcome)
    requires Sane(s) && Unique(s) && Reading(s)
    ensures var op := s.current.value; var t := Next(s, Resume(o));
            && (op.pc.Original? ==> (t.current.None? <==> !Hears(s, o).ok))
            && (t.current.Some? ==> Reading(t) && Remembered(op, Hears(s, o), t.current.value) && !t.current.value.pc.Original?)
  {
    hide Stepped, Listened, Unique;
    ListenedIsSane(s, o);
    ListenedRemembers(s, o);
    SteppedGoesOn(Listened(s, s.current.value, o), o);
  }

  // ---------------------------------------------------------------- seen gone, it is gone

  /** Once read, the sentinel is not to be set again; once something else is read, it is gone. */
  predicate Tracks(s: State) {
    Reading(s) &&
    var op := s.current.value; var mine := Sentinel(op.id);
    && (op.saw ==> mine !in s.pending)
    && (op.cleared ==> s.clip != mine && mine !in s.pending)
    && (op.pc.Original? ==> !Left(s, op.id))
  }

  lemma OtherTracks(s: State, e: Event)
    requires Sane(s) && Tracks(s) && !e.Resume?
    ensures Tracks(Next(s, e)) && Next(s, e).current == s.current
  {
    if e.Apply? && e.i < |s.pending| {
      var t := Next(s, e);
      assert s.pending[e.i] in s.pending;
      forall x | x in t.pending ensures x in s.pending {
        var k :| 0 <= k < |t.pending| && t.pending[k] == x;
        assert x == s.pending[if k < e.i then k else k + 1];
      }
    }
  }

  lemma ListenedTracks(s: State, o: Outcome)
    requires Sane(s) && Unique(s) && Tracks(s)
    ensures Tracks(Listened(s, s.current.value, o))
  {
  }

  lemma SteppedTracks(s: State, o: Outcome)
    requires Sane(s) && Tracks(s)
    ensures var op := s.current.value; var t := Stepped(s, op, o);
            && (t.current.Some? ==> Tracks(t))
            && (t.current.None? && (op.cleared || op.pc.Original?) ==> !Left(t, op.id))
  {
    hide Stepped;
    if AtOriginal(s) { OriginalSteps(s, o); } else { ParkedStepsOn(s, o); }
  }

  lemma ResumeTracks(s: State, o: Outcome)
    requires Sane(s) && Unique(s) && Tracks(s)
    ensures var op := s.current.value; var t := Next(s, Resume(o));
            && (t.current.Some? ==> Tracks(t))
            && (t.current.None? && !Endures(op, [Hears(s, o)]) ==> !Left(t, op.id))
  {
    hide Stepped, Listened, Hears, Unique, Endures;
    var u := Listened(s, s.current.value, o);
    ListenedIsSane(s, o);
    ListenedTracks(s, o);
    ListenedRemembers(s, o);
    SteppedTracks(u, o);
    EnduresLast(s.current.value, Hears(s, o), u.current.value);
  }

  lemma HeardFirst(s: State, e: Event, es: seq<Event>)
    requires Sane(s) && Sane(Next(s, e))
    ensures !e.Resume? ==> Heard(s, [e] + es) == Heard(Next(s, e), es)
    ensures e.Resume? && s.current.Some? ==> Heard(s, [e] + es) == [Hears(s, e.outcome)] + Heard(Next(s, e), es)
    ensures Run(s, [e] + es) == Run(Next(s, e), es)
    ensures es == [] ==> Heard(Next(s, e), es) == [] && Run(Next(s, e), es) == Next(s, e)
    ensures Ends(s, [e] + es) <==> s.current.Some? && (if es == [] then Next(s, e).current.None? else Ends(Next(s, e), es))
  {
    hide Next, Hears;
    assert ([e] + es)[1..] == es;
  }

  lemma EndsTakesAStep(s: State, es: seq<Event>)
    requires Sane(s) && Ends(s, es)
    ensures es != [] && s.current.Some?
  {
  }

  /** A read that has heard its sentinel gone, or never parked it, ends without it. */
  lemma {:induction false} GoneAtTheEnd(s: State, es: seq<Event>)
    requires Sane(s) && Unique(s) && Tracks(s) && Ends(s, es) && !Endures(s.current.value, Heard(s, es))
    ensures !Left(Run(s, es), s.current.value.id)
    decreases |es|
  {
    hide Next, Sane, Unique, Endures, Hears, Left, Run, Heard, Ends;
    EndsTakesAStep(s, es);
    var e, rest := es[0], es[1..];
    assert es == [e] + rest;
    var t := Next(s, e);
    NextIsSane(s, e);
    HeardFirst(s, e, rest);
    NextIsUnique(s, e);
    if !e.Resume? {
      OtherTracks(s, e);
      GoneAtTheEnd(t, rest);
    } else {
      ResumeTracks(s, e.outcome);
      ResumeRemembers(s, e.outcome);
      if rest == [] {
        assert [Hears(s, e.outcome)] + [] == [Hears(s, e.outcome)];
      } else {
        EndsTakesAStep(t, rest);
        EnduresStep(s.current.value, Hears(s, e.outcome), Heard(t, rest), t.current.value);
        GoneAtTheEnd(t, rest);
      }
    }
  }

  lemma EnduresExactly(op: Op, h: seq<Hearing>)
    requires op.pc.Original? && !op.saw && !op.cleared
    ensures Endures(op, h) <==> MayLeave(h, op.id)
  {
    ClearedIs(h, op.id);
  }
}
