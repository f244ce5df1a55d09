/**
 What one read can leave behind: some schedule in which the read hears the same leaves its sentinel, unless
 the read has heard its sentinel gone.
 */
module ClipboardSchedules {

  import opened Clipboard
  import opened ClipboardSafety
  import opened ClipboardSentinels
  import opened ClipboardReads

  // ---------------------------------------------------------------- a device that keeps the sentinel

  /** The same read, on a device that took the sentinel. */
  predicate Alike(a: Op, b: Op) {
    b == a.(sent := b.sent, seenAt := b.seenAt) && (!b.pc.Original? ==> b.sent)
  }

  /** Every sentinel the device `s` can still show, `t` can. */
  ghost predicate Offers(s: State, t: State) {
    && (forall x | x in s.pending && x.Sentinel? :: x in t.pending)
    && (s.clip.Sentinel? ==> t.clip == s.clip || s.clip in t.pending)
  }

  /** The sentinel is still to be set until the read sees it, and there until the read sees something else. */
  predicate Keeps(t: State, op: Op) {
    !op.pc.Original? && !op.cleared ==> if op.saw then t.clip == Sentinel(op.id) else Sentinel(op.id) in t.pending
  }

  ghost predicate Shadows(s: State, t: State) {
    Reading(s) && Reading(t) && Alike(s.current.value, t.current.value) && Offers(s, t) && Keeps(t, t.current.value)
  }

  ghost predicate Sound(s: State) {
    Sane(s) && Unique(s)
  }

  /** The call that tells the shadow what the read hears. */
  function Told(s: State, o: Outcome): Outcome
    requires s.current.Some?
  {
    Outcome(Hears(s, o).ok, o.expired, s.current.value.pc.Original? || o.takes)
  }

  /** The shadow shows the read what it is about to read. */
  ghost predicate Shown(s: State, t: State, o: Outcome)
  {
    && Reading(s) && Reading(t) && Alike(s.current.value, t.current.value)
    && (forall x | x in s.pending && x.Sentinel? :: x in t.pending)
    && (if Hears(s, o).read.Some? then t.clip == s.clip else s.clip.Sentinel? ==> t.clip == s.clip || s.clip in t.pending)
    && Keeps(t, Listened(t, t.current.value, Told(s, o)).current.value)
  }

  lemma OtherShadows(s: State, t: State, e: Event)
    requires Sane(s) && Shadows(s, t) && !e.Resume?
    ensures Shadows(Next(s, e), t) && Next(s, e).current == s.current
  {
    if e.Apply? && e.i < |s.pending| {
      var u := Next(s, e);
      assert s.pending[e.i] in s.pending;
      forall x | x in u.pending ensures x in s.pending {
        var k :| 0 <= k < |u.pending| && u.pending[k] == x;
        assert x == s.pending[if k < e.i then k else k + 1];
      }
    }
  }

  lemma ShowsNothing(s: State, t: State, o: Outcome)
    requires Shadows(s, t) && Hears(s, o).read.None?
    ensures Shown(s, Next(t, Apply(|t.pending|)), o)
    requires Sane(t)
  {
  }

  lemma ShowsTheSame(s: State, t: State, o: Outcome)
    requires Sound(t) && Shadows(s, t) && t.clip == s.clip
    ensures Shown(s, Next(t, Apply(|t.pending|)), o)
  {
  }

  lemma ShowsPlain(s: State, t: State, o: Outcome)
    requires Sound(t) && Shadows(s, t) && t.clip != s.clip && s.clip.Plain? && Hears(s, o).read.Some?
    ensures Shown(s, Next(t, AppWrites(s.clip.text)), o)
  {
  }

  lemma ShowsSentinel(s: State, t: State, o: Outcome, i: nat)
    requires Sound(t) && Shadows(s, t) && t.clip != s.clip && s.clip.Sentinel? && Hears(s, o).read.Some?
    requires Sound(s) && i < |t.pending| && t.pending[i] == s.clip
    ensures Shown(s, Next(t, Apply(i)), o)
  {
    var u := Next(t, Apply(i));
    forall x | x in t.pending && x != s.clip ensures x in u.pending {
      var k :| 0 <= k < |t.pending| && t.pending[k] == x;
      assert x == u.pending[if k < i then k else k - 1];
    }
  }

  lemma Shows(s: State, t: State, o: Outcome) returns (e: Event)
    requires Sound(s) && Sound(t) && Shadows(s, t)
    ensures !e.Resume? && Shown(s, Next(t, e), o) && Sound(Next(t, e)) && Next(t, e).current == t.current
  {
    hide Offers, Alike, Keeps, Unique, Sane, Shown;
    if Hears(s, o).read.None? {
      e := Apply(|t.pending|);
      ShowsNothing(s, t, o);
    } else if t.clip == s.clip {
      e := Apply(|t.pending|);
      ShowsTheSame(s, t, o);
    } else if s.clip.Plain? {
      e := AppWrites(s.clip.text);
      ShowsPlain(s, t, o);
    } else {
      var i := CanShow(s, t);
      e := Apply(i);
      ShowsSentinel(s, t, o, i);
    }
    NextIsSane(t, e);
    NextIsUnique(t, e);
  }

  lemma CanShow(s: State, t: State) returns (i: nat)
    requires Shadows(s, t) && t.clip != s.clip && s.clip.Sentinel?
    ensures i < |t.pending| && t.pending[i] == s.clip
  {
    i :| i < |t.pending| && t.pending[i] == s.clip;
  }

  /** The two devices end the call the same way, as far as the read can tell. */
  predicate Agree(s: State, t: State, o: Outcome, m: Outcome) {
    && Reading(s) && Reading(t) && Alike(s.current.value, t.current.value)
    && m.expired == o.expired && m.ok == (o.ok && (s.current.value.pc.Parking? ==> s.current.value.sent))
    && (s.current.value.pc.Original? || m.takes == o.takes)
    && (o.ok && Reads(s.current.value.pc) ==> t.clip == s.clip)
  }

  lemma PressWritesNothing(s: State)
    requires Sane(s) && Reading(s)
    ensures !OfWrite(s.current.value.pc)
  {
  }

  lemma ToldAgrees(s: State, t: State, o: Outcome)
    requires Shown(s, t, o) && !OfWrite(s.current.value.pc)
    ensures Agree(s, t, o, Told(s, o)) && Hears(t, Told(s, o)) == Hears(s, o)
  {
    hide Keeps;
  }

  lemma AgreeListened(s: State, t: State, o: Outcome, m: Outcome)
    requires Agree(s, t, o, m)
    ensures Agree(Listened(s, s.current.value, o), Listened(t, t.current.value, m), o, m)
  {
  }

  /** After a call the two reads are at the same place, or both over. */
  predicate BothAt(u: State, v: State) {
    && (u.current.None? <==> v.current.None?)
    && (u.current.Some? ==> Reading(u) && Reading(v) && Alike(u.current.value, v.current.value))
  }

  lemma GiveUpBothAt(s: State, t: State, takes: bool)
    requires Reading(s) && Reading(t) && Alike(s.current.value, t.current.value) && !t.current.value.pc.Original?
    ensures BothAt(GiveUp(s, s.current.value, takes), GiveUp(t, t.current.value, takes))
  {
  }

  lemma WaitingBothAt(s: State, t: State, o: Outcome, m: Outcome)
    requires Sane(s) && Sane(t) && Parked(s) && Agree(s, t, o, m)
    requires s.current.value.pc.Parking? || s.current.value.pc.Waiting? || s.current.value.pc.Pressing?
    ensures BothAt(Stepped(s, s.current.value, o), Stepped(t, t.current.value, m))
  {
    hide GiveUp;
    GiveUpBothAt(s, t, o.takes);
  }

  lemma CopyingBothAt(s: State, t: State, o: Outcome, m: Outcome)
    requires Sane(s) && Sane(t) && Parked(s) && Agree(s, t, o, m) && s.current.value.pc.Copying?
    ensures BothAt(Stepped(s, s.current.value, o), Stepped(t, t.current.value, m))
  {
    hide GiveUp, ReadCopied;
    GiveUpBothAt(s, t, o.takes);
    CopiedStepsOn(s, s.current.value);
    CopiedStepsOn(t, t.current.value);
  }

  lemma RestoringBothAt(s: State, t: State, o: Outcome, m: Outcome)
    requires Sane(s) && Sane(t) && Parked(s) && Agree(s, t, o, m)
    requires s.current.value.pc.Restoring? || s.current.value.pc.Confirming?
    ensures BothAt(Stepped(s, s.current.value, o), Stepped(t, t.current.value, m))
  {
  }

  lemma StepsAlike(s: State, t: State, o: Outcome, m: Outcome)
    requires Sane(s) && Sane(t) && Parked(s) && Agree(s, t, o, m)
    ensures BothAt(Stepped(s, s.current.value, o), Stepped(t, t.current.value, m))
  {
    hide Stepped, BothAt, Agree;
    match s.current.value.pc
    case Copying => CopyingBothAt(s, t, o, m);
    case Restoring => RestoringBothAt(s, t, o, m);
    case Confirming => RestoringBothAt(s, t, o, m);
    case _ => WaitingBothAt(s, t, o, m);
  }

  lemma ParkedShadows(s: State, t: State, o: Outcome, m: Outcome)
    requires Sane(s) && Sane(t) && Parked(s) && Agree(s, t, o, m) && Offers(s, t) && Keeps(t, t.current.value)
    ensures var u := Stepped(s, s.current.value, o); var v := Stepped(t, t.current.value, m);
            && (u.current.None? <==> v.current.None?)
            && (u.current.Some? ==> Shadows(u, v))
            && (!t.current.value.cleared ==> Left(v, t.current.value.id))
  {
    hide Stepped, Sane;
    StepsAlike(s, t, o, m);
    ParkedStepsOn(s, o);
    ParkedStepsOn(t, m);
  }

  lemma OriginalShadows(s: State, t: State, o: Outcome, m: Outcome)
    requires Sane(s) && Sane(t) && AtOriginal(s) && Agree(s, t, o, m) && Offers(s, t) && m.takes
    ensures var u := Stepped(s, s.current.value, o); var v := Stepped(t, t.current.value, m);
            && (u.current.None? <==> v.current.None?)
            && (u.current.Some? ==> Shadows(u, v))
  {
    hide Stepped;
    OriginalSteps(s, o);
    OriginalSteps(t, m);
  }

  lemma SteppedShadows(s: State, t: State, o: Outcome)
    requires Sound(s) && Sound(t) && Shown(s, t, o)
    ensures var m := Told(s, o);
            var a := Listened(s, s.current.value, o); var b := Listened(t, t.current.value, m);
            var u := Stepped(a, a.current.value, o); var v := Stepped(b, b.current.value, m);
            && (u.current.None? <==> v.current.None?)
            && (u.current.Some? ==> Shadows(u, v))
            && (u.current.None? && !s.current.value.pc.Original? && !a.current.value.cleared ==> Left(v, s.current.value.id))
  {
    hide Stepped, Sane, Unique;
    var m := Told(s, o);
    var a := Listened(s, s.current.value, o);
    var b := Listened(t, t.current.value, m);
    PressWritesNothing(s);
    ToldAgrees(s, t, o);
    AgreeListened(s, t, o, m);
    ListenedIsSane(s, o);
    ListenedIsSane(t, m);
    if AtOriginal(s) { OriginalShadows(a, b, o, m); } else { ParkedShadows(a, b, o, m); }
  }

  lemma ResumeShadows(s: State, t: State, o: Outcome)
    requires Sound(s) && Sound(t) && Shown(s, t, o)
    ensures var m := Told(s, o);
            var u := Next(s, Resume(o)); var v := Next(t, Resume(m));
            && Hears(t, m) == Hears(s, o)
            && (u.current.None? <==> v.current.None?)
            && (u.current.Some? ==> Shadows(u, v))
            && (u.current.None? && Endures(s.current.value, [Hears(s, o)]) ==> Left(v, s.current.value.id))
  {
    hide Stepped, Listened, Hears, Unique, Endures;
    PressWritesNothing(s);
    ToldAgrees(s, t, o);
    SteppedShadows(s, t, o);
    ListenedRemembers(s, o);
    ResumeRemembers(s, o);
    EnduresLast(s.current.value, Hears(s, o), Listened(s, s.current.value, o).current.value);
  }

  // ---------------------------------------------------------------- whole reads

  lemma {:induction false} ShadowRun(s: State, t: State, es: seq<Event>) returns (fs: seq<Event>)
    requires Sound(s) && Sound(t) && Shadows(s, t) && Ends(s, es)
    ensures Ends(t, fs) && Heard(t, fs) == Heard(s, es)
    ensures Endures(s.current.value, Heard(s, es)) ==> Left(Run(t, fs), s.current.value.id)
    decreases |es|, 0
  {
    hide Next, Sane, Unique, Endures, Hears, Left, Run, Heard, Ends, Offers, Alike, Keeps, Shown, Told;
    EndsTakesAStep(s, es);
    var e, rest := es[0], es[1..];
    assert es == [e] + rest;
    var u := Next(s, e);
    NextIsSane(s, e);
    NextIsUnique(s, e);
    HeardFirst(s, e, rest);
    if !e.Resume? {
      OtherShadows(s, t, e);
      fs := ShadowRun(u, t, rest);
    } else {
      fs := ShadowResume(s, t, e.outcome, rest);
    }
  }

  lemma {:induction false} ShadowResume(s: State, t: State, o: Outcome, rest: seq<Event>) returns (fs: seq<Event>)
    requires Sound(s) && Sound(t) && Shadows(s, t) && Ends(s, [Resume(o)] + rest)
    ensures Ends(t, fs) && Heard(t, fs) == Heard(s, [Resume(o)] + rest)
    ensures Endures(s.current.value, Heard(s, [Resume(o)] + rest)) ==> Left(Run(t, fs), s.current.value.id)
    decreases |rest|, 1
  {
    hide Next, Sane, Unique, Endures, Hears, Left, Run, Heard, Ends, Offers, Alike, Keeps, Shown, Told;
    var show := Shows(s, t, o);
    var t1 := Next(t, show);
    var m := Told(s, o);
    var u, v := Next(s, Resume(o)), Next(t1, Resume(m));
    ResumeShadows(s, t1, o);
    ResumeRemembers(s, o);
    NextIsSane(s, Resume(o)); NextIsUnique(s, Resume(o));
    NextIsSane(t1, Resume(m)); NextIsUnique(t1, Resume(m));
    HeardFirst(s, Resume(o), rest);
    var gs := [];
    assert [Hears(s, o)] + [] == [Hears(s, o)];
    if rest != [] {
      EndsTakesAStep(u, rest);
      gs := ShadowRun(u, v, rest);
      EndsTakesAStep(v, gs);
      EnduresStep(s.current.value, Hears(s, o), Heard(u, rest), u.current.value);
    }
    HeardFirst(t1, Resume(m), gs);
    HeardFirst(t, show, [Resume(m)] + gs);
    fs := [show] + ([Resume(m)] + gs);
  }

  /** A read that has just begun can be followed by itself. */
  lemma BeginsShadow(s: State)
    requires Sound(s) && AtOriginal(s)
    ensures Shadows(s, s) && Tracks(s)
  {
  }

  /** Some schedule from the start of the read in which it hears just this ends with its sentinel left. */
  ghost predicate CanLeave(s: State, h: seq<Hearing>)
    requires Sane(s) && s.current.Some?
  {
    exists fs :: Ends(s, fs) && Heard(s, fs) == h && Left(Run(s, fs), s.current.value.id)
  }

  lemma LeavesFromItsStart(s: State, es: seq<Event>)
    requires Sound(s) && AtOriginal(s) && Ends(s, es)
    ensures CanLeave(s, Heard(s, es)) <==> MayLeave(Heard(s, es), s.current.value.id)
  {
    hide Ends, Heard, Run, Left, MayLeave, Endures, Next, Unique, Shadows, Tracks;
    var h := Heard(s, es);
    BeginsShadow(s);
    EnduresExactly(s.current.value, h);
    if MayLeave(h, s.current.value.id) {
      var fs := ShadowRun(s, s, es);
      assert CanLeave(s, h);
    } else {
      forall fs | Ends(s, fs) && Heard(s, fs) == h ensures !Left(Run(s, fs), s.current.value.id) {
        GoneAtTheEnd(s, fs);
      }
    }
  }

  /** On every device and in every run: what a read with a press has heard when it ends allows its sentinel to
      be left exactly when it took an original and has not read its sentinel and then something else. */
  lemma AReadMayLeaveItsSentinelExactly(text: string, before: seq<Event>, es: seq<Event>)
    requires var s := Run(Init(text), before); AtOriginal(s) && Ends(s, es)
    ensures var s := Run(Init(text), before); CanLeave(s, Heard(s, es)) <==> MayLeave(Heard(s, es), s.current.value.id)
  {
    hide CanLeave, MayLeave, Unique, Run, Heard, Ends;
    var s := Run(Init(text), before);
    EveryRunKeeps(text, before);
    LeavesFromItsStart(s, es);
  }
}
