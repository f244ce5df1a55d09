/**
 What an operation is answered, told from what it hears.
 */
module ClipboardAnswers {

  import opened Options
  import opened Clipboard
  import opened ClipboardSafety
  import opened ClipboardSentinels
  import opened ClipboardReads

  // ---------------------------------------------------------------- one call at a time

  datatype Verdict = Copies(text: string) | Shows(shown: Text) | Done | Fails

  /** After a call the operation goes on to another, or is answered. */
  datatype Move = Goes(pc: Pc) | Answers(verdict: Verdict)

  function HearPress(pc: Pc, id: nat, x: Hearing): Move {
    if !x.ok then Answers(Fails)
    else
      match pc
      case Original => Goes(Parking)
      case Parking => Goes(Waiting)
      case Waiting => if x.read == Some(Sentinel(id)) then Goes(Pressing) else if x.expired then Answers(Fails) else Goes(Waiting)
      case Pressing => Goes(Copying)
      case _ =>
        if x.read.Some? && x.read.value.Plain? then Answers(if TooLarge(x.read.value) then Fails else Copies(x.read.value.text))
        else if x.expired then Answers(Fails)
        else Goes(Copying)
  }

  function HearPeek(x: Hearing): Move {
    Answers(if !x.ok || x.read.None? || TooLarge(x.read.value) then Fails else Shows(x.read.value))
  }

  function HearWrite(pc: Pc, text: string, paste: bool, x: Hearing): Move {
    match pc
    case Writing => if !x.ok then Answers(Fails) else if paste then Goes(Landing) else Answers(Done)
    case Landing => if x.read == Some(Plain(text)) then Goes(Pasting) else if x.expired then Answers(Fails) else Goes(Landing)
    case _ => Answers(if x.ok then Done else Fails)
  }

  function Hear(kind: Kind, pc: Pc, id: nat, x: Hearing): Move {
    match kind
    case Press => HearPress(pc, id, x)
    case Peek => HearPeek(x)
    case Write(text, paste) => HearWrite(pc, text, paste, x)
  }

  function VerdictFrom(kind: Kind, pc: Pc, id: nat, h: seq<Hearing>): Verdict
    decreases |h|
  {
    if h == [] then Fails
    else
      match Hear(kind, pc, id, h[0])
      case Goes(next) => VerdictFrom(kind, next, id, h[1..])
      case Answers(v) => v
  }

  /** The answer is of this kind, with this text. */
  predicate Is(body: Body, v: Verdict) {
    match v
    case Copies(text) => body.Copied? && body.text == Plain(text)
    case Shows(shown) => body == Data(shown)
    case Done => body.WriteDone?
    case Fails => body.Error?
  }

  /** What one step does: it answers with the verdict, or goes on unanswered. */
  ghost predicate Moves(s: State, t: State, m: Move)
    requires s.current.Some?
  {
    match m
    case Goes(pc) => t.replies == s.replies && t.current.Some? && t.current.value.pc == pc
                     && t.current.value.kind == s.current.value.kind && t.current.value.id == s.current.value.id
    case Answers(v) =>
      && |t.replies| == |s.replies| + 1 && t.replies[..|s.replies|] == s.replies
      && t.replies[|s.replies|].id == s.current.value.id && Is(t.replies[|s.replies|].body, v)
      && (v.Fails? ==> t.replies[|s.replies|].body == Error(s.parked > 0))
      && Settled(t) && (v.Copies? ==> t.current.None?)
  }

  lemma GiveUpMoves(s: State, takes: bool)
    requires Reading(s)
    ensures Moves(s, GiveUp(s, s.current.value, takes), Answers(Fails))
  {
  }

  lemma CopiedMoves(s: State)
    requires Reading(s) && s.parked > 0 && s.history != [] && s.current.value.seenAt.Some? && s.clip.Plain?
    ensures Moves(s, ReadCopied(s, s.current.value), Answers(if TooLarge(s.clip) then Fails else Copies(s.clip.text)))
  {
  }

  lemma SteppedMoves(s: State, o: Outcome)
    requires Sane(s) && Reading(s) && !Settled(s)
    ensures Moves(s, Stepped(s, s.current.value, o), HearPress(s.current.value.pc, s.current.value.id, Hears(s, o)))
  {
    hide GiveUp, ReadCopied, Moves;
    var op := s.current.value;
    var t := Stepped(s, op, o);
    if op.pc.Original? {
      OriginalMoves(s, o);
    } else if t == GiveUp(s, op, o.takes) && HearPress(op.pc, op.id, Hears(s, o)) == Answers(Fails) {
      GiveUpMoves(s, o.takes);
    } else if op.pc.Copying? && s.clip.Plain? {
      CopiedMoves(s);
    } else {
      OnMoves(s, t, HearPress(op.pc, op.id, Hears(s, o)));
    }
  }

  lemma OriginalMoves(s: State, o: Outcome)
    requires Sane(s) && AtOriginal(s)
    ensures Moves(s, Stepped(s, s.current.value, o), HearPress(Original, s.current.value.id, Hears(s, o)))
  {
  }

  lemma OnMoves(s: State, t: State, m: Move)
    requires s.current.Some? && m.Goes? && t.replies == s.replies && t.current.Some? && t.current.value.pc == m.pc
    requires t.current.value.kind == s.current.value.kind && t.current.value.id == s.current.value.id
    ensures Moves(s, t, m)
  {
  }

  lemma PressMoves(s: State, o: Outcome)
    requires Sane(s) && Reading(s) && !Settled(s)
    ensures Moves(s, ResumePress(s, s.current.value, o), HearPress(s.current.value.pc, s.current.value.id, Hears(s, o)))
  {
    hide Stepped, HearPress;
    var t := Listened(s, s.current.value, o);
    ListenedIsSane(s, o);
    SteppedMoves(t, o);
    assert Hears(t, o) == Hears(s, o);
  }

  lemma PeekMoves(s: State, o: Outcome)
    requires Sane(s) && s.current.Some? && s.current.value.kind.Peek?
    ensures Moves(s, ResumePeek(s, s.current.value, o), HearPeek(Hears(s, o)))
  {
  }

  lemma FinishMoves(s: State, body: Body)
    requires s.current.Some? && (body == Error(s.parked > 0) || body.WriteDone?)
    ensures Moves(s, Finish(Answer(s, s.current.value.id, body)), Answers(if body.Error? then Fails else Done))
  {
  }

  lemma WriteMoves(s: State, op: Op, o: Outcome)
    requires s.current == Some(op) && op.kind.Write? && OfWrite(op.pc)
    ensures Moves(s, ResumeWrite(s, op, o), HearWrite(op.pc, op.kind.text, op.kind.paste, Hears(s, o)))
  {
    hide Moves, Answer, Finish;
    var u := ResumeWrite(s, op, o);
    var m := HearWrite(op.pc, op.kind.text, op.kind.paste, Hears(s, o));
    FinishMoves(s, Error(s.parked > 0));
    FinishMoves(s, WriteDone);
    if m.Goes? { OnMoves(s, u, m); }
  }

  lemma ResumeMoves(s: State, o: Outcome)
    requires Sane(s) && s.current.Some? && !Settled(s)
    ensures var op := s.current.value; Moves(s, Next(s, Resume(o)), Hear(op.kind, op.pc, op.id, Hears(s, o)))
  {
    hide ResumePress, ResumePeek, ResumeWrite, HearPress, HearPeek, HearWrite, Hears;
    match s.current.value.kind
    case Press => PressMoves(s, o);
    case Peek => PeekMoves(s, o);
    case Write(_, _) => WriteMoves(s, s.current.value, o);
  }

  // ---------------------------------------------------------------- a whole operation

  /** Which hearing is answered. */
  function AnsweredAt(kind: Kind, pc: Pc, id: nat, h: seq<Hearing>): nat
    decreases |h|
  {
    if h == [] then 0
    else
      match Hear(kind, pc, id, h[0])
      case Goes(next) => 1 + AnsweredAt(kind, next, id, h[1..])
      case Answers(_) => 0
  }

  /** The operation has begun and heard nothing. */
  predicate JustBegun(s: State) {
    s.current.Some? && (s.current.value.pc.Original? || s.current.value.pc.Peeking? || s.current.value.pc.Writing?)
  }

  lemma OtherAnswersNothing(s: State, e: Event)
    requires Sane(s) && s.current.Some? && !e.Resume?
    ensures Next(s, e).replies == s.replies && Next(s, e).current == s.current
  {
  }

  lemma SettledAnswersNothing(s: State, o: Outcome)
    requires Sane(s) && s.current.Some? && Settled(s)
    ensures Next(s, Resume(o)).replies == s.replies && Settled(Next(s, Resume(o)))
  {
    hide ResumePress;
    PutsBack(s);
    PressSettles(s, o);
  }

  lemma PutsBack(s: State)
    requires Sane(s) && s.current.Some? && Settled(s)
    ensures Reading(s)
  {
  }

  lemma {:induction false} SettledRun(s: State, es: seq<Event>)
    requires Sane(s) && Ends(s, es) && Settled(s)
    ensures Run(s, es).replies == s.replies
    decreases |es|
  {
    hide Next, Settled, Sane, Ends, Run, Heard;
    EndsTakesAStep(s, es);
    var e, rest := es[0], es[1..];
    assert es == [e] + rest;
    NextIsSane(s, e);
    HeardFirst(s, e, rest);
    if e.Resume? { SettledAnswersNothing(s, e.outcome); } else { SettledStays(s, e); }
    if rest != [] { SettledRun(Next(s, e), rest); }
  }

  lemma SettledStays(s: State, e: Event)
    requires Sane(s) && s.current.Some? && Settled(s) && !e.Resume?
    ensures Next(s, e).replies == s.replies && Settled(Next(s, e))
  {
    OtherAnswersNothing(s, e);
  }

  /** The run adds one answer, to this operation, and it is this verdict. */
  ghost predicate AddsVerdict(before: seq<Reply>, after: seq<Reply>, id: nat, v: Verdict) {
    && |after| == |before| + 1 && after[..|before|] == before
    && after[|before|].id == id && Is(after[|before|].body, v)
  }

  lemma VerdictStep(kind: Kind, pc: Pc, id: nat, x: Hearing, h: seq<Hearing>)
    ensures var m := Hear(kind, pc, id, x);
            && VerdictFrom(kind, pc, id, [x] + h) == (if m.Goes? then VerdictFrom(kind, m.pc, id, h) else m.verdict)
            && AnsweredAt(kind, pc, id, [x] + h) == (if m.Goes? then 1 + AnsweredAt(kind, m.pc, id, h) else 0)
  {
    assert ([x] + h)[1..] == h;
  }

  lemma {:induction false} AnswersByVerdict(s: State, es: seq<Event>)
    requires Sane(s) && Ends(s, es) && !Settled(s)
    ensures var op := s.current.value; var h := Heard(s, es); var v := VerdictFrom(op.kind, op.pc, op.id, h);
            && AddsVerdict(s.replies, Run(s, es).replies, op.id, v)
            && AnsweredAt(op.kind, op.pc, op.id, h) < |h|
            && (v.Copies? ==> AnsweredAt(op.kind, op.pc, op.id, h) + 1 == |h|)
    decreases |es|
  {
    hide Next, Sane, Ends, Run, Heard, Hears, Hear, VerdictFrom, AnsweredAt, Is;
    EndsTakesAStep(s, es);
    var e, rest := es[0], es[1..];
    assert es == [e] + rest;
    var t := Next(s, e);
    NextIsSane(s, e);
    HeardFirst(s, e, rest);
    if !e.Resume? {
      OtherAnswersNothing(s, e);
      AnswersByVerdict(t, rest);
    } else {
      var op := s.current.value;
      ResumeMoves(s, e.outcome);
      VerdictStep(op.kind, op.pc, op.id, Hears(s, e.outcome), Heard(t, rest));
      var m := Hear(op.kind, op.pc, op.id, Hears(s, e.outcome));
      if m.Goes? {
        EndsTakesAStep(t, rest);
        GoesUnsettled(op.kind, op.pc, op.id, Hears(s, e.outcome));
        AnswersByVerdict(t, rest);
      } else if rest != [] {
        EndsTakesAStep(t, rest);
        SettledRun(t, rest);
      }
    }
  }

  lemma GoesUnsettled(kind: Kind, pc: Pc, id: nat, x: Hearing)
    ensures var m := Hear(kind, pc, id, x); m.Goes? ==> !m.pc.Restoring? && !m.pc.Confirming?
  {
  }

  // ---------------------------------------------------------------- what each is answered

  /** The first read of the read's own sentinel, the ones before it in time. */
  ghost predicate FirstSeen(h: seq<Hearing>, w: nat, id: nat) {
    && w < |h| && (forall i | 0 <= i <= w :: h[i].ok) && h[w].read == Some(Sentinel(id))
    && forall i | 0 <= i < w :: h[i].read != Some(Sentinel(id)) && !h[i].expired
  }

  predicate IsPlain(read: Option<Text>) {
    read.Some? && read.value.Plain?
  }

  /** The first read of a text that is no sentinel, the ones before it in time. */
  ghost predicate FirstPlain(h: seq<Hearing>, c: nat, text: string) {
    && c < |h| && (forall i | 0 <= i <= c :: h[i].ok) && h[c].read == Some(Plain(text))
    && forall i | 0 <= i < c :: !IsPlain(h[i].read) && !h[i].expired
  }

  /** Taking the original and parking went well; the sentinel was seen; the chord was pressed; and then this text was
      the first to be read that is no sentinel, and it may be sent. */
  ghost predicate CopiesAt(h: seq<Hearing>, id: nat, w: nat, c: nat, text: string) {
    && |h| >= 2 && h[0].ok && h[1].ok
    && FirstSeen(h[2..], w, id)
    && |h| >= w + 4 && h[w + 3].ok
    && FirstPlain(h[w + 4..], c, text) && |text| <= MAX_CLIPBOARD_BYTES
  }

  ghost predicate CopiedIn(h: seq<Hearing>, id: nat, text: string) {
    exists w, c :: CopiesAt(h, id, w, c, text)
  }

  lemma PlainLater(h: seq<Hearing>, c: nat, text: string)
    requires h != []
    ensures FirstPlain(h, c + 1, text) <==> h[0].ok && !IsPlain(h[0].read) && !h[0].expired && FirstPlain(h[1..], c, text)
    ensures FirstPlain(h, 0, text) <==> h[0].ok && h[0].read == Some(Plain(text))
  {
    if FirstPlain(h, c + 1, text) {
      assert forall i | 0 <= i <= c :: h[1..][i] == h[i + 1];
    }
    if h[0].ok && !IsPlain(h[0].read) && !h[0].expired && FirstPlain(h[1..], c, text) {
      assert forall i | 0 < i <= c + 1 :: h[i] == h[1..][i - 1];
    }
  }

  lemma {:induction false} CopyingCopies(id: nat, h: seq<Hearing>, text: string)
    ensures VerdictFrom(Press, Copying, id, h) == Copies(text) <==>
            |text| <= MAX_CLIPBOARD_BYTES && exists c :: FirstPlain(h, c, text)
    decreases |h|
  {
    hide FirstPlain;
    if h == [] {
      forall c ensures !FirstPlain(h, c, text) { NoneFirst(c, text); }
    } else {
      CopyingCopies(id, h[1..], text);
      forall c: nat ensures FirstPlain(h, c + 1, text) <==> h[0].ok && !IsPlain(h[0].read) && !h[0].expired && FirstPlain(h[1..], c, text) {
        PlainLater(h, c, text);
      }
      PlainLater(h, 0, text);
      if c: nat :| FirstPlain(h, c, text) {
        if c > 0 { PlainLater(h, c - 1, text); }
      }
    }
  }

  lemma NoneFirst(c: nat, text: string)
    ensures !FirstPlain([], c, text)
  {
  }

  lemma SeenLater(h: seq<Hearing>, w: nat, id: nat)
    requires h != []
    ensures FirstSeen(h, w + 1, id) <==> h[0].ok && h[0].read != Some(Sentinel(id)) && !h[0].expired && FirstSeen(h[1..], w, id)
    ensures FirstSeen(h, 0, id) <==> h[0].ok && h[0].read == Some(Sentinel(id))
  {
    if FirstSeen(h, w + 1, id) {
      assert forall i | 0 <= i <= w :: h[1..][i] == h[i + 1];
    }
    if h[0].ok && h[0].read != Some(Sentinel(id)) && !h[0].expired && FirstSeen(h[1..], w, id) {
      assert forall i | 0 < i <= w + 1 :: h[i] == h[1..][i - 1];
    }
  }

  /** From the wait on: the sentinel seen at `w`, and then what is copied. */
  ghost predicate CopiesFrom(h: seq<Hearing>, id: nat, w: nat, text: string) {
    FirstSeen(h, w, id) && VerdictFrom(Press, Pressing, id, h[w + 1..]) == Copies(text)
  }

  lemma FromLater(h: seq<Hearing>, id: nat, w: nat, text: string)
    requires h != []
    ensures CopiesFrom(h, id, w + 1, text) <==>
            h[0].ok && h[0].read != Some(Sentinel(id)) && !h[0].expired && CopiesFrom(h[1..], id, w, text)
    ensures CopiesFrom(h, id, 0, text) <==>
            h[0].ok && h[0].read == Some(Sentinel(id)) && VerdictFrom(Press, Pressing, id, h[1..]) == Copies(text)
  {
    hide FirstSeen, VerdictFrom;
    SeenLater(h, w, id);
    if w < |h[1..]| { assert h[w + 2..] == h[1..][w + 1..]; }
    SeenWithin(h, w + 1, id);
    SeenWithin(h[1..], w, id);
  }

  lemma WaitingStep(id: nat, h: seq<Hearing>)
    requires h != []
    ensures VerdictFrom(Press, Waiting, id, h) ==
            if !h[0].ok then Fails
            else if h[0].read == Some(Sentinel(id)) then VerdictFrom(Press, Pressing, id, h[1..])
            else if h[0].expired then Fails
            else VerdictFrom(Press, Waiting, id, h[1..])
  {
  }

  lemma {:induction false} WaitingCopies(id: nat, h: seq<Hearing>, text: string)
    ensures VerdictFrom(Press, Waiting, id, h) == Copies(text) <==> exists w :: CopiesFrom(h, id, w, text)
    decreases |h|
  {
    if h == [] {
      forall w: nat ensures !CopiesFrom(h, id, w, text) { SeenWithin(h, w, id); }
    } else {
      hide CopiesFrom, VerdictFrom;
      WaitingCopies(id, h[1..], text);
      WaitingStep(id, h);
      forall w: nat ensures CopiesFrom(h, id, w + 1, text) <==>
                            h[0].ok && h[0].read != Some(Sentinel(id)) && !h[0].expired && CopiesFrom(h[1..], id, w, text)
      {
        FromLater(h, id, w, text);
      }
      FromLater(h, id, 0, text);
      if w: nat :| CopiesFrom(h, id, w, text) {
        if w > 0 { FromLater(h, id, w - 1, text); }
      }
    }
  }

  lemma SeenWithin(h: seq<Hearing>, w: nat, id: nat)
    ensures FirstSeen(h, w, id) ==> w < |h|
  {
  }

  lemma TwoSteps(id: nat, h: seq<Hearing>)
    ensures VerdictFrom(Press, Original, id, h) ==
            if |h| < 2 || !h[0].ok || !h[1].ok then Fails else VerdictFrom(Press, Waiting, id, h[2..])
  {
    if |h| >= 2 { assert h[1..][1..] == h[2..]; }
  }

  lemma PressingCopies(id: nat, h: seq<Hearing>, text: string)
    ensures VerdictFrom(Press, Pressing, id, h) == Copies(text) <==>
            h != [] && h[0].ok && |text| <= MAX_CLIPBOARD_BYTES && exists c :: FirstPlain(h[1..], c, text)
  {
    hide FirstPlain;
    if h != [] { CopyingCopies(id, h[1..], text); }
  }

  lemma FromIsAt(h: seq<Hearing>, id: nat, w: nat, text: string)
    requires |h| >= 2 && h[0].ok && h[1].ok
    ensures CopiesFrom(h[2..], id, w, text) <==> exists c :: CopiesAt(h, id, w, c, text)
  {
    hide FirstSeen, FirstPlain, VerdictFrom;
    SeenWithin(h[2..], w, id);
    if FirstSeen(h[2..], w, id) {
      var rest := h[2..][w + 1..];
      assert rest == h[w + 3..];
      PressingCopies(id, rest, text);
      if rest != [] {
        assert rest[1..] == h[w + 4..] && rest[0] == h[w + 3];
        if c: nat :| FirstPlain(rest[1..], c, text) && rest[0].ok && |text| <= MAX_CLIPBOARD_BYTES {
          assert CopiesAt(h, id, w, c, text);
        }
      }
    }
  }

  lemma PressCopies(id: nat, h: seq<Hearing>, text: string)
    ensures VerdictFrom(Press, Original, id, h) == Copies(text) <==> exists w, c :: CopiesAt(h, id, w, c, text)
  {
    hide VerdictFrom, CopiesFrom, CopiesAt;
    TwoSteps(id, h);
    if |h| >= 2 && h[0].ok && h[1].ok {
      WaitingCopies(id, h[2..], text);
      if w: nat :| CopiesFrom(h[2..], id, w, text) {
        FromIsAt(h, id, w, text);
        var c: nat :| CopiesAt(h, id, w, c, text);
      }
      if w: nat, c: nat :| CopiesAt(h, id, w, c, text) { FromIsAt(h, id, w, text); }
    } else {
      forall w: nat, c: nat ensures !CopiesAt(h, id, w, c, text) { CopiesNeedsTwo(h, id, w, c, text); }
    }
  }

  lemma CopiesNeedsTwo(h: seq<Hearing>, id: nat, w: nat, c: nat, text: string)
    ensures CopiesAt(h, id, w, c, text) ==> |h| >= 2 && h[0].ok && h[1].ok
  {
  }

  /** An await that failed, a deadline that passed, or a text that is too large. */
  predicate Trouble(x: Hearing) {
    !x.ok || x.expired || (x.read.Some? && TooLarge(x.read.value))
  }

  lemma {:induction false} AnsweredThere(pc: Pc, id: nat, h: seq<Hearing>)
    requires AnsweredAt(Press, pc, id, h) < |h|
    ensures var at := AnsweredAt(Press, pc, id, h); var v := VerdictFrom(Press, pc, id, h);
            && (forall i | 0 <= i < at :: h[i].ok)
            && (v.Copies? ==> h[at].read == Some(Plain(v.text)))
            && (v.Fails? ==> Trouble(h[at]))
            && (v.Copies? || v.Fails?)
    decreases |h|
  {
    var m := Hear(Press, pc, id, h[0]);
    if m.Goes? {
      AnsweredThere(m.pc, id, h[1..]);
      var at := AnsweredAt(Press, m.pc, id, h[1..]);
      assert forall i | 0 < i <= at :: h[i] == h[1..][i - 1];
    }
  }

  /** The answer an operation was given. */
  function AnswerOf(before: seq<Reply>, after: seq<Reply>): Reply
    requires |after| == |before| + 1
  {
    after[|before|]
  }

  /** The run adds one answer, and it is this operation's. */
  ghost predicate AnsweredOnce(s: State, es: seq<Event>)
    requires Sane(s) && s.current.Some?
  {
    var t := Run(s, es);
    |t.replies| == |s.replies| + 1 && t.replies[..|s.replies|] == s.replies && t.replies[|s.replies|].id == s.current.value.id
  }

  /** Over every run: a read with a press is answered once by the time it ends. It copies a text exactly when it
      took an original and parked, then first saw its sentinel in time, pressed its chord, and then first read in
      time that text, which is no sentinel and not too large; and then that read is the last thing it hears, so
      it puts nothing back. Otherwise it fails, on an await that failed, a deadline that passed or a text too
      large, with nothing failed before. */
  lemma ReadsAreAnswered(text: string, before: seq<Event>, es: seq<Event>)
    requires var s := Run(Init(text), before); AtOriginal(s) && Ends(s, es)
    ensures var s := Run(Init(text), before);
            && AnsweredOnce(s, es)
            && var (h, body) := (Heard(s, es), AnswerOf(s.replies, Run(s, es).replies).body);
               && (forall copied :: body.Copied? && body.text == Plain(copied) <==> CopiedIn(h, s.current.value.id, copied))
               && (body.Copied? ==> body.text.Plain? && h != [] && h[|h| - 1].read == Some(body.text))
               && (!body.Copied? ==> body.Error? && exists at ::
                     0 <= at < |h| && Trouble(h[at]) && forall i | 0 <= i < at :: h[i].ok)
  {
    hide Run, Heard, Ends, VerdictFrom, AnsweredAt, CopiesAt;
    var s := Run(Init(text), before);
    var id, h := s.current.value.id, Heard(s, es);
    AnswersByVerdict(s, es);
    AnsweredThere(Original, id, h);
    var body := AnswerOf(s.replies, Run(s, es).replies).body;
    forall copied ensures body.Copied? && body.text == Plain(copied) <==> CopiedIn(h, id, copied) {
      PressCopies(id, h, copied);
      assert body.Copied? && body.text == Plain(copied) <==> VerdictFrom(Press, Original, id, h) == Copies(copied);
    }
  }

  /** Over every run: a read without a press hears one thing, and is answered the clipboard as it then was, or fails
      exactly when that call failed or the text is too large. */
  lemma PeeksAreAnswered(text: string, before: seq<Event>, es: seq<Event>)
    requires var s := Run(Init(text), before); s.current.Some? && s.current.value.kind.Peek? && Ends(s, es)
    ensures var s := Run(Init(text), before);
            && AnsweredOnce(s, es)
            && var (h, body) := (Heard(s, es), AnswerOf(s.replies, Run(s, es).replies).body);
               && h != []
               && if h[0].ok && h[0].read.Some? && !TooLarge(h[0].read.value) then body == Data(h[0].read.value) else body.Error?
  {
    hide Run, Heard, Ends;
    var s := Run(Init(text), before);
    PeekIsUnsettled(s);
    AnswersByVerdict(s, es);
  }

  lemma PeekIsUnsettled(s: State)
    requires Sane(s) && s.current.Some? && (s.current.value.kind.Peek? || s.current.value.kind.Write?)
    ensures !Settled(s)
  {
  }

  /** The device took the text; and to paste it, the clipboard was first read to hold it in time, and the key went
      well. */
  ghost predicate WritesAt(h: seq<Hearing>, text: string, paste: bool, l: nat) {
    && h != [] && h[0].ok
    && (paste ==>
          && 1 <= l && l + 1 < |h| && h[l].read == Some(Plain(text)) && h[l + 1].ok
          && forall i | 1 <= i < l :: h[i].read != Some(Plain(text)) && !h[i].expired)
  }

  /** From landing on. */
  ghost predicate LandsAt(h: seq<Hearing>, text: string, l: nat) {
    && l + 1 < |h| && h[l].read == Some(Plain(text)) && h[l + 1].ok
    && forall i | 0 <= i < l :: h[i].read != Some(Plain(text)) && !h[i].expired
  }

  lemma LandsLater(h: seq<Hearing>, text: string, l: nat)
    requires h != []
    ensures LandsAt(h, text, l + 1) <==> h[0].read != Some(Plain(text)) && !h[0].expired && LandsAt(h[1..], text, l)
    ensures LandsAt(h, text, 0) <==> |h| > 1 && h[0].read == Some(Plain(text)) && h[1].ok
  {
    if LandsAt(h, text, l + 1) {
      assert forall i | 0 <= i < |h| - 1 :: h[1..][i] == h[i + 1];
    }
    if h[0].read != Some(Plain(text)) && !h[0].expired && LandsAt(h[1..], text, l) {
      assert forall i | 0 < i < |h| :: h[i] == h[1..][i - 1];
    }
  }

  lemma LandingStep(id: nat, h: seq<Hearing>, text: string)
    requires h != []
    ensures VerdictFrom(Write(text, true), Landing, id, h) ==
            if h[0].read == Some(Plain(text)) then if |h| > 1 && h[1].ok then Done else Fails
            else if h[0].expired then Fails
            else VerdictFrom(Write(text, true), Landing, id, h[1..])
  {
    if |h| > 1 { assert h[1..][0] == h[1]; }
  }

  lemma {:induction false} LandingWrites(id: nat, h: seq<Hearing>, text: string)
    ensures VerdictFrom(Write(text, true), Landing, id, h) == Done <==> exists l :: LandsAt(h, text, l)
    decreases |h|
  {
    if h == [] {
      forall l ensures !LandsAt(h, text, l) { }
    } else {
      hide VerdictFrom, LandsAt;
      LandingWrites(id, h[1..], text);
      LandingStep(id, h, text);
      forall l: nat ensures LandsAt(h, text, l + 1) <==> h[0].read != Some(Plain(text)) && !h[0].expired && LandsAt(h[1..], text, l) {
        LandsLater(h, text, l);
      }
      LandsLater(h, text, 0);
      if l: nat :| LandsAt(h, text, l) {
        if l > 0 { LandsLater(h, text, l - 1); }
      }
    }
  }

  lemma WritesLanded(h: seq<Hearing>, text: string, l: nat)
    requires h != [] && h[0].ok
    ensures WritesAt(h, text, true, l + 1) <==> LandsAt(h[1..], text, l)
    ensures !WritesAt(h, text, true, 0)
  {
    assert forall i | 0 <= i < |h| - 1 :: h[1..][i] == h[i + 1];
    assert forall i | 0 < i < |h| :: h[i] == h[1..][i - 1];
  }

  lemma WritingWrites(id: nat, h: seq<Hearing>, text: string, paste: bool)
    ensures VerdictFrom(Write(text, paste), Writing, id, h) == Done <==> exists l :: WritesAt(h, text, paste, l)
  {
    if h == [] || !h[0].ok {
    } else if paste {
      hide WritesAt, LandsAt;
      LandingWrites(id, h[1..], text);
      forall l: nat ensures WritesAt(h, text, true, l + 1) <==> LandsAt(h[1..], text, l) { WritesLanded(h, text, l); }
      WritesLanded(h, text, 0);
      if l: nat :| WritesAt(h, text, true, l) {
        assert l > 0;
        assert LandsAt(h[1..], text, l - 1);
      }
    } else {
      assert WritesAt(h, text, paste, 0);
    }
  }

  lemma {:induction false} WritesOrFails(text: string, paste: bool, pc: Pc, id: nat, h: seq<Hearing>)
    ensures VerdictFrom(Write(text, paste), pc, id, h).Done? || VerdictFrom(Write(text, paste), pc, id, h).Fails?
    decreases |h|
  {
    if h != [] {
      var m := Hear(Write(text, paste), pc, id, h[0]);
      if m.Goes? { WritesOrFails(text, paste, m.pc, id, h[1..]); }
    }
  }

  /** Over every run: a write is answered done exactly when the device took its text and, to paste it, the text was
      then read on the clipboard in time and the key went well. Otherwise it fails. */
  lemma WritesAreAnswered(text: string, before: seq<Event>, es: seq<Event>)
    requires var s := Run(Init(text), before);
             s.current.Some? && s.current.value.kind.Write? && s.current.value.pc.Writing? && Ends(s, es)
    ensures var s := Run(Init(text), before);
            && AnsweredOnce(s, es)
            && var (h, kind, body) := (Heard(s, es), s.current.value.kind, AnswerOf(s.replies, Run(s, es).replies).body);
               && (body.WriteDone? <==> exists l :: WritesAt(h, kind.text, kind.paste, l))
               && (!body.WriteDone? ==> body.Error?)
  {
    hide Run, Heard, Ends, VerdictFrom, WritesAt;
    var s := Run(Init(text), before);
    var op, h := s.current.value, Heard(s, es);
    AnswersByVerdict(s, es);
    WritingWrites(op.id, h, op.kind.text, op.kind.paste);
    WritesOrFails(op.kind.text, op.kind.paste, Writing, op.id, h);
  }

  /** Over every run: an error says that a sentinel may be on the device exactly where it answers a read that took
      its original and so set one. */
  lemma ErrorsSayWhetherParked(text: string, before: seq<Event>, e: Event)
    ensures var s := Run(Init(text), before); var t := Next(s, e);
            && |s.replies| <= |t.replies| <= |s.replies| + 1 && t.replies[..|s.replies|] == s.replies
            && (|t.replies| > |s.replies| && t.replies[|s.replies|].body.Error? ==>
                  (t.replies[|s.replies|].body.parked <==> Parked(s)))
  {
    hide Run, Next;
    var s := Run(Init(text), before);
    if s.current.None? || !e.Resume? {
      NothingIsAnswered(s, e);
    } else if Settled(s) {
      SettledAnswersNothing(s, e.outcome);
    } else {
      ResumeMoves(s, e.outcome);
    }
  }

  lemma NothingIsAnswered(s: State, e: Event)
    requires Sane(s) && (s.current.None? || !e.Resume?)
    ensures Next(s, e).replies == s.replies
  {
  }

  // ---------------------------------------------------------------- what is put back

  /** What the read took: another read's sentinel counts as nothing. */
  function TakenText(s: State): Text {
    if s.taken != [] && s.taken[|s.taken| - 1].Plain? then s.taken[|s.taken| - 1] else Plain("")
  }

  /** A parked read goes on, ends with the text it read, or puts its original back. */
  ghost predicate PutsBackOrNot(s: State, t: State, o: Outcome)
    requires Parked(s)
  {
    if t.replies == s.replies then t.pending == s.pending && t.current.Some?
    else if o.ok && s.current.value.pc.Copying? && s.clip.Plain? then t.pending == s.pending && t.current.None?
    else
      && t.pending == s.pending + (if o.takes then [TakenText(s)] else [])
      && t.current.Some? && t.current.value.pc.Restoring? && t.current.value.restored == o.takes
  }

  lemma GiveUpPutsBack(s: State, o: Outcome)
    requires Parked(s) && Remembers(s) && !(o.ok && s.current.value.pc.Copying? && s.clip.Plain?)
    ensures PutsBackOrNot(s, GiveUp(s, s.current.value, o.takes), o)
  {
  }

  lemma GoesOnUnset(s: State, t: State, o: Outcome)
    requires Parked(s) && t.replies == s.replies && t.pending == s.pending && t.current.Some?
    ensures PutsBackOrNot(s, t, o)
  {
  }

  lemma SteppedPutsBack(s: State, o: Outcome)
    requires Sane(s) && Parked(s) && !Settled(s) && Remembers(s)
    ensures PutsBackOrNot(s, Stepped(s, s.current.value, o), o)
  {
    hide ReadCopied, GiveUp, PutsBackOrNot, Remembers;
    var op := s.current.value;
    var t := Stepped(s, op, o);
    if o.ok && op.pc.Copying? && s.clip.Plain? {
      CopiedStepsOn(s, op);
      CopiedReplies(s);
      EndsUnset(s, t, o);
    } else {
      GiveUpPutsBack(s, o);
      if t != GiveUp(s, op, o.takes) { GoesOnUnset(s, t, o); }
    }
  }

  lemma EndsUnset(s: State, t: State, o: Outcome)
    requires Parked(s) && o.ok && s.current.value.pc.Copying? && s.clip.Plain?
    requires t.pending == s.pending && t.current.None? && |t.replies| == |s.replies| + 1
    ensures PutsBackOrNot(s, t, o)
  {
  }

  lemma CopiedReplies(s: State)
    requires Reading(s) && s.parked > 0 && s.history != [] && s.current.value.seenAt.Some?
    ensures var t := ReadCopied(s, s.current.value); t.pending == s.pending && |t.replies| == |s.replies| + 1
  {
  }

  /** Over every run: a parked read that is answered without a text sets what it took for its original, if the
      device takes it, and goes on to see it back; one answered by the text it read sets nothing. */
  lemma FailedReadsPutBack(text: string, before: seq<Event>, o: Outcome)
    requires var s := Run(Init(text), before); Parked(s) && !Settled(s)
    ensures var s := Run(Init(text), before); PutsBackOrNot(s, Next(s, Resume(o)), o)
  {
    hide Stepped, Listened, Run, PutsBackOrNot;
    var s := Run(Init(text), before);
    EveryRunKeeps(text, before);
    ListenedIsSane(s, o);
    var u := Listened(s, s.current.value, o);
    SteppedPutsBack(u, o);
    SamePutsBack(s, u, Stepped(u, u.current.value, o), o);
  }

  lemma SamePutsBack(s: State, u: State, t: State, o: Outcome)
    requires Parked(s) && Parked(u) && u == s.(current := u.current) && u.current.value.pc == s.current.value.pc
    ensures PutsBackOrNot(u, t, o) ==> PutsBackOrNot(s, Recorded(t), o)
  {
  }

  /** Over every run: the read that puts its original back ends exactly when it reads it, a read fails or the
      deadline passes. */
  lemma PuttingBackEnds(text: string, before: seq<Event>, o: Outcome)
    requires var s := Run(Init(text), before); Reading(s) && s.current.value.pc.Confirming?
    ensures var s := Run(Init(text), before);
            Next(s, Resume(o)).current.None? <==> !o.ok || s.clip == TakenText(s) || o.expired
  {
    hide Run;
    var s := Run(Init(text), before);
    EveryRunKeeps(text, before);
    ListenedIsSane(s, o);
  }

  // ---------------------------------------------------------------- in the order they came

  /** The operations a run submits. */
  function Submitted(es: seq<Event>): seq<Kind>
    decreases |es|
  {
    if es == [] then [] else (if es[0].Submit? then [es[0].kind] else []) + Submitted(es[1..])
  }

  /** Operations are numbered as they were submitted; those not begun are queued in that order. */
  predicate Numbered(s: State, kinds: seq<Kind>) {
    && |kinds| == s.nextId && |s.queue| <= |kinds| && s.queue == kinds[|kinds| - |s.queue|..]
    && (s.current.Some? ==> s.current.value.id < |kinds| && s.current.value.kind == kinds[s.current.value.id])
  }

  lemma PressKeepsKind(s: State, o: Outcome)
    requires Sane(s) && Reading(s)
    ensures var t := ResumePress(s, s.current.value, o);
            && t.queue == s.queue && t.nextId == s.nextId
            && (t.current.Some? ==> t.current.value.id == s.current.value.id && t.current.value.kind == s.current.value.kind)
  {
    hide Stepped, Listened;
    var u := Listened(s, s.current.value, o);
    ListenedIsSane(s, o);
    SteppedGoesOn(u, o);
    SteppedSettles(u, o);
  }

  lemma ResumeKeepsNumbers(s: State, o: Outcome, kinds: seq<Kind>)
    requires Sane(s) && Numbered(s, kinds)
    ensures Numbered(Next(s, Resume(o)), kinds)
  {
    hide ResumePress, ResumeWrite;
    if s.current.Some? {
      match s.current.value.kind
      case Press => PressKeepsKind(s, o);
      case Peek =>
      case Write(_, _) => WriteGoesOn(s, s.current.value, o);
    }
  }

  lemma NextKeepsNumbers(s: State, e: Event, kinds: seq<Kind>)
    requires Sane(s) && Numbered(s, kinds)
    ensures Numbered(Next(s, e), kinds + if e.Submit? then [e.kind] else [])
  {
    hide ResumePress, ResumePeek, ResumeWrite;
    if e.Resume? {
      hide Act;
      ResumeKeepsNumbers(s, e.outcome, kinds);
      assert kinds + [] == kinds;
    } else if e.Start? && s.current.None? && s.queue != [] {
      assert s.queue[0] == kinds[|kinds| - |s.queue|];
      assert kinds + [] == kinds;
    }
  }

  lemma {:induction false} RunKeepsNumbers(s: State, es: seq<Event>, kinds: seq<Kind>)
    requires Sane(s) && Numbered(s, kinds)
    ensures Numbered(Run(s, es), kinds + Submitted(es))
    decreases |es|
  {
    hide Next, Numbered;
    if es == [] {
      assert kinds + [] == kinds;
    } else {
      var now := if es[0].Submit? then [es[0].kind] else [];
      NextIsSane(s, es[0]);
      NextKeepsNumbers(s, es[0], kinds);
      RunKeepsNumbers(Next(s, es[0]), es[1..], kinds + now);
      assert kinds + now + Submitted(es[1..]) == kinds + Submitted(es);
    }
  }

  /** Over every run: operations run one at a time in the order they were submitted, each under its own number. */
  lemma OperationsRunInOrder(text: string, es: seq<Event>)
    ensures Numbered(Run(Init(text), es), Submitted(es))
  {
    RunKeepsNumbers(Init(text), es, []);
    assert [] + Submitted(es) == Submitted(es);
  }
}
