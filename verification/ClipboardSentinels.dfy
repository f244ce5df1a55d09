/**
 Where sentinels can be, and what that means for the reads after.
 */
module ClipboardSentinels {

  import opened Options
  import opened Clipboard
  import opened ClipboardSafety

  // ---------------------------------------------------------------- no read takes another's sentinel

  /** The sentinel of the read that is parked. */
  predicate Mine(s: State, t: Text) {
    Parked(s) && s.current.value.sent && t == Sentinel(s.current.value.id)
  }

  /** Once read, a sentinel is not about to be set again. */
  predicate MayPend(s: State, t: Text) {
    t.Sentinel? ==> Mine(s, t) && !s.current.value.saw
  }

  ghost predicate Confined(s: State) {
    !s.unconfirmed ==>
      && (s.clip.Sentinel? ==> Mine(s, s.clip) && !s.current.value.cleared)
      && forall t | t in s.pending :: MayPend(s, t)
  }

  ghost predicate NoneTaken(s: State) {
    && (forall t | t in s.taken && t.Sentinel? :: s.unconfirmed)
    && (forall r | r in s.replies && r.body.Data? && r.body.text.Sentinel? :: s.unconfirmed)
  }

  lemma ParkConfines(s: State, takes: bool)
    requires Sane(s) && s.current.Some? && s.current.value.kind.Press? && s.current.value.pc.Original?
    requires Confined(s)
    ensures Confined(Park(s, s.current.value, takes))
  {
  }

  lemma GiveUpConfines(s: State, takes: bool)
    requires Sane(s) && Parked(s) && Confined(s)
    ensures Confined(GiveUp(s, s.current.value, takes))
  {
  }

  lemma ListenedConfines(s: State, o: Outcome)
    requires Sane(s) && s.current.Some? && s.current.value.kind.Press?
    requires Confined(s) && Unique(s)
    ensures Confined(Listened(s, s.current.value, o))
  {
  }

  lemma PressConfines(s: State, o: Outcome)
    requires Sane(s) && s.current.Some? && s.current.value.kind.Press?
    requires Confined(s) && Unique(s)
    ensures Confined(ResumePress(s, s.current.value, o))
  {
    hide Stepped, Listened, Confined;
    ListenedIsSane(s, o);
    ListenedConfines(s, o);
    SteppedConfines(Listened(s, s.current.value, o), o);
  }

  lemma SteppedConfines(s: State, o: Outcome)
    requires Sane(s) && s.current.Some? && s.current.value.kind.Press?
    requires Confined(s)
    ensures Confined(Stepped(s, s.current.value, o))
  {
    hide Park, GiveUp;
    if s.current.value.pc.Original? { ParkConfines(s, o.takes); } else { GiveUpConfines(s, o.takes); }
  }

  lemma ApplyConfines(s: State, i: nat)
    requires Sane(s) && Confined(s) && i < |s.pending|
    ensures Confined(Act(s, Apply(i)))
  {
    var t := Act(s, Apply(i));
    assert s.pending[i] in s.pending;
    forall x | x in t.pending ensures x in s.pending {
      var k :| 0 <= k < |t.pending| && t.pending[k] == x;
      assert x == s.pending[if k < i then k else k + 1];
    }
  }

  lemma NextIsConfined(s: State, e: Event)
    requires Sane(s) && Confined(s) && Unique(s)
    ensures Confined(Next(s, e))
  {
    hide ResumePress, Unique;
    if e.Resume? && s.current.Some? && s.current.value.kind.Press? {
      PressConfines(s, e.outcome);
    } else if e.Apply? && e.i < |s.pending| {
      ApplyConfines(s, e.i);
    }
  }

  lemma PressTakesNone(s: State, o: Outcome)
    requires Sane(s) && s.current.Some? && s.current.value.kind.Press?
    requires Confined(s) && Unique(s) && NoneTaken(s)
    ensures NoneTaken(ResumePress(s, s.current.value, o))
  {
    hide Stepped, Listened, Confined;
    ListenedIsSane(s, o);
    ListenedConfines(s, o);
    SteppedTakesNone(Listened(s, s.current.value, o), o);
  }

  lemma SteppedTakesNone(s: State, o: Outcome)
    requires Sane(s) && s.current.Some? && s.current.value.kind.Press?
    requires Confined(s) && NoneTaken(s)
    ensures NoneTaken(Stepped(s, s.current.value, o))
  {
  }

  lemma NextTakesNone(s: State, e: Event)
    requires Sane(s) && Confined(s) && Unique(s) && NoneTaken(s)
    ensures NoneTaken(Next(s, e))
  {
    if e.Resume? {
      ResumeTakesNone(s, e.outcome);
    } else {
      hide Confined, Unique;
    }
  }

  lemma ResumeTakesNone(s: State, o: Outcome)
    requires Sane(s) && Confined(s) && Unique(s) && NoneTaken(s)
    ensures NoneTaken(Next(s, Resume(o)))
  {
    hide ResumePress, ResumePeek, ResumeWrite, Confined, Unique;
    if s.current.Some? {
      match s.current.value.kind
      case Press => PressTakesNone(s, o);
      case Peek => PeekTakesNone(s, o);
      case Write(_, _) => WriteTakesNone(s, o);
    }
  }

  lemma PeekTakesNone(s: State, o: Outcome)
    requires Sane(s) && Confined(s) && NoneTaken(s) && s.current.Some? && s.current.value.kind.Peek?
    ensures NoneTaken(ResumePeek(s, s.current.value, o))
  {
  }

  lemma WriteTakesNone(s: State, o: Outcome)
    requires NoneTaken(s) && s.current.Some? && s.current.value.kind.Write?
    ensures NoneTaken(ResumeWrite(s, s.current.value, o))
  {
  }

  // ---------------------------------------------------------------- sets made in the order they were taken

  /** What was taken before the current read's sentinel has been made once its sentinel is seen. */
  ghost predicate Ordered(s: State) {
    s.inOrder && Parked(s) && s.current.value.sent
    && !(s.current.value.pc.Restoring? || s.current.value.pc.Confirming?) ==>
      if s.current.value.seenAt.Some? then
        s.pending == [] && (s.clip == Sentinel(s.current.value.id) || s.writer.App?)
      else s.pending == [] || s.pending[|s.pending| - 1] == Sentinel(s.current.value.id)
  }

  /** While sets are made in order, copied text is an app's own. */
  ghost predicate FromApps(s: State) {
    forall r | r in s.replies && r.body.Copied? && s.inOrder :: r.body.writer.App?
  }

  lemma PressKeepsOrder(s: State, o: Outcome)
    requires Sane(s) && s.current.Some? && s.current.value.kind.Press?
    requires Ordered(s) && Unique(s) && FromApps(s)
    ensures Ordered(ResumePress(s, s.current.value, o))
    ensures FromApps(ResumePress(s, s.current.value, o))
  {
    hide Stepped, Listened;
    ListenedIsSane(s, o);
    SteppedKeepsOrder(Listened(s, s.current.value, o), o);
  }

  lemma SteppedKeepsOrder(s: State, o: Outcome)
    requires Sane(s) && s.current.Some? && s.current.value.kind.Press?
    requires Ordered(s) && FromApps(s)
    requires s.clip.Sentinel? ==> s.clip !in s.pending
    ensures Ordered(Stepped(s, s.current.value, o))
    ensures FromApps(Stepped(s, s.current.value, o))
  {
    hide FromApps;
    SteppedIsFromApps(s, o);
  }

  lemma SteppedIsFromApps(s: State, o: Outcome)
    requires Sane(s) && s.current.Some? && s.current.value.kind.Press?
    requires Ordered(s) && FromApps(s)
    ensures FromApps(Stepped(s, s.current.value, o))
  {
  }

  lemma NextIsOrdered(s: State, e: Event)
    requires Sane(s) && Ordered(s) && Unique(s) && FromApps(s)
    ensures Ordered(Next(s, e)) && FromApps(Next(s, e))
  {
    if e.Resume? {
      ResumeIsOrdered(s, e.outcome);
    } else {
      hide Unique;
    }
  }

  lemma ResumeIsOrdered(s: State, o: Outcome)
    requires Sane(s) && Ordered(s) && Unique(s) && FromApps(s)
    ensures Ordered(Next(s, Resume(o))) && FromApps(Next(s, Resume(o)))
  {
    hide ResumePress, Unique;
    if Reading(s) { PressKeepsOrder(s, o); }
  }

  // ---------------------------------------------------------------- the original comes back

  /** What a parked read remembers is what it took; another read's sentinel counts as nothing. */
  ghost predicate Remembers(s: State) {
    Parked(s) ==>
      s.taken != [] && s.current.value.before == (var raw := s.taken[|s.taken| - 1]; if raw.Plain? then raw.text else "")
  }

  predicate PuttingBack(s: State) {
    Parked(s) && s.current.value.restored && (s.current.value.pc.Restoring? || s.current.value.pc.Confirming?)
  }

  /** While sets are made in order, what the read put back is on its way last of all, or there, or an app has
      written over it. */
  ghost predicate Returning(s: State) {
    s.inOrder && PuttingBack(s) ==>
      var original := Plain(s.current.value.before);
      if s.pending != [] then s.pending[|s.pending| - 1] == original else s.clip == original || s.writer.App?
  }

  lemma GiveUpReturns(s: State, takes: bool)
    requires Sane(s) && Parked(s) && Remembers(s)
    ensures Remembers(GiveUp(s, s.current.value, takes)) && Returning(GiveUp(s, s.current.value, takes))
  {
  }

  lemma ParkReturns(s: State, takes: bool)
    requires Sane(s) && s.current.Some? && s.current.value.kind.Press? && s.current.value.pc.Original?
    ensures Remembers(Park(s, s.current.value, takes)) && Returning(Park(s, s.current.value, takes))
  {
  }

  lemma PressReturns(s: State, o: Outcome)
    requires Sane(s) && s.current.Some? && s.current.value.kind.Press?
    requires Remembers(s) && Returning(s)
    ensures Remembers(ResumePress(s, s.current.value, o)) && Returning(ResumePress(s, s.current.value, o))
  {
    hide Stepped, Listened;
    ListenedIsSane(s, o);
    SteppedReturns(Listened(s, s.current.value, o), o);
  }

  lemma SteppedReturns(s: State, o: Outcome)
    requires Sane(s) && s.current.Some? && s.current.value.kind.Press?
    requires Remembers(s) && Returning(s)
    ensures Remembers(Stepped(s, s.current.value, o)) && Returning(Stepped(s, s.current.value, o))
  {
    hide Remembers, Returning, Park, GiveUp, ReadCopied;
    var t := Stepped(s, s.current.value, o);
    if s.current.value.pc.Original? {
      ParkReturns(s, o.takes);
      FailedReturns(s);
    } else if t == GiveUp(s, s.current.value, o.takes) {
      GiveUpReturns(s, o.takes);
    } else if s.current.value.pc.Copying? {
      CopiedReturns(s);
    } else if t != s {
      GoneOnReturns(s, t);
    }
  }

  lemma FailedReturns(s: State)
    requires Sane(s) && s.current.Some? && !Parked(s)
    ensures Remembers(Finish(Fail(s, s.current.value.id))) && Returning(Finish(Fail(s, s.current.value.id)))
  {
  }

  /** The read ends, or goes on to another step that is not the putting back. */
  lemma GoneOnReturns(s: State, t: State)
    requires Parked(s) && Remembers(s) && Returning(s)
    requires t.clip == s.clip && t.pending == s.pending && t.writer == s.writer && t.inOrder == s.inOrder
    requires t.taken == s.taken
    requires t.current.Some? ==> t.current.value.before == s.current.value.before && t.current.value.restored == s.current.value.restored
    requires t.current.Some? && (t.current.value.pc.Restoring? || t.current.value.pc.Confirming?) ==>
               s.current.value.pc.Restoring? || s.current.value.pc.Confirming?
    ensures Remembers(t) && Returning(t)
  {
  }

  lemma CopiedReturns(s: State)
    requires Sane(s) && Parked(s) && s.current.value.seenAt.Some?
    ensures Remembers(ReadCopied(s, s.current.value)) && Returning(ReadCopied(s, s.current.value))
  {
  }

  lemma ResumeReturns(s: State, o: Outcome)
    requires Sane(s) && Remembers(s) && Returning(s)
    ensures Remembers(Next(s, Resume(o))) && Returning(Next(s, Resume(o)))
  {
    hide ResumePress;
    if s.current.Some? && s.current.value.kind.Press? { PressReturns(s, o); }
  }

  lemma NextReturns(s: State, e: Event)
    requires Sane(s) && Remembers(s) && Returning(s)
    ensures Remembers(Next(s, e)) && Returning(Next(s, e))
  {
    hide ResumePress, ResumePeek, ResumeWrite;
    if e.Resume? { ResumeReturns(s, e.outcome); }
  }

  // ---------------------------------------------------------------- every run

  ghost predicate Kept(s: State)
  {
    Answered(s) && AllFresh(s) && Unique(s) && Confined(s) && NoneTaken(s) && Ordered(s) && FromApps(s) && Remembers(s) && Returning(s)
  }

  lemma NextKeeps(s: State, e: Event)
    requires Sane(s) && Kept(s)
    ensures Kept(Next(s, e))
  {
    hide Next, Answered, AllFresh, Unique, Confined, NoneTaken, Ordered, FromApps, Remembers, Returning, Sane;
    NextIsAnswered(s, e);
    NextIsFresh(s, e);
    NextIsUnique(s, e);
    NextIsConfined(s, e);
    NextTakesNone(s, e);
    NextIsOrdered(s, e);
    NextReturns(s, e);
  }

  lemma {:induction false} RunKeeps(s: State, es: seq<Event>)
    requires Sane(s) && Kept(s)
    ensures Kept(Run(s, es))
    decreases |es|
  {
    hide Kept, Next;
    if es != [] {
      NextKeeps(s, es[0]);
      NextIsSane(s, es[0]);
      RunKeeps(Next(s, es[0]), es[1..]);
    }
  }

  lemma EveryRunKeeps(text: string, es: seq<Event>)
    ensures Kept(Run(Init(text), es))
  {
    RunKeeps(Init(text), es);
  }

  /** Every operation that has ended has exactly one answer; one not begun has none. */
  lemma EachIsAnsweredOnce(text: string, es: seq<Event>, id: nat)
    ensures var s := Run(Init(text), es);
            && (id < s.nextId - |s.queue| && !(s.current.Some? && s.current.value.id == id) ==> Count(s.replies, id) == 1)
            && (id >= s.nextId - |s.queue| ==> Count(s.replies, id) == 0)
            && Count(s.replies, id) <= 1
  {
    EveryRunKeeps(text, es);
  }

  /** Copied text is no sentinel, and was read after the read's own sentinel had been on the device. */
  lemma CopiedTextIsFresh(text: string, es: seq<Event>, r: Reply)
    requires r in Run(Init(text), es).replies && r.body.Copied?
    ensures r.body.text.Plain?
    ensures var h := Run(Init(text), es).history;
            && r.body.seenAt < r.body.readAt < |h|
            && h[r.body.seenAt] == Sentinel(r.id) && h[r.body.readAt] == r.body.text
  {
    EveryRunKeeps(text, es);
  }

  /** When the device makes its sets in order, copied text was written by an app. */
  lemma CopiedTextIsTheApps(text: string, es: seq<Event>, r: Reply)
    requires Run(Init(text), es).inOrder
    requires r in Run(Init(text), es).replies && r.body.Copied?
    ensures r.body.writer.App?
  {
    EveryRunKeeps(text, es);
  }

  /** While every sentinel and restore is read back, no read takes a sentinel for the original or returns
      one, and between reads the device holds none. */
  lemma NoSentinelOutlivesItsRead(text: string, es: seq<Event>)
    requires !Run(Init(text), es).unconfirmed
    ensures var s := Run(Init(text), es);
            && (forall t | t in s.taken :: t.Plain?)
            && (forall r | r in s.replies && (r.body.Copied? || r.body.Data?) :: r.body.text.Plain?)
            && (s.parked == 0 ==> s.clip.Plain? && forall t | t in s.pending :: t.Plain?)
  {
    EveryRunKeeps(text, es);
    var s := Run(Init(text), es);
    forall r | r in s.replies && r.body.Copied? ensures r.body.text.Plain? { assert Fresh(s.history, r); }
    forall t | t in s.pending && s.parked == 0 ensures t.Plain? { assert MayPend(s, t); }
  }

  /** A read that copied nothing and whose original the device took puts back what it took: with its sets made
      in order and none left to make, the clipboard is that text, unless an app has written since. */
  lemma TheOriginalComesBack(text: string, es: seq<Event>)
    requires var s := Run(Init(text), es); s.inOrder && PuttingBack(s) && s.pending == []
    ensures var s := Run(Init(text), es);
            && s.taken != []
            && (s.taken[|s.taken| - 1].Plain? ==> s.clip == s.taken[|s.taken| - 1] || s.writer.App?)
  {
    EveryRunKeeps(text, es);
  }

  const YES := Outcome(true, false, true)
  const LATE := Outcome(true, true, true)
  const NO := Outcome(false, true, true)

  /** A read whose chord copies nothing, and whose restore is taken for done because reading it back failed. */
  const LOST_RESTORE: seq<Event> :=
    [Submit(Press), Start(true), Resume(YES), Apply(0), Resume(YES), Resume(YES), Resume(YES), Resume(LATE),
     Resume(YES), Resume(NO)]

  /** The read after it. */
  const NEXT_READ: seq<Event> := [Submit(Press), Start(true), Resume(YES)]

  lemma OneStep(s: State, es: seq<Event>) returns (t: State, rest: seq<Event>)
    requires Sane(s) && es != []
    ensures t == Next(s, es[0]) && rest == es[1..]
    ensures Sane(t) && Run(s, es) == Run(t, rest)
  {
    NextIsSane(s, es[0]);
    t, rest := Next(s, es[0]), es[1..];
  }

  lemma NoneLeft(s: State, es: seq<Event>)
    requires Sane(s) && es == []
    ensures Run(s, es) == s
  {
  }

  lemma Parks(text: string) returns (s: State, es: seq<Event>)
    ensures Sane(s) && Run(Init(text), LOST_RESTORE) == Run(s, es) && es == LOST_RESTORE[3..]
    ensures s.pending == [Sentinel(0)] && s.queue == [] && s.nextId == 1 && s.parked == 1
    ensures s.taken == [Plain(text)] && s.current == Some(Op(0, Press, Parking, text, true, None, false, false, false))
  {
    hide Run;
    s, es := OneStep(Init(text), LOST_RESTORE);
    s, es := OneStep(s, es);
    s, es := OneStep(s, es);
  }

  lemma SetsItsSentinel(text: string) returns (s: State, es: seq<Event>)
    ensures Sane(s) && Run(Init(text), LOST_RESTORE) == Run(s, es) && es == LOST_RESTORE[4..]
    ensures s.clip == Sentinel(0) && s.pending == [] && s.queue == [] && s.nextId == 1 && s.parked == 1
    ensures s.taken == [Plain(text)] && s.current == Some(Op(0, Press, Parking, text, true, None, false, false, false))
  {
    hide Run;
    s, es := Parks(text);
    s, es := OneStep(s, es);
  }

  lemma SeesItsSentinel(text: string) returns (s: State, es: seq<Event>)
    ensures Sane(s) && Run(Init(text), LOST_RESTORE) == Run(s, es) && es == LOST_RESTORE[6..]
    ensures s.clip == Sentinel(0) && s.pending == [] && s.queue == [] && s.nextId == 1 && s.parked == 1
    ensures s.taken == [Plain(text)] && s.current.Some?
    ensures var op := s.current.value; op.kind.Press? && op.pc.Pressing? && op.before == text
  {
    hide Run;
    s, es := SetsItsSentinel(text);
    s, es := OneStep(s, es);
    s, es := OneStep(s, es);
  }

  lemma Presses(text: string) returns (s: State, es: seq<Event>)
    ensures Sane(s) && Run(Init(text), LOST_RESTORE) == Run(s, es) && es == LOST_RESTORE[7..]
    ensures s.clip == Sentinel(0) && s.queue == [] && s.nextId == 1 && s.parked == 1 && s.taken == [Plain(text)]
    ensures s.current.Some? && s.current.value.kind.Press? && s.current.value.pc.Copying?
  {
    hide Run;
    s, es := SeesItsSentinel(text);
    s, es := OneStep(s, es);
  }

  lemma GivesUp(text: string) returns (s: State, es: seq<Event>)
    ensures Sane(s) && Run(Init(text), LOST_RESTORE) == Run(s, es) && es == LOST_RESTORE[8..]
    ensures s.clip == Sentinel(0) && s.queue == [] && s.nextId == 1 && s.parked == 1 && s.taken == [Plain(text)]
    ensures s.current.Some? && s.current.value.kind.Press? && s.current.value.pc.Restoring?
  {
    hide Run;
    s, es := Presses(text);
    s, es := OneStep(s, es);
  }

  lemma LosesTheRestore(text: string) returns (s: State)
    ensures Sane(s) && s == Run(Init(text), LOST_RESTORE)
    ensures s.clip == Sentinel(0) && s.queue == [] && s.nextId == 1 && s.parked == 0 && s.current.None?
    ensures s.taken == [Plain(text)]
  {
    hide Run;
    var es;
    s, es := GivesUp(text);
    s, es := OneStep(s, es);
    s, es := OneStep(s, es);
    NoneLeft(s, es);
  }

  /** A failed read-back counts as a restore, so the next read takes the sentinel for the original and would
      put back an empty clipboard. */
  lemma FailedReadBackLosesTheOriginal(text: string)
    ensures var s := Run(Run(Init(text), LOST_RESTORE), NEXT_READ);
            && s.taken == [Plain(text), Sentinel(0)]
            && s.current.Some? && s.current.value.before == ""
  {
    var s := LosesTheRestore(text);
    var es;
    s, es := OneStep(s, NEXT_READ);
    s, es := OneStep(s, es);
    s, es := OneStep(s, es);
  }
}
