/**
 The log told from the events alone: what each step answers, whatever the session's code does to get there.
 */
module LifecycleStory {

  import opened Options
  import opened Lifecycle
  import opened LifecycleAnswers

  // ---------------------------------------------------------------- what the events say by themselves

  predicate Retires(e: Event) {
    e.BootRequest? || e.ShutdownRequest? || e.Deregister?
  }

  /** How many numbers the events have retired, which is the current number. */
  function Retirements(events: seq<Event>): nat {
    if events == [] then 0
    else Retirements(events[..|events| - 1]) + if Retires(events[|events| - 1]) then 1 else 0
  }

  predicate Dropped(events: seq<Event>) {
    events != [] && (events[|events| - 1].Deregister? || Dropped(events[..|events| - 1]))
  }

  /** The request that began a boot, if one has: its correlator, or none. */
  function Asked(events: seq<Event>, boot: nat): Option<Option<string>> {
    if events == [] then None
    else
      var front, last := events[..|events| - 1], events[|events| - 1];
      if last.BootRequest? && Retirements(front) + 1 == boot then Some(last.requestId) else Asked(front, boot)
  }

  /** Where a boot's last resume sent it. */
  function WentTo(events: seq<Event>, boot: nat): Pc {
    if events == [] then Listing
    else
      var front, last := events[..|events| - 1], events[|events| - 1];
      if last.Resume? && last.task == BootTask(boot) && last.outcome.Go? then last.outcome.next else WentTo(front, boot)
  }

  /** A boot that lost and comes back from the rotation queue goes on where the queue's next await is its own
      stream's; from every other await it returns. */
  predicate GoesOn(from: Pc, outcome: Outcome) {
    from.Rotating? && outcome.Go? && (outcome.next.Normalising? || outcome.next.BodyTurning?)
  }

  function ReasonOf(e: Event): Reason
    requires Retires(e)
  {
    match e
    case BootRequest(_) => Superseded
    case ShutdownRequest => ShutDown
    case Deregister(reason) => reason
  }

  /** Why a number was retired, if it was. */
  function RetiringReason(events: seq<Event>, boot: nat): Option<Reason> {
    if events == [] then None
    else
      var front, last := events[..|events| - 1], events[|events| - 1];
      if Retires(last) && Retirements(front) == boot then Some(ReasonOf(last)) else RetiringReason(front, boot)
  }

  /** What one event adds to the log. */
  function Tells(before: seq<Event>, e: Event): seq<Entry> {
    var current := Retirements(before);
    match e
    case BootRequest(_) => [Retired(current, Superseded), Began(current + 1)]
    case ShutdownRequest => [Retired(current, ShutDown)]
    case Deregister(reason) => [Retired(current, reason)]
    case StreamEnded(_, serial, _) => if !serial && !Dropped(before) then [StreamDead] else []
    case Resume(RestartTask(boot, _), outcome) => if boot == current && outcome.Threw? then [StreamDead] else []
    case Resume(BootTask(boot), outcome) =>
      if boot == current then
        if outcome.Threw? then [Answered(boot, Failed)]
        else if outcome.next.Finished? then [Answered(boot, Ready)]
        else []
      else if GoesOn(WentTo(before, boot), outcome) || Dropped(before) then []
      else
        match (Asked(before, boot), RetiringReason(before, boot))
        case (Some(Some(_)), Some(reason)) => [Answered(boot, Abandoned(reason))]
        case _ => []
  }

  function Story(events: seq<Event>): seq<Entry> {
    if events == [] then []
    else
      var front := events[..|events| - 1];
      Story(front) + Tells(front, events[|events| - 1])
  }

  // ---------------------------------------------------------------- the session knows no more

  /** The session agrees with its events. */
  ghost predicate Agrees(events: seq<Event>, s: Session) {
    && s.bootSeq == Retirements(events)
    && (s.registered <==> !Dropped(events))
    && (forall q :: Asked(events, q) == if q in s.requestIds then Some(s.requestIds[q]) else None)
    && (forall q | BootTask(q) in s.tasks :: s.tasks[BootTask(q)] == WentTo(events, q))
    && (forall q | q > s.bootSeq :: WentTo(events, q) == Listing)
  }

  /** What a resume leaves alone, and what it tells. */
  ghost predicate Resumed(s: Session, t: Task, outcome: Outcome, u: Session)
    requires t in s.tasks
  {
    && u.bootSeq == s.bootSeq && u.registered == s.registered && u.requestIds == s.requestIds
    && (forall x | x in u.tasks ::
          x in s.tasks && if x == t then outcome.Go? && u.tasks[x] == outcome.next else u.tasks[x] == s.tasks[x])
    && (forall x | x in s.tasks && x != t :: x in u.tasks)
    && (t in u.tasks <==> StaysOn(s, t, outcome))
  }

  /** The call has a further await. */
  predicate StaysOn(s: Session, t: Task, outcome: Outcome)
    requires t in s.tasks
  {
    if t.boot == s.bootSeq then outcome.Go? && !outcome.next.Finished? else t.BootTask? && GoesOn(s.tasks[t], outcome)
  }

  /** The entries a resume adds, from the session. */
  function ToldBy(s: Session, t: Task, outcome: Outcome): seq<Entry>
    requires t in s.tasks
  {
    if t.RestartTask? then if t.boot == s.bootSeq && outcome.Threw? then [StreamDead] else []
    else if t.boot == s.bootSeq then
      if outcome.Threw? then [Answered(t.boot, Failed)]
      else if outcome.next.Finished? then [Answered(t.boot, Ready)]
      else []
    else if GoesOn(s.tasks[t], outcome) || !s.registered then []
    else if t.boot !in s.requestIds || s.requestIds[t.boot].None? || RetiredBy(s.log, t.boot).None? then []
    else [Answered(t.boot, Abandoned(RetiredBy(s.log, t.boot).value))]
  }

  lemma AdvanceTells(s: Session, t: Task, next: Pc, audio: bool)
    requires t in s.tasks && t.boot == s.bootSeq
    ensures var u := Advance(s, t, next, audio);
            && Resumed(s, t, Go(next, audio), u)
            && u.log == s.log + if t.BootTask? && next.Finished? then [Answered(t.boot, Ready)] else []
  {
    hide Proceed;
    ProceedFields(s, t, next, audio);
  }

  lemma FailTells(s: Session, t: Task)
    requires t in s.tasks && t.boot == s.bootSeq
    ensures var u := Fail(s, t);
            Resumed(s, t, Threw, u) && u.log == s.log + [if t.BootTask? then Answered(t.boot, Failed) else StreamDead]
  {
  }

  /** A boot that lost has the reason that retired it. */
  ghost predicate HasItsReason(s: Session, t: Task) {
    t.BootTask? ==> t.boot in s.requestIds && t.boot in s.bootAbandon && RetiredBy(s.log, t.boot) == Some(s.bootAbandon[t.boot])
  }

  lemma LoseTells(s: Session, t: Task, outcome: Outcome, created: set<Handle>)
    requires t in s.tasks && HasItsReason(s, t) && !StaysOn(s, t, outcome)
    ensures var u := Lose(ReleaseStream(s, created), t);
            && Resumed(s, t, outcome, u)
            && u.log == s.log + if t.BootTask? && s.registered && s.requestIds[t.boot].Some?
                                then [Answered(t.boot, Abandoned(s.bootAbandon[t.boot]))] else []
  {
  }

  lemma LostRotationTells(s: Session, t: Task, outcome: Outcome)
    requires t in s.tasks && t.BootTask? && t.boot != s.bootSeq && s.tasks[t].Rotating? && HasItsReason(s, t)
    requires outcome.Go?
    ensures var u := ResumeLostRotation(s, t, outcome.next);
            && Resumed(s, t, outcome, u)
            && u.log == s.log + if !(outcome.next.Normalising? || outcome.next.BodyTurning?) && s.registered && s.requestIds[t.boot].Some?
                                then [Answered(t.boot, Abandoned(s.bootAbandon[t.boot]))] else []
  {
    hide Lose, ReleaseStream;
    if !StaysOn(s, t, outcome) { LoseTells(Publish(s, Handle(Helper, t, false)), t, outcome, {Handle(Helper, t, false)}); }
  }

  /** The session as the step finds it, but for the rotation queue and the port. */
  function Entering(s: Session, t: Task, outcome: Outcome): Session
    requires t in s.tasks && (s.tasks[t].Rotating? ==> s.rotations != [])
  {
    if s.tasks[t].Rotating? then s.(rotations := s.rotations[1..])
    else if s.tasks[t].PickingPort? && outcome.Go? then s.(grpcPort := Some(t.boot))
    else s
  }

  /** What the step found beside the calls does not matter. */
  lemma SameCalls(s: Session, s1: Session, t: Task, outcome: Outcome, u: Session)
    requires t in s.tasks && s1.tasks == s.tasks && s1.bootSeq == s.bootSeq
    requires s1.registered == s.registered && s1.requestIds == s.requestIds
    requires Resumed(s1, t, outcome, u)
    ensures Resumed(s, t, outcome, u)
  {
    hide GoesOn;
  }

  lemma OwnerGoes(s: Session, t: Task, next: Pc, audio: bool)
    requires Enabled(s, Resume(t, Go(next, audio))) && t.boot == s.bootSeq
    ensures var u := ResumeTask(s, t, Go(next, audio));
            Resumed(s, t, Go(next, audio), u) && u.log == s.log + ToldBy(s, t, Go(next, audio))
  {
    hide Advance, Fail, Lose, ReleaseStream, ResumeLostRotation, Created, Resumed, Flow;
    var s1 := Entering(s, t, Go(next, audio));
    AdvanceTells(s1, t, next, audio);
    SameCalls(s, s1, t, Go(next, audio), ResumeTask(s, t, Go(next, audio)));
  }

  lemma OwnerThrows(s: Session, t: Task)
    requires Enabled(s, Resume(t, Threw)) && t.boot == s.bootSeq
    ensures var u := ResumeTask(s, t, Threw); Resumed(s, t, Threw, u) && u.log == s.log + ToldBy(s, t, Threw)
  {
    hide Advance, Fail, Lose, ReleaseStream, ResumeLostRotation, Created, Resumed, Flow;
    var s1 := Entering(s, t, Threw);
    var v := if s.tasks[t].ScrcpyStarting? then s1.live - {Handle(Scrcpy, t, s.tasks[t].fallback)} else s1.live;
    FailTells(s1.(live := v), t);
    SameCalls(s, s1.(live := v), t, Threw, Fail(s1.(live := v), t));
  }

  lemma LoserTells(s: Session, t: Task, outcome: Outcome)
    requires Enabled(s, Resume(t, outcome)) && t.boot != s.bootSeq && HasItsReason(s, t)
    ensures var u := ResumeTask(s, t, outcome); Resumed(s, t, outcome, u) && u.log == s.log + ToldBy(s, t, outcome)
  {
    hide Advance, Fail, Lose, ReleaseStream, ResumeLostRotation, Created, Flow, RetiredBy;
    var s1 := Entering(s, t, outcome);
    if s.tasks[t].Rotating? {
      LostRotationTells(s1, t, outcome);
    } else {
      LoseTells(s1, t, outcome, Created(t, s.tasks[t]));
    }
  }

  lemma ResumeTells(s: Session, t: Task, outcome: Outcome)
    requires AnswersInv(s) && Enabled(s, Resume(t, outcome)) && t.boot <= s.bootSeq
    ensures var u := ResumeTask(s, t, outcome); Resumed(s, t, outcome, u) && u.log == s.log + ToldBy(s, t, outcome)
  {
    hide ResumeTask, AnswersInv, Resumed, ToldBy;
    LosersHaveReasons(s, t);
    if t.boot != s.bootSeq {
      LoserTells(s, t, outcome);
    } else {
      match outcome
      case Go(next, audio) => OwnerGoes(s, t, next, audio);
      case Threw => OwnerThrows(s, t);
    }
  }

  lemma LosersHaveReasons(s: Session, t: Task)
    requires AnswersInv(s) && t in s.tasks && t.boot <= s.bootSeq
    ensures t.boot != s.bootSeq ==> HasItsReason(s, t)
  {
    if t.BootTask? { assert BootTask(t.boot) in s.tasks; }
  }

  // ---------------------------------------------------------------- every run

  lemma OneMore(events: seq<Event>, e: Event)
    ensures (events + [e])[..|events|] == events
  {
  }

  lemma ResumeAgrees(events: seq<Event>, s: Session, t: Task, outcome: Outcome, u: Session)
    requires Agrees(events, s) && t in s.tasks && Resumed(s, t, outcome, u) && t.boot <= s.bootSeq
    ensures Agrees(events + [Resume(t, outcome)], u)
  {
    OneMore(events, Resume(t, outcome));
  }

  lemma RetireAgrees(events: seq<Event>, s: Session, e: Event, u: Session)
    requires Agrees(events, s) && Retires(e) && u.bootSeq == s.bootSeq + 1
    requires u.registered == (s.registered && !e.Deregister?)
    requires u.requestIds == if e.BootRequest? then s.requestIds[u.bootSeq := e.requestId] else s.requestIds
    requires u.tasks == if e.BootRequest? then s.tasks[BootTask(u.bootSeq) := Listing] else s.tasks
    ensures Agrees(events + [e], u)
  {
    OneMore(events, e);
  }

  lemma EndAgrees(events: seq<Event>, s: Session, e: Event, u: Session)
    requires Agrees(events, s) && e.StreamEnded? && u.bootSeq == s.bootSeq && u.registered == s.registered
    requires u.requestIds == s.requestIds
    requires forall q | BootTask(q) in u.tasks :: BootTask(q) in s.tasks && u.tasks[BootTask(q)] == s.tasks[BootTask(q)]
    ensures Agrees(events + [e], u)
  {
    OneMore(events, e);
  }

  /** No call is ahead of the session. */
  ghost predicate TasksBegan(s: Session) {
    forall t | t in s.tasks :: t.boot <= s.bootSeq
  }

  lemma NextAgrees(events: seq<Event>, s: Session, e: Event)
    requires Agrees(events, s) && AnswersInv(s) && TasksBegan(s) && Enabled(s, e)
    ensures Agrees(events + [e], Next(s, e)) && TasksBegan(Next(s, e))
  {
    hide Agrees, AnswersInv, ResumeTask, Retirements, Dropped, Asked, WentTo;
    match e
    case BootRequest(_) => RetireAgrees(events, s, e, Next(s, e));
    case ShutdownRequest => RetireAgrees(events, s, e, Next(s, e));
    case Deregister(_) => RetireAgrees(events, s, e, Next(s, e));
    case StreamEnded(_, _, _) => EndAgrees(events, s, e, Next(s, e));
    case Resume(t, outcome) =>
      ResumeTells(s, t, outcome);
      ResumeAgrees(events, s, t, outcome, Next(s, e));
  }

  lemma NextTells(events: seq<Event>, s: Session, e: Event)
    requires Agrees(events, s) && AnswersInv(s) && TasksBegan(s) && Enabled(s, e)
    requires forall q: nat :: RetiredBy(s.log, q) == RetiringReason(events, q)
    ensures Next(s, e).log == s.log + Tells(events, e)
  {
    hide AnswersInv, ResumeTask, Retirements, Dropped, Asked, WentTo, RetiredBy, RetiringReason;
    if e.Resume? { ResumeTells(s, e.task, e.outcome); }
  }

  /** A retirement is told first, and only the boot it makes way for after it. */
  lemma TellsRetirements(front: seq<Event>, e: Event)
    ensures |Tells(front, e)| <= 2
    ensures if Retires(e) then Tells(front, e) != [] && Tells(front, e)[0] == Retired(Retirements(front), ReasonOf(e))
            else |Tells(front, e)| <= 1 && forall x | x in Tells(front, e) :: !x.Retired?
    ensures |Tells(front, e)| == 2 ==> Tells(front, e)[1].Began?
  {
    hide Retirements, Dropped, Asked, WentTo, RetiringReason;
  }

  lemma ToldRetires(log: seq<Entry>, told: seq<Entry>, boot: nat)
    requires |told| <= 2 && (|told| == 2 ==> told[1].Began?)
    ensures RetiredBy(log + told, boot) ==
            if told != [] && told[0].Retired? && told[0].boot == boot then Some(told[0].reason) else RetiredBy(log, boot)
  {
    hide RetiredBy;
    if told == [] {
      assert log + told == log;
    } else {
      Appended(log, told[0], boot);
      if |told| == 2 { Appended(log + [told[0]], told[1], boot); }
      assert log + told == if |told| == 2 then log + [told[0]] + [told[1]] else log + [told[0]];
    }
  }

  lemma {:induction false} StoryRetires(events: seq<Event>, boot: nat)
    ensures RetiredBy(Story(events), boot) == RetiringReason(events, boot)
    decreases |events|
  {
    hide Tells, ReasonOf;
    if events != [] {
      var front, e := events[..|events| - 1], events[|events| - 1];
      StoryRetires(front, boot);
      TellsRetirements(front, e);
      ToldRetires(Story(front), Tells(front, e), boot);
    }
  }

  /** Over every run the log is the story the events tell. */
  lemma {:induction false} LogIsTheStory(events: seq<Event>)
    requires Run(events).Some?
    ensures var s := Run(events).value;
            s.log == Story(events) && Agrees(events, s) && TasksBegan(s)
    decreases |events|
  {
    hide Agrees, AnswersInv, Next, Enabled, Tells;
    if events == [] {
      Nothing();
    } else {
      var front, e := events[..|events| - 1], events[|events| - 1];
      assert front + [e] == events;
      LogIsTheStory(front);
      RunKeeps(front);
      forall q: nat ensures RetiredBy(Story(front), q) == RetiringReason(front, q) { StoryRetires(front, q); }
      NextAgrees(front, Run(front).value, e);
      NextTells(front, Run(front).value, e);
    }
  }

  lemma Nothing()
    ensures Agrees([], FRESH_SESSION)
  {
  }

  // ---------------------------------------------------------------- what a boot is answered

  predicate Resumes(events: seq<Event>, i: nat, boot: nat) {
    i < |events| && events[i].Resume? && events[i].task == BootTask(boot)
  }

  /** The boot returned from its last await, its number current. */
  predicate ReturnsAt(events: seq<Event>, i: nat, boot: nat) {
    && Resumes(events, i, boot) && Retirements(events[..i]) == boot
    && events[i].outcome.Go? && events[i].outcome.next.Finished?
  }

  /** An await of the boot threw, its number current. */
  predicate ThrowsAt(events: seq<Event>, i: nat, boot: nat) {
    Resumes(events, i, boot) && Retirements(events[..i]) == boot && events[i].outcome.Threw?
  }

  /** The boot came back, retired by `reason`, to a session still registered, and its request had a correlator. */
  predicate LosesAt(events: seq<Event>, i: nat, boot: nat, reason: Reason) {
    && Resumes(events, i, boot) && Retirements(events[..i]) != boot && RetiringReason(events[..i], boot) == Some(reason)
    && !GoesOn(WentTo(events[..i], boot), events[i].outcome)
    && !Dropped(events[..i]) && Asked(events[..i], boot).Some? && Asked(events[..i], boot).value.Some?
  }

  ghost predicate TellsAt(events: seq<Event>, i: nat, entry: Entry) {
    i < |events| && entry in Tells(events[..i], events[i])
  }

  lemma {:induction false} StoryTells(events: seq<Event>, entry: Entry)
    ensures entry in Story(events) <==> exists i :: TellsAt(events, i, entry)
    decreases |events|
  {
    hide Tells;
    if events != [] {
      var front, last := events[..|events| - 1], |events| - 1;
      StoryTells(front, entry);
      assert forall i | 0 <= i < last :: front[..i] == events[..i] && front[i] == events[i];
      if entry in Story(events) {
        if entry in Story(front) {
          var i :| TellsAt(front, i, entry);
          assert TellsAt(events, i, entry);
        } else {
          assert TellsAt(events, last, entry);
        }
      }
      if i: nat :| TellsAt(events, i, entry) {
        if i < last { assert TellsAt(front, i, entry); }
      }
    }
  }

  lemma {:induction false} AnswersAreEntries(log: seq<Entry>, boot: nat, a: Answer)
    ensures a in AnswersTo(log, boot) <==> Answered(boot, a) in log
  {
    if log != [] {
      AnswersAreEntries(log[..|log| - 1], boot, a);
      assert log == log[..|log| - 1] + [log[|log| - 1]];
    }
  }

  lemma TellsWhich(events: seq<Event>, i: nat, boot: nat, a: Answer)
    ensures TellsAt(events, i, Answered(boot, a)) <==>
            match a
            case Ready => ReturnsAt(events, i, boot)
            case Failed => ThrowsAt(events, i, boot)
            case Abandoned(reason) => LosesAt(events, i, boot, reason)
  {
    hide Retirements, Dropped, Asked, WentTo, RetiringReason;
  }

  /** Over every run: a boot is answered ready exactly when it returned from its last await with its number current,
      failed exactly when an await of it threw while it was, and abandoned for a reason exactly when it came back
      after that had retired it, to a session still registered and with a correlator to answer. */
  lemma AnswersSayWhatHappened(events: seq<Event>, boot: nat)
    requires Run(events).Some?
    ensures var answers := AnswersTo(Run(events).value.log, boot);
            && (Ready in answers <==> exists i :: ReturnsAt(events, i, boot))
            && (Failed in answers <==> exists i :: ThrowsAt(events, i, boot))
            && (forall reason :: Abandoned(reason) in answers <==> exists i :: LosesAt(events, i, boot, reason))
  {
    hide Run, Story, ReturnsAt, ThrowsAt, LosesAt, TellsAt, AnswersTo;
    LogIsTheStory(events);
    forall a ensures AnswerTold(events, boot, a) { AnswerIsTold(events, boot, a); }
    assert AnswerTold(events, boot, Ready) && AnswerTold(events, boot, Failed);
    forall reason ensures Abandoned(reason) in AnswersTo(Run(events).value.log, boot) <==> exists i :: LosesAt(events, i, boot, reason) {
      assert AnswerTold(events, boot, Abandoned(reason));
    }
  }

  ghost predicate AnswerTold(events: seq<Event>, boot: nat, a: Answer) {
    a in AnswersTo(Story(events), boot) <==>
      match a
      case Ready => exists i :: ReturnsAt(events, i, boot)
      case Failed => exists i :: ThrowsAt(events, i, boot)
      case Abandoned(reason) => exists i :: LosesAt(events, i, boot, reason)
  }

  lemma AnswerIsTold(events: seq<Event>, boot: nat, a: Answer)
    ensures AnswerTold(events, boot, a)
  {
    hide Story, ReturnsAt, ThrowsAt, LosesAt, TellsAt, AnswersTo;
    AnswersAreEntries(Story(events), boot, a);
    StoryTells(events, Answered(boot, a));
    match a
    case Ready => forall i ensures TellsAt(events, i, Answered(boot, a)) <==> ReturnsAt(events, i, boot) { TellsWhich(events, i, boot, a); }
    case Failed => forall i ensures TellsAt(events, i, Answered(boot, a)) <==> ThrowsAt(events, i, boot) { TellsWhich(events, i, boot, a); }
    case Abandoned(reason) =>
      forall i
        ensures TellsAt(events, i, Answered(boot, a)) <==> LosesAt(events, i, boot, reason)
      {
        TellsWhich(events, i, boot, a);
      }
  }

  // ---------------------------------------------------------------- a boot that is over

  /** The resume after which the boot has no further await. */
  predicate EndsAt(events: seq<Event>, i: nat, boot: nat) {
    && Resumes(events, i, boot)
    && var outcome := events[i].outcome;
       if Retirements(events[..i]) == boot then outcome.Threw? || outcome.next.Finished?
       else !GoesOn(WentTo(events[..i], boot), outcome)
  }

  /** The boot has begun and has returned. */
  predicate Over(s: Session, boot: nat) {
    boot in s.requestIds && BootTask(boot) !in s.tasks
  }

  lemma OverAtResume(events: seq<Event>, s: Session, e: Event, boot: nat)
    requires Agrees(events, s) && AnswersInv(s) && TasksBegan(s) && Enabled(s, e) && e.Resume?
    ensures Over(Next(s, e), boot) <==> Over(s, boot) || EndsAt(events + [e], |events|, boot)
  {
    hide ResumeTask, Retirements, WentTo, GoesOn, AnswersInv, Dropped, Asked;
    OneMore(events, e);
    ResumeTells(s, e.task, e.outcome);
    BootsAreAsked(s, boot);
  }

  lemma BootsAreAsked(s: Session, boot: nat)
    requires AnswersInv(s)
    ensures BootTask(boot) in s.tasks ==> boot in s.requestIds
    ensures boot in s.requestIds ==> boot <= s.bootSeq
  {
  }

  lemma OverOtherwise(events: seq<Event>, s: Session, e: Event, boot: nat)
    requires AnswersInv(s) && Enabled(s, e) && !e.Resume?
    ensures Over(Next(s, e), boot) <==> Over(s, boot)
    ensures !EndsAt(events + [e], |events|, boot)
  {
    hide AnswersInv;
    BootsAreAsked(s, boot);
  }

  lemma EndsBefore(events: seq<Event>, e: Event, i: nat, boot: nat)
    requires i < |events|
    ensures EndsAt(events + [e], i, boot) <==> EndsAt(events, i, boot)
  {
    hide Retirements, WentTo, GoesOn;
    assert (events + [e])[..i] == events[..i] && (events + [e])[i] == events[i];
  }

  lemma EndsWithin(events: seq<Event>, i: nat, boot: nat)
    requires EndsAt(events, i, boot)
    ensures i < |events|
  {
  }

  /** Over every run: a boot is over exactly when one of its resumes was its last. */
  lemma {:induction false} BootsEndOnce(events: seq<Event>, boot: nat)
    requires Run(events).Some?
    ensures Over(Run(events).value, boot) <==> exists i :: EndsAt(events, i, boot)
    decreases |events|
  {
    hide Agrees, AnswersInv, Next, Enabled, EndsAt, Over, TasksBegan;
    if events == [] {
      NoneIsOver(boot);
      forall i: nat ensures !EndsAt(events, i, boot) { if EndsAt(events, i, boot) { EndsWithin(events, i, boot); } }
    } else {
      var front, e := events[..|events| - 1], events[|events| - 1];
      assert front + [e] == events;
      BootsEndOnce(front, boot);
      RunKeeps(front);
      LogIsTheStory(front);
      if e.Resume? { OverAtResume(front, Run(front).value, e, boot); } else { OverOtherwise(front, Run(front).value, e, boot); }
      forall i: nat | i < |front|
        ensures EndsAt(events, i, boot) <==> EndsAt(front, i, boot)
      {
        EndsBefore(front, e, i, boot);
      }
      forall i: nat | EndsAt(events, i, boot) ensures i < |events| { EndsWithin(events, i, boot); }
      forall i: nat | EndsAt(front, i, boot) ensures i < |front| { EndsWithin(front, i, boot); }
    }
  }

  lemma NoneIsOver(boot: nat)
    ensures !Over(FRESH_SESSION, boot)
  {
  }

  lemma {:induction false} RetirementsGrow(events: seq<Event>, i: nat)
    requires i <= |events|
    ensures Retirements(events[..i]) <= Retirements(events)
    decreases |events|
  {
    if i < |events| {
      RetirementsGrow(events[..|events| - 1], i);
      assert events[..|events| - 1][..i] == events[..i];
    } else {
      assert events[..i] == events;
    }
  }

  lemma {:induction false} PrefixRuns(events: seq<Event>, i: nat)
    requires Run(events).Some? && i < |events|
    ensures Run(events[..i]).Some? && Enabled(Run(events[..i]).value, events[i])
    decreases |events|
  {
    hide Enabled, Next;
    var front := events[..|events| - 1];
    if i < |front| {
      PrefixRuns(front, i);
      assert front[..i] == events[..i] && front[i] == events[i];
    }
  }

  /** A boot is resumed only once it has begun. */
  lemma ResumedHasBegun(events: seq<Event>, i: nat, boot: nat)
    requires Run(events).Some? && Resumes(events, i, boot)
    ensures boot <= Retirements(events[..i]) <= Retirements(events)
  {
    PrefixRuns(events, i);
    LogIsTheStory(events[..i]);
    RetirementsGrow(events, i);
  }

  /** Over every run: a boot that is over, was never retired and none of whose awaits threw is answered ready, and
      nothing else. */
  lemma UndisturbedBootsEndReady(events: seq<Event>, boot: nat)
    requires Run(events).Some? && Retirements(events) == boot && Over(Run(events).value, boot)
    requires forall i | 0 <= i < |events| && Resumes(events, i, boot) :: !events[i].outcome.Threw?
    ensures AnswersTo(Run(events).value.log, boot) == [Ready]
  {
    hide Run, Retirements, WentTo, GoesOn, AnswersTo;
    BootsEndOnce(events, boot);
    var i: nat :| EndsAt(events, i, boot);
    ResumedHasBegun(events, i, boot);
    assert ReturnsAt(events, i, boot);
    AnswersSayWhatHappened(events, boot);
    EveryBootIsAnsweredOnce(events, boot);
    assert Ready in AnswersTo(Run(events).value.log, boot);
  }

  /** Over every run: a boot whose number is current when it ends is answered by that, and one retired first, in a
      session still registered and with a correlator, is abandoned for what retired it. */
  lemma EveryEndIsAnswered(events: seq<Event>, boot: nat)
    requires Run(events).Some? && Over(Run(events).value, boot)
    requires !Dropped(events) && Asked(events, boot).Some? && Asked(events, boot).value.Some?
    ensures var answers := AnswersTo(Run(events).value.log, boot);
            if exists i :: ReturnsAt(events, i, boot) then answers == [Ready]
            else if exists i :: ThrowsAt(events, i, boot) then answers == [Failed]
            else RetiringReason(events, boot).Some? && answers == [Abandoned(RetiringReason(events, boot).value)]
  {
    hide Run, Story, Agrees, AnswersTo, ReturnsAt, ThrowsAt, LosesAt, RetiringReason, RetiredBy;
    LogIsTheStory(events);
    AnswersSayWhatHappened(events, boot);
    EveryBootIsAnsweredOnce(events, boot);
    OnlyAnswer(events, boot);
    var answers := AnswersTo(Run(events).value.log, boot);
    if a :| answers == [a] {
      assert a in answers;
      if a.Abandoned? {
        AbandonReasonIsItsOwn(events, boot, a.reason);
        StoryRetires(events, boot);
      }
    }
  }

  lemma OnlyAnswer(events: seq<Event>, boot: nat)
    requires Run(events).Some? && Over(Run(events).value, boot)
    requires !Dropped(events) && Asked(events, boot).Some? && Asked(events, boot).value.Some?
    ensures exists a :: AnswersTo(Run(events).value.log, boot) == [a]
  {
    hide Run, AnswersTo;
    LogIsTheStory(events);
    EveryBootIsAnsweredOnce(events, boot);
    var answers := AnswersTo(Run(events).value.log, boot);
    assert answers == [answers[0]];
  }
}
