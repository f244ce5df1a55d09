/**
 Who is answered, with what and when, over every interleaving of boots, shutdowns and relay losses.
 */
module LifecycleAnswers {

  import opened Options
  import opened Lifecycle

  /** Everything one boot was answered with. */
  function AnswersTo(log: seq<Entry>, boot: nat): seq<Answer> {
    if log == [] then []
    else
      var last := log[|log| - 1];
      AnswersTo(log[..|log| - 1], boot) + if last.Answered? && last.boot == boot then [last.answer] else []
  }

  /** The event that retired a number, if one has. */
  function RetiredBy(log: seq<Entry>, boot: nat): Option<Reason> {
    if log == [] then None
    else
      var last := log[|log| - 1];
      if last.Retired? && last.boot == boot then Some(last.reason) else RetiredBy(log[..|log| - 1], boot)
  }

  /** The boot that began after every shutdown, relay loss and other boot so far, if that is how the log stands. */
  function CurrentBoot(log: seq<Entry>): Option<nat> {
    if log == [] then None
    else
      var last := log[|log| - 1];
      if last.Began? then Some(last.boot)
      else if last.Retired? then None
      else CurrentBoot(log[..|log| - 1])
  }

  lemma Appended(log: seq<Entry>, e: Entry, boot: nat)
    ensures AnswersTo(log + [e], boot) == AnswersTo(log, boot) + if e.Answered? && e.boot == boot then [e.answer] else []
    ensures RetiredBy(log + [e], boot) == if e.Retired? && e.boot == boot then Some(e.reason) else RetiredBy(log, boot)
    ensures CurrentBoot(log + [e]) ==
            if e.Began? then Some(e.boot) else if e.Retired? then None else CurrentBoot(log)
  {
    assert (log + [e])[..|log|] == log;
  }

  // ---------------------------------------------------------------- the invariant

  ghost predicate BootsWellFormed(s: Session) {
    && (forall q :: q in s.bootsInFlight <==> BootTask(q) in s.tasks)
    && (forall q | q in s.bootsInFlight :: q in s.requestIds)
    && (forall q | q in s.requestIds :: q <= s.bootSeq)
    && (s.bootSeq in s.bootsInFlight ==> CurrentBoot(s.log) == Some(s.bootSeq))
  }

  /** A reason waits for exactly the boots that lost and have not returned, and it is the one that retired them. */
  ghost predicate ReasonsWait(s: Session) {
    && (forall q :: q in s.bootAbandon <==> q in s.bootsInFlight && q < s.bootSeq)
    && (forall q | q in s.bootAbandon :: RetiredBy(s.log, q) == Some(s.bootAbandon[q]))
    && (forall q | q >= s.bootSeq :: RetiredBy(s.log, q) == None)
  }

  ghost predicate Answers(s: Session) {
    && (forall q | q in s.bootsInFlight || q !in s.requestIds :: AnswersTo(s.log, q) == [])
    && (forall q | q in s.requestIds && q !in s.bootsInFlight ::
          && |AnswersTo(s.log, q)| <= 1
          && (s.registered && s.requestIds[q].Some? ==> |AnswersTo(s.log, q)| == 1))
    && (forall q, a | a in AnswersTo(s.log, q) && a.Abandoned? :: RetiredBy(s.log, q) == Some(a.reason))
  }

  ghost predicate ReadyOnlyWhileCurrent(log: seq<Entry>) {
    forall i | 0 <= i < |log| && IsReady(log[i]) :: CurrentBoot(log[..i]) == Some(log[i].boot)
  }

  ghost predicate IsReady(e: Entry) {
    e.Answered? && e.answer.Ready?
  }

  ghost predicate ReadiesOrdered(s: Session) {
    && (forall i, j | 0 <= i < j < |s.log| && IsReady(s.log[i]) && IsReady(s.log[j]) :: s.log[i].boot < s.log[j].boot)
    && (forall i | 0 <= i < |s.log| && IsReady(s.log[i]) ::
          s.log[i].boot in s.requestIds && s.log[i].boot !in s.bootsInFlight)
  }

  ghost predicate BootsAnswered(s: Session) {
    && BootsWellFormed(s)
    && ReasonsWait(s)
    && Answers(s)
  }

  ghost predicate AnswersInv(s: Session) {
    && BootsAnswered(s)
    && ReadyOnlyWhileCurrent(s.log)
    && ReadiesOrdered(s)
  }

  // ---------------------------------------------------------------- every step keeps it

  /** The part of a session the answers depend on. */
  ghost predicate SameBoots(s: Session, s': Session) {
    && s'.bootSeq == s.bootSeq && s'.bootsInFlight == s.bootsInFlight && s'.bootAbandon == s.bootAbandon
    && s'.requestIds == s.requestIds
    && (s'.registered ==> s.registered)
    && s'.log == s.log
    && (forall q :: BootTask(q) in s'.tasks <==> BootTask(q) in s.tasks)
  }

  lemma SameBootsKeeps(s: Session, s': Session)
    requires AnswersInv(s) && SameBoots(s, s')
    ensures AnswersInv(s')
  {
  }

  lemma ReadyAppended(log: seq<Entry>, e: Entry)
    requires ReadyOnlyWhileCurrent(log)
    requires IsReady(e) ==> CurrentBoot(log) == Some(e.boot)
    ensures ReadyOnlyWhileCurrent(log + [e])
  {
    forall i | 0 <= i <= |log| ensures (log + [e])[..i] == log[..i] {}
  }

  /** A retirement answers nobody, and retires only the current boot, which nothing retired before. */
  lemma RetirementLeaves(s: Session, s': Session, reason: Reason, q: nat)
    requires ReasonsWait(s) && SameBoots(BumpBootSeq(s, reason), s')
    ensures AnswersTo(s'.log, q) == AnswersTo(s.log, q)
    ensures RetiredBy(s.log, q).Some? ==> RetiredBy(s'.log, q) == RetiredBy(s.log, q)
  {
    Appended(s.log, Retired(s.bootSeq, reason), q);
  }

  lemma RetireKeepsAnswers(s: Session, s': Session, reason: Reason)
    requires BootsAnswered(s) && SameBoots(BumpBootSeq(s, reason), s')
    ensures Answers(s')
  {
    forall q: nat
      ensures AnswersTo(s'.log, q) == AnswersTo(s.log, q)
      ensures RetiredBy(s.log, q).Some? ==> RetiredBy(s'.log, q) == RetiredBy(s.log, q)
    {
      RetirementLeaves(s, s', reason, q);
    }
    hide ReasonsWait, BootsWellFormed;
  }

  lemma RetireKeepsReasons(s: Session, s': Session, reason: Reason)
    requires BootsWellFormed(s) && ReasonsWait(s) && SameBoots(BumpBootSeq(s, reason), s')
    ensures ReasonsWait(s') && BootsWellFormed(s')
  {
    forall q ensures Affects(s.log, Retired(s.bootSeq, reason), q) { Appended(s.log, Retired(s.bootSeq, reason), q); }
  }

  lemma RetireKeepsBoots(s: Session, s': Session, reason: Reason)
    requires BootsAnswered(s) && SameBoots(BumpBootSeq(s, reason), s')
    ensures BootsAnswered(s')
    ensures s'.bootSeq == s.bootSeq + 1 && s'.bootSeq !in s'.requestIds && s'.bootSeq !in s'.bootsInFlight
  {
    hide Answers, ReasonsWait;
    RetireKeepsAnswers(s, s', reason);
    RetireKeepsReasons(s, s', reason);
  }

  lemma RetireKeeps(s: Session, s': Session, reason: Reason)
    requires AnswersInv(s) && SameBoots(BumpBootSeq(s, reason), s')
    ensures AnswersInv(s')
    ensures s'.bootSeq == s.bootSeq + 1 && s'.bootSeq !in s'.requestIds && s'.bootSeq !in s'.bootsInFlight
  {
    hide BootsAnswered;
    RetireKeepsBoots(s, s', reason);
    ReadyAppended(s.log, Retired(s.bootSeq, reason));
  }

  /** How one more entry changes what the log says about a boot. */
  ghost predicate Affects(log: seq<Entry>, e: Entry, boot: nat) {
    && AnswersTo(log + [e], boot) == AnswersTo(log, boot) + (if e.Answered? && e.boot == boot then [e.answer] else [])
    && RetiredBy(log + [e], boot) == (if e.Retired? && e.boot == boot then Some(e.reason) else RetiredBy(log, boot))
  }

  lemma BeginKeeps(s: Session, requestId: Option<string>)
    requires AnswersInv(s)
    ensures AnswersInv(BeginBoot(s, requestId))
  {
    var r := BumpBootSeq(s, Superseded);
    RetireKeeps(s, r, Superseded);
    hide BumpBootSeq;
    BegunKeeps(r, BeginBoot(s, requestId), requestId);
  }

  /** A boot takes the number just made. */
  ghost predicate Begins(r: Session, s': Session, requestId: Option<string>) {
    && r.bootSeq !in r.requestIds && r.bootSeq !in r.bootsInFlight
    && s'.bootSeq == r.bootSeq && s'.bootsInFlight == r.bootsInFlight + {r.bootSeq}
    && s'.bootAbandon == r.bootAbandon && s'.requestIds == r.requestIds[r.bootSeq := requestId]
    && s'.registered == r.registered
    && s'.log == r.log + [Began(r.bootSeq)] && s'.tasks == r.tasks[BootTask(r.bootSeq) := Listing]
  }

  lemma BegunKeepsBoots(r: Session, s': Session, requestId: Option<string>)
    requires BootsAnswered(r) && Begins(r, s', requestId)
    ensures BootsAnswered(s')
  {
    forall q ensures Affects(r.log, Began(r.bootSeq), q) { Appended(r.log, Began(r.bootSeq), q); }
    Appended(r.log, Began(r.bootSeq), r.bootSeq);
    assert BootsWellFormed(s') && ReasonsWait(s');
  }

  lemma BegunKeeps(r: Session, s': Session, requestId: Option<string>)
    requires AnswersInv(r) && Begins(r, s', requestId)
    ensures AnswersInv(s')
  {
    hide BootsAnswered;
    BegunKeepsBoots(r, s', requestId);
    ReadyAppended(r.log, Began(r.bootSeq));
  }

  /** A boot returns with an answer. */
  ghost predicate ReturnsAnswered(s: Session, s': Session, boot: nat, a: Answer) {
    && boot in s.bootsInFlight
    && (a.Ready? ==> boot == s.bootSeq)
    && (a.Abandoned? ==> RetiredBy(s.log, boot) == Some(a.reason))
    && s'.bootSeq == s.bootSeq && s'.requestIds == s.requestIds && s'.registered == s.registered
    && s'.bootsInFlight == s.bootsInFlight - {boot} && s'.bootAbandon == s.bootAbandon - {boot}
    && s'.log == s.log + [Answered(boot, a)]
    && s'.tasks == s.tasks - {BootTask(boot)}
  }

  lemma AnsweredKeepsReasons(s: Session, s': Session, boot: nat, a: Answer)
    requires BootsWellFormed(s) && ReasonsWait(s) && ReturnsAnswered(s, s', boot, a)
    ensures BootsWellFormed(s') && ReasonsWait(s')
  {
    forall q ensures Affects(s.log, Answered(boot, a), q) { Appended(s.log, Answered(boot, a), q); }
    Appended(s.log, Answered(boot, a), boot);
  }

  lemma AnsweredKeepsAnswers(s: Session, s': Session, boot: nat, a: Answer)
    requires BootsAnswered(s) && ReturnsAnswered(s, s', boot, a)
    ensures Answers(s')
  {
    forall q ensures Affects(s.log, Answered(boot, a), q) { Appended(s.log, Answered(boot, a), q); }
  }

  lemma AnsweredKeepsBoots(s: Session, s': Session, boot: nat, a: Answer)
    requires BootsAnswered(s) && ReturnsAnswered(s, s', boot, a)
    ensures BootsAnswered(s')
  {
    hide BootsWellFormed, ReasonsWait, Answers, ReturnsAnswered;
    AnsweredKeepsReasons(s, s', boot, a);
    AnsweredKeepsAnswers(s, s', boot, a);
  }

  lemma AnsweredKeepsReadies(s: Session, s': Session, boot: nat, a: Answer)
    requires BootsWellFormed(s) && ReadiesOrdered(s) && ReturnsAnswered(s, s', boot, a)
    ensures ReadiesOrdered(s')
  {
    forall i, j | 0 <= i < j < |s'.log| && IsReady(s'.log[i]) && IsReady(s'.log[j])
      ensures s'.log[i].boot < s'.log[j].boot
    {
      assert s'.log[i] == s.log[i];
      if j < |s.log| { assert s'.log[j] == s.log[j]; }
    }
  }

  lemma AnsweredKeeps(s: Session, s': Session, boot: nat, a: Answer)
    requires AnswersInv(s) && ReturnsAnswered(s, s', boot, a)
    ensures AnswersInv(s')
  {
    hide ReasonsWait, Answers, ReadiesOrdered;
    AnsweredKeepsBoots(s, s', boot, a);
    AnsweredKeepsReadies(s, s', boot, a);
    ReadyAppended(s.log, Answered(boot, a));
  }

  /** A boot returns with nobody to answer. */
  lemma SilentKeeps(s: Session, s': Session, boot: nat)
    requires AnswersInv(s) && boot in s.bootsInFlight
    requires !(s.registered && s.requestIds[boot].Some?)
    requires s'.bootSeq == s.bootSeq && s'.requestIds == s.requestIds && s'.registered == s.registered
    requires s'.bootsInFlight == s.bootsInFlight - {boot} && s'.bootAbandon == s.bootAbandon - {boot}
    requires s'.log == s.log && s'.tasks == s.tasks - {BootTask(boot)}
    ensures AnswersInv(s')
  {
  }

  /** The report of a dead stream answers nobody. */
  lemma StreamDeadKeepsBoots(s: Session, s': Session)
    requires BootsAnswered(s) && SameBoots(s.(log := s.log + [StreamDead]), s')
    ensures BootsAnswered(s')
  {
    forall q ensures Affects(s.log, StreamDead, q) { Appended(s.log, StreamDead, q); }
    Appended(s.log, StreamDead, s.bootSeq);
  }

  lemma StreamDeadKeeps(s: Session, s': Session)
    requires AnswersInv(s) && SameBoots(s.(log := s.log + [StreamDead]), s')
    ensures AnswersInv(s')
  {
    hide BootsAnswered;
    StreamDeadKeepsBoots(s, s');
    ReadyAppended(s.log, StreamDead);
  }

  /** An abandoned boot finds its reason: the default is never taken. */
  lemma LoseKeeps(s: Session, t: Task)
    requires AnswersInv(s) && t in s.tasks && t.boot != s.bootSeq
    requires t.BootTask? ==> t.boot in s.requestIds
    ensures AnswersInv(Lose(s, t))
    ensures t.BootTask? ==> t.boot in s.bootAbandon
  {
    var s' := Lose(s, t);
    match t
    case RestartTask(_, _) => SameBootsKeeps(s, s');
    case BootTask(boot) =>
      assert boot in s.bootsInFlight && boot in s.bootAbandon;
      if s.registered && s.requestIds[boot].Some? {
        AnsweredKeeps(s, s', boot, Abandoned(s.bootAbandon[boot]));
      } else {
        SilentKeeps(s, s', boot);
      }
  }

  lemma FailKeeps(s: Session, t: Task)
    requires AnswersInv(s) && t in s.tasks
    ensures AnswersInv(Fail(s, t))
  {
    match t
    case RestartTask(_, _) => StreamDeadKeeps(s, Fail(s, t));
    case BootTask(boot) => AnsweredKeeps(s, Fail(s, t), boot, Failed);
  }

  /** Nothing an owner does on its way answers anyone; only returning from the last await does. */
  lemma ProceedAnswersNobody(s: Session, t: Task, next: Pc, audio: bool)
    requires t in s.tasks
    ensures var s' := Proceed(s, t, next, audio); SameBoots(s, s') && s'.registered == s.registered && s'.tasks == s.tasks
  {
    hide SameBoots;
    ProceedFields(s, t, next, audio);
    SameFields(s, Proceed(s, t, next, audio));
  }

  lemma SameFields(s: Session, s': Session)
    requires s'.bootSeq == s.bootSeq && s'.bootsInFlight == s.bootsInFlight && s'.bootAbandon == s.bootAbandon
    requires s'.requestIds == s.requestIds && s'.registered == s.registered && s'.log == s.log && s'.tasks == s.tasks
    ensures SameBoots(s, s')
  {
  }

  lemma ProceedFields(s: Session, t: Task, next: Pc, audio: bool)
    requires t in s.tasks
    ensures var s' := Proceed(s, t, next, audio);
            && s'.bootSeq == s.bootSeq && s'.bootsInFlight == s.bootsInFlight && s'.bootAbandon == s.bootAbandon
            && s'.requestIds == s.requestIds && s'.registered == s.registered && s'.log == s.log && s'.tasks == s.tasks
  {
    hide FallBack, Created;
    FallBackFields(s, s.tasks[t], next);
  }

  lemma FallBackFields(s: Session, pc: Pc, next: Pc)
    ensures var s0 := FallBack(s, pc, next); s0 == s.(live := s0.live, slots := s0.slots)
  {
  }

  lemma SettleKeeps(s: Session, t: Task, next: Pc)
    requires AnswersInv(s) && t in s.tasks && t.boot == s.bootSeq
    ensures AnswersInv(Settle(s, t, next))
  {
    if next.Finished? && t.BootTask? {
      AnsweredKeeps(s, Settle(s, t, next), t.boot, Ready);
    } else {
      SameBootsKeeps(s, Settle(s, t, next));
    }
  }

  lemma AdvanceKeeps(s: Session, t: Task, next: Pc, audio: bool)
    requires AnswersInv(s) && t in s.tasks && t.boot == s.bootSeq
    ensures AnswersInv(Advance(s, t, next, audio))
  {
    hide AnswersInv, Proceed, Settle;
    ProceedAnswersNobody(s, t, next, audio);
    SameBootsKeeps(s, Proceed(s, t, next, audio));
    SettleKeeps(Proceed(s, t, next, audio), t, next);
  }

  lemma ThrewKeeps(s: Session, t: Task, pc: Pc)
    requires AnswersInv(s) && t in s.tasks
    ensures AnswersInv(Fail(if pc.ScrcpyStarting? then s.(live := s.live - {Handle(Scrcpy, t, pc.fallback)}) else s, t))
  {
    hide AnswersInv, Fail;
    var s2 := if pc.ScrcpyStarting? then s.(live := s.live - {Handle(Scrcpy, t, pc.fallback)}) else s;
    SameBootsKeeps(s, s2);
    FailKeeps(s2, t);
  }

  lemma ResumeKeeps(s: Session, t: Task, outcome: Outcome)
    requires AnswersInv(s) && Enabled(s, Resume(t, outcome))
    ensures AnswersInv(ResumeTask(s, t, outcome))
  {
    hide Advance, Lose, Fail, AnswersInv;
    var pc := s.tasks[t];
    var s1 := if pc.Rotating? then s.(rotations := s.rotations[1..])
              else if pc.PickingPort? && outcome.Go? then s.(grpcPort := Some(t.boot)) else s;
    SameBootsKeeps(s, s1);
    if t.boot == s.bootSeq && outcome.Go? {
      AdvanceKeeps(s1, t, outcome.next, outcome.audio);
    } else if t.boot == s.bootSeq {
      ThrewKeeps(s1, t, pc);
    } else if pc.Rotating? {
      ResumeLostRotationKeeps(s1, t, outcome.next);
    } else {
      var s2 := ReleaseStream(s1, Created(t, pc));
      SameBootsKeeps(s1, s2);
      LoseKeeps(s2, t);
    }
  }

  lemma ResumeLostRotationKeeps(s: Session, t: Task, next: Pc)
    requires AnswersInv(s) && t in s.tasks && t.boot != s.bootSeq && t.BootTask? && t.boot in s.requestIds
    ensures AnswersInv(ResumeLostRotation(s, t, next))
  {
    hide Lose, AnswersInv;
    match next
    case Normalising => SameBootsKeeps(s, ResumeLostRotation(s, t, next));
    case BodyTurning(_) => SameBootsKeeps(s, ResumeLostRotation(s, t, next));
    case _ =>
      var h := Handle(Helper, t, false);
      ReleasingKeeps(s, h, t);
      LoseKeeps(ReleaseStream(Publish(s, h), {h}), t);
  }

  lemma ReleasingKeeps(s: Session, h: Handle, t: Task)
    requires AnswersInv(s)
    ensures AnswersInv(ReleaseStream(Publish(s, h), {h}))
    ensures var s2 := ReleaseStream(Publish(s, h), {h});
            s2.tasks == s.tasks && s2.bootSeq == s.bootSeq && s2.requestIds == s.requestIds
  {
    hide AnswersInv;
    SameBootsKeeps(s, ReleaseStream(Publish(s, h), {h}));
  }

  lemma NextKeeps(s: Session, e: Event)
    requires AnswersInv(s) && Enabled(s, e)
    ensures AnswersInv(Next(s, e))
  {
    hide AnswersInv, ResumeTask, BeginBoot;
    match e
    case BootRequest(requestId) => BeginKeeps(s, requestId);
    case ShutdownRequest => RetireKeeps(s, Next(s, e), ShutDown);
    case Deregister(reason) => RetireKeeps(s, Next(s, e), reason);
    case StreamEnded(_, serial, wsOpen) =>
      if !serial && s.registered {
        StreamDeadKeeps(s, Next(s, e));
      } else {
        SameBootsKeeps(s, Next(s, e));
      }
    case Resume(t, outcome) => ResumeKeeps(s, t, outcome);
  }

  lemma {:induction false} RunKeeps(events: seq<Event>)
    requires Run(events).Some?
    ensures AnswersInv(Run(events).value)
  {
    if events != [] {
      RunKeeps(events[..|events| - 1]);
      NextKeeps(Run(events[..|events| - 1]).value, events[|events| - 1]);
    }
  }

  // ---------------------------------------------------------------- what the source promises

  /** Over every run: a boot is answered at most once, never before it returns, and exactly once when it
      has returned, carried a correlator and its session is still registered. */
  lemma EveryBootIsAnsweredOnce(events: seq<Event>, boot: nat)
    requires Run(events).Some? && boot in Run(events).value.requestIds
    ensures var s := Run(events).value;
            && |AnswersTo(s.log, boot)| <= 1
            && (BootTask(boot) in s.tasks ==> AnswersTo(s.log, boot) == [])
            && (BootTask(boot) !in s.tasks && s.registered && s.requestIds[boot].Some? ==>
                  |AnswersTo(s.log, boot)| == 1)
  {
    RunKeeps(events);
  }

  /** Over every run: the reason an abandoned boot is given is the event that retired its own number. */
  lemma AbandonReasonIsItsOwn(events: seq<Event>, boot: nat, reason: Reason)
    requires Run(events).Some? && Abandoned(reason) in AnswersTo(Run(events).value.log, boot)
    ensures RetiredBy(Run(events).value.log, boot) == Some(reason)
  {
    RunKeeps(events);
  }

  /** Over every run: reasons are held only for boots still running that lost, so none outlives its boot,
      and a boot that finds it lost always finds one. */
  lemma ReasonsNeverOutliveTheirBoot(events: seq<Event>)
    requires Run(events).Some?
    ensures var s := Run(events).value;
            && (forall q :: q in s.bootAbandon <==> BootTask(q) in s.tasks && q != s.bootSeq)
            && s.bootAbandon.Keys <= s.bootsInFlight
  {
    RunKeeps(events);
  }

  /** Over every run: a ready goes out only while the boot it answers is the last lifecycle event, so none
      goes out between a shutdown or a relay loss and the next boot. */
  lemma ReadyIsCurrent(events: seq<Event>, i: nat)
    requires Run(events).Some?
    requires var log := Run(events).value.log; i < |log| && IsReady(log[i])
    ensures var log := Run(events).value.log; CurrentBoot(log[..i]) == Some(log[i].boot)
  {
    RunKeeps(events);
  }

  /** Over every run: the readies carry strictly increasing numbers. */
  lemma ReadiesIncrease(events: seq<Event>, i: nat, j: nat)
    requires Run(events).Some?
    requires var log := Run(events).value.log; i < j < |log| && IsReady(log[i]) && IsReady(log[j])
    ensures var log := Run(events).value.log; log[i].boot < log[j].boot
  {
    RunKeeps(events);
  }
}
