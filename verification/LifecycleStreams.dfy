/**
 What a start that succeeds leaves in the session, and when a restart is under way.
 */
module LifecycleStreams {

  import opened Options
  import opened Lifecycle
  import LifecycleAnswers
  import LifecycleHandles
  import LifecycleStory

  // ---------------------------------------------------------------- a start that succeeds

  ghost predicate Holds(s: Session, h: Handle) {
    h.kind in s.slots && s.slots[h.kind] == h && h in s.live
  }

  /** The start's own stream, whole, and nothing of the other backend. */
  ghost predicate Streams(s: Session, t: Task, from: Pc, audio: bool) {
    if from.ScrcpyStarting? then
      && Holds(s, Handle(Helper, t, from.fallback)) && Holds(s, Handle(Scrcpy, t, from.fallback))
      && Video !in s.slots && Client !in s.slots && Audio !in s.slots
    else
      && Holds(s, Handle(Helper, t, false)) && Holds(s, Handle(Client, t, false)) && Holds(s, Handle(Video, t, false))
      && Scrcpy !in s.slots
      && (if audio then Holds(s, Handle(Audio, t, false)) else Audio !in s.slots)
  }

  lemma ScrcpyStreams(s: Session, t: Task, next: Pc, audio: bool)
    requires t in s.tasks && s.tasks[t].ScrcpyStarting? && LifecycleHandles.Shape(s, t, s.tasks[t]) && StreamUp(t, next)
    ensures Streams(Proceed(s, t, next, audio), t, s.tasks[t], audio)
  {
  }

  lemma GrpcStreams(s: Session, t: Task, next: Pc, audio: bool)
    requires t in s.tasks && s.tasks[t].Reconciling? && LifecycleHandles.Shape(s, t, s.tasks[t]) && StreamUp(t, next)
    ensures Streams(Proceed(s, t, next, audio), t, s.tasks[t], audio)
  {
  }

  /** Over every run: a start that succeeds, on either backend, leaves its own handles in the session's fields, all
      of them live, and none of the other backend's. */
  lemma StartLeavesItsStream(events: seq<Event>, t: Task, next: Pc, audio: bool)
    requires Run(events).Some?
    requires var s := Run(events).value;
             && Enabled(s, Resume(t, Go(next, audio))) && t.boot == s.bootSeq
             && (s.tasks[t].Reconciling? || s.tasks[t].ScrcpyStarting?) && StreamUp(t, next)
    ensures var s := Run(events).value;
            Streams(Next(s, Resume(t, Go(next, audio))), t, s.tasks[t], audio)
  {
    hide Proceed, Streams, LifecycleHandles.Inv, LifecycleHandles.Shape;
    LifecycleHandles.RunKeeps(events);
    var s := Run(events).value;
    LifecycleHandles.OwnerIsRegistered(s, t);
    if s.tasks[t].Reconciling? { GrpcStreams(s, t, next, audio); } else { ScrcpyStreams(s, t, next, audio); }
    SettleStreams(Proceed(s, t, next, audio), t, next, s.tasks[t], audio);
  }

  lemma SettleStreams(s: Session, t: Task, next: Pc, from: Pc, audio: bool)
    requires Streams(s, t, from, audio)
    ensures Streams(Settle(s, t, next), t, from, audio)
  {
  }

  // ---------------------------------------------------------------- the restart under way

  /** Whether a restart of the current stream is under way is what the flag says. */
  ghost predicate Flagged(s: Session) {
    s.restarting ==> s.nextRestart > 0 && RestartTask(s.bootSeq, s.nextRestart - 1) in s.tasks
  }

  /** What a resume does to the flag. */
  ghost predicate Unflags(s: Session, t: Task, outcome: Outcome, u: Session)
    requires t in s.tasks
  {
    && u.nextRestart == s.nextRestart
    && (u.restarting <==> s.restarting && !(t.RestartTask? && t.boot == s.bootSeq && !LifecycleStory.StaysOn(s, t, outcome)))
  }

  lemma AdvanceUnflags(s: Session, t: Task, next: Pc, audio: bool)
    requires t in s.tasks && t.boot == s.bootSeq
    ensures Unflags(s, t, Go(next, audio), Advance(s, t, next, audio))
  {
    hide Proceed;
    ProceedLeavesFlag(s, t, next, audio);
  }

  lemma ProceedLeavesFlag(s: Session, t: Task, next: Pc, audio: bool)
    requires t in s.tasks
    ensures var u := Proceed(s, t, next, audio); u.restarting == s.restarting && u.nextRestart == s.nextRestart
  {
    hide FallBack, Created;
    FallBackLeavesFlag(s, s.tasks[t], next);
  }

  lemma FallBackLeavesFlag(s: Session, pc: Pc, next: Pc)
    ensures var u := FallBack(s, pc, next); u.restarting == s.restarting && u.nextRestart == s.nextRestart
  {
  }

  lemma LoseLeavesFlag(s: Session, t: Task, created: set<Handle>)
    requires t in s.tasks && (t.BootTask? ==> t.boot in s.requestIds)
    ensures var u := Lose(ReleaseStream(s, created), t); u.restarting == s.restarting && u.nextRestart == s.nextRestart
  {
  }

  lemma LoserUnflags(s: Session, t: Task, outcome: Outcome)
    requires Enabled(s, Resume(t, outcome)) && t.boot != s.bootSeq
    ensures Unflags(s, t, outcome, ResumeTask(s, t, outcome))
  {
    hide Created, Flow, Advance, Fail, Lose, ReleaseStream;
    var s1 := LifecycleStory.Entering(s, t, outcome);
    LoseLeavesFlag(s1, t, Created(t, s.tasks[t]));
    LoseLeavesFlag(Publish(s1, Handle(Helper, t, false)), t, {Handle(Helper, t, false)});
  }

  lemma OwnerUnflags(s: Session, t: Task, outcome: Outcome)
    requires Enabled(s, Resume(t, outcome)) && t.boot == s.bootSeq
    ensures Unflags(s, t, outcome, ResumeTask(s, t, outcome))
  {
    hide Created, Flow, Advance, ReleaseStream, Lose, ResumeLostRotation;
    if outcome.Go? { AdvanceUnflags(LifecycleStory.Entering(s, t, outcome), t, outcome.next, outcome.audio); }
  }

  lemma ResumeFlags(s: Session, t: Task, outcome: Outcome)
    requires LifecycleAnswers.AnswersInv(s) && Enabled(s, Resume(t, outcome)) && t.boot <= s.bootSeq
    requires Flagged(s) && (forall x | x in s.tasks && x.RestartTask? && x.boot == s.bootSeq :: x.id + 1 == s.nextRestart && s.restarting)
    ensures Flagged(ResumeTask(s, t, outcome))
  {
    hide ResumeTask, LifecycleAnswers.AnswersInv;
    LifecycleStory.ResumeTells(s, t, outcome);
    if t.boot == s.bootSeq { OwnerUnflags(s, t, outcome); } else { LoserUnflags(s, t, outcome); }
  }

  lemma {:induction false} RunFlags(events: seq<Event>)
    requires Run(events).Some?
    ensures Flagged(Run(events).value)
    decreases |events|
  {
    hide LifecycleAnswers.AnswersInv, ResumeTask, LifecycleHandles.HandlesInv, LifecycleStory.Agrees;
    if events != [] {
      var front, e := events[..|events| - 1], events[|events| - 1];
      RunFlags(front);
      LifecycleAnswers.RunKeeps(front);
      LifecycleHandles.RunKeeps(front);
      LifecycleStory.LogIsTheStory(front);
      var s := Run(front).value;
      assert LifecycleHandles.OneStreamer(s);
      if e.Resume? { ResumeFlags(s, e.task, e.outcome); }
    }
  }

  lemma CurrentRestarts(s: Session, id: nat)
    requires LifecycleHandles.OneStreamer(s) && RestartTask(s.bootSeq, id) in s.tasks
    ensures s.restarting && id + 1 == s.nextRestart
  {
  }

  lemma RunHasOneStreamer(events: seq<Event>)
    requires Run(events).Some?
    ensures LifecycleHandles.OneStreamer(Run(events).value)
  {
    hide LifecycleHandles.HandlesInv, LifecycleHandles.OneStreamer, LifecycleHandles.TasksWellFormed,
      LifecycleHandles.QueueOrdered;
    LifecycleHandles.RunKeeps(events);
  }

  /** Over every run: the session says a restart is under way exactly while one of its current stream is, and then
      there is one. So a stream that dies is either being restarted or can be. */
  lemma RestartingIsARestart(events: seq<Event>)
    requires Run(events).Some?
    ensures var s := Run(events).value;
            s.restarting <==> exists id :: RestartTask(s.bootSeq, id) in s.tasks
    ensures var s := Run(events).value;
            forall id, other | RestartTask(s.bootSeq, id) in s.tasks && RestartTask(s.bootSeq, other) in s.tasks :: id == other
  {
    hide Run, LifecycleHandles.OneStreamer;
    RunFlags(events);
    RunHasOneStreamer(events);
    var s := Run(events).value;
    forall id: nat | RestartTask(s.bootSeq, id) in s.tasks
      ensures s.restarting && id + 1 == s.nextRestart
    {
      CurrentRestarts(s, id);
    }
  }

  const STREAM_KINDS: set<Kind> := {Helper, Scrcpy, Video, Client, Audio}

  /** Over every run: a stream that dies with its emulator there is torn down whole, and is restarted exactly where
      the session still has an open socket to send it on; with its emulator gone nothing is touched. */
  lemma DeadStreamsAreRestarted(events: seq<Event>, kind: Kind, serial: bool, wsOpen: bool)
    requires Run(events).Some? && Enabled(Run(events).value, StreamEnded(kind, serial, wsOpen))
    ensures var s := Run(events).value;
            var t := Next(s, StreamEnded(kind, serial, wsOpen));
            && ((exists id :: RestartTask(t.bootSeq, id) in t.tasks) <==> serial && wsOpen && StreamWs in s.slots)
            && (forall id | RestartTask(t.bootSeq, id) in t.tasks :: t.tasks[RestartTask(t.bootSeq, id)].Sleeping?)
            && (if serial then t.slots == s.slots - STREAM_KINDS && t.live == s.live - (set k | k in s.slots && k in STREAM_KINDS :: s.slots[k])
                else t.slots == s.slots && t.live == s.live)
  {
    hide Run;
    RestartingIsARestart(events);
    var s := Run(events).value;
    var t := Next(s, StreamEnded(kind, serial, wsOpen));
    if serial && wsOpen && StreamWs in s.slots { assert RestartTask(t.bootSeq, s.nextRestart) in t.tasks; }
  }

  // ---------------------------------------------------------------- the stream socket

  /** The boot's own socket. */
  function Socket(boot: nat): Handle {
    Handle(StreamWs, BootTask(boot), false)
  }

  /** The boot is past opening its socket, or has been answered ready. */
  ghost predicate Opened(s: Session, boot: nat) {
    || (BootTask(boot) in s.tasks && !LifecycleHandles.BeforeSocket(s.tasks[BootTask(boot)]))
    || Ready in LifecycleAnswers.AnswersTo(s.log, boot)
  }

  ghost predicate SocketHeld(s: Session) {
    Opened(s, s.bootSeq) ==> Holds(s, Socket(s.bootSeq))
  }

  lemma ProceedHoldsSocket(s: Session, t: Task, next: Pc, audio: bool, boot: nat)
    requires t in s.tasks && LifecycleHandles.SlotsWellFormed(s)
    ensures Holds(s, Socket(boot)) && !(next.OpeningWs? && t != BootTask(boot)) ==> Holds(Proceed(s, t, next, audio), Socket(boot))
    ensures next.OpeningWs? && t == BootTask(boot) ==> Holds(Proceed(s, t, next, audio), Socket(boot))
  {
    hide Created, FallBack;
    var s0 := FallBack(s, s.tasks[t], next);
    FallBackHoldsSocket(s, s.tasks[t], next, boot);
  }

  lemma FallBackHoldsSocket(s: Session, pc: Pc, next: Pc, boot: nat)
    requires LifecycleHandles.SlotsWellFormed(s)
    ensures Holds(s, Socket(boot)) ==> Holds(FallBack(s, pc, next), Socket(boot))
  {
  }

  lemma LoseHoldsSocket(s: Session, t: Task, created: set<Handle>, boot: nat)
    requires t in s.tasks && (t.BootTask? ==> t.boot in s.requestIds)
    requires Holds(s, Socket(boot)) && Socket(boot) !in created
    ensures Holds(Lose(ReleaseStream(s, created), t), Socket(boot))
  {
  }

  lemma LoserHoldsSocket(s: Session, t: Task, outcome: Outcome)
    requires Enabled(s, Resume(t, outcome)) && t.boot != s.bootSeq && Holds(s, Socket(s.bootSeq))
    ensures Holds(ResumeTask(s, t, outcome), Socket(s.bootSeq))
  {
    hide Created, Flow, Advance, Fail, Lose, ReleaseStream;
    var s1 := LifecycleStory.Entering(s, t, outcome);
    LifecycleHandles.CreatedIsOwned(t, s.tasks[t]);
    LoseHoldsSocket(s1, t, Created(t, s.tasks[t]), s.bootSeq);
    LoseHoldsSocket(Publish(s1, Handle(Helper, t, false)), t, {Handle(Helper, t, false)}, s.bootSeq);
  }

  lemma OwnerHoldsSocket(s: Session, t: Task, outcome: Outcome)
    requires Enabled(s, Resume(t, outcome)) && t.boot == s.bootSeq && LifecycleHandles.SlotsWellFormed(s)
    requires outcome.Go? && outcome.next.OpeningWs? ==> t == BootTask(s.bootSeq)
    ensures var u := ResumeTask(s, t, outcome);
            Holds(s, Socket(s.bootSeq)) || (outcome.Go? && outcome.next.OpeningWs?) ==> Holds(u, Socket(s.bootSeq))
  {
    hide Created, Flow, Proceed, ReleaseStream, Lose, ResumeLostRotation;
    var s1 := LifecycleStory.Entering(s, t, outcome);
    if outcome.Go? { ProceedHoldsSocket(s1, t, outcome.next, outcome.audio, s.bootSeq); }
  }

  lemma ResumeKeepsSocket(s: Session, t: Task, outcome: Outcome)
    requires LifecycleAnswers.AnswersInv(s) && LifecycleHandles.SlotsWellFormed(s)
    requires LifecycleHandles.TasksWellFormed(s)
    requires Enabled(s, Resume(t, outcome)) && SocketHeld(s)
    ensures SocketHeld(ResumeTask(s, t, outcome))
  {
    hide ResumeTask, LifecycleAnswers.AnswersInv, LifecycleHandles.SlotsWellFormed,
      LifecycleHandles.TasksWellFormed, Holds, Flow;
    KnownTask(s, t);
    LifecycleStory.ResumeTells(s, t, outcome);
    if outcome.Go? && outcome.next.OpeningWs? { OnlyBootsOpen(s, t, outcome); }
    if t.boot == s.bootSeq { OwnerHoldsSocket(s, t, outcome); } else if Opened(s, s.bootSeq) { LoserHoldsSocket(s, t, outcome); }
    OpenedBefore(s, t, outcome);
  }

  lemma FlowPastSocket(t: Task, pc: Pc, next: Pc)
    requires Flow(t, pc, next) && !LifecycleHandles.BeforeSocket(next)
    ensures !LifecycleHandles.BeforeSocket(pc) || next.OpeningWs?
  {
  }

  lemma OnlyBootsOpen(s: Session, t: Task, outcome: Outcome)
    requires LifecycleHandles.TasksWellFormed(s) && Enabled(s, Resume(t, outcome)) && outcome.Go?
    requires outcome.next.OpeningWs?
    ensures t.BootTask?
  {
  }

  /** Only opening the socket, or what was open before, opens it. */
  lemma OpenedBefore(s: Session, t: Task, outcome: Outcome)
    requires LifecycleAnswers.AnswersInv(s) && LifecycleHandles.TasksWellFormed(s) && Enabled(s, Resume(t, outcome))
    ensures var u := ResumeTask(s, t, outcome);
            Opened(u, s.bootSeq) ==> Opened(s, s.bootSeq) || (t == BootTask(s.bootSeq) && outcome.Go? && outcome.next.OpeningWs?)
  {
    hide ResumeTask, LifecycleAnswers.AnswersInv, LifecycleHandles.TasksWellFormed, Flow, LifecycleHandles.BeforeSocket,
         LifecycleAnswers.AnswersTo, LifecycleAnswers.RetiredBy;
    KnownTask(s, t);
    LifecycleStory.ResumeTells(s, t, outcome);
    AnswersGrow(s.log, LifecycleStory.ToldBy(s, t, outcome), s.bootSeq);
    if outcome.Go? {
      if !LifecycleHandles.BeforeSocket(outcome.next) { FlowPastSocket(t, s.tasks[t], outcome.next); }
      EndsPastSocket(t, s.tasks[t]);
    }
  }

  lemma EndsPastSocket(t: Task, pc: Pc)
    ensures Flow(t, pc, Finished) ==> !LifecycleHandles.BeforeSocket(pc)
  {
  }

  lemma KnownTask(s: Session, t: Task)
    requires LifecycleHandles.TasksWellFormed(s) && t in s.tasks
    ensures t.boot <= s.bootSeq
  {
  }

  lemma AnswersGrow(log: seq<Entry>, told: seq<Entry>, boot: nat)
    requires |told| <= 1
    ensures LifecycleAnswers.AnswersTo(log + told, boot) == LifecycleAnswers.AnswersTo(log, boot) +
              if told != [] && told[0].Answered? && told[0].boot == boot then [told[0].answer] else []
  {
    if told == [] { assert log + told == log; } else { LifecycleAnswers.Appended(log, told[0], boot); assert told == [told[0]]; }
  }

  lemma RetireHoldsSocket(s: Session, e: Event)
    requires LifecycleAnswers.AnswersInv(s) && Enabled(s, e) && (e.BootRequest? || e.ShutdownRequest? || e.Deregister?)
    ensures SocketHeld(Next(s, e))
  {
    hide LifecycleAnswers.AnswersInv, CleanupDeviceState;
    var u := Next(s, e);
    LifecycleStory.BootsAreAsked(s, s.bootSeq + 1);
    NothingAnswered(s, s.bootSeq + 1);
    var r := s.log + [Retired(s.bootSeq, if e.ShutdownRequest? then ShutDown else if e.Deregister? then e.reason else Superseded)];
    LifecycleAnswers.Appended(s.log, r[|s.log|], s.bootSeq + 1);
    LifecycleAnswers.Appended(r, Began(s.bootSeq + 1), s.bootSeq + 1);
    CleanupLeaves(s);
  }

  lemma CleanupLeaves(s: Session)
    ensures forall r: Session ::
              var t := CleanupDeviceState(r); t.tasks == r.tasks && t.log == r.log && t.bootSeq == r.bootSeq
  {
  }

  lemma NothingAnswered(s: Session, boot: nat)
    requires LifecycleAnswers.AnswersInv(s) && boot > s.bootSeq
    ensures LifecycleAnswers.AnswersTo(s.log, boot) == []
  {
  }

  lemma EndHoldsSocket(s: Session, e: Event)
    requires Enabled(s, e) && e.StreamEnded? && LifecycleHandles.SlotsWellFormed(s) && SocketHeld(s)
    ensures SocketHeld(Next(s, e))
  {
    LifecycleAnswers.Appended(s.log, StreamDead, s.bootSeq);
  }

  lemma {:induction false} RunHoldsSocket(events: seq<Event>)
    requires Run(events).Some?
    ensures SocketHeld(Run(events).value)
    decreases |events|
  {
    hide SocketHeld, Next, Enabled, LifecycleAnswers.AnswersInv, LifecycleHandles.OneStreamer, LifecycleHandles.QueueOrdered,
         LifecycleHandles.NoneForgotten, LifecycleHandles.FieldsAreCurrent, LifecycleHandles.OwnersInShape,
         LifecycleHandles.QueueBeforeStream, LifecycleHandles.LiveAreOld, LifecycleHandles.SlotsWellFormed, LifecycleHandles.TasksWellFormed;
    if events == [] {
      NoSocketYet();
    } else {
      var front, e := events[..|events| - 1], events[|events| - 1];
      RunHoldsSocket(front);
      LifecycleAnswers.RunKeeps(front);
      LifecycleHandles.RunKeeps(front);
      var s := Run(front).value;
      match e
      case Resume(t, outcome) => ResumeHolds(s, t, outcome);
      case StreamEnded(_, _, _) => EndHoldsSocket(s, e);
      case _ => RetireHoldsSocket(s, e);
    }
  }

  lemma ResumeHolds(s: Session, t: Task, outcome: Outcome)
    requires LifecycleAnswers.AnswersInv(s) && LifecycleHandles.SlotsWellFormed(s)
    requires LifecycleHandles.TasksWellFormed(s)
    requires Enabled(s, Resume(t, outcome)) && SocketHeld(s)
    ensures SocketHeld(Next(s, Resume(t, outcome)))
  {
    hide SocketHeld, ResumeTask, LifecycleAnswers.AnswersInv;
    ResumeKeepsSocket(s, t, outcome);
  }

  lemma NoSocketYet()
    ensures SocketHeld(FRESH_SESSION)
  {
  }

  /** Over every run: from opening its socket on, and for as long after its ready as nothing retires it, a boot's session
      holds that boot's own socket, live. So a stream of it that dies finds one to be restarted on. */
  lemma OpenedSocketsAreHeld(events: seq<Event>)
    requires Run(events).Some? && Opened(Run(events).value, Run(events).value.bootSeq)
    ensures var s := Run(events).value; Holds(s, Socket(s.bootSeq))
  {
    RunHoldsSocket(events);
  }
}
