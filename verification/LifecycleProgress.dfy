/**
 No run is stuck: from wherever it is, a call whose number is current can go on to its end.
 */
module LifecycleProgress {

  import opened Options
  import opened Lifecycle
  import LifecycleAnswers
  import LifecycleHandles
  import LifecycleStory
  import LifecycleStreams

  /** A way on, over the gRPC backend as far as that is still possible, or over scrcpy. */
  function Route(t: Task, pc: Pc, grpc: bool): Pc {
    match pc
    case Listing => Refreshing
    case StoppingOld => PickingPort
    case PickingPort => FindingSerial
    case FindingSerial => WaitingForBoot
    case WaitingForBoot => Refreshing
    case Refreshing => OpeningWs
    case OpeningWs => Rotating
    case Rotating => if grpc then Normalising else ScrcpyStarting(false)
    case Normalising => if grpc then SizeReading else ScrcpyStarting(true)
    case SizeReading => VideoStarting
    case VideoStarting => if grpc then Reconciling else ScrcpyStarting(true)
    case Reconciling => if !grpc then ScrcpyStarting(true) else if t.BootTask? then AwaitingClears else Finished
    case BodyTurning(fb) => ScrcpyStarting(fb)
    case ScrcpyStarting(_) => if t.BootTask? then Resetting else Finished
    case Resetting => AwaitingClears
    case Sleeping => if grpc then SizeReading else ScrcpyStarting(false)
    case _ => Finished
  }

  function Rank(pc: Pc): nat {
    match pc
    case Listing => 16 case StoppingOld => 16 case PickingPort => 15 case FindingSerial => 14 case WaitingForBoot => 13
    case Refreshing => 12 case OpeningWs => 11 case Rotating => 10 case Normalising => 9 case Sleeping => 9 case SizeReading => 8
    case VideoStarting => 7 case Reconciling => 6 case BodyTurning(_) => 5 case ScrcpyStarting(_) => 4
    case Resetting => 3 case AwaitingClears => 2 case Finished => 1
  }

  lemma RouteIsAWay(s: Session, t: Task, grpc: bool)
    requires t in s.tasks && LifecycleHandles.TaskFits(t, s.tasks[t])
    ensures var next := Route(t, s.tasks[t], grpc);
            Flow(t, s.tasks[t], next) && Rank(next) < Rank(s.tasks[t])
  {
  }

  /** The next step for a call: the boot ahead of it in the rotation queue first. */
  function Onward(s: Session, t: Task, grpc: bool): Event
    requires t in s.tasks && (s.tasks[t].Rotating? ==> s.rotations != [])
  {
    if s.tasks[t].Rotating? && s.rotations[0] != t.boot
    then Resume(BootTask(s.rotations[0]), Go(ScrcpyStarting(false), false))
    else Resume(t, Go(Route(t, s.tasks[t], grpc), false))
  }

  lemma WaitsInTheQueue(s: Session, t: Task)
    requires LifecycleHandles.QueueOrdered(s) && LifecycleHandles.TasksWellFormed(s) && t in s.tasks
    requires s.tasks[t].Rotating?
    ensures t.BootTask? && s.rotations != []
    ensures BootTask(s.rotations[0]) in s.tasks && s.tasks[BootTask(s.rotations[0])].Rotating?
    ensures s.rotations[0] <= s.bootSeq
  {
    assert t.boot in s.rotations;
    assert s.rotations[0] in s.rotations;
  }

  /** The step can be made, and brings the call nearer to its end: on its way, or up the queue. */
  lemma OnwardGoesOn(s: Session, t: Task, grpc: bool)
    requires LifecycleHandles.QueueOrdered(s) && LifecycleHandles.TasksWellFormed(s) && LifecycleAnswers.AnswersInv(s)
    requires t in s.tasks && t.boot == s.bootSeq
    ensures s.tasks[t].Rotating? ==> s.rotations != []
    ensures var e := Onward(s, t, grpc); Enabled(s, e) && e.task.boot <= s.bootSeq
  {
    hide LifecycleAnswers.AnswersInv, LifecycleHandles.QueueOrdered, LifecycleHandles.TaskFits, Flow;
    RouteFits(s, t, grpc);
    if s.tasks[t].Rotating? { WaitsInTheQueue(s, t); }
    var e := Onward(s, t, grpc);
    LifecycleStory.BootsAreAsked(s, e.task.boot);
    if e.task != t { AheadFlows(s, e.task); }
  }

  lemma RouteFits(s: Session, t: Task, grpc: bool)
    requires LifecycleHandles.TasksWellFormed(s) && t in s.tasks
    ensures Flow(t, s.tasks[t], Route(t, s.tasks[t], grpc)) && Rank(Route(t, s.tasks[t], grpc)) < Rank(s.tasks[t])
  {
    hide Flow, Route, Rank, LifecycleHandles.TaskFits;
    RouteIsAWay(s, t, grpc);
  }

  lemma AheadFlows(s: Session, t: Task)
    requires t in s.tasks && s.tasks[t].Rotating?
    ensures Flow(t, s.tasks[t], ScrcpyStarting(false))
  {
  }

  lemma LostShortensTheQueue(s: Session, t: Task)
    requires LifecycleHandles.QueueOrdered(s) && LifecycleHandles.TasksWellFormed(s) && LifecycleAnswers.AnswersInv(s)
    requires t in s.tasks && s.tasks[t].Rotating? && t.boot != s.bootSeq && s.rotations != []
    requires Enabled(s, Resume(t, Go(ScrcpyStarting(false), false)))
    ensures Next(s, Resume(t, Go(ScrcpyStarting(false), false))).rotations == s.rotations[1..]
  {
    hide LifecycleAnswers.AnswersInv, LifecycleHandles.QueueOrdered, LifecycleHandles.TasksWellFormed, Flow;
  }

  lemma OneMoreRuns(events: seq<Event>, e: Event)
    requires Run(events).Some? && Enabled(Run(events).value, e)
    ensures Run(events + [e]) == Some(Next(Run(events).value, e))
  {
    hide Enabled, Next;
    assert (events + [e])[..|events|] == events;
  }

  /** What every reachable session keeps, as needed here. */
  ghost predicate Kept(s: Session) {
    LifecycleAnswers.AnswersInv(s) && LifecycleHandles.QueueOrdered(s) && LifecycleHandles.TasksWellFormed(s)
  }

  lemma RunsAreKept(events: seq<Event>)
    requires Run(events).Some?
    ensures Kept(Run(events).value)
  {
    hide Run, LifecycleAnswers.AnswersInv, LifecycleHandles.QueueOrdered, LifecycleHandles.TasksWellFormed, LifecycleHandles.HandlesInv,
      LifecycleHandles.OneStreamer;
    LifecycleAnswers.RunKeeps(events);
    LifecycleHandles.RunKeeps(events);
  }

  /** One step of the way: the call goes on to its next await or returns, or the queue ahead of it is shorter. */
  ghost predicate Nearer(s: Session, u: Session, t: Task, grpc: bool)
    requires t in s.tasks
  {
    && u.bootSeq == s.bootSeq
    && if s.tasks[t].Rotating? && s.rotations != [] && s.rotations[0] != t.boot then
         t in u.tasks && u.tasks[t] == s.tasks[t] && |u.rotations| < |s.rotations|
       else
         var next := Route(t, s.tasks[t], grpc);
         && (t in u.tasks <==> !next.Finished?) && (t in u.tasks ==> u.tasks[t] == next) && Rank(next) < Rank(s.tasks[t])
         && (t.BootTask? && t !in u.tasks ==> u.log == s.log + [Answered(t.boot, Ready)])
  }

  lemma OnwardIsNearer(s: Session, t: Task, grpc: bool)
    requires Kept(s) && t in s.tasks && t.boot == s.bootSeq
    ensures s.tasks[t].Rotating? ==> s.rotations != []
    ensures var e := Onward(s, t, grpc); Enabled(s, e) && Nearer(s, Next(s, e), t, grpc)
  {
    hide LifecycleAnswers.AnswersInv, LifecycleHandles.QueueOrdered, LifecycleHandles.TasksWellFormed,
      ResumeTask, Enabled, Route, Rank;
    OnwardGoesOn(s, t, grpc);
    RouteFits(s, t, grpc);
    var e := Onward(s, t, grpc);
    EnabledIsInFlight(s, e);
    LifecycleStory.ResumeTells(s, e.task, e.outcome);
    if e.task != t { AheadHasLost(s, t, e); }
  }

  lemma EnabledIsInFlight(s: Session, e: Event)
    requires Enabled(s, e) && e.Resume?
    ensures e.task in s.tasks && Next(s, e) == ResumeTask(s, e.task, e.outcome)
  {
    hide ResumeTask, Flow;
  }

  lemma AheadHasLost(s: Session, t: Task, e: Event)
    requires Kept(s) && t in s.tasks && t.boot == s.bootSeq && s.tasks[t].Rotating? && s.rotations != []
    requires s.rotations[0] != t.boot
    requires e == Resume(BootTask(s.rotations[0]), Go(ScrcpyStarting(false), false)) && Enabled(s, e)
    ensures |Next(s, e).rotations| < |s.rotations|
  {
    hide Enabled, Next;
    WaitsInTheQueue(s, t);
    LostShortensTheQueue(s, e.task);
  }

  /** A stream of its own is up: on the gRPC backend, or on scrcpy. */
  ghost predicate Up(s: Session, t: Task, grpc: bool) {
    if grpc then LifecycleStreams.Holds(s, Handle(Video, t, false))
    else exists fb :: LifecycleStreams.Holds(s, Handle(Scrcpy, t, fb))
  }

  /** The call has brought its stream up already. */
  predicate Past(pc: Pc) {
    !LifecycleHandles.BringsUpStream(pc)
  }

  /** The gRPC backend can still be the one. */
  predicate OnGrpc(pc: Pc) {
    !pc.BodyTurning? && !pc.ScrcpyStarting?
  }

  lemma BringsUp(s: Session, t: Task, grpc: bool)
    requires LifecycleHandles.HandlesInv(s) && t in s.tasks && t.boot == s.bootSeq && !Past(s.tasks[t])
    requires LifecycleHandles.TaskFits(t, s.tasks[t])
    requires var e := Resume(t, Go(Route(t, s.tasks[t], grpc), false)); Enabled(s, e)
    ensures var next := Route(t, s.tasks[t], grpc);
            var u := Next(s, Resume(t, Go(next, false)));
            Past(next) || next.Finished? ==> Up(u, t, grpc && OnGrpc(s.tasks[t]))
  {
    hide Enabled;
    var pc := s.tasks[t];
    var next := Route(t, pc, grpc);
    if Past(next) || next.Finished? {
      hide Proceed, Flow, LifecycleHandles.Shape;
      InShape(s, t);
      ReachesUp(t, pc, grpc);
      EnabledIsInFlight(s, Resume(t, Go(next, false)));
      if pc.Reconciling? { LifecycleStreams.GrpcStreams(s, t, next, false); } else { LifecycleStreams.ScrcpyStreams(s, t, next, false); }
      LifecycleStreams.SettleStreams(Proceed(s, t, next, false), t, next, pc, false);
      StreamsAreUp(Next(s, Resume(t, Go(next, false))), t, pc);
    }
  }

  lemma InShape(s: Session, t: Task)
    requires LifecycleHandles.HandlesInv(s) && t in s.tasks && t.boot == s.bootSeq
    ensures LifecycleHandles.Shape(s, t, s.tasks[t])
  {
    hide LifecycleHandles.Shape;
  }

  lemma ReachesUp(t: Task, pc: Pc, grpc: bool)
    requires LifecycleHandles.TaskFits(t, pc) && !Past(pc)
    requires Past(Route(t, pc, grpc)) || Route(t, pc, grpc).Finished?
    ensures (pc.Reconciling? && grpc) || pc.ScrcpyStarting?
    ensures StreamUp(t, Route(t, pc, grpc))
  {
  }

  lemma StreamsAreUp(s: Session, t: Task, from: Pc)
    requires from.Reconciling? || from.ScrcpyStarting?
    requires LifecycleStreams.Streams(s, t, from, false)
    ensures Up(s, t, from.Reconciling?)
  {
    if from.ScrcpyStarting? { assert LifecycleStreams.Holds(s, Handle(Scrcpy, t, from.fallback)); }
  }

  lemma StaysUp(s: Session, t: Task, grpc: bool, was: bool)
    requires t in s.tasks && t.boot == s.bootSeq && Past(s.tasks[t]) && LifecycleHandles.TaskFits(t, s.tasks[t])
    requires Enabled(s, Resume(t, Go(Route(t, s.tasks[t], grpc), false))) && Up(s, t, was)
    ensures Up(Next(s, Resume(t, Go(Route(t, s.tasks[t], grpc), false))), t, was)
  {
    var next := Route(t, s.tasks[t], grpc);
    assert Proceed(s, t, next, false) == s;
    SameFieldsUp(s, Next(s, Resume(t, Go(next, false))), t, was);
  }

  lemma SameFieldsUp(s: Session, u: Session, t: Task, was: bool)
    requires u.slots == s.slots && u.live == s.live && Up(s, t, was)
    ensures Up(u, t, was)
  {
    if !was {
      var fb :| LifecycleStreams.Holds(s, Handle(Scrcpy, t, fb));
      assert LifecycleStreams.Holds(u, Handle(Scrcpy, t, fb));
    }
  }

  // ---------------------------------------------------------------- to the end

  /** The run can go on by these resumes, none of which rejects and none of which retires a number. */
  ghost predicate Continues(events: seq<Event>, more: seq<Event>)
    requires Run(events).Some?
  {
    && Run(events + more).Some?
    && (forall e | e in more :: e.Resume? && e.outcome.Go?)
    && Run(events + more).value.bootSeq == Run(events).value.bootSeq
  }

  lemma ContinuesFrom(events: seq<Event>, e: Event, more: seq<Event>)
    requires Run(events).Some? && Run(events + [e]).Some? && e.Resume? && e.outcome.Go?
    requires Run(events + [e]).value.bootSeq == Run(events).value.bootSeq
    requires Continues(events + [e], more)
    ensures Continues(events, [e] + more) && Run(events + [e] + more) == Run(events + ([e] + more))
  {
    hide Run;
    assert events + [e] + more == events + ([e] + more);
  }

  lemma NothingMore(events: seq<Event>)
    requires Run(events).Some?
    ensures Continues(events, []) && events + [] == events
  {
    hide Run;
    assert events + [] == events;
  }

  /** The call is over, a boot answered ready, with its stream up where it brought one up. */
  ghost predicate Arrived(s: Session, t: Task, grpc: bool, from: Pc, was: Session) {
    && t !in s.tasks
    && (t.BootTask? ==> Ready in LifecycleAnswers.AnswersTo(s.log, t.boot))
    && (if Past(from) then forall g :: Up(was, t, g) ==> Up(s, t, g) else Up(s, t, grpc && OnGrpc(from)))
  }

  lemma {:induction false} GoesToItsEnd(events: seq<Event>, t: Task, grpc: bool) returns (more: seq<Event>)
    requires Run(events).Some?
    requires var s := Run(events).value; t in s.tasks && t.boot == s.bootSeq
    ensures Continues(events, more)
    ensures Arrived(Run(events + more).value, t, grpc, Run(events).value.tasks[t], Run(events).value)
    decreases Rank(Run(events).value.tasks[t]), |Run(events).value.rotations|
  {
    hide LifecycleAnswers.AnswersTo, Run, Kept, Nearer, Enabled, Next, Onward, Up, LifecycleHandles.HandlesInv,
      LifecycleHandles.TaskFits, Route, Rank, Continues;
    var s := Run(events).value;
    RunsAreKept(events);
    HoldsHandles(events, t);
    OnwardIsNearer(s, t, grpc);
    var e := Onward(s, t, grpc);
    OneMoreRuns(events, e);
    var u := Next(s, e);
    IsOnward(s, t, grpc);
    IsNearer(s, u, t, grpc);
    if s.tasks[t].Rotating? && s.rotations[0] != t.boot {
      more := GoesToItsEnd(events + [e], t, grpc);
    } else {
      if Past(s.tasks[t]) {
        forall g | Up(s, t, g) ensures Up(u, t, g) { StaysUp(s, t, grpc, g); }
      } else {
        BringsUp(s, t, grpc);
      }
      if t in u.tasks {
        more := GoesToItsEnd(events + [e], t, grpc);
        StillOnGrpc(t, s.tasks[t], grpc);
      } else {
        more := [];
        if t.BootTask? { LifecycleAnswers.Appended(s.log, Answered(t.boot, Ready), t.boot); }
        NothingMore(events + [e]);
      }
    }
    ContinuesFrom(events, e, more);
    more := [e] + more;
  }

  lemma HoldsHandles(events: seq<Event>, t: Task)
    requires Run(events).Some? && t in Run(events).value.tasks
    ensures LifecycleHandles.HandlesInv(Run(events).value)
    ensures LifecycleHandles.TaskFits(t, Run(events).value.tasks[t])
  {
    hide Run, LifecycleHandles.HandlesInv, LifecycleHandles.TaskFits, LifecycleHandles.OneStreamer,
      LifecycleHandles.QueueOrdered;
    LifecycleHandles.RunKeeps(events);
  }

  lemma IsOnward(s: Session, t: Task, grpc: bool)
    requires t in s.tasks && (s.tasks[t].Rotating? ==> s.rotations != [])
    ensures var e := Onward(s, t, grpc);
            && e.Resume? && e.outcome.Go?
            && (!(s.tasks[t].Rotating? && s.rotations[0] != t.boot) ==> e == Resume(t, Go(Route(t, s.tasks[t], grpc), false)))
  {
    hide Route;
  }

  lemma IsNearer(s: Session, u: Session, t: Task, grpc: bool)
    requires t in s.tasks && (s.tasks[t].Rotating? ==> s.rotations != []) && Nearer(s, u, t, grpc)
    ensures u.bootSeq == s.bootSeq
    ensures if s.tasks[t].Rotating? && s.rotations[0] != t.boot then
              t in u.tasks && u.tasks[t] == s.tasks[t] && |u.rotations| < |s.rotations|
            else
              var next := Route(t, s.tasks[t], grpc);
              && (t in u.tasks <==> !next.Finished?) && (t in u.tasks ==> u.tasks[t] == next) && Rank(next) < Rank(s.tasks[t])
              && (t.BootTask? && t !in u.tasks ==> u.log == s.log + [Answered(t.boot, Ready)])
  {
    hide Route, Rank;
  }

  lemma StillOnGrpc(t: Task, pc: Pc, grpc: bool)
    requires LifecycleHandles.TaskFits(t, pc)
    ensures var next := Route(t, pc, grpc);
            && (!Past(next) && !next.Finished? ==> (grpc && OnGrpc(next) <==> grpc && OnGrpc(pc)))
            && (Past(pc) ==> Past(next) || next.Finished?)
  {
  }

  /** From every reachable session: a boot or a restart whose number is current can go on to its end by resumes
      alone, the boots ahead of it in the rotation queue first. A boot is then answered ready and nothing else; and
      a call that had no stream yet has its own up, on whichever backend is asked for, or on scrcpy once it has left
      the gRPC backend. */
  lemma CurrentCallsCanSucceed(events: seq<Event>, t: Task, grpc: bool)
    requires Run(events).Some?
    requires var s := Run(events).value; t in s.tasks && t.boot == s.bootSeq
    ensures exists more :: Continues(events, more) && Succeeds(Run(events).value, Run(events + more).value, t, grpc)
  {
    hide Run, Up, LifecycleAnswers.AnswersTo, Continues, LifecycleAnswers.AnswersInv;
    var more := GoesToItsEnd(events, t, grpc);
    GoesOn(events, more);
    RunsAreKept(events);
    var final := Run(events + more).value;
    if t.BootTask? {
      LifecycleStory.LogIsTheStory(events + more);
      AnsweredReady(events + more, t.boot);
    }
    assert Succeeds(Run(events).value, final, t, grpc);
  }

  ghost predicate Succeeds(s: Session, final: Session, t: Task, grpc: bool)
    requires t in s.tasks
  {
    && t !in final.tasks
    && (t.BootTask? ==> LifecycleAnswers.AnswersTo(final.log, t.boot) == [Ready])
    && (!Past(s.tasks[t]) ==> Up(final, t, grpc && OnGrpc(s.tasks[t])))
  }

  lemma GoesOn(events: seq<Event>, more: seq<Event>)
    requires Run(events).Some? && Continues(events, more)
    ensures Run(events + more).Some?
  {
    hide Run;
  }

  lemma AnsweredReady(events: seq<Event>, boot: nat)
    requires Run(events).Some? && Ready in LifecycleAnswers.AnswersTo(Run(events).value.log, boot)
    ensures LifecycleAnswers.AnswersTo(Run(events).value.log, boot) == [Ready]
  {
    hide Run, LifecycleAnswers.AnswersTo, LifecycleStory.Story;
    LifecycleStory.LogIsTheStory(events);
    if boot in Run(events).value.requestIds {
      LifecycleAnswers.EveryBootIsAnsweredOnce(events, boot);
      var answers := LifecycleAnswers.AnswersTo(Run(events).value.log, boot);
      assert answers == [answers[0]];
    } else {
      NoneUnasked(events, boot);
    }
  }

  lemma NoneUnasked(events: seq<Event>, boot: nat)
    requires Run(events).Some? && boot !in Run(events).value.requestIds
    ensures LifecycleAnswers.AnswersTo(Run(events).value.log, boot) == []
  {
    hide Run;
    LifecycleAnswers.RunKeeps(events);
  }

  // ---------------------------------------------------------------- what may go wrong

  /** Awaits that reject into nothing: their errors are swallowed, or end in the other backend. */
  predicate Swallows(pc: Pc) {
    || pc == Rotating || pc == SizeReading || pc.BodyTurning?
    || pc == Normalising || pc == VideoStarting || pc == Reconciling
  }

  /** From every reachable session: every other await of the current boot may reject, and then the boot is over and
      answered failed, and nothing else. */
  lemma CurrentBootsMayFail(events: seq<Event>, boot: nat)
    requires Run(events).Some?
    requires var s := Run(events).value; boot == s.bootSeq && BootTask(boot) in s.tasks && !Swallows(s.tasks[BootTask(boot)])
    ensures var after := events + [Resume(BootTask(boot), Threw)];
            && Run(after).Some? && BootTask(boot) !in Run(after).value.tasks
            && LifecycleAnswers.AnswersTo(Run(after).value.log, boot) == [Failed]
  {
    hide Run, LifecycleAnswers.AnswersInv, LifecycleHandles.QueueOrdered, LifecycleHandles.TasksWellFormed, ResumeTask;
    var s := Run(events).value;
    RunsAreKept(events);
    LifecycleStory.BootsAreAsked(s, boot);
    MayReject(s, boot);
    LifecycleStory.ResumeTells(s, BootTask(boot), Threw);
    OneMoreRuns(events, Resume(BootTask(boot), Threw));
    LifecycleAnswers.EveryBootIsAnsweredOnce(events, boot);
    LifecycleAnswers.Appended(s.log, Answered(boot, Failed), boot);
  }

  lemma MayReject(s: Session, boot: nat)
    requires BootTask(boot) in s.tasks && boot in s.requestIds && !Swallows(s.tasks[BootTask(boot)])
    ensures Enabled(s, Resume(BootTask(boot), Threw))
  {
  }

  /** Over every run: a stream can end exactly where the session has it, the call that brought it up is past that,
      and no restart of it is under way. */
  lemma StreamsEndExactly(events: seq<Event>, kind: Kind, serial: bool, wsOpen: bool)
    requires Run(events).Some?
    ensures var s := Run(events).value;
            Enabled(s, StreamEnded(kind, serial, wsOpen)) <==>
              && (kind == Scrcpy || kind == Video) && kind in s.slots
              && (s.slots[kind].owner in s.tasks ==> Past(s.tasks[s.slots[kind].owner]))
              && !exists id :: RestartTask(s.bootSeq, id) in s.tasks
  {
    hide Run, LifecycleHandles.HandlesInv, LifecycleHandles.TaskFits, LifecycleHandles.OneStreamer,
      LifecycleHandles.QueueOrdered, Created;
    LifecycleStreams.RestartingIsARestart(events);
    LifecycleHandles.RunKeeps(events);
    var s := Run(events).value;
    if (kind == Scrcpy || kind == Video) && kind in s.slots {
      forall t | t in s.tasks ensures s.slots[kind] in Created(t, s.tasks[t]) <==> t == s.slots[kind].owner && !Past(s.tasks[t]) {
        CreatedStreams(s, kind, t);
      }
    }
  }

  lemma CreatedStreams(s: Session, kind: Kind, t: Task)
    requires LifecycleHandles.HandlesInv(s) && (kind == Scrcpy || kind == Video) && kind in s.slots && t in s.tasks
    requires LifecycleHandles.TaskFits(t, s.tasks[t])
    ensures s.slots[kind] in Created(t, s.tasks[t]) <==> t == s.slots[kind].owner && !Past(s.tasks[t])
  {
  }
}
