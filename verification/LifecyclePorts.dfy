/**
 The port a stream connects to. The source means it to be the one the session's emulator was launched
 with, and writes the field before it checks that the boot still owns the session.
 */
module LifecyclePorts {

  import opened Options
  import opened Lifecycle
  import LifecycleAnswers
  import LifecycleHandles

  /** The owner has launched its emulator and has not built its gRPC client yet. */
  predicate HasLaunched(pc: Pc) {
    || pc.FindingSerial? || pc.WaitingForBoot? || pc.Refreshing? || pc.OpeningWs? || pc.Rotating? || pc.Normalising?
  }

  /** A boot other than the owner comes back from picking a port. */
  predicate LatePick(s: Session, e: Event)
    requires Enabled(s, e)
  {
    e.Resume? && s.tasks[e.task].PickingPort? && e.outcome.Go? && e.task.boot != s.bootSeq
  }

  // ---------------------------------------------------------------- from the owner's pick to its client

  predicate BeforePick(pc: Pc) {
    pc.Listing? || pc.StoppingOld? || pc.PickingPort?
  }

  /** Boot `b` has picked its port, or is over. */
  predicate Past(s: Session, b: nat) {
    s.bootSeq >= b && (BootTask(b) in s.tasks ==> !BeforePick(s.tasks[BootTask(b)]))
  }

  /** The port field after a call resumes. */
  function PortAfter(s: Session, t: Task, outcome: Outcome): Option<nat>
    requires t in s.tasks
  {
    if outcome.Threw? then s.grpcPort
    else if s.tasks[t].PickingPort? then Some(t.boot)
    else if t.boot == s.bootSeq && outcome.next.FindingSerial? then None
    else s.grpcPort
  }

  /** What resuming a call does to the calls: it goes on where it may, or is gone. */
  ghost predicate GoesOn(s: Session, t: Task, u: Session)
    requires t in s.tasks
  {
    && u.bootSeq == s.bootSeq
    && (forall x | x in u.tasks :: x in s.tasks && (x != t ==> u.tasks[x] == s.tasks[x]))
    && (t in u.tasks ==> Flow(t, s.tasks[t], u.tasks[t]))
  }

  lemma FallBackKeepsPort(s: Session, pc: Pc, next: Pc)
    ensures FallBack(s, pc, next).grpcPort == s.grpcPort
  {
  }

  lemma AdvanceGoesOn(s: Session, t: Task, next: Pc, audio: bool)
    requires t in s.tasks && Flow(t, s.tasks[t], next)
    ensures var u := Advance(s, t, next, audio);
            && GoesOn(s, t, u)
            && u.grpcPort == if next.FindingSerial? && !s.tasks[t].PickingPort? then None else s.grpcPort
  {
    hide FallBack, Flow;
    LifecycleAnswers.ProceedFields(s, t, next, audio);
    FallBackKeepsPort(s, s.tasks[t], next);
  }

  lemma LosesOut(s: Session, t: Task, created: set<Handle>)
    requires t in s.tasks && (t.BootTask? ==> t.boot in s.requestIds)
    ensures var u := Lose(ReleaseStream(s, created), t); GoesOn(s, t, u) && u.grpcPort == s.grpcPort
  {
    hide Flow;
  }

  lemma FailsOut(s: Session, t: Task)
    requires t in s.tasks
    ensures GoesOn(s, t, Fail(s, t)) && Fail(s, t).grpcPort == s.grpcPort
  {
    hide Flow;
  }

  lemma LostRotationGoesOn(s: Session, t: Task, next: Pc)
    requires t in s.tasks && t.BootTask? && t.boot in s.requestIds && Flow(t, s.tasks[t], next)
    ensures var u := ResumeLostRotation(s, t, next); GoesOn(s, t, u) && u.grpcPort == s.grpcPort
  {
    hide Flow, Lose, ReleaseStream;
    var h := Handle(Helper, t, false);
    LosesOut(Publish(s, h), t, {h});
  }

  lemma RunningGoesOn(s: Session, t: Task, outcome: Outcome)
    requires Enabled(s, Resume(t, outcome))
    ensures var u := ResumeTask(s, t, outcome); GoesOn(s, t, u) && u.grpcPort == PortAfter(s, t, outcome)
  {
    hide Flow, Advance, Lose, Fail, ReleaseStream, ResumeLostRotation, Created, GoesOn;
    var pc := s.tasks[t];
    var s1 := if pc.Rotating? then s.(rotations := s.rotations[1..])
              else if pc.PickingPort? && outcome.Go? then s.(grpcPort := Some(t.boot))
              else s;
    if t.boot != s.bootSeq && !pc.Rotating? {
      LosesOut(s1, t, Created(t, pc));
    } else if outcome.Go? {
      AdvanceGoesOn(s1, t, outcome.next, outcome.audio);
      if t.BootTask? { LostRotationGoesOn(s1, t, outcome.next); }
      if pc.Rotating? { RotatingFindsNoSerial(t, outcome.next); }
    } else {
      FailsOut(s1, t);
      FailsOut(s1.(live := s1.live - {Handle(Scrcpy, t, if pc.ScrcpyStarting? then pc.fallback else false)}), t);
    }
    GoesOnFrom(s, s1, t, ResumeTask(s, t, outcome));
  }

  lemma RotatingFindsNoSerial(t: Task, next: Pc)
    requires Flow(t, Rotating, next)
    ensures !next.FindingSerial?
  {
  }

  lemma GoesOnFrom(s: Session, s1: Session, t: Task, u: Session)
    requires t in s.tasks && s1.tasks == s.tasks && s1.bootSeq == s.bootSeq
    ensures GoesOn(s1, t, u) ==> GoesOn(s, t, u)
    ensures forall v: set<Handle> :: GoesOn(s1.(live := v), t, u) ==> GoesOn(s, t, u)
  {
    hide Flow;
  }

  /** The owner keeps the port it launched with over a step, unless a boot that lost comes back from its own
      pick; and no step gives it back. */
  lemma StepOfPort(s: Session, e: Event)
    requires Enabled(s, e)
    requires BootTask(s.bootSeq) in s.tasks && HasLaunched(s.tasks[BootTask(s.bootSeq)])
    requires forall t | t in s.tasks && t.boot == s.bootSeq :: t == BootTask(s.bootSeq)
    ensures (Next(s, e).grpcPort == Some(s.bootSeq)) <==> s.grpcPort == Some(s.bootSeq) && !LatePick(s, e)
  {
    hide ResumeTask;
    if e.Resume? { RunningGoesOn(s, e.task, e.outcome); }
  }

  lemma NextKeepsPast(s: Session, e: Event, b: nat)
    requires Enabled(s, e) && Past(s, b)
    ensures Past(Next(s, e), b)
  {
    hide ResumeTask;
    if e.Resume? { RunningGoesOn(s, e.task, e.outcome); }
  }

  /** A boot that has launched and had picked before the step had launched before it. */
  lemma HadLaunched(s: Session, e: Event)
    requires Enabled(s, e) && Past(s, Next(s, e).bootSeq)
    requires var t := Next(s, e); BootTask(t.bootSeq) in t.tasks && HasLaunched(t.tasks[BootTask(t.bootSeq)])
    ensures s.bootSeq == Next(s, e).bootSeq
    ensures BootTask(s.bootSeq) in s.tasks && HasLaunched(s.tasks[BootTask(s.bootSeq)])
  {
    hide ResumeTask;
    if e.Resume? { RunningGoesOn(s, e.task, e.outcome); }
  }

  /** The event at `i` of this run is a late pick. */
  predicate LateAt(events: seq<Event>, i: nat)
    requires i < |events|
  {
    Run(events[..i]).Some? && Enabled(Run(events[..i]).value, events[i]) && LatePick(Run(events[..i]).value, events[i])
  }

  /** The event at `k` of this run is the owner's return from its pick. */
  predicate PicksAt(events: seq<Event>, k: nat)
    requires k < |events|
  {
    && Run(events[..k]).Some?
    && var s := Run(events[..k]).value;
       var owner := BootTask(s.bootSeq);
       && owner in s.tasks && s.tasks[owner].PickingPort?
       && events[k].Resume? && events[k].task == owner && events[k].outcome.Go?
       && Enabled(s, events[k])
  }

  lemma OwnersPick(events: seq<Event>)
    requires events != [] && Run(events).Some? && PicksAt(events, |events| - 1)
    ensures var s := Run(events).value;
            Past(s, s.bootSeq) && s.bootSeq == Run(events[..|events| - 1]).value.bootSeq && s.grpcPort == Some(s.bootSeq)
  {
  }

  lemma {:induction false} StaysPast(events: seq<Event>, k: nat)
    requires k < |events| && Run(events).Some? && PicksAt(events, k)
    ensures Past(Run(events).value, Run(events[..k]).value.bootSeq)
    decreases |events|
  {
    hide Next, Past, Enabled;
    var last := |events| - 1;
    if k == last {
      OwnersPick(events);
    } else {
      var front := events[..last];
      assert front[..k] == events[..k] && front[k] == events[k];
      StaysPast(front, k);
      NextKeepsPast(Run(front).value, events[last], Run(events[..k]).value.bootSeq);
    }
  }

  ghost predicate NoneLate(events: seq<Event>, k: nat) {
    forall i | k < i < |events| :: !LateAt(events, i)
  }

  lemma OneMoreLate(events: seq<Event>, k: nat)
    requires k + 1 < |events|
    ensures NoneLate(events, k) <==> NoneLate(events[..|events| - 1], k) && !LateAt(events, |events| - 1)
  {
    hide Run, LatePick, Enabled;
    var front := events[..|events| - 1];
    forall i | k < i < |front| ensures LateAt(front, i) == LateAt(events, i) {
      assert front[..i] == events[..i] && front[i] == events[i];
    }
  }

  /** The last step of a run in which the owner still has no client. */
  lemma LastStepOfPort(events: seq<Event>)
    requires events != [] && Run(events).Some?
    requires var t := Run(events).value; BootTask(t.bootSeq) in t.tasks && HasLaunched(t.tasks[BootTask(t.bootSeq)])
    requires var front := events[..|events| - 1]; Run(front).Some? ==> Past(Run(front).value, Run(events).value.bootSeq)
    ensures var front := events[..|events| - 1];
            && Run(front).Some?
            && var s, t := Run(front).value, Run(events).value;
               && s.bootSeq == t.bootSeq
               && BootTask(s.bootSeq) in s.tasks && HasLaunched(s.tasks[BootTask(s.bootSeq)])
               && (t.grpcPort == Some(t.bootSeq) <==> s.grpcPort == Some(s.bootSeq) && !LateAt(events, |events| - 1))
  {
    hide Next, LifecycleHandles.SlotsWellFormed;
    var last := |events| - 1;
    var front := events[..last];
    var s := Run(front).value;
    HadLaunched(s, events[last]);
    OneOwner(front);
    StepOfPort(s, events[last]);
  }

  lemma OneOwner(events: seq<Event>)
    requires Run(events).Some?
    requires var s := Run(events).value; BootTask(s.bootSeq) in s.tasks && HasLaunched(s.tasks[BootTask(s.bootSeq)])
    ensures var s := Run(events).value; forall t | t in s.tasks && t.boot == s.bootSeq :: t == BootTask(s.bootSeq)
  {
    LifecycleHandles.RunKeeps(events);
    assert LifecycleHandles.OneStreamer(Run(events).value);
  }

  lemma PickedJustNow(events: seq<Event>, k: nat)
    requires k + 1 == |events| && Run(events).Some? && PicksAt(events, k)
    ensures Run(events).value.grpcPort == Some(Run(events).value.bootSeq) && NoneLate(events, k)
  {
    hide LateAt;
    OwnersPick(events);
  }

  lemma PicksInFront(events: seq<Event>, k: nat)
    requires k + 1 < |events| && PicksAt(events, k)
    ensures var front := events[..|events| - 1]; PicksAt(front, k) && front[..k] == events[..k]
  {
    hide Run, Enabled;
    var front := events[..|events| - 1];
    assert front[..k] == events[..k] && front[k] == events[k];
  }

  /** From its own pick to its client, over every run: the owner's port is the one it launched with exactly
      when no boot that lost has come back from a pick in between. */
  lemma {:induction false} PortIsTheOwnersExactly(events: seq<Event>, k: nat)
    requires k < |events| && Run(events).Some? && PicksAt(events, k)
    requires var s := Run(events).value;
             && s.bootSeq == Run(events[..k]).value.bootSeq
             && BootTask(s.bootSeq) in s.tasks && HasLaunched(s.tasks[BootTask(s.bootSeq)])
    ensures var s := Run(events).value; s.grpcPort == Some(s.bootSeq) <==> NoneLate(events, k)
    decreases |events|
  {
    hide Run, Past, PicksAt, LateAt, HasLaunched, NoneLate;
    if k + 1 == |events| {
      PickedJustNow(events, k);
    } else {
      var front := events[..|events| - 1];
      PicksInFront(events, k);
      if Run(front).Some? { StaysPast(front, k); }
      LastStepOfPort(events);
      OneMoreLate(events, k);
      PortIsTheOwnersExactly(front, k);
    }
  }

  lemma RunOfNothing()
    ensures Run([]) == Some(FRESH_SESSION)
  {
  }

  lemma Extended(events: seq<Event>, e: Event, s: Session)
    requires Run(events) == Some(s) && Enabled(s, e)
    ensures Run(events + [e]) == Some(Next(s, e))
  {
    assert (events + [e])[..|events|] == events;
  }

  const FIRST := BootTask(1)
  const SECOND := BootTask(2)

  /** Two boots overlap while the first picks its port. */
  const OVERLAP: seq<Event> :=
    [BootRequest(None)] + [Resume(FIRST, Go(PickingPort, false))] + [BootRequest(None)]

  lemma OverlapRuns()
    ensures Run(OVERLAP).Some?
    ensures var s := Run(OVERLAP).value;
            && s.bootSeq == 2 && s.requestIds.Keys == {1, 2}
            && s.tasks == map[FIRST := PickingPort, SECOND := Listing]
  {
    hide Run;
    RunOfNothing();
    var s1 := Next(FRESH_SESSION, BootRequest(None));
    Extended([], BootRequest(None), FRESH_SESSION);
    assert [] + [BootRequest(None)] == [BootRequest(None)];
    assert s1.tasks == map[FIRST := Listing];
    var s2 := Next(s1, Resume(FIRST, Go(PickingPort, false)));
    Extended([BootRequest(None)], Resume(FIRST, Go(PickingPort, false)), s1);
    assert s2.tasks == map[FIRST := PickingPort];
    Extended([BootRequest(None)] + [Resume(FIRST, Go(PickingPort, false))], BootRequest(None), s2);
  }

  /** The second boot picks a port and launches on it. */
  const LAUNCHED: seq<Event> :=
    OVERLAP + [Resume(SECOND, Go(PickingPort, false))] + [Resume(SECOND, Go(FindingSerial, false))]

  lemma LaunchedRuns()
    ensures Run(LAUNCHED).Some?
    ensures var s := Run(LAUNCHED).value;
            && s.bootSeq == 2 && s.requestIds.Keys == {1, 2} && s.grpcPort == Some(2)
            && s.tasks == map[FIRST := PickingPort, SECOND := FindingSerial]
  {
    hide Run;
    OverlapRuns();
    var s := Run(OVERLAP).value;
    var s1 := Next(s, Resume(SECOND, Go(PickingPort, false)));
    Extended(OVERLAP, Resume(SECOND, Go(PickingPort, false)), s);
    assert s1.tasks == map[FIRST := PickingPort, SECOND := PickingPort];
    Extended(OVERLAP + [Resume(SECOND, Go(PickingPort, false))], Resume(SECOND, Go(FindingSerial, false)), s1);
  }

  /** The promise fails: the boot that lost comes back from its pick, and the emulator the owner launched on
      one port is about to be reached on the other. */
  lemma StalePortIsReached()
    ensures var late := LAUNCHED + [Resume(FIRST, Go(FindingSerial, false))];
            && Run(late).Some?
            && Run(late).value.bootSeq == 2
            && Run(late).value.tasks == map[SECOND := FindingSerial]
            && Run(late).value.grpcPort == Some(1)
  {
    hide Run;
    LaunchedRuns();
    Extended(LAUNCHED, Resume(FIRST, Go(FindingSerial, false)), Run(LAUNCHED).value);
  }
}
