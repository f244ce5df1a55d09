/**
 The boot and stream lifecycle of one device session.

 The agent is single-threaded, but a boot, a stream restart, a shutdown and the loss of the relay all
 overlap at every `await`. A `Session` is the state one registered `DeviceState` object and the calls
 suspended on it make up, and an `Event` is everything that runs between two awaits. What orders them
 is only the sequence number `bootSeq`: a call that finds its own number retired has lost.
 */
module Lifecycle {

  import opened Options

  datatype Reason = Superseded | ShutDown | RelayLost

  datatype Kind = Helper | Scrcpy | Video | Client | Audio | StreamWs

  /** A call suspended at an await. A restart captures the boot number it found instead of taking one. */
  datatype Task = BootTask(boot: nat) | RestartTask(boot: nat, id: nat)

  /** What a start created; `fallback` marks the second attempt, after the gRPC backend failed. */
  datatype Handle = Handle(kind: Kind, owner: Task, fallback: bool)

  /** The await a call is suspended at. `Finished` is only ever a target: the call returned. */
  datatype Pc =
    | Listing | StoppingOld | PickingPort | FindingSerial | WaitingForBoot | Refreshing | OpeningWs
    | Rotating | Normalising | SizeReading | VideoStarting | Reconciling
    | BodyTurning(fallback: bool) | ScrcpyStarting(fallback: bool)
    | Resetting | AwaitingClears
    | Sleeping
    | Finished

  datatype Answer = Ready | Failed | Abandoned(reason: Reason)

  /** What left the agent, and the lifecycle events around it, in order. */
  datatype Entry =
    | Began(boot: nat)
    | Retired(boot: nat, reason: Reason)
    | Answered(boot: nat, answer: Answer)
    | StreamDead

  datatype Session = Session(
    registered: bool,
    bootSeq: nat,
    bootsInFlight: set<nat>,
    bootAbandon: map<nat, Reason>,
    requestIds: map<nat, Option<string>>,
    grpcPort: Option<nat>,
    slots: map<Kind, Handle>,
    live: set<Handle>,
    restarting: bool,
    nextRestart: nat,
    rotations: seq<nat>,
    tasks: map<Task, Pc>,
    log: seq<Entry>)

  const FRESH_SESSION := Session(true, 0, {}, map[], map[], None, map[], {}, false, 0, [], map[], [])

  /** How an await ended, with the branch the environment made the code take after it. */
  datatype Outcome = Threw | Go(next: Pc, audio: bool)

  datatype Event =
    | BootRequest(requestId: Option<string>)
    | ShutdownRequest
    | Deregister(reason: Reason)
    | StreamEnded(kind: Kind, serial: bool, wsOpen: bool)
    | Resume(task: Task, outcome: Outcome)

  // ---------------------------------------------------------------- the code between two awaits

  /** `bumpBootSeq`: retire the current number, leaving its reason for a boot still running to read. */
  function BumpBootSeq(s: Session, reason: Reason): Session {
    s.(bootAbandon := if s.bootSeq in s.bootsInFlight then s.bootAbandon[s.bootSeq := reason] else s.bootAbandon,
       bootSeq := s.bootSeq + 1,
       log := s.log + [Retired(s.bootSeq, reason)])
  }

  function Held(slots: map<Kind, Handle>, kinds: set<Kind>): set<Handle> {
    set k | k in slots && k in kinds :: slots[k]
  }

  /** Stop the handles these fields hold and null the fields. */
  function StopSlots(s: Session, kinds: set<Kind>): Session {
    s.(live := s.live - Held(s.slots, kinds), slots := s.slots - kinds)
  }

  const ALL_KINDS: set<Kind> := {Helper, Scrcpy, Video, Client, Audio, StreamWs}

  /** `cleanupDeviceState` */
  function CleanupDeviceState(s: Session): Session {
    StopSlots(s, ALL_KINDS).(restarting := false)
  }

  /** `releaseStream`: stop what one start created, and null a field only while it is still its own. */
  function ReleaseStream(s: Session, created: set<Handle>): Session {
    s.(live := s.live - created,
       slots := map k | k in s.slots && s.slots[k] !in created :: s.slots[k])
  }

  /** `abandonBoot`: answer a boot that lost, unless there is nobody to answer. */
  function AbandonBoot(s: Session, boot: nat): Session
    requires boot in s.requestIds
  {
    var reason := if boot in s.bootAbandon then s.bootAbandon[boot] else Superseded;
    var s1 := s.(bootAbandon := s.bootAbandon - {boot});
    if s.registered && s.requestIds[boot].Some? then
      s1.(log := s.log + [Answered(boot, Abandoned(reason))])
    else
      s1
  }

  /** The `finally` of a boot. */
  function EndBoot(s: Session, boot: nat): Session {
    s.(bootsInFlight := s.bootsInFlight - {boot},
       bootAbandon := s.bootAbandon - {boot},
       tasks := s.tasks - {BootTask(boot)})
  }

  /** A call that finds it lost: a boot answers why, a restart says nothing. */
  function Lose(s: Session, t: Task): Session
    requires t.BootTask? ==> t.boot in s.requestIds
  {
    match t
    case BootTask(boot) => EndBoot(AbandonBoot(s, boot), boot)
    case RestartTask(_, _) => s.(tasks := s.tasks - {t})
  }

  /** A call that failed while its number is current: the failure is reported. */
  function Fail(s: Session, t: Task): Session {
    match t
    case BootTask(boot) => EndBoot(s.(log := s.log + [Answered(boot, Failed)]), boot)
    case RestartTask(_, _) => s.(log := s.log + [StreamDead], restarting := false, tasks := s.tasks - {t})
  }

  /** The handles a suspended start holds in its own record, published to the session or not. */
  function Created(t: Task, pc: Pc): set<Handle> {
    match pc
    case SizeReading => {Handle(Helper, t, false), Handle(Client, t, false), Handle(Video, t, false)}
    case VideoStarting => {Handle(Helper, t, false), Handle(Client, t, false), Handle(Video, t, false)}
    case Reconciling => {Handle(Helper, t, false), Handle(Client, t, false), Handle(Video, t, false)}
    case BodyTurning(fb) => {Handle(Helper, t, fb)}
    case ScrcpyStarting(fb) => {Handle(Helper, t, fb), Handle(Scrcpy, t, fb)}
    case _ => {}
  }

  function Publish(s: Session, h: Handle): Session {
    s.(slots := s.slots[h.kind := h], live := s.live + {h})
  }

  /** Which await may follow which, by the branches of the source. */
  predicate Flow(t: Task, pc: Pc, next: Pc) {
    match pc
    case Listing => next in {StoppingOld, PickingPort, FindingSerial, Refreshing}
    case StoppingOld => next in {PickingPort, FindingSerial}
    case PickingPort => next == FindingSerial
    case FindingSerial => next == WaitingForBoot
    case WaitingForBoot => next == Refreshing
    case Refreshing => next == OpeningWs
    case OpeningWs => next == Rotating
    case Rotating => next in {Normalising, BodyTurning(false), ScrcpyStarting(false)}
    case Normalising => next in {SizeReading, BodyTurning(true), ScrcpyStarting(true)}
    case SizeReading => next == VideoStarting
    case VideoStarting => next in {Reconciling, BodyTurning(true), ScrcpyStarting(true)}
    case Reconciling => next in {BodyTurning(true), ScrcpyStarting(true)} || StreamUp(t, next)
    case BodyTurning(fb) => next == ScrcpyStarting(fb)
    case ScrcpyStarting(_) => StreamUp(t, next)
    case Resetting => next == AwaitingClears
    case AwaitingClears => next == Finished
    case Sleeping => next in {SizeReading, BodyTurning(false), ScrcpyStarting(false)}
    case Finished => false
  }

  /** Where a start that succeeded returns to. */
  predicate StreamUp(t: Task, next: Pc) {
    if t.BootTask? then next in {Resetting, AwaitingClears} else next == Finished
  }

  /** Awaits that never reject: the rotation queue and the display-size read swallow their errors. */
  predicate NeverRejects(pc: Pc) {
    pc.Rotating? || pc.SizeReading? || pc.BodyTurning?
  }

  /** A gRPC attempt that fails while its number is current is not reported: the start goes on to scrcpy. */
  predicate FallsBackOnError(pc: Pc) {
    pc.Normalising? || pc.VideoStarting? || pc.Reconciling?
  }

  const GRPC_KINDS: set<Kind> := {Video, Client, Helper}

  /** A gRPC failure leaves for scrcpy only after tearing down what the failed attempt published. */
  function FallBack(s: Session, pc: Pc, next: Pc): Session {
    if (next.BodyTurning? || next.ScrcpyStarting?) && FallsBackOnError(pc)
    then StopSlots(s, GRPC_KINDS) else s
  }

  /** What the code does on the way from one await to the next while its number is current. */
  function Advance(s: Session, t: Task, next: Pc, audio: bool): Session
    requires t in s.tasks
  {
    Settle(Proceed(s, t, next, audio), t, next)
  }

  function Proceed(s: Session, t: Task, next: Pc, audio: bool): Session
    requires t in s.tasks
  {
    var pc := s.tasks[t];
    var s0 := FallBack(s, pc, next);
    match next
      case FindingSerial =>
        if pc.PickingPort? then s0 else s0.(grpcPort := None)
      case OpeningWs => Publish(s0, Handle(StreamWs, t, false))
      case Rotating => s0.(rotations := s0.rotations + [t.boot])
      case SizeReading =>
        var s2 := Publish(s0, Handle(Helper, t, false));
        s2.(live := s2.live + Created(t, SizeReading))
      case VideoStarting =>
        s0.(slots := s0.slots[Client := Handle(Client, t, false)][Video := Handle(Video, t, false)])
      case BodyTurning(fb) => Publish(s0, Handle(Helper, t, fb))
      case ScrcpyStarting(fb) =>
        var s2 := if pc.BodyTurning? then s0 else Publish(s0, Handle(Helper, t, fb));
        s2.(live := s2.live + {Handle(Scrcpy, t, fb)})
      case _ =>
        if pc.ScrcpyStarting? then s0.(slots := s0.slots[Scrcpy := Handle(Scrcpy, t, pc.fallback)])
        else if pc.Reconciling? && audio then Publish(s0, Handle(Audio, t, false))
        else s0
  }

  /** Suspend at the next await, or return. */
  function Settle(s: Session, t: Task, next: Pc): Session {
    if !next.Finished? then s.(tasks := s.tasks[t := next])
    else match t
      case BootTask(boot) => EndBoot(s.(log := s.log + [Answered(boot, Ready)]), boot)
      case RestartTask(_, _) => s.(restarting := false, tasks := s.tasks - {t})
  }

  /** A start that lost while waiting its turn in the rotation queue. There is no check between that wait
      and what follows it, so it goes on to the gRPC branch, or publishes a touch helper it must then
      take back. */
  function ResumeLostRotation(s: Session, t: Task, next: Pc): Session
    requires t.BootTask? && t.boot in s.requestIds
  {
    match next
    case Normalising => s.(tasks := s.tasks[t := next])
    case BodyTurning(fb) => Publish(s, Handle(Helper, t, fb)).(tasks := s.tasks[t := next])
    case _ =>
      var h := Handle(Helper, t, false);
      Lose(ReleaseStream(Publish(s, h), {h}), t)
  }

  function ResumeTask(s: Session, t: Task, outcome: Outcome): Session
    requires t in s.tasks
    requires t.BootTask? ==> t.boot in s.requestIds
    requires s.tasks[t].Rotating? ==> t.BootTask? && outcome.Go? && s.rotations != []
  {
    var pc := s.tasks[t];
    var s1 := if pc.Rotating? then s.(rotations := s.rotations[1..])
              // The port is stored before the number is checked.
              else if pc.PickingPort? && outcome.Go? then s.(grpcPort := Some(t.boot))
              else s;
    if t.boot == s.bootSeq then
      match outcome
      case Go(next, audio) => Advance(s1, t, next, audio)
      case Threw =>
        // A scrcpy session whose own start rejected is not live.
        Fail(if pc.ScrcpyStarting? then s1.(live := s1.live - {Handle(Scrcpy, t, pc.fallback)}) else s1, t)
    else if pc.Rotating? then ResumeLostRotation(s1, t, outcome.next)
    else Lose(ReleaseStream(s1, Created(t, pc)), t)
  }

  const RESTART_KINDS: set<Kind> := {Helper, Scrcpy, Video, Client, Audio}

  /** `restartVideoStream` up to its first await. */
  function BeginRestart(s: Session, serial: bool, wsOpen: bool): Session {
    if !serial then s.(restarting := false, log := if s.registered then s.log + [StreamDead] else s.log)
    else
      var s1 := StopSlots(s, RESTART_KINDS);
      if StreamWs !in s.slots || !wsOpen then s1.(restarting := false)
      else
        s1.(restarting := true, nextRestart := s.nextRestart + 1,
            tasks := s1.tasks[RestartTask(s.bootSeq, s.nextRestart) := Sleeping])
  }

  /** `handleDeviceBoot` up to its first await. */
  function BeginBoot(s: Session, requestId: Option<string>): Session {
    var s1 := BumpBootSeq(s, Superseded);
    var s2 := CleanupDeviceState(s1.(bootsInFlight := s1.bootsInFlight + {s1.bootSeq}));
    s2.(requestIds := s2.requestIds[s2.bootSeq := requestId],
        tasks := s2.tasks[BootTask(s2.bootSeq) := Listing],
        log := s2.log + [Began(s2.bootSeq)])
  }

  /** The stream's pump ends a stream that is up: nobody is still starting it. */
  predicate Pumping(s: Session, kind: Kind) {
    && kind in {Scrcpy, Video}
    && kind in s.slots
    && forall t | t in s.tasks :: s.slots[kind] !in Created(t, s.tasks[t])
  }

  predicate Enabled(s: Session, e: Event) {
    match e
    case BootRequest(_) => s.registered
    case ShutdownRequest => s.registered
    case Deregister(_) => s.registered
    case StreamEnded(kind, _, _) => Pumping(s, kind) && !s.restarting
    case Resume(t, outcome) =>
      && t in s.tasks
      && (t.BootTask? ==> t.boot in s.requestIds)
      && (outcome.Go? ==> Flow(t, s.tasks[t], outcome.next))
      && (NeverRejects(s.tasks[t]) ==> outcome.Go?)
      && (FallsBackOnError(s.tasks[t]) && t.boot == s.bootSeq ==> outcome.Go?)
         // The rotation queue of a device runs in order.
      && (s.tasks[t].Rotating? ==> t.BootTask? && s.rotations != [] && s.rotations[0] == t.boot)
  }

  function Next(s: Session, e: Event): Session
    requires Enabled(s, e)
  {
    match e
    case BootRequest(requestId) => BeginBoot(s, requestId)
    case ShutdownRequest => CleanupDeviceState(BumpBootSeq(s, ShutDown))
    case Deregister(reason) => CleanupDeviceState(BumpBootSeq(s, reason)).(registered := false)
    case StreamEnded(_, serial, wsOpen) => BeginRestart(s, serial, wsOpen)
    case Resume(t, outcome) => ResumeTask(s, t, outcome)
  }

  /** The session after a run from registration, or `None` when the run is not one the agent can make. */
  function Run(events: seq<Event>): Option<Session> {
    if events == [] then Some(FRESH_SESSION)
    else
      var last := |events| - 1;
      match Run(events[..last])
      case None => None
      case Some(s) => if Enabled(s, events[last]) then Some(Next(s, events[last])) else None
  }
}
