/**
 Who owns which stream handle, over every interleaving of boots, shutdowns, relay losses, restarts and
 streams that die.
 */
module LifecycleHandles {

  import opened Options
  import opened Lifecycle

  ghost predicate Owning(s: Session, t: Task) {
    t.boot == s.bootSeq
  }

  /** A call that is past the wait for its turn in the rotation queue, or that never took one. */
  predicate PastRotation(pc: Pc) {
    || pc.Normalising? || pc.SizeReading? || pc.VideoStarting? || pc.Reconciling?
    || pc.BodyTurning? || pc.ScrcpyStarting? || pc.Resetting? || pc.AwaitingClears? || pc.Sleeping?
  }

  /** The call still has a stream to bring up; once it has one, a restart may be the one streaming. */
  predicate BringsUpStream(pc: Pc) {
    !pc.Resetting? && !pc.AwaitingClears?
  }

  /** The boot has not opened its stream socket yet. */
  predicate BeforeSocket(pc: Pc) {
    || pc.Listing? || pc.StoppingOld? || pc.PickingPort? || pc.FindingSerial? || pc.WaitingForBoot? || pc.Refreshing?
  }

  // ---------------------------------------------------------------- the invariant

  ghost predicate SlotsWellFormed(s: Session) {
    forall k | k in s.slots :: s.slots[k].kind == k && s.slots[k] in s.live
  }

  /** No handle is forgotten: a live one is in its field, or in the record of a start that will release it. */
  ghost predicate Accounted(s: Session, h: Handle) {
    || (h.kind in s.slots && s.slots[h.kind] == h)
    || (h.owner in s.tasks && h in Created(h.owner, s.tasks[h.owner]))
  }

  ghost predicate NoneForgotten(s: Session) {
    forall h | h in s.live :: Accounted(s, h)
  }

  /** Only a touch helper is ever published by a start that lost, and that start is still there to take it back. */
  ghost predicate FieldsAreCurrent(s: Session) {
    && (forall k | k in s.slots && k != Helper :: Owning(s, s.slots[k].owner))
    && (Helper in s.slots && !Owning(s, s.slots[Helper].owner) ==>
          var h := s.slots[Helper];
          h.owner.boot < s.bootSeq && h.owner in s.tasks && h in Created(h.owner, s.tasks[h.owner]))
  }

  ghost predicate NoCurrentHelper(s: Session) {
    Helper in s.slots ==> s.slots[Helper].owner.boot < s.bootSeq
  }

  ghost predicate HelperAndSocketOnly(s: Session) {
    forall k | k in s.slots :: k.Helper? || k.StreamWs?
  }

  ghost predicate Holds(s: Session, h: Handle) {
    h.kind in s.slots && s.slots[h.kind] == h
  }

  /** What the fields hold while the call that owns the session is suspended at `pc`. */
  ghost predicate Shape(s: Session, t: Task, pc: Pc) {
    && Created(t, pc) <= s.live
    && if pc.Resetting? || pc.AwaitingClears? then true
       else if pc.VideoStarting? || pc.Reconciling? then
         && Holds(s, Handle(Helper, t, false)) && Holds(s, Handle(Client, t, false)) && Holds(s, Handle(Video, t, false))
         && Scrcpy !in s.slots && Audio !in s.slots
       else
         && HelperAndSocketOnly(s)
         && (BeforeSocket(pc) ==> StreamWs !in s.slots)
         && match pc
            case SizeReading => Holds(s, Handle(Helper, t, false))
            case BodyTurning(fb) => Holds(s, Handle(Helper, t, fb))
            case ScrcpyStarting(fb) => Holds(s, Handle(Helper, t, fb))
            case _ => NoCurrentHelper(s)
  }

  ghost predicate OwnersInShape(s: Session) {
    forall t | t in s.tasks && Owning(s, t) :: Shape(s, t, s.tasks[t])
  }

  /** While a boot waits in the rotation queue, nothing newer than it has published a stream. */
  ghost predicate QueueBeforeStream(s: Session) {
    && (Helper in s.slots ==> forall q | q in s.rotations :: s.slots[Helper].owner.boot < q)
    && (s.rotations != [] ==> HelperAndSocketOnly(s))
  }

  ghost predicate LiveAreOld(s: Session) {
    forall h | h in s.live :: h.owner.boot <= s.bootSeq && (h.owner.RestartTask? ==> h.owner.id < s.nextRestart)
  }

  ghost predicate HandlesInv(s: Session) {
    && SlotsWellFormed(s)
    && NoneForgotten(s)
    && FieldsAreCurrent(s)
    && OwnersInShape(s)
    && QueueBeforeStream(s)
    && LiveAreOld(s)
  }

  /** The awaits a boot and a restart can be suspended at. */
  predicate TaskFits(t: Task, pc: Pc) {
    && !pc.Finished?
    && if t.BootTask? then !pc.Sleeping? else PastRotation(pc) && BringsUpStream(pc)
  }

  ghost predicate TasksWellFormed(s: Session) {
    forall t | t in s.tasks ::
      && t.boot <= s.bootSeq
      && TaskFits(t, s.tasks[t])
      && (t.RestartTask? ==> t.id < s.nextRestart)
      && (Owning(s, t) ==> s.registered)
  }

  /** Of the calls that own the session, one at a time brings up its stream. */
  ghost predicate OneStreamer(s: Session) {
    forall t | t in s.tasks && Owning(s, t) && t.RestartTask? ::
      && t.id + 1 == s.nextRestart
      && s.restarting
      && (BootTask(s.bootSeq) in s.tasks ==> !BringsUpStream(s.tasks[BootTask(s.bootSeq)]))
  }

  ghost predicate Increasing(q: seq<nat>) {
    forall i, j | 0 <= i < j < |q| :: q[i] < q[j]
  }

  /** The rotation queue holds exactly the boots waiting at it, in boot order, and everything that is past
      the queue is older than everything in it. */
  ghost predicate QueueOrdered(s: Session) {
    && Increasing(s.rotations)
    && (forall q | q in s.rotations :: BootTask(q) in s.tasks && s.tasks[BootTask(q)].Rotating?)
    && (forall t | t in s.tasks && s.tasks[t].Rotating? :: t.boot in s.rotations)
    && (forall t, q | t in s.tasks && PastRotation(s.tasks[t]) && q in s.rotations :: t.boot < q)
  }

  ghost predicate OrderInv(s: Session) {
    && TasksWellFormed(s)
    && OneStreamer(s)
    && QueueOrdered(s)
  }

  // ---------------------------------------------------------------- the order of the calls

  lemma RetireKeepsOrder(s: Session, s': Session)
    requires OrderInv(s)
    requires s'.bootSeq == s.bootSeq + 1 && s'.tasks == s.tasks && s'.rotations == s.rotations
    requires s'.nextRestart == s.nextRestart
    ensures OrderInv(s')
    ensures forall t | t in s'.tasks :: !Owning(s', t)
  {
  }

  /** A call moves to another await, in or out of the queue only as said. */
  lemma MoveKeepsOrder(s: Session, s': Session, t: Task, next: Pc)
    requires OrderInv(s) && t in s.tasks && TaskFits(t, next)
    requires s'.bootSeq == s.bootSeq && s'.rotations == s.rotations && s'.nextRestart == s.nextRestart
    requires s'.registered == s.registered && s'.restarting == s.restarting
    requires s'.tasks == s.tasks[t := next]
    requires !next.Rotating? && !s.tasks[t].Rotating?
    requires PastRotation(next) ==> PastRotation(s.tasks[t])
    requires BringsUpStream(next) ==> BringsUpStream(s.tasks[t])
    ensures OrderInv(s')
  {
  }

  lemma EndKeepsOrder(s: Session, s': Session, t: Task)
    requires OrderInv(s) && t in s.tasks && !s.tasks[t].Rotating?
    requires s'.bootSeq == s.bootSeq && s'.rotations == s.rotations && s'.nextRestart == s.nextRestart
    requires s'.registered == s.registered
    requires s'.restarting == s.restarting || (t.RestartTask? && Owning(s, t))
    requires s'.tasks == s.tasks - {t}
    ensures OrderInv(s')
  {
  }

  lemma FirstTaskKeepsOrder(s: Session, s': Session)
    requires OrderInv(s) && s.registered
    requires forall u | u in s.tasks :: !Owning(s, u)
    requires s'.bootSeq == s.bootSeq && s'.rotations == s.rotations && s'.nextRestart == s.nextRestart && s'.registered
    requires s'.tasks == s.tasks[BootTask(s.bootSeq) := Listing]
    ensures OrderInv(s')
  {
  }

  lemma QueueTail(q: seq<nat>)
    requires Increasing(q) && q != []
    ensures Increasing(q[1..])
    ensures forall x | x in q :: x == q[0] || x in q[1..]
    ensures forall x | x in q[1..] :: x in q && q[0] < x
  {
    assert q == [q[0]] + q[1..];
    forall x | x in q[1..] ensures q[0] < x {
      var i :| 0 <= i < |q| - 1 && q[1..][i] == x;
      assert q[i + 1] == x;
    }
  }

  lemma QueueJoin(q: seq<nat>, x: nat)
    requires Increasing(q) && forall y | y in q :: y < x
    ensures Increasing(q + [x])
  {
    forall i | 0 <= i < |q| ensures q[i] < x {
      assert q[i] in q;
    }
  }

  lemma EnterQueueKeepsOrder(s: Session, s': Session, t: Task)
    requires OrderInv(s) && t in s.tasks && Owning(s, t) && s.tasks[t].OpeningWs? && t.BootTask?
    requires s'.bootSeq == s.bootSeq && s'.rotations == s.rotations + [t.boot]
    requires s'.tasks == s.tasks[t := Rotating]
    ensures QueueOrdered(s')
  {
    forall q | q in s.rotations ensures q < t.boot {
      assert BootTask(q) in s.tasks && BootTask(q) != t;
    }
    QueueJoin(s.rotations, t.boot);
    forall u | u in s'.tasks && PastRotation(s'.tasks[u]) ensures u.boot < t.boot {
      assert u.BootTask? ==> u != t;
    }
  }

  lemma LeaveQueueKeepsOrder(s: Session, s': Session, t: Task)
    requires TasksWellFormed(s) && QueueOrdered(s)
    requires t in s.tasks && s.tasks[t].Rotating? && t.BootTask?
    requires s.rotations != [] && s.rotations[0] == t.boot
    requires s'.bootSeq == s.bootSeq && s'.rotations == s.rotations[1..]
    requires s'.tasks == s.tasks[t := Normalising]
    ensures QueueOrdered(s')
  {
    QueueTail(s.rotations);
  }

  /** Entering or leaving the queue changes nothing about who streams. */
  lemma QueueMoveKeepsTasks(s: Session, s': Session, t: Task, next: Pc)
    requires TasksWellFormed(s) && OneStreamer(s) && t in s.tasks && TaskFits(t, next)
    requires s'.bootSeq == s.bootSeq && s'.nextRestart == s.nextRestart
    requires s'.registered == s.registered && s'.restarting == s.restarting
    requires s'.tasks == s.tasks[t := next]
    requires BringsUpStream(next) ==> BringsUpStream(s.tasks[t])
    ensures TasksWellFormed(s') && OneStreamer(s')
  {
  }

  lemma RestartKeepsOrder(s: Session, s': Session)
    requires OrderInv(s) && s.registered && !s.restarting && s.rotations == []
    requires BootTask(s.bootSeq) in s.tasks ==> !BringsUpStream(s.tasks[BootTask(s.bootSeq)])
    requires s'.bootSeq == s.bootSeq && s'.rotations == s.rotations && s'.nextRestart == s.nextRestart + 1
    requires s'.registered == s.registered && s'.restarting
    requires s'.tasks == s.tasks[RestartTask(s.bootSeq, s.nextRestart) := Sleeping]
    ensures OrderInv(s')
  {
  }

  // ---------------------------------------------------------------- the handles

  lemma EveryKind(k: Kind)
    ensures k in ALL_KINDS
  {
    match k
    case Helper =>
    case Scrcpy =>
    case Video =>
    case Client =>
    case Audio =>
    case StreamWs =>
  }

  /** A boot that has just taken its number finds every field empty. */
  lemma FirstTaskKeepsHandles(s: Session, s': Session)
    requires HandlesInv(s) && s.slots == map[] && BootTask(s.bootSeq) !in s.tasks
    requires s'.slots == s.slots && s'.live == s.live && s'.bootSeq == s.bootSeq && s'.nextRestart == s.nextRestart
    requires s'.rotations == s.rotations && s'.tasks == s.tasks[BootTask(s.bootSeq) := Listing]
    ensures HandlesInv(s')
  {
    forall h | h in s'.live ensures Accounted(s', h) {
      assert Accounted(s, h);
    }
  }

  lemma RetireKeepsHandles(s: Session, reason: Reason)
    requires HandlesInv(s) && OrderInv(s)
    ensures HandlesInv(CleanupDeviceState(BumpBootSeq(s, reason)))
    ensures CleanupDeviceState(BumpBootSeq(s, reason)).slots == map[]
  {
    var s' := CleanupDeviceState(BumpBootSeq(s, reason));
    assert s'.slots == map[] by {
      forall k | k in s.slots ensures k in ALL_KINDS { EveryKind(k); }
    }
    forall h | h in s'.live ensures Accounted(s', h) {
      assert Accounted(s, h);
      EveryKind(h.kind);
    }
  }

  /** The owner's move that leaves every handle where it is. */
  lemma QuietMoveKeepsHandles(s: Session, s': Session, t: Task, next: Pc)
    requires HandlesInv(s) && t in s.tasks
    requires s'.slots == s.slots && s'.live == s.live && s'.bootSeq == s.bootSeq && s'.nextRestart == s.nextRestart
    requires s'.tasks == s.tasks[t := next]
    requires forall q | q in s'.rotations :: q in s.rotations || (q == s.bootSeq && HelperAndSocketOnly(s) && NoCurrentHelper(s))
    requires Created(t, next) == Created(t, s.tasks[t])
    requires Owning(s, t) ==> Shape(s, t, next)
    ensures HandlesInv(s')
  {
    forall h | h in s'.live ensures Accounted(s', h) {
      assert Accounted(s, h);
    }
    if s'.rotations != [] {
      assert s'.rotations[0] in s'.rotations;
    }
  }

  /** The owner is past the queue and nobody else brings up the session's stream. */
  ghost predicate StreamsAlone(s: Session, t: Task) {
    && t in s.tasks && Owning(s, t)
    && s.rotations == []
    && forall u | u in s.tasks && Owning(s, u) && u != t :: !BringsUpStream(s.tasks[u])
  }

  lemma HasElement(q: seq<nat>)
    requires q != []
    ensures exists x :: x in q
  {
    assert q[0] in q;
  }

  lemma OwnerStreamsAlone(s: Session, t: Task)
    requires OrderInv(s) && t in s.tasks && Owning(s, t) && PastRotation(s.tasks[t]) && BringsUpStream(s.tasks[t])
    ensures StreamsAlone(s, t)
  {
    if s.rotations != [] { HasElement(s.rotations); }
  }

  /** `next` is an await at which a start holds a touch helper it has just published. */
  predicate HasHelper(next: Pc, fb: bool) {
    || (next.SizeReading? && !fb)
    || (next.BodyTurning? && next.fallback == fb)
    || (next.ScrcpyStarting? && next.fallback == fb)
  }

  /** The helper a publication displaces, if any, is still in the record of the start that lost it. */
  lemma PublishHelperForgetsNone(s: Session, s': Session, t: Task, next: Pc, fb: bool)
    requires NoneForgotten(s) && FieldsAreCurrent(s) && t in s.tasks && Owning(s, t)
    requires Created(t, s.tasks[t]) == {} && NoCurrentHelper(s) && HasHelper(next, fb)
    requires s'.slots == s.slots[Helper := Handle(Helper, t, fb)] && s'.live == s.live + Created(t, next)
    requires s'.tasks == s.tasks[t := next]
    ensures NoneForgotten(s')
  {
    forall h | h in s'.live ensures Accounted(s', h) {
      if h in s.live { assert Accounted(s, h); }
    }
  }

  lemma PublishHelperKeepsHandles(s: Session, s': Session, t: Task, next: Pc, fb: bool)
    requires HandlesInv(s) && StreamsAlone(s, t)
    requires s.tasks[t].Normalising? || s.tasks[t].Sleeping?
    requires HasHelper(next, fb)
    requires t.RestartTask? ==> t.id < s.nextRestart
    requires s'.slots == s.slots[Helper := Handle(Helper, t, fb)] && s'.live == s.live + Created(t, next)
    requires s'.bootSeq == s.bootSeq && s'.nextRestart == s.nextRestart && s'.rotations == s.rotations
    requires s'.tasks == s.tasks[t := next]
    ensures HandlesInv(s')
  {
    assert Shape(s, t, s.tasks[t]);
    PublishHelperForgetsNone(s, s', t, next, fb);
    forall u | u in s'.tasks && Owning(s', u) ensures Shape(s', u, s'.tasks[u]) {
      if u != t { assert Created(u, s.tasks[u]) == {}; }
    }
  }

  lemma PublishGrpcKeepsHandles(s: Session, s': Session, t: Task)
    requires HandlesInv(s) && StreamsAlone(s, t) && s.tasks[t].SizeReading?
    requires s'.slots == s.slots[Client := Handle(Client, t, false)][Video := Handle(Video, t, false)]
    requires s'.live == s.live
    requires s'.bootSeq == s.bootSeq && s'.nextRestart == s.nextRestart && s'.rotations == s.rotations
    requires s'.tasks == s.tasks[t := VideoStarting]
    ensures HandlesInv(s')
  {
    assert Shape(s, t, SizeReading);
    forall u | u in s'.tasks && Owning(s', u) ensures Shape(s', u, s'.tasks[u]) {
      if u != t { assert Created(u, s.tasks[u]) == {}; }
    }
    forall h | h in s'.live ensures Accounted(s', h) {
      assert Accounted(s, h);
    }
  }

  lemma OpenSocketKeepsHandles(s: Session, s': Session, t: Task)
    requires HandlesInv(s) && t.BootTask? && t in s.tasks && Owning(s, t) && s.tasks[t].Refreshing?
    requires forall u | u in s.tasks && Owning(s, u) && u != t :: !BringsUpStream(s.tasks[u])
    requires s'.slots == s.slots[StreamWs := Handle(StreamWs, t, false)]
    requires s'.live == s.live + {Handle(StreamWs, t, false)}
    requires s'.bootSeq == s.bootSeq && s'.nextRestart == s.nextRestart && s'.rotations == s.rotations
    requires s'.tasks == s.tasks[t := OpeningWs]
    ensures HandlesInv(s')
  {
    assert Shape(s, t, Refreshing);
    forall u | u in s'.tasks && Owning(s', u) ensures Shape(s', u, s'.tasks[u]) {
      if u != t { assert Created(u, s.tasks[u]) == {}; }
    }
    forall h | h in s'.live ensures Accounted(s', h) {
      if h in s.live { assert Accounted(s, h); }
    }
  }

  lemma SessionCreatedKeepsHandles(s: Session, s': Session, t: Task)
    requires HandlesInv(s) && StreamsAlone(s, t) && s.tasks[t].BodyTurning?
    requires s'.slots == s.slots && s'.live == s.live + {Handle(Scrcpy, t, s.tasks[t].fallback)}
    requires t.RestartTask? ==> t.id < s.nextRestart
    requires s'.bootSeq == s.bootSeq && s'.nextRestart == s.nextRestart && s'.rotations == s.rotations
    requires s'.tasks == s.tasks[t := ScrcpyStarting(s.tasks[t].fallback)]
    ensures HandlesInv(s')
  {
    assert Shape(s, t, s.tasks[t]);
    forall u | u in s'.tasks && Owning(s', u) ensures Shape(s', u, s'.tasks[u]) {
      if u != t { assert Created(u, s.tasks[u]) == {}; }
    }
    forall h | h in s'.live ensures Accounted(s', h) {
      if h in s.live { assert Accounted(s, h); }
    }
  }

  /** The start returned: its record is gone, and its task is gone or waits for the rest of the boot. */
  ghost predicate RecordDropped(s: Session, s': Session, t: Task) {
    && (forall u | u != t :: u in s'.tasks <==> u in s.tasks)
    && (forall u | u != t && u in s.tasks :: s'.tasks[u] == s.tasks[u])
    && (t in s'.tasks ==> !BringsUpStream(s'.tasks[t]))
  }

  lemma ScrcpyUpKeepsHandles(s: Session, s': Session, t: Task)
    requires HandlesInv(s) && StreamsAlone(s, t) && s.tasks[t].ScrcpyStarting?
    requires s'.slots == s.slots[Scrcpy := Handle(Scrcpy, t, s.tasks[t].fallback)] && s'.live == s.live
    requires s'.bootSeq == s.bootSeq && s'.nextRestart == s.nextRestart && s'.rotations == s.rotations
    requires RecordDropped(s, s', t)
    ensures HandlesInv(s')
  {
    assert Shape(s, t, s.tasks[t]);
    forall h | h in s'.live ensures Accounted(s', h) {
      assert Accounted(s, h);
    }
  }

  lemma GrpcUpKeepsHandles(s: Session, s': Session, t: Task, audio: bool)
    requires HandlesInv(s) && StreamsAlone(s, t) && s.tasks[t].Reconciling?
    requires t.RestartTask? ==> t.id < s.nextRestart
    requires s'.slots == if audio then s.slots[Audio := Handle(Audio, t, false)] else s.slots
    requires s'.live == if audio then s.live + {Handle(Audio, t, false)} else s.live
    requires s'.bootSeq == s.bootSeq && s'.nextRestart == s.nextRestart && s'.rotations == s.rotations
    requires RecordDropped(s, s', t)
    ensures HandlesInv(s')
  {
    assert Shape(s, t, s.tasks[t]);
    forall h | h in s'.live ensures Accounted(s', h) {
      if h in s.live { assert Accounted(s, h); }
    }
  }

  /** The owner fails or returns with nothing in its record but, at most, a session that never started. */
  lemma EndOwnerKeepsHandles(s: Session, s': Session, t: Task)
    requires HandlesInv(s) && t in s.tasks && Owning(s, t)
    requires Created(t, s.tasks[t]) == {} || s.tasks[t].ScrcpyStarting?
    requires s'.slots == s.slots
    requires s'.live == if s.tasks[t].ScrcpyStarting? then s.live - {Handle(Scrcpy, t, s.tasks[t].fallback)} else s.live
    requires forall u | u in s.tasks && Owning(s, u) && u != t && s.tasks[t].ScrcpyStarting? :: !BringsUpStream(s.tasks[u])
    requires s'.bootSeq == s.bootSeq && s'.nextRestart == s.nextRestart && s'.rotations == s.rotations
    requires s'.tasks == s.tasks - {t}
    ensures HandlesInv(s')
  {
    assert Shape(s, t, s.tasks[t]);
    forall h | h in s'.live ensures Accounted(s', h) {
      assert Accounted(s, h);
    }
  }

  lemma CreatedIsOwned(t: Task, pc: Pc)
    ensures forall h | h in Created(t, pc) :: h.owner == t
  {
  }

  /** A start that lost stops everything in its record, and touches no field that is not its own. */
  lemma LoseKeepsHandles(s: Session, s': Session, t: Task)
    requires HandlesInv(s) && t in s.tasks && t.boot < s.bootSeq
    requires s'.slots == ReleaseStream(s, Created(t, s.tasks[t])).slots
    requires s'.live == s.live - Created(t, s.tasks[t])
    requires s'.bootSeq == s.bootSeq && s'.nextRestart == s.nextRestart && s'.rotations == s.rotations
    requires s'.tasks == s.tasks - {t}
    ensures HandlesInv(s')
  {
    CreatedIsOwned(t, s.tasks[t]);
    var gone := Created(t, s.tasks[t]);
    assert forall h | h in s.live && h !in gone :: h in s'.live;
    assert forall k | k in s.slots && s.slots[k] !in gone :: k in s'.slots && s'.slots[k] == s.slots[k];
    forall h | h in s'.live ensures Accounted(s', h) {
      assert Accounted(s, h);
    }
    forall u | u in s'.tasks && Owning(s', u) ensures Shape(s', u, s'.tasks[u]) {
      assert Shape(s, u, s.tasks[u]);
      CreatedIsOwned(u, s.tasks[u]);
    }
  }

  /** A start that lost while it waited for its rotation publishes a helper over no current handle. */
  lemma LostHelperKeepsHandles(s: Session, s': Session, t: Task, next: Pc)
    requires HandlesInv(s) && t in s.tasks && t.BootTask? && t.boot < s.bootSeq && Created(t, s.tasks[t]) == {}
    requires next == BodyTurning(false)
    requires Helper in s.slots ==> s.slots[Helper].owner.boot < t.boot
    requires forall q | q in s'.rotations :: q in s.rotations && t.boot < q
    requires forall u | u in s.tasks && Owning(s, u) :: !PastRotation(s.tasks[u])
    requires s'.slots == s.slots[Helper := Handle(Helper, t, false)] && s'.live == s.live + {Handle(Helper, t, false)}
    requires s'.bootSeq == s.bootSeq && s'.nextRestart == s.nextRestart
    requires s'.tasks == s.tasks[t := next]
    ensures HandlesInv(s')
  {
    forall h | h in s'.live ensures Accounted(s', h) {
      if h in s.live { assert Accounted(s, h); }
    }
    if s'.rotations != [] { assert s'.rotations[0] in s'.rotations; }
  }

  /** Tearing a gRPC attempt down leaves the start as if it had not begun one. */
  lemma FallBackKeepsHandles(s: Session, s': Session, t: Task)
    requires HandlesInv(s) && StreamsAlone(s, t) && FallsBackOnError(s.tasks[t])
    requires s'.slots == StopSlots(s, GRPC_KINDS).slots && s'.live == StopSlots(s, GRPC_KINDS).live
    requires s'.bootSeq == s.bootSeq && s'.nextRestart == s.nextRestart && s'.rotations == s.rotations
    requires s'.tasks == s.tasks[t := Normalising]
    ensures HandlesInv(s')
  {
    assert Shape(s, t, s.tasks[t]);
    forall h | h in s'.live ensures Accounted(s', h) {
      assert Accounted(s, h);
    }
    forall u | u in s'.tasks && Owning(s', u) ensures Shape(s', u, s'.tasks[u]) {
      if u != t { assert Created(u, s.tasks[u]) == {}; }
    }
  }

  /** A stream that dies is torn down, all of its handles but the socket, before its restart waits. */
  lemma RestartKeepsHandles(s: Session, s': Session, kind: Kind)
    requires HandlesInv(s) && OrderInv(s) && Pumping(s, kind)
    requires forall u | u in s.tasks && Owning(s, u) :: !BringsUpStream(s.tasks[u])
    requires s'.slots == StopSlots(s, RESTART_KINDS).slots && s'.live == StopSlots(s, RESTART_KINDS).live
    requires s'.bootSeq == s.bootSeq && s'.nextRestart >= s.nextRestart && s'.rotations == s.rotations
    requires s'.tasks == s.tasks || s'.tasks == s.tasks[RestartTask(s.bootSeq, s.nextRestart) := Sleeping]
    ensures HandlesInv(s')
  {
    assert RestartTask(s.bootSeq, s.nextRestart) !in s.tasks;
    forall h | h in s'.live ensures Accounted(s', h) {
      assert Accounted(s, h);
    }
    forall u | u in s'.tasks && Owning(s', u) ensures Shape(s', u, s'.tasks[u]) {
      if u in s.tasks { assert Created(u, s.tasks[u]) == {}; }
    }
  }

  /** A stream that is up has no start behind it, and was started after every boot still in the queue. */
  lemma PumpingIsUp(s: Session, kind: Kind)
    requires HandlesInv(s) && OrderInv(s) && Pumping(s, kind) && !s.restarting
    ensures forall u | u in s.tasks && Owning(s, u) :: !BringsUpStream(s.tasks[u])
    ensures s.rotations == []
  {
    forall u | u in s.tasks && Owning(s, u) ensures !BringsUpStream(s.tasks[u]) {
      assert Shape(s, u, s.tasks[u]);
    }
  }

  // ---------------------------------------------------------------- every step keeps it

  /** A session that was dropped holds no stream. */
  ghost predicate DroppedIsDown(s: Session) {
    !s.registered ==> forall k | k in s.slots :: k.Helper?
  }

  ghost predicate Inv(s: Session) {
    HandlesInv(s) && OrderInv(s) && DroppedIsDown(s)
  }

  lemma RetireKeeps(s: Session, reason: Reason)
    requires Inv(s)
    ensures Inv(CleanupDeviceState(BumpBootSeq(s, reason)))
    ensures CleanupDeviceState(BumpBootSeq(s, reason)).slots == map[]
    ensures forall t | t in s.tasks :: t.boot < s.bootSeq + 1
  {
    RetireKeepsHandles(s, reason);
    RetireKeepsOrder(s, CleanupDeviceState(BumpBootSeq(s, reason)));
  }

  lemma DeregisterKeeps(s: Session, reason: Reason)
    requires Inv(s)
    ensures Inv(CleanupDeviceState(BumpBootSeq(s, reason)).(registered := false))
  {
    RetireKeepsHandles(s, reason);
    var r := CleanupDeviceState(BumpBootSeq(s, reason));
    RetireKeepsOrder(s, r.(registered := false));
    var s' := r.(registered := false);
    forall h | h in s'.live ensures Accounted(s', h) {
      assert Accounted(r, h);
    }
  }

  lemma BeginBootKeeps(s: Session, requestId: Option<string>)
    requires Inv(s) && s.registered
    ensures Inv(BeginBoot(s, requestId))
  {
    RetireKeeps(s, Superseded);
    var r := CleanupDeviceState(BumpBootSeq(s, Superseded));
    var s' := BeginBoot(s, requestId);
    FirstTaskKeepsOrder(r, s');
    FirstTaskKeepsHandles(r, s');
  }

  lemma BeginRestartKeeps(s: Session, kind: Kind, serial: bool, wsOpen: bool)
    requires Inv(s) && Pumping(s, kind) && !s.restarting
    ensures Inv(BeginRestart(s, serial, wsOpen))
  {
    var s' := BeginRestart(s, serial, wsOpen);
    PumpingIsUp(s, kind);
    if serial {
      RestartKeepsHandles(s, s', kind);
      if s'.tasks != s.tasks { RestartKeepsOrder(s, s'); }
    } else {
      forall h | h in s'.live ensures Accounted(s', h) { assert Accounted(s, h); }
    }
  }

  ghost predicate Loses(s: Session, s': Session, t: Task)
    requires t in s.tasks
  {
    && s'.slots == ReleaseStream(s, Created(t, s.tasks[t])).slots
    && s'.live == s.live - Created(t, s.tasks[t])
    && s'.bootSeq == s.bootSeq && s'.nextRestart == s.nextRestart && s'.rotations == s.rotations
    && s'.registered == s.registered && s'.restarting == s.restarting
    && s'.tasks == s.tasks - {t}
  }

  lemma LosesKeeps(s: Session, s': Session, t: Task)
    requires Inv(s) && t in s.tasks && t.boot < s.bootSeq && !s.tasks[t].Rotating? && Loses(s, s', t)
    ensures Inv(s')
  {
    hide HandlesInv, OrderInv, Created;
    LoseKeepsHandles(s, s', t);
    EndKeepsOrder(s, s', t);
  }

  /** A call whose number was retired. */
  lemma ResumeLostKeeps(s: Session, t: Task, outcome: Outcome)
    requires Inv(s) && Enabled(s, Resume(t, outcome)) && t.boot < s.bootSeq && !s.tasks[t].Rotating?
    ensures Inv(ResumeTask(s, t, outcome))
  {
    hide HandlesInv, OrderInv, Created;
    LosesKeeps(s, ResumeTask(s, t, outcome), t);
  }

  /** What the queue says about everyone else while a boot is at its head. */
  lemma HeadOfQueue(s: Session, t: Task)
    requires Inv(s) && t in s.tasks && s.tasks[t].Rotating? && s.rotations != [] && s.rotations[0] == t.boot
    ensures Helper in s.slots ==> s.slots[Helper].owner.boot < t.boot
    ensures forall u | u in s.tasks && Owning(s, u) :: !PastRotation(s.tasks[u])
    ensures forall q | q in s.rotations[1..] :: q in s.rotations && t.boot < q
    ensures Owning(s, t) ==> Shape(s, t, Normalising)
    ensures forall k | k in s.slots :: s.slots[k].kind == k
  {
    assert t.boot in s.rotations;
    assert Owning(s, t) ==> Shape(s, t, Rotating);
    QueueTail(s.rotations);
  }

  lemma LeaveQueueKeeps(s: Session, m: Session, t: Task)
    requires Inv(s) && t in s.tasks && s.tasks[t].Rotating? && t.BootTask?
    requires s.rotations != [] && s.rotations[0] == t.boot
    requires m == s.(rotations := s.rotations[1..], tasks := s.tasks[t := Normalising])
    ensures Inv(m)
  {
    hide HandlesInv, TasksWellFormed, OneStreamer, QueueOrdered, Shape;
    HeadOfQueue(s, t);
    LeaveQueueKeepsOrder(s, m, t);
    QueueMoveKeepsTasks(s, m, t, Normalising);
    QuietMoveKeepsHandles(s, m, t, Normalising);
  }

  lemma LostHelperKeepsOrder(s: Session, s': Session, t: Task)
    requires Inv(s) && t in s.tasks && t.BootTask? && s.tasks[t].Rotating?
    requires s.rotations != [] && s.rotations[0] == t.boot
    requires s' == s.(rotations := s.rotations[1..], tasks := s.tasks[t := BodyTurning(false)],
                      slots := s.slots[Helper := Handle(Helper, t, false)], live := s.live + {Handle(Helper, t, false)})
    ensures OrderInv(s')
  {
    hide HandlesInv, OrderInv, Shape;
    var m := s.(rotations := s.rotations[1..], tasks := s.tasks[t := Normalising]);
    LeaveQueueKeeps(s, m, t);
    assert s'.tasks == m.tasks[t := BodyTurning(false)];
    MoveKeepsOrder(m, s', t, BodyTurning(false));
  }

  /** A boot whose number was retired while it waited for its rotation goes on to turn the body. */
  lemma LostHelperKeeps(s: Session, s': Session, t: Task)
    requires Inv(s) && t in s.tasks && t.BootTask? && t.boot < s.bootSeq && s.tasks[t].Rotating?
    requires s.rotations != [] && s.rotations[0] == t.boot
    requires s' == s.(rotations := s.rotations[1..], tasks := s.tasks[t := BodyTurning(false)],
                      slots := s.slots[Helper := Handle(Helper, t, false)], live := s.live + {Handle(Helper, t, false)})
    ensures Inv(s')
  {
    hide HandlesInv, OrderInv, Shape;
    LostHelperKeepsOrder(s, s', t);
    HeadOfQueue(s, t);
    LostHelperKeepsHandles(s, s', t, BodyTurning(false));
  }

  /** ... or takes the helper back at once: what is left is the session without the helper it displaced. */
  function WithoutHelper(s: Session, t: Task): Session
    requires s.rotations != []
  {
    s.(rotations := s.rotations[1..], tasks := s.tasks - {t},
       slots := s.slots - {Helper}, live := s.live - {Handle(Helper, t, false)})
  }

  function WithLostHelper(s: Session, t: Task): Session
    requires s.rotations != []
  {
    s.(rotations := s.rotations[1..], tasks := s.tasks[t := BodyTurning(false)],
       slots := s.slots[Helper := Handle(Helper, t, false)], live := s.live + {Handle(Helper, t, false)})
  }

  lemma LostHelperIsTakenBack(s: Session, t: Task)
    requires s.rotations != [] && forall k | k in s.slots :: s.slots[k].kind == k
    ensures Loses(WithLostHelper(s, t), WithoutHelper(s, t), t)
  {
    var d := WithLostHelper(s, t);
    assert WithoutHelper(s, t).slots == ReleaseStream(d, Created(t, d.tasks[t])).slots;
    assert WithoutHelper(s, t).tasks == d.tasks - {t};
  }

  lemma LostReleaseKeeps(s: Session, t: Task)
    requires Inv(s) && t in s.tasks && t.BootTask? && t.boot < s.bootSeq && s.tasks[t].Rotating?
    requires s.rotations != [] && s.rotations[0] == t.boot
    ensures Inv(WithoutHelper(s, t))
  {
    hide HandlesInv, OrderInv, Shape, Loses;
    HeadOfQueue(s, t);
    LostHelperKeeps(s, WithLostHelper(s, t), t);
    LostHelperIsTakenBack(s, t);
    LosesKeeps(WithLostHelper(s, t), WithoutHelper(s, t), t);
  }

  /** The state a boot that loses at the head of the queue without a body turn leaves: its answer goes
      out, and its handles are as `WithoutHelper` says. */
  lemma LostReleaseState(s: Session, t: Task, outcome: Outcome)
    requires Inv(s) && Enabled(s, Resume(t, outcome)) && t.boot < s.bootSeq && s.tasks[t].Rotating?
    requires outcome.next.ScrcpyStarting?
    requires forall k | k in s.slots :: s.slots[k].kind == k
    ensures SameCore(WithoutHelper(s, t), ResumeTask(s, t, outcome))
  {
    hide Inv;
    assert ResumeTask(s, t, outcome).slots == WithoutHelper(s, t).slots;
    assert ResumeTask(s, t, outcome).live == WithoutHelper(s, t).live;
  }

  /** The part of a session the handle invariant reads. */
  ghost predicate SameCore(s: Session, s': Session) {
    && s'.slots == s.slots && s'.live == s.live && s'.tasks == s.tasks && s'.rotations == s.rotations
    && s'.bootSeq == s.bootSeq && s'.nextRestart == s.nextRestart
    && s'.registered == s.registered && s'.restarting == s.restarting
  }

  lemma SameCoreKeeps(s: Session, s': Session)
    requires Inv(s) && SameCore(s, s')
    ensures Inv(s')
  {
    forall h | h in s'.live ensures Accounted(s', h) {
      assert Accounted(s, h);
    }
    forall u | u in s'.tasks && Owning(s', u) ensures Shape(s', u, s'.tasks[u]) {
      assert Shape(s, u, s.tasks[u]);
    }
  }

  lemma ResumeLostRotationKeeps(s: Session, t: Task, outcome: Outcome)
    requires Inv(s) && Enabled(s, Resume(t, outcome)) && t.boot < s.bootSeq && s.tasks[t].Rotating?
    ensures Inv(ResumeTask(s, t, outcome))
  {
    hide HandlesInv, OrderInv, Shape, SameCore;
    var s' := ResumeTask(s, t, outcome);
    match outcome.next
    case Normalising => LeaveQueueKeeps(s, s', t);
    case BodyTurning(_) => LostHelperKeeps(s, s', t);
    case ScrcpyStarting(_) =>
      HeadOfQueue(s, t);
      LostReleaseKeeps(s, t);
      LostReleaseState(s, t, outcome);
      SameCoreKeeps(WithoutHelper(s, t), s');
  }

  // The owner's moves, each with its handles and its order put together.

  /** Everything but the owner's task and the handles stays. */
  ghost predicate MovesTo(s: Session, s': Session, t: Task, next: Pc) {
    && s'.tasks == s.tasks[t := next]
    && s'.bootSeq == s.bootSeq && s'.nextRestart == s.nextRestart && s'.rotations == s.rotations
    && s'.registered == s.registered && s'.restarting == s.restarting
  }

  ghost predicate Owner(s: Session, t: Task) {
    Inv(s) && t in s.tasks && Owning(s, t)
  }

  lemma OwnerIsRegistered(s: Session, t: Task)
    requires Owner(s, t)
    ensures s.registered
    ensures t.RestartTask? ==> t.id < s.nextRestart
    ensures Shape(s, t, s.tasks[t])
    ensures TaskFits(t, s.tasks[t])
  {
  }

  lemma OwnerAlone(s: Session, t: Task)
    requires Owner(s, t) && PastRotation(s.tasks[t]) && BringsUpStream(s.tasks[t])
    ensures StreamsAlone(s, t)
  {
    hide HandlesInv;
    OwnerStreamsAlone(s, t);
  }

  lemma QuietMoveKeeps(s: Session, s': Session, t: Task, next: Pc)
    requires Owner(s, t) && MovesTo(s, s', t, next) && s'.slots == s.slots && s'.live == s.live
    requires TaskFits(t, next) && !next.Rotating? && !s.tasks[t].Rotating?
    requires PastRotation(next) ==> PastRotation(s.tasks[t])
    requires BringsUpStream(next) ==> BringsUpStream(s.tasks[t])
    requires Created(t, next) == Created(t, s.tasks[t]) && Shape(s, t, next)
    ensures Inv(s')
  {
    hide HandlesInv, OrderInv, Created, Shape, TaskFits;
    MoveKeepsOrder(s, s', t, next);
    QuietMoveKeepsHandles(s, s', t, next);
  }

  lemma PublishHelperKeeps(s: Session, s': Session, t: Task, next: Pc, fb: bool)
    requires Owner(s, t) && MovesTo(s, s', t, next)
    requires s.tasks[t].Normalising? || s.tasks[t].Sleeping?
    requires HasHelper(next, fb)
    requires s'.slots == s.slots[Helper := Handle(Helper, t, fb)] && s'.live == s.live + Created(t, next)
    ensures Inv(s')
  {
    hide HandlesInv, OrderInv, Created, Shape;
    OwnerIsRegistered(s, t);
    OwnerAlone(s, t);
    MoveKeepsOrder(s, s', t, next);
    PublishHelperKeepsHandles(s, s', t, next, fb);
  }

  lemma PublishGrpcKeeps(s: Session, s': Session, t: Task)
    requires Owner(s, t) && MovesTo(s, s', t, VideoStarting) && s.tasks[t].SizeReading?
    requires s'.slots == s.slots[Client := Handle(Client, t, false)][Video := Handle(Video, t, false)]
    requires s'.live == s.live
    ensures Inv(s')
  {
    hide HandlesInv, OrderInv, Created, Shape;
    OwnerIsRegistered(s, t);
    OwnerAlone(s, t);
    MoveKeepsOrder(s, s', t, VideoStarting);
    PublishGrpcKeepsHandles(s, s', t);
  }

  lemma SessionCreatedKeeps(s: Session, s': Session, t: Task)
    requires Owner(s, t) && s.tasks[t].BodyTurning? && MovesTo(s, s', t, ScrcpyStarting(s.tasks[t].fallback))
    requires s'.slots == s.slots && s'.live == s.live + {Handle(Scrcpy, t, s.tasks[t].fallback)}
    ensures Inv(s')
  {
    hide HandlesInv, OrderInv, Created, Shape;
    OwnerIsRegistered(s, t);
    OwnerAlone(s, t);
    MoveKeepsOrder(s, s', t, ScrcpyStarting(s.tasks[t].fallback));
    SessionCreatedKeepsHandles(s, s', t);
  }

  lemma FallBackKeeps(s: Session, s': Session, t: Task)
    requires Owner(s, t) && FallsBackOnError(s.tasks[t]) && MovesTo(s, s', t, Normalising)
    requires s'.slots == StopSlots(s, GRPC_KINDS).slots && s'.live == StopSlots(s, GRPC_KINDS).live
    ensures Inv(s')
  {
    hide HandlesInv, OrderInv, Created, Shape;
    OwnerIsRegistered(s, t);
    OwnerAlone(s, t);
    MoveKeepsOrder(s, s', t, Normalising);
    FallBackKeepsHandles(s, s', t);
  }

  lemma OpenSocketKeeps(s: Session, s': Session, t: Task)
    requires Owner(s, t) && t.BootTask? && s.tasks[t].Refreshing? && MovesTo(s, s', t, OpeningWs)
    requires s'.slots == s.slots[StreamWs := Handle(StreamWs, t, false)]
    requires s'.live == s.live + {Handle(StreamWs, t, false)}
    ensures Inv(s')
  {
    hide HandlesInv, Created, Shape;
    OwnerIsRegistered(s, t);
    MoveKeepsOrder(s, s', t, OpeningWs);
    OpenSocketKeepsHandles(s, s', t);
  }

  lemma EnterQueueKeeps(s: Session, s': Session, t: Task)
    requires Owner(s, t) && t.BootTask? && s.tasks[t].OpeningWs?
    requires s' == s.(rotations := s.rotations + [t.boot], tasks := s.tasks[t := Rotating])
    ensures Inv(s')
  {
    hide HandlesInv, TasksWellFormed, QueueOrdered, OneStreamer;
    OwnerIsRegistered(s, t);
    EnterQueueKeepsOrder(s, s', t);
    QueueMoveKeepsTasks(s, s', t, Rotating);
    QuietMoveKeepsHandles(s, s', t, Rotating);
  }

  /** The owner's call is over, or waits for the rest of its boot. */
  ghost predicate Returns(s: Session, s': Session, t: Task) {
    && s'.bootSeq == s.bootSeq && s'.nextRestart == s.nextRestart && s'.rotations == s.rotations
    && s'.registered == s.registered
    && if t.BootTask? then
         s'.restarting == s.restarting
         && (s'.tasks == s.tasks - {t} || s'.tasks == s.tasks[t := Resetting] || s'.tasks == s.tasks[t := AwaitingClears])
       else s'.tasks == s.tasks - {t}
  }

  lemma ReturnKeepsOrder(s: Session, s': Session, t: Task)
    requires Owner(s, t) && Returns(s, s', t) && !s.tasks[t].Rotating?
    requires s'.tasks == s.tasks - {t} || PastRotation(s.tasks[t])
    ensures OrderInv(s')
  {
    hide HandlesInv, OrderInv;
    if s'.tasks == s.tasks - {t} {
      EndKeepsOrder(s, s', t);
    } else if s'.tasks == s.tasks[t := Resetting] {
      MoveKeepsOrder(s, s', t, Resetting);
    } else {
      MoveKeepsOrder(s, s', t, AwaitingClears);
    }
  }

  lemma ScrcpyUpKeeps(s: Session, s': Session, t: Task)
    requires Owner(s, t) && s.tasks[t].ScrcpyStarting? && Returns(s, s', t)
    requires s'.slots == s.slots[Scrcpy := Handle(Scrcpy, t, s.tasks[t].fallback)] && s'.live == s.live
    ensures Inv(s')
  {
    hide HandlesInv, OrderInv, Created, Shape;
    OwnerIsRegistered(s, t);
    OwnerAlone(s, t);
    ReturnKeepsOrder(s, s', t);
    ScrcpyUpKeepsHandles(s, s', t);
  }

  lemma GrpcUpKeeps(s: Session, s': Session, t: Task, audio: bool)
    requires Owner(s, t) && s.tasks[t].Reconciling? && Returns(s, s', t)
    requires s'.slots == if audio then s.slots[Audio := Handle(Audio, t, false)] else s.slots
    requires s'.live == if audio then s.live + {Handle(Audio, t, false)} else s.live
    ensures Inv(s')
  {
    hide HandlesInv, OrderInv, Created, Shape;
    OwnerIsRegistered(s, t);
    OwnerAlone(s, t);
    ReturnKeepsOrder(s, s', t);
    GrpcUpKeepsHandles(s, s', t, audio);
  }

  lemma EndOwnerKeeps(s: Session, s': Session, t: Task)
    requires Owner(s, t) && Returns(s, s', t) && s'.tasks == s.tasks - {t} && !s.tasks[t].Rotating?
    requires Created(t, s.tasks[t]) == {} || s.tasks[t].ScrcpyStarting?
    requires s'.slots == s.slots
    requires s'.live == if s.tasks[t].ScrcpyStarting? then s.live - {Handle(Scrcpy, t, s.tasks[t].fallback)} else s.live
    ensures Inv(s')
  {
    hide HandlesInv, OrderInv, Shape;
    OwnerIsRegistered(s, t);
    if s.tasks[t].ScrcpyStarting? { OwnerAlone(s, t); }
    ReturnKeepsOrder(s, s', t);
    EndOwnerKeepsHandles(s, s', t);
  }

  // The owner's resume, by the await it comes from.

  lemma ResumeThrewKeeps(s: Session, t: Task)
    requires Owner(s, t) && Enabled(s, Resume(t, Threw))
    ensures Inv(ResumeTask(s, t, Threw))
  {
    hide HandlesInv, OrderInv, Shape;
    OwnerIsRegistered(s, t);
    EndOwnerKeeps(s, ResumeTask(s, t, Threw), t);
  }

  lemma ResumeBeforeStreamKeeps(s: Session, t: Task, outcome: Outcome)
    requires Owner(s, t) && Enabled(s, Resume(t, outcome)) && outcome.Go? && BeforeSocket(s.tasks[t])
    ensures Inv(ResumeTask(s, t, outcome))
  {
    hide HandlesInv, OrderInv, Created;
    OwnerIsRegistered(s, t);
    var s' := ResumeTask(s, t, outcome);
    if outcome.next.OpeningWs? {
      OpenSocketKeeps(s, s', t);
    } else {
      NothingCreated(t, s.tasks[t]);
      NothingCreated(t, outcome.next);
      QuietMoveKeeps(s, s', t, outcome.next);
    }
  }

  lemma NothingCreated(t: Task, pc: Pc)
    requires BeforeSocket(pc) || pc.OpeningWs? || pc.Rotating? || pc.Normalising? || pc.Sleeping? || !BringsUpStream(pc)
    ensures Created(t, pc) == {}
  {
  }

  /** The helper an owner publishes on its way to `next`, after a teardown where there is one. */
  lemma PublishState(s: Session, t: Task, next: Pc, fb: bool, audio: bool)
    requires t in s.tasks && HasHelper(next, fb)
    requires !s.tasks[t].BodyTurning?
    ensures var s' := Advance(s, t, next, audio);
            var s0 := FallBack(s, s.tasks[t], next);
            && MovesTo(s, s', t, next)
            && s'.slots == s0.slots[Helper := Handle(Helper, t, fb)]
            && s'.live == s0.live + Created(t, next)
  {
    FallBackState(s, s.tasks[t], next);
    hide FallBack;
  }

  lemma FallBackState(s: Session, pc: Pc, next: Pc)
    ensures var s0 := FallBack(s, pc, next);
            && s0.tasks == s.tasks && s0.bootSeq == s.bootSeq && s0.nextRestart == s.nextRestart
            && s0.rotations == s.rotations && s0.registered == s.registered && s0.restarting == s.restarting
  {
  }

  lemma ResumeRotatingKeeps(s: Session, t: Task, outcome: Outcome)
    requires Owner(s, t) && Enabled(s, Resume(t, outcome)) && s.tasks[t].Rotating?
    ensures Inv(ResumeTask(s, t, outcome))
  {
    hide HandlesInv, OrderInv, Shape, Advance, Created;
    var s' := ResumeTask(s, t, outcome);
    var m := s.(rotations := s.rotations[1..], tasks := s.tasks[t := Normalising]);
    LeaveQueueKeeps(s, m, t);
    if outcome.next.Normalising? {
      TurnTaken(s, t, outcome);
      SameCoreKeeps(m, s');
    } else {
      PublishState(s.(rotations := s.rotations[1..]), t, outcome.next, false, outcome.audio);
      assert s'.tasks == m.tasks[t := outcome.next];
      PublishHelperKeeps(m, s', t, outcome.next, false);
    }
  }

  lemma TurnTaken(s: Session, t: Task, outcome: Outcome)
    requires Enabled(s, Resume(t, outcome)) && s.tasks[t].Rotating? && outcome.next.Normalising?
    requires t.boot == s.bootSeq
    ensures SameCore(s.(rotations := s.rotations[1..], tasks := s.tasks[t := Normalising]), ResumeTask(s, t, outcome))
  {
  }

  /** A gRPC attempt that fails: the teardown, then the helper of the second attempt. */
  lemma ResumeFallBackKeeps(s: Session, t: Task, outcome: Outcome)
    requires Owner(s, t) && Enabled(s, Resume(t, outcome)) && FallsBackOnError(s.tasks[t])
    requires outcome.next.BodyTurning? || outcome.next.ScrcpyStarting?
    ensures Inv(ResumeTask(s, t, outcome))
  {
    hide HandlesInv, OrderInv, Shape, Advance, Created;
    var s' := ResumeTask(s, t, outcome);
    var m := StopSlots(s, GRPC_KINDS).(tasks := s.tasks[t := Normalising]);
    FallBackKeeps(s, m, t);
    PublishState(s, t, outcome.next, true, outcome.audio);
    assert s'.tasks == m.tasks[t := outcome.next];
    PublishHelperKeeps(m, s', t, outcome.next, true);
  }

  lemma ResumeFirstHelperKeeps(s: Session, t: Task, outcome: Outcome)
    requires Owner(s, t) && Enabled(s, Resume(t, outcome)) && outcome.Go?
    requires s.tasks[t].Normalising? || s.tasks[t].Sleeping?
    requires HasHelper(outcome.next, false)
    ensures Inv(ResumeTask(s, t, outcome))
  {
    hide HandlesInv, OrderInv, Shape, Advance, Created;
    PublishState(s, t, outcome.next, false, outcome.audio);
    PublishHelperKeeps(s, ResumeTask(s, t, outcome), t, outcome.next, false);
  }

  lemma ResumeStartKeeps(s: Session, t: Task, outcome: Outcome)
    requires Owner(s, t) && Enabled(s, Resume(t, outcome)) && outcome.Go?
    requires s.tasks[t].OpeningWs? || s.tasks[t].SizeReading? || s.tasks[t].BodyTurning? || outcome.next.Reconciling?
    ensures Inv(ResumeTask(s, t, outcome))
  {
    hide HandlesInv, OrderInv, Shape;
    OwnerIsRegistered(s, t);
    var s' := ResumeTask(s, t, outcome);
    match s.tasks[t]
    case OpeningWs => EnterQueueKeeps(s, s', t);
    case SizeReading => PublishGrpcKeeps(s, s', t);
    case VideoStarting => VideoUpKeeps(s, s', t);
    case BodyTurning(_) => SessionCreatedKeeps(s, s', t);
  }

  lemma ResumeUpKeeps(s: Session, t: Task, outcome: Outcome)
    requires Owner(s, t) && Enabled(s, Resume(t, outcome)) && outcome.Go?
    requires s.tasks[t].ScrcpyStarting? || !BringsUpStream(s.tasks[t]) || (s.tasks[t].Reconciling? && StreamUp(t, outcome.next))
    ensures Inv(ResumeTask(s, t, outcome))
  {
    hide HandlesInv, OrderInv, Shape, ResumeTask;
    OwnerIsRegistered(s, t);
    if BringsUpStream(s.tasks[t]) { ResumeStreamedKeeps(s, t, outcome); } else { ResumeTailKeeps(s, t, outcome); }
  }

  lemma ResumeStreamedKeeps(s: Session, t: Task, outcome: Outcome)
    requires Owner(s, t) && Enabled(s, Resume(t, outcome)) && outcome.Go? && BringsUpStream(s.tasks[t])
    requires s.tasks[t].ScrcpyStarting? || (s.tasks[t].Reconciling? && StreamUp(t, outcome.next))
    ensures Inv(ResumeTask(s, t, outcome))
  {
    hide HandlesInv, OrderInv, Shape;
    var s' := ResumeTask(s, t, outcome);
    if s.tasks[t].Reconciling? { GrpcUpKeeps(s, s', t, outcome.audio); } else { ScrcpyUpKeeps(s, s', t); }
  }

  lemma ResumeTailKeeps(s: Session, t: Task, outcome: Outcome)
    requires Owner(s, t) && Enabled(s, Resume(t, outcome)) && outcome.Go? && !BringsUpStream(s.tasks[t])
    ensures Inv(ResumeTask(s, t, outcome))
  {
    hide HandlesInv, OrderInv, Shape;
    OwnerIsRegistered(s, t);
    var s' := ResumeTask(s, t, outcome);
    if s.tasks[t].Resetting? { BootTailKeeps(s, s', t); } else { EndOwnerKeeps(s, s', t); }
  }

  lemma VideoUpKeeps(s: Session, s': Session, t: Task)
    requires Owner(s, t) && s.tasks[t].VideoStarting? && MovesTo(s, s', t, Reconciling)
    requires s'.slots == s.slots && s'.live == s.live
    ensures Inv(s')
  {
    hide HandlesInv, OrderInv;
    OwnerIsRegistered(s, t);
    QuietMoveKeeps(s, s', t, Reconciling);
  }

  lemma BootTailKeeps(s: Session, s': Session, t: Task)
    requires Owner(s, t) && s.tasks[t].Resetting? && MovesTo(s, s', t, AwaitingClears)
    requires s'.slots == s.slots && s'.live == s.live
    ensures Inv(s')
  {
    hide HandlesInv, OrderInv;
    OwnerIsRegistered(s, t);
    QuietMoveKeeps(s, s', t, AwaitingClears);
  }

  lemma ResumeOwnerKeeps(s: Session, t: Task, outcome: Outcome)
    requires Owner(s, t) && Enabled(s, Resume(t, outcome))
    ensures Inv(ResumeTask(s, t, outcome))
  {
    hide HandlesInv, OrderInv, Shape, ResumeTask, Created;
    OwnerIsRegistered(s, t);
    if outcome.Threw? {
      ResumeThrewKeeps(s, t);
    } else if BeforeSocket(s.tasks[t]) {
      ResumeBeforeStreamKeeps(s, t, outcome);
    } else if s.tasks[t].Rotating? {
      ResumeRotatingKeeps(s, t, outcome);
    } else if FallsBackOnError(s.tasks[t]) && (outcome.next.BodyTurning? || outcome.next.ScrcpyStarting?) {
      ResumeFallBackKeeps(s, t, outcome);
    } else if s.tasks[t].Normalising? || s.tasks[t].Sleeping? {
      ResumeFirstHelperKeeps(s, t, outcome);
    } else if s.tasks[t].ScrcpyStarting? || !BringsUpStream(s.tasks[t]) || s.tasks[t].Reconciling? {
      ResumeUpKeeps(s, t, outcome);
    } else {
      ResumeStartKeeps(s, t, outcome);
    }
  }

  /** Every event keeps the handles accounted for. */
  lemma NextKeeps(s: Session, e: Event)
    requires Inv(s) && Enabled(s, e)
    ensures Inv(Next(s, e))
  {
    hide HandlesInv, ResumeTask, BeginRestart, BeginBoot, OneStreamer, QueueOrdered, CleanupDeviceState, BumpBootSeq;
    match e
    case BootRequest(requestId) => BeginBootKeeps(s, requestId);
    case ShutdownRequest => RetireKeeps(s, ShutDown);
    case Deregister(reason) => DeregisterKeeps(s, reason);
    case StreamEnded(kind, serial, wsOpen) => BeginRestartKeeps(s, kind, serial, wsOpen);
    case Resume(t, outcome) =>
      if t.boot == s.bootSeq {
        ResumeOwnerKeeps(s, t, outcome);
      } else if s.tasks[t].Rotating? {
        ResumeLostRotationKeeps(s, t, outcome);
      } else {
        ResumeLostKeeps(s, t, outcome);
      }
  }

  lemma {:induction false} RunKeeps(events: seq<Event>)
    requires Run(events).Some?
    ensures Inv(Run(events).value)
  {
    if events != [] {
      RunKeeps(events[..|events| - 1]);
      NextKeeps(Run(events[..|events| - 1]).value, events[|events| - 1]);
    }
  }

  // ---------------------------------------------------------------- what the source promises

  /** Over every run: while no start is in flight, the handles that are live are exactly those the
      session's fields point at. */
  lemma LiveHandlesAreTheFields(events: seq<Event>)
    requires Run(events).Some?
    requires var s := Run(events).value; forall t | t in s.tasks :: Created(t, s.tasks[t]) == {}
    ensures var s := Run(events).value; s.live == s.slots.Values
  {
    RunKeeps(events);
    var s := Run(events).value;
    forall h | h in s.live ensures h in s.slots.Values {
      assert Accounted(s, h);
    }
  }

  /** Over every run: a call that lost its number and has returned left nothing running. */
  lemma LoserLeavesNothing(events: seq<Event>, h: Handle)
    requires Run(events).Some?
    requires var s := Run(events).value; h.owner.boot < s.bootSeq && h.owner !in s.tasks
    ensures h !in Run(events).value.live
  {
    RunKeeps(events);
    var s := Run(events).value;
    assert h in s.live ==> Accounted(s, h);
  }

  lemma ReleaseSparesOthers(s: Session, t: Task, outcome: Outcome, k: Kind)
    requires HandlesInv(s) && Enabled(s, Resume(t, outcome)) && t.boot != s.bootSeq && !s.tasks[t].Rotating?
    requires k in s.slots && Owning(s, s.slots[k].owner)
    ensures var s' := ResumeTask(s, t, outcome); Holds(s', s.slots[k]) && s.slots[k] in s'.live
  {
    hide NoneForgotten, OwnersInShape, QueueBeforeStream, LiveAreOld, Created;
    CreatedIsOwned(t, s.tasks[t]);
  }

  lemma LostRotationSparesOthers(s: Session, t: Task, outcome: Outcome, k: Kind)
    requires Inv(s) && Enabled(s, Resume(t, outcome)) && t.boot != s.bootSeq && s.tasks[t].Rotating?
    requires k in s.slots && Owning(s, s.slots[k].owner)
    ensures var s' := ResumeTask(s, t, outcome); Holds(s', s.slots[k]) && s.slots[k] in s'.live
  {
    hide NoneForgotten, OwnersInShape, QueueBeforeStream, LiveAreOld, OrderInv;
    HeadOfQueue(s, t);
    OwnerOrOlder(s, t);
  }

  lemma OwnerOrOlder(s: Session, t: Task)
    requires Inv(s) && t in s.tasks
    ensures t.boot <= s.bootSeq
  {
  }

  /** Over every run: a step of a call that lost neither stops, replaces nor clears a handle that is the
      current one's. */
  lemma LoserSparesTheCurrent(events: seq<Event>, t: Task, outcome: Outcome, k: Kind)
    requires Run(events).Some?
    requires var s := Run(events).value;
             Enabled(s, Resume(t, outcome)) && t.boot != s.bootSeq && k in s.slots && Owning(s, s.slots[k].owner)
    ensures var s := Run(events).value;
            var s' := Next(s, Resume(t, outcome));
            Holds(s', s.slots[k]) && s.slots[k] in s'.live && s.slots[k].kind == k
  {
    RunKeeps(events);
    var s := Run(events).value;
    if s.tasks[t].Rotating? {
      LostRotationSparesOthers(s, t, outcome, k);
    } else {
      ReleaseSparesOthers(s, t, outcome, k);
    }
  }
}
