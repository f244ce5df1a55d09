/**
 Who a gesture belongs to: the backend that took its start, by identity, over streams that replace their
 channels and helpers while fingers are down.
 */
module Gesture {

  import opened Options

  datatype Point = Point(x: int, y: int)

  datatype Kind = Touch | Pinch

  datatype Backend = Channel(id: nat) | Helper(id: nat)

  datatype Open = Open(kind: Kind, backend: Backend)

  /** What an adb helper has gathered of a touch. */
  datatype Gathered = Gathered(touching: bool, start: Point, last: Point)

  /** What reaches the device: a pointer call on a channel, or a whole touch injected over adb. */
  datatype Effect =
    | Down(channel: nat, at: Point)
    | Moved(channel: nat, at: Point)
    | Up(channel: nat, at: Point)
    | Cancelled(channel: nat, at: Point)
    | PinchDown(channel: nat, at: Point, other: Point)
    | PinchMoved(channel: nat, at: Point, other: Point)
    | PinchUp(channel: nat)
    | Injected(helper: nat, from: Point, to: Point)

  /** `Dispatched` is the backend's own answer, delivered or failed. */
  datatype Outcome = Dispatched | NoGesture | ChannelDown | Unsupported

  /** One session: the two kinds of channel, those that are ready, the adb helper and what helpers have
      gathered, whether the video size is known, the open gesture and the last channel position. */
  datatype Session = Session(
    grpc: Option<nat>,
    scrcpy: Option<nat>,
    ready: set<nat>,
    helper: Option<nat>,
    gathered: map<nat, Gathered>,
    sized: bool,
    gesture: Option<Open>,
    lastPx: Point,
    nextId: nat)

  datatype Event =
    | Start(kind: Kind, at: Point, other: Point)
    | Move(kind: Kind, at: Point, other: Point)
    | End(kind: Kind)
    | Cancel
    | NewGrpc | DropGrpc
    | NewScrcpy | DropScrcpy
    | NewHelper | DropHelper
    | Ready(channel: nat, up: bool)
    | Size(known: bool)
    | CleanUp

  /** A step's new state, what it sent, and its answer when the request has one. */
  datatype Step = Step(state: Session, effects: seq<Effect>, answer: Option<Outcome>)

  /** The channel that serves now. */
  function PointerControl(s: Session): Option<nat> {
    if s.grpc.Some? then s.grpc else s.scrcpy
  }

  function Chosen(s: Session): Option<Backend> {
    if PointerControl(s).Some? && s.sized then Some(Channel(PointerControl(s).value))
    else if s.helper.Some? then Some(Helper(s.helper.value))
    else None
  }

  function OpenGesture(s: Session, kind: Kind): Session {
    s.(gesture := if Chosen(s).Some? then Some(Open(kind, Chosen(s).value)) else None)
  }

  /** Whether this backend serves the session now. */
  predicate Serves(s: Session, b: Backend) {
    match b
    case Channel(id) => PointerControl(s) == Some(id)
    case Helper(id) => s.helper == Some(id)
  }

  /** The open gesture's backend, if it is of this kind and still serves. */
  function GestureOwner(s: Session, kind: Kind): Option<Backend> {
    if s.gesture.Some? && s.gesture.value.kind == kind && Serves(s, s.gesture.value.backend)
    then Some(s.gesture.value.backend) else None
  }

  /** The end's own backend, or the answer there is without one; `release` is what lets go of a pointer that
      went down on a channel since replaced. */
  datatype Closed = Own(backend: Backend) | Lost(outcome: Outcome, release: Option<nat>)

  function CloseGesture(s: Session, kind: Kind): (Session, Closed) {
    if s.gesture.Some? && s.gesture.value.kind != kind then (s, Lost(NoGesture, None))
    else
      var t := s.(gesture := None);
      var owner := GestureOwner(s, kind);
      if owner.Some? then (t, Own(owner.value))
      else
        var control := PointerControl(s);
        var release := if s.gesture.Some? && s.gesture.value.backend.Channel? then control else None;
        (t, Lost(if s.gesture.None? && control.None? && s.helper.None? then ChannelDown else NoGesture, release))
  }

  const NOTHING := Gathered(false, Point(0, 0), Point(0, 0))

  function GatheredBy(s: Session, h: nat): Gathered {
    if h in s.gathered then s.gathered[h] else NOTHING
  }

  /** What lets go of a gesture of this kind. */
  function Release(kind: Kind, channel: nat, at: Point): Effect {
    if kind.Touch? then Up(channel, at) else PinchUp(channel)
  }

  function Started(s: Session, kind: Kind, at: Point, other: Point): Step {
    var t := OpenGesture(s, kind);
    match Chosen(s)
    case None => Step(t, [], None)
    case Some(Helper(h)) =>
      Step(if kind.Touch? then t.(gathered := t.gathered[h := Gathered(true, at, at)]) else t, [], None)
    case Some(Channel(c)) =>
      Step(if kind.Touch? then t.(lastPx := at) else t, [if kind.Touch? then Down(c, at) else PinchDown(c, at, other)], None)
  }

  function MovedTo(s: Session, kind: Kind, at: Point, other: Point): Step {
    match GestureOwner(s, kind)
    case None => Step(s, [], None)
    case Some(Helper(h)) =>
      Step(if kind.Touch? then s.(gathered := s.gathered[h := GatheredBy(s, h).(last := at)]) else s, [], None)
    case Some(Channel(c)) =>
      Step(if kind.Touch? then s.(lastPx := at) else s, [if kind.Touch? then Moved(c, at) else PinchMoved(c, at, other)], None)
  }

  /** The helper's end: nothing without a touch, else the touch as it was gathered. */
  function HelperEnded(s: Session, h: nat, kind: Kind): Step {
    var g := GatheredBy(s, h);
    if kind.Pinch? then Step(s, [], Some(Unsupported))
    else if !g.touching then Step(s, [], Some(NoGesture))
    else Step(s.(gathered := s.gathered[h := g.(touching := false)]), [Injected(h, g.start, g.last)], Some(Dispatched))
  }

  function EndedAt(s: Session, kind: Kind): Step {
    var (t, closed) := CloseGesture(s, kind);
    match closed
    case Lost(outcome, release) =>
      Step(t, if release.Some? then [Release(kind, release.value, s.lastPx)] else [], Some(outcome))
    case Own(Helper(h)) => HelperEnded(t, h, kind)
    case Own(Channel(c)) =>
      if c in s.ready then Step(t, [Release(kind, c, s.lastPx)], Some(Dispatched)) else Step(t, [], Some(ChannelDown))
  }

  function CancelledAt(s: Session): Step {
    var (t, closed) := CloseGesture(s, Touch);
    match closed
    case Lost(_, release) =>
      Step(t, if release.Some? then [Cancelled(release.value, s.lastPx)] else [], None)
    case Own(Helper(h)) => Step(t.(gathered := t.gathered[h := GatheredBy(t, h).(touching := false)]), [], None)
    case Own(Channel(c)) => Step(t, if c in s.ready then [Cancelled(c, s.lastPx)] else [], None)
  }

  /** A dropped helper is stopped, and forgets its touch. */
  function Dropped(s: Session): Session {
    if s.helper.None? then s
    else s.(helper := None, gathered := s.gathered[s.helper.value := GatheredBy(s, s.helper.value).(touching := false)])
  }

  function Next(s: Session, e: Event): Step {
    match e
    case Start(kind, at, other) => Started(s, kind, at, other)
    case Move(kind, at, other) => MovedTo(s, kind, at, other)
    case End(kind) => EndedAt(s, kind)
    case Cancel => CancelledAt(s)
    case NewGrpc => Step(s.(grpc := Some(s.nextId), nextId := s.nextId + 1), [], None)
    case DropGrpc => Step(s.(grpc := None), [], None)
    case NewScrcpy => Step(s.(scrcpy := Some(s.nextId), nextId := s.nextId + 1), [], None)
    case DropScrcpy => Step(s.(scrcpy := None), [], None)
    case NewHelper => Step(s.(helper := Some(s.nextId), nextId := s.nextId + 1), [], None)
    case DropHelper => Step(Dropped(s), [], None)
    case Ready(c, up) => Step(s.(ready := if up then s.ready + {c} else s.ready - {c}), [], None)
    case Size(known) => Step(s.(sized := known), [], None)
    case CleanUp => Step(Dropped(s).(grpc := None, scrcpy := None, gesture := None), [], None)
  }

  function Run(s: Session, es: seq<Event>): Session
    decreases |es|
  {
    if es == [] then s else Run(Next(s, es[0]).state, es[1..])
  }

  const NEW := Session(None, None, {}, None, map[], false, None, Point(0, 0), 0)

  // ---------------------------------------------------------------- over any run

  /** Objects are named once, as they are made. */
  ghost predicate Named(s: Session) {
    && (s.grpc.Some? ==> s.grpc.value < s.nextId)
    && (s.scrcpy.Some? ==> s.scrcpy.value < s.nextId)
    && (s.helper.Some? ==> s.helper.value < s.nextId)
    && (s.gesture.Some? ==> s.gesture.value.backend.id < s.nextId)
    && (s.grpc.Some? && s.scrcpy.Some? ==> s.grpc != s.scrcpy)
    && (s.grpc.Some? ==> s.grpc != s.helper)
    && (s.scrcpy.Some? ==> s.scrcpy != s.helper)
  }

  lemma InputIsNamed(s: Session, e: Event)
    requires Named(s) && (e.Start? || e.Move?)
    ensures Named(Next(s, e).state)
  {
  }

  lemma CloseIsNamed(s: Session, e: Event)
    requires Named(s) && (e.End? || e.Cancel?)
    ensures Named(Next(s, e).state)
  {
  }

  lemma NextIsNamed(s: Session, e: Event)
    requires Named(s)
    ensures Named(Next(s, e).state)
  {
    hide Started, MovedTo, EndedAt, CancelledAt;
    if e.Start? || e.Move? { InputIsNamed(s, e); }
    if e.End? || e.Cancel? { CloseIsNamed(s, e); }
  }

  lemma {:induction false} RunIsNamed(s: Session, es: seq<Event>)
    requires Named(s)
    ensures Named(Run(s, es))
    decreases |es|
  {
    hide Named, Next;
    if es != [] {
      NextIsNamed(s, es[0]);
      RunIsNamed(Next(s, es[0]).state, es[1..]);
    }
  }

  /** Every session a run reaches names each channel and helper once. */
  lemma ObjectsAreNamedOnce(es: seq<Event>)
    ensures Named(Run(NEW, es))
  {
    RunIsNamed(NEW, es);
  }

  /** Neither opens a gesture nor closes one of this kind. */
  predicate Leaves(e: Event, kind: Kind) {
    !e.Start? && !(e.End? && e.kind == kind) && !(e.Cancel? && kind.Touch?) && !e.CleanUp?
  }

  ghost predicate AllLeave(es: seq<Event>, kind: Kind) {
    forall e | e in es :: Leaves(e, kind)
  }

  /** The last point a touch that began at `at` was moved to while its backend served. */
  function LastPoint(s: Session, es: seq<Event>, b: Backend, at: Point): Point
    decreases |es|
  {
    if es == [] then at
    else LastPoint(Next(s, es[0]).state, es[1..], b, if es[0].Move? && es[0].kind.Touch? && Serves(s, b) then es[0].at else at)
  }

  /** Where an open touch stands on its backend, as long as a helper is the one that took it. */
  ghost predicate Stands(s: Session, b: Backend, start: Point, last: Point) {
    match b
    case Channel(_) => s.lastPx == last
    case Helper(h) => s.helper == Some(h) ==> GatheredBy(s, h) == Gathered(true, start, last)
  }

  ghost predicate Held(s: Session, kind: Kind, b: Backend) {
    Named(s) && s.gesture == Some(Open(kind, b))
  }

  lemma LeavesHeld(s: Session, e: Event, kind: Kind, b: Backend)
    requires Held(s, kind, b) && Leaves(e, kind)
    ensures Held(Next(s, e).state, kind, b)
  {
    NextIsNamed(s, e);
  }

  lemma LeavesStanding(s: Session, e: Event, b: Backend, start: Point, last: Point)
    requires Held(s, Touch, b) && Leaves(e, Touch) && Stands(s, b, start, last)
    ensures Stands(Next(s, e).state, b, start, if e.Move? && e.kind.Touch? && Serves(s, b) then e.at else last)
  {
  }

  lemma {:induction false} RunHolds(s: Session, es: seq<Event>, kind: Kind, b: Backend)
    requires Held(s, kind, b) && AllLeave(es, kind)
    ensures Held(Run(s, es), kind, b)
    decreases |es|
  {
    hide Held, Next, Leaves;
    if es != [] {
      LeavesHeld(s, es[0], kind, b);
      RunHolds(Next(s, es[0]).state, es[1..], kind, b);
    }
  }

  lemma {:induction false} RunStands(s: Session, es: seq<Event>, b: Backend, start: Point, last: Point)
    requires Held(s, Touch, b) && AllLeave(es, Touch) && Stands(s, b, start, last)
    ensures Stands(Run(s, es), b, start, LastPoint(s, es, b, last))
    decreases |es|
  {
    hide Held, Next, Leaves, Stands, Serves;
    if es != [] {
      var now := if es[0].Move? && es[0].kind.Touch? && Serves(s, b) then es[0].at else last;
      LeavesHeld(s, es[0], Touch, b);
      LeavesStanding(s, es[0], b, start, last);
      RunStands(Next(s, es[0]).state, es[1..], b, start, now);
    }
  }

  /** An end, whatever came between it and the start but a start, an end or cancel of its kind, or a clean-up:
      dispatched as the gesture's own exactly when the backend that took the start serves now; otherwise a
      pointer that went down on a channel is let go on the channel that serves now, if one does. */
  lemma EndAfterStart(s0: Session, kind: Kind, at: Point, other: Point, es: seq<Event>)
    requires Named(s0) && AllLeave(es, kind) && Chosen(s0).Some?
    ensures var s := Run(Next(s0, Start(kind, at, other)).state, es);
            var b := Chosen(s0).value;
            var end := Next(s, End(kind));
            && end.state.gesture.None?
            && (!Serves(s, b) ==> end.answer == Some(NoGesture))
            && (!Serves(s, b) ==>
                  end.effects == if b.Channel? && PointerControl(s).Some? then [Release(kind, PointerControl(s).value, s.lastPx)] else [])
            && (Serves(s, b) && b.Channel? ==>
                  if b.id in s.ready then end.effects == [Release(kind, b.id, s.lastPx)] && end.answer == Some(Dispatched)
                  else end.effects == [] && end.answer == Some(ChannelDown))
            && (Serves(s, b) && b.Helper? && kind.Pinch? ==> end.effects == [] && end.answer == Some(Unsupported))
  {
    var s1 := Next(s0, Start(kind, at, other)).state;
    OpensOn(s0, kind, at, other);
    RunHolds(s1, es, kind, Chosen(s0).value);
  }

  lemma OpensOn(s: Session, kind: Kind, at: Point, other: Point)
    requires Named(s) && Chosen(s).Some?
    ensures Held(Next(s, Start(kind, at, other)).state, kind, Chosen(s).value)
    ensures kind.Touch? ==> Stands(Next(s, Start(kind, at, other)).state, Chosen(s).value, at, at)
  {
    NextIsNamed(s, Start(kind, at, other));
  }

  /** A touch's own end lands where the touch was last moved: on its channel as an up there, on its helper as
      one injection from its start to there. */
  lemma TouchEndsWhereItIs(s0: Session, at: Point, other: Point, es: seq<Event>)
    requires Named(s0) && AllLeave(es, Touch) && Chosen(s0).Some?
    ensures var s1 := Next(s0, Start(Touch, at, other)).state;
            var s := Run(s1, es);
            var b := Chosen(s0).value;
            var last := LastPoint(s1, es, b, at);
            var end := Next(s, End(Touch));
            Serves(s, b) ==>
              match b
              case Channel(c) => end.effects == if c in s.ready then [Up(c, last)] else []
              case Helper(h) =>
                end.effects == [Injected(h, at, last)] && end.answer == Some(Dispatched) && !GatheredBy(end.state, h).touching
  {
    var s1 := Next(s0, Start(Touch, at, other)).state;
    OpensOn(s0, Touch, at, other);
    RunHolds(s1, es, Touch, Chosen(s0).value);
    RunStands(s1, es, Chosen(s0).value, at, at);
  }

  /** A move reaches the backend that took the start, while it serves, and no other. */
  lemma MoveAfterStart(s0: Session, kind: Kind, at: Point, other: Point, es: seq<Event>, to: Point, to2: Point)
    requires Named(s0) && AllLeave(es, kind) && Chosen(s0).Some?
    ensures var s := Run(Next(s0, Start(kind, at, other)).state, es);
            var b := Chosen(s0).value;
            Next(s, Move(kind, to, to2)).effects ==
              if Serves(s, b) && b.Channel? then [if kind.Touch? then Moved(b.id, to) else PinchMoved(b.id, to, to2)] else []
  {
    OpensOn(s0, kind, at, other);
    RunHolds(Next(s0, Start(kind, at, other)).state, es, kind, Chosen(s0).value);
  }

  // ---------------------------------------------------------------- after a gesture is closed

  predicate NotOpen(s: Session, kind: Kind) {
    s.gesture.Some? ==> s.gesture.value.kind != kind
  }

  /** Leaves no gesture of this kind open. */
  predicate Closes(s: Session, e: Event, kind: Kind) {
    || (e.End? && e.kind == kind)
    || (e.Cancel? && kind.Touch?)
    || e.CleanUp?
    || (e.Start? && (e.kind != kind || Chosen(s).None?))
  }

  lemma {:induction false} StaysClosed(s: Session, es: seq<Event>, kind: Kind)
    requires NotOpen(s, kind) && forall e | e in es :: !e.Start?
    ensures NotOpen(Run(s, es), kind)
    decreases |es|
  {
    if es != [] { StaysClosed(Next(s, es[0]).state, es[1..], kind); }
  }

  /** An end after an end, a cancel, a clean-up, a start of the other kind or one that no backend took, with
      no start between, sends nothing anywhere and is answered as no gesture, or as no channel when there is no backend at all. */
  lemma EndAfterClose(s0: Session, closing: Event, es: seq<Event>, kind: Kind)
    requires Closes(s0, closing, kind) && forall e | e in es :: !e.Start?
    ensures var s := Run(Next(s0, closing).state, es);
            var end := Next(s, End(kind));
            && end.effects == []
            && end.answer == Some(if s.gesture.None? && PointerControl(s).None? && s.helper.None? then ChannelDown else NoGesture)
  {
    StaysClosed(Next(s0, closing).state, es, kind);
  }

  /** A cancel lets go as an end does, but completes nothing: at most one cancel on a channel, and no touch
      injected; a helper's touch is forgotten. */
  lemma CancelCompletesNothing(s0: Session, at: Point, other: Point, es: seq<Event>)
    requires Named(s0) && AllLeave(es, Touch) && Chosen(s0).Some?
    ensures var s := Run(Next(s0, Start(Touch, at, other)).state, es);
            var b := Chosen(s0).value;
            var cancel := Next(s, Cancel);
            && cancel.state.gesture.None?
            && cancel.effects ==
                 (if b.Channel? && PointerControl(s).Some? && (Serves(s, b) ==> b.id in s.ready)
                  then [Cancelled(PointerControl(s).value, s.lastPx)] else [])
            && (b.Helper? && Serves(s, b) ==> !GatheredBy(cancel.state, b.id).touching)
  {
    OpensOn(s0, Touch, at, other);
    RunHolds(Next(s0, Start(Touch, at, other)).state, es, Touch, Chosen(s0).value);
  }

  // ---------------------------------------------------------------- a whole gesture

  /** All that a run sends. */
  function Sent(s: Session, es: seq<Event>): seq<Effect>
    decreases |es|
  {
    if es == [] then [] else Next(s, es[0]).effects + Sent(Next(s, es[0]).state, es[1..])
  }

  /** The moves of this kind, as pointer calls on a channel. */
  function MovesOn(es: seq<Event>, kind: Kind, channel: nat): seq<Effect>
    decreases |es|
  {
    if es == [] then []
    else
      (match es[0]
       case Move(k, at, other) => if k != kind then [] else if kind.Touch? then [Moved(channel, at)] else [PinchMoved(channel, at, other)]
       case _ => [])
      + MovesOn(es[1..], kind, channel)
  }

  /** Where a touch is after these moves. */
  function MovedPoint(es: seq<Event>, at: Point): Point
    decreases |es|
  {
    if es == [] then at else MovedPoint(es[1..], if es[0].Move? && es[0].kind.Touch? then es[0].at else at)
  }

  /** Nothing but moves. */
  ghost predicate OnlyMoves(es: seq<Event>) {
    forall e | e in es :: e.Move?
  }

  /** Moves change the positions, and nothing a gesture is dispatched by. */
  ghost predicate SameBackends(s: Session, t: Session) {
    t == s.(gathered := t.gathered, lastPx := t.lastPx)
  }

  lemma {:induction false} MovesOnChannel(s: Session, es: seq<Event>, kind: Kind, c: nat)
    requires s.gesture == Some(Open(kind, Channel(c))) && PointerControl(s) == Some(c) && OnlyMoves(es)
    ensures Sent(s, es) == MovesOn(es, kind, c)
    ensures SameBackends(s, Run(s, es))
    ensures kind.Touch? ==> Run(s, es).lastPx == MovedPoint(es, s.lastPx)
    decreases |es|
  {
    if es != [] {
      assert es[0] in es;
      MovesOnChannel(Next(s, es[0]).state, es[1..], kind, c);
    }
  }

  lemma {:induction false} MovesOnHelper(s: Session, es: seq<Event>, kind: Kind, h: nat)
    requires s.gesture == Some(Open(kind, Helper(h))) && s.helper == Some(h) && OnlyMoves(es)
    ensures Sent(s, es) == [] && SameBackends(s, Run(s, es))
    ensures kind.Touch? ==> GatheredBy(Run(s, es), h) == GatheredBy(s, h).(last := MovedPoint(es, GatheredBy(s, h).last))
    decreases |es|
  {
    if es != [] {
      assert es[0] in es;
      MovesOnHelper(Next(s, es[0]).state, es[1..], kind, h);
    }
  }

  lemma {:induction false} MovesOnNothing(s: Session, es: seq<Event>)
    requires s.gesture.None? && OnlyMoves(es)
    ensures Sent(s, es) == [] && Run(s, es) == s
    decreases |es|
  {
    if es != [] {
      assert es[0] in es;
      MovesOnNothing(Next(s, es[0]).state, es[1..]);
    }
  }

  /** The same gesture, told in one go. */
  function Gestured(s: Session, kind: Kind, at: Point, other: Point, moves: seq<Event>): (seq<Effect>, Option<Outcome>) {
    var begun := Next(s, Start(kind, at, other));
    var ended := Next(Run(begun.state, moves), End(kind));
    (begun.effects + Sent(begun.state, moves) + ended.effects, ended.answer)
  }

  /** A gesture nothing disturbs, on any session. With the size known it is pressed, moved and let go on the gRPC
      channel, or without one on the scrcpy channel, point by point, and ends only where the channel is ready.
      Otherwise a touch is one injection by the helper, and a pinch nothing; and where there is no backend
      nothing is sent and the channel is said to be down. */
  lemma UndisturbedGesture(s: Session, kind: Kind, at: Point, other: Point, moves: seq<Event>)
    requires OnlyMoves(moves)
    ensures var (sent, answer) := Gestured(s, kind, at, other, moves);
            var last := MovedPoint(moves, at);
            var channel := if s.grpc.Some? then s.grpc else s.scrcpy;
            if s.sized && channel.Some? then
              var c := channel.value;
              var up := if c !in s.ready then [] else if kind.Touch? then [Up(c, last)] else [PinchUp(c)];
              && sent == [if kind.Touch? then Down(c, at) else PinchDown(c, at, other)] + MovesOn(moves, kind, c) + up
              && answer == Some(if c in s.ready then Dispatched else ChannelDown)
            else if s.helper.Some? then
              if kind.Touch? then sent == [Injected(s.helper.value, at, last)] && answer == Some(Dispatched)
              else sent == [] && answer == Some(Unsupported)
            else
              sent == [] && answer == Some(if channel.None? then ChannelDown else NoGesture)
  {
    var begun := Next(s, Start(kind, at, other));
    var channel := if s.grpc.Some? then s.grpc else s.scrcpy;
    if s.sized && channel.Some? {
      MovesOnChannel(begun.state, moves, kind, channel.value);
    } else if s.helper.Some? {
      MovesOnHelper(begun.state, moves, kind, s.helper.value);
    } else {
      MovesOnNothing(begun.state, moves);
    }
  }

  // ---------------------------------------------------------------- backends that are gone

  /** The channels and the helper the session has. */
  predicate Has(s: Session, b: Backend) {
    match b
    case Channel(c) => s.grpc == Some(c) || s.scrcpy == Some(c)
    case Helper(h) => s.helper == Some(h)
  }

  /** The backend is dropped, replaced or cleaned up. */
  predicate Drops(s: Session, e: Event, b: Backend) {
    match e
    case NewGrpc | DropGrpc => b.Channel? && s.grpc == Some(b.id)
    case NewScrcpy | DropScrcpy => b.Channel? && s.scrcpy == Some(b.id)
    case NewHelper | DropHelper => b.Helper? && s.helper == Some(b.id)
    case CleanUp => Has(s, b)
    case _ => false
  }

  function Target(x: Effect): Backend {
    match x
    case Injected(h, _, _) => Helper(h)
    case _ => Channel(x.channel)
  }

  lemma SendsToItsOwn(s: Session, e: Event)
    ensures forall x | x in Next(s, e).effects :: Has(s, Target(x))
  {
  }

  lemma StaysGone(s: Session, e: Event, b: Backend)
    requires Named(s) && b.id < s.nextId && (!Has(s, b) || Drops(s, e, b))
    ensures b.id < Next(s, e).state.nextId && !Has(Next(s, e).state, b)
  {
    hide Started, MovedTo, EndedAt, CancelledAt;
    if e.Start? || e.Move? { InputKeepsBackends(s, e); }
    if e.End? || e.Cancel? { CloseKeepsBackends(s, e); }
  }

  ghost predicate SameFields(s: Session, t: Session) {
    t.grpc == s.grpc && t.scrcpy == s.scrcpy && t.helper == s.helper && t.nextId == s.nextId && t.ready == s.ready && t.sized == s.sized
  }

  lemma InputKeepsBackends(s: Session, e: Event)
    requires e.Start? || e.Move?
    ensures SameFields(s, Next(s, e).state)
  {
  }

  lemma CloseKeepsBackends(s: Session, e: Event)
    requires e.End? || e.Cancel?
    ensures SameFields(s, Next(s, e).state)
  {
  }

  /** Whether a channel is ready, by the last event that says. */
  function ReadyBy(es: seq<Event>, s: Session, c: nat): bool
    decreases |es|
  {
    if es == [] then c in s.ready
    else if es[|es| - 1].Ready? && es[|es| - 1].channel == c then es[|es| - 1].up
    else ReadyBy(es[..|es| - 1], s, c)
  }

  /** Whether the video size is known, by the last event that says. */
  function SizedBy(es: seq<Event>, s: Session): bool
    decreases |es|
  {
    if es == [] then s.sized else if es[|es| - 1].Size? then es[|es| - 1].known else SizedBy(es[..|es| - 1], s)
  }

  lemma {:induction false} RunOneMore(s: Session, es: seq<Event>, e: Event)
    ensures Run(s, es + [e]) == Next(Run(s, es), e).state
    decreases |es|
  {
    hide Next;
    if es == [] {
      assert ([] + [e])[1..] == [];
      assert Run(Next(s, e).state, []) == Next(s, e).state;
    } else {
      assert (es + [e])[1..] == es[1..] + [e];
      RunOneMore(Next(s, es[0]).state, es[1..], e);
    }
  }

  lemma NextSays(s: Session, e: Event, c: nat)
    ensures c in Next(s, e).state.ready <==> if e.Ready? && e.channel == c then e.up else c in s.ready
    ensures Next(s, e).state.sized == if e.Size? then e.known else s.sized
  {
    hide Started, MovedTo, EndedAt, CancelledAt;
    if e.Start? || e.Move? { InputKeepsBackends(s, e); }
    if e.End? || e.Cancel? { CloseKeepsBackends(s, e); }
  }

  /** Over every run: a channel is taken as ready, and the size as known, as last said. */
  lemma {:induction false} StandsAsSaid(s: Session, es: seq<Event>, c: nat)
    ensures c in Run(s, es).ready <==> ReadyBy(es, s, c)
    ensures Run(s, es).sized == SizedBy(es, s)
    decreases |es|
  {
    hide Run, Next;
    if es == [] {
      assert Run(s, es) == s by { RunOfNothing(s); }
    } else {
      var front, e := es[..|es| - 1], es[|es| - 1];
      assert front + [e] == es;
      RunOneMore(s, front, e);
      NextSays(Run(s, front), e, c);
      StandsAsSaid(s, front, c);
    }
  }

  lemma RunOfNothing(s: Session)
    ensures Run(s, []) == s
  {
  }

  lemma {:induction false} GoneGetsNothing(s: Session, es: seq<Event>, b: Backend)
    requires Named(s) && b.id < s.nextId && !Has(s, b)
    ensures forall x | x in Sent(s, es) :: Target(x) != b
    decreases |es|
  {
    hide Named, Next, Has, Drops, Target;
    if es != [] {
      SendsToItsOwn(s, es[0]);
      StaysGone(s, es[0], b);
      NextIsNamed(s, es[0]);
      GoneGetsNothing(Next(s, es[0]).state, es[1..], b);
    }
  }

  /** Over every run: a channel or a helper that is dropped, replaced or cleaned up gets nothing from then on,
      whatever gesture it took. */
  lemma DroppedGetsNothing(es: seq<Event>, e: Event, b: Backend, later: seq<Event>)
    requires Drops(Run(NEW, es), e, b)
    ensures var step := Next(Run(NEW, es), e);
            forall x | x in step.effects + Sent(step.state, later) :: Target(x) != b
  {
    hide Next, Run;
    var s := Run(NEW, es);
    ObjectsAreNamedOnce(es);
    DropsSendNothing(s, e, b);
    StaysGone(s, e, b);
    NextIsNamed(s, e);
    GoneGetsNothing(Next(s, e).state, later, b);
  }

  lemma DropsSendNothing(s: Session, e: Event, b: Backend)
    requires Named(s) && Drops(s, e, b)
    ensures Next(s, e).effects == [] && b.id < s.nextId
  {
  }
}
