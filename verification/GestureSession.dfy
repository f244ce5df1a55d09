/**
 Gestures as the session handles them, and the adb helper that gathers a touch until its end.
 */
module GestureSession {

  import opened Options
  import opened Gesture

  class TouchHelper {
    const id: nat
    var touching: bool
    var start: Point
    var last: Point

    constructor (id: nat)
      ensures this.id == id && G() == NOTHING
    {
      this.id := id;
      touching, start, last := false, Point(0, 0), Point(0, 0);
    }

    ghost function G(): Gathered
      reads this
    {
      Gathered(touching, start, last)
    }

    method TouchStart(at: Point)
      modifies this
      ensures G() == Gathered(true, at, at)
    {
      touching, start, last := true, at, at;
    }

    method TouchMove(at: Point)
      modifies this
      ensures G() == old(G()).(last := at)
    {
      last := at;
    }

    /** `touchCancel` and `stop`. */
    method Forget()
      modifies this
      ensures G() == old(G()).(touching := false)
    {
      touching := false;
    }

    /** The touch to inject, taken before anything awaits. */
    method TouchEnd() returns (injected: Option<(Point, Point)>)
      modifies this
      ensures injected == if old(touching) then Some((old(start), old(last))) else None
      ensures G() == old(G()).(touching := false)
    {
      if !touching { return None; }
      touching := false;
      injected := Some((start, last));
    }
  }

  class DeviceGestures {
    var grpc: Option<nat>
    var scrcpy: Option<nat>
    var ready: set<nat>
    var helper: TouchHelper?
    var sized: bool
    var gesture: Option<Open>
    var lastPx: Point
    /** Everything sent to the device so far. */
    var sent: seq<Effect>

    constructor (helper: TouchHelper?)
      ensures this.helper == helper && gesture.None? && sent == []
    {
      grpc, scrcpy, ready, sized, gesture, lastPx, sent := None, None, {}, false, None, Point(0, 0), [];
      this.helper := helper;
    }

    /** The session as the model has it; what a replaced helper gathered is gone with it. */
    ghost function View(): Session
      reads this, helper
    {
      Session(grpc, scrcpy, ready, if helper == null then None else Some(helper.id),
              if helper == null then map[] else map[helper.id := helper.G()], sized, gesture, lastPx, 0)
    }

    method Serving() returns (control: Option<nat>)
      ensures control == PointerControl(View())
    {
      control := if grpc.Some? then grpc else scrcpy;
    }

    method Send(e: Effect)
      modifies this`sent
      ensures sent == old(sent) + [e]
    {
      sent := sent + [e];
    }

    method BeginGesture(kind: Kind) returns (backend: Option<Backend>)
      modifies this`gesture
      ensures View() == OpenGesture(old(View()), kind)
      ensures backend == Chosen(old(View()))
    {
      var control := Serving();
      backend := if control.Some? && sized then Some(Channel(control.value))
                 else if helper != null then Some(Helper(helper.id)) else None;
      gesture := if backend.Some? then Some(Open(kind, backend.value)) else None;
    }

    method Owner(kind: Kind) returns (backend: Option<Backend>)
      ensures backend == GestureOwner(View(), kind)
    {
      if gesture.None? || gesture.value.kind != kind { return None; }
      var control := Serving();
      var current := match gesture.value.backend
        case Channel(c) => control == Some(c)
        case Helper(h) => helper != null && helper.id == h;
      backend := if current then Some(gesture.value.backend) else None;
    }

    /** The record is released before anything awaits. */
    method EndGesture(kind: Kind) returns (closed: Closed)
      modifies this`gesture
      ensures (View(), closed) == CloseGesture(old(View()), kind)
    {
      if gesture.Some? && gesture.value.kind != kind { return Lost(NoGesture, None); }
      var was := gesture;
      var backend := Owner(kind);
      gesture := None;
      if backend.Some? { return Own(backend.value); }
      var control := Serving();
      var release := if was.Some? && was.value.backend.Channel? then control else None;
      closed := Lost(if was.None? && control.None? && helper == null then ChannelDown else NoGesture, release);
    }

    method OnStart(kind: Kind, at: Point, other: Point)
      modifies this, helper
      ensures var step := Started(old(View()), kind, at, other);
              View() == step.state && sent == old(sent) + step.effects
    {
      var backend := BeginGesture(kind);
      match backend
      case Some(Helper(_)) =>
        if kind.Touch? { helper.TouchStart(at); }
      case Some(Channel(c)) =>
        if kind.Touch? {
          lastPx := at;
          Send(Down(c, at));
        } else {
          Send(PinchDown(c, at, other));
        }
      case None =>
    }

    method OnMove(kind: Kind, at: Point, other: Point)
      modifies this, helper
      ensures var step := MovedTo(old(View()), kind, at, other);
              View() == step.state && sent == old(sent) + step.effects
    {
      var backend := Owner(kind);
      match backend
      case Some(Helper(_)) =>
        if kind.Touch? { helper.TouchMove(at); }
      case Some(Channel(c)) =>
        if kind.Touch? {
          lastPx := at;
          Send(Moved(c, at));
        } else {
          Send(PinchMoved(c, at, other));
        }
      case None =>
    }

    method OnEnd(kind: Kind) returns (answer: Outcome)
      modifies this, helper
      ensures var step := EndedAt(old(View()), kind);
              View() == step.state && sent == old(sent) + step.effects && Some(answer) == step.answer
    {
      var closed := EndGesture(kind);
      match closed
      case Lost(outcome, release) =>
        if release.Some? { Send(Release(kind, release.value, lastPx)); }
        answer := outcome;
      case Own(Channel(c)) =>
        if c !in ready { return ChannelDown; }
        Send(Release(kind, c, lastPx));
        answer := Dispatched;
      case Own(Helper(h)) =>
        if kind.Pinch? { return Unsupported; }
        var injected := helper.TouchEnd();
        if injected.None? { return NoGesture; }
        Send(Injected(h, injected.value.0, injected.value.1));
        answer := Dispatched;
    }

    method OnCancel()
      modifies this, helper
      ensures var step := CancelledAt(old(View()));
              View() == step.state && sent == old(sent) + step.effects
    {
      var closed := EndGesture(Touch);
      match closed
      case Lost(_, release) =>
        if release.Some? { Send(Cancelled(release.value, lastPx)); }
      case Own(Channel(c)) =>
        if c in ready { Send(Cancelled(c, lastPx)); }
      case Own(Helper(_)) =>
        helper.Forget();
    }
  }
}
