/**
 The network control as the hook keeps it: state and refs written by handlers and effects.
 */
module NetworkHook {

  import opened Options
  import opened NetworkControl

  class Hook {
    var position: Position
    var steerable: bool
    var reason: Option<Reason>
    var lastReason: Option<Reason>
    var pending: bool
    var requestId: Option<nat>
    var abandoned: set<nat>
    var ready: bool
    var everReady: bool
    var supported: bool
    var nextId: nat
    var asked: seq<bool>
    var said: seq<Notice>

    ghost function Snapshot(): Control
      reads this
    {
      Control(position, steerable, reason, lastReason, pending, requestId, abandoned, ready, everReady, supported, nextId, asked, said)
    }

    constructor (ready: bool, supported: bool)
      ensures Snapshot() == Mounted(ready, supported)
    {
      position, steerable, reason, lastReason := Waiting, true, None, None;
      pending, requestId, abandoned := false, None, {};
      this.ready, everReady, this.supported := ready, ready, supported;
      nextId, asked, said := 0, [], [];
    }

    method Announce(n: Notice)
      modifies this`said
      ensures said == old(said) + [n]
    {
      said := said + [n];
    }

    method OnMessage(r: Report)
      modifies this
      ensures Snapshot() == OnState(old(Snapshot()), r)
    {
      if !supported || !ready { return; }
      if r.requestId.Some? && r.requestId.value in abandoned { return; }
      var next := if r.available then None else Some(r.reason);
      position := if r.offline.None? then Unknown else if r.offline.value then Offline else Online;
      steerable := r.available;
      reason := next;
      if next == Some(EnforcementLost) && lastReason != Some(EnforcementLost) { Announce(Lost); }
      lastReason := next;
      if r.requestId.Some? && r.requestId == requestId {
        requestId := None;
        pending := false;
      }
    }

    method OnErrorMessage(id: nat)
      modifies this
      ensures Snapshot() == OnError(old(Snapshot()), id)
    {
      if !supported { return; }
      if requestId == Some(id) {
        requestId := None;
        pending := false;
        Announce(Failed);
      }
    }

    /** The readiness effect. */
    method ReadinessChanged(now: bool)
      modifies this
      ensures Snapshot() == OnReadiness(old(Snapshot()), now)
    {
      if now == ready { return; }
      ready := now;
      if now {
        everReady := true;
        position := Waiting;
        return;
      }
      position := if everReady then Unknown else Waiting;
      steerable := true;
      reason := None;
      lastReason := None;
      if requestId.Some? {
        Announce(Unavailable);
        abandoned := abandoned + {requestId.value};
      }
      pending := false;
      requestId := None;
    }

    /** The render-time reset, then the effects in the order they are declared. */
    method SessionChanged(now: bool)
      modifies this
      ensures Snapshot() == OnSession(old(Snapshot()), now)
    {
      position, steerable, reason, pending := Waiting, true, None, false;
      lastReason := None;
      requestId := None;
      everReady := now;
      abandoned := {};
      ReadinessChanged(now);
    }

    /** The id sent, when a request is made. */
    method TogglePressed() returns (sent: Option<nat>)
      modifies this
      ensures Snapshot() == OnToggle(old(Snapshot()))
      ensures sent.Some? <==> old(supported) && !old(pending)
      ensures sent.Some? ==> requestId == sent
    {
      if !supported || pending { return None; }
      sent := Some(nextId);
      asked := asked + [position != Offline];
      requestId, nextId := sent, nextId + 1;
      pending := true;
    }

    method RequestTimedOut(inFlight: nat)
      modifies this
      ensures Snapshot() == Next(old(Snapshot()), RequestDeadline(inFlight))
    {
      if requestId != Some(inFlight) { return; }
      requestId := None;
      pending := false;
      Announce(NoAnswer);
    }

    method ReportTimedOut()
      modifies this
      ensures Snapshot() == Next(old(Snapshot()), ReportDeadline)
    {
      if supported && ready && position == Waiting { position := Unknown; }
    }
  }
}
