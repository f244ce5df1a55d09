/**
 The reconcile queue as the agent keeps it: three entries per device, filled and dropped step by step.
 */
module ReconcileQueue {

  import opened Options
  import opened Reconcile

  class DeviceReconciles {
    var passes: seq<Pass>
    var calls: seq<Call>
    var running: Option<nat>
    var queued: Option<nat>
    /** Whose the running entry is, compared by identity when a pass ends. */
    var token: Option<nat>
    var stream: nat
    var skin: Skin
    var latest: Option<Skin>
    var frameAt: nat
    var framePass: nat
    var lastOwned: Option<nat>
    var now: nat

    ghost function Snapshot(): Reconciler
      reads this
    {
      Reconciler(passes, running, queued, calls, stream, skin, latest, frameAt, framePass, lastOwned, now)
    }

    /** The token always names the running pass. */
    ghost predicate Valid()
      reads this
    {
      token == running
    }

    constructor ()
      ensures Valid() && Snapshot() == START
    {
      passes, calls, running, queued, token := [], [], None, None, None;
      stream, skin, latest, frameAt, framePass, lastOwned, now := 0, NoSkin, None, 0, 0, None, 0;
    }

    method StartReconcile(id: nat)
      requires Valid() && id < |passes|
      modifies this
      ensures Valid() && Snapshot() == Start(old(Snapshot()), id)
    {
      var p := passes[id];
      passes := passes[id := p.(phase := Reading(now, if latest.Some? then latest.value else p.asked))];
      token := Some(id);
      running := Some(id);
    }

    /** The pass that will answer the caller. */
    method ReconcileSerial(owner: nat, asked: Skin) returns (pass: nat)
      requires Valid()
      modifies this
      ensures Valid() && Snapshot() == Serial(old(Snapshot()), owner, asked)
      ensures Snapshot().calls == old(calls) + [Call(old(now), pass)]
    {
      if running.None? {
        pass := |passes|;
        passes, calls := passes + [Pass(owner, asked, false, Waiting(0))], calls + [Call(now, pass)];
        StartReconcile(pass);
        return;
      }
      if queued.Some? {
        pass := queued.value;
        calls := calls + [Call(now, pass)];
        return;
      }
      pass := |passes|;
      passes, calls := passes + [Pass(owner, asked, false, Waiting(running.value))], calls + [Call(now, pass)];
      queued := Some(pass);
    }

    method FindWaiter(id: nat) returns (w: Option<nat>)
      ensures w == Waiter(Snapshot(), id)
    {
      for i := 0 to |passes|
        invariant WaiterFrom(passes, id, 0) == WaiterFrom(passes, id, i)
      {
        if passes[i].phase == Waiting(id) { return Some(i); }
      }
      w := None;
    }

    /** The end of a pass and, in the same step, the start of the one behind it. */
    method EndPass(id: nat)
      requires Valid() && id < |passes| && passes[id].InFlight()
      modifies this
      ensures Valid() && Snapshot() == Ended(old(Snapshot()), id)
    {
      var w := FindWaiter(id);
      var p := passes[id];
      if p.owner == stream { lastOwned := Some(id); }
      passes := passes[id := p.(phase := Done(p.phase.at, p.phase.skin))];
      if token == Some(id) {
        token := None;
        running := None;
      }
      if !p.direct && w.Some? {
        queued := None;
        StartReconcile(w.value);
      }
    }

    /** A stream ends: the entries go, whatever is in flight. */
    method ClearGrpcState()
      requires Valid()
      modifies this
      ensures Valid() && Snapshot() == Cleared(old(Snapshot()))
    {
      running, queued, token := None, None, None;
      skin, latest := NoSkin, None;
      stream, lastOwned := stream + 1, None;
    }
  }
}
