/**
 The mutable `DeviceState` the lifecycle works on, with the methods that write it between two awaits.
 Each is held to the step the `Lifecycle` module reasons about.
 */
module DeviceStates {

  import opened Options
  import opened Lifecycle

  class DeviceState {
    var registered: bool
    var bootSeq: nat
    var bootsInFlight: set<nat>
    var bootAbandon: map<nat, Reason>
    var requestIds: map<nat, Option<string>>
    var grpcPort: Option<nat>
    var slots: map<Kind, Handle>
    var live: set<Handle>
    var restarting: bool
    var nextRestart: nat
    var rotations: seq<nat>
    var tasks: map<Task, Pc>
    var log: seq<Entry>

    ghost function Snapshot(): Session
      reads this
    {
      Session(registered, bootSeq, bootsInFlight, bootAbandon, requestIds, grpcPort, slots, live, restarting,
              nextRestart, rotations, tasks, log)
    }

    constructor ()
      ensures Snapshot() == FRESH_SESSION
    {
      registered, bootSeq, bootsInFlight, bootAbandon := true, 0, {}, map[];
      requestIds, grpcPort, slots, live := map[], None, map[], {};
      restarting, nextRestart, rotations, tasks, log := false, 0, [], map[], [];
    }

    method BumpBootSeq(reason: Reason) returns (boot: nat)
      modifies this
      ensures Snapshot() == Lifecycle.BumpBootSeq(old(Snapshot()), reason)
      ensures boot == bootSeq
    {
      if bootSeq in bootsInFlight {
        bootAbandon := bootAbandon[bootSeq := reason];
      }
      log := log + [Retired(bootSeq, reason)];
      bootSeq := bootSeq + 1;
      boot := bootSeq;
    }

    /** Stop the handle a field holds, if it holds one, and null the field. */
    method StopSlot(kind: Kind)
      modifies this
      ensures Snapshot() == StopSlots(old(Snapshot()), {kind})
    {
      if kind in slots {
        live := live - {slots[kind]};
      }
      slots := slots - {kind};
      assert live == old(live) - Held(old(slots), {kind});
    }

    /** The stream's fields are torn down one after the other; the socket is not one of them. */
    method TearDownStream()
      modifies this
      ensures Snapshot() == StopSlots(old(Snapshot()), RESTART_KINDS)
    {
      StopSlot(Scrcpy);
      StopSlot(Video);
      StopSlot(Audio);
      StopSlot(Client);
      StopSlot(Helper);
      RestartTeardown(old(slots), old(live));
    }

    method CleanupDeviceState()
      modifies this
      ensures Snapshot() == Lifecycle.CleanupDeviceState(old(Snapshot()))
    {
      TearDownStream();
      StopSlot(StreamWs);
      restarting := false;
      CleanupTeardown(old(slots), old(live));
    }

    /** Null a field while it still holds the handle of the start that lets it go. */
    method ReleaseSlot(kind: Kind, created: set<Handle>)
      modifies this
      ensures Snapshot() == old(Snapshot()).(slots := slots)
      ensures slots == map k | k in old(slots) && !(k == kind && old(slots)[k] in created) :: old(slots)[k]
    {
      if kind in slots && slots[kind] in created {
        slots := slots - {kind};
      }
    }

    /** Stop what one start created, and null each field only while it still holds that start's handle. */
    method ReleaseStream(created: set<Handle>)
      requires forall k | k in slots :: slots[k].kind == k
      requires forall h | h in created :: h.kind != Audio && h.kind != StreamWs
      modifies this
      ensures Snapshot() == Lifecycle.ReleaseStream(old(Snapshot()), created)
    {
      live := live - created;
      ReleaseSlot(Helper, created);
      ReleaseSlot(Scrcpy, created);
      ReleaseSlot(Video, created);
      ReleaseSlot(Client, created);
      assert slots == map k | k in old(slots) && old(slots)[k] !in created :: old(slots)[k];
    }

    method AbandonBoot(boot: nat)
      requires boot in requestIds
      modifies this
      ensures Snapshot() == Lifecycle.AbandonBoot(old(Snapshot()), boot)
    {
      var reason := if boot in bootAbandon then bootAbandon[boot] else Superseded;
      bootAbandon := bootAbandon - {boot};
      if !registered {
        return;
      }
      if requestIds[boot].None? {
        return;
      }
      log := log + [Answered(boot, Abandoned(reason))];
    }

    /** `handleDeviceBoot` up to its first await. */
    method HandleDeviceBoot(requestId: Option<string>) returns (boot: nat)
      modifies this
      ensures Snapshot() == BeginBoot(old(Snapshot()), requestId)
      ensures boot == bootSeq
    {
      boot := BumpBootSeq(Superseded);
      bootsInFlight := bootsInFlight + {boot};
      CleanupDeviceState();
      requestIds := requestIds[boot := requestId];
      log := log + [Began(boot)];
      tasks := tasks[BootTask(boot) := Listing];
    }

    /** `restartVideoStream` up to its first await, for a stream whose pump has just ended. */
    method RestartVideoStream(serial: bool, wsOpen: bool)
      modifies this
      ensures Snapshot() == BeginRestart(old(Snapshot()), serial, wsOpen)
    {
      restarting := true;
      if !serial {
        restarting := false;
        if registered {
          log := log + [StreamDead];
        }
        return;
      }
      TearDownStream();
      if StreamWs !in slots || !wsOpen {
        restarting := false;
        return;
      }
      tasks := tasks[RestartTask(bootSeq, nextRestart) := Sleeping];
      nextRestart := nextRestart + 1;
    }
  }

  lemma RestartTeardown(slots: map<Kind, Handle>, live: set<Handle>)
    ensures slots - {Scrcpy} - {Video} - {Audio} - {Client} - {Helper} == slots - RESTART_KINDS
    ensures live - Held(slots, {Scrcpy}) - Held(slots - {Scrcpy}, {Video}) - Held(slots - {Scrcpy} - {Video}, {Audio})
              - Held(slots - {Scrcpy} - {Video} - {Audio}, {Client})
              - Held(slots - {Scrcpy} - {Video} - {Audio} - {Client}, {Helper})
            == live - Held(slots, RESTART_KINDS)
  {
  }

  lemma CleanupTeardown(slots: map<Kind, Handle>, live: set<Handle>)
    ensures slots - RESTART_KINDS - {StreamWs} == slots - ALL_KINDS
    ensures live - Held(slots, RESTART_KINDS) - Held(slots - RESTART_KINDS, {StreamWs}) == live - Held(slots, ALL_KINDS)
  {
  }
}
