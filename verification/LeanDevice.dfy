/**
 `reconcileLean` as it runs: reads, then one write at a time, any of which may be the last.
 */
module LeanDevices {

  import opened Options
  import opened Lean
  import opened LeanSafety

  /** What reconciling needs from a booted emulator. Every write may fail because the boot was superseded,
      with or without having taken effect, and a marker write may also not land without saying so. */
  class LeanDevice {
    var device: Device
    /** The writes that took effect since the reconcile began. */
    var done: seq<Write>

    constructor (d: Device)
      ensures device == d && done == []
    {
      device, done := d, [];
    }

    /** Issue one write. */
    method Do(w: Write) returns (ok: bool)
      modifies this
      ensures ok ==> done == old(done) + [w]
      ensures done == old(done) || done == old(done) + [w]
      ensures device == if done == old(done) then old(device) else Apply(old(device), w)
    {
      ok := *;
      var took := *;
      if ok || took {
        device, done := Apply(device, w), done + [w];
      }
    }

    /** Issue a marker write that may silently not land. */
    method WriteMarker(m: Marker) returns (ok: bool)
      modifies this
      ensures done == old(done) || done == old(done) + [PutMarker(m)]
      ensures device == if done == old(done) then old(device) else Apply(old(device), PutMarker(m))
    {
      ok := *;
      var landed := *;
      if landed {
        device, done := Apply(device, PutMarker(m)), done + [PutMarker(m)];
      }
    }

    method ReadMarker() returns (file: Option<MarkerFile>)
      ensures file.Some? ==> file.value == device.marker
    {
      var answered := *;
      file := if answered then Some(device.marker) else None;
    }

    /** Nothing is disabled on the strength of a record that did not land. */
    method WriteVerified(m: Marker) returns (ok: bool)
      requires device.marker != Holds(m)
      modifies this
      ensures ok ==> done == old(done) + [PutMarker(m)]
      ensures done == old(done) || done == old(done) + [PutMarker(m)]
      ensures device == if done == old(done) then old(device) else Apply(old(device), PutMarker(m))
    {
      ok := WriteMarker(m);
      if ok {
        var file := ReadMarker();
        ok := file == Some(Holds(m));
      }
    }

    /** Disable every listed package the record and the listing say is enabled. */
    method DisableAll(prior: seq<Entry>, state: map<string, PackageState>) returns (ok: bool)
      modifies this
      ensures Progress(old(device), old(done), device, done, old(done) + Disables(prior, state, LEAN_PACKAGES))
      ensures ok ==> done == old(done) + Disables(prior, state, LEAN_PACKAGES)
    {
      hide LEAN_PACKAGES;
      ghost var goal := old(done) + Disables(prior, state, LEAN_PACKAGES);
      for i := 0 to |LEAN_PACKAGES|
        invariant old(done) <= done && done + Disables(prior, state, LEAN_PACKAGES[i..]) == goal
        invariant device == ApplyAll(old(device), done[|old(done)|..])
      {
        var pkg := LEAN_PACKAGES[i];
        assert LEAN_PACKAGES[i..][1..] == LEAN_PACKAGES[i + 1..];
        if Lookup(prior, pkg) == Some(Enabled) && IsEnabled(state, pkg) {
          ghost var before := done;
          ok := Do(SetPackage(pkg, Disabled));
          Continued(old(device), old(done), before, done);
          if !ok { return; }
        }
      }
      ok := true;
    }

    /** Enable what an unreadable marker covered. */
    method ReenableAll(state: map<string, PackageState>) returns (ok: bool)
      modifies this
      ensures Progress(old(device), old(done), device, done, old(done) + Reenables(state, LEAN_PACKAGES))
      ensures ok ==> done == old(done) + Reenables(state, LEAN_PACKAGES)
      ensures device.marker == old(device).marker
    {
      hide LEAN_PACKAGES;
      ghost var goal := old(done) + Reenables(state, LEAN_PACKAGES);
      for i := 0 to |LEAN_PACKAGES|
        invariant old(done) <= done && done + Reenables(state, LEAN_PACKAGES[i..]) == goal
        invariant device == ApplyAll(old(device), done[|old(done)|..])
        invariant device.marker == old(device).marker
      {
        var pkg := LEAN_PACKAGES[i];
        assert LEAN_PACKAGES[i..][1..] == LEAN_PACKAGES[i + 1..];
        if IsDisabled(state, pkg) {
          ghost var before := done;
          ok := Do(SetPackage(pkg, Enabled));
          Continued(old(device), old(done), before, done);
          if !ok { return; }
        }
      }
      ok := true;
    }

    /** Enable every recorded package the listing says is disabled. */
    method EnableAll(prior: seq<Entry>, state: map<string, PackageState>) returns (ok: bool)
      modifies this
      ensures Progress(old(device), old(done), device, done, old(done) + Enables(prior, state))
      ensures ok ==> done == old(done) + Enables(prior, state)
    {
      ghost var goal := old(done) + Enables(prior, state);
      for i := 0 to |prior|
        invariant old(done) <= done && done + Enables(prior[i..], state) == goal
        invariant device == ApplyAll(old(device), done[|old(done)|..])
      {
        assert prior[i..][1..] == prior[i + 1..];
        if prior[i].was.Enabled? && IsDisabled(state, prior[i].pkg) {
          ghost var before := done;
          ok := Do(SetPackage(prior[i].pkg, Enabled));
          Continued(old(device), old(done), before, done);
          if !ok { return; }
        }
      }
      ok := true;
    }

    /** The record with the packages it lacks, as the loop builds it. */
    method Complete(base: seq<Entry>, state: map<string, PackageState>) returns (prior: seq<Entry>)
      ensures prior == Recorded(base, state, LEAN_PACKAGES)
    {
      prior := base;
      for i := 0 to |LEAN_PACKAGES|
        invariant Recorded(prior, state, LEAN_PACKAGES[i..]) == Recorded(base, state, LEAN_PACKAGES)
      {
        var pkg := LEAN_PACKAGES[i];
        assert LEAN_PACKAGES[i..][1..] == LEAN_PACKAGES[i + 1..];
        if pkg in state && Lookup(prior, pkg).None? {
          prior := prior + [Entry(pkg, state[pkg])];
        }
      }
    }

    /** Complete the record, write it where it changed, then disable. */
    method LeanOn(file: Option<Marker>, state: map<string, PackageState>) returns (ok: bool)
      requires file.Some? ==> device.marker == Holds(file.value)
      requires file.None? ==> device.marker.Absent?
      modifies this
      ensures Progress(old(device), old(done), device, done, old(done) + LeanOnWrites(file, state))
      ensures ok ==> done == old(done) + LeanOnWrites(file, state)
    {
      hide ApplyAll, Disables, Recorded, Progress;
      var prior := Complete(if file.Some? then file.value.prior else [], state);
      ghost var disables := Disables(prior, state, LEAN_PACKAGES);
      ghost var goal := old(done) + LeanOnWrites(file, state);
      if file.None? || file.value.restoring || file.value.prior != prior {
        assert LeanOnWrites(file, state) == [PutMarker(Marker(prior, false))] + disables;
        ok := WriteVerified(Marker(prior, false));
        Wrote(old(device), old(done), device, done, PutMarker(Marker(prior, false)), disables);
        if !ok { return; }
      } else {
        assert LeanOnWrites(file, state) == disables;
        NothingYet(device, done, disables);
      }
      ghost var mid, between := device, done;
      assert between + disables == goal;
      ok := DisableAll(prior, state);
      JoinedGoal(old(device), old(done), mid, between, device, done, goal);
    }

    /** Delete a record that is confirmed. */
    method Confirm(m: Marker, state: map<string, PackageState>) returns (ok: bool)
      requires Enables(m.prior, state) == []
      modifies this
      ensures Progress(old(device), old(done), device, done, old(done) + LeanOffWrites(m, state))
      ensures ok ==> done == old(done) + LeanOffWrites(m, state)
    {
      hide ApplyAll, Progress;
      ok := true;
      if AllSeenEnabled(m.prior, state) {
        ok := Do(DeleteMarker);
        assert [DeleteMarker] + [] == LeanOffWrites(m, state);
        Wrote(old(device), old(done), device, done, DeleteMarker, []);
      } else {
        assert LeanOffWrites(m, state) == [];
        NothingYet(device, done, []);
      }
    }

    /** Enable what is still disabled behind a restoring record, or delete a record that is confirmed. */
    method LeanOff(m: Marker, state: map<string, PackageState>) returns (ok: bool)
      requires device.marker == Holds(m)
      modifies this
      ensures Progress(old(device), old(done), device, done, old(done) + LeanOffWrites(m, state))
      ensures ok ==> done == old(done) + LeanOffWrites(m, state)
    {
      hide ApplyAll, Enables, Progress;
      ghost var enables := Enables(m.prior, state);
      if Enables(m.prior, state) == [] {
        ok := Confirm(m, state);
        return;
      }
      ghost var goal := old(done) + LeanOffWrites(m, state);
      if !m.restoring {
        assert LeanOffWrites(m, state) == [PutMarker(Marker(m.prior, true))] + enables;
        ok := WriteVerified(Marker(m.prior, true));
        Wrote(old(device), old(done), device, done, PutMarker(Marker(m.prior, true)), enables);
        if !ok { return; }
      } else {
        assert LeanOffWrites(m, state) == enables;
        NothingYet(device, done, enables);
      }
      ghost var mid, between := device, done;
      assert between + enables == goal;
      ok := EnableAll(m.prior, state);
      JoinedGoal(old(device), old(done), mid, between, device, done, goal);
    }

    /** Replace an unreadable record and re-enable what it covered. */
    method Rebuild(state: map<string, PackageState>) returns (ok: bool, rebuilt: Marker)
      requires device.marker.Unreadable?
      modifies this
      ensures rebuilt == Marker(Rebuilt(state, LEAN_PACKAGES), true)
      ensures Progress(old(device), old(done), device, done,
                       old(done) + ([PutMarker(rebuilt)] + Reenables(state, LEAN_PACKAGES)))
      ensures ok ==> done == old(done) + ([PutMarker(rebuilt)] + Reenables(state, LEAN_PACKAGES))
      ensures ok ==> device.marker == Holds(rebuilt)
    {
      hide ApplyAll, Reenables, Progress;
      rebuilt := Marker(Rebuilt(state, LEAN_PACKAGES), true);
      ghost var reenables := Reenables(state, LEAN_PACKAGES);
      ok := WriteVerified(rebuilt);
      Wrote(old(device), old(done), device, done, PutMarker(rebuilt), reenables);
      if !ok { return; }
      ghost var mid, between := device, done;
      ok := ReenableAll(state);
      Joined(old(device), old(done), mid, between, device, done, reenables);
    }

    /** The reconcile of a device whose record is unreadable. */
    method ReconcileUnreadable(lean: bool, state: map<string, PackageState>) returns (completed: bool)
      requires device.marker.Unreadable? && done == []
      modifies this
      ensures var rebuilt := Marker(Rebuilt(state, LEAN_PACKAGES), true);
              var writes := [PutMarker(rebuilt)] + Reenables(state, LEAN_PACKAGES)
                            + if lean then LeanOnWrites(Some(rebuilt), Reenabled(state)) else [];
              && Progress(old(device), [], device, done, writes)
              && (completed ==> done == writes)
    {
      hide ApplyAll, Reenables, LeanOnWrites, Progress;
      var rebuilt;
      completed, rebuilt := Rebuild(state);
      ghost var first := [PutMarker(rebuilt)] + Reenables(state, LEAN_PACKAGES);
      ghost var rest := if lean then LeanOnWrites(Some(rebuilt), Reenabled(state)) else [];
      assert [] + first == first && first + [] == first;
      Widened(old(device), [], device, done, first, rest);
      if !completed || !lean { return; }
      ghost var mid, between := device, done;
      completed := LeanOn(Some(rebuilt), Reenabled(state));
      JoinedGoal(old(device), [], mid, between, device, done, first + rest);
    }

    /** `reconcileLean`: whatever cuts it off, the writes that took effect are the first of its plan. */
    method ReconcileLean(lean: bool, launched: bool) returns (completed: bool)
      requires done == []
      modifies this
      ensures done <= Plan(old(device), lean, launched)
      ensures device == ApplyAll(old(device), done)
      ensures completed ==> done == Plan(old(device), lean, launched)
    {
      hide Reenables, LeanOnWrites, LeanOffWrites, Rebuilt;
      completed := false;
      if lean && !launched { return true; }
      if !lean {
        var first := ReadMarker();
        if first.None? { return; }
        if first.value.Absent? { return true; }
      }
      var state := device.running;
      if !Usable(state) { return; }
      var file := ReadMarker();
      if file.None? { return; }
      match file.value
      case Unreadable => completed := ReconcileUnreadable(lean, state);
      case Absent => completed := LeanOn(None, state);
      case Holds(m) =>
        if lean {
          completed := LeanOn(Some(m), state);
        } else {
          completed := LeanOff(m, state);
        }
    }
  }

  /** From `base`, the writes so far took the device from `d0` to `d1` and are the first of `goal`. */
  ghost predicate Progress(d0: Device, base: seq<Write>, d1: Device, now: seq<Write>, goal: seq<Write>) {
    base <= now <= goal && d1 == ApplyAll(d0, now[|base|..])
  }

  lemma NothingYet(d: Device, base: seq<Write>, ahead: seq<Write>)
    ensures Progress(d, base, d, base, base + ahead)
  {
    assert base[|base|..] == [];
  }

  lemma Wrote(d0: Device, base: seq<Write>, d1: Device, now: seq<Write>, w: Write, ahead: seq<Write>)
    requires now == base || now == base + [w]
    requires d1 == if now == base then d0 else Apply(d0, w)
    ensures Progress(d0, base, d1, now, base + ([w] + ahead))
    ensures now == base + [w] ==> now + ahead == base + ([w] + ahead)
  {
    if now == base {
      assert now[|base|..] == [];
    } else {
      assert now[|base|..] == [w] && [w][1..] == [];
      assert now + ahead == base + ([w] + ahead);
    }
  }

  /** Two stretches of writes, one after the other. */
  lemma JoinedGoal(d0: Device, base: seq<Write>, mid: Device, between: seq<Write>, d1: Device, now: seq<Write>, goal: seq<Write>)
    requires Progress(d0, base, mid, between, goal)
    requires Progress(mid, between, d1, now, goal)
    ensures Progress(d0, base, d1, now, goal)
  {
    assert now[|base|..] == between[|base|..] + now[|between|..];
    AppliedInTurn(d0, between[|base|..], now[|between|..]);
  }

  lemma Joined(d0: Device, base: seq<Write>, mid: Device, between: seq<Write>, d1: Device, now: seq<Write>, ahead: seq<Write>)
    requires Progress(d0, base, mid, between, between + ahead)
    requires Progress(mid, between, d1, now, between + ahead)
    ensures Progress(d0, base, d1, now, between + ahead)
  {
    JoinedGoal(d0, base, mid, between, d1, now, between + ahead);
  }

  lemma Widened(d0: Device, base: seq<Write>, d1: Device, now: seq<Write>, goal: seq<Write>, ahead: seq<Write>)
    requires Progress(d0, base, d1, now, goal)
    ensures Progress(d0, base, d1, now, goal + ahead)
  {
  }

  /** One write more, or none: the device is still the writes so far applied in order. */
  lemma Continued(d: Device, base: seq<Write>, before: seq<Write>, after: seq<Write>)
    requires base <= before
    requires after == before || (|after| == |before| + 1 && before <= after)
    ensures base <= after
    ensures ApplyAll(d, after[|base|..]) ==
            if after == before then ApplyAll(d, before[|base|..])
            else Apply(ApplyAll(d, before[|base|..]), after[|before|])
  {
    if after != before {
      assert after[|base|..] == before[|base|..] + [after[|before|]];
      AppliedInTurn(d, before[|base|..], [after[|before|]]);
      assert [after[|before|]][1..] == [];
    }
  }
}
