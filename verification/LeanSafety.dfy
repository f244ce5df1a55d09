/**
 Crash safety of Lean mode: whatever a kill takes away, and between whichever two writes it comes, no
 package is left disabled without a record that says to enable it.
 */
module LeanSafety {

  import opened Options
  import opened Lean

  /** The record that will bring a package back. An unreadable one does, because it is rebuilt for every
      package of the list. */
  predicate IsRecorded(file: MarkerFile, pkg: string) {
    match file
    case Absent => false
    case Unreadable => true
    case Holds(m) => Lookup(m.prior, pkg) == Some(Enabled)
  }

  ghost predicate EveryTakenIsRecorded(d: Device) {
    forall p | p in d.taken :: IsRecorded(d.marker, p)
  }

  ghost predicate WellFormed(d: Device) {
    && (forall p | p in d.running :: p in d.stored && d.running[p] in d.stored[p])
    && (forall p | p in d.taken ::
          && p in LEAN_PACKAGES && p in d.running
          && Disabled in d.stored[p]
          && (d.running[p].Enabled? ==> p in d.reenabled))
  }

  ghost predicate Safe(d: Device) {
    WellFormed(d) && EveryTakenIsRecorded(d)
  }

  // ---------------------------------------------------------------- one write

  ghost predicate WriteIsSafe(d: Device, w: Write) {
    match w
    case PutMarker(m) => forall p | p in d.taken :: Lookup(m.prior, p) == Some(Enabled)
    case DeleteMarker => d.taken == {}
    case SetPackage(p, to) =>
      p in d.running && (to.Disabled? ==> p in LEAN_PACKAGES && d.marker.Holds? && IsRecorded(d.marker, p))
  }

  lemma SafeWriteKeeps(d: Device, w: Write)
    requires Safe(d) && WriteIsSafe(d, w)
    ensures Safe(Apply(d, w))
  {
  }

  ghost predicate AllSafe(d: Device, ws: seq<Write>)
    decreases |ws|
  {
    ws == [] || (WriteIsSafe(d, ws[0]) && AllSafe(Apply(d, ws[0]), ws[1..]))
  }

  lemma {:induction false} PrefixIsSafe(d: Device, ws: seq<Write>, k: nat)
    requires Safe(d) && AllSafe(d, ws) && k <= |ws|
    ensures Safe(ApplyAll(d, ws[..k]))
    decreases |ws|
  {
    if k > 0 {
      SafeWriteKeeps(d, ws[0]);
      PrefixIsSafe(Apply(d, ws[0]), ws[1..], k - 1);
      assert ws[..k][1..] == ws[1..][..k - 1];
    }
  }

  lemma {:induction false} Concatenated(d: Device, a: seq<Write>, b: seq<Write>)
    requires AllSafe(d, a) && AllSafe(ApplyAll(d, a), b)
    ensures AllSafe(d, a + b)
    decreases |a|
  {
    if a == [] {
      assert a + b == b;
    } else {
      assert (a + b)[1..] == a[1..] + b;
      Concatenated(Apply(d, a[0]), a[1..], b);
    }
  }

  // ---------------------------------------------------------------- the record

  lemma {:induction false} LookupAppended(prior: seq<Entry>, e: Entry, pkg: string)
    ensures Lookup(prior + [e], pkg) ==
            if Lookup(prior, pkg).Some? then Lookup(prior, pkg) else if e.pkg == pkg then Some(e.was) else None
  {
    if prior != [] {
      assert (prior + [e])[1..] == prior[1..] + [e];
      LookupAppended(prior[1..], e, pkg);
    }
  }

  /** Completing a record keeps what it says. */
  lemma {:induction false} RecordedKeeps(prior: seq<Entry>, state: map<string, PackageState>, pkgs: seq<string>, pkg: string)
    requires Lookup(prior, pkg).Some?
    ensures Lookup(Recorded(prior, state, pkgs), pkg) == Lookup(prior, pkg)
    decreases |pkgs|
  {
    if pkgs != [] {
      if pkgs[0] in state && Lookup(prior, pkgs[0]).None? {
        LookupAppended(prior, Entry(pkgs[0], state[pkgs[0]]), pkg);
        RecordedKeeps(prior + [Entry(pkgs[0], state[pkgs[0]])], state, pkgs[1..], pkg);
      } else {
        RecordedKeeps(prior, state, pkgs[1..], pkg);
      }
    }
  }

  lemma {:induction false} RebuiltRecords(state: map<string, PackageState>, pkgs: seq<string>, pkg: string)
    requires pkg in pkgs && pkg in state
    ensures Lookup(Rebuilt(state, pkgs), pkg) == Some(Enabled)
  {
    if pkgs[0] != pkg {
      RebuiltRecords(state, pkgs[1..], pkg);
      if pkgs[0] in state {
        assert Rebuilt(state, pkgs)[1..] == Rebuilt(state, pkgs[1..]);
      } else {
        assert Rebuilt(state, pkgs) == Rebuilt(state, pkgs[1..]);
      }
    }
  }

  lemma {:induction false} LookupFinds(prior: seq<Entry>, pkg: string, was: PackageState)
    requires Lookup(prior, pkg) == Some(was)
    ensures Entry(pkg, was) in prior
  {
    if prior[0].pkg != pkg {
      LookupFinds(prior[1..], pkg, was);
    }
  }

  // ---------------------------------------------------------------- the writes of one reconcile

  lemma {:induction false} DisablesAreSafe(d: Device, prior: seq<Entry>, state: map<string, PackageState>, pkgs: seq<string>)
    requires d.marker.Holds? && d.marker.marker.prior == prior
    requires state.Keys <= d.running.Keys
    requires forall p | p in pkgs :: p in LEAN_PACKAGES
    ensures AllSafe(d, Disables(prior, state, pkgs))
    decreases |pkgs|
  {
    if pkgs != [] {
      var w := SetPackage(pkgs[0], Disabled);
      if Lookup(prior, pkgs[0]) == Some(Enabled) && IsEnabled(state, pkgs[0]) {
        DisablesAreSafe(Apply(d, w), prior, state, pkgs[1..]);
        assert Disables(prior, state, pkgs)[1..] == Disables(prior, state, pkgs[1..]);
      } else {
        DisablesAreSafe(d, prior, state, pkgs[1..]);
        assert Disables(prior, state, pkgs) == Disables(prior, state, pkgs[1..]);
      }
    }
  }

  lemma {:induction false} EnablesAreSafe(d: Device, prior: seq<Entry>, state: map<string, PackageState>)
    requires state.Keys <= d.running.Keys
    ensures AllSafe(d, Enables(prior, state))
    decreases |prior|
  {
    if prior != [] {
      if prior[0].was.Enabled? && IsDisabled(state, prior[0].pkg) {
        EnablesAreSafe(Apply(d, SetPackage(prior[0].pkg, Enabled)), prior[1..], state);
        assert Enables(prior, state)[1..] == Enables(prior[1..], state);
      } else {
        EnablesAreSafe(d, prior[1..], state);
        assert Enables(prior, state) == Enables(prior[1..], state);
      }
    }
  }

  /** Re-enabling keeps the marker, the packages there are and those taken. */
  lemma {:induction false} ReenablesAreSafe(d: Device, state: map<string, PackageState>, pkgs: seq<string>)
    requires state.Keys <= d.running.Keys
    ensures AllSafe(d, Reenables(state, pkgs))
    ensures var d' := ApplyAll(d, Reenables(state, pkgs));
            d'.marker == d.marker && d'.taken == d.taken && d.running.Keys <= d'.running.Keys
    decreases |pkgs|
  {
    if pkgs != [] {
      if IsDisabled(state, pkgs[0]) {
        ReenablesAreSafe(Apply(d, SetPackage(pkgs[0], Enabled)), state, pkgs[1..]);
        assert Reenables(state, pkgs)[1..] == Reenables(state, pkgs[1..]);
      } else {
        ReenablesAreSafe(d, state, pkgs[1..]);
        assert Reenables(state, pkgs) == Reenables(state, pkgs[1..]);
      }
    }
  }

  lemma LeanOnIsSafe(d: Device, file: Option<Marker>, state: map<string, PackageState>)
    requires state.Keys <= d.running.Keys
    requires file.Some? ==> d.marker == Holds(file.value)
    requires file.None? ==> d.taken == {}
    requires forall p | p in d.taken :: IsRecorded(d.marker, p)
    ensures AllSafe(d, LeanOnWrites(file, state))
  {
    var base := if file.Some? then file.value.prior else [];
    var prior := Recorded(base, state, LEAN_PACKAGES);
    var m := Marker(prior, false);
    forall p | p in d.taken ensures Lookup(prior, p) == Some(Enabled) {
      RecordedKeeps(base, state, LEAN_PACKAGES, p);
    }
    if file.None? || file.value.restoring || file.value.prior != prior {
      DisablesAreSafe(Apply(d, PutMarker(m)), prior, state, LEAN_PACKAGES);
      assert ApplyAll(d, [PutMarker(m)]) == Apply(d, PutMarker(m));
      Concatenated(d, [PutMarker(m)], Disables(prior, state, LEAN_PACKAGES));
    } else {
      DisablesAreSafe(d, prior, state, LEAN_PACKAGES);
      assert LeanOnWrites(file, state) == Disables(prior, state, LEAN_PACKAGES);
    }
  }

  /** An off-mode reconcile finds every recorded package enabled, and deletes the record. */
  predicate Deletes(d: Device) {
    && d.marker.Holds? && Usable(d.running)
    && Enables(d.marker.marker.prior, d.running) == []
    && AllSeenEnabled(d.marker.marker.prior, d.running)
  }

  /** Some package of the record was enabled since the emulator started. */
  predicate SomeReenabled(d: Device) {
    d.marker.Holds? && exists e :: e in d.marker.marker.prior && e.was.Enabled? && e.pkg in d.reenabled
  }

  /** The writes of an off-mode reconcile are safe unless they delete a record that is still owed. */
  lemma LeanOffIsSafe(d: Device, m: Marker)
    requires Safe(d) && d.marker == Holds(m)
    ensures AllSafe(d, LeanOffWrites(m, d.running)) <==>
            !(Enables(m.prior, d.running) == [] && AllSeenEnabled(m.prior, d.running) && d.taken != {})
  {
    var enables := Enables(m.prior, d.running);
    if enables == [] {
      assert [DeleteMarker][1..] == [];
    } else if m.restoring {
      EnablesAreSafe(d, m.prior, d.running);
      assert LeanOffWrites(m, d.running) == enables;
    } else {
      var put := PutMarker(Marker(m.prior, true));
      EnablesAreSafe(Apply(d, put), m.prior, d.running);
      assert ApplyAll(d, [put]) == Apply(d, put);
      Concatenated(d, [put], enables);
    }
  }

  /** A record that is still owed is deleted only after one of its packages was enabled in this emulator run. */
  lemma OwedIsReenabled(d: Device)
    requires Safe(d) && Deletes(d) && d.taken != {}
    ensures SomeReenabled(d)
  {
    var p :| p in d.taken;
    LookupFinds(d.marker.marker.prior, p, Enabled);
    assert IsEnabled(d.running, Entry(p, Enabled).pkg);
  }

  lemma RebuildIsSafe(d: Device, lean: bool)
    requires Safe(d) && d.marker.Unreadable?
    ensures var rebuilt := Marker(Rebuilt(d.running, LEAN_PACKAGES), true);
            AllSafe(d, [PutMarker(rebuilt)] + Reenables(d.running, LEAN_PACKAGES)
                       + if lean then LeanOnWrites(Some(rebuilt), Reenabled(d.running)) else [])
  {
    var rebuilt := Marker(Rebuilt(d.running, LEAN_PACKAGES), true);
    var put := PutMarker(rebuilt);
    forall p | p in d.taken ensures Lookup(rebuilt.prior, p) == Some(Enabled) {
      RebuiltRecords(d.running, LEAN_PACKAGES, p);
    }
    var d1 := Apply(d, put);
    var reenables := Reenables(d.running, LEAN_PACKAGES);
    assert ApplyAll(d, [put]) == d1;
    ReenablesAreSafe(d1, d.running, LEAN_PACKAGES);
    Concatenated(d, [put], reenables);
    var rest := if lean then LeanOnWrites(Some(rebuilt), Reenabled(d.running)) else [];
    AppliedInTurn(d, [put], reenables);
    if lean {
      LeanOnIsSafe(ApplyAll(d1, reenables), Some(rebuilt), Reenabled(d.running));
    }
    Concatenated(d, [put] + reenables, rest);
  }

  lemma {:induction false} AppliedInTurn(d: Device, a: seq<Write>, b: seq<Write>)
    ensures ApplyAll(d, a + b) == ApplyAll(ApplyAll(d, a), b)
    decreases |a|
  {
    if a == [] {
      assert a + b == b;
    } else {
      assert (a + b)[1..] == a[1..] + b;
      AppliedInTurn(Apply(d, a[0]), a[1..], b);
    }
  }

  lemma PlanIsSafe(d: Device, lean: bool, launched: bool)
    requires Safe(d)
    ensures AllSafe(d, Plan(d, lean, launched)) <==> !(!lean && Deletes(d) && d.taken != {})
  {
    if (lean && !launched) || (!lean && d.marker.Absent?) || !Usable(d.running) {
    } else if d.marker.Unreadable? {
      RebuildIsSafe(d, lean);
    } else if lean {
      LeanOnIsSafe(d, if d.marker.Holds? then Some(d.marker.marker) else None, d.running);
    } else {
      LeanOffIsSafe(d, d.marker.marker);
    }
  }

  /** Every moment of a reconcile, wherever it is cut off, keeps every package tapflow disabled and has not
      durably enabled again in the record, exactly unless the reconcile deletes a record that is still owed. */
  lemma EveryMomentIsSafeExactly(d: Device, lean: bool, launched: bool)
    requires Safe(d)
    ensures (forall k | 0 <= k <= |Plan(d, lean, launched)| :: Safe(ApplyAll(d, Plan(d, lean, launched)[..k])))
            <==> !(!lean && Deletes(d) && d.taken != {})
  {
    hide Safe, AllSafe, Plan;
    var plan := Plan(d, lean, launched);
    PlanIsSafe(d, lean, launched);
    if !lean && Deletes(d) && d.taken != {} {
      DeletionIsUnsafe(d, launched);
      assert plan[..1] == plan;
    } else {
      forall k | 0 <= k <= |plan| ensures Safe(ApplyAll(d, plan[..k])) { PrefixIsSafe(d, plan, k); }
    }
  }

  lemma DeletionIsUnsafe(d: Device, launched: bool)
    requires Safe(d) && Deletes(d)
    ensures Plan(d, false, launched) == [DeleteMarker]
    ensures ApplyAll(d, [DeleteMarker]) == Apply(d, DeleteMarker)
    ensures d.taken != {} ==> !Safe(ApplyAll(d, [DeleteMarker]))
  {
    assert [DeleteMarker][1..] == [];
  }

  /** In terms of what the agent did: every moment is safe unless the reconcile deletes a record one of whose
      packages was enabled since the emulator started. */
  lemma EveryMomentIsSafe(d: Device, lean: bool, launched: bool, k: nat)
    requires Safe(d) && k <= |Plan(d, lean, launched)|
    requires lean || !Deletes(d) || !SomeReenabled(d)
    ensures Safe(ApplyAll(d, Plan(d, lean, launched)[..k]))
  {
    EveryMomentIsSafeExactly(d, lean, launched);
    if Deletes(d) && d.taken != {} { OwedIsReenabled(d); }
  }
}
