/**
 What Lean mode puts back, and in how many boots.
 */
module LeanRestore {

  import opened Lean
  import opened LeanSafety

  /** An undisturbed off-mode boot: the reconcile runs to its end, its writes reach storage, and the next
      emulator start finds them. */
  function OffBoot(d: Device): Device {
    var d' := ApplyAll(d, Plan(d, false, true));
    d'.(stored := (map p | p in d'.running :: {d'.running[p]}),
        taken := (set p | p in d'.taken && !IsEnabled(d'.running, p)),
        reenabled := {})
  }

  /** The packages a marker will bring back. */
  predicate Owed(d: Device, pkg: string) {
    match d.marker
    case Absent => false
    case Unreadable => pkg in LEAN_PACKAGES && pkg in d.running
    case Holds(m) => Entry(pkg, Enabled) in m.prior
  }

  ghost predicate OwedArePresent(d: Device) {
    Usable(d.running) && forall p | Owed(d, p) :: p in d.running
  }

  /** How many undisturbed boots the device is from having no marker. */
  function BootsLeft(d: Device): nat {
    match d.marker
    case Absent => 0
    case Unreadable => 2
    case Holds(m) => if AllSeenEnabled(m.prior, d.running) then 1 else 2
  }

  lemma {:induction false} EnablesApplied(d: Device, prior: seq<Entry>, state: map<string, PackageState>)
    requires state.Keys <= d.running.Keys
    ensures var d' := ApplyAll(d, Enables(prior, state));
            && d'.marker == d.marker && d'.running.Keys == d.running.Keys
            && forall p | p in d.running :: d'.running[p] ==
                 if Entry(p, Enabled) in prior && IsDisabled(state, p) then Enabled else d.running[p]
    decreases |prior|
  {
    if prior != [] {
      assert prior == [prior[0]] + prior[1..];
      if prior[0].was.Enabled? && IsDisabled(state, prior[0].pkg) {
        EnablesApplied(Apply(d, SetPackage(prior[0].pkg, Enabled)), prior[1..], state);
        assert Enables(prior, state)[1..] == Enables(prior[1..], state);
      } else {
        EnablesApplied(d, prior[1..], state);
        assert Enables(prior, state) == Enables(prior[1..], state);
      }
    }
  }

  lemma {:induction false} ReenablesApplied(d: Device, state: map<string, PackageState>, pkgs: seq<string>)
    requires state.Keys <= d.running.Keys
    ensures var d' := ApplyAll(d, Reenables(state, pkgs));
            && d'.marker == d.marker && d'.running.Keys == d.running.Keys
            && forall p | p in d.running :: d'.running[p] ==
                 if p in pkgs && IsDisabled(state, p) then Enabled else d.running[p]
    decreases |pkgs|
  {
    if pkgs != [] {
      assert pkgs == [pkgs[0]] + pkgs[1..];
      if IsDisabled(state, pkgs[0]) {
        ReenablesApplied(Apply(d, SetPackage(pkgs[0], Enabled)), state, pkgs[1..]);
        assert Reenables(state, pkgs)[1..] == Reenables(state, pkgs[1..]);
      } else {
        ReenablesApplied(d, state, pkgs[1..]);
        assert Reenables(state, pkgs) == Reenables(state, pkgs[1..]);
      }
    }
  }

  /** There is something to enable exactly when a recorded package is seen disabled. */
  lemma {:induction false} NothingToEnable(prior: seq<Entry>, state: map<string, PackageState>)
    ensures Enables(prior, state) == [] <==> forall p | Entry(p, Enabled) in prior :: !IsDisabled(state, p)
  {
    if prior != [] {
      assert prior == [prior[0]] + prior[1..];
      NothingToEnable(prior[1..], state);
      if prior[0].was.Enabled? { assert Entry(prior[0].pkg, Enabled) in prior; }
    }
  }

  lemma {:induction false} RebuiltEntries(state: map<string, PackageState>, pkgs: seq<string>)
    ensures forall e | e in Rebuilt(state, pkgs) :: e.was.Enabled? && e.pkg in pkgs && e.pkg in state
  {
    if pkgs != [] { RebuiltEntries(state, pkgs[1..]); }
  }

  /** Deleting the marker, or leaving none. */
  lemma LastBoot(d: Device)
    requires OwedArePresent(d) && BootsLeft(d) <= 1
    ensures OffBoot(d).marker.Absent? && OffBoot(d).running == d.running
    ensures forall p | Owed(d, p) :: IsEnabled(d.running, p)
  {
    if d.marker.Holds? {
      var prior := d.marker.marker.prior;
      NothingToEnable(prior, d.running);
      assert Plan(d, false, true) == [DeleteMarker];
      assert ApplyAll(d, [DeleteMarker]) == Apply(d, DeleteMarker) by { assert [DeleteMarker][1..] == []; }
    }
  }

  /** Re-enabling what the marker records, or what an unreadable one covers. */
  lemma FirstBoot(d: Device)
    requires OwedArePresent(d) && BootsLeft(d) == 2
    ensures BootsLeft(OffBoot(d)) == 1 && OwedArePresent(OffBoot(d))
    ensures forall p | Owed(d, p) :: IsEnabled(OffBoot(d).running, p)
  {
    if d.marker.Holds? {
      FirstReadableBoot(d, d.marker.marker);
    } else {
      FirstRebuildBoot(d);
    }
  }

  lemma FirstReadableBoot(d: Device, m: Marker)
    requires OwedArePresent(d) && d.marker == Holds(m) && BootsLeft(d) == 2
    ensures BootsLeft(OffBoot(d)) == 1 && OwedArePresent(OffBoot(d))
    ensures forall p | Owed(d, p) :: IsEnabled(OffBoot(d).running, p)
  {
    NothingToEnable(m.prior, d.running);
    assert Enables(m.prior, d.running) != [] by {
      var e :| e in m.prior && e.was.Enabled? && !IsEnabled(d.running, e.pkg);
      assert Entry(e.pkg, Enabled) == e && Owed(d, e.pkg);
    }
    var puts := if m.restoring then [] else [PutMarker(Marker(m.prior, true))];
    var enables := Enables(m.prior, d.running);
    assert Plan(d, false, true) == puts + enables;
    AppliedInTurn(d, puts, enables);
    var d1 := ApplyAll(d, puts);
    assert d1 == d.(marker := Holds(Marker(m.prior, true))) by {
      if !m.restoring { assert puts[1..] == []; }
    }
    EnablesApplied(d1, m.prior, d.running);
    assert OffBoot(d).running == ApplyAll(d1, enables).running;
    assert OffBoot(d).marker == Holds(Marker(m.prior, true));
    forall e | e in m.prior && e.was.Enabled? ensures IsEnabled(OffBoot(d).running, e.pkg) {
      assert Entry(e.pkg, Enabled) == e && Owed(d, e.pkg);
    }
  }

  lemma FirstRebuildBoot(d: Device)
    requires OwedArePresent(d) && d.marker.Unreadable?
    ensures BootsLeft(OffBoot(d)) == 1 && OwedArePresent(OffBoot(d))
    ensures forall p | Owed(d, p) :: IsEnabled(OffBoot(d).running, p)
  {
    var rebuilt := Marker(Rebuilt(d.running, LEAN_PACKAGES), true);
    RebuiltEntries(d.running, LEAN_PACKAGES);
    var reenables := Reenables(d.running, LEAN_PACKAGES);
    assert Plan(d, false, true) == [PutMarker(rebuilt)] + reenables;
    AppliedInTurn(d, [PutMarker(rebuilt)], reenables);
    var d1 := Apply(d, PutMarker(rebuilt));
    assert ApplyAll(d, [PutMarker(rebuilt)]) == d1 by { assert [PutMarker(rebuilt)][1..] == []; }
    ReenablesApplied(d1, d.running, LEAN_PACKAGES);
    assert OffBoot(d).running == ApplyAll(d1, reenables).running;
    assert OffBoot(d).marker == Holds(rebuilt);
  }

  /** Every undisturbed off-mode boot brings the device nearer to having no marker. */
  lemma BootsLeftDecreases(d: Device)
    requires OwedArePresent(d) && BootsLeft(d) > 0
    ensures BootsLeft(OffBoot(d)) < BootsLeft(d)
  {
    if BootsLeft(d) == 1 { LastBoot(d); } else { FirstBoot(d); }
  }

  /** Two undisturbed off-mode boots leave every package the marker owes enabled, and the marker gone. */
  lemma TwoBootsRestore(d: Device)
    requires OwedArePresent(d)
    ensures var d2 := OffBoot(OffBoot(d));
            d2.marker.Absent? && forall p | Owed(d, p) :: IsEnabled(d2.running, p)
  {
    if BootsLeft(d) <= 1 {
      LastBoot(d);
      LastBoot(OffBoot(d));
    } else {
      FirstBoot(d);
      LastBoot(OffBoot(d));
    }
  }
}
