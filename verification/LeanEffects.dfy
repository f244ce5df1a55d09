/**
 What an undisturbed reconcile does to every package, in either mode, and in how many boots Lean mode holds.
 */
module LeanEffects {

  import opened Options
  import opened Lean
  import opened LeanSafety
  import opened LeanRestore
  import opened LeanRuns

  function Reconciled(d: Device, lean: bool): Device {
    ApplyAll(d, Plan(d, lean, true))
  }

  /** What a package was before Lean mode first disabled it: what the record says, and without a word in it what
      the package is now. An unreadable record stands for the packages of the list, enabled out of the box. */
  predicate WasEnabled(d: Device, pkg: string) {
    match d.marker
    case Absent => IsEnabled(d.running, pkg)
    case Unreadable => pkg in d.running
    case Holds(m) =>
      match Lookup(m.prior, pkg)
      case None => IsEnabled(d.running, pkg)
      case Some(was) => was.Enabled?
  }

  // ---------------------------------------------------------------- Lean mode on

  lemma {:induction false} RecordedSays(prior: seq<Entry>, state: map<string, PackageState>, pkgs: seq<string>, pkg: string)
    requires Lookup(prior, pkg).None?
    ensures Lookup(Recorded(prior, state, pkgs), pkg) == if pkg in pkgs && pkg in state then Some(state[pkg]) else None
    decreases |pkgs|
  {
    if pkgs != [] {
      assert pkgs == [pkgs[0]] + pkgs[1..];
      if pkgs[0] in state && Lookup(prior, pkgs[0]).None? {
        var longer := prior + [Entry(pkgs[0], state[pkgs[0]])];
        LookupAppended(prior, Entry(pkgs[0], state[pkgs[0]]), pkg);
        if pkgs[0] == pkg {
          RecordedKeeps(longer, state, pkgs[1..], pkg);
        } else {
          RecordedSays(longer, state, pkgs[1..], pkg);
        }
      } else {
        RecordedSays(prior, state, pkgs[1..], pkg);
      }
    }
  }

  /** Completing a record keeps what it says and adds what the listed packages are. */
  lemma RecordSays(prior: seq<Entry>, state: map<string, PackageState>, pkg: string)
    ensures Lookup(Recorded(prior, state, LEAN_PACKAGES), pkg) ==
            if Lookup(prior, pkg).Some? then Lookup(prior, pkg)
            else if pkg in LEAN_PACKAGES && pkg in state then Some(state[pkg])
            else None
  {
    if Lookup(prior, pkg).Some? {
      RecordedKeeps(prior, state, LEAN_PACKAGES, pkg);
    } else {
      RecordedSays(prior, state, LEAN_PACKAGES, pkg);
    }
  }

  lemma {:induction false} DisablesApplied(d: Device, prior: seq<Entry>, state: map<string, PackageState>, pkgs: seq<string>)
    requires state.Keys <= d.running.Keys
    ensures var t := ApplyAll(d, Disables(prior, state, pkgs));
            && t.marker == d.marker && t.running.Keys == d.running.Keys
            && forall p | p in d.running :: t.running[p] ==
                 if p in pkgs && Lookup(prior, p) == Some(Enabled) && IsEnabled(state, p) then Disabled else d.running[p]
    decreases |pkgs|
  {
    if pkgs != [] {
      assert pkgs == [pkgs[0]] + pkgs[1..];
      if Lookup(prior, pkgs[0]) == Some(Enabled) && IsEnabled(state, pkgs[0]) {
        DisablesApplied(Apply(d, SetPackage(pkgs[0], Disabled)), prior, state, pkgs[1..]);
        assert Disables(prior, state, pkgs)[1..] == Disables(prior, state, pkgs[1..]);
      } else {
        DisablesApplied(d, prior, state, pkgs[1..]);
        assert Disables(prior, state, pkgs) == Disables(prior, state, pkgs[1..]);
      }
    }
  }

  /** The writes of Lean mode from a readable record or none. */
  lemma LeanOnApplied(d: Device, file: Option<Marker>)
    requires d.marker == (if file.Some? then Holds(file.value) else Absent)
    ensures var t := ApplyAll(d, LeanOnWrites(file, d.running));
            var prior := Recorded(if file.Some? then file.value.prior else [], d.running, LEAN_PACKAGES);
            && t.marker == Holds(Marker(prior, false)) && t.running.Keys == d.running.Keys
            && forall p | p in d.running :: t.running[p] ==
                 if p in LEAN_PACKAGES && Lookup(prior, p) == Some(Enabled) then Disabled else d.running[p]
  {
    hide Recorded, Disables;
    var prior := Recorded(if file.Some? then file.value.prior else [], d.running, LEAN_PACKAGES);
    var disables := Disables(prior, d.running, LEAN_PACKAGES);
    var puts := if file.None? || file.value.restoring || file.value.prior != prior then [PutMarker(Marker(prior, false))] else [];
    assert LeanOnWrites(file, d.running) == puts + disables;
    AppliedInTurn(d, puts, disables);
    var d1 := ApplyAll(d, puts);
    assert d1 == d.(marker := Holds(Marker(prior, false))) by {
      if puts != [] { assert puts[1..] == []; }
    }
    DisablesApplied(d1, prior, d.running, LEAN_PACKAGES);
  }

  /** The record Lean mode leaves: every listed package the image has, as it was, and whatever was in it before. */
  ghost predicate RecordsAll(d: Device, t: Device) {
    && t.marker.Holds? && !t.marker.marker.restoring
    && (forall p | p in LEAN_PACKAGES && p in d.running ::
          Lookup(t.marker.marker.prior, p) == Some(if WasEnabled(d, p) then Enabled else Disabled))
    && (d.marker.Holds? ==> forall p | Lookup(d.marker.marker.prior, p).Some? ::
          Lookup(t.marker.marker.prior, p) == Lookup(d.marker.marker.prior, p))
  }

  /** Every listed package the image has that was enabled is disabled, and every other is what it was. */
  ghost predicate DisablesAll(d: Device, t: Device) {
    && t.running.Keys == d.running.Keys
    && forall p | p in d.running :: t.running[p] == if p in LEAN_PACKAGES && WasEnabled(d, p) then Disabled else d.running[p]
  }

  /** What the record says of every package, once it is complete. */
  ghost predicate Completes(before: seq<Entry>, state: map<string, PackageState>, after: seq<Entry>) {
    forall p :: Lookup(after, p) ==
      if Lookup(before, p).Some? then Lookup(before, p)
      else if p in LEAN_PACKAGES && p in state then Some(state[p])
      else None
  }

  lemma RecordCompletes(before: seq<Entry>, state: map<string, PackageState>)
    ensures Completes(before, state, Recorded(before, state, LEAN_PACKAGES))
  {
    hide Recorded, Lookup;
    forall p ensures Lookup(Recorded(before, state, LEAN_PACKAGES), p) ==
      if Lookup(before, p).Some? then Lookup(before, p)
      else if p in LEAN_PACKAGES && p in state then Some(state[p])
      else None
    {
      RecordSays(before, state, p);
    }
  }

  lemma CompletedDisables(d: Device, before: seq<Entry>, t: Device)
    requires !d.marker.Unreadable? && before == (if d.marker.Holds? then d.marker.marker.prior else [])
    requires t.marker.Holds? && !t.marker.marker.restoring && Completes(before, d.running, t.marker.marker.prior)
    requires t.running.Keys == d.running.Keys
    requires forall p | p in d.running :: t.running[p] ==
               if p in LEAN_PACKAGES && Lookup(t.marker.marker.prior, p) == Some(Enabled) then Disabled else d.running[p]
    ensures RecordsAll(d, t) && DisablesAll(d, t)
  {
    hide LEAN_PACKAGES;
  }

  lemma LeanOnReadable(d: Device)
    requires Usable(d.running) && !d.marker.Unreadable?
    ensures RecordsAll(d, Reconciled(d, true)) && DisablesAll(d, Reconciled(d, true))
  {
    hide LeanOnWrites, Completes, RecordsAll, DisablesAll, Recorded;
    var file := if d.marker.Holds? then Some(d.marker.marker) else None;
    var before := if file.Some? then file.value.prior else [];
    LeanOnApplied(d, file);
    RecordCompletes(before, d.running);
    CompletedDisables(d, before, Reconciled(d, true));
  }

  lemma LeanOnRebuilt(d: Device)
    requires Usable(d.running) && d.marker.Unreadable?
    ensures RecordsAll(d, Reconciled(d, true)) && DisablesAll(d, Reconciled(d, true))
  {
    hide LeanOnWrites;
    var rebuilt := Marker(Rebuilt(d.running, LEAN_PACKAGES), true);
    var (put, reenables) := ([PutMarker(rebuilt)], Reenables(d.running, LEAN_PACKAGES));
    var lean := LeanOnWrites(Some(rebuilt), Reenabled(d.running));
    assert Plan(d, true, true) == (put + reenables) + lean;
    AppliedInTurn(d, put + reenables, lean);
    AppliedInTurn(d, put, reenables);
    var d1 := ApplyAll(d, put);
    assert d1 == Apply(d, put[0]) by { assert put[1..] == []; }
    ReenablesApplied(d1, d.running, LEAN_PACKAGES);
    var d2 := ApplyAll(d1, reenables);
    assert d2.running == Reenabled(d.running);
    LeanOnApplied(d2, Some(rebuilt));
    RecordCompletes(rebuilt.prior, d2.running);
    forall p | p in LEAN_PACKAGES && p in d.running ensures Lookup(rebuilt.prior, p) == Some(Enabled) {
      RebuiltRecords(d.running, LEAN_PACKAGES, p);
    }
  }

  /** After an undisturbed launched reconcile with Lean mode on, of any usable device: every listed package it has
      is recorded as it was before Lean mode, each of them that was enabled is disabled, and no other package
      has changed. */
  lemma LeanOnDisablesAll(d: Device)
    requires Usable(d.running)
    ensures RecordsAll(d, Reconciled(d, true)) && DisablesAll(d, Reconciled(d, true))
  {
    hide Plan, RecordsAll, DisablesAll;
    if d.marker.Unreadable? { LeanOnRebuilt(d); } else { LeanOnReadable(d); }
  }

  // ---------------------------------------------------------------- boots that lose disables

  /** A launched lean-mode boot after another, each start finding what the kill before it left in storage. */
  function LeanBoots(d: Device, lefts: seq<map<string, PackageState>>): Device
    decreases |lefts|
  {
    if lefts == [] then Reconciled(d, true)
    else Reconciled(Started(LeanBoots(d, lefts[..|lefts| - 1]), lefts[|lefts| - 1]), true)
  }

  predicate MayBoot(d: Device, lefts: seq<map<string, PackageState>>)
    decreases |lefts|
  {
    if lefts == [] then Usable(d.running)
    else
      var last := |lefts| - 1;
      MayBoot(d, lefts[..last]) && MayStart(LeanBoots(d, lefts[..last]), lefts[last]) && Usable(lefts[last])
  }

  predicate KeysAgree(d: Device) {
    d.running.Keys == d.stored.Keys
  }

  lemma {:induction false} WritesKeepKeys(d: Device, ws: seq<Write>)
    requires KeysAgree(d)
    ensures KeysAgree(ApplyAll(d, ws))
    decreases |ws|
  {
    if ws != [] { WritesKeepKeys(Apply(d, ws[0]), ws[1..]); }
  }

  /** A later boot finds the same packages, and its record says of each what the first one found. */
  ghost predicate Follows(d: Device, t: Device) {
    && KeysAgree(t) && t.running.Keys == d.running.Keys && RecordsAll(d, t)
    && forall p | p in LEAN_PACKAGES && p in d.running && WasEnabled(d, p) :: t.running[p] == Disabled
  }

  lemma FirstFollows(d: Device)
    requires Usable(d.running) && KeysAgree(d)
    ensures Follows(d, Reconciled(d, true))
  {
    hide Plan, RecordsAll;
    LeanOnDisablesAll(d);
    WritesKeepKeys(d, Plan(d, true, true));
  }

  lemma NextFollows(d: Device, t: Device, left: map<string, PackageState>)
    requires Follows(d, t) && MayStart(t, left) && Usable(left)
    ensures Follows(d, Reconciled(Started(t, left), true))
    ensures var u := Reconciled(Started(t, left), true);
            forall p | p in left && !(p in LEAN_PACKAGES && WasEnabled(d, p)) :: u.running[p] == left[p]
  {
    hide Plan, LEAN_PACKAGES, ApplyAll, Lookup;
    var s := Started(t, left);
    LeanOnDisablesAll(s);
    WritesKeepKeys(s, Plan(s, true, true));
    forall p | p in LEAN_PACKAGES && p in d.running ensures WasEnabled(s, p) == WasEnabled(d, p) {
      assert p in left;
    }
  }

  /** However many launched lean-mode boots there are, and whichever disables each kill between them loses: after
      each boot every listed package that was enabled before the first is disabled, every other is as this boot
      found it, and the record says what it said after the first. */
  lemma {:induction false} LostDisablesAreRepeated(d: Device, lefts: seq<map<string, PackageState>>)
    requires KeysAgree(d) && MayBoot(d, lefts)
    ensures var t := LeanBoots(d, lefts);
            var found := if lefts == [] then d.running else lefts[|lefts| - 1];
            && t.running.Keys == found.Keys == d.running.Keys
            && RecordsAll(d, t)
            && forall p | p in found :: t.running[p] == if p in LEAN_PACKAGES && WasEnabled(d, p) then Disabled else found[p]
    decreases |lefts|
  {
    hide RecordsAll, LEAN_PACKAGES, Reconciled;
    if lefts == [] {
      LeanOnDisablesAll(d);
    } else {
      BootsFollow(d, lefts[..|lefts| - 1]);
      NextFollows(d, LeanBoots(d, lefts[..|lefts| - 1]), lefts[|lefts| - 1]);
    }
  }

  lemma {:induction false} BootsFollow(d: Device, lefts: seq<map<string, PackageState>>)
    requires KeysAgree(d) && MayBoot(d, lefts)
    ensures Follows(d, LeanBoots(d, lefts))
    decreases |lefts|
  {
    hide Follows, Reconciled, Usable, KeysAgree;
    if lefts == [] {
      FirstFollows(d);
    } else {
      BootsFollow(d, lefts[..|lefts| - 1]);
      NextFollows(d, LeanBoots(d, lefts[..|lefts| - 1]), lefts[|lefts| - 1]);
    }
  }

  // ---------------------------------------------------------------- at rest

  lemma {:induction false} NothingToRecord(prior: seq<Entry>, state: map<string, PackageState>, pkgs: seq<string>)
    requires forall p | p in pkgs && p in state :: Lookup(prior, p).Some?
    ensures Recorded(prior, state, pkgs) == prior
    decreases |pkgs|
  {
    if pkgs != [] { NothingToRecord(prior, state, pkgs[1..]); }
  }

  lemma {:induction false} NothingToDisable(prior: seq<Entry>, state: map<string, PackageState>, pkgs: seq<string>)
    requires forall p | p in pkgs && IsEnabled(state, p) :: Lookup(prior, p) != Some(Enabled)
    ensures Disables(prior, state, pkgs) == []
    decreases |pkgs|
  {
    if pkgs != [] { NothingToDisable(prior, state, pkgs[1..]); }
  }

  lemma AndroidIsNotListed()
    ensures "android" !in LEAN_PACKAGES
  {
    assert |"android"| < |LEAN_PACKAGES[1]| < |LEAN_PACKAGES[3]| < |LEAN_PACKAGES[2]| < |LEAN_PACKAGES[0]|;
  }

  /** Once the disables are kept, the next launched boot with Lean mode on has nothing to write. */
  lemma LeanRests(d: Device)
    requires Usable(d.running)
    ensures var t := Reconciled(d, true);
            Usable(t.running) && Plan(Started(t, t.running), true, true) == []
  {
    hide Reconciled, WasEnabled;
    var t := Reconciled(d, true);
    LeanOnDisablesAll(d);
    AndroidIsNotListed();
    var prior := t.marker.marker.prior;
    NothingToRecord(prior, t.running, LEAN_PACKAGES);
    NothingToDisable(prior, t.running, LEAN_PACKAGES);
    assert LeanOnWrites(Some(t.marker.marker), t.running) == [];
  }

  // ---------------------------------------------------------------- Lean mode off

  /** The record an undisturbed reconcile with Lean mode off leaves. */
  ghost predicate LeavesRecord(d: Device, t: Device) {
    match d.marker
    case Absent => t.marker.Absent?
    case Unreadable =>
      t.marker.Holds? && t.marker.marker.restoring &&
      forall e :: e in t.marker.marker.prior <==> e.was.Enabled? && e.pkg in LEAN_PACKAGES && e.pkg in d.running
    case Holds(m) =>
      if exists p :: Owed(d, p) && IsDisabled(d.running, p) then t.marker == Holds(Marker(m.prior, true))
      else if forall p | Owed(d, p) :: p in d.running then t.marker.Absent?
      else t.marker == d.marker
  }

  ghost predicate Restores(d: Device, t: Device) {
    && t.running.Keys == d.running.Keys
    && forall p | p in d.running :: t.running[p] == if Owed(d, p) then Enabled else d.running[p]
  }

  lemma {:induction false} RebuiltIs(state: map<string, PackageState>, pkgs: seq<string>, e: Entry)
    ensures e in Rebuilt(state, pkgs) <==> e.was.Enabled? && e.pkg in pkgs && e.pkg in state
  {
    if pkgs != [] {
      assert pkgs == [pkgs[0]] + pkgs[1..];
      RebuiltIs(state, pkgs[1..], e);
    }
  }

  lemma OffRebuilds(d: Device)
    requires Usable(d.running) && d.marker.Unreadable?
    ensures Restores(d, Reconciled(d, false)) && LeavesRecord(d, Reconciled(d, false))
  {
    var rebuilt := Marker(Rebuilt(d.running, LEAN_PACKAGES), true);
    var (put, reenables) := ([PutMarker(rebuilt)], Reenables(d.running, LEAN_PACKAGES));
    assert Plan(d, false, true) == put + reenables;
    AppliedInTurn(d, put, reenables);
    assert ApplyAll(d, put) == Apply(d, put[0]) by { assert put[1..] == []; }
    ReenablesApplied(Apply(d, put[0]), d.running, LEAN_PACKAGES);
    forall e ensures e in rebuilt.prior <==> e.was.Enabled? && e.pkg in LEAN_PACKAGES && e.pkg in d.running {
      RebuiltIs(d.running, LEAN_PACKAGES, e);
    }
  }

  lemma SeenOrOwed(d: Device, m: Marker)
    requires d.marker == Holds(m)
    ensures Enables(m.prior, d.running) == [] <==> !exists p :: Owed(d, p) && IsDisabled(d.running, p)
    ensures Enables(m.prior, d.running) == [] ==> (AllSeenEnabled(m.prior, d.running) <==> forall p | Owed(d, p) :: p in d.running)
  {
    NothingToEnable(m.prior, d.running);
    forall e | e in m.prior && e.was.Enabled? ensures Owed(d, e.pkg) { assert Entry(e.pkg, Enabled) == e; }
    forall p | Owed(d, p) && AllSeenEnabled(m.prior, d.running)
      ensures p in d.running
    {
      assert IsEnabled(d.running, Entry(p, Enabled).pkg);
    }
  }

  lemma OffReads(d: Device, m: Marker)
    requires Usable(d.running) && d.marker == Holds(m)
    ensures Restores(d, Reconciled(d, false)) && LeavesRecord(d, Reconciled(d, false))
  {
    SeenOrOwed(d, m);
    var enables := Enables(m.prior, d.running);
    if enables == [] {
      assert [DeleteMarker][1..] == [];
      assert forall p | p in d.running && Owed(d, p) :: !IsDisabled(d.running, p);
    } else {
      hide Enables;
      var puts := if m.restoring then [] else [PutMarker(Marker(m.prior, true))];
      assert Plan(d, false, true) == puts + enables;
      AppliedInTurn(d, puts, enables);
      assert ApplyAll(d, puts) == d.(marker := Holds(Marker(m.prior, true))) by {
        if !m.restoring { assert puts[1..] == []; }
      }
      EnablesApplied(d.(marker := Holds(Marker(m.prior, true))), m.prior, d.running);
    }
  }

  /** After an undisturbed reconcile with Lean mode off, of any usable device: every package owed back is enabled,
      no other has changed, and the record is gone exactly when nothing was left to enable and every owed package
      is there; an unreadable one is replaced by one that names every listed package there is. */
  lemma LeanOffRestoresAll(d: Device)
    requires Usable(d.running)
    ensures Restores(d, Reconciled(d, false)) && LeavesRecord(d, Reconciled(d, false))
  {
    if d.marker.Unreadable? {
      OffRebuilds(d);
    } else if d.marker.Holds? {
      OffReads(d, d.marker.marker);
    }
  }

  /** A reconcile writes nothing on a device whose answer does not name `android` as enabled, in lean mode on one
      tapflow did not launch, and otherwise on one with no record. */
  lemma WritesNothing(d: Device, lean: bool, launched: bool)
    requires "android" !in d.running || !d.running["android"].Enabled? || (lean && !launched) || (!lean && d.marker.Absent?)
    ensures ApplyAll(d, Plan(d, lean, launched)) == d
  {
  }
}
