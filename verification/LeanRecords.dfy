/**
 The record over many boots: it names each package once, and a package it records as disabled is never
 touched.
 */
module LeanRecords {

  import opened Options
  import opened Lean
  import opened LeanSafety
  import opened LeanRuns

  ghost predicate UniqueKeys(prior: seq<Entry>) {
    forall i, j | 0 <= i < j < |prior| :: prior[i].pkg != prior[j].pkg
  }

  // ---------------------------------------------------------------- each package once

  lemma {:induction false} AbsentIsNew(prior: seq<Entry>, pkg: string)
    requires Lookup(prior, pkg).None?
    ensures forall i | 0 <= i < |prior| :: prior[i].pkg != pkg
  {
    if prior != [] { AbsentIsNew(prior[1..], pkg); }
  }

  lemma {:induction false} RecordedIsUnique(prior: seq<Entry>, state: map<string, PackageState>, pkgs: seq<string>)
    requires UniqueKeys(prior)
    ensures UniqueKeys(Recorded(prior, state, pkgs))
    decreases |pkgs|
  {
    if pkgs != [] {
      if pkgs[0] in state && Lookup(prior, pkgs[0]).None? {
        AbsentIsNew(prior, pkgs[0]);
        RecordedIsUnique(prior + [Entry(pkgs[0], state[pkgs[0]])], state, pkgs[1..]);
      } else {
        RecordedIsUnique(prior, state, pkgs[1..]);
      }
    }
  }

  ghost predicate Distinct(pkgs: seq<string>) {
    forall i, j | 0 <= i < j < |pkgs| :: pkgs[i] != pkgs[j]
  }

  lemma {:induction false} RebuiltIsUnique(state: map<string, PackageState>, pkgs: seq<string>)
    requires Distinct(pkgs)
    ensures UniqueKeys(Rebuilt(state, pkgs))
    ensures forall e | e in Rebuilt(state, pkgs) :: e.pkg in pkgs
    decreases |pkgs|
  {
    if pkgs != [] {
      var rest := Rebuilt(state, pkgs[1..]);
      RebuiltIsUnique(state, pkgs[1..]);
      assert pkgs == [pkgs[0]] + pkgs[1..];
      forall i | 0 <= i < |rest| ensures rest[i].pkg != pkgs[0] {
        assert rest[i] in rest;
        var k :| 0 <= k < |pkgs[1..]| && pkgs[1..][k] == rest[i].pkg;
      }
    }
  }

  lemma ListIsDistinct()
    ensures Distinct(LEAN_PACKAGES)
  {
    assert |LEAN_PACKAGES[1]| < |LEAN_PACKAGES[3]| < |LEAN_PACKAGES[2]| < |LEAN_PACKAGES[0]|;
  }

  ghost predicate UniqueMarker(file: MarkerFile) {
    file.Holds? ==> UniqueKeys(file.marker.prior)
  }

  /** Every record the reconcile writes names each package once. */
  lemma PlanRecordsOnce(d: Device, lean: bool, launched: bool, w: Write)
    requires UniqueMarker(d.marker) && w in Plan(d, lean, launched) && w.PutMarker?
    ensures UniqueKeys(w.marker.prior)
  {
    hide Rebuilt, Reenables, Disables, Enables, Recorded, UniqueKeys;
    ListIsDistinct();
    RebuiltIsUnique(d.running, LEAN_PACKAGES);
    var rebuilt := Rebuilt(d.running, LEAN_PACKAGES);
    EmptyIsUnique();
    RecordedIsUnique(rebuilt, Reenabled(d.running), LEAN_PACKAGES);
    RecordedIsUnique([], d.running, LEAN_PACKAGES);
    if d.marker.Holds? { RecordedIsUnique(d.marker.marker.prior, d.running, LEAN_PACKAGES); }
    OnlyPackages(d, lean, w);
  }

  lemma EmptyIsUnique()
    ensures UniqueKeys([])
  {
  }

  /** The loops over packages write no record. */
  lemma OnlyPackages(d: Device, lean: bool, w: Write)
    requires w.PutMarker?
    ensures w !in Reenables(d.running, LEAN_PACKAGES)
    ensures forall prior, state :: w !in Disables(prior, state, LEAN_PACKAGES)
    ensures forall prior, state :: w !in Enables(prior, state)
  {
    ReenablesSet(d.running, LEAN_PACKAGES, w);
    forall prior, state
      ensures w !in Disables(prior, state, LEAN_PACKAGES)
    {
      DisablesSet(prior, state, LEAN_PACKAGES, w);
    }
    forall prior, state ensures w !in Enables(prior, state) { EnablesSet(prior, state, w); }
  }

  lemma {:induction false} ReenablesSet(state: map<string, PackageState>, pkgs: seq<string>, w: Write)
    requires !w.SetPackage?
    ensures w !in Reenables(state, pkgs)
  {
    if pkgs != [] { ReenablesSet(state, pkgs[1..], w); }
  }

  lemma {:induction false} DisablesSet(prior: seq<Entry>, state: map<string, PackageState>, pkgs: seq<string>, w: Write)
    requires !w.SetPackage?
    ensures w !in Disables(prior, state, pkgs)
    decreases |pkgs|
  {
    if pkgs != [] { DisablesSet(prior, state, pkgs[1..], w); }
  }

  lemma {:induction false} EnablesSet(prior: seq<Entry>, state: map<string, PackageState>, w: Write)
    requires !w.SetPackage?
    ensures w !in Enables(prior, state)
  {
    if prior != [] { EnablesSet(prior[1..], state, w); }
  }

  lemma {:induction false} WritesKeepUnique(d: Device, ws: seq<Write>)
    requires UniqueMarker(d.marker) && forall w | w in ws && w.PutMarker? :: UniqueKeys(w.marker.prior)
    ensures UniqueMarker(ApplyAll(d, ws).marker)
    decreases |ws|
  {
    hide UniqueKeys;
    if ws != [] { WritesKeepUnique(Apply(d, ws[0]), ws[1..]); }
  }

  lemma AfterIsUnique(d: Device, e: Event)
    requires UniqueMarker(d.marker) && MayHappen(d, e)
    ensures UniqueMarker(After(d, e).marker)
  {
    hide UniqueKeys, Plan;
    if e.Reconcile? {
      var ws := Plan(d, e.lean, e.launched)[..e.writes];
      forall w | w in ws && w.PutMarker?
        ensures UniqueKeys(w.marker.prior)
      {
        PlanRecordsOnce(d, e.lean, e.launched, w);
      }
      WritesKeepUnique(d, ws);
    }
  }

  /** Over every run, corruption and rebuilding included, a record names each package once. */
  lemma {:induction false} RecordsNameEachOnce(d: Device, events: seq<Event>)
    requires Untouched(d) && Run(d, events).Some?
    ensures UniqueMarker(Run(d, events).value.marker)
    decreases |events|
  {
    hide UniqueMarker, After, MayHappen;
    if events == [] {
      NothingRecorded(d);
    } else {
      RecordsNameEachOnce(d, events[..|events| - 1]);
      AfterIsUnique(Run(d, events[..|events| - 1]).value, events[|events| - 1]);
    }
  }

  lemma NothingRecorded(d: Device)
    requires Untouched(d)
    ensures UniqueMarker(d.marker)
  {
  }

  // ---------------------------------------------------------------- never touched

  /** The package is as it was, and so recorded, or not yet recorded and disabled. */
  ghost predicate Untouchable(d: Device, pkg: string, was: PackageState) {
    && pkg in d.running && d.running[pkg] == was
    && pkg in d.stored && d.stored[pkg] == {was}
    && RecordSpares(d.marker, pkg, was)
  }

  ghost predicate RecordSpares(file: MarkerFile, pkg: string, was: PackageState) {
    match file
    case Absent => was.Disabled?
    case Unreadable => false
    case Holds(m) => UniqueKeys(m.prior) && Spared(m.prior, pkg, was)
  }

  predicate Spared(prior: seq<Entry>, pkg: string, was: PackageState) {
    Lookup(prior, pkg) == Some(Disabled) || (Lookup(prior, pkg).None? && was.Disabled?)
  }

  predicate Spares(w: Write, pkg: string, was: PackageState) {
    match w
    case PutMarker(m) => Spared(m.prior, pkg, was)
    case DeleteMarker => true
    case SetPackage(p, _) => p != pkg
  }

  /** Completing a record records the package as it is found, if at all. */
  lemma {:induction false} RecordedSpares(prior: seq<Entry>, state: map<string, PackageState>, pkgs: seq<string>, pkg: string, was: PackageState)
    requires Spared(prior, pkg, was) && pkg in state && state[pkg] == was
    ensures Spared(Recorded(prior, state, pkgs), pkg, was)
    decreases |pkgs|
  {
    if pkgs != [] {
      if pkgs[0] in state && Lookup(prior, pkgs[0]).None? {
        LookupAppended(prior, Entry(pkgs[0], state[pkgs[0]]), pkg);
        RecordedSpares(prior + [Entry(pkgs[0], state[pkgs[0]])], state, pkgs[1..], pkg, was);
      } else {
        RecordedSpares(prior, state, pkgs[1..], pkg, was);
      }
    }
  }

  lemma {:induction false} DisablesSpare(prior: seq<Entry>, state: map<string, PackageState>, pkgs: seq<string>, pkg: string, w: Write)
    requires Lookup(prior, pkg) != Some(Enabled) && w in Disables(prior, state, pkgs)
    ensures w.SetPackage? && w.pkg != pkg
    decreases |pkgs|
  {
    if pkgs != [] && w in Disables(prior, state, pkgs[1..]) { DisablesSpare(prior, state, pkgs[1..], pkg, w); }
  }

  lemma {:induction false} EnablesSpare(prior: seq<Entry>, state: map<string, PackageState>, pkg: string, w: Write)
    requires UniqueKeys(prior) && Lookup(prior, pkg) != Some(Enabled) && w in Enables(prior, state)
    ensures w.SetPackage? && w.pkg != pkg
  {
    if prior != [] {
      assert UniqueKeys(prior[1..]);
      if w in Enables(prior[1..], state) {
        if prior[0].pkg == pkg { AbsentLater(prior, pkg); }
        EnablesSpare(prior[1..], state, pkg, w);
      }
    }
  }

  lemma {:induction false} NowhereIsAbsent(prior: seq<Entry>, pkg: string)
    requires forall i | 0 <= i < |prior| :: prior[i].pkg != pkg
    ensures Lookup(prior, pkg).None?
  {
    if prior != [] { NowhereIsAbsent(prior[1..], pkg); }
  }

  lemma AbsentLater(prior: seq<Entry>, pkg: string)
    requires UniqueKeys(prior) && prior != [] && prior[0].pkg == pkg
    ensures Lookup(prior[1..], pkg).None?
  {
    NowhereIsAbsent(prior[1..], pkg);
  }

  lemma LeanOnSpares(file: Option<Marker>, state: map<string, PackageState>, pkg: string, was: PackageState, w: Write)
    requires pkg in state && state[pkg] == was && w in LeanOnWrites(file, state)
    requires Spared(if file.Some? then file.value.prior else [], pkg, was)
    ensures Spares(w, pkg, was)
  {
    hide Disables, Recorded;
    var base := if file.Some? then file.value.prior else [];
    var prior := Recorded(base, state, LEAN_PACKAGES);
    RecordedSpares(base, state, LEAN_PACKAGES, pkg, was);
    if w in Disables(prior, state, LEAN_PACKAGES) { DisablesSpare(prior, state, LEAN_PACKAGES, pkg, w); }
  }

  lemma PlanSpares(d: Device, lean: bool, launched: bool, pkg: string, was: PackageState, w: Write)
    requires Untouchable(d, pkg, was) && w in Plan(d, lean, launched)
    ensures Spares(w, pkg, was)
  {
    hide Enables, LeanOnWrites, UniqueKeys;
    if lean {
      LeanOnSpares(if d.marker.Holds? then Some(d.marker.marker) else None, d.running, pkg, was, w);
    } else if w in Enables(d.marker.marker.prior, d.running) {
      EnablesSpare(d.marker.marker.prior, d.running, pkg, w);
    }
  }

  /** The package and its storage, and what the record says of it. */
  ghost predicate Same(d: Device, pkg: string, was: PackageState) {
    && pkg in d.running && d.running[pkg] == was && pkg in d.stored && d.stored[pkg] == {was}
    && (d.marker.Holds? ==> Spared(d.marker.marker.prior, pkg, was)) && !d.marker.Unreadable?
  }

  lemma {:induction false} SparingWrites(d: Device, ws: seq<Write>, pkg: string, was: PackageState)
    requires Same(d, pkg, was) && forall w | w in ws :: Spares(w, pkg, was)
    ensures Same(ApplyAll(d, ws), pkg, was)
    decreases |ws|
  {
    hide Spared;
    if ws != [] {
      assert Spares(ws[0], pkg, was);
      SparingWrites(Apply(d, ws[0]), ws[1..], pkg, was);
    }
  }

  lemma AfterIsSame(d: Device, e: Event, pkg: string, was: PackageState)
    requires Untouchable(d, pkg, was) && MayHappen(d, e) && !e.Corrupt?
    ensures Same(After(d, e), pkg, was)
  {
    hide Spared, Plan, UniqueKeys;
    if e.Reconcile? {
      var ws := Plan(d, e.lean, e.launched)[..e.writes];
      forall w | w in ws ensures Spares(w, pkg, was) { PlanSpares(d, e.lean, e.launched, pkg, was, w); }
      SparingWrites(d, ws, pkg, was);
    }
  }

  lemma AfterIsUntouchable(d: Device, e: Event, pkg: string, was: PackageState)
    requires Untouchable(d, pkg, was) && MayHappen(d, e) && !e.Corrupt?
    requires After(d, e).marker.Absent? ==> was.Disabled?
    ensures Untouchable(After(d, e), pkg, was)
  {
    hide UniqueKeys, Spared, After, MayHappen;
    AfterIsSame(d, e, pkg, was);
    AfterIsUnique(d, e);
  }

  /** At every moment of the run there is a record. */
  ghost predicate AlwaysRecorded(d: Device, events: seq<Event>) {
    forall k | 0 <= k <= |events| && Run(d, events[..k]).Some? :: Run(d, events[..k]).value.marker.Holds?
  }

  ghost predicate NeverCorrupt(events: seq<Event>) {
    forall e | e in events :: !e.Corrupt?
  }

  lemma {:induction false} RunKeepsUntouchable(d: Device, events: seq<Event>, pkg: string, was: PackageState)
    requires Untouchable(d, pkg, was) && NeverCorrupt(events) && Run(d, events).Some?
    requires was.Disabled? || AlwaysRecorded(d, events)
    ensures Untouchable(Run(d, events).value, pkg, was)
    decreases |events|
  {
    hide Untouchable, After, MayHappen;
    if events != [] {
      var front, e := events[..|events| - 1], events[|events| - 1];
      assert forall k | 0 <= k <= |front| :: front[..k] == events[..k];
      assert events[..|events|] == events;
      RunKeepsUntouchable(d, front, pkg, was);
      assert e in events;
      AfterIsUntouchable(Run(d, front).value, e, pkg, was);
    }
  }

  /** From an untouched device and over every run in which the marker stays readable: a package that was
      disabled before Lean mode came is never changed, running or stored, whether or not there is a record. */
  lemma DisabledBeforeIsLeftAlone(d: Device, events: seq<Event>, pkg: string)
    requires Untouched(d) && IsDisabled(d.running, pkg) && NeverCorrupt(events) && Run(d, events).Some?
    ensures var t := Run(d, events).value;
            pkg in t.running && pkg in t.stored && t.running[pkg] == Disabled && t.stored[pkg] == {Disabled}
  {
    RunKeepsUntouchable(d, events, pkg, Disabled);
  }

  /** From any moment at which the record says disabled: while there is a readable record, the package stays
      whatever it is, running and stored, and stays so recorded. */
  lemma RecordedDisabledIsLeftAlone(d: Device, before: seq<Event>, events: seq<Event>, pkg: string, was: PackageState)
    requires Untouched(d) && Run(d, before).Some?
    requires var m := Run(d, before).value;
             && m.marker.Holds? && Lookup(m.marker.marker.prior, pkg) == Some(Disabled)
             && pkg in m.running && m.running[pkg] == was && pkg in m.stored && m.stored[pkg] == {was}
             && NeverCorrupt(events) && AlwaysRecorded(m, events) && Run(m, events).Some?
    ensures var t := Run(Run(d, before).value, events).value;
            && pkg in t.running && pkg in t.stored && t.running[pkg] == was && t.stored[pkg] == {was}
            && t.marker.Holds? && Spared(t.marker.marker.prior, pkg, was)
  {
    var m := Run(d, before).value;
    RecordsNameEachOnce(d, before);
    RunKeepsUntouchable(m, events, pkg, was);
    assert events[..|events|] == events;
  }
}
