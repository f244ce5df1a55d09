/**
 When deleting the record is too soon: exactly what the agent did decides whether some timing of the
 emulator's storage then strands a package.
 */
module LeanStrands {

  import opened Options
  import opened Lean
  import opened LeanSafety
  import opened LeanRuns

  /** The run without what the agent cannot see: when storage caught up. */
  function Commands(events: seq<Event>): seq<Event> {
    if events == [] then []
    else
      var last := |events| - 1;
      Commands(events[..last]) + if events[last].Flush? then [] else [events[last]]
  }

  /** The record is deleted after this run, and a kill then brings one of its packages back disabled. */
  ghost predicate Strands(d: Device, events: seq<Event>, left: map<string, PackageState>) {
    && Run(d, events).Some?
    && Deletes(Run(d, events).value)
    && MayStart(Apply(Run(d, events).value, DeleteMarker), left)
    && exists e :: e in Run(d, events).value.marker.marker.prior && e.was.Enabled? && IsDisabled(left, e.pkg)
  }

  // ---------------------------------------------------------------- what storage may hold

  /** Storage knows the packages there are, and may hold what they are. */
  ghost predicate Known(d: Device) {
    d.running.Keys == d.stored.Keys && forall p | p in d.running :: d.running[p] in d.stored[p]
  }

  /** A package seen enabled that was not enabled since the start is stored enabled. */
  ghost predicate Confirmed(d: Device) {
    forall p | IsEnabled(d.running, p) && p !in d.reenabled :: p in d.stored && d.stored[p] == {Enabled}
  }

  /** Where storage never caught up, what was enabled since the start may still be stored disabled. */
  ghost predicate Unflushed(d: Device) {
    forall p | p in d.reenabled :: p in d.stored && Disabled in d.stored[p]
  }

  /** A package is set only where it is, and enabled only where it may be stored disabled. */
  predicate Fits(d: Device, w: Write) {
    w.SetPackage? ==> w.pkg in d.running && w.pkg in d.stored && (w.to.Enabled? ==> Disabled in d.stored[w.pkg])
  }

  lemma {:induction false} DisablesFit(prior: seq<Entry>, state: map<string, PackageState>, pkgs: seq<string>, w: Write)
    requires w in Disables(prior, state, pkgs)
    ensures w.SetPackage? && w.pkg in state && w.to.Disabled?
    decreases |pkgs|
  {
    if pkgs != [] && w in Disables(prior, state, pkgs[1..]) { DisablesFit(prior, state, pkgs[1..], w); }
  }

  lemma {:induction false} EnablesFit(prior: seq<Entry>, state: map<string, PackageState>, w: Write)
    requires w in Enables(prior, state)
    ensures w.SetPackage? && IsDisabled(state, w.pkg)
    decreases |prior|
  {
    if prior != [] && w in Enables(prior[1..], state) { EnablesFit(prior[1..], state, w); }
  }

  lemma {:induction false} ReenablesFit(state: map<string, PackageState>, pkgs: seq<string>, w: Write)
    requires w in Reenables(state, pkgs)
    ensures w.SetPackage? && IsDisabled(state, w.pkg)
    decreases |pkgs|
  {
    if pkgs != [] && w in Reenables(state, pkgs[1..]) { ReenablesFit(state, pkgs[1..], w); }
  }

  lemma LeanOnFits(d: Device, file: Option<Marker>, state: map<string, PackageState>, w: Write)
    requires Known(d) && state.Keys <= d.running.Keys && w in LeanOnWrites(file, state)
    ensures Fits(d, w)
  {
    hide Disables;
    var prior := Recorded(if file.Some? then file.value.prior else [], state, LEAN_PACKAGES);
    if w in Disables(prior, state, LEAN_PACKAGES) { DisablesFit(prior, state, LEAN_PACKAGES, w); }
  }

  lemma PlanFits(d: Device, lean: bool, launched: bool, w: Write)
    requires Known(d) && w in Plan(d, lean, launched)
    ensures Fits(d, w)
  {
    hide Enables, Reenables, LeanOnWrites, Rebuilt;
    if d.marker.Unreadable? {
      var rebuilt := Marker(Rebuilt(d.running, LEAN_PACKAGES), true);
      if w in Reenables(d.running, LEAN_PACKAGES) {
        ReenablesFit(d.running, LEAN_PACKAGES, w);
      } else if w != PutMarker(rebuilt) {
        LeanOnFits(d, Some(rebuilt), Reenabled(d.running), w);
      }
    } else if lean {
      LeanOnFits(d, if d.marker.Holds? then Some(d.marker.marker) else None, d.running, w);
    } else if w in Enables(d.marker.marker.prior, d.running) {
      EnablesFit(d.marker.marker.prior, d.running, w);
    }
  }

  lemma FittingWrite(d: Device, w: Write)
    requires Known(d) && Confirmed(d) && Fits(d, w)
    ensures Known(Apply(d, w)) && Confirmed(Apply(d, w))
    ensures Unflushed(d) ==> Unflushed(Apply(d, w))
    ensures forall v | Fits(d, v) :: Fits(Apply(d, w), v)
  {
  }

  lemma {:induction false} FittingWrites(d: Device, ws: seq<Write>)
    requires Known(d) && Confirmed(d) && forall w | w in ws :: Fits(d, w)
    ensures var t := ApplyAll(d, ws); Known(t) && Confirmed(t) && (Unflushed(d) ==> Unflushed(t))
    decreases |ws|
  {
    hide Known, Confirmed, Unflushed, Fits, Apply;
    if ws != [] {
      FittingWrite(d, ws[0]);
      FittingWrites(Apply(d, ws[0]), ws[1..]);
    }
  }

  lemma AfterIsKnown(d: Device, e: Event)
    requires Known(d) && Confirmed(d) && MayHappen(d, e)
    ensures Known(After(d, e)) && Confirmed(After(d, e))
    ensures Unflushed(d) && !e.Flush? ==> Unflushed(After(d, e))
  {
    if e.Reconcile? {
      hide Plan;
      forall w | w in Plan(d, e.lean, e.launched)[..e.writes] ensures Fits(d, w) { PlanFits(d, e.lean, e.launched, w); }
      FittingWrites(d, Plan(d, e.lean, e.launched)[..e.writes]);
    }
  }

  // ---------------------------------------------------------------- the same commands

  /** The agent sees the same, and storage may hold no less. */
  ghost predicate Like(d: Device, t: Device) {
    && t.running == d.running && t.marker == d.marker && t.reenabled == d.reenabled
    && t.stored.Keys == d.stored.Keys && forall p | p in d.stored :: d.stored[p] <= t.stored[p]
  }

  lemma LikeAfterWrite(d: Device, t: Device, w: Write)
    requires Like(d, t)
    ensures Like(Apply(d, w), Apply(t, w))
  {
  }

  lemma {:induction false} LikeAfterWrites(d: Device, t: Device, ws: seq<Write>)
    requires Like(d, t)
    ensures Like(ApplyAll(d, ws), ApplyAll(t, ws))
    decreases |ws|
  {
    hide Like, Apply;
    if ws != [] {
      LikeAfterWrite(d, t, ws[0]);
      LikeAfterWrites(Apply(d, ws[0]), Apply(t, ws[0]), ws[1..]);
    }
  }

  lemma SamePlan(d: Device, t: Device, lean: bool, launched: bool)
    requires Like(d, t)
    ensures Plan(d, lean, launched) == Plan(t, lean, launched)
  {
  }

  lemma LikeAfter(d: Device, t: Device, e: Event)
    requires Like(d, t) && Known(d) && MayHappen(d, e)
    ensures if e.Flush? then Like(After(d, e), t) else MayHappen(t, e) && Like(After(d, e), After(t, e))
  {
    if e.Reconcile? {
      hide Plan;
      SamePlan(d, t, e.lean, e.launched);
      LikeAfterWrites(d, t, Plan(d, e.lean, e.launched)[..e.writes]);
    }
  }

  /** A run's commands alone are a run, which looks the same to the agent. */
  lemma {:induction false} CommandsAlone(d: Device, events: seq<Event>)
    requires Untouched(d) && Run(d, events).Some?
    ensures Run(d, Commands(events)).Some?
    ensures var s, t := Run(d, events).value, Run(d, Commands(events)).value;
            Known(s) && Confirmed(s) && Known(t) && Unflushed(t) && Confirmed(t) && Like(s, t)
    decreases |events|
  {
    hide Known, Confirmed, Unflushed, Like, After, MayHappen;
    if events == [] {
      Beginning(d);
    } else {
      var front, e := events[..|events| - 1], events[|events| - 1];
      CommandsAlone(d, front);
      var s, t := Run(d, front).value, Run(d, Commands(front)).value;
      AfterIsKnown(s, e);
      LikeAfter(s, t, e);
      if e.Flush? {
        assert Commands(events) == Commands(front);
      } else {
        AfterIsKnown(t, e);
        assert Commands(events)[..|Commands(front)|] == Commands(front);
      }
    }
  }

  lemma Beginning(d: Device)
    requires Untouched(d)
    ensures Known(d) && Confirmed(d) && Unflushed(d) && Like(d, d)
  {
  }

  lemma {:induction false} CommandsAreThemselves(events: seq<Event>)
    ensures Commands(Commands(events)) == Commands(events)
    decreases |events|
  {
    if events != [] {
      var front, e := events[..|events| - 1], events[|events| - 1];
      CommandsAreThemselves(front);
      if !e.Flush? {
        assert Commands(events)[..|Commands(front)|] == Commands(front);
      } else {
        assert Commands(events) == Commands(front);
      }
    }
  }

  /** A kill after the deletion, with one package left as storage may still hold it. */
  lemma KillStrands(d: Device, events: seq<Event>, e: Entry)
    requires Run(d, events).Some? && Deletes(Run(d, events).value)
    requires var t := Run(d, events).value;
             Known(t) && Unflushed(t) && e in t.marker.marker.prior && e.was.Enabled? && e.pkg in t.reenabled
    ensures Strands(d, events, Run(d, events).value.running[e.pkg := Disabled])
  {
    var t := Run(d, events).value;
    var left := t.running[e.pkg := Disabled];
    assert IsDisabled(left, e.pkg);
    assert IsEnabled(t.running, e.pkg);
  }

  lemma NoneStranded(d: Device, events: seq<Event>, left: map<string, PackageState>)
    requires Run(d, events).Some? && Confirmed(Run(d, events).value) && !SomeReenabled(Run(d, events).value)
    ensures !Strands(d, events, left)
  {
    if Run(d, events).Some? && Deletes(Run(d, events).value) {
      var t := Run(d, events).value;
      forall e | e in t.marker.marker.prior && e.was.Enabled? && MayStart(Apply(t, DeleteMarker), left)
        ensures !IsDisabled(left, e.pkg)
      {
        assert IsEnabled(t.running, e.pkg);
      }
    }
  }

  /** Whatever the agent did before it deletes the record, some timing of the emulator's storage lets a kill
      bring back a recorded package disabled, with no record left, exactly when the agent enabled a recorded
      package since the emulator started. */
  lemma DeletionStrandsExactlyTheReenabled(d: Device, events: seq<Event>)
    requires Untouched(d) && Run(d, events).Some? && Deletes(Run(d, events).value)
    ensures (exists es, left :: Commands(es) == Commands(events) && Strands(d, es, left))
            <==> SomeReenabled(Run(d, events).value)
  {
    hide Known, Confirmed, Unflushed, Strands, Deletes;
    CommandsAlone(d, events);
    var s, t := Run(d, events).value, Run(d, Commands(events)).value;
    LikeDeletes(s, t);
    if SomeReenabled(s) {
      var e :| e in s.marker.marker.prior && e.was.Enabled? && e.pkg in s.reenabled;
      KillStrands(d, Commands(events), e);
      CommandsAreThemselves(events);
    } else {
      forall es, left | Commands(es) == Commands(events) && Run(d, es).Some? ensures !Strands(d, es, left) {
        CommandsAlone(d, es);
        LikeDeletes(Run(d, es).value, t);
        NoneStranded(d, es, left);
      }
      forall es, left | Commands(es) == Commands(events) && Strands(d, es, left)
        ensures Run(d, es).Some?
      {
        RunOf(d, es, left);
      }
    }
  }

  lemma RunOf(d: Device, es: seq<Event>, left: map<string, PackageState>)
    requires Strands(d, es, left)
    ensures Run(d, es).Some?
  {
  }

  lemma LikeDeletes(s: Device, t: Device)
    requires Like(s, t)
    ensures t.marker == s.marker && t.reenabled == s.reenabled
    ensures Deletes(t) == Deletes(s) && SomeReenabled(t) == SomeReenabled(s)
  {
  }

  // ---------------------------------------------------------------- two runs that delete too soon

  const YOUTUBE := LEAN_PACKAGES[1]

  const RECORD: seq<Entry> := [Entry(YOUTUBE, Enabled)]

  /** An image with one of the packages, never touched. */
  const UNTOUCHED := Device(
    map["android" := Enabled, YOUTUBE := Enabled],
    map["android" := {Enabled}, YOUTUBE := {Enabled}],
    Absent, {}, {})

  /** The same after a lean-mode boot and a start that found its writes stored. */
  const DISABLED_ONE := Device(
    map["android" := Enabled, YOUTUBE := Disabled],
    map["android" := {Enabled}, YOUTUBE := {Disabled}],
    Holds(Marker(RECORD, false)),
    {YOUTUBE}, {})

  const LEAN_BOOT: seq<Event> := [Reconcile(true, true, 2), Start(map["android" := Enabled, YOUTUBE := Disabled])]

  /** Lean mode turned off: the package is enabled behind a restoring record. */
  const TURNED_OFF: seq<Event> := LEAN_BOOT + [Reconcile(false, false, 2)]

  /** The marker corrupted: a launched lean-mode reconcile rebuilds it, enables what it covered, and is cut off
      before it disables again. */
  const REBUILT: seq<Event> := LEAN_BOOT + [Corrupt, Reconcile(true, true, 2)]

  lemma OnlyYoutube(state: map<string, PackageState>)
    requires state.Keys == {"android", YOUTUBE}
    ensures "android" != YOUTUBE
    ensures forall i | 0 <= i < |LEAN_PACKAGES| :: LEAN_PACKAGES[i] in state <==> i == 1
  {
    assert |"android"| < |LEAN_PACKAGES[1]| < |LEAN_PACKAGES[3]| < |LEAN_PACKAGES[2]| < |LEAN_PACKAGES[0]|;
  }

  lemma YoutubeWrites(state: map<string, PackageState>)
    requires state.Keys == {"android", YOUTUBE}
    ensures state[YOUTUBE].Enabled? ==> Recorded([], state, LEAN_PACKAGES) == RECORD
    ensures state[YOUTUBE].Enabled? ==> Disables(RECORD, state, LEAN_PACKAGES) == [SetPackage(YOUTUBE, Disabled)]
    ensures Rebuilt(state, LEAN_PACKAGES) == RECORD
    ensures state[YOUTUBE].Disabled? ==> Reenables(state, LEAN_PACKAGES) == [SetPackage(YOUTUBE, Enabled)]
    ensures Enables(RECORD, state) == if state[YOUTUBE].Disabled? then [SetPackage(YOUTUBE, Enabled)] else []
  {
    OnlyYoutube(state);
    var (p0, p1, p2, p3) := (LEAN_PACKAGES[0..], LEAN_PACKAGES[1..], LEAN_PACKAGES[2..], LEAN_PACKAGES[3..]);
    assert p0 == LEAN_PACKAGES && p0[1..] == p1 && p1[1..] == p2 && p2[1..] == p3 && p3[1..] == [];
    assert RECORD[1..] == [];
    assert Disables(RECORD, state, p3) == [] && Disables(RECORD, state, p2) == [];
    assert Disables(RECORD, state, p1) == Disables(RECORD, state, p0);
    assert p2[0] !in state && p3[0] !in state && p0[0] !in state;
    assert Rebuilt(state, p3) == [] && Rebuilt(state, p2) == [] + Rebuilt(state, p3);
    assert Rebuilt(state, p1) == RECORD && Rebuilt(state, p0) == [] + RECORD;
    assert Reenables(state, p3) == [] && Reenables(state, p2) == [] + Reenables(state, p3);
    assert Reenables(state, p1) == Reenables(state, p0);
  }

  lemma TwoWrites(d: Device, a: Write, b: Write)
    ensures ApplyAll(d, [a, b]) == Apply(Apply(d, a), b)
  {
    assert [a, b][1..] == [b] && [b][1..] == [];
    assert ApplyAll(Apply(d, a), [b]) == Apply(Apply(d, a), b);
  }

  /** A start that finds the package stored disabled. */
  lemma StartedStored(d: Device)
    requires d == Apply(Apply(UNTOUCHED, PutMarker(Marker(RECORD, false))), SetPackage(YOUTUBE, Disabled))
    ensures MayStart(d, DISABLED_ONE.running) && Started(d, DISABLED_ONE.running) == DISABLED_ONE
  {
    OnlyYoutube(UNTOUCHED.running);
    assert Started(d, DISABLED_ONE.running).stored == DISABLED_ONE.stored;
  }

  lemma RunOfLeanBoot()
    ensures Untouched(UNTOUCHED) && Run(UNTOUCHED, LEAN_BOOT) == Some(DISABLED_ONE)
  {
    hide MayStart, Started, Run;
    YoutubeWrites(UNTOUCHED.running);
    OnlyYoutube(UNTOUCHED.running);
    Nothing(UNTOUCHED);
    var put, change := PutMarker(Marker(RECORD, false)), SetPackage(YOUTUBE, Disabled);
    assert Plan(UNTOUCHED, true, true) == [put, change];
    TwoWrites(UNTOUCHED, put, change);
    assert [put, change][..2] == [put, change];
    var d := ApplyAll(UNTOUCHED, [put, change]);
    StartedStored(d);
    assert [] + [LEAN_BOOT[0]] == [LEAN_BOOT[0]] && [LEAN_BOOT[0]] + [LEAN_BOOT[1]] == LEAN_BOOT;
    OneMore(UNTOUCHED, [], LEAN_BOOT[0]);
    OneMore(UNTOUCHED, [LEAN_BOOT[0]], LEAN_BOOT[1]);
  }

  lemma Nothing(d: Device)
    ensures Run(d, []) == Some(d)
  {
  }

  lemma OneMore(d: Device, events: seq<Event>, e: Event)
    requires Run(d, events).Some? && MayHappen(Run(d, events).value, e)
    ensures Run(d, events + [e]) == Some(After(Run(d, events).value, e))
  {
    assert (events + [e])[..|events|] == events;
  }

  lemma EnabledBehindTheRecord(d: Device, m: Marker, t: Device)
    requires d.running == DISABLED_ONE.running && m.prior == RECORD
    requires t == Apply(Apply(d, PutMarker(m)), SetPackage(YOUTUBE, Enabled))
    ensures Deletes(t) && SomeReenabled(t)
  {
    OnlyYoutube(t.running);
    YoutubeWrites(t.running);
    assert RECORD[0] in t.marker.marker.prior;
  }

  lemma TurnedOffDeletesTooSoon()
    ensures Run(UNTOUCHED, TURNED_OFF).Some?
    ensures Deletes(Run(UNTOUCHED, TURNED_OFF).value) && SomeReenabled(Run(UNTOUCHED, TURNED_OFF).value)
  {
    hide Run, Deletes, SomeReenabled;
    RunOfLeanBoot();
    YoutubeWrites(DISABLED_ONE.running);
    OnlyYoutube(DISABLED_ONE.running);
    var put, change := PutMarker(Marker(RECORD, true)), SetPackage(YOUTUBE, Enabled);
    assert Plan(DISABLED_ONE, false, false) == [put, change];
    TwoWrites(DISABLED_ONE, put, change);
    assert [put, change][..2] == [put, change];
    OneMore(UNTOUCHED, LEAN_BOOT, Reconcile(false, false, 2));
    EnabledBehindTheRecord(DISABLED_ONE, Marker(RECORD, true), ApplyAll(DISABLED_ONE, [put, change]));
  }

  lemma RebuiltDeletesTooSoon()
    ensures Run(UNTOUCHED, REBUILT).Some?
    ensures Deletes(Run(UNTOUCHED, REBUILT).value) && SomeReenabled(Run(UNTOUCHED, REBUILT).value)
  {
    hide Run, Deletes, SomeReenabled, LeanOnWrites;
    RunOfLeanBoot();
    var d := DISABLED_ONE.(marker := Unreadable);
    OneMore(UNTOUCHED, LEAN_BOOT, Corrupt);
    YoutubeWrites(d.running);
    OnlyYoutube(d.running);
    var put, change := PutMarker(Marker(RECORD, true)), SetPackage(YOUTUBE, Enabled);
    assert Plan(d, true, true)[..2] == [put, change];
    TwoWrites(d, put, change);
    OneMore(UNTOUCHED, LEAN_BOOT + [Corrupt], Reconcile(true, true, 2));
    assert LEAN_BOOT + [Corrupt] + [Reconcile(true, true, 2)] == REBUILT;
    EnabledBehindTheRecord(d, Marker(RECORD, true), ApplyAll(d, [put, change]));
  }

  /** The promise fails where an enable precedes an off-mode reconcile in one emulator run: after an off-mode
      reconcile, and after a lean-mode one cut off in the middle of a rebuild. */
  lemma EnablesInTheSameRunStrand()
    ensures exists es, left :: Commands(es) == Commands(TURNED_OFF) && Strands(UNTOUCHED, es, left)
    ensures exists es, left :: Commands(es) == Commands(REBUILT) && Strands(UNTOUCHED, es, left)
  {
    hide Run, Commands, Strands, Deletes, SomeReenabled;
    RunOfLeanBoot();
    TurnedOffDeletesTooSoon();
    RebuiltDeletesTooSoon();
    DeletionStrandsExactlyTheReenabled(UNTOUCHED, TURNED_OFF);
    DeletionStrandsExactlyTheReenabled(UNTOUCHED, REBUILT);
  }
}
