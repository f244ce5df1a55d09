/**
 Lean mode on Android: bundled packages kept disabled while it is on and put back when it is off, with a
 record on the device that must outlive a kill between any two writes.
 */
module Lean {

  import opened Options

  const LEAN_PACKAGES: seq<string> := [
    "com.google.android.googlequicksearchbox",
    "com.google.android.youtube",
    "com.google.android.apps.youtube.music",
    "com.google.android.apps.wellbeing"]

  datatype PackageState = Enabled | Disabled

  datatype Entry = Entry(pkg: string, was: PackageState)

  /** What each package was before Lean mode first disabled it, in the order it was recorded. */
  datatype Marker = Marker(prior: seq<Entry>, restoring: bool)

  datatype MarkerFile = Absent | Unreadable | Holds(marker: Marker)

  /** A booted emulator. `running` is what its package manager answers. A package write reaches storage
      late, so `stored` holds every value a kill may leave; the marker is written atomically and synced.
      `taken` is the packages tapflow disabled and has not durably enabled again, `reenabled` those it has
      enabled since the emulator started. */
  datatype Device = Device(
    running: map<string, PackageState>,
    stored: map<string, set<PackageState>>,
    marker: MarkerFile,
    taken: set<string>,
    reenabled: set<string>)

  datatype Write = PutMarker(marker: Marker) | DeleteMarker | SetPackage(pkg: string, to: PackageState)

  function Apply(d: Device, w: Write): Device {
    match w
    case PutMarker(m) => d.(marker := Holds(m))
    case DeleteMarker => d.(marker := Absent)
    case SetPackage(pkg, to) =>
      d.(running := d.running[pkg := to],
         stored := d.stored[pkg := (if pkg in d.stored then d.stored[pkg] else {}) + {to}],
         taken := if to.Disabled? then d.taken + {pkg} else d.taken,
         reenabled := if to.Enabled? then d.reenabled + {pkg} else d.reenabled)
  }

  function ApplyAll(d: Device, ws: seq<Write>): Device
    decreases |ws|
  {
    if ws == [] then d else ApplyAll(Apply(d, ws[0]), ws[1..])
  }

  // ---------------------------------------------------------------- the plan of one reconcile

  function Lookup(prior: seq<Entry>, pkg: string): Option<PackageState> {
    if prior == [] then None
    else if prior[0].pkg == pkg then Some(prior[0].was)
    else Lookup(prior[1..], pkg)
  }

  predicate IsEnabled(state: map<string, PackageState>, pkg: string) {
    pkg in state && state[pkg].Enabled?
  }

  predicate IsDisabled(state: map<string, PackageState>, pkg: string) {
    pkg in state && state[pkg].Disabled?
  }

  /** The record with every listed package the image has and it lacks. */
  function Recorded(prior: seq<Entry>, state: map<string, PackageState>, pkgs: seq<string>): seq<Entry>
    decreases |pkgs|
  {
    if pkgs == [] then prior
    else if pkgs[0] in state && Lookup(prior, pkgs[0]).None? then
      Recorded(prior + [Entry(pkgs[0], state[pkgs[0]])], state, pkgs[1..])
    else Recorded(prior, state, pkgs[1..])
  }

  function Disables(prior: seq<Entry>, state: map<string, PackageState>, pkgs: seq<string>): seq<Write> {
    if pkgs == [] then []
    else (if Lookup(prior, pkgs[0]) == Some(Enabled) && IsEnabled(state, pkgs[0]) then [SetPackage(pkgs[0], Disabled)] else [])
         + Disables(prior, state, pkgs[1..])
  }

  function Enables(prior: seq<Entry>, state: map<string, PackageState>): seq<Write> {
    if prior == [] then []
    else (if prior[0].was.Enabled? && IsDisabled(state, prior[0].pkg) then [SetPackage(prior[0].pkg, Enabled)] else [])
         + Enables(prior[1..], state)
  }

  /** What an unreadable marker is replaced by: its packages are enabled out of the box. */
  function Rebuilt(state: map<string, PackageState>, pkgs: seq<string>): seq<Entry> {
    if pkgs == [] then []
    else (if pkgs[0] in state then [Entry(pkgs[0], Enabled)] else []) + Rebuilt(state, pkgs[1..])
  }

  function Reenables(state: map<string, PackageState>, pkgs: seq<string>): seq<Write> {
    if pkgs == [] then []
    else (if IsDisabled(state, pkgs[0]) then [SetPackage(pkgs[0], Enabled)] else []) + Reenables(state, pkgs[1..])
  }

  /** The package states after the re-enables an unreadable marker causes. */
  function Reenabled(state: map<string, PackageState>): map<string, PackageState> {
    map p | p in state :: if p in LEAN_PACKAGES then Enabled else state[p]
  }

  predicate AllSeenEnabled(prior: seq<Entry>, state: map<string, PackageState>) {
    forall e | e in prior && e.was.Enabled? :: IsEnabled(state, e.pkg)
  }

  /** The package manager's answer is not used unless it names `android`. */
  predicate Usable(state: map<string, PackageState>) {
    IsEnabled(state, "android")
  }

  function LeanOnWrites(file: Option<Marker>, state: map<string, PackageState>): seq<Write> {
    var prior := Recorded(if file.Some? then file.value.prior else [], state, LEAN_PACKAGES);
    (if file.None? || file.value.restoring || file.value.prior != prior then [PutMarker(Marker(prior, false))] else [])
    + Disables(prior, state, LEAN_PACKAGES)
  }

  function LeanOffWrites(m: Marker, state: map<string, PackageState>): seq<Write> {
    var enables := Enables(m.prior, state);
    if enables == [] then
      if AllSeenEnabled(m.prior, state) then [DeleteMarker] else []
    else
      (if m.restoring then [] else [PutMarker(Marker(m.prior, true))]) + enables
  }

  /** Every write of one `reconcileLean`, in order. */
  function Plan(d: Device, lean: bool, launched: bool): seq<Write> {
    if lean && !launched then []
    else if !lean && d.marker.Absent? then []
    else if !Usable(d.running) then []
    else if d.marker.Unreadable? then
      var rebuilt := Marker(Rebuilt(d.running, LEAN_PACKAGES), true);
      [PutMarker(rebuilt)] + Reenables(d.running, LEAN_PACKAGES)
      + if lean then LeanOnWrites(Some(rebuilt), Reenabled(d.running)) else []
    else if lean then
      LeanOnWrites(if d.marker.Holds? then Some(d.marker.marker) else None, d.running)
    else
      LeanOffWrites(d.marker.marker, d.running)
  }
}
