/**
 Lean mode over many boots: what every run keeps, wherever its reconciles are cut off and its emulators
 killed.
 */
module LeanRuns {

  import opened Options
  import opened Lean
  import opened LeanSafety

  /** A reconcile is cut off after `writes` of its writes; a start picks what storage held when the
      emulator was killed; storage catches up on one package; something outside corrupts the marker. */
  datatype Event =
    | Start(left: map<string, PackageState>)
    | Reconcile(lean: bool, launched: bool, writes: nat)
    | Flush(pkg: string)
    | Corrupt

  predicate MayStart(d: Device, left: map<string, PackageState>) {
    left.Keys == d.stored.Keys && forall p | p in left :: left[p] in d.stored[p]
  }

  function Started(d: Device, left: map<string, PackageState>): Device {
    d.(running := left,
       stored := (map p | p in left :: {left[p]}),
       taken := (set p | p in d.taken && !IsEnabled(left, p)),
       reenabled := {})
  }

  predicate MayHappen(d: Device, e: Event) {
    match e
    case Start(left) => MayStart(d, left)
    case Reconcile(lean, launched, writes) => writes <= |Plan(d, lean, launched)|
    case Flush(pkg) => pkg in d.running
    case Corrupt => d.marker.Holds?
  }

  function After(d: Device, e: Event): Device
    requires MayHappen(d, e)
  {
    match e
    case Start(left) => Started(d, left)
    case Reconcile(lean, launched, writes) => ApplyAll(d, Plan(d, lean, launched)[..writes])
    case Flush(pkg) =>
      d.(stored := d.stored[pkg := {d.running[pkg]}],
         taken := if d.running[pkg].Enabled? then d.taken - {pkg} else d.taken)
    case Corrupt => d.(marker := Unreadable)
  }

  /** A device tapflow has never touched. */
  predicate Untouched(d: Device) {
    && d.marker.Absent? && d.taken == {} && d.reenabled == {}
    && d.stored == map p | p in d.running :: {d.running[p]}
  }

  function Run(d: Device, events: seq<Event>): Option<Device> {
    if events == [] then Some(d)
    else
      var last := |events| - 1;
      match Run(d, events[..last])
      case None => None
      case Some(m) => if MayHappen(m, events[last]) then Some(After(m, events[last])) else None
  }

  /** The reconcile deletes a record one of whose packages was enabled since the emulator started. */
  predicate TooSoon(d: Device, e: Event) {
    e.Reconcile? && !e.lean && e.writes > 0 && Deletes(d) && SomeReenabled(d)
  }

  /** No reconcile of the run deletes the record too soon. */
  predicate NeverTooSoon(d: Device, events: seq<Event>) {
    if events == [] then true
    else
      var last := |events| - 1;
      NeverTooSoon(d, events[..last]) && (Run(d, events[..last]).Some? ==> !TooSoon(Run(d, events[..last]).value, events[last]))
  }

  lemma AfterIsSafe(d: Device, e: Event)
    requires Safe(d) && MayHappen(d, e) && !TooSoon(d, e)
    ensures Safe(After(d, e))
  {
    match e
    case Start(left) => StartIsSafe(d, left);
    case Reconcile(lean, launched, writes) =>
      if writes > 0 { EveryMomentIsSafe(d, lean, launched, writes); }
    case Flush(_) =>
    case Corrupt =>
  }

  lemma StartIsSafe(d: Device, left: map<string, PackageState>)
    requires Safe(d) && MayStart(d, left)
    ensures Safe(Started(d, left))
  {
  }

  /** Over every run of boots, reconciles cut off anywhere, kills and corrupted markers that never deletes the
      record too soon: a package tapflow disabled and has not durably enabled again is always in the record. */
  lemma {:induction false} EveryRunIsSafe(d: Device, events: seq<Event>)
    requires Untouched(d) && Run(d, events).Some? && NeverTooSoon(d, events)
    ensures Safe(Run(d, events).value)
  {
    if events != [] {
      var last := |events| - 1;
      EveryRunIsSafe(d, events[..last]);
      AfterIsSafe(Run(d, events[..last]).value, events[last]);
    }
  }

  /** Over every such run: once the marker is gone, no kill can bring back a package tapflow disabled. */
  lemma NoMarkerNothingOwed(d: Device, events: seq<Event>)
    requires Untouched(d) && Run(d, events).Some? && NeverTooSoon(d, events) && Run(d, events).value.marker.Absent?
    ensures Run(d, events).value.taken == {}
  {
    EveryRunIsSafe(d, events);
  }
}
