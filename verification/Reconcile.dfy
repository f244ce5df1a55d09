/**
 The coalescing reconcile: at most one settling pass per device in its queue and one behind it, and the
 boot's own pass beside them.
 */
module Reconcile {

  import opened Options

  datatype Skin = NoSkin | Portrait | Landscape | ReversePortrait | ReverseLandscape

  /** A pass waits behind another, reads the display, measures the corner radius, and is done. `at` is when
      it began, `skin` what it began with. */
  datatype Phase =
    | Waiting(behind: nat)
    | Reading(at: nat, skin: Skin)
    | Measuring(at: nat, skin: Skin)
    | Done(at: nat, skin: Skin)

  /** `owner` is the stream of the caller that made the pass; `direct` the boot's, outside the queue. */
  datatype Pass = Pass(owner: nat, asked: Skin, direct: bool, phase: Phase) {
    predicate Begun() { !phase.Waiting? }
    predicate InFlight() { phase.Reading? || phase.Measuring? }
  }

  datatype Call = Call(at: nat, pass: nat)

  /** One device's reconciles. `stream` counts the streams torn down so far; `skin` is the committed one;
      `latest` the newest frame's, recorded at `frameAt`, whose call got pass `framePass`; `lastOwned` the
      last pass of this stream to end. */
  datatype Reconciler = Reconciler(
    passes: seq<Pass>,
    running: Option<nat>,
    queued: Option<nat>,
    calls: seq<Call>,
    stream: nat,
    skin: Skin,
    latest: Option<Skin>,
    frameAt: nat,
    framePass: nat,
    lastOwned: Option<nat>,
    now: nat)

  datatype Event =
    | Ask(back: nat, asked: Skin)
    | Frame(skin: Skin)
    | Direct(skin: Skin)
    | Advance(pass: nat, moved: bool)
    | Clear

  const START := Reconciler([], None, None, [], 0, NoSkin, None, 0, 0, None, 0)

  /** A pass begins with the newest frame's skin, whoever asked for it. */
  function Begun(s: Reconciler, p: Pass): Pass {
    p.(phase := Reading(s.now, if s.latest.Some? then s.latest.value else p.asked))
  }

  function Start(s: Reconciler, id: nat): Reconciler
    requires id < |s.passes|
  {
    s.(passes := s.passes[id := Begun(s, s.passes[id])], running := Some(id))
  }

  function Added(s: Reconciler, p: Pass): Reconciler {
    s.(passes := s.passes + [p], calls := s.calls + [Call(s.now, |s.passes|)])
  }

  /** `reconcileSerial`: begin a pass, join the one waiting, or be the one that waits. */
  function Serial(s: Reconciler, owner: nat, asked: Skin): Reconciler {
    if s.running.None? then
      Start(Added(s, Pass(owner, asked, false, Waiting(0))), |s.passes|)
    else if s.queued.Some? then
      s.(calls := s.calls + [Call(s.now, s.queued.value)])
    else
      Added(s, Pass(owner, asked, false, Waiting(s.running.value))).(queued := Some(|s.passes|))
  }

  function WaiterFrom(passes: seq<Pass>, id: nat, i: nat): (w: Option<nat>)
    requires i <= |passes|
    ensures w.Some? ==> i <= w.value < |passes| && passes[w.value].phase == Waiting(id)
    ensures w.None? ==> forall k | i <= k < |passes| :: passes[k].phase != Waiting(id)
    decreases |passes| - i
  {
    if i == |passes| then None
    else if passes[i].phase == Waiting(id) then Some(i)
    else WaiterFrom(passes, id, i + 1)
  }

  /** The pass waiting behind `id`. */
  function Waiter(s: Reconciler, id: nat): Option<nat> {
    WaiterFrom(s.passes, id, 0)
  }

  /** A pass ends: it leaves the running slot if that is still its own, and the pass behind it begins and
      takes the slot, whoever holds it. */
  function Ended(s: Reconciler, id: nat): Reconciler
    requires id < |s.passes| && s.passes[id].InFlight()
  {
    var p := s.passes[id];
    var t := s.(passes := s.passes[id := p.(phase := Done(p.phase.at, p.phase.skin))],
                running := if s.running == Some(id) then None else s.running,
                lastOwned := if p.owner == s.stream then Some(id) else s.lastOwned);
    var w := Waiter(s, id);
    if p.direct || w.None? then t else Start(t.(queued := None), w.value)
  }

  /** `reconcileScreen` resumes: a pass whose stream is gone writes nothing, and one that finds nothing
      changed has nothing to write. */
  function Advanced(s: Reconciler, id: nat, moved: bool): Reconciler {
    if id >= |s.passes| || !s.passes[id].InFlight() then s
    else
      var p := s.passes[id];
      if p.owner != s.stream then Ended(s, id)
      else if p.phase.Measuring? then Ended(s.(skin := p.phase.skin), id)
      else if !moved && p.phase.skin == s.skin then Ended(s, id)
      else s.(passes := s.passes[id := p.(phase := Measuring(p.phase.at, p.phase.skin))])
  }

  /** A frame of the current stream is recorded before it asks. */
  function Framed(s: Reconciler, skin: Skin): Reconciler {
    var t := Serial(s.(latest := Some(skin)), s.stream, skin);
    t.(frameAt := s.now, framePass := t.calls[|t.calls| - 1].pass)
  }

  /** `clearGrpcState`: the entries are dropped, the passes are not. */
  function Cleared(s: Reconciler): Reconciler {
    s.(running := None, queued := None, skin := NoSkin, latest := None, stream := s.stream + 1, lastOwned := None)
  }

  /** The stream of a caller that began asking `back` streams ago. */
  function Caller(s: Reconciler, back: nat): (owner: nat)
    ensures owner <= s.stream
  {
    if back <= s.stream then s.stream - back else 0
  }

  function Act(s: Reconciler, e: Event): Reconciler {
    match e
    case Ask(back, asked) => Serial(s, Caller(s, back), asked)
    case Frame(skin) => Framed(s, skin)
    case Direct(skin) => s.(passes := s.passes + [Pass(s.stream, skin, true, Reading(s.now, skin))])
    case Advance(id, moved) => Advanced(s, id, moved)
    case Clear => Cleared(s)
  }

  function Next(s: Reconciler, e: Event): Reconciler {
    Act(s, e).(now := s.now + 1)
  }

  function Run(s: Reconciler, es: seq<Event>): Reconciler
    decreases |es|
  {
    if es == [] then s else Run(Next(s, es[0]), es[1..])
  }
}
