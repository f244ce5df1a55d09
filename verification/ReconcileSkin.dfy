/**
 Which skin is committed when a stream's passes have drained.
 */
module ReconcileSkin {

  import opened Reconcile
  import opened ReconcileSafety
  import opened ReconcileOrder

  predicate Owned(s: Reconciler, i: nat)
    requires i < |s.passes|
  {
    s.passes[i].owner == s.stream
  }

  /** The committed skin is that of the last pass of this stream to end. */
  ghost predicate LastCommits(s: Reconciler) {
    if s.lastOwned.Some? then
      && s.lastOwned.value < |s.passes| && Owned(s, s.lastOwned.value)
      && s.passes[s.lastOwned.value].phase.Done? && s.passes[s.lastOwned.value].phase.skin == s.skin
    else
      s.skin == NoSkin && forall i | 0 <= i < |s.passes| && Owned(s, i) :: !s.passes[i].phase.Done?
  }

  /** Of the queue's passes, the newest to end is the last to end. */
  ghost predicate EndsInOrder(s: Reconciler) {
    s.lastOwned.Some? && s.lastOwned.value < |s.passes| && !s.passes[s.lastOwned.value].direct ==>
      forall i | s.lastOwned.value < i < |s.passes| && Owned(s, i) && !s.passes[i].direct :: !s.passes[i].phase.Done?
  }

  /** From the pass the newest frame got on, the queue's passes begin with that frame's skin. */
  ghost predicate NewestAsked(s: Reconciler) {
    s.latest.Some? ==>
      && s.framePass < |s.passes| && !s.passes[s.framePass].direct
      && forall i | s.framePass <= i < |s.passes| && !s.passes[i].direct && s.passes[i].Begun() :: s.passes[i].phase.skin == s.latest.value
  }

  ghost predicate Skins(s: Reconciler) {
    LastCommits(s) && EndsInOrder(s) && NewestAsked(s) && forall i | 0 <= i < |s.passes| :: s.passes[i].owner <= s.stream
  }

  lemma SerialKeepsSkins(s: Reconciler, owner: nat, asked: Skin)
    requires Sound(s) && Skins(s) && owner <= s.stream
    ensures Skins(Serial(s, owner, asked))
  {
  }

  lemma FrameKeepsSkins(s: Reconciler, skin: Skin)
    requires Sound(s) && Skins(s)
    ensures Skins(Framed(s, skin))
  {
  }

  lemma EndKeepsOrderOfEnds(s: Reconciler, id: nat)
    requires Sound(s) && EndsInOrder(s) && NewestAsked(s)
    requires id < |s.passes| && s.passes[id].InFlight()
    ensures EndsInOrder(Ended(s, id)) && NewestAsked(Ended(s, id))
  {
    hide WaiterFrom;
    EndsAs(s, id);
  }

  lemma EndCommits(s: Reconciler, id: nat)
    requires Line(s) && id < |s.passes| && s.passes[id].InFlight()
    requires if Owned(s, id) then s.skin == s.passes[id].phase.skin else LastCommits(s)
    requires forall i | 0 <= i < |s.passes| :: s.passes[i].owner <= s.stream
    ensures LastCommits(Ended(s, id))
    ensures forall i | 0 <= i < |Ended(s, id).passes| :: Ended(s, id).passes[i].owner <= Ended(s, id).stream
  {
    hide WaiterFrom;
  }

  lemma AdvancedKeepsSkins(s: Reconciler, id: nat, moved: bool)
    requires Sound(s) && Skins(s)
    ensures Skins(Advanced(s, id, moved))
  {
    hide Ended, EndedAs, Slots, Line, Orderly;
    if id < |s.passes| && s.passes[id].InFlight() {
      var p := s.passes[id];
      if !Measures(s, p, moved) {
        var r := if p.owner == s.stream && p.phase.Measuring? then s.(skin := p.phase.skin) else s;
        SkinKeeps(s, r.skin);
        OrderIgnoresSkin(s, r.skin);
        EndCommits(r, id);
        EndKeepsOrderOfEnds(r, id);
      }
    }
  }

  lemma OrderIgnoresSkin(s: Reconciler, skin: Skin)
    requires Sound(s)
    ensures Sound(s.(skin := skin))
  {
  }

  lemma NextKeepsSkins(s: Reconciler, e: Event)
    requires Sound(s) && Skins(s) && !e.Clear?
    ensures Skins(Next(s, e))
  {
    hide Serial, Advanced, Framed, Slots, Line, Orderly;
    match e
    case Ask(back, asked) => SerialKeepsSkins(s, Caller(s, back), asked);
    case Frame(skin) => FrameKeepsSkins(s, skin);
    case Direct(skin) =>
    case Advance(id, moved) => AdvancedKeepsSkins(s, id, moved);
  }

  lemma {:induction false} RunKeepsSkins(s: Reconciler, es: seq<Event>)
    requires Sound(s) && Skins(s) && NoClear(es)
    ensures Sound(Run(s, es)) && Skins(Run(s, es))
    decreases |es|
  {
    hide Sound, Skins, Act;
    if es != [] {
      NextKeepsOrder(s, es[0]);
      NextKeepsSkins(s, es[0]);
      RunKeepsSkins(Next(s, es[0]), es[1..]);
    }
  }

  ghost predicate OwnersExist(s: Reconciler) {
    forall i | 0 <= i < |s.passes| :: s.passes[i].owner <= s.stream
  }

  lemma NextKeepsOwners(s: Reconciler, e: Event)
    requires Slots(s) && Line(s) && OwnersExist(s)
    ensures OwnersExist(Next(s, e))
  {
    hide WaiterFrom;
  }

  lemma {:induction false} RunKeepsOwners(s: Reconciler, es: seq<Event>)
    requires Slots(s) && Line(s) && OwnersExist(s)
    ensures OwnersExist(Run(s, es))
    decreases |es|
  {
    hide Slots, Line, OwnersExist, Act;
    if es != [] {
      NextKeepsLine(s, es[0]);
      NextKeepsOwners(s, es[0]);
      RunKeepsOwners(Next(s, es[0]), es[1..]);
    }
  }

  /** A stream that began with every earlier pass done, and whose passes have drained: where the pass that
      answers the newest frame is the stream's own, the committed skin is that frame's, unless the boot's pass
      ended last with another. */
  lemma DrainedSkinIsTheNewest(pre: seq<Event>, es: seq<Event>)
    requires AllDone(Run(START, pre)) && NoClear(es)
    requires var t := Run(Next(Run(START, pre), Clear), es);
             AllDone(t) && t.latest.Some? && t.framePass < |t.passes| && Owned(t, t.framePass)
    ensures var t := Run(Next(Run(START, pre), Clear), es);
            && t.lastOwned.Some? && t.lastOwned.value < |t.passes|
            && var last := t.passes[t.lastOwned.value];
               t.skin == t.latest.value <==> (!last.direct || last.phase.skin == t.latest.value)
  {
    FreshStream(pre);
    RunKeepsOwners(START, pre);
    RunKeepsSkins(Next(Run(START, pre), Clear), es);
  }
}
