/**
 Over every run: when the committed skin is the newest frame's.
 */
module ReconcileNewest {

  import opened Reconcile
  import opened ReconcileSafety
  import opened ReconcileSkin

  /** Passes of the queue begun since the newest frame carry its skin. */
  ghost predicate CarryNewest(s: Reconciler) {
    s.latest.Some? ==>
      forall i | 0 <= i < |s.passes| && !s.passes[i].direct && s.passes[i].Begun() && s.passes[i].phase.at >= s.frameAt ::
        s.passes[i].phase.skin == s.latest.value
  }

  ghost predicate Commits(s: Reconciler) {
    LastCommits(s) && OwnersExist(s) && CarryNewest(s)
  }

  ghost predicate Steady(s: Reconciler) {
    Slots(s) && Line(s) && FreshBy(s, s.now)
  }

  lemma SerialCommits(s: Reconciler, owner: nat, asked: Skin)
    requires Commits(s) && owner <= s.stream
    ensures Commits(Serial(s, owner, asked))
  {
  }

  lemma FrameCommits(s: Reconciler, skin: Skin)
    requires Steady(s) && Commits(s)
    ensures Commits(Framed(s, skin))
  {
  }

  lemma EndCarries(s: Reconciler, id: nat)
    requires Line(s) && CarryNewest(s) && id < |s.passes| && s.passes[id].InFlight()
    ensures CarryNewest(Ended(s, id))
  {
    hide WaiterFrom;
  }

  lemma MeasuringCommits(s: Reconciler, id: nat)
    requires Commits(s) && id < |s.passes| && s.passes[id].InFlight()
    ensures var p := s.passes[id];
            Commits(s.(passes := s.passes[id := p.(phase := Measuring(p.phase.at, p.phase.skin))]))
  {
  }

  lemma AdvancedCommits(s: Reconciler, id: nat, moved: bool)
    requires Steady(s) && Commits(s)
    ensures Commits(Advanced(s, id, moved))
  {
    hide Ended, Slots, Line, FreshBy;
    if id < |s.passes| && s.passes[id].InFlight() {
      var p := s.passes[id];
      if Measures(s, p, moved) {
        MeasuringCommits(s, id);
      } else {
        var r := if p.owner == s.stream && p.phase.Measuring? then s.(skin := p.phase.skin) else s;
        SkinKeeps(s, r.skin);
        EndCommits(r, id);
        EndCarries(r, id);
      }
    }
  }

  lemma NextCommits(s: Reconciler, e: Event)
    requires Steady(s) && Commits(s)
    ensures Commits(Next(s, e))
  {
    hide Serial, Advanced, Framed, Slots, Line, FreshBy;
    match e
    case Ask(back, asked) => SerialCommits(s, Caller(s, back), asked);
    case Frame(skin) => FrameCommits(s, skin);
    case Direct(skin) =>
    case Advance(id, moved) => AdvancedCommits(s, id, moved);
    case Clear =>
  }

  lemma {:induction false} RunCommits(s: Reconciler, es: seq<Event>)
    requires Steady(s) && Commits(s)
    ensures Commits(Run(s, es))
    decreases |es|
  {
    hide Slots, Line, FreshBy, Commits, Act;
    if es != [] {
      NextKeepsLine(s, es[0]);
      NextKeepsFresh(s, es[0]);
      NextCommits(s, es[0]);
      RunCommits(Next(s, es[0]), es[1..]);
    }
  }

  /** A pass of this stream has ended, and the last one to end was the queue's and begun since the newest frame,
      or began with its skin all the same. */
  predicate NewestEndedLast(s: Reconciler)
    requires s.latest.Some?
  {
    s.lastOwned.Some? && s.lastOwned.value < |s.passes| &&
    var last := s.passes[s.lastOwned.value];
    last.phase.Done? && ((!last.direct && last.phase.at >= s.frameAt) || last.phase.skin == s.latest.value)
  }

  /** Over every run, clears and passes they leave behind included: the committed skin is the newest frame's
      exactly when the last pass of the stream to end was the queue's and begun since that frame, or had its
      skin all the same. */
  lemma SkinIsTheNewestExactly(es: seq<Event>)
    requires var t := Run(START, es); t.latest.Some? && t.latest.value != NoSkin
    ensures var t := Run(START, es); t.skin == t.latest.value <==> NewestEndedLast(t)
  {
    hide Run;
    RunCommits(START, es);
  }
}
