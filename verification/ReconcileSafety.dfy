/**
 Every caller of the reconcile queue is answered by a pass begun no earlier than its call, across any
 number of streams; between clears passes run one at a time.
 */
module ReconcileSafety {

  import opened Options
  import opened Reconcile

  /** The slots: what runs is in flight; what is queued waits behind it, alone. */
  ghost predicate Slots(s: Reconciler) {
    && (s.running.Some? ==> s.running.value < |s.passes| && s.passes[s.running.value].InFlight() && !s.passes[s.running.value].direct)
    && (s.queued.Some? ==> s.running.Some? && s.queued.value < |s.passes| && s.passes[s.queued.value].phase == Waiting(s.running.value))
    && (s.running.Some? ==> forall i | 0 <= i < |s.passes| && s.passes[i].phase == Waiting(s.running.value) :: s.queued == Some(i))
  }

  /** Every waiting pass waits behind one in flight, and no two behind the same. */
  ghost predicate Line(s: Reconciler) {
    && (forall i | 0 <= i < |s.passes| && s.passes[i].phase.Waiting? ::
          var b := s.passes[i].phase.behind;
          !s.passes[i].direct && b < |s.passes| && s.passes[b].InFlight() && !s.passes[b].direct)
    && (forall i, j | 0 <= i < |s.passes| && 0 <= j < |s.passes| && s.passes[i].phase.Waiting? && s.passes[i].phase == s.passes[j].phase :: i == j)
  }

  lemma SerialKeeps(s: Reconciler, owner: nat, asked: Skin)
    requires Slots(s) && Line(s)
    ensures Slots(Serial(s, owner, asked)) && Line(Serial(s, owner, asked))
  {
  }

  /** What ending a pass does to the others. */
  ghost predicate EndedAs(s: Reconciler, id: nat, t: Reconciler)
    requires id < |s.passes|
  {
    var w := Waiter(s, id);
    && |t.passes| == |s.passes| && t.calls == s.calls && t.now == s.now
    && t.passes[id].phase.Done? && t.passes[id].direct == s.passes[id].direct
    && (forall i | 0 <= i < |s.passes| && i != id && w != Some(i) :: t.passes[i] == s.passes[i])
    && if w.Some? then
         && t.running == w && t.queued.None?
         && t.passes[w.value].phase.Reading? && t.passes[w.value].direct == s.passes[w.value].direct
         && t.passes[w.value].phase.at == s.now
       else t.queued == s.queued && t.running == if s.running == Some(id) then None else s.running
  }

  lemma EndsAs(s: Reconciler, id: nat)
    requires Line(s) && id < |s.passes| && s.passes[id].InFlight()
    ensures EndedAs(s, id, Ended(s, id))
    ensures Ended(s, id).passes[id].phase.at == s.passes[id].phase.at
  {
    var w := Waiter(s, id);
  }

  lemma EndKeepsSlots(s: Reconciler, id: nat, t: Reconciler)
    requires Slots(s) && Line(s)
    requires id < |s.passes| && s.passes[id].InFlight() && EndedAs(s, id, t)
    ensures Slots(t)
  {
    hide WaiterFrom;
    var w := Waiter(s, id);
    if w.None? && t.running.Some? {
      assert t.passes[t.running.value] == s.passes[t.running.value];
    }
  }

  lemma EndKeepsLine(s: Reconciler, id: nat, t: Reconciler)
    requires Line(s)
    requires id < |s.passes| && s.passes[id].InFlight() && EndedAs(s, id, t)
    ensures Line(t)
  {
    hide WaiterFrom;
    var w := Waiter(s, id);
    forall i | 0 <= i < |t.passes| && t.passes[i].phase.Waiting?
      ensures t.passes[i] == s.passes[i] && s.passes[i].phase.behind != id
    {
      if w.Some? { assert s.passes[w.value].phase == Waiting(id); }
    }
  }

  lemma AdvancedKeeps(s: Reconciler, id: nat, moved: bool)
    requires Slots(s) && Line(s)
    ensures Slots(Advanced(s, id, moved)) && Line(Advanced(s, id, moved))
  {
    hide Ended, EndedAs, Slots, Line;
    if id < |s.passes| && s.passes[id].InFlight() {
      var p := s.passes[id];
      if Measures(s, p, moved) {
        MeasuringKeeps(s, id);
      } else {
        var r := if p.owner == s.stream && p.phase.Measuring? then s.(skin := p.phase.skin) else s;
        SkinKeeps(s, r.skin);
        EndsAs(r, id);
        EndKeepsSlots(r, id, Ended(r, id));
        EndKeepsLine(r, id, Ended(r, id));
      }
    }
  }

  /** Whether a resumed pass goes on to measure. */
  predicate Measures(s: Reconciler, p: Pass, moved: bool)
    requires p.InFlight()
  {
    p.owner == s.stream && p.phase.Reading? && (moved || p.phase.skin != s.skin)
  }

  lemma SkinKeeps(s: Reconciler, skin: Skin)
    requires Slots(s) && Line(s)
    ensures Slots(s.(skin := skin)) && Line(s.(skin := skin))
  {
  }

  lemma MeasuringKeeps(s: Reconciler, id: nat)
    requires Slots(s) && Line(s) && id < |s.passes| && s.passes[id].InFlight()
    ensures var p := s.passes[id];
            var t := s.(passes := s.passes[id := p.(phase := Measuring(p.phase.at, p.phase.skin))]);
            Slots(t) && Line(t)
  {
  }

  lemma NextKeepsLine(s: Reconciler, e: Event)
    requires Slots(s) && Line(s)
    ensures Slots(Next(s, e)) && Line(Next(s, e))
  {
    hide Serial, Advanced;
    match e
    case Ask(back, asked) => SerialKeeps(s, Caller(s, back), asked);
    case Frame(skin) => SerialKeeps(s.(latest := Some(skin)), s.stream, skin);
    case Direct(skin) => DirectKeeps(s, skin);
    case Advance(id, moved) => AdvancedKeeps(s, id, moved);
    case Clear =>
  }

  lemma DirectKeeps(s: Reconciler, skin: Skin)
    requires Slots(s) && Line(s)
    ensures Slots(Next(s, Direct(skin))) && Line(Next(s, Direct(skin)))
  {
  }

  // ---------------------------------------------------------------- freshness

  /** Every caller's pass waits, or began no earlier than the call; none of either is later than `now`. */
  ghost predicate FreshBy(s: Reconciler, now: nat) {
    && (forall c | c in s.calls :: c.at < now && c.pass < |s.passes| && (s.passes[c.pass].Begun() ==> c.at <= s.passes[c.pass].phase.at))
    && (forall i | 0 <= i < |s.passes| && s.passes[i].Begun() :: s.passes[i].phase.at < now)
  }

  lemma SerialKeepsFresh(s: Reconciler, owner: nat, asked: Skin)
    requires Slots(s) && FreshBy(s, s.now)
    ensures FreshBy(Serial(s, owner, asked), s.now + 1)
  {
  }

  lemma EndKeepsFresh(s: Reconciler, id: nat, t: Reconciler)
    requires FreshBy(s, s.now)
    requires id < |s.passes| && s.passes[id].InFlight() && EndedAs(s, id, t)
    requires t.passes[id].phase.at == s.passes[id].phase.at
    ensures FreshBy(t, s.now + 1)
  {
    hide Waiter;
  }

  lemma AdvancedKeepsFresh(s: Reconciler, id: nat, moved: bool)
    requires Line(s) && FreshBy(s, s.now)
    ensures FreshBy(Advanced(s, id, moved), s.now + 1)
  {
    hide Ended, EndedAs, Line;
    if id < |s.passes| && s.passes[id].InFlight() {
      var p := s.passes[id];
      if !Measures(s, p, moved) {
        var r := if p.owner == s.stream && p.phase.Measuring? then s.(skin := p.phase.skin) else s;
        LineKeeps(s, r.skin);
        EndsAs(r, id);
        EndKeepsFresh(r, id, Ended(r, id));
      }
    }
  }

  lemma LineKeeps(s: Reconciler, skin: Skin)
    requires Line(s)
    ensures Line(s.(skin := skin))
  {
  }

  lemma NextKeepsFresh(s: Reconciler, e: Event)
    requires Slots(s) && Line(s) && FreshBy(s, s.now)
    ensures FreshBy(Next(s, e), s.now + 1)
  {
    hide Serial, Advanced, Line;
    match e
    case Ask(back, asked) => SerialKeepsFresh(s, Caller(s, back), asked);
    case Frame(skin) => SerialKeepsFresh(s.(latest := Some(skin)), s.stream, skin);
    case Direct(skin) =>
    case Advance(id, moved) => AdvancedKeepsFresh(s, id, moved);
    case Clear =>
  }

  lemma {:induction false} RunKeeps(s: Reconciler, es: seq<Event>)
    requires Slots(s) && Line(s) && FreshBy(s, s.now)
    ensures var t := Run(s, es); Slots(t) && Line(t) && FreshBy(t, t.now)
    decreases |es|
  {
    hide Slots, Line, FreshBy, Act;
    if es != [] {
      NextKeepsLine(s, es[0]);
      NextKeepsFresh(s, es[0]);
      RunKeeps(Next(s, es[0]), es[1..]);
    }
  }

  /** The pass that answers a caller began no earlier than the call, over any run of asks, frames, boots and
      clears; and one that has not begun waits behind a pass in flight, whose end begins it. */
  lemma AnswersAreFresh(es: seq<Event>, c: Call)
    requires c in Run(START, es).calls
    ensures var s := Run(START, es);
            c.pass < |s.passes| &&
            var p := s.passes[c.pass];
            if p.Begun() then c.at <= p.phase.at
            else p.phase.behind < |s.passes| && s.passes[p.phase.behind].InFlight()
  {
    RunKeeps(START, es);
  }

  /** A pass that ends begins exactly the pass that waits behind it. */
  lemma EndBeginsTheWaiting(es: seq<Event>, id: nat, moved: bool, w: nat)
    requires var s := Run(START, es); id < |s.passes| && s.passes[id].InFlight() && w < |s.passes|
    requires var s := Run(START, es); s.passes[w].phase == Waiting(id)
    ensures var s := Run(START, es);
            var t := Next(s, Advance(id, moved));
            if t.passes[id].phase.Done? then t.passes[w].phase.Reading? && t.passes[w].phase.at == s.now
            else t.passes[w] == s.passes[w]
  {
    hide Ended, EndedAs, Run;
    var s := Run(START, es);
    RunKeeps(START, es);
    var p := s.passes[id];
    if !Measures(s, p, moved) {
      var r := if p.owner == s.stream && p.phase.Measuring? then s.(skin := p.phase.skin) else s;
      LineKeeps(s, r.skin);
      EndsAs(r, id);
      BeginsWaiter(r, id, w);
    }
  }

  lemma BeginsWaiter(s: Reconciler, id: nat, w: nat)
    requires Line(s) && id < |s.passes| && s.passes[id].InFlight()
    requires w < |s.passes| && s.passes[w].phase == Waiting(id)
    ensures Ended(s, id).passes[w].phase.Reading? && Ended(s, id).passes[w].phase.at == s.now
    ensures Ended(s, id).passes[id].phase.Done?
  {
    EndsAs(s, id);
  }
}
