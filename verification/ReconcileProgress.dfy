/**
 The passes run out: however they go, every call is answered.
 */
module ReconcileProgress {

  import opened Options
  import opened Reconcile
  import opened ReconcileSafety
  import ReconcileOrder

  /** How many steps a pass has before it, at most. */
  function Steps(p: Pass): nat {
    match p.phase
    case Waiting(_) => 3
    case Reading(_, _) => 2
    case Measuring(_, _) => 1
    case Done(_, _) => 0
  }

  function AllSteps(passes: seq<Pass>): nat {
    if passes == [] then 0 else AllSteps(passes[..|passes| - 1]) + Steps(passes[|passes| - 1])
  }

  lemma {:induction false} OneChanges(passes: seq<Pass>, i: nat, p: Pass)
    requires i < |passes|
    ensures AllSteps(passes[i := p]) == AllSteps(passes) - Steps(passes[i]) + Steps(p)
    decreases |passes|
  {
    hide Steps;
    var last := |passes| - 1;
    if i == last {
      assert passes[i := p][..last] == passes[..last];
    } else {
      OneChanges(passes[..last], i, p);
      assert passes[i := p][..last] == passes[..last][i := p];
    }
  }

  lemma {:induction false} AtMostThree(passes: seq<Pass>)
    ensures AllSteps(passes) <= 3 * |passes|
  {
    if passes != [] { AtMostThree(passes[..|passes| - 1]); }
  }

  /** The event moves a pass that is in flight. */
  predicate Works(s: Reconciler, e: Event) {
    e.Advance? && e.pass < |s.passes| && s.passes[e.pass].InFlight()
  }

  ghost predicate AllWork(s: Reconciler, es: seq<Event>)
    decreases |es|
  {
    es != [] ==> Works(s, es[0]) && AllWork(Next(s, es[0]), es[1..])
  }

  predicate Idle(s: Reconciler) {
    forall i | 0 <= i < |s.passes| :: !s.passes[i].InFlight()
  }

  lemma EndTakesSteps(s: Reconciler, id: nat)
    requires Line(s) && id < |s.passes| && s.passes[id].InFlight()
    ensures AllSteps(Ended(s, id).passes) < AllSteps(s.passes) && |Ended(s, id).passes| == |s.passes|
  {
    hide Waiter, AllSteps;
    EndsAs(s, id);
    var t, w := Ended(s, id), Waiter(s, id);
    var done := s.passes[id := t.passes[id]];
    OneChanges(s.passes, id, t.passes[id]);
    if w.Some? {
      WaiterWaits(s, id);
      assert t.passes == done[w.value := t.passes[w.value]];
      OneChanges(done, w.value, t.passes[w.value]);
    } else {
      assert t.passes == done;
    }
  }

  lemma WaiterWaits(s: Reconciler, id: nat)
    requires id < |s.passes| && s.passes[id].InFlight() && Waiter(s, id).Some?
    ensures var w := Waiter(s, id).value; w < |s.passes| && w != id && s.passes[w].phase == Waiting(id)
  {
  }

  lemma WorkTakesSteps(s: Reconciler, e: Event)
    requires Slots(s) && Line(s) && Works(s, e)
    ensures AllSteps(Next(s, e).passes) < AllSteps(s.passes) && |Next(s, e).passes| == |s.passes|
    ensures Next(s, e).calls == s.calls
  {
    hide Ended, AllSteps, Slots, Line;
    var p := s.passes[e.pass];
    if Measures(s, p, e.moved) {
      OneChanges(s.passes, e.pass, p.(phase := Measuring(p.phase.at, p.phase.skin)));
    } else {
      var r := if p.owner == s.stream && p.phase.Measuring? then s.(skin := p.phase.skin) else s;
      LineKeeps(s, r.skin);
      EndTakesSteps(r, e.pass);
      EndsAs(r, e.pass);
    }
  }

  lemma {:induction false} WorkRunsOut(s: Reconciler, es: seq<Event>)
    requires Slots(s) && Line(s) && AllWork(s, es)
    ensures var t := Run(s, es);
            |es| + AllSteps(t.passes) <= AllSteps(s.passes) && |t.passes| == |s.passes| && t.calls == s.calls && Slots(t) && Line(t)
    decreases |es|
  {
    hide Slots, Line, Next, AllSteps, Works;
    if es != [] {
      WorkTakesSteps(s, es[0]);
      NextKeepsLine(s, es[0]);
      WorkRunsOut(Next(s, es[0]), es[1..]);
    }
  }

  /** Over every run: from wherever it stands, and whichever passes are moved on in whichever order and however the
      display moves meanwhile, at most three steps for each pass and none is in flight; and when none is, every
      pass is done, so every call is answered. */
  lemma EveryCallIsAnswered(es: seq<Event>, more: seq<Event>)
    requires AllWork(Run(START, es), more)
    ensures var s := Run(START, es); var t := Run(s, more);
            && |more| <= 3 * |s.passes|
            && (Idle(t) ==> ReconcileOrder.AllDone(t))
            && t.calls == s.calls && |t.passes| == |s.passes|
            && (Idle(t) ==> forall c | c in s.calls :: c.pass < |t.passes| && t.passes[c.pass].phase.Done?)
  {
    hide Run, AllSteps;
    RunFromStart(es);
    var s := Run(START, es);
    WorkRunsOut(s, more);
    AtMostThree(s.passes);
    var t := Run(s, more);
    if Idle(t) {
      forall i | 0 <= i < |t.passes| ensures t.passes[i].phase.Done? { }
    }
  }

  lemma RunFromStart(es: seq<Event>)
    ensures var s := Run(START, es); Slots(s) && Line(s) && FreshBy(s, s.now)
  {
    RunKeeps(START, es);
  }
}
