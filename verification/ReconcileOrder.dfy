/**
 Within one stream: one pass at a time, one more for any burst, and which frame's skin is left when the
 passes drain.
 */
module ReconcileOrder {

  import opened Options
  import opened Reconcile
  import opened ReconcileSafety

  /** No pass of the queue is in flight or waiting but the one in the slot and the one behind it, which is
      newer; every newer pass than the one in the slot is that one or the boot's. */
  ghost predicate Orderly(s: Reconciler) {
    && (forall i | 0 <= i < |s.passes| && !s.passes[i].direct && !s.passes[i].phase.Done? :: s.running == Some(i) || s.queued == Some(i))
    && (s.running.Some? ==> forall i | s.running.value < i < |s.passes| && !s.passes[i].direct :: s.queued == Some(i))
    && (s.queued.Some? && s.running.Some? ==> s.running.value < s.queued.value)
  }

  ghost predicate Sound(s: Reconciler) {
    Slots(s) && Line(s) && Orderly(s)
  }

  lemma SerialKeepsOrder(s: Reconciler, owner: nat, asked: Skin)
    requires Sound(s)
    ensures Orderly(Serial(s, owner, asked))
  {
  }

  lemma EndKeepsOrder(s: Reconciler, id: nat, t: Reconciler)
    requires Sound(s) && id < |s.passes| && s.passes[id].InFlight() && EndedAs(s, id, t)
    ensures Orderly(t)
  {
    hide WaiterFrom;
    var w := Waiter(s, id);
    forall i | 0 <= i < |t.passes| ensures t.passes[i].direct == s.passes[i].direct {
    }
  }

  lemma AdvancedKeepsOrder(s: Reconciler, id: nat, moved: bool)
    requires Sound(s)
    ensures Orderly(Advanced(s, id, moved))
  {
    hide Ended, EndedAs, Slots, Line;
    if id < |s.passes| && s.passes[id].InFlight() {
      var p := s.passes[id];
      if !Measures(s, p, moved) {
        var r := if p.owner == s.stream && p.phase.Measuring? then s.(skin := p.phase.skin) else s;
        SkinKeeps(s, r.skin);
        EndsAs(r, id);
        EndKeepsOrder(r, id, Ended(r, id));
      }
    }
  }

  lemma NextKeepsOrder(s: Reconciler, e: Event)
    requires Sound(s) && !e.Clear?
    ensures Sound(Next(s, e))
  {
    hide Serial, Advanced, Slots, Line;
    NextKeepsLine(s, e);
    match e
    case Ask(back, asked) => SerialKeepsOrder(s, Caller(s, back), asked);
    case Frame(skin) =>
      LatestKeeps(s, skin);
      SerialKeepsOrder(s.(latest := Some(skin)), s.stream, skin);
    case Direct(skin) =>
    case Advance(id, moved) => AdvancedKeepsOrder(s, id, moved);
  }

  lemma LatestKeeps(s: Reconciler, skin: Skin)
    requires Sound(s)
    ensures Sound(s.(latest := Some(skin)))
  {
  }

  ghost predicate NoClear(es: seq<Event>) {
    forall e | e in es :: !e.Clear?
  }

  lemma {:induction false} RunKeepsOrder(s: Reconciler, es: seq<Event>)
    requires Sound(s) && NoClear(es)
    ensures Sound(Run(s, es))
    decreases |es|
  {
    hide Sound, Act;
    if es != [] {
      NextKeepsOrder(s, es[0]);
      RunKeepsOrder(Next(s, es[0]), es[1..]);
    }
  }

  /** A stream that begins with every earlier pass done runs one pass of the queue at a time. */
  lemma OnePassAtATime(pre: seq<Event>, es: seq<Event>, i: nat, j: nat)
    requires NoClear(es) && AllDone(Run(START, pre))
    requires var t := Run(Next(Run(START, pre), Clear), es);
             i < |t.passes| && j < |t.passes| && t.passes[i].InFlight() && t.passes[j].InFlight()
             && !t.passes[i].direct && !t.passes[j].direct
    ensures i == j
  {
    FreshStream(pre);
    RunKeepsOrder(Next(Run(START, pre), Clear), es);
  }

  ghost predicate AllDone(s: Reconciler) {
    forall i | 0 <= i < |s.passes| :: s.passes[i].phase.Done?
  }

  lemma FreshStream(pre: seq<Event>)
    requires AllDone(Run(START, pre))
    ensures Sound(Next(Run(START, pre), Clear))
  {
    RunKeeps(START, pre);
  }

  // ---------------------------------------------------------------- bursts

  /** Since `s`, while pass `r` is in flight: nothing new but boot passes, or one pass that every new call got. */
  ghost predicate Burst(s: Reconciler, t: Reconciler, r: nat) {
    && t.running == Some(r)
    && |s.passes| <= |t.passes| && |s.calls| <= |t.calls|
    && (t.queued.Some? ==> |s.passes| <= t.queued.value)
    && (forall i | |s.passes| <= i < |t.passes| && t.queued != Some(i) :: t.passes[i].direct)
    && (forall i | |s.calls| <= i < |t.calls| :: t.queued == Some(t.calls[i].pass))
    && (t.queued.Some? <==> |s.calls| < |t.calls|)
  }

  lemma BurstSerial(s: Reconciler, t: Reconciler, r: nat, owner: nat, asked: Skin)
    requires Burst(s, t, r)
    ensures Burst(s, Serial(t, owner, asked), r)
  {
  }

  /** Only boot passes end while `r` is in flight. */
  lemma BurstAdvanced(s: Reconciler, t: Reconciler, r: nat, id: nat, moved: bool)
    requires Sound(t) && Burst(s, t, r) && r < |t.passes|
    requires Advanced(t, id, moved).passes[r].InFlight()
    ensures Burst(s, Advanced(t, id, moved), r)
  {
    hide Ended, WaiterFrom, EndedAs;
    if id < |t.passes| && t.passes[id].InFlight() {
      var p := t.passes[id];
      if !Measures(t, p, moved) {
        var v := if p.owner == t.stream && p.phase.Measuring? then t.(skin := p.phase.skin) else t;
        SkinKeeps(t, v.skin);
        EndsAs(v, id);
        DirectEnds(v, id, Ended(v, id));
      }
    }
  }

  /** A pass of the boot ends alone, and so does the one in the slot with nothing behind it. */
  lemma DirectEnds(s: Reconciler, id: nat, t: Reconciler)
    requires Slots(s) && Line(s) && id < |s.passes| && s.passes[id].InFlight() && EndedAs(s, id, t)
    ensures t.passes[id].phase.Done? && t.calls == s.calls && |t.passes| == |s.passes|
    ensures s.passes[id].direct ==> t.running == s.running && t.queued == s.queued
    ensures forall i | 0 <= i < |s.passes| :: t.passes[i].direct == s.passes[i].direct
  {
    hide WaiterFrom;
  }

  lemma BurstNext(s: Reconciler, t: Reconciler, r: nat, e: Event)
    requires Sound(t) && Burst(s, t, r) && !e.Clear? && r < |t.passes|
    requires r < |Next(t, e).passes| && Next(t, e).passes[r].InFlight()
    ensures Burst(s, Next(t, e), r)
  {
    hide Serial, Advanced, Slots, Line, Orderly;
    match e
    case Ask(back, asked) => BurstSerial(s, t, r, Caller(t, back), asked);
    case Frame(skin) => BurstSerial(s, t.(latest := Some(skin)), r, t.stream, skin);
    case Direct(skin) =>
    case Advance(id, moved) => BurstAdvanced(s, t, r, id, moved);
  }

  lemma PassesStay(s: Reconciler, e: Event)
    requires Line(s)
    ensures |Next(s, e).passes| >= |s.passes|
    ensures forall i | 0 <= i < |s.passes| && s.passes[i].phase.Done? :: Next(s, e).passes[i] == s.passes[i]
  {
    hide WaiterFrom;
    if e.Advance? && e.pass < |s.passes| && s.passes[e.pass].InFlight() {
      LineKeeps(s, s.passes[e.pass].phase.skin);
    }
  }

  lemma {:induction false} DoneStays(s: Reconciler, es: seq<Event>, i: nat)
    requires Sound(s) && NoClear(es) && i < |s.passes|
    ensures |Run(s, es).passes| >= |s.passes|
    ensures s.passes[i].phase.Done? ==> Run(s, es).passes[i] == s.passes[i]
    decreases |es|
  {
    if es != [] {
      PassesStay(s, es[0]);
      NextKeepsOrder(s, es[0]);
      DoneStays(Next(s, es[0]), es[1..], i);
    }
  }

  lemma {:induction false} BurstRun(s: Reconciler, t: Reconciler, r: nat, es: seq<Event>)
    requires Sound(t) && Burst(s, t, r) && NoClear(es) && r < |t.passes| && t.passes[r].InFlight()
    requires r < |Run(t, es).passes| && Run(t, es).passes[r].InFlight()
    ensures Burst(s, Run(t, es), r)
    decreases |es|
  {
    hide Burst, Act, Sound;
    if es != [] {
      var u := Next(t, es[0]);
      NextKeepsOrder(t, es[0]);
      Grows(t, es[0]);
      Moves(t, es[0], r);
      if !u.passes[r].InFlight() {
        DoneStays(u, es[1..], r);
        assert false;
      }
      BurstNext(s, t, r, es[0]);
      BurstRun(s, u, r, es[1..]);
    }
  }

  /** A pass in flight stays in flight or is done. */
  lemma Moves(s: Reconciler, e: Event, r: nat)
    requires Sound(s) && r < |s.passes| && s.passes[r].InFlight()
    ensures r < |Next(s, e).passes| && !Next(s, e).passes[r].phase.Waiting?
  {
    hide Ended, EndedAs;
    if e.Advance? && e.pass < |s.passes| && s.passes[e.pass].InFlight() {
      var p := s.passes[e.pass];
      if !Measures(s, p, e.moved) {
        var v := if p.owner == s.stream && p.phase.Measuring? then s.(skin := p.phase.skin) else s;
        SkinKeeps(s, v.skin);
        EndsAs(v, e.pass);
        StaysBegun(v, e.pass, Ended(v, e.pass), r);
      }
    }
  }

  lemma StaysBegun(s: Reconciler, id: nat, t: Reconciler, r: nat)
    requires Line(s) && id < |s.passes| && s.passes[id].InFlight() && EndedAs(s, id, t)
    requires r < |s.passes| && s.passes[r].InFlight()
    ensures r < |t.passes| && !t.passes[r].phase.Waiting?
  {
    hide WaiterFrom;
    var w := Waiter(s, id);
    if w == Some(r) || r == id {
      assert t.passes[r].phase.Reading? || t.passes[r].phase.Done?;
    } else {
      assert t.passes[r] == s.passes[r];
    }
  }

  lemma Grows(s: Reconciler, e: Event)
    requires Sound(s)
    ensures |Next(s, e).passes| >= |s.passes|
  {
    PassesStay(s, e);
  }

  /** However many calls come while pass `r` runs, one pass answers them all: the only one made, and it waits
      for `r`. */
  lemma OnePassPerBurst(pre: seq<Event>, before: seq<Event>, es: seq<Event>, r: nat)
    requires AllDone(Run(START, pre)) && NoClear(before) && NoClear(es)
    requires var s := Run(Next(Run(START, pre), Clear), before);
             s.running == Some(r) && s.queued.None? && r < |Run(s, es).passes| && Run(s, es).passes[r].InFlight()
    ensures var s := Run(Next(Run(START, pre), Clear), before);
            var t := Run(s, es);
            && (t.queued.Some? <==> |t.calls| > |s.calls|)
            && (forall i | |s.calls| <= i < |t.calls| :: t.queued == Some(t.calls[i].pass))
            && (forall i | |s.passes| <= i < |t.passes| && !t.passes[i].direct :: t.queued == Some(i) && t.passes[i].phase == Waiting(r))
  {
    FreshStream(pre);
    RunKeepsOrder(Next(Run(START, pre), Clear), before);
    var s := Run(Next(Run(START, pre), Clear), before);
    BurstRun(s, s, r, es);
    RunKeepsOrder(s, es);
  }
}
