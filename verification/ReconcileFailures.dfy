/**
 The three ways a run commits another skin than the newest frame's.
 */
module ReconcileFailures {

  import opened Options
  import opened Reconcile
  import opened ReconcileOrder
  import opened ReconcileNewest

  lemma Step(s: Reconciler, es: seq<Event>) returns (t: Reconciler, rest: seq<Event>)
    requires es != []
    ensures t == Next(s, es[0]) && rest == es[1..] && Run(s, es) == Run(t, rest)
  {
    t, rest := Next(s, es[0]), es[1..];
  }

  lemma Ends(s: Reconciler, es: seq<Event>)
    requires es == []
    ensures Run(s, es) == s
  {
  }

  /** The last pass of the stream to end was the boot's. */
  predicate BootLast(s: Reconciler) {
    s.lastOwned.Some? && s.lastOwned.value < |s.passes| && s.passes[s.lastOwned.value].direct
  }

  /** The last pass of the stream to end was the queue's, begun before the newest frame. */
  predicate EarlierLast(s: Reconciler) {
    s.lastOwned.Some? && s.lastOwned.value < |s.passes| &&
    var last := s.passes[s.lastOwned.value];
    last.phase.Done? && !last.direct && last.phase.at < s.frameAt
  }

  /** The boot reads its first frame, a turned frame is settled while the boot still measures, and the boot
      writes the older skin over it. */
  const LATE_BOOT: seq<Event> :=
    [Direct(Portrait), Advance(0, true), Frame(Landscape), Advance(1, true), Advance(1, true), Advance(0, true)]

  lemma BootCommitsAnOlderSkin()
    ensures var t := Run(START, LATE_BOOT);
            AllDone(t) && t.latest == Some(Landscape) && BootLast(t) && t.skin != Landscape
  {
    hide Run, NewestEndedLast, BootLast, AllDone;
    LateBootEnds();
    SkinIsTheNewestExactly(LATE_BOOT);
  }

  const TURNED := Reconciler(
    [Pass(0, Portrait, true, Measuring(0, Portrait)), Pass(0, Landscape, false, Reading(2, Landscape))],
    Some(1), None, [Call(2, 1)], 0, NoSkin, Some(Landscape), 2, 1, None, 3)

  lemma FrameTurnsWhileBooting()
    ensures Run(START, LATE_BOOT) == Run(TURNED, LATE_BOOT[3..])
  {
    hide Run;
    var s, es := Step(START, LATE_BOOT);
    s, es := Step(s, es);
    s, es := Step(s, es);
    assert s.passes == TURNED.passes && s.calls == TURNED.calls;
  }

  lemma LateBootEnds()
    ensures var t := Run(START, LATE_BOOT);
            AllDone(t) && t.latest == Some(Landscape) && BootLast(t) && !NewestEndedLast(t)
  {
    hide Run;
    FrameTurnsWhileBooting();
    var s, es := Step(TURNED, LATE_BOOT[3..]);
    s, es := Step(s, es);
    s, es := Step(s, es);
    Ends(s, es);
  }

  /** A watcher's read outlives its stream and asks while the next stream's first pass runs; that stream's
      turned frame joins the watcher's pass, which then writes nothing. */
  const STALE_ASKER: seq<Event> :=
    [Clear, Frame(Portrait), Ask(1, Portrait), Frame(Landscape), Advance(0, true), Advance(0, true), Advance(1, true)]

  const JOINED := Reconciler(
    [Pass(1, Portrait, false, Reading(1, Portrait)), Pass(0, Portrait, false, Waiting(0))],
    Some(0), Some(1), [Call(1, 0), Call(2, 1), Call(3, 1)], 1, NoSkin, Some(Landscape), 3, 1, None, 4)

  lemma JoinsTheStaleAsker()
    ensures Run(START, STALE_ASKER) == Run(JOINED, STALE_ASKER[4..])
  {
    hide Run;
    var s, es := Step(START, STALE_ASKER);
    s, es := Step(s, es);
    s, es := Step(s, es);
    s, es := Step(s, es);
    assert s.passes == JOINED.passes && s.calls == JOINED.calls;
  }

  lemma JoiningAReplacedStreamsPassLosesTheFrame()
    ensures var t := Run(START, STALE_ASKER);
            AllDone(t) && t.latest == Some(Landscape) && EarlierLast(t) && t.skin != Landscape
  {
    hide Run, NewestEndedLast, EarlierLast, AllDone;
    StaleAskerEnds();
    SkinIsTheNewestExactly(STALE_ASKER);
  }

  lemma StaleAskerEnds()
    ensures var t := Run(START, STALE_ASKER);
            AllDone(t) && t.latest == Some(Landscape) && EarlierLast(t) && !NewestEndedLast(t)
  {
    hide Run;
    JoinsTheStaleAsker();
    var s, es := Step(JOINED, STALE_ASKER[4..]);
    s, es := Step(s, es);
    s, es := Step(s, es);
    Ends(s, es);
  }

  /** Passes of an earlier stream outlive the clear: one of them takes the running slot while the new
      stream's pass is in flight, and a third then runs beside it and ends first. */
  const LEFTOVERS: seq<Event> :=
    [Ask(0, Portrait), Ask(0, Portrait), Clear, Frame(Portrait), Advance(0, true), Frame(Landscape),
     Advance(1, true), Advance(3, true), Advance(3, true), Advance(2, true), Advance(2, true)]

  const CLEARED := Reconciler(
    [Pass(0, Portrait, false, Reading(0, Portrait)), Pass(0, Portrait, false, Waiting(0)), Pass(1, Portrait, false, Reading(3, Portrait))],
    Some(2), None, [Call(0, 0), Call(1, 1), Call(3, 2)], 1, NoSkin, Some(Portrait), 3, 2, None, 4)

  const TWO_AT_ONCE := Reconciler(
    [Pass(0, Portrait, false, Done(0, Portrait)), Pass(0, Portrait, false, Done(4, Portrait)),
     Pass(1, Portrait, false, Reading(3, Portrait)), Pass(1, Landscape, false, Reading(6, Landscape))],
    Some(3), None, [Call(0, 0), Call(1, 1), Call(3, 2), Call(5, 3)], 1, NoSkin, Some(Landscape), 5, 3, None, 7)

  lemma ClearsWithPassesLeft()
    ensures Run(START, LEFTOVERS) == Run(CLEARED, LEFTOVERS[4..])
  {
    hide Run;
    var s, es := Step(START, LEFTOVERS);
    s, es := Step(s, es);
    assert s.passes == CLEARED.passes[..2];
    s, es := Step(s, es);
    s, es := Step(s, es);
    assert s.passes == CLEARED.passes && s.calls == CLEARED.calls;
  }

  lemma LeftoversTakeTheSlot()
    ensures Run(CLEARED, LEFTOVERS[4..]) == Run(TWO_AT_ONCE, LEFTOVERS[7..])
  {
    hide Run;
    var s, es := Step(CLEARED, LEFTOVERS[4..]);
    s, es := Step(s, es);
    s, es := Step(s, es);
    assert s.passes == TWO_AT_ONCE.passes && s.calls == TWO_AT_ONCE.calls;
  }

  lemma LeftoversEnd()
    ensures var t := Run(TWO_AT_ONCE, LEFTOVERS[7..]);
            AllDone(t) && t.latest == Some(Landscape) && EarlierLast(t) && !NewestEndedLast(t)
  {
    hide Run;
    var s, es := Step(TWO_AT_ONCE, LEFTOVERS[7..]);
    s, es := Step(s, es);
    s, es := Step(s, es);
    s, es := Step(s, es);
    Ends(s, es);
  }

  /** Two passes of one stream in flight, and the one that read first committing last. */
  lemma LeftoverPassesRunTwoAtOnce()
    ensures Run(START, LEFTOVERS) == Run(TWO_AT_ONCE, LEFTOVERS[7..])
    ensures TWO_AT_ONCE.passes[2].InFlight() && TWO_AT_ONCE.passes[3].InFlight()
    ensures TWO_AT_ONCE.passes[2].owner == TWO_AT_ONCE.passes[3].owner == TWO_AT_ONCE.stream
    ensures var t := Run(START, LEFTOVERS);
            AllDone(t) && t.latest == Some(Landscape) && EarlierLast(t) && t.skin != Landscape
  {
    hide Run, NewestEndedLast, EarlierLast, AllDone;
    ClearsWithPassesLeft();
    LeftoversTakeTheSlot();
    LeftoversEnd();
    SkinIsTheNewestExactly(LEFTOVERS);
  }
}
