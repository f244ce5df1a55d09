/**
 What a sentinel left behind does to the next read.
 */
module ClipboardLeftovers {

  import opened Options
  import opened Clipboard
  import opened ClipboardSentinels

  /** A sentinel is on the device or still to be set. */
  ghost predicate Holds(s: State) {
    s.clip.Sentinel? || exists t | t in s.pending :: t.Sentinel?
  }

  /** In this run, the next read to take an original takes a sentinel for it. */
  ghost predicate TakesSentinel(s: State, es: seq<Event>)
    requires Sane(s)
  {
    var t := Run(s, es);
    |s.taken| < |t.taken| && t.taken[|s.taken|].Sentinel?
  }

  // ---------------------------------------------------------------- without one, none is taken

  /** Only a read that has just begun takes an original. */
  lemma PressTakes(s: State, o: Outcome)
    requires Sane(s) && Reading(s)
    ensures var t := ResumePress(s, s.current.value, o); t.taken == s.taken || (AtOriginal(s) && t.taken == s.taken + [s.clip])
    ensures var t := ResumePress(s, s.current.value, o); AtOriginal(s) && t.taken == s.taken ==>
              t.clip == s.clip && t.pending == s.pending && t.current.None?
  {
    hide Stepped;
    ListenedIsSane(s, o);
    SteppedTakes(Listened(s, s.current.value, o), o);
  }

  lemma SteppedTakes(s: State, o: Outcome)
    requires Sane(s) && Reading(s)
    ensures var t := Stepped(s, s.current.value, o); t.taken == s.taken || (AtOriginal(s) && t.taken == s.taken + [s.clip])
    ensures var t := Stepped(s, s.current.value, o); AtOriginal(s) && t.taken == s.taken ==>
              t.clip == s.clip && t.pending == s.pending && t.current.None?
  {
  }

  /** Other operations take and set nothing as they go on. */
  lemma WriteTakes(s: State, op: Op, o: Outcome)
    requires op.kind.Write? && s.current == Some(op)
    ensures var t := ResumeWrite(s, op, o);
            t.taken == s.taken && t.clip == s.clip && t.pending == s.pending && !Parked(t)
  {
  }

  lemma PeekTakes(s: State, op: Op, o: Outcome)
    requires s.history != []
    ensures var t := ResumePeek(s, op, o);
            t.taken == s.taken && t.clip == s.clip && t.pending == s.pending && !Parked(t)
  {
  }

  lemma OtherTakes(s: State, o: Outcome)
    requires Sane(s) && !Reading(s)
    ensures var t := Act(s, Resume(o));
            t.taken == s.taken && t.clip == s.clip && t.pending == s.pending && !Parked(t)
  {
    hide ResumePress, ResumePeek, ResumeWrite;
    if s.current.Some? {
      var op := s.current.value;
      if op.kind.Peek? { PeekTakes(s, op, o); } else { WriteTakes(s, op, o); }
    }
  }

  lemma ResumeBefore(s: State, o: Outcome)
    requires Sane(s) && !Holds(s) && !Parked(s)
    ensures var t := Act(s, Resume(o));
            (t.taken == s.taken && !Holds(t) && !Parked(t)) || t.taken == s.taken + [s.clip]
  {
    hide ResumePress, ResumePeek, ResumeWrite;
    if Reading(s) { PressTakes(s, o); } else { OtherTakes(s, o); }
  }

  lemma NextBefore(s: State, e: Event)
    requires Sane(s) && !Holds(s) && !Parked(s)
    ensures var t := Next(s, e);
            (t.taken == s.taken && !Holds(t) && !Parked(t)) || t.taken == s.taken + [s.clip]
  {
    if e.Resume? {
      hide Act;
      ResumeBefore(s, e.outcome);
    } else if e.Apply? && e.i < |s.pending| {
      assert s.pending[e.i] in s.pending;
    }
  }

  lemma ResumeGrows(s: State, o: Outcome)
    requires Sane(s)
    ensures s.taken <= Act(s, Resume(o)).taken
  {
    hide ResumePress, ResumePeek, ResumeWrite;
    if Reading(s) { PressTakes(s, o); } else { OtherTakes(s, o); }
  }

  lemma NextGrows(s: State, e: Event)
    requires Sane(s)
    ensures s.taken <= Next(s, e).taken
  {
    if e.Resume? {
      hide Act;
      ResumeGrows(s, e.outcome);
    }
  }

  lemma {:induction false} TakenGrows(s: State, es: seq<Event>)
    requires Sane(s)
    ensures s.taken <= Run(s, es).taken
    decreases |es|
  {
    hide Next;
    if es != [] {
      NextIsSane(s, es[0]);
      NextGrows(s, es[0]);
      TakenGrows(Next(s, es[0]), es[1..]);
    }
  }

  lemma {:induction false} PlainTakesPlain(s: State, es: seq<Event>)
    requires Sane(s) && !Holds(s) && !Parked(s)
    ensures !TakesSentinel(s, es)
    decreases |es|
  {
    hide Next;
    if es != [] {
      var t := Next(s, es[0]);
      NextIsSane(s, es[0]);
      NextBefore(s, es[0]);
      if t.taken == s.taken {
        PlainTakesPlain(t, es[1..]);
      } else {
        TakenGrows(t, es[1..]);
        assert Run(s, es).taken[|s.taken|] == t.taken[|s.taken|];
      }
    }
  }

  // ---------------------------------------------------------------- with one, it can be

  lemma StepFirst(s: State, e: Event, es: seq<Event>)
    requires Sane(s) && Sane(Next(s, e)) && Next(s, e).taken == s.taken && TakesSentinel(Next(s, e), es)
    ensures TakesSentinel(s, [e] + es)
  {
    hide Next;
    assert ([e] + es)[1..] == es;
  }

  lemma TakesIt(s: State)
    requires Sane(s) && s.current.Some? && s.current.value.pc.Original? && s.current.value.kind.Press?
    requires s.clip.Sentinel?
    ensures TakesSentinel(s, [Resume(YES)])
  {
    hide Run;
    var t, rest := OneStep(s, [Resume(YES)]);
    NoneLeft(t, rest);
  }

  lemma StartsIt(s: State)
    requires Sane(s) && s.current.None? && s.queue != [] && s.queue[0].Press? && s.clip.Sentinel?
    ensures TakesSentinel(s, [Start(true)] + [Resume(YES)])
  {
    hide TakesSentinel;
    NextIsSane(s, Start(true));
    TakesIt(Next(s, Start(true)));
    StepFirst(s, Start(true), [Resume(YES)]);
  }

  /** What is queued before the read can fail without changing the clipboard. */
  lemma FailsFirst(s: State) returns (t: State)
    requires Sane(s) && s.current.None? && s.queue != [] && !s.queue[0].Press? && s.clip.Sentinel?
    ensures Sane(t) && t.current.None? && t.clip == s.clip && t.queue == s.queue[1..] && t.taken == s.taken
    ensures forall es | TakesSentinel(t, es) :: TakesSentinel(s, [Start(false)] + ([Resume(NO)] + es))
  {
    NextIsSane(s, Start(false));
    var u := Next(s, Start(false));
    NextIsSane(u, Resume(NO));
    t := Next(u, Resume(NO));
    forall es | TakesSentinel(t, es) ensures TakesSentinel(s, [Start(false)] + ([Resume(NO)] + es)) {
      hide TakesSentinel, Next;
      StepFirst(u, Resume(NO), es);
      StepFirst(s, Start(false), [Resume(NO)] + es);
    }
  }

  lemma {:induction false} ReadsWhatIsThere(s: State) returns (es: seq<Event>)
    requires Sane(s) && s.current.None? && s.clip.Sentinel?
    ensures TakesSentinel(s, es)
    decreases |s.queue|
  {
    hide TakesSentinel, Sane;
    if s.queue == [] {
      NextIsSane(s, Submit(Press));
      StartsIt(Next(s, Submit(Press)));
      es := [Submit(Press)] + ([Start(true)] + [Resume(YES)]);
      StepFirst(s, Submit(Press), [Start(true)] + [Resume(YES)]);
    } else if s.queue[0].Press? {
      es := [Start(true)] + [Resume(YES)];
      StartsIt(s);
    } else {
      var t := FailsFirst(s);
      es := ReadsWhatIsThere(t);
      es := [Start(false)] + ([Resume(NO)] + es);
    }
  }

  lemma SomeRunTakesIt(s: State) returns (es: seq<Event>)
    requires Sane(s) && s.current.None? && Holds(s)
    ensures TakesSentinel(s, es)
  {
    hide TakesSentinel, Sane;
    if s.clip.Sentinel? {
      es := ReadsWhatIsThere(s);
    } else {
      var i :| 0 <= i < |s.pending| && s.pending[i].Sentinel?;
      NextIsSane(s, Apply(i));
      es := ReadsWhatIsThere(Next(s, Apply(i)));
      StepFirst(s, Apply(i), es);
      es := [Apply(i)] + es;
    }
  }

  /** Between operations: some run from here has its next read take a sentinel for the original exactly when
      the device holds one or has one still to set. */
  lemma ASentinelIsTakenExactly(s: State)
    requires Sane(s) && s.current.None?
    ensures (exists es :: TakesSentinel(s, es)) <==> Holds(s)
  {
    hide TakesSentinel;
    if Holds(s) {
      var es := SomeRunTakesIt(s);
      assert TakesSentinel(s, es);
    } else {
      forall es ensures !TakesSentinel(s, es) { PlainTakesPlain(s, es); }
    }
  }
}
