/**
 What the model records beside the clipboard - who wrote it, whether sets were made in order, whether a read may have
 left its sentinel - told from the events and from what the reads hear.
 */
module ClipboardFlags {

  import opened Options
  import opened Clipboard
  import opened ClipboardSafety
  import opened ClipboardSentinels
  import opened ClipboardReads
  import ClipboardAnswers

  // ---------------------------------------------------------------- who wrote what is there

  datatype Written = Written(writer: Writer, text: Text)

  /** What is on the clipboard after a run, and who put it there: an app's last write, or the last set applied. */
  ghost function LastWritten(s: State, es: seq<Event>, w: Written): Written
    requires Sane(s)
    decreases |es|
  {
    if es == [] then w
    else
      NextIsSane(s, es[0]);
      LastWritten(Next(s, es[0]), es[1..],
        match es[0]
        case AppWrites(text) => Written(App, Plain(text))
        case Apply(i) => if i < |s.pending| then Written(Agent, s.pending[i]) else w
        case _ => w)
  }

  lemma OthersLeaveTheClipboard(s: State, e: Event)
    requires Sane(s) && !e.AppWrites? && !(e.Apply? && e.i < |s.pending|)
    ensures Next(s, e).clip == s.clip && Next(s, e).writer == s.writer
  {
    hide GiveUp, Park;
    if e.Resume? && s.current.Some? && s.current.value.kind.Press? { PressLeavesTheClipboard(s, e.outcome); }
  }

  lemma PressLeavesTheClipboard(s: State, o: Outcome)
    requires Sane(s) && Reading(s)
    ensures var t := ResumePress(s, s.current.value, o); t.clip == s.clip && t.writer == s.writer
  {
  }

  lemma {:induction false} RunWrites(s: State, es: seq<Event>)
    requires Sane(s)
    ensures Written(Run(s, es).writer, Run(s, es).clip) == LastWritten(s, es, Written(s.writer, s.clip))
    decreases |es|
  {
    hide Sane, Act, Recorded;
    if es != [] {
      NextIsSane(s, es[0]);
      if !es[0].AppWrites? && !(es[0].Apply? && es[0].i < |s.pending|) {
        OthersLeaveTheClipboard(s, es[0]);
      } else {
        WritesTheClipboard(s, es[0]);
      }
      RunWrites(Next(s, es[0]), es[1..]);
    }
  }

  lemma WritesTheClipboard(s: State, e: Event)
    requires Sane(s) && (e.AppWrites? || (e.Apply? && e.i < |s.pending|))
    ensures Written(Next(s, e).writer, Next(s, e).clip) ==
            if e.AppWrites? then Written(App, Plain(e.text)) else Written(Agent, s.pending[e.i])
  {
  }

  /** Over every run: the clipboard holds what was last written to it, and is marked as its writer's. */
  lemma TheLastWriteStands(text: string, es: seq<Event>)
    ensures var s := Run(Init(text), es);
            Written(s.writer, s.clip) == LastWritten(Init(text), es, Written(App, Plain(text)))
  {
    RunWrites(Init(text), es);
  }

  // ---------------------------------------------------------------- what the flags record

  /** Every set the run applies is the first of those the device has still to make. */
  ghost predicate InOrder(s: State, es: seq<Event>)
    requires Sane(s)
    decreases |es|
  {
    es != [] ==>
      && (es[0].Apply? && es[0].i < |s.pending| ==> es[0].i == 0)
      && (NextIsSane(s, es[0]); InOrder(Next(s, es[0]), es[1..]))
  }

  lemma NextRecordsOrder(s: State, e: Event)
    requires Sane(s)
    ensures Next(s, e).inOrder <==> s.inOrder && (e.Apply? && e.i < |s.pending| ==> e.i == 0)
  {
    hide GiveUp, Park;
    if e.Resume? && s.current.Some? && s.current.value.kind.Press? { PressKeepsOrder(s, e.outcome); }
  }

  lemma PressKeepsOrder(s: State, o: Outcome)
    requires Sane(s) && Reading(s)
    ensures ResumePress(s, s.current.value, o).inOrder == s.inOrder
  {
  }

  lemma {:induction false} RunRecordsOrder(s: State, es: seq<Event>)
    requires Sane(s)
    ensures Run(s, es).inOrder <==> s.inOrder && InOrder(s, es)
    decreases |es|
  {
    hide Sane, Act, Recorded;
    if es != [] {
      NextIsSane(s, es[0]);
      NextRecordsOrder(s, es[0]);
      RunRecordsOrder(Next(s, es[0]), es[1..]);
    }
  }

  /** Over every run: the device is taken to make its sets in order exactly where each it made was the next. */
  lemma InOrderIsInOrder(text: string, es: seq<Event>)
    ensures Run(Init(text), es).inOrder <==> InOrder(Init(text), es)
  {
    RunRecordsOrder(Init(text), es);
  }

  lemma OtherKeepsFlag(s: State, e: Event)
    requires Sane(s) && !(e.Resume? && Reading(s))
    ensures Next(s, e).unconfirmed == s.unconfirmed
  {
  }

  /** A read's step sets the flag only by ending, with what it remembers then. */
  lemma SteppedFlags(s: State, o: Outcome)
    requires Sane(s) && Reading(s)
    ensures var op := s.current.value; var t := Stepped(s, op, o);
            if t.current.Some? || op.pc.Original? then t.unconfirmed == s.unconfirmed
            else t.unconfirmed == (s.unconfirmed || !op.cleared)
  {
  }

  lemma ResumeFlags(s: State, o: Outcome)
    requires Sane(s) && Unique(s) && Reading(s)
    ensures var op := s.current.value; var t := Next(s, Resume(o));
            if t.current.Some? then t.unconfirmed == s.unconfirmed
            else t.unconfirmed == (s.unconfirmed || Endures(op, [Hears(s, o)]))
  {
    hide Stepped, Listened, Hears, Unique, Endures;
    var u := Listened(s, s.current.value, o);
    ListenedIsSane(s, o);
    ListenedRemembers(s, o);
    SteppedFlags(u, o);
    EnduresLast(s.current.value, Hears(s, o), u.current.value);
    ResumeRemembers(s, o);
  }

  lemma {:induction false} FlagsWhatEndures(s: State, es: seq<Event>)
    requires Sane(s) && Unique(s) && Reading(s) && Ends(s, es)
    ensures Run(s, es).unconfirmed == (s.unconfirmed || Endures(s.current.value, Heard(s, es)))
    decreases |es|
  {
    hide Next, Sane, Unique, Endures, Hears, Run, Heard, Ends;
    EndsTakesAStep(s, es);
    var e, rest := es[0], es[1..];
    assert es == [e] + rest;
    var t := Next(s, e);
    NextIsSane(s, e);
    NextIsUnique(s, e);
    HeardFirst(s, e, rest);
    if !e.Resume? {
      OtherKeepsFlag(s, e);
      ClipboardAnswers.OtherAnswersNothing(s, e);
      FlagsWhatEndures(t, rest);
    } else {
      ResumeFlags(s, e.outcome);
      ResumeRemembers(s, e.outcome);
      if rest == [] {
        assert [Hears(s, e.outcome)] + [] == [Hears(s, e.outcome)];
      } else {
        EndsTakesAStep(t, rest);
        EnduresStep(s.current.value, Hears(s, e.outcome), Heard(t, rest), t.current.value);
        FlagsWhatEndures(t, rest);
      }
    }
  }

  /** Over every run: a read that ends leaves the flag up exactly where it was, or where the read took an original
      and did not hear its own sentinel and then something else; nothing but a read touches it. */
  lemma UnconfirmedExactly(text: string, before: seq<Event>, es: seq<Event>)
    requires var s := Run(Init(text), before); AtOriginal(s) && Ends(s, es)
    ensures var s := Run(Init(text), before);
            Run(s, es).unconfirmed == (s.unconfirmed || MayLeave(Heard(s, es), s.current.value.id))
    ensures forall e: Event | !(e.Resume? && Reading(Run(Init(text), before))) ::
              Next(Run(Init(text), before), e).unconfirmed == Run(Init(text), before).unconfirmed
  {
    hide Run, Heard, Ends, Unique, Next;
    var s := Run(Init(text), before);
    EveryRunKeeps(text, before);
    FlagsWhatEndures(s, es);
    NothingHeardYet(s);
    EnduresExactly(s.current.value, Heard(s, es));
    forall e: Event | !(e.Resume? && Reading(s))
      ensures Next(s, e).unconfirmed == s.unconfirmed
    {
      OtherKeepsFlag(s, e);
    }
  }

  lemma NothingHeardYet(s: State)
    requires Sane(s) && AtOriginal(s)
    ensures !s.current.value.saw && !s.current.value.cleared
  {
  }
}
