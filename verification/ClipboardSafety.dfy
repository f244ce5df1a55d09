/**
 What every run of clipboard operations on one device keeps.
 */
module ClipboardSafety {

  import opened Clipboard

  function Count(rs: seq<Reply>, id: nat): nat {
    if rs == [] then 0 else Count(rs[..|rs| - 1], id) + if rs[|rs| - 1].id == id then 1 else 0
  }

  lemma CountOneMore(rs: seq<Reply>, r: Reply, id: nat)
    ensures Count(rs + [r], id) == Count(rs, id) + if r.id == id then 1 else 0
  {
    assert (rs + [r])[..|rs|] == rs;
  }

  // ---------------------------------------------------------------- each operation is answered once

  /** Operations still queued have no answer, finished ones have one, and the current one has its answer
      while it puts the original back. */
  function Due(s: State, id: nat): nat {
    if id >= s.nextId - |s.queue| then 0
    else if s.current.Some? && s.current.value.id == id then
      if s.current.value.pc.Restoring? || s.current.value.pc.Confirming? then 1 else 0
    else 1
  }

  ghost predicate Answered(s: State) {
    forall id: nat :: Count(s.replies, id) == Due(s, id)
  }

  /** A step answers nothing that was not due, or just the current operation. */
  ghost predicate AnswersOnce(s: State, t: State) {
    || (t.replies == s.replies && forall id: nat :: Due(t, id) == Due(s, id))
    || (&& |t.replies| == |s.replies| + 1
        && t.replies[..|s.replies|] == s.replies
        && forall id: nat :: Due(t, id) == Due(s, id) + if t.replies[|s.replies|].id == id then 1 else 0)
  }

  /** Whether the current operation's answer is out, or there is none. */
  predicate Settled(s: State) {
    s.current.None? || s.current.value.pc.Restoring? || s.current.value.pc.Confirming?
  }

  lemma DueAfterResume(s: State, t: State)
    requires Sane(s) && s.current.Some?
    requires t.nextId == s.nextId && t.queue == s.queue
    requires t.current.Some? ==> t.current.value.id == s.current.value.id
    requires Settled(s) ==> Settled(t)
    ensures forall id: nat :: Due(t, id) == Due(s, id) + if id == s.current.value.id && Settled(t) && !Settled(s) then 1 else 0
  {
  }

  /** The current operation is answered in the step that settles it, and in no other. */
  predicate Settles(s: State, t: State)
    requires s.current.Some?
  {
    && t.nextId == s.nextId && t.queue == s.queue
    && (t.current.Some? ==> t.current.value.id == s.current.value.id)
    && (Settled(s) ==> Settled(t))
    && if Settled(t) && !Settled(s) then Appended(s.replies, t.replies, s.current.value.id) else t.replies == s.replies
  }

  predicate Appended(before: seq<Reply>, after: seq<Reply>, id: nat) {
    |after| == |before| + 1 && after[..|before|] == before && after[|before|].id == id
  }

  lemma FailSettles(s: State)
    requires s.current.Some? && !Settled(s)
    ensures Settles(s, Finish(Fail(s, s.current.value.id)))
    ensures s.parked > 0 ==> Settles(s, Release(Fail(s, s.current.value.id), true))
  {
  }

  lemma AnswerSettles(s: State, body: Body)
    requires s.current.Some? && !Settled(s)
    ensures Settles(s, Finish(Answer(s, s.current.value.id, body)))
    ensures s.parked > 0 ==> Settles(s, Release(Answer(s, s.current.value.id, body), true))
  {
  }

  lemma GiveUpSettles(s: State, takes: bool)
    requires s.current.Some? && !Settled(s)
    ensures Settles(s, GiveUp(s, s.current.value, takes))
  {
  }

  lemma PressSettles(s: State, o: Outcome)
    requires Sane(s) && s.current.Some? && s.current.value.kind.Press?
    ensures Settles(s, ResumePress(s, s.current.value, o))
  {
    hide Stepped, Listened;
    ListenedIsSane(s, o);
    SteppedSettles(Listened(s, s.current.value, o), o);
  }

  lemma SteppedSettles(s: State, o: Outcome)
    requires Sane(s) && s.current.Some? && s.current.value.kind.Press?
    ensures Settles(s, Stepped(s, s.current.value, o))
  {
    hide GiveUp, Fail, Appended;
    if !Settled(s) {
      var op := s.current.value;
      GiveUpSettles(s, o.takes);
      FailSettles(s);
      if op.seenAt.Some? { AnswerSettles(s, Copied(s.clip, s.writer, Now(s), op.seenAt.value)); }
    }
  }

  lemma OtherSettles(s: State, o: Outcome)
    requires Sane(s) && s.current.Some? && !s.current.value.kind.Press?
    ensures Settles(s, Act(s, Resume(o)))
  {
    hide ResumePeek, ResumeWrite, Settles;
    if s.current.value.kind.Peek? { PeekSettles(s, o); } else { WriteSettles(s, o); }
  }

  lemma PeekSettles(s: State, o: Outcome)
    requires Sane(s) && s.current.Some? && s.current.value.kind.Peek?
    ensures Settles(s, ResumePeek(s, s.current.value, o))
  {
    hide Fail, Appended;
    FailSettles(s);
    AnswerSettles(s, Data(s.clip));
  }

  lemma WriteSettles(s: State, o: Outcome)
    requires Sane(s) && s.current.Some? && s.current.value.kind.Write?
    ensures Settles(s, ResumeWrite(s, s.current.value, o))
  {
    hide Fail, Appended;
    FailSettles(s);
    AnswerSettles(s, WriteDone);
  }

  lemma ResumeAnswersOnce(s: State, o: Outcome)
    requires Sane(s) && s.current.Some?
    ensures AnswersOnce(s, Act(s, Resume(o)))
  {
    hide ResumePress, ResumePeek, ResumeWrite, Due, Settled;
    if s.current.value.kind.Press? { PressSettles(s, o); } else { OtherSettles(s, o); }
    DueAfterResume(s, Act(s, Resume(o)));
  }

  lemma ActAnswersOnce(s: State, e: Event)
    requires Sane(s)
    ensures AnswersOnce(s, Act(s, e))
  {
    hide ResumePress, ResumePeek, ResumeWrite;
    if e.Resume? && s.current.Some? { ResumeAnswersOnce(s, e.outcome); }
  }

  lemma AnsweredStep(s: State, t: State)
    requires Answered(s) && AnswersOnce(s, t)
    ensures Answered(t)
  {
    hide Due;
    if t.replies != s.replies {
      assert t.replies == s.replies + [t.replies[|s.replies|]];
      forall id: nat ensures Count(t.replies, id) == Due(t, id) {
        CountOneMore(s.replies, t.replies[|s.replies|], id);
      }
    }
  }

  lemma NextIsAnswered(s: State, e: Event)
    requires Sane(s) && Answered(s)
    ensures Answered(Next(s, e))
  {
    hide Act, AnswersOnce;
    ActAnswersOnce(s, e);
    AnsweredStep(s, Act(s, e));
    assert forall id: nat :: Due(Next(s, e), id) == Due(Act(s, e), id);
  }

  // ---------------------------------------------------------------- copied text is fresh

  /** Read after the read's own sentinel was on the device, and no sentinel itself. */
  predicate Fresh(history: seq<Text>, r: Reply) {
    r.body.Copied? ==>
      && r.body.seenAt < r.body.readAt < |history|
      && history[r.body.seenAt] == Sentinel(r.id)
      && history[r.body.readAt] == r.body.text
      && r.body.text.Plain?
  }

  ghost predicate AllFresh(s: State) {
    forall r | r in s.replies :: Fresh(s.history, r)
  }

  /** The answer a step adds, if any, is fresh. */
  ghost predicate AddsFresh(s: State, t: State) {
    t.replies == s.replies
    || (&& |t.replies| == |s.replies| + 1
        && t.replies[..|s.replies|] == s.replies
        && Fresh(s.history, t.replies[|s.replies|]))
  }

  lemma PressAddsFresh(s: State, o: Outcome)
    requires Sane(s) && s.current.Some? && s.current.value.kind.Press?
    ensures AddsFresh(s, ResumePress(s, s.current.value, o))
  {
    hide Stepped, Listened;
    ListenedIsSane(s, o);
    SteppedAddsFresh(Listened(s, s.current.value, o), o);
  }

  lemma SteppedAddsFresh(s: State, o: Outcome)
    requires Sane(s) && s.current.Some? && s.current.value.kind.Press?
    ensures AddsFresh(s, Stepped(s, s.current.value, o))
  {
  }

  lemma OtherAddsFresh(s: State, o: Outcome)
    requires Sane(s) && !Reading(s)
    ensures AddsFresh(s, Act(s, Resume(o)))
  {
    hide ResumePress;
  }

  lemma ActAddsFresh(s: State, e: Event)
    requires Sane(s)
    ensures AddsFresh(s, Act(s, e))
  {
    hide ResumePress, ResumePeek, ResumeWrite;
    if e.Resume? {
      if Reading(s) { PressAddsFresh(s, e.outcome); } else { OtherAddsFresh(s, e.outcome); }
    }
  }

  lemma NextIsFresh(s: State, e: Event)
    requires Sane(s) && AllFresh(s)
    ensures AllFresh(Next(s, e))
  {
    hide Act;
    var t := Act(s, e);
    ActAddsFresh(s, e);
    ActIsSteady(s, e);
    var h := Next(s, e).history;
    assert h[..|s.history|] == s.history;
    forall r | r in t.replies ensures Fresh(h, r) {
      assert Fresh(s.history, r) by {
        if t.replies != s.replies { assert t.replies == s.replies + [t.replies[|s.replies|]]; }
      }
      assert r.body.Copied? ==> h[r.body.seenAt] == s.history[r.body.seenAt] && h[r.body.readAt] == s.history[r.body.readAt];
    }
  }

  // ---------------------------------------------------------------- where sentinels are

  /** No sentinel is set twice. */
  ghost predicate Unique(s: State) {
    && (forall i, j | 0 <= i < j < |s.pending| && s.pending[i].Sentinel? :: s.pending[i] != s.pending[j])
    && (s.clip.Sentinel? ==> s.clip !in s.pending && Used(s, s.clip))
    && (forall t | t in s.pending && t.Sentinel? :: Used(s, t))
  }

  /** A sentinel of a read that has parked it. */
  predicate Used(s: State, t: Text)
    requires t.Sentinel?
  {
    t.id < s.nextId - |s.queue| && (s.current.Some? && t.id == s.current.value.id ==> Parked(s))
  }

  /** A set more, in which only a sentinel never set before may be a sentinel. */
  lemma UniqueStep(s: State, t: State)
    requires Unique(s)
    requires t.clip == s.clip && (t.pending == s.pending || |t.pending| == |s.pending| + 1)
    requires s.pending <= t.pending
    requires forall x: Text | x.Sentinel? && Used(s, x) :: Used(t, x)
    requires t.pending != s.pending && t.pending[|s.pending|].Sentinel? ==>
               !Used(s, t.pending[|s.pending|]) && Used(t, t.pending[|s.pending|])
    ensures Unique(t)
  {
    hide Used;
    forall i, j | 0 <= i < j < |t.pending| && t.pending[i].Sentinel? ensures t.pending[i] != t.pending[j] {
      assert t.pending[i] == s.pending[i];
      assert s.pending[i] in s.pending;
      if j < |s.pending| { assert t.pending[j] == s.pending[j]; }
    }
    forall x | x in t.pending && x.Sentinel? ensures Used(t, x) {
      var i :| 0 <= i < |t.pending| && t.pending[i] == x;
      if i < |s.pending| { assert x == s.pending[i] && x in s.pending; }
    }
    assert s.clip.Sentinel? ==> forall i | 0 <= i < |t.pending| :: t.pending[i] != s.clip by {
      forall i | 0 <= i < |t.pending| && s.clip.Sentinel? ensures t.pending[i] != s.clip {
        if i < |s.pending| { assert t.pending[i] == s.pending[i] && s.pending[i] in s.pending; }
      }
    }
  }

  lemma GiveUpKeepsUnique(s: State, takes: bool)
    requires Sane(s) && Parked(s) && Unique(s)
    ensures Unique(GiveUp(s, s.current.value, takes))
  {
    hide Unique;
    UniqueStep(s, GiveUp(s, s.current.value, takes));
  }

  lemma PressKeepsUnique(s: State, o: Outcome)
    requires Sane(s) && s.current.Some? && s.current.value.kind.Press?
    requires Unique(s)
    ensures Unique(ResumePress(s, s.current.value, o))
  {
    hide Stepped, Listened;
    ListenedIsSane(s, o);
    var t := Listened(s, s.current.value, o);
    assert Unique(t) by {
      hide Unique;
      UniqueStep(s, t);
    }
    SteppedKeepsUnique(t, o);
  }

  lemma SteppedKeepsUnique(s: State, o: Outcome)
    requires Sane(s) && s.current.Some? && s.current.value.kind.Press?
    requires Unique(s)
    ensures Unique(Stepped(s, s.current.value, o))
  {
    hide Unique, GiveUp;
    if Parked(s) {
      GiveUpKeepsUnique(s, o.takes);
      if Stepped(s, s.current.value, o) == GiveUp(s, s.current.value, o.takes) { return; }
    }
    UniqueStep(s, Stepped(s, s.current.value, o));
  }

  /** The set applied leaves the others in order. */
  lemma ApplyKeepsUnique(s: State, i: nat)
    requires Sane(s) && Unique(s) && i < |s.pending|
    ensures Unique(Act(s, Apply(i)))
  {
    var t := Act(s, Apply(i));
    forall x | x in t.pending ensures x in s.pending && (s.pending[i].Sentinel? ==> x != s.pending[i]) {
      var k :| 0 <= k < |t.pending| && t.pending[k] == x;
      assert x == s.pending[if k < i then k else k + 1];
    }
    forall j, k | 0 <= j < k < |t.pending| && t.pending[j].Sentinel? ensures t.pending[j] != t.pending[k] {
      assert t.pending[j] == s.pending[if j < i then j else j + 1];
      assert t.pending[k] == s.pending[if k < i then k else k + 1];
    }
  }

  lemma NextIsUnique(s: State, e: Event)
    requires Sane(s) && Unique(s)
    ensures Unique(Next(s, e))
  {
    hide Act, Unique;
    assert Unique(Act(s, e)) by {
      if e.Apply? && e.i < |s.pending| {
        ApplyKeepsUnique(s, e.i);
      } else if e.AppWrites? {
        AppKeepsUnique(s, e.text);
      } else if e.Resume? && Reading(s) {
        PressKeepsUnique(s, e.outcome);
        PressActs(s, e.outcome);
      } else {
        OtherKeepsUnique(s, e);
      }
    }
    RecordedKeepsUnique(Act(s, e));
  }

  lemma PressActs(s: State, o: Outcome)
    requires Sane(s) && Reading(s)
    ensures Act(s, Resume(o)) == ResumePress(s, s.current.value, o)
  {
    hide ResumePress;
  }

  lemma OtherKeepsUnique(s: State, e: Event)
    requires Sane(s) && Unique(s)
    requires !(e.Apply? && e.i < |s.pending|) && !e.AppWrites? && !(e.Resume? && Reading(s))
    ensures Unique(Act(s, e))
  {
    hide ResumePress, ResumePeek, ResumeWrite, Begin, Unique;
    if e.Start? && s.current.None? && s.queue != [] {
      BeginKeepsUnique(s, e.takes);
    } else if e.Resume? && s.current.Some? {
      ResumeKeepsUnique(s, e.outcome);
    } else if e.Submit? {
      UniqueStep(s, Act(s, e));
    }
  }

  lemma BeginKeepsUnique(s: State, takes: bool)
    requires Sane(s) && Unique(s) && s.current.None? && s.queue != []
    ensures Unique(Act(s, Start(takes)))
  {
    hide Unique;
    UniqueStep(s, Act(s, Start(takes)));
  }

  lemma ResumeKeepsUnique(s: State, o: Outcome)
    requires Sane(s) && Unique(s) && s.current.Some? && !Reading(s)
    ensures Unique(Act(s, Resume(o)))
  {
    hide ResumePress, ResumeWrite, Unique;
    if s.current.value.kind.Write? { WriteGoesOn(s, s.current.value, o); }
    UniqueStep(s, Act(s, Resume(o)));
  }

  lemma AppKeepsUnique(s: State, text: string)
    requires Sane(s) && Unique(s)
    ensures Unique(Act(s, AppWrites(text)))
  {
  }

  lemma RecordedKeepsUnique(s: State)
    requires Unique(s)
    ensures Unique(Recorded(s))
  {
  }
}
