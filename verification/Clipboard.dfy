/**
 Reading a device's clipboard with a key press: a marker is parked, the chord pressed, and the clipboard
 watched until the marker gives way. Setting the clipboard only schedules the change on the device.
 */
module Clipboard {

  import opened Options

  const MAX_CLIPBOARD_BYTES := 1_048_576

  /** A sentinel is a marker no app writes; each read makes its own. */
  datatype Text = Plain(text: string) | Sentinel(id: nat)

  datatype Writer = App | Agent

  datatype Kind = Press | Peek | Write(text: string, paste: bool)

  /** Which answer an operation awaits. */
  datatype Pc =
    | Original
    | Parking
    | Waiting
    | Pressing
    | Copying
    | Restoring
    | Confirming
    | Peeking
    | Writing
    | Landing
    | Pasting

  /** `sent` says the device took the sentinel or the text, `restored` the original put back; `seenAt` when
      the sentinel was read back before the chord. `saw` says the read has read its own sentinel, `cleared`
      that it has read something else since. */
  datatype Op = Op(
    id: nat,
    kind: Kind,
    pc: Pc,
    before: string,
    sent: bool,
    seenAt: Option<nat>,
    restored: bool,
    saw: bool,
    cleared: bool)

  /** `Copied` answers a read with a press: what was read when, and when its sentinel had been seen. */
  datatype Body =
    | Copied(text: Text, writer: Writer, readAt: nat, seenAt: nat)
    | Data(text: Text)
    | Error(parked: bool)
    | WriteDone

  datatype Reply = Reply(id: nat, body: Body)

  /** One device. `pending` holds the sets it took and has not made; `history` the clipboard after each step;
      `taken` what each read took for the original. `unconfirmed` turns true when a parked read ends
      without having read its own sentinel and then something else. */
  datatype State = State(
    clip: Text,
    writer: Writer,
    pending: seq<Text>,
    queue: seq<Kind>,
    current: Option<Op>,
    nextId: nat,
    parked: nat,
    replies: seq<Reply>,
    history: seq<Text>,
    taken: seq<Text>,
    unconfirmed: bool,
    inOrder: bool)

  /** How the awaited call ended, whether its deadline has passed, and whether the device takes the set that
      is issued next. */
  datatype Outcome = Outcome(ok: bool, expired: bool, takes: bool)

  datatype Event =
    | Submit(kind: Kind)
    | AppWrites(text: string)
    | Apply(i: nat)
    | Start(takes: bool)
    | Resume(outcome: Outcome)

  predicate TooLarge(t: Text) {
    t.Plain? && |t.text| > MAX_CLIPBOARD_BYTES
  }

  function Init(text: string): State {
    State(Plain(text), App, [], [], None, 0, 0, [], [Plain(text)], [], false, true)
  }

  function Issue(s: State, t: Text, takes: bool): State {
    if takes then s.(pending := s.pending + [t]) else s
  }

  function Answer(s: State, id: nat, body: Body): State {
    s.(replies := s.replies + [Reply(id, body)])
  }

  function Fail(s: State, id: nat): State {
    Answer(s, id, Error(s.parked > 0))
  }

  function Finish(s: State): State {
    s.(current := None)
  }

  /** The end of a parked read. */
  function Release(s: State, confirmed: bool): State
    requires s.parked > 0
  {
    s.(current := None, parked := s.parked - 1, unconfirmed := s.unconfirmed || !confirmed)
  }

  /** Answer, then put the original back. */
  function GiveUp(s: State, op: Op, takes: bool): State {
    Issue(Fail(s, op.id), Plain(op.before), takes).(current := Some(op.(pc := Restoring, restored := takes)))
  }

  function At(s: State, op: Op, pc: Pc): State {
    s.(current := Some(op.(pc := pc)))
  }

  /** The original is taken; what another read left behind counts as nothing. */
  function Park(s: State, op: Op, takes: bool): State {
    Issue(s, Sentinel(op.id), takes).(
      parked := s.parked + 1,
      taken := s.taken + [s.clip],
      current := Some(op.(pc := Parking, sent := takes, before := if s.clip.Plain? then s.clip.text else "")))
  }

  function Now(s: State): nat
    requires s.history != []
  {
    |s.history| - 1
  }

  function ReadCopied(s: State, op: Op): State
    requires s.parked > 0 && s.history != [] && op.seenAt.Some?
  {
    if TooLarge(s.clip) then Release(Fail(s, op.id), op.cleared)
    else Release(Answer(s, op.id, Copied(s.clip, s.writer, Now(s), op.seenAt.value)), op.cleared)
  }

  /** What a parked read learns from reading the clipboard. */
  function Noted(op: Op, clip: Text): Op {
    op.(saw := op.saw || clip == Sentinel(op.id), cleared := op.cleared || (op.saw && clip != Sentinel(op.id)))
  }

  /** The read learns from each read of the clipboard that succeeds. */
  function Listened(s: State, op: Op, o: Outcome): (t: State)
    ensures t.current.Some?
  {
    s.(current := Some(if o.ok && (op.pc.Waiting? || op.pc.Copying? || op.pc.Confirming?) then Noted(op, s.clip) else op))
  }

  /** The steps of a read with a press. */
  function Stepped(s: State, op: Op, o: Outcome): State
    requires s.history != [] && (!op.pc.Original? ==> s.parked > 0) && (op.pc.Copying? ==> op.seenAt.Some?)
  {
    match op.pc
    case Original => if o.ok then Park(s, op, o.takes) else Finish(Fail(s, op.id))
    case Parking => if o.ok && op.sent then At(s, op, Waiting) else GiveUp(s, op, o.takes)
    case Waiting =>
      if !o.ok then GiveUp(s, op, o.takes)
      else if s.clip == Sentinel(op.id) then s.(current := Some(op.(pc := Pressing, seenAt := Some(Now(s)))))
      else if o.expired then GiveUp(s, op, o.takes)
      else s
    case Pressing => if o.ok then At(s, op, Copying) else GiveUp(s, op, o.takes)
    case Copying =>
      if !o.ok then GiveUp(s, op, o.takes)
      else if s.clip.Plain? then ReadCopied(s, op)
      else if o.expired then GiveUp(s, op, o.takes)
      else s
    case Restoring => At(s, op, Confirming)
    case Confirming =>
      // A read that fails here counts as the original being back.
      if !o.ok || s.clip == Plain(op.before) || o.expired then Release(s, op.cleared) else s
    case _ => s
  }

  function ResumePress(s: State, op: Op, o: Outcome): State
    requires s.history != [] && (!op.pc.Original? ==> s.parked > 0) && (op.pc.Copying? ==> op.seenAt.Some?)
  {
    var t := Listened(s, op, o);
    Stepped(t, t.current.value, o)
  }

  function ResumePeek(s: State, op: Op, o: Outcome): State
    requires s.history != []
  {
    if !o.ok || TooLarge(s.clip) then Finish(Fail(s, op.id))
    else Finish(Answer(s, op.id, Data(s.clip)))
  }

  function ResumeWrite(s: State, op: Op, o: Outcome): State
    requires op.kind.Write?
  {
    match op.pc
    case Writing =>
      if !(o.ok && op.sent) then Finish(Fail(s, op.id))
      else if op.kind.paste then At(s, op, Landing)
      else Finish(Answer(s, op.id, WriteDone))
    case Landing =>
      if o.ok && s.clip == Plain(op.kind.text) then At(s, op, Pasting)
      else if o.expired then Finish(Fail(s, op.id))
      else s
    case Pasting => if o.ok then Finish(Answer(s, op.id, WriteDone)) else Finish(Fail(s, op.id))
    case _ => s
  }

  function Begin(s: State, kind: Kind, takes: bool): State
    requires |s.queue| <= s.nextId
  {
    var id := s.nextId - |s.queue|;
    match kind
    case Press => s.(current := Some(Op(id, kind, Original, "", false, None, false, false, false)))
    case Peek => s.(current := Some(Op(id, kind, Peeking, "", false, None, false, false, false)))
    case Write(text, _) => Issue(s, Plain(text), takes).(current := Some(Op(id, kind, Writing, "", takes, None, false, false, false)))
  }

  /** Operations are numbered as they are submitted, and start in that order, one at a time. */
  ghost predicate Sane(s: State) {
    && s.history != []
    && s.history[|s.history| - 1] == s.clip
    && Steady(s)
  }

  ghost predicate Steady(s: State) {
    && |s.queue| + (if s.current.Some? then 1 else 0) <= s.nextId
    && s.parked == (if Parked(s) then 1 else 0)
    && (s.current.Some? ==> SaneOp(s, s.current.value) && SeenIn(s.history, s.current.value))
  }

  /** The read's sentinel was on the device when it says so. */
  predicate SeenIn(history: seq<Text>, op: Op) {
    op.seenAt.Some? ==> op.seenAt.value < |history| && history[op.seenAt.value] == Sentinel(op.id)
  }

  predicate Parked(s: State) {
    s.current.Some? && s.current.value.kind.Press? && !s.current.value.pc.Original?
  }

  predicate Reading(s: State) {
    s.current.Some? && s.current.value.kind.Press?
  }

  /** The read has begun and not yet parked. */
  predicate AtOriginal(s: State) {
    Reading(s) && s.current.value.pc.Original?
  }

  predicate SaneOp(s: State, op: Op) {
    && op.id == s.nextId - |s.queue| - 1
    && match op.kind
       case Press =>
         && !(op.pc.Peeking? || op.pc.Writing? || op.pc.Landing? || op.pc.Pasting?)
         && (op.pc.Original? ==> !op.sent && op.seenAt.None?)
         && (op.pc.Waiting? ==> op.sent && op.seenAt.None?)
         && (op.pc.Parking? ==> op.seenAt.None?)
         && (op.pc.Pressing? || op.pc.Copying? ==> op.sent && op.seenAt.Some?)
         && (op.seenAt.Some? ==> op.sent && op.saw)
         && (op.pc.Original? || op.pc.Parking? ==> !op.saw)
         && (op.cleared ==> op.saw)
       case Peek => op.pc.Peeking?
       case Write(_, _) => op.pc.Writing? || op.pc.Landing? || op.pc.Pasting?
  }

  ghost function Act(s: State, e: Event): State
    requires Sane(s)
  {
    match e
    case Submit(kind) => s.(queue := s.queue + [kind], nextId := s.nextId + 1)
    case AppWrites(text) => s.(clip := Plain(text), writer := App)
    case Apply(i) =>
      if i >= |s.pending| then s
      else s.(clip := s.pending[i], writer := Agent, pending := s.pending[..i] + s.pending[i + 1..], inOrder := s.inOrder && i == 0)
    case Start(takes) =>
      if s.current.Some? || s.queue == [] then s
      else Begin(s, s.queue[0], takes).(queue := s.queue[1..])
    case Resume(o) =>
      if s.current.None? then s
      else match s.current.value.kind
        case Press => ResumePress(s, s.current.value, o)
        case Peek => ResumePeek(s, s.current.value, o)
        case Write(_, _) => ResumeWrite(s, s.current.value, o)
  }

  function Recorded(s: State): State {
    s.(history := s.history + [s.clip])
  }

  ghost function Next(s: State, e: Event): State
    requires Sane(s)
  {
    Recorded(Act(s, e))
  }

  lemma GiveUpIsSteady(s: State, takes: bool)
    requires Sane(s) && Parked(s)
    ensures Steady(GiveUp(s, s.current.value, takes))
  {
  }

  lemma ParkIsSteady(s: State, takes: bool)
    requires Sane(s) && s.current.Some? && s.current.value.kind.Press? && s.current.value.pc.Original?
    ensures Steady(Park(s, s.current.value, takes))
  {
  }

  /** A read that sees its sentinel remembers it. */
  predicate Heeded(s: State, o: Outcome)
    requires s.current.Some?
  {
    s.current.value.pc.Waiting? && o.ok && s.clip == Sentinel(s.current.value.id) ==> s.current.value.saw
  }

  /** Listening changes only what the read remembers. */
  lemma ListenedIsSane(s: State, o: Outcome)
    requires Sane(s) && s.current.Some? && s.current.value.kind.Press?
    ensures var t := Listened(s, s.current.value, o);
            && Sane(t) && t.current.Some?
            && t == s.(current := t.current)
            && t.current.value == s.current.value.(saw := t.current.value.saw, cleared := t.current.value.cleared)
            && Heeded(t, o)
  {
  }

  lemma PressIsSteady(s: State, o: Outcome)
    requires Sane(s) && s.current.Some? && s.current.value.kind.Press?
    ensures Steady(ResumePress(s, s.current.value, o))
  {
    hide Stepped;
    ListenedIsSane(s, o);
    SteppedIsSteady(Listened(s, s.current.value, o), o);
  }

  lemma SteppedIsSteady(s: State, o: Outcome)
    requires Sane(s) && s.current.Some? && s.current.value.kind.Press? && Heeded(s, o)
    ensures Steady(Stepped(s, s.current.value, o))
  {
    hide GiveUp, Park;
    var t := Stepped(s, s.current.value, o);
    if s.current.value.pc.Original? {
      ParkIsSteady(s, o.takes);
    } else if t == GiveUp(s, s.current.value, o.takes) {
      GiveUpIsSteady(s, o.takes);
    }
  }

  predicate OfWrite(pc: Pc) {
    pc.Writing? || pc.Landing? || pc.Pasting?
  }

  lemma WriteGoesOn(s: State, op: Op, o: Outcome)
    requires op.kind.Write? && OfWrite(op.pc) && s.current == Some(op)
    ensures var t := ResumeWrite(s, op, o);
            && t == s.(current := t.current, replies := t.replies)
            && (t.current.Some? ==> t.current.value == op.(pc := t.current.value.pc) && OfWrite(t.current.value.pc))
  {
  }

  lemma OtherIsSteady(s: State, o: Outcome)
    requires Sane(s) && !Reading(s)
    ensures Steady(Act(s, Resume(o))) && Act(s, Resume(o)).history == s.history
  {
    hide ResumePress, ResumeWrite;
    if s.current.Some? && s.current.value.kind.Write? { WriteGoesOn(s, s.current.value, o); }
  }

  lemma ActIsSteady(s: State, e: Event)
    requires Sane(s)
    ensures Steady(Act(s, e)) && Act(s, e).history == s.history
  {
    hide ResumePress, ResumePeek, ResumeWrite;
    if e.Resume? {
      if Reading(s) {
        PressIsSteady(s, e.outcome);
        PressKeepsHistory(s, e.outcome);
      } else {
        OtherIsSteady(s, e.outcome);
      }
    }
  }

  lemma PressKeepsHistory(s: State, o: Outcome)
    requires Sane(s) && s.current.Some? && s.current.value.kind.Press?
    ensures ResumePress(s, s.current.value, o).history == s.history
  {
  }

  lemma RecordedIsSane(s: State)
    requires Steady(s)
    ensures Sane(Recorded(s))
  {
    var t := Recorded(s);
    assert forall i | 0 <= i < |s.history| :: t.history[i] == s.history[i];
  }

  lemma NextIsSane(s: State, e: Event)
    requires Sane(s)
    ensures Sane(Next(s, e))
  {
    hide Act, Steady, Recorded;
    ActIsSteady(s, e);
    RecordedIsSane(Act(s, e));
  }

  /** Any number of steps. */
  ghost function Run(s: State, es: seq<Event>): (t: State)
    requires Sane(s)
    ensures Sane(t)
    decreases |es|
  {
    if es == [] then s else NextIsSane(s, es[0]); Run(Next(s, es[0]), es[1..])
  }
}
