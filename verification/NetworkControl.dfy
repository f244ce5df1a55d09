/**
 The viewer's network control: where it says the device is, and which answers may move it. One React
 commit is one step.
 */
module NetworkControl {

  import opened Options

  datatype Position = Waiting | Unknown | Online | Offline

  datatype Reason = AwaitingApp | UnsupportedDevice | StateUnconfirmed | EnforcementLost

  /** `offline` is absent where the agent has never read the device. */
  datatype Report = Report(requestId: Option<nat>, offline: Option<bool>, available: bool, reason: Reason)

  datatype Notice = Lost | Failed | Unavailable | NoAnswer

  /** `asked` holds what each request wanted: true to go offline. */
  datatype Control = Control(
    position: Position,
    steerable: bool,
    reason: Option<Reason>,
    lastReason: Option<Reason>,
    pending: bool,
    requestId: Option<nat>,
    abandoned: set<nat>,
    ready: bool,
    everReady: bool,
    supported: bool,
    nextId: nat,
    asked: seq<bool>,
    said: seq<Notice>)

  datatype Event =
    | StateFrame(report: Report)
    | ErrorFrame(requestId: nat)
    | NewSession(ready: bool)
    | Readiness(ready: bool)
    | Support(supported: bool)
    | Toggle
    | ReportDeadline
    | RequestDeadline(requestId: nat)

  function Mounted(ready: bool, supported: bool): Control {
    Control(Waiting, true, None, None, false, None, {}, ready, ready, supported, 0, [], [])
  }

  function Say(c: Control, n: Notice): Control {
    c.(said := c.said + [n])
  }

  /** The outstanding request is over. */
  function Settle(c: Control): Control {
    c.(pending := false, requestId := None)
  }

  /** Whether a report is taken as the device's state. */
  predicate Accepts(c: Control, r: Report) {
    c.supported && c.ready && !(r.requestId.Some? && r.requestId.value in c.abandoned)
  }

  function Drawn(r: Report): Position {
    if r.offline.None? then Unknown else if r.offline.value then Offline else Online
  }

  function OnState(c: Control, r: Report): Control {
    if !Accepts(c, r) then c
    else
      var reason := if r.available then None else Some(r.reason);
      var d := c.(position := Drawn(r), steerable := r.available, reason := reason, lastReason := reason);
      var e := if reason == Some(EnforcementLost) && c.lastReason != Some(EnforcementLost) then Say(d, Lost) else d;
      if r.requestId.Some? && r.requestId == c.requestId then Settle(e) else e
  }

  function OnError(c: Control, id: nat): Control {
    if c.supported && c.requestId == Some(id) then Say(Settle(c), Failed) else c
  }

  /** A device that is not ready knows nothing of its network, and cannot answer what it was asked. */
  function OnDrop(c: Control): Control {
    var d := c.(ready := false, position := if c.everReady then Unknown else Waiting,
                steerable := true, reason := None, lastReason := None);
    if c.requestId.Some? then Settle(Say(d, Unavailable)).(abandoned := c.abandoned + {c.requestId.value}) else Settle(d)
  }

  function OnReadiness(c: Control, ready: bool): Control {
    if ready == c.ready then c
    else if ready then c.(ready := true, everReady := true, position := Waiting)
    else OnDrop(c)
  }

  /** A new session: the state starts over, then a change of readiness in the same commit has the last word. */
  function OnSession(c: Control, ready: bool): Control {
    var start := c.(position := Waiting, steerable := true, reason := None, lastReason := None, pending := false,
                    requestId := None, abandoned := {}, everReady := ready);
    OnReadiness(start, ready)
  }

  /** Ask for the opposite of what is drawn, and to go offline where nothing is known. */
  function OnToggle(c: Control): Control {
    if !c.supported || c.pending then c
    else c.(requestId := Some(c.nextId), pending := true, nextId := c.nextId + 1, asked := c.asked + [!c.position.Offline?])
  }

  function Next(c: Control, e: Event): Control {
    match e
    case StateFrame(r) => OnState(c, r)
    case ErrorFrame(id) => OnError(c, id)
    case NewSession(ready) => OnSession(c, ready)
    case Readiness(ready) => OnReadiness(c, ready)
    case Support(supported) => c.(supported := supported)
    case Toggle => OnToggle(c)
    case ReportDeadline =>
      if c.supported && c.ready && c.position.Waiting? then c.(position := Unknown) else c
    case RequestDeadline(id) => if c.requestId == Some(id) then Say(Settle(c), NoAnswer) else c
  }

  function Run(c: Control, es: seq<Event>): Control {
    if es == [] then c else Next(Run(c, es[..|es| - 1]), es[|es| - 1])
  }

  // ---------------------------------------------------------------- what every commit keeps

  ghost predicate Kept(c: Control) {
    && (c.pending <==> c.requestId.Some?)
    && (c.requestId.Some? ==> c.requestId.value < c.nextId && c.requestId.value !in c.abandoned)
    && (forall id | id in c.abandoned :: id < c.nextId)
    && (c.ready ==> c.everReady)
    && (c.position.Online? || c.position.Offline? ==> c.ready)
    && (c.position.Waiting? ==> (c.ready || !c.everReady) && c.steerable && c.reason.None?)
    && (!c.ready ==> c.steerable && c.reason.None? && !c.position.Online? && !c.position.Offline?)
    && (c.reason.Some? ==> !c.steerable)
    && c.lastReason == c.reason
  }

  lemma NextKeeps(c: Control, e: Event)
    requires Kept(c)
    ensures Kept(Next(c, e))
  {
  }

  lemma {:induction false} RunKeeps(c: Control, es: seq<Event>)
    requires Kept(c)
    ensures Kept(Run(c, es))
    decreases |es|
  {
    if es != [] {
      RunKeeps(c, es[..|es| - 1]);
      NextKeeps(Run(c, es[..|es| - 1]), es[|es| - 1]);
    }
  }

  lemma MountKeeps(ready: bool, supported: bool)
    ensures Kept(Mounted(ready, supported))
  {
  }

  /** The control is busy exactly while a request is outstanding. */
  lemma BusyIsOutstanding(ready: bool, supported: bool, es: seq<Event>)
    ensures var c := Run(Mounted(ready, supported), es); c.pending <==> c.requestId.Some?
  {
    MountKeeps(ready, supported);
    RunKeeps(Mounted(ready, supported), es);
  }

  /** Waiting is said only where something ends the wait: with a device ready, or before the session has had
      one. While waiting, and of a device that is not ready, the control says it can be steered. */
  lemma WaitingEnds(ready: bool, supported: bool, es: seq<Event>)
    ensures var c := Run(Mounted(ready, supported), es);
            && (c.position.Waiting? ==> (c.ready || !c.everReady) && c.steerable && c.reason.None?)
            && (!c.ready ==> c.steerable && c.reason.None? && !c.position.Online? && !c.position.Offline?)
  {
    MountKeeps(ready, supported);
    RunKeeps(Mounted(ready, supported), es);
  }

  // ---------------------------------------------------------------- a drawn position was reported

  /** Neither a session change, nor a change of readiness, nor an accepted report. */
  predicate Idle(c: Control, e: Event) {
    && !e.NewSession?
    && (e.Readiness? ==> e.ready == c.ready)
    && (e.StateFrame? ==> !Accepts(c, e.report))
  }

  /** The report at i was accepted, and nothing since could have moved what it shows. */
  ghost predicate LastReport(start: Control, es: seq<Event>, i: nat) {
    && i < |es| && es[i].StateFrame?
    && Accepts(Run(start, es[..i]), es[i].report)
    && forall j | i < j < |es| :: Idle(Run(start, es[..j]), es[j])
  }

  /** Where the last report says the device is, if it does. */
  ghost predicate LastSays(start: Control, es: seq<Event>, offline: Option<bool>) {
    exists i: nat :: LastReport(start, es, i) && es[i].report.offline == offline
  }

  /** The control shows what the report says. */
  predicate Shows(c: Control, r: Report) {
    && (c.position.Online? <==> r.offline.Some? && !r.offline.value)
    && (c.position.Offline? <==> r.offline.Some? && r.offline.value)
    && (c.position.Unknown? <==> r.offline.None?)
    && (c.steerable <==> r.available)
    && (c.reason.None? <==> r.available) && (c.reason.Some? ==> c.reason.value == r.reason)
  }

  lemma LastReportStays(start: Control, es: seq<Event>, i: nat)
    requires es != [] && i < |es| - 1
    ensures var front := es[..|es| - 1];
            LastReport(start, es, i) <==> LastReport(start, front, i) && Idle(Run(start, front), es[|es| - 1])
  {
    hide Run, Accepts, Idle;
    var front := es[..|es| - 1];
    assert forall j | 0 <= j < |front| :: front[..j] == es[..j] && front[j] == es[j];
    assert es[..|front|] == front;
  }

  lemma IdleKeepsPosition(c: Control, e: Event)
    requires Idle(c, e)
    ensures Next(c, e).position.Online? || Next(c, e).position.Offline? ==> Next(c, e).position == c.position
  {
  }

  lemma IdleKeepsShown(c: Control, e: Event, r: Report)
    requires Idle(c, e) && Shows(c, r)
    ensures Shows(Next(c, e), r)
  {
  }

  lemma ReportsAreShown(c: Control, r: Report)
    requires Accepts(c, r)
    ensures Shows(Next(c, StateFrame(r)), r)
  {
  }

  lemma OnlyReportsDraw(c: Control, e: Event)
    requires Kept(c) && !Idle(c, e)
    ensures Next(c, e).position.Online? || Next(c, e).position.Offline? ==> e.StateFrame? && Accepts(c, e.report)
  {
  }

  /** What the last accepted report since the last change of session or readiness says is what is shown: where
      the device is or that nobody knows, whether it can be steered, and why not. */
  lemma {:induction false} LastReportIsShown(start: Control, es: seq<Event>, i: nat)
    requires LastReport(start, es, i)
    ensures Shows(Run(start, es), es[i].report)
    decreases |es|
  {
    hide Shows, Idle, Accepts, Next;
    var front, e := es[..|es| - 1], es[|es| - 1];
    if i < |front| {
      LastReportStays(start, es, i);
      LastReportIsShown(start, front, i);
      IdleKeepsShown(Run(start, front), e, es[i].report);
    } else {
      ReportsAreShown(Run(start, front), e.report);
    }
  }

  lemma {:induction false} DrawnWasReported(ready: bool, supported: bool, es: seq<Event>)
    ensures var start := Mounted(ready, supported);
            var p := Run(start, es).position;
            p.Online? || p.Offline? ==> exists i: nat :: LastReport(start, es, i)
    decreases |es|
  {
    var start := Mounted(ready, supported);
    if es != [] {
      var front, e := es[..|es| - 1], es[|es| - 1];
      var c := Run(start, front);
      var p := Next(c, e).position;
      DrawnWasReported(ready, supported, front);
      MountKeeps(ready, supported);
      RunKeeps(start, front);
      if p.Online? || p.Offline? {
        if Idle(c, e) {
          IdleKeepsPosition(c, e);
          var i: nat :| LastReport(start, front, i);
          LastReportStays(start, es, i);
        } else {
          OnlyReportsDraw(c, e);
          assert LastReport(start, es, |es| - 1);
        }
      }
    }
  }

  /** The control says online exactly where the last accepted report since the last change of session or
      readiness says the device is not offline, and offline exactly where it says it is. */
  lemma PositionWasReported(ready: bool, supported: bool, es: seq<Event>)
    ensures var start := Mounted(ready, supported);
            var p := Run(start, es).position;
            && (p.Online? <==> LastSays(start, es, Some(false)))
            && (p.Offline? <==> LastSays(start, es, Some(true)))
            && (LastSays(start, es, None) ==> p.Unknown?)
  {
    hide Run, LastReport;
    var start := Mounted(ready, supported);
    DrawnWasReported(ready, supported, es);
    forall i: nat | LastReport(start, es, i) ensures i < |es| && es[i].StateFrame? && Shows(Run(start, es), es[i].report) {
      ReportsAt(start, es, i);
      LastReportIsShown(start, es, i);
    }
  }

  lemma ReportsAt(start: Control, es: seq<Event>, i: nat)
    requires LastReport(start, es, i)
    ensures i < |es| && es[i].StateFrame?
  {
  }

  /** A press asks the device back online exactly where the last accepted report since the last change of session
      or readiness says it is offline, and otherwise to go offline; busy or unsupported, a press does nothing. */
  lemma OnlineIsAskedOfTheReportedOffline(ready: bool, supported: bool, es: seq<Event>)
    ensures var start := Mounted(ready, supported);
            var c := Run(start, es);
            var d := Next(c, Toggle);
            if !c.supported || c.requestId.Some? then d == c
            else
              && d.requestId == Some(c.nextId)
              && |d.asked| == |c.asked| + 1 && d.asked[..|c.asked|] == c.asked
              && (!d.asked[|c.asked|] <==> LastSays(start, es, Some(true)))
  {
    hide Run, LastSays;
    MountKeeps(ready, supported);
    RunKeeps(Mounted(ready, supported), es);
    PositionWasReported(ready, supported, es);
  }

  // ---------------------------------------------------------------- abandoned answers

  lemma {:induction false} StaysAbandoned(c: Control, es: seq<Event>, id: nat)
    requires Kept(c) && id in c.abandoned && forall e | e in es :: !e.NewSession?
    ensures Kept(Run(c, es)) && id in Run(c, es).abandoned
    decreases |es|
  {
    if es != [] {
      var front := es[..|es| - 1];
      StaysAbandoned(c, front, id);
      NextKeeps(Run(c, front), es[|es| - 1]);
      assert es[|es| - 1] in es;
    }
  }

  /** However long after the device returns, an answer to a request abandoned when it went changes nothing in
      that session. */
  lemma AbandonedAnswersChangeNothing(ready: bool, supported: bool, before: seq<Event>, after: seq<Event>, r: Report)
    requires var c := Run(Mounted(ready, supported), before); c.ready && c.requestId.Some? && r.requestId == c.requestId
    requires forall e | e in after :: !e.NewSession?
    ensures var c := Run(Next(Run(Mounted(ready, supported), before), Readiness(false)), after);
            Next(c, StateFrame(r)) == c && Next(c, ErrorFrame(r.requestId.value)) == c
  {
    MountKeeps(ready, supported);
    RunKeeps(Mounted(ready, supported), before);
    var c := Run(Mounted(ready, supported), before);
    NextKeeps(c, Readiness(false));
    StaysAbandoned(Next(c, Readiness(false)), after, r.requestId.value);
  }

  /** The device goes while the request is outstanding. */
  predicate Abandons(c: Control, e: Event, id: nat) {
    e == Readiness(false) && c.ready && c.requestId == Some(id)
  }

  lemma NextAbandons(c: Control, e: Event, id: nat)
    ensures id in Next(c, e).abandoned <==> Abandons(c, e, id) || (id in c.abandoned && !e.NewSession?)
  {
  }

  /** The device went at event i with the request outstanding, in the session that still is. */
  ghost predicate AbandonedAt(start: Control, es: seq<Event>, i: nat, id: nat) {
    && i < |es| && Abandons(Run(start, es[..i]), es[i], id)
    && forall j | i < j < |es| :: !es[j].NewSession?
  }

  lemma AbandonedOn(start: Control, es: seq<Event>, i: nat, id: nat)
    requires es != [] && i < |es|
    ensures var front, e := es[..|es| - 1], es[|es| - 1];
            AbandonedAt(start, es, i, id) <==>
              if i < |front| then AbandonedAt(start, front, i, id) && !e.NewSession? else Abandons(Run(start, front), e, id)
  {
    hide Run, Abandons;
    var front := es[..|es| - 1];
    assert forall j | 0 <= j < |front| :: front[..j] == es[..j] && front[j] == es[j];
  }

  lemma AbandonedWithin(start: Control, es: seq<Event>, i: nat, id: nat)
    ensures AbandonedAt(start, es, i, id) ==> i < |es|
  {
  }

  /** The requests whose answers are refused are exactly those the device went with in this session. */
  lemma {:induction false} AbandonedExactly(ready: bool, supported: bool, es: seq<Event>, id: nat)
    ensures var start := Mounted(ready, supported);
            id in Run(start, es).abandoned <==> exists i :: AbandonedAt(start, es, i, id)
    decreases |es|
  {
    var start := Mounted(ready, supported);
    if es == [] {
    } else {
      hide AbandonedAt, Abandons, Next;
      var front, e := es[..|es| - 1], es[|es| - 1];
      AbandonedExactly(ready, supported, front, id);
      NextAbandons(Run(start, front), e, id);
      AbandonedOn(start, es, |front|, id);
      forall i: nat | AbandonedAt(start, es, i, id) || AbandonedAt(start, front, i, id)
        ensures i < |es| && (i < |front| ==> (AbandonedAt(start, es, i, id) <==> AbandonedAt(start, front, i, id) && !e.NewSession?))
      {
        AbandonedWithin(start, es, i, id);
        AbandonedWithin(start, front, i, id);
        AbandonedOn(start, es, i, id);
      }
      forall i: nat | AbandonedAt(start, front, i, id) ensures i < |front| { AbandonedWithin(start, front, i, id); }
    }
  }

  // ---------------------------------------------------------------- which reports are taken

  /** Whether the device is supported, by the last event that says. */
  function SupportedBy(supported: bool, es: seq<Event>): bool {
    if es == [] then supported
    else
      match es[|es| - 1]
      case Support(now) => now
      case _ => SupportedBy(supported, es[..|es| - 1])
  }

  /** Whether the device is ready, by the last event that says. */
  function ReadyBy(ready: bool, es: seq<Event>): bool {
    if es == [] then ready
    else
      match es[|es| - 1]
      case NewSession(now) => now
      case Readiness(now) => now
      case _ => ReadyBy(ready, es[..|es| - 1])
  }

  lemma NextStands(c: Control, e: Event)
    ensures Next(c, e).supported == if e.Support? then e.supported else c.supported
    ensures Next(c, e).ready == if e.NewSession? || e.Readiness? then e.ready else c.ready
  {
  }

  lemma {:induction false} StandsAsSaid(ready: bool, supported: bool, es: seq<Event>)
    ensures var c := Run(Mounted(ready, supported), es); c.supported == SupportedBy(supported, es) && c.ready == ReadyBy(ready, es)
    decreases |es|
  {
    hide Next;
    if es != [] {
      StandsAsSaid(ready, supported, es[..|es| - 1]);
      NextStands(Run(Mounted(ready, supported), es[..|es| - 1]), es[|es| - 1]);
    }
  }

  /** Over every run: a report is taken exactly where the device is supported and ready, as last said, and the report
      does not answer a request the device went with in this session. */
  lemma AcceptedExactly(ready: bool, supported: bool, es: seq<Event>, r: Report)
    ensures var start := Mounted(ready, supported);
            Accepts(Run(start, es), r) <==>
              && SupportedBy(supported, es) && ReadyBy(ready, es)
              && !(r.requestId.Some? && exists i :: AbandonedAt(start, es, i, r.requestId.value))
  {
    hide Run, AbandonedAt, SupportedBy, ReadyBy;
    StandsAsSaid(ready, supported, es);
    if r.requestId.Some? { AbandonedExactly(ready, supported, es, r.requestId.value); }
  }

  // ---------------------------------------------------------------- an outstanding request

  /** What ends this viewer's request: its own answer, error or deadline, the device going, a new session. */
  predicate Closes(c: Control, e: Event, id: nat) {
    match e
    case StateFrame(r) => Accepts(c, r) && r.requestId == Some(id)
    case ErrorFrame(i) => c.supported && i == id
    case RequestDeadline(i) => i == id
    case Readiness(ready) => c.ready && !ready
    case NewSession(_) => true
    case _ => false
  }

  lemma NextCloses(c: Control, e: Event, id: nat)
    requires Kept(c) && id < c.nextId
    ensures Next(c, e).requestId == Some(id) <==> c.requestId == Some(id) && !Closes(c, e, id)
    ensures id < Next(c, e).nextId
  {
  }

  ghost predicate NeverCloses(c: Control, es: seq<Event>, id: nat) {
    forall i | 0 <= i < |es| :: !Closes(Run(c, es[..i]), es[i], id)
  }

  lemma OneMoreCloses(c: Control, es: seq<Event>, id: nat)
    requires es != []
    ensures var front := es[..|es| - 1];
            NeverCloses(c, es, id) <==> NeverCloses(c, front, id) && !Closes(Run(c, front), es[|es| - 1], id)
  {
    hide Run, Closes;
    var front := es[..|es| - 1];
    assert forall i | 0 <= i < |front| :: front[..i] == es[..i] && front[i] == es[i];
  }

  lemma {:induction false} StaysOutstanding(c: Control, es: seq<Event>, id: nat)
    requires Kept(c) && c.requestId == Some(id)
    ensures Kept(Run(c, es)) && id < Run(c, es).nextId
    ensures Run(c, es).requestId == Some(id) <==> NeverCloses(c, es, id)
    decreases |es|
  {
    hide Next, Closes, NeverCloses;
    if es == [] {
      assert NeverCloses(c, es, id) by { NothingCloses(c, id); }
    } else {
      var front := es[..|es| - 1];
      StaysOutstanding(c, front, id);
      NextKeeps(Run(c, front), es[|es| - 1]);
      NextCloses(Run(c, front), es[|es| - 1], id);
      OneMoreCloses(c, es, id);
    }
  }

  lemma NothingCloses(c: Control, id: nat)
    ensures NeverCloses(c, [], id)
  {
  }

  /** Whatever else arrives, other viewers' answers and errors and further presses included: this viewer's
      request is outstanding exactly until something that ends it. */
  lemma OutstandingUntilClosed(ready: bool, supported: bool, before: seq<Event>, after: seq<Event>, id: nat)
    requires Run(Mounted(ready, supported), before).requestId == Some(id)
    ensures var c := Run(Mounted(ready, supported), before);
            Run(c, after).pending && Run(c, after).requestId == Some(id) <==> NeverCloses(c, after, id)
  {
    MountKeeps(ready, supported);
    RunKeeps(Mounted(ready, supported), before);
    StaysOutstanding(Run(Mounted(ready, supported), before), after, id);
  }

  /** How a request that ended without its answer is told of. */
  function Ending(e: Event): seq<Notice> {
    match e
    case ErrorFrame(_) => [Failed]
    case RequestDeadline(_) => [NoAnswer]
    case Readiness(_) => [Unavailable]
    case _ => []
  }

  /** Over every run: what a step says. A request that ends without its answer is told of once, in its own
      words; a loss of enforcement is told of when it is not shown already; nothing else says anything. */
  lemma OnlyEndsAndLossesAreSaid(ready: bool, supported: bool, es: seq<Event>, e: Event)
    ensures var c := Run(Mounted(ready, supported), es);
            Next(c, e).said == c.said +
              if e.StateFrame? then
                if Accepts(c, e.report) && !e.report.available && e.report.reason.EnforcementLost? && c.reason != Some(EnforcementLost)
                then [Lost] else []
              else if c.requestId.Some? && Closes(c, e, c.requestId.value) then Ending(e) else []
  {
    MountKeeps(ready, supported);
    RunKeeps(Mounted(ready, supported), es);
  }

  // ---------------------------------------------------------------- waiting for a report

  predicate BeginsWait(c: Control, e: Event) {
    e.NewSession? || (e.Readiness? && e.ready && !c.ready)
  }

  /** A report is accepted, the deadline for one passes, or the device goes. */
  predicate EndsWait(c: Control, e: Event) {
    match e
    case StateFrame(r) => Accepts(c, r)
    case ReportDeadline => c.supported && c.ready
    case Readiness(ready) => c.ready && !ready
    case _ => false
  }

  lemma NextWaits(c: Control, e: Event)
    requires Kept(c)
    ensures Next(c, e).position.Waiting? <==> BeginsWait(c, e) || (c.position.Waiting? && !EndsWait(c, e))
  {
  }

  /** A wait began before event i, and no event from there on ended it. */
  ghost predicate WaitsFrom(start: Control, es: seq<Event>, i: nat) {
    && i <= |es|
    && (i > 0 ==> BeginsWait(Run(start, es[..i - 1]), es[i - 1]))
    && forall j | i <= j < |es| :: !EndsWait(Run(start, es[..j]), es[j])
  }

  lemma WaitsOn(start: Control, es: seq<Event>, i: nat)
    requires es != [] && i < |es|
    ensures var front := es[..|es| - 1];
            WaitsFrom(start, es, i) <==> WaitsFrom(start, front, i) && !EndsWait(Run(start, front), es[|es| - 1])
  {
    hide Run, BeginsWait, EndsWait;
    var front := es[..|es| - 1];
    assert forall j | 0 <= j <= |front| :: front[..j] == es[..j];
    assert forall j | 0 <= j < |front| :: front[j] == es[j];
  }

  lemma WaitsAnew(start: Control, es: seq<Event>)
    requires es != []
    ensures WaitsFrom(start, es, |es|) <==> BeginsWait(Run(start, es[..|es| - 1]), es[|es| - 1])
  {
  }

  /** Waiting is shown exactly from a mount, a new session or the device's return until a report is accepted,
      the deadline passes or the device goes. */
  lemma {:induction false} WaitingExactly(ready: bool, supported: bool, es: seq<Event>)
    ensures var start := Mounted(ready, supported);
            Run(start, es).position.Waiting? <==> exists i :: WaitsFrom(start, es, i)
    decreases |es|
  {
    var start := Mounted(ready, supported);
    if es == [] {
      assert WaitsFrom(start, es, 0);
    } else {
      hide WaitsFrom, BeginsWait, EndsWait, Next;
      var front, e := es[..|es| - 1], es[|es| - 1];
      var c := Run(start, front);
      WaitingExactly(ready, supported, front);
      MountKeeps(ready, supported);
      RunKeeps(start, front);
      NextWaits(c, e);
      WaitsAnew(start, es);
      forall i: nat | i < |es|
        ensures WaitsFrom(start, es, i) <==> WaitsFrom(start, front, i) && !EndsWait(c, e)
      {
        WaitsOn(start, es, i);
      }
      forall i: nat | WaitsFrom(start, es, i) || WaitsFrom(start, front, i)
        ensures i <= |es|
      {
        WaitsWithin(start, es, i);
      }
      forall i: nat | WaitsFrom(start, front, i) ensures i < |es| { WaitsWithin(start, front, i); }
    }
  }

  lemma WaitsWithin(start: Control, es: seq<Event>, i: nat)
    ensures WaitsFrom(start, es, i) ==> i <= |es|
  {
  }
}
