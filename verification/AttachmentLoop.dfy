/** The daemon's attachment loop (crates/ctxmux-daemon/src/attachment.rs:198-335,
  428-493, 534-547, 723-895). */
module AttachmentLoops {
  import opened Wrappers
  import CommandRuns

  // One iteration of the loop is one step: a finished command, the admission at the
  // front of the queue, a client frame, or a live event.  Which ready branch runs is
  // arbitrary.  Frames are written in full before the next step.

  datatype Command = Command(id: nat, isStop: bool)

  datatype Reply = Settled(outcome: nat) | NotApplied | Unknown | Invalid

  datatype RunEvent = Output(endByte: nat) | Resized(revision: nat) | ServiceChanged(revision: nat) | Ended(how: nat) | Other(id: nat)

  datatype Cause = SubscriberLag | GeometryLag | LiveEventPressure | SourceDiscontinuity | UnknownCause

  /** How often each shared cause of lost output was recorded. */
  datatype Causes = Causes(pressure: nat, source: nat, unknown: nat)

  datatype Frame =
    | ResultOf(command: Command, reply: Reply)
    | EventFrame(event: RunEvent)
    | Gap(head: nat, causes: set<Cause>)
    | ObservationDiscontinuity
    | DetachAck
    | ErrorFrame

  /** Frames written so far, newest last. */
  datatype Wire = Nothing | Then(before: Wire, frame: Frame)

  datatype Cursor = Cursor(
    observation: nat, terminal: nat, discontinuity: nat, discontinuityByte: nat,
    output: nat, resize: nat, service: nat, causes: Causes)

  datatype Published = SnapshotNeeded | Withdrawn | Live(event: RunEvent)

  datatype Envelope = Envelope(before: Cursor, after: Cursor, published: Published)

  /** The Run's own state at the time of a recovery. */
  datatype RunInfo = RunInfo(running: bool, latest: nat, service: Option<nat>, ended: nat)

  datatype ClientFrame = CommandFrame(command: Command) | Detach | Misplaced | Eof

  /** What becomes of a command frame with a valid id. */
  datatype Fate = Queued | NoMemory | InvalidStop | RetryLater | Sealed

  /** Commands by where they are; `seen` holds every command frame with a valid id,
      `entered` those handed to the daemon, both in order. */
  datatype Queues = Queues(admissions: seq<Command>, results: seq<Command>, seen: seq<Command>, entered: seq<Command>)

  datatype Controls = Controls(lastId: Option<nat>, pendingStops: int, held: Option<RunEvent>)

  /** What this view was shown so far. */
  datatype View = View(lagged: bool, cursor: Cursor, through: nat, service: nat, resize: nat)

  datatype State = State(
    queues: Queues,
    controls: Controls,
    view: View,
    closed: bool,            // observation_closed
    done: bool,
    wire: Wire)

  datatype Step =
    | Complete(k: nat, outcome: nat)
    | AdmitFront
    | Incoming(frame: ClientFrame, fate: Fate)
    | Received(envelope: Envelope, info: RunInfo)
    | Lag
    | SourceClosed
    | Finish

  // ---------- The branches as functions ----------

  function Write(s: State, frame: Frame): State { s.(wire := Then(s.wire, frame)) }

  function StopOf(c: Command): nat { if c.isStop then 1 else 0 }

  predicate Idle(q: Queues) { q.admissions == [] && q.results == [] }

  function FinishedQueues(q: Queues, k: nat): Queues
    requires k < |q.results|
  {
    q.(results := q.results[..k] + q.results[k + 1..])
  }

  function CompleteOn(s: State, k: nat, outcome: nat): State
    requires k < |s.queues.results|
  {
    var c := s.queues.results[k];
    var t := s.(queues := FinishedQueues(s.queues, k),
                controls := s.controls.(pendingStops := s.controls.pendingStops - StopOf(c)),
                wire := Then(s.wire, ResultOf(c, Settled(outcome))));
    if t.controls.pendingStops == 0 && Idle(t.queues) && t.controls.held.Some?
    then Write(t, EventFrame(t.controls.held.value)).(controls := t.controls.(held := None), done := true)
    else t
  }

  function AdmittedQueues(q: Queues): Queues
    requires q.admissions != []
  {
    q.(admissions := q.admissions[1..], results := q.results + [q.admissions[0]], entered := q.entered + [q.admissions[0]])
  }

  function AdmitOn(s: State): State
    requires s.queues.admissions != []
  {
    s.(queues := AdmittedQueues(s.queues))
  }

  /** A Stop whose retained key was never inspected may have been applied elsewhere. */
  function Untouched(c: Command): Reply { if c.isStop then Unknown else NotApplied }

  /** A command frame with a valid id, refused on the spot. */
  function RefuseOn(s: State, c: Command, reply: Reply): State {
    s.(queues := s.queues.(seen := s.queues.seen + [c]), controls := s.controls.(lastId := Some(c.id)),
       wire := Then(s.wire, ResultOf(c, reply)))
  }

  function EnqueueOn(s: State, c: Command): State {
    s.(queues := s.queues.(seen := s.queues.seen + [c], admissions := s.queues.admissions + [c]),
       controls := s.controls.(lastId := Some(c.id), pendingStops := s.controls.pendingStops + StopOf(c)))
  }

  function IncomingOn(s: State, frame: ClientFrame, fate: Fate): State {
    match frame
    case Eof => s.(done := true)
    case Detach => Write(s, DetachAck).(done := true)
    case Misplaced => Write(s, ErrorFrame)
    case CommandFrame(c) =>
      if !CommandRuns.Observes(s.controls.lastId, c.id) then Write(s, ErrorFrame).(done := true)
      else if s.closed then RefuseOn(s, c, Untouched(c))
      else match fate
        case RetryLater => RefuseOn(s, c, NotApplied)
        case InvalidStop => RefuseOn(s, c, Invalid)
        case NoMemory => RefuseOn(s, c, Untouched(c))
        case Sealed => s.(done := true)
        case Queued => EnqueueOn(s, c)
  }

  /** Answer the oldest unadmitted command without admitting it. */
  function CancelOne(s: State): State
    requires s.queues.admissions != []
  {
    var c := s.queues.admissions[0];
    s.(queues := s.queues.(admissions := s.queues.admissions[1..]),
       controls := s.controls.(pendingStops := s.controls.pendingStops - StopOf(c)),
       wire := Then(s.wire, ResultOf(c, Untouched(c))))
  }

  function CancelOn(s: State): State
    decreases |s.queues.admissions|
  {
    if s.queues.admissions == [] then s else CancelOn(CancelOne(s))
  }

  function TerminalOn(s: State, event: RunEvent): State {
    if s.controls.pendingStops == 0 && Idle(s.queues) then Write(s, EventFrame(event)).(done := true)
    else s.(controls := s.controls.(held := Some(event)))
  }

  function Max(a: nat, b: nat): nat { if a < b then b else a }

  predicate LostObservation(delivered: Cursor, retained: Cursor) { retained.observation > delivered.observation }

  predicate LostOutput(view: View, delivered: Cursor, retained: Cursor) {
    || retained.discontinuity > delivered.discontinuity
    || retained.output > view.through
    || retained.resize > view.resize
  }

  function GapHead(delivered: Cursor, retained: Cursor, info: RunInfo): nat {
    var marker := if retained.discontinuity > delivered.discontinuity then retained.discontinuityByte else 0;
    Max(Max(retained.output, marker), info.latest)
  }

  /** The shared causes recorded since then. */
  function Since(now: Causes, before: Causes): set<Cause> {
    (if now.pressure > before.pressure then {LiveEventPressure} else {})
    + (if now.source > before.source then {SourceDiscontinuity} else {})
    + (if now.unknown > before.unknown then {UnknownCause} else {})
  }

  /** Why this receiver lost output. */
  function LagCauses(view: View, retained: Cursor): set<Cause> {
    {SubscriberLag} + (if retained.resize > view.resize then {GeometryLag} else {}) + Since(retained.causes, view.cursor.causes)
  }

  datatype Recovery = Continue | Close | Terminal(event: RunEvent)

  function GapOn(s: State, retained: Cursor, info: RunInfo): State {
    var delivered := s.view.cursor;
    if LostOutput(s.view, delivered, retained) then
      var head := GapHead(delivered, retained, info);
      Write(s, Gap(head, LagCauses(s.view, retained))).(view := s.view.(through := Max(s.view.through, head)))
    else s
  }

  function CatchUpServiceOn(s: State, retained: Cursor, info: RunInfo): State {
    if retained.service > s.view.cursor.service && info.service.Some? && info.service.value > s.view.service then
      Write(s, EventFrame(ServiceChanged(info.service.value))).(view := s.view.(service := info.service.value))
    else s
  }

  function RecoverOn(s: State, retained: Cursor, info: RunInfo): State {
    if LostObservation(s.view.cursor, retained) then Write(s, ObservationDiscontinuity)
    else CatchUpServiceOn(GapOn(s, retained, info), retained, info)
  }

  function RecoveryOf(delivered: Cursor, retained: Cursor, info: RunInfo): Recovery {
    if LostObservation(delivered, retained) then (if info.running then Close else Terminal(Ended(info.ended)))
    else if retained.terminal > delivered.terminal && !info.running then Terminal(Ended(info.ended))
    else Continue
  }

  function ShowOn(s: State, event: RunEvent): State {
    match event
    case Output(endByte) =>
      if endByte <= s.view.through then s else Write(s, EventFrame(event)).(view := s.view.(through := endByte))
    case Resized(revision) =>
      if revision <= s.view.resize then s else Write(s, EventFrame(event)).(view := s.view.(resize := revision))
    case ServiceChanged(revision) =>
      if revision <= s.view.service then s else Write(s, EventFrame(event)).(view := s.view.(service := revision))
    case Ended(_) => TerminalOn(s, event)
    case Other(_) => Write(s, EventFrame(event))
  }

  function DeliverOn(s: State, envelope: Envelope): State {
    var t := s.(view := s.view.(cursor := envelope.after));
    if envelope.published.Live? then ShowOn(t, envelope.published.event) else t
  }

  /** Where a recovery measures the loss from: just before this event, or after it
      when the event itself asks for the snapshot. */
  function RetainedAt(envelope: Envelope): Cursor {
    if envelope.published.SnapshotNeeded? then envelope.after else envelope.before
  }

  function ReceivedOn(s: State, envelope: Envelope, info: RunInfo): State {
    if !s.view.lagged && !envelope.published.SnapshotNeeded? then DeliverOn(s, envelope) else
    var t := RecoverOn(s.(view := s.view.(lagged := false)), RetainedAt(envelope), info);
    match RecoveryOf(s.view.cursor, RetainedAt(envelope), info)
    case Continue => DeliverOn(t, envelope)
    case Close => CancelOn(t.(closed := true))
    case Terminal(event) => TerminalOn(t, event)
  }

  predicate Enabled(s: State, step: Step) {
    !s.done && if s.closed && Idle(s.queues) then step == Finish else
    match step
    case Complete(k, _) => k < |s.queues.results|
    case AdmitFront => s.queues.admissions != []
    case Incoming(frame, fate) => fate.InvalidStop? ==> frame.CommandFrame? && frame.command.isStop
    case Received(_, _) => s.controls.held.None? && !s.closed
    case Lag => s.controls.held.None? && !s.closed
    case SourceClosed => s.controls.held.None? && !s.closed
    case Finish => false
  }

  function Apply(s: State, step: Step): State
    requires Enabled(s, step)
  {
    match step
    case Complete(k, outcome) => CompleteOn(s, k, outcome)
    case AdmitFront => AdmitOn(s)
    case Incoming(frame, fate) => IncomingOn(s, frame, fate)
    case Received(envelope, info) => ReceivedOn(s, envelope, info)
    case Lag => s.(view := s.view.(lagged := true))
    case SourceClosed => s.(done := true)
    case Finish => s.(done := true)
  }

  // ---------- What every step keeps ----------

  function Stops(commands: seq<Command>): nat {
    if commands == [] then 0 else StopOf(commands[0]) + Stops(commands[1..])
  }

  lemma {:induction false} StopsJoin(a: seq<Command>, b: seq<Command>)
    ensures Stops(a + b) == Stops(a) + Stops(b)
  {
    if a == [] {
      assert a + b == b;
    } else {
      StopsJoin(a[1..], b);
      assert (a + b)[1..] == a[1..] + b;
    }
  }

  lemma StopsRemove(commands: seq<Command>, k: nat)
    requires k < |commands|
    ensures Stops(commands) == StopOf(commands[k]) + Stops(commands[..k] + commands[k + 1..])
  {
    assert commands == commands[..k] + commands[k..];
    StopsJoin(commands[..k], commands[k..]);
    StopsJoin(commands[..k], commands[k + 1..]);
  }

  /** Commands whose own outcome was reported. */
  function SettledIn(wire: Wire): multiset<Command> {
    match wire
    case Nothing => multiset{}
    case Then(before, frame) =>
      SettledIn(before) + if frame.ResultOf? && frame.reply.Settled? then multiset{frame.command} else multiset{}
  }

  /** Commands refused or cancelled without ever reaching the daemon. */
  function RefusedIn(wire: Wire): multiset<Command> {
    match wire
    case Nothing => multiset{}
    case Then(before, frame) =>
      RefusedIn(before) + if frame.ResultOf? && !frame.reply.Settled? then multiset{frame.command} else multiset{}
  }

  /** Every frame is answered once or still outstanding; a command is answered with
      an outcome exactly when it entered the daemon, and only then. */
  ghost predicate Answered(q: Queues, wire: Wire) {
    && multiset(q.entered) == SettledIn(wire) + multiset(q.results)
    && multiset(q.seen) == multiset(q.entered) + RefusedIn(wire) + multiset(q.admissions)
  }

  predicate Rising(commands: seq<Command>) {
    forall i, j :: 0 <= i < j < |commands| ==> commands[i].id < commands[j].id
  }

  predicate UpTo(commands: seq<Command>, last: Option<nat>) {
    forall i :: 0 <= i < |commands| ==> last.Some? && commands[i].id <= last.value
  }

  predicate Sorted(commands: seq<Command>, last: Option<nat>) { Rising(commands) && UpTo(commands, last) }

  /** Frames arrive with rising ids and enter the daemon in that order. */
  predicate InFrameOrder(q: Queues, last: Option<nat>) {
    Sorted(q.seen, last) && Sorted(q.entered + q.admissions, last)
  }

  predicate StopsExact(q: Queues, pendingStops: int) {
    pendingStops == Stops(q.admissions) + Stops(q.results)
  }

  /** A held terminal event always has something to wait for. */
  predicate HeldOk(q: Queues, held: Option<RunEvent>, closed: bool) {
    && (held.Some? ==> held.value.Ended? && !closed && !Idle(q))
    && (closed ==> q.admissions == [])
  }

  predicate NoTerminal(wire: Wire) {
    wire.Nothing? || (NoTerminal(wire.before) && !(wire.frame.EventFrame? && wire.frame.event.Ended?))
  }

  ghost predicate Open(s: State) {
    && Answered(s.queues, s.wire)
    && InFrameOrder(s.queues, s.controls.lastId)
    && StopsExact(s.queues, s.controls.pendingStops)
    && NoTerminal(s.wire)
    && HeldOk(s.queues, s.controls.held, s.closed)
  }

  /** What a run that ended with the terminal event has delivered before it. */
  ghost predicate CleanEnd(q: Queues, wire: Wire) {
    && wire.Then? && NoTerminal(wire.before)
    && RefusedIn(wire) + SettledIn(wire) == multiset(q.seen)
    && SettledIn(wire) == multiset(q.entered)
    && Rising(q.seen) && Rising(q.entered)
  }

  ghost predicate Good(s: State) {
    && (!s.done ==> Open(s))
    && (s.done && !NoTerminal(s.wire) ==> CleanEnd(s.queues, s.wire))
  }

  lemma IdleAnswered(q: Queues, settled: multiset<Command>, refused: multiset<Command>)
    requires multiset(q.entered) == settled + multiset(q.results)
    requires multiset(q.seen) == multiset(q.entered) + refused + multiset(q.admissions)
    requires Idle(q)
    ensures refused + settled == multiset(q.seen) && settled == multiset(q.entered)
  {
    assert multiset(q.results) == multiset{} && multiset(q.admissions) == multiset{};
  }

  /** The terminal event, with nothing outstanding, is a clean end. */
  lemma EndIsClean(q: Queues, last: Option<nat>, wire: Wire, event: RunEvent)
    requires Answered(q, wire) && InFrameOrder(q, last) && NoTerminal(wire) && Idle(q) && event.Ended?
    ensures CleanEnd(q, Then(wire, EventFrame(event)))
  {
    IdleAnswered(q, SettledIn(wire), RefusedIn(wire));
    assert q.entered + q.admissions == q.entered;
    var w := Then(wire, EventFrame(event));
    assert SettledIn(w) == SettledIn(wire) && RefusedIn(w) == RefusedIn(wire);
  }

  lemma AnsweredResult(q: Queues, wire: Wire, k: nat, outcome: nat)
    requires Answered(q, wire) && k < |q.results|
    ensures Answered(FinishedQueues(q, k), Then(wire, ResultOf(q.results[k], Settled(outcome))))
  {
    var rest := q.results[..k] + q.results[k + 1..];
    assert q.results == q.results[..k] + [q.results[k]] + q.results[k + 1..];
    assert multiset(q.results) == multiset(rest) + multiset{q.results[k]};
  }

  lemma CompleteKeeps(s: State, k: nat, outcome: nat)
    requires Open(s) && !s.done && k < |s.queues.results|
    ensures Good(CompleteOn(s, k, outcome))
  {
    var q := FinishedQueues(s.queues, k);
    var wire := Then(s.wire, ResultOf(s.queues.results[k], Settled(outcome)));
    StopsRemove(s.queues.results, k);
    AnsweredResult(s.queues, s.wire, k, outcome);
    if Idle(q) && s.controls.held.Some? {
      EndIsClean(q, s.controls.lastId, wire, s.controls.held.value);
    }
  }

  lemma AdmitKeeps(s: State)
    requires Open(s) && !s.done && s.queues.admissions != []
    ensures Good(AdmitOn(s))
  {
    var q := s.queues;
    var head := q.admissions[0];
    assert q.admissions == [head] + q.admissions[1..];
    StopsJoin(q.results, [head]);
    assert q.entered + q.admissions == (q.entered + [head]) + q.admissions[1..];
    assert multiset(q.admissions) == multiset{head} + multiset(q.admissions[1..]);
  }

  lemma AppendSorted(commands: seq<Command>, last: Option<nat>, c: Command)
    requires Sorted(commands, last) && CommandRuns.Observes(last, c.id)
    ensures Sorted(commands + [c], Some(c.id)) && Sorted(commands, Some(c.id))
  {
  }

  lemma RefuseKeeps(s: State, c: Command, reply: Reply)
    requires Open(s) && CommandRuns.Observes(s.controls.lastId, c.id) && !reply.Settled?
    ensures Open(RefuseOn(s, c, reply))
  {
    AppendSorted(s.queues.seen, s.controls.lastId, c);
    AppendSorted(s.queues.entered + s.queues.admissions, s.controls.lastId, c);
  }

  lemma EnqueueKeeps(s: State, c: Command)
    requires Open(s) && !s.closed && CommandRuns.Observes(s.controls.lastId, c.id)
    ensures Open(EnqueueOn(s, c))
  {
    var q := s.queues;
    AppendSorted(q.seen, s.controls.lastId, c);
    AppendSorted(q.entered + q.admissions, s.controls.lastId, c);
    StopsJoin(q.admissions, [c]);
    AnsweredEnqueue(q, s.wire, c);
  }

  lemma AnsweredEnqueue(q: Queues, wire: Wire, c: Command)
    requires Answered(q, wire)
    ensures Answered(q.(seen := q.seen + [c], admissions := q.admissions + [c]), wire)
    ensures q.entered + q.admissions + [c] == q.entered + (q.admissions + [c])
  {
  }

  lemma IncomingKeeps(s: State, frame: ClientFrame, fate: Fate)
    requires Open(s) && !s.done
    ensures Good(IncomingOn(s, frame, fate))
  {
    if frame.CommandFrame? && CommandRuns.Observes(s.controls.lastId, frame.command.id) {
      var c := frame.command;
      if s.closed || !fate.Queued? {
        RefuseKeeps(s, c, Untouched(c));
        RefuseKeeps(s, c, NotApplied);
        RefuseKeeps(s, c, Invalid);
      } else {
        EnqueueKeeps(s, c);
      }
    }
  }

  lemma CancelOneKeeps(q: Queues, wire: Wire, last: Option<nat>, reply: Reply)
    requires Answered(q, wire) && InFrameOrder(q, last) && q.admissions != [] && !reply.Settled?
    ensures var less := q.(admissions := q.admissions[1..]);
            Answered(less, Then(wire, ResultOf(q.admissions[0], reply))) && InFrameOrder(less, last)
  {
    assert q.admissions == [q.admissions[0]] + q.admissions[1..];
    assert multiset(q.admissions) == multiset{q.admissions[0]} + multiset(q.admissions[1..]);
    var all, less := q.entered + q.admissions, q.entered + q.admissions[1..];
    forall i | 0 <= i < |less| ensures less[i] == all[if i < |q.entered| then i else i + 1] {
    }
  }

  /** Everything but the admission queue's emptiness, while it is being cancelled. */
  ghost predicate Cancelling(s: State) {
    && Answered(s.queues, s.wire)
    && InFrameOrder(s.queues, s.controls.lastId)
    && StopsExact(s.queues, s.controls.pendingStops)
    && NoTerminal(s.wire)
    && s.controls.held.None? && s.closed && !s.done
  }

  lemma {:induction false} CancelKeeps(s: State)
    requires Cancelling(s)
    ensures Cancelling(CancelOn(s)) && Open(CancelOn(s))
    decreases |s.queues.admissions|
  {
    if s.queues.admissions != [] {
      CancelOneKeeps(s.queues, s.wire, s.controls.lastId, Untouched(s.queues.admissions[0]));
      CancelKeeps(CancelOne(s));
    }
  }

  lemma TerminalKeeps(s: State, event: RunEvent)
    requires Open(s) && !s.done && !s.closed && event.Ended?
    ensures Good(TerminalOn(s, event))
  {
    if Idle(s.queues) {
      EndIsClean(s.queues, s.controls.lastId, s.wire, event);
    }
  }

  /** A frame that is neither a result nor the terminal event. */
  predicate Quiet(frame: Frame) { !frame.ResultOf? && !(frame.EventFrame? && frame.event.Ended?) }

  lemma QuietKeeps(s: State, frame: Frame)
    requires Open(s) && Quiet(frame)
    ensures Open(Write(s, frame))
  {
  }

  lemma GapKeeps(s: State, retained: Cursor, info: RunInfo)
    requires Open(s)
    ensures Open(GapOn(s, retained, info))
    ensures var t := GapOn(s, retained, info); t == s.(wire := t.wire, view := t.view)
  {
    QuietKeeps(s, Gap(GapHead(s.view.cursor, retained, info), LagCauses(s.view, retained)));
  }

  lemma CatchUpKeeps(s: State, retained: Cursor, info: RunInfo)
    requires Open(s)
    ensures Open(CatchUpServiceOn(s, retained, info))
    ensures var t := CatchUpServiceOn(s, retained, info); t == s.(wire := t.wire, view := t.view)
  {
    if info.service.Some? {
      QuietKeeps(s, EventFrame(ServiceChanged(info.service.value)));
    }
  }

  lemma RecoverKeeps(s: State, retained: Cursor, info: RunInfo)
    requires Open(s)
    ensures Open(RecoverOn(s, retained, info))
    ensures var t := RecoverOn(s, retained, info); t == s.(wire := t.wire, view := t.view)
  {
    if LostObservation(s.view.cursor, retained) {
      QuietKeeps(s, ObservationDiscontinuity);
    } else {
      GapKeeps(s, retained, info);
      CatchUpKeeps(GapOn(s, retained, info), retained, info);
    }
  }

  lemma ShowKeeps(s: State, event: RunEvent)
    requires Open(s) && !s.done && !s.closed
    ensures Good(ShowOn(s, event))
  {
    if event.Ended? {
      TerminalKeeps(s, event);
    } else {
      QuietKeeps(s, EventFrame(event));
    }
  }

  lemma DeliverKeeps(s: State, envelope: Envelope)
    requires Open(s) && !s.done && !s.closed
    ensures Good(DeliverOn(s, envelope))
  {
    if envelope.published.Live? {
      ShowKeeps(s.(view := s.view.(cursor := envelope.after)), envelope.published.event);
    }
  }

  lemma ReceivedKeeps(s: State, envelope: Envelope, info: RunInfo)
    requires Open(s) && !s.done && s.controls.held.None? && !s.closed
    ensures Good(ReceivedOn(s, envelope, info))
  {
    if !s.view.lagged && !envelope.published.SnapshotNeeded? {
      DeliverKeeps(s, envelope);
    } else {
      var before := s.(view := s.view.(lagged := false));
      RecoverKeeps(before, RetainedAt(envelope), info);
      var t := RecoverOn(before, RetainedAt(envelope), info);
      match RecoveryOf(s.view.cursor, RetainedAt(envelope), info)
      case Continue => DeliverKeeps(t, envelope);
      case Close => CancelKeeps(t.(closed := true)); CancelNotDone(t.(closed := true));
      case Terminal(event) => TerminalKeeps(t, event);
    }
  }

  lemma CancelNotDone(s: State)
    requires Cancelling(s)
    ensures !CancelOn(s).done
  {
    CancelKeeps(s);
  }

  lemma StepKeeps(s: State, step: Step)
    requires Good(s) && Enabled(s, step)
    ensures Good(Apply(s, step))
  {
    match step
    case Complete(k, outcome) => CompleteKeeps(s, k, outcome);
    case AdmitFront => AdmitKeeps(s);
    case Incoming(frame, fate) => IncomingKeeps(s, frame, fate);
    case Received(envelope, info) => ReceivedKeeps(s, envelope, info);
    case _ =>
  }

  ghost predicate Execution(steps: seq<Step>, states: seq<State>) {
    && |states| == |steps| + 1
    && forall i :: 0 <= i < |steps| ==> Enabled(states[i], steps[i]) && states[i + 1] == Apply(states[i], steps[i])
  }

  /** The loop's variables right after the replay. */
  predicate Initial(s: State) {
    && s.queues == Queues([], [], [], []) && s.controls == Controls(None, 0, None)
    && !s.view.lagged && !s.closed && !s.done && s.wire == Nothing
  }

  lemma {:induction false} RunKeeps(steps: seq<Step>, states: seq<State>, k: nat)
    requires Execution(steps, states) && Initial(states[0]) && k < |states|
    ensures Good(states[k])
  {
    if k > 0 {
      RunKeeps(steps, states, k - 1);
      StepKeeps(states[k - 1], steps[k - 1]);
    }
  }

  /** The terminal event is written at most once, as the very last frame, and only
      after every command frame of this attachment got exactly one result: its own
      outcome if it entered the daemon, a refusal if it never did. */
  lemma TerminalComesLast(steps: seq<Step>, states: seq<State>, k: nat, c: Command)
    requires Execution(steps, states) && Initial(states[0]) && k < |states|
    requires !NoTerminal(states[k].wire)
    ensures states[k].done && states[k].wire.Then? && NoTerminal(states[k].wire.before)
    ensures c in states[k].queues.seen ==> SettledIn(states[k].wire)[c] + RefusedIn(states[k].wire)[c] == 1
    ensures c in states[k].queues.entered <==> SettledIn(states[k].wire)[c] == 1
  {
    RunKeeps(steps, states, k);
    if c in states[k].queues.seen { OneOf(states[k].queues.seen, c); }
    if c in states[k].queues.entered { OneOf(states[k].queues.entered, c); }
  }

  lemma {:induction false} OneOf(commands: seq<Command>, c: Command)
    requires Rising(commands) && c in commands
    ensures multiset(commands)[c] == 1
  {
    var front, last := commands[..|commands| - 1], commands[|commands| - 1];
    assert commands == front + [last];
    if c == last {
      assert c !in front;
    } else {
      OneOf(front, c);
    }
  }

  /** Two empty queues mean an open barrier: the counter test never blocks by itself. */
  lemma BarrierIsRedundant(steps: seq<Step>, states: seq<State>, k: nat)
    requires Execution(steps, states) && Initial(states[0]) && k < |states| && !states[k].done
    ensures states[k].controls.pendingStops >= 0
    ensures Idle(states[k].queues) ==> states[k].controls.pendingStops == 0 && states[k].controls.held.None?
  {
    RunKeeps(steps, states, k);
  }

  // ---------- A held terminal event is never stranded ----------

  function Outstanding(s: State): nat { 2 * |s.queues.admissions| + |s.queues.results| }

  predicate DrainStep(step: Step) { step.Complete? || step.AdmitFront? }

  /** Still waiting to write this event, or already ended by it. */
  ghost predicate Draining(s: State, event: RunEvent) {
    && Good(s)
    && (!s.done ==> s.controls.held == Some(event))
    && (s.done ==> s.wire.Then? && s.wire.frame == EventFrame(event))
  }

  lemma DrainAdvances(s: State, event: RunEvent, step: Step)
    requires Draining(s, event) && Enabled(s, step) && DrainStep(step)
    ensures Draining(Apply(s, step), event) && Outstanding(Apply(s, step)) < Outstanding(s)
  {
    StepKeeps(s, step);
  }

  /** Draining delivers: finishing what is outstanding, in any order, takes at most
      two steps per admission and one per result, and while the terminal event is
      not written there is always such a step to take. */
  lemma {:induction false} DrainDelivers(steps: seq<Step>, states: seq<State>, event: RunEvent, k: nat)
    requires Execution(steps, states) && Draining(states[0], event) && k < |states|
    requires forall i :: 0 <= i < |steps| ==> DrainStep(steps[i])
    ensures Draining(states[k], event)
    ensures k + Outstanding(states[k]) <= Outstanding(states[0])
    ensures !states[k].done ==> Enabled(states[k], AdmitFront) || Enabled(states[k], Complete(0, 0))
  {
    if k > 0 {
      DrainDelivers(steps, states, event, k - 1);
      DrainAdvances(states[k - 1], event, steps[k - 1]);
    }
  }

  // ---------- Nothing is shown twice ----------

  /** The furthest byte shown or covered by a gap so far. */
  function Shown(base: nat, wire: Wire): nat {
    match wire
    case Nothing => base
    case Then(before, Gap(head, _)) => Max(Shown(base, before), head)
    case Then(before, EventFrame(Output(endByte))) => Max(Shown(base, before), endByte)
    case Then(before, _) => Shown(base, before)
  }

  function Revision(base: nat, wire: Wire): nat {
    match wire
    case Nothing => base
    case Then(before, EventFrame(ServiceChanged(revision))) => Max(Revision(base, before), revision)
    case Then(before, _) => Revision(base, before)
  }

  function Geometry(base: nat, wire: Wire): nat {
    match wire
    case Nothing => base
    case Then(before, EventFrame(Resized(revision))) => Max(Geometry(base, before), revision)
    case Then(before, _) => Geometry(base, before)
  }

  /** Every output ends past everything shown before it; service and geometry
      revisions strictly rise. */
  predicate Fresh(first: View, wire: Wire) {
    match wire
    case Nothing => true
    case Then(before, frame) =>
      && Fresh(first, before)
      && (frame.EventFrame? && frame.event.Output? ==> frame.event.endByte > Shown(first.through, before))
      && (frame.EventFrame? && frame.event.ServiceChanged? ==> frame.event.revision > Revision(first.service, before))
      && (frame.EventFrame? && frame.event.Resized? ==> frame.event.revision > Geometry(first.resize, before))
  }

  predicate SentExactly(first: View, view: View, wire: Wire) {
    && Fresh(first, wire)
    && view.through == Shown(first.through, wire)
    && view.service == Revision(first.service, wire)
    && view.resize == Geometry(first.resize, wire)
  }

  /** Results, acknowledgements, errors, discontinuities and the terminal event show no output. */
  predicate Plain(frame: Frame) {
    !frame.Gap? && !(frame.EventFrame? && (frame.event.Output? || frame.event.ServiceChanged? || frame.event.Resized?))
  }

  lemma PlainShows(first: View, view: View, wire: Wire, frame: Frame)
    requires SentExactly(first, view, wire) && Plain(frame)
    ensures SentExactly(first, view, Then(wire, frame))
  {
  }

  lemma {:induction false} CancelShowsNothing(first: View, s: State)
    requires SentExactly(first, s.view, s.wire)
    ensures SentExactly(first, CancelOn(s).view, CancelOn(s).wire)
    decreases |s.queues.admissions|
  {
    if s.queues.admissions != [] {
      var c := s.queues.admissions[0];
      PlainShows(first, s.view, s.wire, ResultOf(c, Untouched(c)));
      CancelShowsNothing(first, CancelOne(s));
    }
  }

  lemma ShowShows(first: View, s: State, event: RunEvent)
    requires SentExactly(first, s.view, s.wire)
    ensures SentExactly(first, ShowOn(s, event).view, ShowOn(s, event).wire)
  {
    if Plain(EventFrame(event)) { PlainShows(first, s.view, s.wire, EventFrame(event)); }
  }

  lemma GapShows(first: View, s: State, retained: Cursor, info: RunInfo)
    requires SentExactly(first, s.view, s.wire)
    ensures SentExactly(first, GapOn(s, retained, info).view, GapOn(s, retained, info).wire)
  {
  }

  lemma ServiceShows(first: View, s: State, retained: Cursor, info: RunInfo)
    requires SentExactly(first, s.view, s.wire)
    ensures SentExactly(first, CatchUpServiceOn(s, retained, info).view, CatchUpServiceOn(s, retained, info).wire)
  {
  }

  lemma DeliverShows(first: View, s: State, envelope: Envelope)
    requires SentExactly(first, s.view, s.wire)
    ensures SentExactly(first, DeliverOn(s, envelope).view, DeliverOn(s, envelope).wire)
  {
    if envelope.published.Live? {
      ShowShows(first, s.(view := s.view.(cursor := envelope.after)), envelope.published.event);
    }
  }

  lemma RecoverShows(first: View, s: State, retained: Cursor, info: RunInfo)
    requires SentExactly(first, s.view, s.wire)
    ensures SentExactly(first, RecoverOn(s, retained, info).view, RecoverOn(s, retained, info).wire)
  {
    GapShows(first, s, retained, info);
    ServiceShows(first, GapOn(s, retained, info), retained, info);
    PlainShows(first, s.view, s.wire, ObservationDiscontinuity);
  }

  /** What a recovery makes up for: a lost observation is announced as such; otherwise
      everything the receiver skipped is behind one gap that reaches it and names every
      cause, and a missed service revision is shown unless a newer one was. */
  lemma RecoveryCovers(s: State, retained: Cursor, info: RunInfo)
    ensures var t, delivered := RecoverOn(s, retained, info), s.view.cursor;
            if LostObservation(delivered, retained) then t.wire == Then(s.wire, ObservationDiscontinuity)
            else
              && t.view.through >= retained.output
              && (retained.discontinuity > delivered.discontinuity ==> t.view.through >= retained.discontinuityByte)
              && (LostOutput(s.view, delivered, retained) ==>
                    GapsTo(s.wire, t.wire, Max(retained.output, info.latest),
                           LagCauses(s.view, retained)))
              && (!LostOutput(s.view, delivered, retained) ==> t.view.through == s.view.through)
              && (retained.service > delivered.service && info.service.Some? ==> t.view.service >= info.service.value)
  {
    var u := GapOn(s, retained, info);
    if LostOutput(s.view, s.view.cursor, retained) {
      assert GapsTo(s.wire, u.wire, Max(retained.output, info.latest), LagCauses(s.view, retained));
    }
  }

  /** The next frame after `before` is a gap at least this far, with these causes. */
  predicate GapsTo(before: Wire, wire: Wire, head: nat, causes: set<Cause>) {
    && wire.Then?
    && ((wire.before == before && wire.frame.Gap? && wire.frame.head >= head && wire.frame.causes == causes)
        || GapsTo(before, wire.before, head, causes))
  }

  /** The lag itself is always named, and so is every shared cause recorded since the
      receiver's cursor, and no other: a geometry lag exactly if a resize was missed. */
  lemma LagCausesExact(view: View, retained: Cursor, cause: Cause)
    ensures cause in LagCauses(view, retained) <==>
            match cause {
              case SubscriberLag => true
              case GeometryLag => retained.resize > view.resize
              case LiveEventPressure => retained.causes.pressure > view.cursor.causes.pressure
              case SourceDiscontinuity => retained.causes.source > view.cursor.causes.source
              case UnknownCause => retained.causes.unknown > view.cursor.causes.unknown
            }
  {
  }

  lemma ReceivedShows(first: View, s: State, envelope: Envelope, info: RunInfo)
    requires SentExactly(first, s.view, s.wire)
    ensures var t := ReceivedOn(s, envelope, info); SentExactly(first, t.view, t.wire)
  {
    if !s.view.lagged && !envelope.published.SnapshotNeeded? {
      DeliverShows(first, s, envelope);
    } else {
      var before := s.(view := s.view.(lagged := false));
      RecoverShows(first, before, RetainedAt(envelope), info);
      var t := RecoverOn(before, RetainedAt(envelope), info);
      match RecoveryOf(s.view.cursor, RetainedAt(envelope), info)
      case Continue => DeliverShows(first, t, envelope);
      case Close => CancelShowsNothing(first, t.(closed := true));
      case Terminal(event) => PlainShows(first, t.view, t.wire, EventFrame(event));
    }
  }

  lemma StepShows(first: View, s: State, step: Step)
    requires SentExactly(first, s.view, s.wire) && Enabled(s, step)
    requires s.controls.held.Some? ==> s.controls.held.value.Ended?
    ensures SentExactly(first, Apply(s, step).view, Apply(s, step).wire)
  {
    if step.Received? { ReceivedShows(first, s, step.envelope, step.info); }
  }

  /** No output is shown twice and none after a gap that covers it, whatever lags
      and recoveries happen. */
  lemma {:induction false} NothingShownTwice(steps: seq<Step>, states: seq<State>, k: nat)
    requires Execution(steps, states) && Initial(states[0]) && k < |states|
    ensures SentExactly(states[0].view, states[k].view, states[k].wire)
  {
    if k > 0 {
      NothingShownTwice(steps, states, k - 1);
      RunKeeps(steps, states, k - 1);
      StepShows(states[0].view, states[k - 1], steps[k - 1]);
    }
  }

  // ---------- The loop's branches in the source's own form ----------

  /** A finished command: report it, then release a held terminal event. */
  method CompleteResult(s: State, k: nat, outcome: nat) returns (t: State)
    requires k < |s.queues.results|
    ensures t == CompleteOn(s, k, outcome)
  {
    var completed := s.queues.results[k];
    t := s.(queues := s.queues.(results := s.queues.results[..k] + s.queues.results[k + 1..]));
    t := Write(t, ResultOf(completed, Settled(outcome)));
    if completed.isStop {
      t := t.(controls := t.controls.(pendingStops := t.controls.pendingStops - 1));
    }
    if t.controls.pendingStops == 0 && t.queues.admissions == [] && t.queues.results == [] && t.controls.held.Some? {
      t := Write(t, EventFrame(t.controls.held.value));
      t := t.(controls := t.controls.(held := None), done := true);
    }
  }

  method HandleFrame(s: State, frame: ClientFrame, fate: Fate) returns (t: State)
    ensures t == IncomingOn(s, frame, fate)
  {
    t := s;
    match frame {
      case Eof => t := t.(done := true);
      case Detach => t := Write(t, DetachAck).(done := true);
      case Misplaced => t := Write(t, ErrorFrame);
      case CommandFrame(command) =>
        var ok, last := CommandRuns.ObserveCommandId(s.controls.lastId, command.id);
        if !ok {
          t := Write(t, ErrorFrame).(done := true);
        } else if !s.closed && fate.Sealed? {
          t := t.(done := true);
        } else {
          t := t.(controls := t.controls.(lastId := last), queues := t.queues.(seen := t.queues.seen + [command]));
          if s.closed || fate.NoMemory? {
            t := Write(t, ResultOf(command, if command.isStop then Unknown else NotApplied));
          } else if fate.RetryLater? {
            t := Write(t, ResultOf(command, NotApplied));
          } else if fate.InvalidStop? {
            t := Write(t, ResultOf(command, Invalid));
          } else {
            t := PushAdmission(t, command);
          }
        }
    }
  }

  method PushAdmission(s: State, command: Command) returns (t: State)
    ensures t == s.(queues := s.queues.(admissions := s.queues.admissions + [command]),
                    controls := s.controls.(pendingStops := s.controls.pendingStops + StopOf(command)))
  {
    t := s.(queues := s.queues.(admissions := s.queues.admissions + [command]));
    if command.isStop {
      t := t.(controls := t.controls.(pendingStops := t.controls.pendingStops + 1));
    }
  }

  /** Refuse every queued admission without polling it. */
  method CancelUnadmitted(s: State) returns (t: State)
    ensures t == CancelOn(s)
  {
    t := s;
    while t.queues.admissions != []
      invariant CancelOn(t) == CancelOn(s)
      decreases |t.queues.admissions|
    {
      var admission := t.queues.admissions[0];
      t := t.(queues := t.queues.(admissions := t.queues.admissions[1..]));
      t := Write(t, ResultOf(admission, if admission.isStop then Unknown else NotApplied));
      if admission.isStop {
        t := t.(controls := t.controls.(pendingStops := t.controls.pendingStops - 1));
      }
    }
  }

  method RecoverLaggedDelivery(s: State, retained: Cursor, info: RunInfo) returns (t: State, recovery: Recovery)
    ensures t == RecoverOn(s, retained, info)
    ensures recovery == RecoveryOf(s.view.cursor, retained, info)
  {
    t := s;
    var delivered := s.view.cursor;
    var lostObservation := retained.observation > delivered.observation;
    var lostMarker := retained.discontinuity > delivered.discontinuity;
    var lostResize := retained.resize > s.view.resize;
    if lostObservation {
      t := Write(t, ObservationDiscontinuity);
    }
    if !lostObservation && (lostMarker || retained.output > s.view.through || lostResize) {
      var marker := if lostMarker then retained.discontinuityByte else 0;
      var latest := Max(Max(retained.output, marker), info.latest);
      var causes := {SubscriberLag} + (if lostResize then {GeometryLag} else {}) + Since(retained.causes, delivered.causes);
      t := Write(t.(view := t.view.(through := Max(t.view.through, latest))), Gap(latest, causes));
    }
    if lostObservation && info.running {
      return t, Close;
    }
    if !lostObservation && retained.service > delivered.service && info.service.Some? && info.service.value > t.view.service {
      t := Write(t.(view := t.view.(service := info.service.value)), EventFrame(ServiceChanged(info.service.value)));
    }
    if (lostObservation || retained.terminal > delivered.terminal) && !info.running {
      return t, Terminal(Ended(info.ended));
    }
    recovery := Continue;
  }

  method Deliver(s: State, envelope: Envelope) returns (t: State)
    ensures t == DeliverOn(s, envelope)
  {
    t := s.(view := s.view.(cursor := envelope.after));
    if !envelope.published.Live? {
      return;
    }
    var event := envelope.published.event;
    match event {
      case Output(endByte) =>
        if endByte > t.view.through {
          t := Write(t.(view := t.view.(through := endByte)), EventFrame(event));
        }
      case Resized(revision) =>
        if revision > t.view.resize {
          t := Write(t.(view := t.view.(resize := revision)), EventFrame(event));
        }
      case ServiceChanged(revision) =>
        if revision > t.view.service {
          t := Write(t.(view := t.view.(service := revision)), EventFrame(event));
        }
      case Ended(_) => t := DeliverTerminal(t, event);
      case Other(_) => t := Write(t, EventFrame(event));
    }
  }

  method DeliverTerminal(s: State, event: RunEvent) returns (t: State)
    ensures t == TerminalOn(s, event)
  {
    if s.controls.pendingStops == 0 && s.queues.admissions == [] && s.queues.results == [] {
      t := Write(s, EventFrame(event)).(done := true);
    } else {
      t := s.(controls := s.controls.(held := Some(event)));
    }
  }

  method HandleEnvelope(s: State, envelope: Envelope, info: RunInfo) returns (t: State)
    ensures t == ReceivedOn(s, envelope, info)
  {
    t := s;
    var needed := envelope.published.SnapshotNeeded?;
    if s.view.lagged || needed {
      var recovery;
      t := t.(view := t.view.(lagged := false));
      t, recovery := RecoverLaggedDelivery(t, if needed then envelope.after else envelope.before, info);
      match recovery {
        case Continue => t := Deliver(t, envelope);
        case Close => t := CancelUnadmitted(t.(closed := true));
        case Terminal(event) => t := DeliverTerminal(t, event);
      }
    } else {
      t := Deliver(t, envelope);
    }
  }

  /** One attachment's variables, and one iteration of its loop per call. */
  class AttachmentLoop {
    var state: State

    ghost predicate Valid()
      reads this
    {
      Good(state)
    }

    constructor (cursor: Cursor, through: nat, service: nat, resize: nat)
      ensures Valid() && Initial(state) && state.view == View(false, cursor, through, service, resize)
    {
      state := State(Queues([], [], [], []), Controls(None, 0, None), View(false, cursor, through, service, resize), false, false, Nothing);
    }

    method Iterate(step: Step)
      requires Valid() && Enabled(state, step)
      modifies this
      ensures Valid() && state == Apply(old(state), step)
    {
      StepKeeps(state, step);
      match step {
        case Complete(k, outcome) => state := CompleteResult(state, k, outcome);
        case AdmitFront =>
          var admitted := state.queues.admissions[0];
          state := state.(queues := state.queues.(admissions := state.queues.admissions[1..], entered := state.queues.entered + [admitted]));
          state := state.(queues := state.queues.(results := state.queues.results + [admitted]));
        case Incoming(frame, fate) => state := HandleFrame(state, frame, fate);
        case Received(envelope, info) => state := HandleEnvelope(state, envelope, info);
        case Lag => state := state.(view := state.view.(lagged := true));
        case SourceClosed => state := state.(done := true);
        case Finish => state := state.(done := true);
      }
    }
  }
}
