/** The bounded client event inbox (crates/ctxmux-client/src/attachment.rs:641-1033).

  `push` runs on the reader task and `next` on the consumer; each is one lock
  section.  The inbox may coalesce input progress, turn output it cannot hold into
  a gap, or give up the view, but it never loses anything silently.
 */
module EventInboxes {
  import opened Wrappers

  datatype Cause = LiveEventPressure | SubscriberLag | SourceDiscontinuity | TerminalCatchup | GeometryLag | ClientViewPressure | Unknown

  /** The fields of a service snapshot that decide whether it only advances the
      confirmed prefix of the command its predecessor was about. */
  datatype Service = Service(
    revision: nat, owner: nat, output: nat, terminalFault: nat, phase: nat,
    unsettledCommands: nat, unsettledRequestBytes: nat, writeBlocked: bool,
    completedInputBytes: nat, currentSize: nat, confirmedBytes: nat)

  /** Lengths and spare capacities stand for the payload allocations. */
  datatype RunEvent =
    | Output(endByte: nat, len: nat, spare: nat)
    | Gap(head: nat, causes: set<Cause>)
    | Exited(signalCapacity: nat)
    | Interrupted(reason: nat)
    | ServiceChanged(service: Service)
    | Renamed(len: nat, spare: nat)
    | OtherTmux(id: nat)
    | ObservationDiscontinuity
    | Resized(revision: nat)

  predicate IsTerminal(e: RunEvent) { e.Exited? || e.Interrupted? }

  function EventBytes(e: RunEvent): nat {
    match e
    case Output(_, len, _) => len
    case Renamed(len, _) => len
    case _ => 0
  }

  function EnvelopeBytes(e: RunEvent): nat {
    match e
    case Output(_, _, spare) => spare
    case Renamed(_, spare) => spare
    case Exited(signalCapacity) => signalCapacity
    case _ => 0
  }

  /** A later snapshot that may replace an earlier one of the same pending command. */
  predicate Advances(previous: Service, next: Service) {
    && next.revision > previous.revision
    && next.owner == previous.owner
    && next.output == previous.output
    && next.terminalFault == previous.terminalFault
    && next.phase == previous.phase
    && next.unsettledCommands != 0
    && next.unsettledCommands == previous.unsettledCommands
    && next.unsettledRequestBytes == previous.unsettledRequestBytes
    && next.writeBlocked == previous.writeBlocked
    && next.completedInputBytes == previous.completedInputBytes
    && next.currentSize == previous.currentSize
    && next.confirmedBytes > previous.confirmedBytes
  }

  datatype Local = Available | LostMarkerPending | LostMarkerDelivered

  datatype Error = ObservationUnavailable | Transport(code: nat)

  datatype State = State(
    queue: seq<RunEvent>,
    capacity: nat,
    queuedBytes: nat,
    envelopePayload: nat,
    pendingGap: Option<RunEvent>,
    local: Local,
    terminal: Option<RunEvent>,
    sawTerminal: bool,
    sawDiscontinuity: bool,
    closed: bool,
    error: Option<Error>)

  // ---------- The account of the whole stream ----------

  /** How a stretch of pushed events is shown to the consumer: as itself, as the
      newest of advancing snapshots, as one gap, or as the final discontinuity. */
  datatype Item =
    | Kept(event: RunEvent)
    | Merged(older: Item, event: RunEvent)
    | Gapped(event: RunEvent)
    | Widened(older: Item, event: RunEvent)
    | Lost(event: RunEvent)
    | LostToo(older: Item, event: RunEvent)

  /** The pushed events behind an item, oldest first. */
  function Sources(item: Item): seq<RunEvent> {
    match item
    case Kept(event) => [event]
    case Gapped(event) => [event]
    case Lost(event) => [event]
    case Merged(older, event) => Sources(older) + [event]
    case Widened(older, event) => Sources(older) + [event]
    case LostToo(older, event) => Sources(older) + [event]
  }

  function LostHead(event: RunEvent): nat {
    if event.Output? then event.endByte else if event.Gap? then event.head else 0
  }

  function LostCauses(event: RunEvent): set<Cause> {
    if event.Gap? then event.causes else {ClientViewPressure}
  }

  function Widen(gap: RunEvent, head: nat, causes: set<Cause>): RunEvent {
    if gap.Gap? then Gap(Max(gap.head, head), gap.causes + causes) else Gap(head, causes)
  }

  /** The one event the consumer gets for an item. */
  function Shown(item: Item): RunEvent {
    match item
    case Kept(event) => event
    case Merged(_, event) => event
    case Gapped(event) => Gap(LostHead(event), LostCauses(event))
    case Widened(older, event) => Widen(Shown(older), LostHead(event), LostCauses(event))
    case Lost(_) => ObservationDiscontinuity
    case LostToo(_, _) => ObservationDiscontinuity
  }

  predicate IsLoss(item: Item) { item.Lost? || item.LostToo? }

  predicate ItemOk(item: Item) {
    match item
    case Kept(event) => !event.Gap?
    case Merged(older, event) =>
      && ItemOk(older) && (older.Kept? || older.Merged?)
      && event.ServiceChanged? && older.event.ServiceChanged? && Advances(older.event.service, event.service)
    case Gapped(event) => event.Output? || event.Gap?
    case Widened(older, event) => ItemOk(older) && (older.Gapped? || older.Widened?) && (event.Output? || event.Gap?)
    case Lost(_) => true
    case LostToo(older, _) => ItemOk(older) && IsLoss(older)
  }

  /** The items so far, newest last. */
  datatype Account = Begin | Add(before: Account, item: Item)

  function PushedBy(a: Account): seq<RunEvent> {
    match a
    case Begin => []
    case Add(before, item) => PushedBy(before) + Sources(item)
  }

  function StreamOf(a: Account): seq<RunEvent> {
    match a
    case Begin => []
    case Add(before, item) => StreamOf(before) + [Shown(item)]
  }

  predicate EndsLost(a: Account) { a.Add? && IsLoss(a.item) }

  /** Every item is sound and only the last one may be a loss. */
  predicate Sound(a: Account) {
    match a
    case Begin => true
    case Add(before, item) => Sound(before) && !EndsLost(before) && ItemOk(item)
  }

  /** The consumer's stream explains everything pushed, in order. */
  ghost predicate Explains(a: Account, pushed: seq<RunEvent>, stream: seq<RunEvent>) {
    Sound(a) && PushedBy(a) == pushed && StreamOf(a) == stream
  }

  // ---------- What the account guarantees ----------

  /** What may stand for event e in place of itself. */
  predicate StandsFor(shown: RunEvent, e: RunEvent) {
    || shown == e
    || (e.Output? && shown.Gap? && shown.head >= e.endByte && ClientViewPressure in shown.causes)
    || (e.Gap? && shown.Gap? && shown.head >= e.head && shown.causes >= e.causes)
    || (e.ServiceChanged? && shown.ServiceChanged? && Advances(e.service, shown.service))
  }

  lemma {:induction false} ItemStandsFor(item: Item, k: nat)
    requires ItemOk(item) && k < |Sources(item)|
    ensures StandsFor(Shown(item), Sources(item)[k]) || IsLoss(item)
  {
    if (item.Merged? || item.Widened?) && k < |Sources(item.older)| {
      ItemStandsFor(item.older, k);
    }
  }

  /** Nothing is lost silently: an output is shown, or covered by a gap that reaches
      at least its end byte and names the client's own pressure; a gap by a gap that
      reaches as far with all its causes; a snapshot by a strictly newer one of the
      same command; anything else is shown itself, unless the view ended there. */
  lemma {:induction false} NothingSilentlyLost(a: Account, pushed: seq<RunEvent>, stream: seq<RunEvent>, k: nat)
    requires Explains(a, pushed, stream) && k < |pushed|
    ensures PlaceOf(a, k) < |stream|
    ensures || StandsFor(stream[PlaceOf(a, k)], pushed[k])
            || (EndsLost(a) && PlaceOf(a, k) == |stream| - 1 && stream[PlaceOf(a, k)].ObservationDiscontinuity?)
  {
    var before := |PushedBy(a.before)|;
    if k < before {
      NothingSilentlyLost(a.before, PushedBy(a.before), StreamOf(a.before), k);
      assert stream[PlaceOf(a, k)] == StreamOf(a.before)[PlaceOf(a, k)];
    } else {
      ItemStandsFor(a.item, k - before);
      assert pushed[k] == Sources(a.item)[k - before];
    }
  }

  /** The place in the stream that accounts for the k-th pushed event. */
  function PlaceOf(a: Account, k: nat): nat
    requires k < |PushedBy(a)|
  {
    if k < |PushedBy(a.before)| then PlaceOf(a.before, k) else |StreamOf(a.before)|
  }

  /** Nothing overtakes: later events are accounted for at later places or the same. */
  lemma {:induction false} OrderKept(a: Account, j: nat, k: nat)
    requires j <= k < |PushedBy(a)|
    ensures PlaceOf(a, j) <= PlaceOf(a, k) < |StreamOf(a)|
  {
    if k < |PushedBy(a.before)| {
      OrderKept(a.before, j, k);
    } else if j < |PushedBy(a.before)| {
      OrderKept(a.before, j, j);
    }
  }

  /** Two events share a place only inside one gap, one chain of snapshots, or the
      final loss: nothing else is ever coalesced. */
  lemma {:induction false} SharedPlaces(a: Account, j: nat, k: nat)
    requires Sound(a) && j < k < |PushedBy(a)| && PlaceOf(a, j) == PlaceOf(a, k)
    ensures PlaceOf(a, k) < |StreamOf(a)|
    ensures var shown := StreamOf(a)[PlaceOf(a, k)]; (shown.Gap? || shown.ServiceChanged? || shown.ObservationDiscontinuity?)
  {
    OrderKept(a, j, k);
    if k < |PushedBy(a.before)| {
      SharedPlaces(a.before, j, k);
      OrderKept(a.before, j, k);
    } else if j < |PushedBy(a.before)| {
      OrderKept(a.before, j, j);
    } else if a.item.Widened? {
      WidenedIsGap(a.item);
    }
  }

  lemma WidenedIsGap(item: Item)
    requires item.Widened?
    ensures Shown(item).Gap?
  {
  }

  // ---------- The verdict on one accepted event ----------

  /** Keep as its own item, merge into the last snapshot, start or widen a gap, give
      up the view, or fall into the loss that already ended it. */
  datatype Verdict = Keep | Merge | StartGap | WidenGap | Lose | Swallow

  function Absorb(a: Account, event: RunEvent, verdict: Verdict): Account {
    match verdict
    case Keep => Add(a, Kept(event))
    case StartGap => Add(a, Gapped(event))
    case Lose => Add(a, Lost(event))
    case Merge => if a.Add? then Add(a.before, Merged(a.item, event)) else a
    case WidenGap => if a.Add? then Add(a.before, Widened(a.item, event)) else a
    case Swallow => if a.Add? then Add(a.before, LostToo(a.item, event)) else a
  }

  /** Every verdict puts the event at the end of what was pushed. */
  lemma AbsorbPushes(a: Account, event: RunEvent, verdict: Verdict)
    requires verdict.Merge? || verdict.WidenGap? || verdict.Swallow? ==> a.Add?
    ensures PushedBy(Absorb(a, event, verdict)) == PushedBy(a) + [event]
  {
    if verdict.Merge? || verdict.WidenGap? || verdict.Swallow? {
      assert PushedBy(a.before) + (Sources(a.item) + [event]) == PushedBy(a) + [event];
    }
  }

  /** The newest item is what stands last in the stream. */
  lemma LastShown(a: Account, front: seq<RunEvent>, last: RunEvent)
    requires StreamOf(a) == front + [last]
    ensures a.Add? && Shown(a.item) == last && StreamOf(a.before) == front
  {
    assert a.Add?;
    assert StreamOf(a)[|StreamOf(a.before)|] == Shown(a.item);
    assert StreamOf(a)[..|StreamOf(a.before)|] == StreamOf(a.before);
  }

  /** Byte limits of one view: payload window, envelope window, and the sizes of the
      inbox itself and of one queue slot. */
  datatype Limits = Limits(payload: nat, envelope: nat, inboxBytes: nat, slotBytes: nat)

  function Max(a: nat, b: nat): nat { if a < b then b else a }

  function Min(a: nat, b: nat): nat { if a < b then a else b }

  function Less(a: nat, b: nat): nat { if b <= a then a - b else 0 }

  /** Bytes behind `capacity` queue slots. */
  function Backing(capacity: nat, slotBytes: nat): nat {
    if capacity == 0 then 0 else Backing(capacity - 1, slotBytes) + slotBytes
  }

  lemma {:induction false} BackingIsProduct(capacity: nat, slotBytes: nat)
    ensures Backing(capacity, slotBytes) == capacity * slotBytes
  {
    if capacity > 0 { BackingIsProduct(capacity - 1, slotBytes); }
  }

  lemma {:induction false} BackingGrows(a: nat, b: nat, slotBytes: nat)
    requires a <= b
    ensures Backing(a, slotBytes) <= Backing(b, slotBytes)
  {
    if a < b { BackingGrows(a, b - 1, slotBytes); }
  }

  function GapSlots(s: State): nat { if s.pendingGap.Some? then 1 else 0 }

  /** The queue can hold `slots` more events next to `payload` more envelope bytes. */
  predicate Room(s: State, limits: Limits, slots: nat, payload: nat, allocOk: bool) {
    && limits.inboxBytes + Backing(Max(s.capacity, |s.queue| + slots), limits.slotBytes) + s.envelopePayload + payload <= limits.envelope
    && (|s.queue| + slots <= s.capacity || allocOk)
  }

  predicate Fits(s: State, limits: Limits, event: RunEvent, allocOk: bool) {
    && s.queuedBytes + EventBytes(event) <= limits.payload
    && Room(s, limits, 1 + GapSlots(s), EnvelopeBytes(event), allocOk)
  }

  /** The terminal event needs no queue slot, only its text. */
  predicate TerminalFunded(s: State, limits: Limits, event: RunEvent) {
    limits.inboxBytes + Backing(s.capacity, limits.slotBytes) + s.envelopePayload + EnvelopeBytes(event) <= limits.envelope
  }

  predicate MergesInto(s: State, event: RunEvent) {
    && s.pendingGap.None? && event.ServiceChanged?
    && s.queue != [] && s.queue[|s.queue| - 1].ServiceChanged?
    && Advances(s.queue[|s.queue| - 1].service, event.service)
  }

  predicate Rejected(s: State, event: RunEvent) {
    || (s.closed && s.local.Available?)
    || s.sawTerminal
    || (s.sawDiscontinuity && !IsTerminal(event))
  }

  function Opt(event: Option<RunEvent>): seq<RunEvent> {
    if event.Some? then [event.value] else []
  }

  /** What the consumer will still be shown, in order. */
  function Pending(s: State): seq<RunEvent> {
    s.queue + Opt(s.pendingGap) + (if s.local.LostMarkerPending? then [ObservationDiscontinuity] else []) + Opt(s.terminal)
  }

  function SumBytes(queue: seq<RunEvent>): nat {
    if queue == [] then 0 else EventBytes(queue[0]) + SumBytes(queue[1..])
  }

  function SumEnvelope(queue: seq<RunEvent>): nat {
    if queue == [] then 0 else EnvelopeBytes(queue[0]) + SumEnvelope(queue[1..])
  }

  lemma {:induction false} SumsAppend(queue: seq<RunEvent>, event: RunEvent)
    ensures SumBytes(queue + [event]) == SumBytes(queue) + EventBytes(event)
    ensures SumEnvelope(queue + [event]) == SumEnvelope(queue) + EnvelopeBytes(event)
  {
    if queue == [] {
      assert queue + [event] == [event];
    } else {
      SumsAppend(queue[1..], event);
      assert (queue + [event])[1..] == queue[1..] + [event];
    }
  }

  /** Both byte windows hold, with counters that are exactly the sums. */
  ghost predicate Funded(s: State, limits: Limits) {
    && |s.queue| <= s.capacity
    && s.queuedBytes == SumBytes(s.queue) <= limits.payload
    && s.envelopePayload == SumEnvelope(s.queue) + (if s.terminal.Some? then EnvelopeBytes(s.terminal.value) else 0)
    && limits.inboxBytes + Backing(s.capacity, limits.slotBytes) + s.envelopePayload <= limits.envelope
  }

  ghost predicate Shape(s: State) {
    && (s.pendingGap.Some? ==> s.pendingGap.value.Gap?)
    && (s.terminal.Some? ==> s.sawTerminal && s.local.Available? && EventBytes(s.terminal.value) == 0)
    && (!s.local.Available? ==> s.closed && s.terminal.None?)
  }

  /** Delivered and pending events together are the stream of the account. */
  ghost predicate Accounted(s: State, account: Account, delivered: seq<RunEvent>) {
    && Sound(account)
    && StreamOf(account) == delivered + Pending(s)
    && (EndsLost(account) <==> !s.local.Available?)
  }

  /** The stream stages this event closes. */
  function Seen(s: State, event: RunEvent): State {
    s.(sawTerminal := s.sawTerminal || IsTerminal(event),
       sawDiscontinuity := s.sawDiscontinuity || event.ObservationDiscontinuity?)
  }

  // ---------- The verdict on an event ----------

  function GapVerdict(s: State): Verdict { if s.pendingGap.Some? then WidenGap else StartGap }

  function OrdinaryVerdict(s: State, limits: Limits, event: RunEvent, allocOk: bool): Verdict {
    if Fits(s, limits, event, allocOk) then Keep else if event.Output? then GapVerdict(s) else Lose
  }

  function TerminalVerdict(s: State, limits: Limits, event: RunEvent): Verdict {
    if TerminalFunded(s, limits, event) then Keep else Lose
  }

  function VerdictOn(s: State, limits: Limits, event: RunEvent, allocOk: bool): Verdict {
    if !s.local.Available? then Swallow
    else if MergesInto(s, event) then Merge
    else if event.Gap? then GapVerdict(s)
    else if IsTerminal(event) then TerminalVerdict(Seen(s, event), limits, event)
    else OrdinaryVerdict(Seen(s, event), limits, event, allocOk)
  }

  // ---------- What each branch of push leaves ----------

  /** The capacity after room for more slots was made: doubled where that still fits. */
  function Grown(s: State, limits: Limits, slots: nat, payload: nat): nat
    requires limits.slotBytes > 0
  {
    var required := |s.queue| + slots;
    var maximum := Less(limits.envelope, limits.inboxBytes + s.envelopePayload + payload) / limits.slotBytes;
    if required <= s.capacity then s.capacity else Min(Max(2 * s.capacity, required), maximum)
  }

  function GrowOn(s: State, limits: Limits, slots: nat, payload: nat): State
    requires limits.slotBytes > 0
  {
    s.(capacity := Grown(s, limits, slots, payload))
  }

  function MergeOn(s: State, event: RunEvent): State
    requires s.queue != []
  {
    s.(queue := s.queue[|s.queue| - 1 := event])
  }

  function GapOn(s: State, event: RunEvent): State {
    s.(pendingGap := Some(if s.pendingGap.Some? then Widen(s.pendingGap.value, LostHead(event), LostCauses(event))
                          else Gap(LostHead(event), LostCauses(event))))
  }

  function LoseOn(s: State): State {
    s.(local := LostMarkerPending, closed := true, error := Some(ObservationUnavailable))
  }

  function QueueOn(s: State, event: RunEvent): State {
    s.(queue := s.queue + Opt(s.pendingGap) + [event], pendingGap := None,
       queuedBytes := s.queuedBytes + EventBytes(event), envelopePayload := s.envelopePayload + EnvelopeBytes(event))
  }

  function AsideOn(s: State, event: RunEvent): State {
    s.(envelopePayload := s.envelopePayload + EnvelopeBytes(event), terminal := Some(event))
  }

  function OrdinaryOn(s: State, limits: Limits, event: RunEvent, allocOk: bool): State
    requires limits.slotBytes > 0
  {
    if Fits(s, limits, event, allocOk) then QueueOn(GrowOn(s, limits, 1 + GapSlots(s), EnvelopeBytes(event)), event)
    else if event.Output? then GapOn(s, event)
    else LoseOn(s)
  }

  function TerminalOn(s: State, limits: Limits, event: RunEvent, allocOk: bool): State
    requires limits.slotBytes > 0
  {
    if s.pendingGap.None? && Room(s, limits, 1, EnvelopeBytes(event), allocOk) then
      QueueOn(GrowOn(s, limits, 1, EnvelopeBytes(event)), event)
    else if TerminalFunded(s, limits, event) then AsideOn(s, event)
    else LoseOn(s)
  }

  /** The state after an event that push does not reject. */
  function PushOn(s: State, limits: Limits, event: RunEvent, allocOk: bool): State
    requires limits.slotBytes > 0
  {
    if !s.local.Available? then Seen(s, event)
    else if MergesInto(s, event) then MergeOn(s, event)
    else if event.Gap? then GapOn(s, event)
    else if IsTerminal(event) then TerminalOn(Seen(s, event), limits, event, allocOk)
    else OrdinaryOn(Seen(s, event), limits, event, allocOk)
  }

  /** Ensure backing for more events, growing by doubling where that still fits. */
  method ReserveSlots(s: State, limits: Limits, additional: nat, payload: nat, allocOk: bool) returns (t: State, ok: bool)
    requires limits.slotBytes > 0 && |s.queue| <= s.capacity
    ensures ok == Room(s, limits, additional, payload, allocOk)
    ensures t == if ok then GrowOn(s, limits, additional, payload) else s
    ensures ok ==> |s.queue| + additional <= t.capacity && s.capacity <= t.capacity && Room(t, limits, additional, payload, allocOk)
  {
    t := s;
    var required := |s.queue| + additional;
    var extra := s.envelopePayload + payload;
    if limits.envelope < limits.inboxBytes || limits.envelope - limits.inboxBytes < extra {
      NoRoom(s, limits, additional, payload);
      return t, false;
    }
    var available := limits.envelope - limits.inboxBytes - extra;
    var maximum := available / limits.slotBytes;
    SlotsFit(s.capacity, available, limits.slotBytes);
    SlotsFit(required, available, limits.slotBytes);
    if required > maximum || s.capacity > maximum {
      return t, false;
    }
    if required > s.capacity {
      var target := Max(2 * s.capacity, required);
      target := if target < maximum then target else maximum;
      SlotsFit(target, available, limits.slotBytes);
      if !allocOk {
        return t, false;
      }
      t := s.(capacity := target);
    }
    ok := true;
  }

  lemma SlotsFit(slots: nat, available: nat, size: nat)
    requires size > 0
    ensures Backing(slots, size) <= available <==> slots <= available / size
  {
    var q := available / size;
    BackingIsProduct(q, size);
    BackingIsProduct(q + 1, size);
    assert q * size <= available < q * size + size;
    if slots <= q { BackingGrows(slots, q, size); } else { BackingGrows(q + 1, slots, size); }
  }

  lemma NoRoom(s: State, limits: Limits, additional: nat, payload: nat)
    requires limits.envelope < limits.inboxBytes + s.envelopePayload + payload
    ensures !Room(s, limits, additional, payload, true) && !Room(s, limits, additional, payload, false)
  {
    assert Backing(Max(s.capacity, |s.queue| + additional), limits.slotBytes) >= 0;
  }

  lemma AppendToEmpty(delivered: seq<RunEvent>, pending: seq<RunEvent>, event: RunEvent)
    ensures delivered + pending + [event] == delivered + (pending + [event])
  {
  }

  /** A new item for this event goes to the end of the stream. */
  lemma NewItem(s: State, t: State, item: Item, account: Account, delivered: seq<RunEvent>)
    requires Accounted(s, account, delivered) && s.local.Available?
    requires ItemOk(item) && Pending(t) == Pending(s) + [Shown(item)]
    requires IsLoss(item) <==> !t.local.Available?
    ensures Accounted(t, Add(account, item), delivered)
  {
    AppendToEmpty(delivered, Pending(s), Shown(item));
  }

  /** The newest item grows by this event; the last pending event changes with it. */
  lemma GrownItem(s: State, t: State, front: seq<RunEvent>, last: RunEvent, item: Item,
                  account: Account, delivered: seq<RunEvent>)
    requires Accounted(s, account, delivered) && account.Add?
    requires Pending(s) == front + [last] && Pending(t) == front + [Shown(item)]
    requires ItemOk(item)
    requires IsLoss(item) <==> !t.local.Available?
    ensures Accounted(t, Add(account.before, item), delivered)
  {
    AppendToEmpty(delivered, front, last);
    LastShown(account, delivered + front, last);
    AppendToEmpty(delivered, front, Shown(item));
  }

  // ---------- Every branch keeps the account ----------

  ghost predicate Keeps(t: State, limits: Limits, account: Account, delivered: seq<RunEvent>) {
    Funded(t, limits) && Shape(t) && Accounted(t, account, delivered)
  }

  lemma MergeKeeps(s: State, limits: Limits, event: RunEvent, account: Account, delivered: seq<RunEvent>)
    requires Keeps(s, limits, account, delivered)
    requires s.local.Available? && s.terminal.None? && MergesInto(s, event)
    ensures account.Add? && Keeps(MergeOn(s, event), limits, Absorb(account, event, Merge), delivered)
  {
    var n := |s.queue| - 1;
    var front, last := s.queue[..n], s.queue[n];
    var t := MergeOn(s, event);
    SumsAppend(front, last);
    SumsAppend(front, event);
    assert s.queue == front + [last] && t.queue == front + [event];
    assert Pending(s) == s.queue && Pending(t) == t.queue;
    AppendToEmpty(delivered, front, last);
    LastShown(account, delivered + front, last);
    GrownItem(s, t, front, last, Merged(account.item, event), account, delivered);
  }

  lemma GapKeeps(s: State, limits: Limits, event: RunEvent, account: Account, delivered: seq<RunEvent>)
    requires Keeps(s, limits, account, delivered)
    requires s.local.Available? && s.terminal.None? && (event.Gap? || event.Output?)
    ensures GapVerdict(s) == WidenGap ==> account.Add?
    ensures Keeps(GapOn(s, event), limits, Absorb(account, event, GapVerdict(s)), delivered)
  {
    var t := GapOn(s, event);
    if s.pendingGap.Some? {
      var gap := s.pendingGap.value;
      AppendToEmpty(delivered, s.queue, gap);
      LastShown(account, delivered + s.queue, gap);
      GrownItem(s, t, s.queue, gap, Widened(account.item, event), account, delivered);
    } else {
      NewItem(s, t, Gapped(event), account, delivered);
    }
  }

  lemma LossKeeps(s: State, limits: Limits, event: RunEvent, account: Account, delivered: seq<RunEvent>)
    requires Keeps(s, limits, account, delivered) && s.local.Available? && s.terminal.None?
    ensures Keeps(LoseOn(s), limits, Absorb(account, event, Lose), delivered)
  {
    NewItem(s, LoseOn(s), Lost(event), account, delivered);
  }

  lemma QueueKeeps(s: State, limits: Limits, event: RunEvent, account: Account, delivered: seq<RunEvent>)
    requires Keeps(s, limits, account, delivered) && s.local.Available? && s.terminal.None? && !event.Gap?
    requires |s.queue| + 1 + GapSlots(s) <= s.capacity && s.queuedBytes + EventBytes(event) <= limits.payload
    requires TerminalFunded(s, limits, event)
    ensures Keeps(QueueOn(s, event), limits, Absorb(account, event, Keep), delivered)
  {
    var front := s.queue + Opt(s.pendingGap);
    if s.pendingGap.Some? { SumsAppend(s.queue, s.pendingGap.value); } else { assert front == s.queue; }
    assert front == Pending(s);
    SumsAppend(front, event);
    assert Pending(QueueOn(s, event)) == front + [event];
    NewItem(s, QueueOn(s, event), Kept(event), account, delivered);
  }

  /** Growing the backing changes nothing the consumer sees. */
  lemma GrowKeeps(s: State, limits: Limits, slots: nat, payload: nat, allocOk: bool, account: Account, delivered: seq<RunEvent>)
    requires limits.slotBytes > 0 && Keeps(s, limits, account, delivered) && Room(s, limits, slots, payload, allocOk)
    ensures var t := GrowOn(s, limits, slots, payload);
            && Keeps(t, limits, account, delivered) && |s.queue| + slots <= t.capacity
            && limits.inboxBytes + Backing(t.capacity, limits.slotBytes) + t.envelopePayload + payload <= limits.envelope
  {
    var t := GrowOn(s, limits, slots, payload);
    var required := |s.queue| + slots;
    var available := Less(limits.envelope, limits.inboxBytes + s.envelopePayload + payload);
    SlotsFit(Max(s.capacity, required), available, limits.slotBytes);
    SlotsFit(t.capacity, available, limits.slotBytes);
    assert Pending(t) == Pending(s);
  }

  lemma OrdinaryQueued(s: State, limits: Limits, event: RunEvent, allocOk: bool, account: Account, delivered: seq<RunEvent>)
    requires limits.slotBytes > 0 && Keeps(s, limits, account, delivered)
    requires s.local.Available? && s.terminal.None? && !event.Gap? && Fits(s, limits, event, allocOk)
    ensures Keeps(QueueOn(GrowOn(s, limits, 1 + GapSlots(s), EnvelopeBytes(event)), event), limits, Absorb(account, event, Keep), delivered)
  {
    GrowKeeps(s, limits, 1 + GapSlots(s), EnvelopeBytes(event), allocOk, account, delivered);
    QueueKeeps(GrowOn(s, limits, 1 + GapSlots(s), EnvelopeBytes(event)), limits, event, account, delivered);
  }

  lemma OrdinaryKeeps(s: State, limits: Limits, event: RunEvent, allocOk: bool, account: Account, delivered: seq<RunEvent>)
    requires limits.slotBytes > 0 && Keeps(s, limits, account, delivered)
    requires s.local.Available? && s.terminal.None? && !event.Gap? && !IsTerminal(event) && !MergesInto(s, event)
    ensures OrdinaryVerdict(s, limits, event, allocOk) == WidenGap ==> account.Add?
    ensures Keeps(OrdinaryOn(s, limits, event, allocOk), limits, Absorb(account, event, OrdinaryVerdict(s, limits, event, allocOk)), delivered)
  {
    if Fits(s, limits, event, allocOk) {
      OrdinaryQueued(s, limits, event, allocOk, account, delivered);
    } else if event.Output? {
      GapKeeps(s, limits, event, account, delivered);
    } else {
      LossKeeps(s, limits, event, account, delivered);
    }
  }

  lemma TerminalQueued(s: State, limits: Limits, event: RunEvent, allocOk: bool, account: Account, delivered: seq<RunEvent>)
    requires limits.slotBytes > 0 && IsTerminal(event) && Keeps(s, limits, account, delivered)
    requires s.local.Available? && s.terminal.None? && s.pendingGap.None? && Room(s, limits, 1, EnvelopeBytes(event), allocOk)
    ensures TerminalFunded(s, limits, event)
    ensures Keeps(QueueOn(GrowOn(s, limits, 1, EnvelopeBytes(event)), event), limits, Absorb(account, event, Keep), delivered)
  {
    GrowKeeps(s, limits, 1, EnvelopeBytes(event), allocOk, account, delivered);
    RoomImpliesFunded(s, limits, 1, EnvelopeBytes(event), allocOk);
    QueueKeeps(GrowOn(s, limits, 1, EnvelopeBytes(event)), limits, event, account, delivered);
  }

  lemma TerminalAside(s: State, limits: Limits, event: RunEvent, account: Account, delivered: seq<RunEvent>)
    requires IsTerminal(event) && Keeps(s, limits, account, delivered) && TerminalFunded(s, limits, event)
    requires s.local.Available? && s.terminal.None? && s.sawTerminal
    ensures Keeps(AsideOn(s, event), limits, Absorb(account, event, Keep), delivered)
  {
    assert Pending(AsideOn(s, event)) == Pending(s) + [event];
    NewItem(s, AsideOn(s, event), Kept(event), account, delivered);
  }

  lemma TerminalKeeps(s: State, limits: Limits, event: RunEvent, allocOk: bool, account: Account, delivered: seq<RunEvent>)
    requires limits.slotBytes > 0 && IsTerminal(event) && Keeps(s, limits, account, delivered)
    requires s.local.Available? && s.terminal.None? && s.sawTerminal
    ensures Keeps(TerminalOn(s, limits, event, allocOk), limits, Absorb(account, event, TerminalVerdict(s, limits, event)), delivered)
  {
    if s.pendingGap.None? && Room(s, limits, 1, EnvelopeBytes(event), allocOk) {
      TerminalQueued(s, limits, event, allocOk, account, delivered);
    } else if TerminalFunded(s, limits, event) {
      TerminalAside(s, limits, event, account, delivered);
    } else {
      LossKeeps(s, limits, event, account, delivered);
    }
  }

  lemma RoomImpliesFunded(s: State, limits: Limits, slots: nat, payload: nat, allocOk: bool)
    requires limits.slotBytes > 0 && Room(s, limits, slots, payload, allocOk)
    ensures limits.inboxBytes + Backing(s.capacity, limits.slotBytes) + s.envelopePayload + payload <= limits.envelope
  {
    BackingGrows(s.capacity, Max(s.capacity, |s.queue| + slots), limits.slotBytes);
  }

  lemma LossAbsorbs(s: State, event: RunEvent, account: Account, delivered: seq<RunEvent>)
    requires Accounted(s, account, delivered) && !s.local.Available?
    ensures Accounted(s, Absorb(account, event, Swallow), delivered)
  {
    assert StreamOf(account) == StreamOf(Add(account.before, LostToo(account.item, event)));
  }

  /** Whatever push does with an event it accepts, the stream still explains everything
      pushed, within both byte windows. */
  lemma PushKeeps(s: State, limits: Limits, event: RunEvent, allocOk: bool, account: Account, delivered: seq<RunEvent>)
    requires limits.slotBytes > 0 && !Rejected(s, event) && Keeps(s, limits, account, delivered)
    ensures var verdict := VerdictOn(s, limits, event, allocOk);
            && (verdict.Merge? || verdict.WidenGap? || verdict.Swallow? ==> account.Add?)
            && Keeps(PushOn(s, limits, event, allocOk), limits, Absorb(account, event, verdict), delivered)
  {
    var seen := Seen(s, event);
    assert Pending(seen) == Pending(s);
    if !s.local.Available? {
      LossAbsorbs(s, event, account, delivered);
    } else if MergesInto(s, event) {
      MergeKeeps(s, limits, event, account, delivered);
    } else if event.Gap? {
      GapKeeps(s, limits, event, account, delivered);
    } else if IsTerminal(event) {
      TerminalKeeps(seen, limits, event, allocOk, account, delivered);
    } else {
      OrdinaryKeeps(seen, limits, event, allocOk, account, delivered);
    }
  }

  /** Only a loss moves the stage of the view. */
  lemma PushStages(s: State, limits: Limits, event: RunEvent, allocOk: bool)
    requires limits.slotBytes > 0
    ensures StagesAfter(Seen(s, event), PushOn(s, limits, event, allocOk), VerdictOn(s, limits, event, allocOk) == Lose)
  {
    var seen := Seen(s, event);
    if s.local.Available? && IsTerminal(event) {
      TerminalStages(seen, limits, event, allocOk);
    } else if s.local.Available? && !event.Gap? && !MergesInto(s, event) {
      OrdinaryStages(seen, limits, event, allocOk);
    }
  }

  lemma TerminalStages(s: State, limits: Limits, event: RunEvent, allocOk: bool)
    requires limits.slotBytes > 0
    ensures StagesAfter(s, TerminalOn(s, limits, event, allocOk), TerminalVerdict(s, limits, event) == Lose)
  {
    if Room(s, limits, 1, EnvelopeBytes(event), allocOk) { RoomImpliesFunded(s, limits, 1, EnvelopeBytes(event), allocOk); }
  }

  lemma OrdinaryStages(s: State, limits: Limits, event: RunEvent, allocOk: bool)
    requires limits.slotBytes > 0
    ensures StagesAfter(s, OrdinaryOn(s, limits, event, allocOk), OrdinaryVerdict(s, limits, event, allocOk) == Lose)
  {
  }

  // ---------- The source's own functions ----------

  /** Overwrite the last queued snapshot by a newer one of the same command. */
  method ReplaceInputProgress(s: State, event: RunEvent) returns (t: State, replaced: bool)
    ensures replaced <==> MergesInto(s, event)
    ensures t == if replaced then MergeOn(s, event) else s
    ensures |t.queue| == |s.queue| && SumBytes(t.queue) == SumBytes(s.queue) && SumEnvelope(t.queue) == SumEnvelope(s.queue)
  {
    if s.pendingGap.Some? || !event.ServiceChanged? || s.queue == [] {
      return s, false;
    }
    var n := |s.queue| - 1;
    if !s.queue[n].ServiceChanged? || !Advances(s.queue[n].service, event.service) {
      return s, false;
    }
    t, replaced := s.(queue := s.queue[n := event]), true;
    SumsAppend(s.queue[..n], s.queue[n]);
    SumsAppend(s.queue[..n], event);
    assert s.queue == s.queue[..n] + [s.queue[n]] && t.queue == s.queue[..n] + [event];
  }

  /** Fold one lost output or one daemon gap into the pending gap. */
  method NoteGap(s: State, head: nat, causes: set<Cause>) returns (t: State)
    requires s.pendingGap.Some? ==> s.pendingGap.value.Gap?
    ensures t.pendingGap.Some? && t.pendingGap.value.Gap? && t == s.(pendingGap := t.pendingGap)
    ensures t.pendingGap.value.head >= head && t.pendingGap.value.causes >= causes
    ensures s.pendingGap.Some? ==> t.pendingGap.value == Widen(s.pendingGap.value, head, causes)
    ensures s.pendingGap.None? ==> t.pendingGap.value == Gap(head, causes)
  {
    if s.pendingGap.Some? {
      var gap := s.pendingGap.value;
      t := s.(pendingGap := Some(Gap(Max(gap.head, head), gap.causes + causes)));
    } else {
      t := s.(pendingGap := Some(Gap(head, causes)));
    }
  }

  /** Queue the pending gap, if any, and then the event. */
  method RetainQueued(s: State, event: RunEvent) returns (t: State)
    requires |s.queue| + 1 + GapSlots(s) <= s.capacity
    ensures t == QueueOn(s, event)
    ensures s.terminal.None? && s.local.Available? ==> Pending(t) == Pending(s) + [event]
    ensures |t.queue| <= t.capacity
  {
    var queue := s.queue;
    if s.pendingGap.Some? {
      assert |queue| < s.capacity;  // a retained gap always has its slot
      queue := queue + [s.pendingGap.value];
    }
    assert queue == s.queue + Opt(s.pendingGap);
    assert |queue| < s.capacity;
    t := s.(queue := queue + [event], pendingGap := None,
            queuedBytes := s.queuedBytes + EventBytes(event), envelopePayload := s.envelopePayload + EnvelopeBytes(event));
  }

  /** The stages of the view after an accepted event that was, or was not, lost. */
  predicate StagesAfter(s: State, t: State, lost: bool) {
    && t.sawTerminal == s.sawTerminal && t.sawDiscontinuity == s.sawDiscontinuity
    && t.local == (if lost then LostMarkerPending else s.local)
    && t.closed == (lost || s.closed)
    && t.error == (if lost then Some(ObservationUnavailable) else s.error)
  }

  /** Output, snapshots, names, resizes and the daemon's own discontinuity: kept if it
      fits, output otherwise turned into gap, anything else the end of the view. */
  method RetainOrdinary(s: State, limits: Limits, event: RunEvent, allocOk: bool) returns (t: State, ghost verdict: Verdict)
    requires limits.slotBytes > 0 && |s.queue| <= s.capacity
    requires s.local.Available? && !event.Gap? && !IsTerminal(event) && !MergesInto(s, event)
    requires s.pendingGap.Some? ==> s.pendingGap.value.Gap?
    ensures t == OrdinaryOn(s, limits, event, allocOk) && verdict == OrdinaryVerdict(s, limits, event, allocOk)
    ensures StagesAfter(s, t, verdict == Lose)
  {
    var reserved, ok := s, false;
    if s.queuedBytes + EventBytes(event) <= limits.payload {
      reserved, ok := ReserveSlots(s, limits, 1 + GapSlots(s), EnvelopeBytes(event), allocOk);
    }
    if ok {
      t := RetainQueued(reserved, event);
      verdict := Keep;
    } else if event.Output? {
      t := NoteGap(s, event.endByte, {ClientViewPressure});
      verdict := GapVerdict(s);
    } else {
      t, verdict := LoseOn(s), Lose;
    }
  }

  /** The terminal event uses a queue slot if it can, or waits beside the queue. */
  method RetainTerminal(s: State, limits: Limits, event: RunEvent, allocOk: bool) returns (t: State, ghost verdict: Verdict)
    requires limits.slotBytes > 0 && |s.queue| <= s.capacity && IsTerminal(event) && s.local.Available?
    ensures t == TerminalOn(s, limits, event, allocOk) && verdict == TerminalVerdict(s, limits, event)
    ensures StagesAfter(s, t, verdict == Lose)
  {
    var envelope := EnvelopeBytes(event);
    var reserved, ok := s, false;
    if s.pendingGap.None? {
      reserved, ok := ReserveSlots(s, limits, 1, envelope, allocOk);
    }
    if ok {
      RoomImpliesFunded(s, limits, 1, envelope, allocOk);
      t := RetainQueued(reserved, event);
      verdict := Keep;
    } else if limits.inboxBytes + Backing(s.capacity, limits.slotBytes) + s.envelopePayload + envelope <= limits.envelope {
      t, verdict := s.(envelopePayload := s.envelopePayload + envelope, terminal := Some(event)), Keep;
    } else {
      t, verdict := LoseOn(s), Lose;
    }
  }

  /** One event that push does not reject: the branches of `push` in order. */
  method Accept(s: State, limits: Limits, event: RunEvent, allocOk: bool) returns (t: State, ghost verdict: Verdict)
    requires limits.slotBytes > 0 && |s.queue| <= s.capacity
    requires s.pendingGap.Some? ==> s.pendingGap.value.Gap?
    ensures t == PushOn(s, limits, event, allocOk) && verdict == VerdictOn(s, limits, event, allocOk)
  {
    var seen := Seen(s, event);
    if !s.local.Available? {
      // Lifecycle is still validated although this view retains nothing more.
      return seen, Swallow;
    }
    var replaced;
    t, replaced := ReplaceInputProgress(s, event);
    if replaced {
      verdict := Merge;
    } else if event.Gap? {
      t := NoteGap(s, event.head, event.causes);
      verdict := GapVerdict(s);
    } else if IsTerminal(event) {
      t, verdict := RetainTerminal(seen, limits, event, allocOk);
    } else {
      t, verdict := RetainOrdinary(seen, limits, event, allocOk);
    }
  }

  /** What one call of `next` finds. */
  datatype Reading = Got(event: RunEvent) | Failed(error: Error) | End | Wait

  /** One poll; neither byte counter ever underflows. */
  method Take(s: State, ghost limits: Limits) returns (t: State, reading: Reading)
    requires Funded(s, limits)
    ensures (t, reading) == NextOf(s)
    ensures reading.Got? ==> t.queuedBytes <= s.queuedBytes && t.envelopePayload <= s.envelopePayload
  {
    t := s;
    if s.queue != [] {
      var event := s.queue[0];
      assert EventBytes(event) <= s.queuedBytes && EnvelopeBytes(event) <= s.envelopePayload;
      t := s.(queue := s.queue[1..], queuedBytes := s.queuedBytes - EventBytes(event),
              envelopePayload := s.envelopePayload - EnvelopeBytes(event));
      reading := Got(event);
    } else if s.pendingGap.Some? {
      t, reading := s.(pendingGap := None), Got(s.pendingGap.value);
    } else if s.local.LostMarkerPending? {
      t, reading := s.(local := LostMarkerDelivered), Got(ObservationDiscontinuity);
    } else if s.terminal.Some? {
      t := s.(terminal := None, envelopePayload := s.envelopePayload - EnvelopeBytes(s.terminal.value));
      reading := Got(s.terminal.value);
    } else if s.error.Some? {
      t, reading := s.(error := None), Failed(s.error.value);
    } else {
      reading := if s.closed then End else Wait;
    }
  }

  function NextOf(s: State): (State, Reading) {
    if s.queue != [] then
      var event := s.queue[0];
      (s.(queue := s.queue[1..], queuedBytes := Less(s.queuedBytes, EventBytes(event)),
          envelopePayload := Less(s.envelopePayload, EnvelopeBytes(event))), Got(event))
    else if s.pendingGap.Some? then (s.(pendingGap := None), Got(s.pendingGap.value))
    else if s.local.LostMarkerPending? then (s.(local := LostMarkerDelivered), Got(ObservationDiscontinuity))
    else if s.terminal.Some? then
      (s.(terminal := None, envelopePayload := Less(s.envelopePayload, EnvelopeBytes(s.terminal.value))), Got(s.terminal.value))
    else if s.error.Some? then (s.(error := None), Failed(s.error.value))
    else if s.closed then (s, End)
    else (s, Wait)
  }

  lemma NextTakesFirst(s: State)
    requires NextOf(s).1.Got?
    ensures Pending(s) == [NextOf(s).1.event] + Pending(NextOf(s).0)
  {
    if s.queue != [] {
      assert s.queue == [s.queue[0]] + s.queue[1..];
    } else if s.pendingGap.Some? {
      assert Opt(s.pendingGap) == [s.pendingGap.value];
    } else if !s.local.LostMarkerPending? {
      assert Pending(s) == [s.terminal.value];
    }
  }

  lemma NextAccounts(s: State, account: Account, delivered: seq<RunEvent>)
    requires Accounted(s, account, delivered) && NextOf(s).1.Got?
    ensures Accounted(NextOf(s).0, account, delivered + [NextOf(s).1.event])
  {
    NextTakesFirst(s);
    assert delivered + Pending(s) == delivered + [NextOf(s).1.event] + Pending(NextOf(s).0);
  }

  lemma NextKeeps(s: State, limits: Limits)
    requires Funded(s, limits) && Shape(s)
    ensures Funded(NextOf(s).0, limits) && Shape(NextOf(s).0)
    ensures NextOf(s).0.local.Available? == s.local.Available?
  {
  }

  /** A closed view: everything still pending in order, the error once if there is one,
      and then the end for ever. */
  lemma {:induction false} ClosedReads(s: State, limits: Limits, more: nat)
    requires Shape(s) && Funded(s, limits) && s.closed
    ensures ReadAll(s, |Pending(s)| + |ErrorRead(s)| + more) == Deliveries(Pending(s)) + ErrorRead(s) + Ends(more)
    decreases |Pending(s)| + |ErrorRead(s)|, more
  {
    if Pending(s) != [] {
      var t := NextOf(s).0;
      NextDelivers(s, limits);
      ClosedReads(t, limits, more);
      assert Pending(s)[1..] == Pending(t);
      assert |Pending(s)| + |ErrorRead(s)| + more - 1 == |Pending(t)| + |ErrorRead(t)| + more;
    } else {
      IdleReads(s, more);
    }
  }

  lemma NextDelivers(s: State, limits: Limits)
    requires Shape(s) && Funded(s, limits) && Pending(s) != []
    ensures var (t, reading) := NextOf(s);
            && reading == Got(Pending(s)[0]) && Pending(s) == [Pending(s)[0]] + Pending(t)
            && Shape(t) && Funded(t, limits) && t.closed == s.closed && t.error == s.error
  {
    assert NextOf(s).1.Got?;
    NextTakesFirst(s);
    NextKeeps(s, limits);
  }

  lemma {:induction false} IdleReads(s: State, more: nat)
    requires s.closed && Pending(s) == []
    ensures ReadAll(s, |ErrorRead(s)| + more) == ErrorRead(s) + Ends(more)
    decreases |ErrorRead(s)|, more
  {
    assert s.queue == [] && s.pendingGap.None? && !s.local.LostMarkerPending? && s.terminal.None? by {
      assert |s.queue| <= |Pending(s)|;
    }
    if s.error.Some? {
      IdleReads(s.(error := None), more);
    } else if more > 0 {
      IdleReads(s, more - 1);
    }
  }

  function Deliveries(events: seq<RunEvent>): seq<Reading> {
    if events == [] then [] else [Got(events[0])] + Deliveries(events[1..])
  }

  function Ends(n: nat): seq<Reading> { if n == 0 then [] else [End] + Ends(n - 1) }

  function ErrorRead(s: State): seq<Reading> { if s.error.Some? then [Failed(s.error.value)] else [] }

  function ReadAll(s: State, n: nat): seq<Reading>
    decreases n
  {
    if n == 0 then [] else [NextOf(s).1] + ReadAll(NextOf(s).0, n - 1)
  }

  // ---------- Whole runs ----------

  /** An inbox with everything ever accepted and everything ever handed out. */
  datatype Run = Run(state: State, account: Account, pushed: seq<RunEvent>, delivered: seq<RunEvent>)

  datatype Step = Push(event: RunEvent, allocOk: bool) | Read | Close(error: Option<Error>)

  const Empty: State := State([], 0, 0, 0, None, Available, None, false, false, false, None)

  function CloseOn(s: State, error: Option<Error>): State { if s.closed then s else s.(closed := true, error := error) }

  function Apply(limits: Limits, r: Run, step: Step): Run
    requires limits.slotBytes > 0
  {
    match step
    case Push(event, allocOk) =>
      if Rejected(r.state, event) then r else
      Run(PushOn(r.state, limits, event, allocOk), Absorb(r.account, event, VerdictOn(r.state, limits, event, allocOk)),
          r.pushed + [event], r.delivered)
    case Read =>
      var (after, reading) := NextOf(r.state);
      r.(state := after, delivered := r.delivered + if reading.Got? then [reading.event] else [])
    case Close(error) => r.(state := CloseOn(r.state, error))
  }

  ghost predicate Inv(limits: Limits, r: Run) {
    && Keeps(r.state, limits, r.account, r.delivered) && PushedBy(r.account) == r.pushed
    && (r.state.local.LostMarkerPending? ==> r.state.error == Some(ObservationUnavailable))
  }

  ghost predicate Execution(limits: Limits, steps: seq<Step>, runs: seq<Run>) {
    && limits.slotBytes > 0 && limits.inboxBytes <= limits.envelope
    && |runs| == |steps| + 1 && runs[0] == Run(Empty, Begin, [], [])
    && forall i {:trigger steps[i]} :: 0 <= i < |steps| ==> runs[i + 1] == Apply(limits, runs[i], steps[i])
  }

  lemma StepKeeps(limits: Limits, r: Run, step: Step)
    requires limits.slotBytes > 0 && Inv(limits, r)
    ensures Inv(limits, Apply(limits, r, step))
  {
    match step
    case Push(event, allocOk) =>
      if !Rejected(r.state, event) {
        PushKeeps(r.state, limits, event, allocOk, r.account, r.delivered);
        PushStages(r.state, limits, event, allocOk);
        AbsorbPushes(r.account, event, VerdictOn(r.state, limits, event, allocOk));
      }
    case Read =>
      NextKeeps(r.state, limits);
      if NextOf(r.state).1.Got? { NextAccounts(r.state, r.account, r.delivered); }
      else { assert Pending(r.state) == Pending(NextOf(r.state).0); }
    case Close(error) => assert Pending(CloseOn(r.state, error)) == Pending(r.state);
  }

  lemma {:induction false} RunKeeps(limits: Limits, steps: seq<Step>, runs: seq<Run>, k: nat)
    requires Execution(limits, steps, runs) && k < |runs|
    ensures Inv(limits, runs[k])
  {
    if k > 0 {
      RunKeeps(limits, steps, runs, k - 1);
      StepKeeps(limits, runs[k - 1], steps[k - 1]);
      assert steps[k - 1] == steps[k - 1];
    }
  }

  /** In every run of pushes, polls and closes: what was handed out and what is pending
      explain everything accepted, in order; the counters are the sums over the queue and
      the reserved terminal; and both byte windows hold. */
  lemma RunExplains(limits: Limits, steps: seq<Step>, runs: seq<Run>, k: nat)
    requires Execution(limits, steps, runs) && k < |runs|
    ensures Explains(runs[k].account, runs[k].pushed, runs[k].delivered + Pending(runs[k].state))
    ensures Funded(runs[k].state, limits)
  {
    RunKeeps(limits, steps, runs, k);
  }

  /** In every run, each accepted event has its place in the consumer's stream, no later
      one has an earlier place, and what stands there is the event or may stand for it,
      unless the view ended there. */
  lemma RunLosesNothingSilently(limits: Limits, steps: seq<Step>, runs: seq<Run>, k: nat, j: nat, i: nat)
    requires Execution(limits, steps, runs) && k < |runs| && j <= i < |runs[k].pushed|
    ensures i < |PushedBy(runs[k].account)|
    ensures var stream, place := runs[k].delivered + Pending(runs[k].state), PlaceOf(runs[k].account, i);
            && PlaceOf(runs[k].account, j) <= place < |stream|
            && (|| StandsFor(stream[place], runs[k].pushed[i])
                || (!runs[k].state.local.Available? && place == |stream| - 1 && stream[place].ObservationDiscontinuity?))
  {
    RunKeeps(limits, steps, runs, k);
    OrderKept(runs[k].account, j, i);
    NothingSilentlyLost(runs[k].account, runs[k].pushed, runs[k].delivered + Pending(runs[k].state), i);
  }

  /** When a poll finds nothing, everything accepted has been accounted for by what the
      consumer already holds. */
  lemma IdleIsComplete(limits: Limits, steps: seq<Step>, runs: seq<Run>, k: nat)
    requires Execution(limits, steps, runs) && k < |runs| && !NextOf(runs[k].state).1.Got?
    ensures Explains(runs[k].account, runs[k].pushed, runs[k].delivered)
  {
    RunKeeps(limits, steps, runs, k);
    assert Pending(runs[k].state) == [];
    assert runs[k].delivered + [] == runs[k].delivered;
  }

  /** After a loss, in every run: what is still queued, one discontinuity as the last
      event, the error once, and then the end for ever. */
  lemma LossEndsView(limits: Limits, steps: seq<Step>, runs: seq<Run>, k: nat, more: nat)
    requires Execution(limits, steps, runs) && k < |runs| && runs[k].state.local.LostMarkerPending?
    ensures var s := runs[k].state;
            && Pending(s) != [] && Pending(s)[|Pending(s)| - 1] == ObservationDiscontinuity
            && ReadAll(s, |Pending(s)| + 1 + more) == Deliveries(Pending(s)) + [Failed(ObservationUnavailable)] + Ends(more)
  {
    RunKeeps(limits, steps, runs, k);
    ClosedReads(runs[k].state, limits, more);
  }

  class EventInbox {
    const limits: Limits
    var state: State
    var observationUnavailable: bool
    ghost var account: Account
    ghost var delivered: seq<RunEvent>   // every event handed to the consumer

    ghost function Now(): Run
      reads this
    {
      Run(state, account, PushedBy(account), delivered)
    }

    ghost predicate Valid()
      reads this
    {
      && limits.slotBytes > 0
      && Inv(limits, Now())
      && observationUnavailable == !state.local.Available?
    }

    constructor (limits: Limits)
      requires limits.slotBytes > 0 && limits.inboxBytes <= limits.envelope
      ensures Valid() && this.limits == limits && Now() == Run(Empty, Begin, [], [])
    {
      this.limits := limits;
      state := State([], 0, 0, 0, None, Available, None, false, false, false, None);
      observationUnavailable := false;
      account, delivered := Begin, [];
    }

    /** One event from the daemon. */
    method Push(event: RunEvent, allocOk: bool) returns (accepted: bool)
      requires Valid()
      modifies this
      ensures Valid() && Now() == Apply(limits, old(Now()), Step.Push(event, allocOk))
      ensures accepted == !Rejected(old(state), event)
      ensures !accepted ==> state == old(state) && account == old(account)
      ensures accepted ==> PushedBy(account) == PushedBy(old(account)) + [event]
      ensures accepted ==> account == Absorb(old(account), event, VerdictOn(old(state), limits, event, allocOk))
      ensures accepted ==> state.sawTerminal == (old(state).sawTerminal || IsTerminal(event))
      ensures accepted ==> state.sawDiscontinuity == (old(state).sawDiscontinuity || event.ObservationDiscontinuity?)
      ensures accepted && VerdictOn(old(state), limits, event, allocOk) == Lose ==>
                state.local.LostMarkerPending? && state.closed && state.error == Some(ObservationUnavailable)
      ensures accepted && VerdictOn(old(state), limits, event, allocOk) != Lose ==>
                state.local == old(state).local && state.closed == old(state).closed && state.error == old(state).error
    {
      if (state.closed && state.local.Available?) || state.sawTerminal || (state.sawDiscontinuity && !IsTerminal(event)) {
        return false;
      }
      accepted := true;
      ghost var verdict;
      StepKeeps(limits, Now(), Step.Push(event, allocOk));
      PushStages(state, limits, event, allocOk);
      state, verdict := Accept(state, limits, event, allocOk);
      account := Absorb(account, event, verdict);
      observationUnavailable := !state.local.Available?;
    }

    /** The transport ended: the consumer still gets everything pending, then the error
        that ended it first, once, and then the end for ever. */
    method Close(error: Option<Error>)
      requires Valid()
      modifies this`state
      ensures Valid() && Now() == Apply(limits, old(Now()), Step.Close(error))
      ensures Pending(state) == old(Pending(state)) && state.error == if old(state).closed then old(state).error else error
      ensures forall more: nat {:trigger Ends(more)} :: ReadAll(state, |Pending(state)| + |ErrorRead(state)| + more)
                                  == Deliveries(Pending(state)) + ErrorRead(state) + Ends(more)
    {
      if !state.closed {
        state := state.(closed := true, error := error);
      }
      forall more: nat {:trigger Ends(more)}
        ensures ReadAll(state, |Pending(state)| + |ErrorRead(state)| + more) == Deliveries(Pending(state)) + ErrorRead(state) + Ends(more)
      {
        ClosedReads(state, limits, more);
      }
    }

    /** One poll of `next`. */
    method Next() returns (reading: Reading)
      requires Valid()
      modifies this
      ensures Valid() && Now() == Apply(limits, old(Now()), Step.Read)
      ensures (state, reading) == NextOf(old(state))
      ensures delivered == old(delivered) + if reading.Got? then [reading.event] else []
    {
      StepKeeps(limits, Now(), Step.Read);
      state, reading := Take(state, limits);
      if reading.Got? {
        delivered := delivered + [reading.event];
      }
    }
  }
}
