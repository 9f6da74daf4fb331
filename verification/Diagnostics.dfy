/** The diagnostic sink (crates/ctxmux-daemon/src/diagnostics.rs:97-220, 262-334,
  447-568).

  Any number of producers and one writer.  Each step is one atomic operation or one
  channel operation; the counters that settle one record move together.  Counters
  are the exact sums here; CounterShows says what the 64-bit counters show.
 */
module Diagnostics {
  import opened Wrappers
  import opened MapSums

  type Byte = b: int | 0 <= b < 256

  /** Operator limits and the size of one channel message. */
  datatype Limits = Limits(queueBytes: nat, recordBytes: nat, envelope: nat)

  datatype Record = Record(id: nat, bytes: seq<Byte>, funding: nat)

  datatype Message = Item(record: Record) | Stop

  datatype Tag = Formatting | Formatted | Encoded | Counted | Bounced | Accepted

  /** One call of `record`, from its reservation on. */
  datatype Stage = Stage(tag: Tag, bytes: seq<Byte>, funding: nat)

  datatype Losses = Losses(unformatted: nat, encoded: nat, discarded: nat, oversized: nat, formatFailed: nat, writeFailed: nat)

  datatype Writer =
    | Starting
    | Idle
    | Taken(record: Record)
    | Noticing(record: Record, losses: Losses, text: seq<Byte>, done: nat)
    | Writing(record: Record, text: seq<Byte>, done: nat)
    | Draining
    | Closing
    | Closed

  datatype Counters = Counters(
    admitted: nat, written: nat, writtenBytes: nat, noticeBytes: nat, beforeEncoding: nat,
    encodedDrops: nat, discardedBytes: nat, oversized: nat, formatFailed: nat,
    writeFailed: nat, partial: nat)

  /** What the writer side did with one record of the channel: `text` is the notice
      written before it, `shown` all that reached the sink before a hard failure. */
  datatype Handled = Whole(record: Record, text: seq<Byte>) | Cut(record: Record, text: seq<Byte>, shown: seq<Byte>) | Skipped(record: Record)

  /** Newest last. */
  datatype Trail = Begin | Then(before: Trail, item: Handled)

  datatype Pool = Pool(
    funded: int, formatting: int,
    producers: map<nat, Stage>,
    dropping: seq<nat>,            // reservations of settled records, not yet released
    used: set<nat>)                // records ever started

  /** The channel; `sent` is everything ever put into it, in order. */
  datatype Pipe = Pipe(messages: seq<Message>, open: bool, queued: int, sent: seq<Record>)

  datatype Sink = Sink(writer: Writer, failed: bool, reported: Losses, bytes: seq<Byte>, trail: Trail)

  /** Ghost totals: records and bytes ever formatted. */
  datatype Work = Work(records: nat, bytes: nat)

  datatype State = State(pool: Pool, pipe: Pipe, sink: Sink, counters: Counters, shutdown: bool, stopDue: bool, work: Work)

  const NoLosses := Losses(0, 0, 0, 0, 0, 0)

  const Initial := State(
    Pool(0, 0, map[], [], {}), Pipe([], true, 0, []), Sink(Starting, false, NoLosses, [], Begin),
    Counters(0, 0, 0, 0, 0, 0, 0, 0, 0, 0, 0), false, false, Work(0, 0))

  datatype Step =
    | Refuse
    | Reserve(p: nat)
    | Format(p: nat, value: seq<Byte>)
    | FormatError(p: nat)
    | FormatDone(p: nat)
    | Retain(p: nat, capacity: nat)
    | Count(p: nat)
    | Send(p: nat)
    | Admit(p: nat)
    | DropBounced(p: nat)
    | Release(k: nat)
    | SetShutdown
    | SendStop
    | WriterStart
    | Recv
    | Received(text: seq<Byte>)
    | Write(n: nat)
    | WriteDone
    | WriteError
    | Drain
    | DrainEmpty
    | CloseReceiver
    | DropLeftover

  function LossesOf(c: Counters): Losses {
    Losses(c.beforeEncoding, c.encodedDrops, c.discardedBytes, c.oversized, c.formatFailed, c.writeFailed)
  }

  predicate At(s: State, p: nat, tag: Tag) {
    p in s.pool.producers && s.pool.producers[p].tag == tag
  }

  /** What the writer has left to write of its current piece. */
  function Remaining(w: Writer): nat {
    match w
    case Noticing(_, _, text, done) => if done <= |text| then |text| - done else 0
    case Writing(record, _, done) => if done <= |record.bytes| then |record.bytes| - done else 0
    case _ => 0
  }

  predicate Enabled(l: Limits, s: State, step: Step) {
    match step
    case Refuse => s.shutdown || s.sink.failed || s.pool.funded + l.recordBytes + l.envelope > l.queueBytes
    case Reserve(p) => p !in s.pool.used && s.pool.funded + l.recordBytes + l.envelope <= l.queueBytes
    case Format(p, _) => At(s, p, Formatting)
    case FormatError(p) => At(s, p, Formatting)
    case FormatDone(p) => At(s, p, Formatting)
    case Retain(p, capacity) => At(s, p, Formatted) && |s.pool.producers[p].bytes| <= capacity
    case Count(p) => At(s, p, Encoded)
    case Send(p) => At(s, p, Counted)
    case Admit(p) => At(s, p, Accepted)
    case DropBounced(p) => At(s, p, Bounced)
    case Release(k) => k < |s.pool.dropping|
    case SetShutdown => !s.shutdown
    case SendStop => s.stopDue
    case WriterStart => s.sink.writer.Starting?
    case Recv => s.sink.writer.Idle? && s.pipe.messages != []
    case Received(text) => s.sink.writer.Taken?
    case Write(n) => 1 <= n <= Remaining(s.sink.writer)
    case WriteDone => (s.sink.writer.Noticing? || s.sink.writer.Writing?) && Remaining(s.sink.writer) == 0
    case WriteError => Remaining(s.sink.writer) > 0
    case Drain => s.sink.writer.Draining? && s.pipe.messages != []
    case DrainEmpty => s.sink.writer.Draining? && s.pipe.messages == []
    case CloseReceiver => s.sink.writer.Closing?
    case DropLeftover => s.sink.writer.Closed? && s.pipe.messages != []
  }

  // ---------- Producers ----------

  function Restaged(pool: Pool, p: nat, stage: Stage): Pool { pool.(producers := pool.producers[p := stage]) }

  /** A settled call leaves only its reservation behind. */
  function Left(pool: Pool, p: nat, formattingToo: bool): Pool
    requires p in pool.producers
  {
    pool.(producers := pool.producers - {p}, dropping := pool.dropping + [pool.producers[p].funding],
          formatting := pool.formatting - (if formattingToo then 1 else 0))
  }

  /** A record that was formatted but will not be written. */
  function Dropped(c: Counters, bytes: nat): Counters {
    c.(encodedDrops := c.encodedDrops + 1, discardedBytes := c.discardedBytes + bytes)
  }

  function ReserveOn(l: Limits, s: State, p: nat): State {
    var need := l.recordBytes + l.envelope;
    s.(pool := s.pool.(funded := s.pool.funded + need, formatting := s.pool.formatting + 1, used := s.pool.used + {p},
                       producers := s.pool.producers[p := Stage(Formatting, [], need)]))
  }

  function FormatOn(l: Limits, s: State, p: nat, value: seq<Byte>): State
    requires p in s.pool.producers
  {
    var stage := s.pool.producers[p];
    if |stage.bytes| + |value| <= l.recordBytes then
      s.(pool := Restaged(s.pool, p, stage.(bytes := stage.bytes + value)), work := s.work.(bytes := s.work.bytes + |value|))
    else
      s.(pool := Left(s.pool, p, true),
         counters := s.counters.(oversized := s.counters.oversized + 1, discardedBytes := s.counters.discardedBytes + |stage.bytes|))
  }

  function FormatErrorOn(s: State, p: nat): State
    requires p in s.pool.producers
  {
    s.(pool := Left(s.pool, p, true),
       counters := s.counters.(formatFailed := s.counters.formatFailed + 1,
                               discardedBytes := s.counters.discardedBytes + |s.pool.producers[p].bytes|))
  }

  /** Shrink the reservation to the real buffer, or grow it if that still fits. */
  function RetainOn(l: Limits, s: State, p: nat, capacity: nat): State
    requires p in s.pool.producers
  {
    var stage, need := s.pool.producers[p], capacity + l.envelope;
    if need <= stage.funding || s.pool.funded + (need - stage.funding) <= l.queueBytes then
      s.(pool := Restaged(s.pool, p, Stage(Encoded, stage.bytes, need))
           .(funded := s.pool.funded + (need - stage.funding), formatting := s.pool.formatting - 1))
    else
      s.(pool := Left(s.pool, p, true), counters := Dropped(s.counters, |stage.bytes|))
  }

  function SendOn(s: State, p: nat): State
    requires p in s.pool.producers
  {
    var stage := s.pool.producers[p];
    if !s.pipe.open then s.(pool := Restaged(s.pool, p, stage.(tag := Bounced))) else
    var record := Record(p, stage.bytes, stage.funding);
    s.(pool := Restaged(s.pool, p, Stage(Accepted, [], 0)),
       pipe := s.pipe.(messages := s.pipe.messages + [Item(record)], sent := s.pipe.sent + [record]))
  }

  // ---------- The writer ----------

  /** The head record leaves the channel unwritten. */
  function SkipHead(s: State): State
    requires s.pipe.messages != []
  {
    var rest := s.pipe.messages[1..];
    match s.pipe.messages[0]
    case Stop => s.(pipe := s.pipe.(messages := rest))
    case Item(record) =>
      s.(pipe := s.pipe.(messages := rest, queued := s.pipe.queued - 1),
         pool := s.pool.(dropping := s.pool.dropping + [record.funding]),
         counters := Dropped(s.counters, |record.bytes|),
         sink := s.sink.(trail := Then(s.sink.trail, Skipped(record))))
  }

  function RecvOn(s: State): State
    requires s.pipe.messages != []
  {
    s.(pipe := s.pipe.(messages := s.pipe.messages[1..]),
       sink := s.sink.(writer := if s.pipe.messages[0].Stop? then Draining else Taken(s.pipe.messages[0].record)))
  }

  function ReceivedOn(s: State, text: seq<Byte>): State
    requires s.sink.writer.Taken?
  {
    var record := s.sink.writer.record;
    var t := s.(pipe := s.pipe.(queued := s.pipe.queued - 1));
    if s.shutdown then
      t.(pool := s.pool.(dropping := s.pool.dropping + [record.funding]),
         counters := Dropped(s.counters, |record.bytes|),
         sink := s.sink.(writer := Idle, trail := Then(s.sink.trail, Skipped(record))))
    else
      t.(sink := s.sink.(writer := if LossesOf(s.counters) != s.sink.reported then Noticing(record, LossesOf(s.counters), text, 0)
                                   else Writing(record, [], 0)))
  }

  function WriteOn(s: State, n: nat): State
    requires 1 <= n <= Remaining(s.sink.writer)
  {
    var w := s.sink.writer;
    var piece := if w.Noticing? then w.text else w.record.bytes;
    s.(sink := s.sink.(bytes := s.sink.bytes + piece[w.done..w.done + n], writer := w.(done := w.done + n)),
       counters := s.counters.(writtenBytes := s.counters.writtenBytes + n,
                               noticeBytes := s.counters.noticeBytes + (if w.Noticing? then n else 0)))
  }

  function WriteDoneOn(s: State): State
    requires s.sink.writer.Noticing? || s.sink.writer.Writing?
  {
    match s.sink.writer
    case Noticing(record, losses, text, _) =>
      s.(sink := s.sink.(reported := losses, writer := Writing(record, text, 0)))
    case Writing(record, text, _) =>
      s.(sink := s.sink.(writer := Idle, trail := Then(s.sink.trail, Whole(record, text))),
         counters := s.counters.(written := s.counters.written + 1),
         pool := s.pool.(dropping := s.pool.dropping + [record.funding]))
  }

  function WriteErrorOn(s: State): State
    requires (s.sink.writer.Noticing? && s.sink.writer.done <= |s.sink.writer.text|)
          || (s.sink.writer.Writing? && s.sink.writer.done <= |s.sink.writer.record.bytes|)
  {
    var w := s.sink.writer;
    var record := w.record;
    var shown := if w.Noticing? then w.text[..w.done] else w.text + record.bytes[..w.done];
    var counters :=
      if w.Writing? && w.done > 0 then
        s.counters.(partial := s.counters.partial + 1, discardedBytes := s.counters.discardedBytes + (|record.bytes| - w.done))
      else Dropped(s.counters, |record.bytes|);
    s.(sink := s.sink.(writer := Draining, failed := true, trail := Then(s.sink.trail, Cut(record, w.text, shown))),
       counters := counters.(writeFailed := counters.writeFailed + 1),
       pool := s.pool.(dropping := s.pool.dropping + [record.funding]))
  }

  function Apply(l: Limits, s: State, step: Step): State
    requires Enabled(l, s, step)
  {
    match step
    case Refuse => s.(counters := s.counters.(beforeEncoding := s.counters.beforeEncoding + 1))
    case Reserve(p) => ReserveOn(l, s, p)
    case Format(p, value) => FormatOn(l, s, p, value)
    case FormatError(p) => FormatErrorOn(s, p)
    case FormatDone(p) =>
      s.(pool := Restaged(s.pool, p, s.pool.producers[p].(tag := Formatted)), work := s.work.(records := s.work.records + 1))
    case Retain(p, capacity) => RetainOn(l, s, p, capacity)
    case Count(p) =>
      s.(pool := Restaged(s.pool, p, s.pool.producers[p].(tag := Counted)), pipe := s.pipe.(queued := s.pipe.queued + 1))
    case Send(p) => SendOn(s, p)
    case Admit(p) =>
      s.(pool := s.pool.(producers := s.pool.producers - {p}), counters := s.counters.(admitted := s.counters.admitted + 1))
    case DropBounced(p) =>
      s.(pool := Left(s.pool, p, false), pipe := s.pipe.(queued := s.pipe.queued - 1),
         counters := Dropped(s.counters, |s.pool.producers[p].bytes|))
    case Release(k) =>
      s.(pool := s.pool.(funded := s.pool.funded - s.pool.dropping[k], dropping := s.pool.dropping[..k] + s.pool.dropping[k + 1..]))
    case SetShutdown => s.(shutdown := true, stopDue := true)
    case SendStop =>
      s.(stopDue := false, pipe := if s.pipe.open then s.pipe.(messages := s.pipe.messages + [Stop]) else s.pipe)
    case WriterStart => s.(sink := s.sink.(writer := Idle))
    case Recv => RecvOn(s)
    case Received(text) => ReceivedOn(s, text)
    case Write(n) => WriteOn(s, n)
    case WriteDone => WriteDoneOn(s)
    case WriteError => WriteErrorOn(s)
    case Drain => SkipHead(s)
    case DrainEmpty => s.(sink := s.sink.(writer := Closing))
    case CloseReceiver => s.(sink := s.sink.(writer := Closed), pipe := s.pipe.(open := false))
    case DropLeftover => SkipHead(s)
  }

  // ---------- Sums over everything in flight ----------

  function Funds(stage: Stage): nat { stage.funding }

  function Bytes(stage: Stage): nat { |stage.bytes| }

  function InFormat(stage: Stage): nat { if stage.tag.Formatting? || stage.tag.Formatted? then 1 else 0 }

  function InQueue(stage: Stage): nat { if stage.tag.Counted? || stage.tag.Bounced? then 1 else 0 }

  function Unsettled(stage: Stage): nat { if stage.tag.Formatting? || stage.tag.Accepted? then 0 else 1 }

  function Unadmitted(stage: Stage): nat { if stage.tag.Accepted? then 1 else 0 }

  function AddUp(amounts: seq<nat>): nat {
    if amounts == [] then 0 else amounts[0] + AddUp(amounts[1..])
  }

  lemma {:induction false} AddUpJoin(a: seq<nat>, b: seq<nat>)
    ensures AddUp(a + b) == AddUp(a) + AddUp(b)
  {
    if a == [] {
      assert a + b == b;
    } else {
      AddUpJoin(a[1..], b);
      assert (a + b)[1..] == a[1..] + b;
    }
  }

  lemma AddUpRemove(amounts: seq<nat>, k: nat)
    requires k < |amounts|
    ensures AddUp(amounts) == amounts[k] + AddUp(amounts[..k] + amounts[k + 1..])
  {
    assert amounts == amounts[..k] + amounts[k..];
    AddUpJoin(amounts[..k], amounts[k..]);
    AddUpJoin(amounts[..k], amounts[k + 1..]);
  }

  function MessageFunds(message: Message): nat { if message.Item? then message.record.funding else 0 }

  function MessageBytes(message: Message): nat { if message.Item? then |message.record.bytes| else 0 }

  function MessageRecords(message: Message): nat { if message.Item? then 1 else 0 }

  function Sum(messages: seq<Message>, weight: Message -> nat): nat {
    if messages == [] then 0 else weight(messages[0]) + Sum(messages[1..], weight)
  }

  lemma {:induction false} SumAppend(messages: seq<Message>, message: Message, weight: Message -> nat)
    ensures Sum(messages + [message], weight) == Sum(messages, weight) + weight(message)
  {
    if messages == [] {
      assert messages + [message] == [message];
    } else {
      SumAppend(messages[1..], message, weight);
      assert (messages + [message])[1..] == messages[1..] + [message];
    }
  }

  /** The message the writer holds, if any. */
  function Held(w: Writer): Message {
    if w.Taken? || w.Noticing? || w.Writing? then Item(w.record) else Stop
  }

  // ---------- Conservation: one equation per resource ----------

  /** Reservations, and only they, are funded, and they fit. */
  ghost predicate FundsExact(l: Limits, s: State) {
    s.pool.funded == Total(s.pool.producers, Funds) + AddUp(s.pool.dropping) + Sum(s.pipe.messages, MessageFunds)
                     + MessageFunds(Held(s.sink.writer)) <= l.queueBytes
  }

  /** The two population counters. */
  ghost predicate PopulationExact(s: State) {
    && s.pool.formatting == Total(s.pool.producers, InFormat)
    && s.pipe.queued == Total(s.pool.producers, InQueue) + Sum(s.pipe.messages, MessageRecords)
                        + (if s.sink.writer.Taken? then 1 else 0)
  }

  /** Every formatted record is settled once or still on its way. */
  ghost predicate RecordsExact(s: State) {
    s.work.records == s.counters.written + s.counters.partial + s.counters.encodedDrops
                      + Total(s.pool.producers, Unsettled) + Sum(s.pipe.messages, MessageRecords)
                      + MessageRecords(Held(s.sink.writer))
  }

  /** Every record put in the channel is admitted once. */
  ghost predicate AdmissionsExact(s: State) {
    |s.pipe.sent| == s.counters.admitted + Total(s.pool.producers, Unadmitted)
  }

  /** Every byte ever formatted was written, discarded, or is still owned. */
  ghost predicate BytesExact(s: State) {
    s.work.bytes + s.counters.noticeBytes ==
      s.counters.writtenBytes + s.counters.discardedBytes + Total(s.pool.producers, Bytes)
      + Sum(s.pipe.messages, MessageBytes) + MessageBytes(Held(s.sink.writer))
      - (if s.sink.writer.Writing? then s.sink.writer.done else 0)
  }

  ghost predicate Shape(s: State) {
    && (s.sink.writer.Noticing? ==> s.sink.writer.done <= |s.sink.writer.text|)
    && (s.sink.writer.Writing? ==> s.sink.writer.done <= |s.sink.writer.record.bytes|)
    && (forall p :: p in s.pool.producers ==> p in s.pool.used)
    && (forall p :: p in s.pool.producers && s.pool.producers[p].tag == Accepted ==>
          s.pool.producers[p].bytes == [] && s.pool.producers[p].funding == 0)
  }

  ghost predicate Conserved(l: Limits, s: State) {
    && Shape(s) && FundsExact(l, s) && PopulationExact(s) && RecordsExact(s) && AdmissionsExact(s) && BytesExact(s)
  }

  /** The producer a step is about. */
  function Actor(step: Step): Option<nat> {
    match step
    case Reserve(p) => Some(p)
    case Format(p, _) => Some(p)
    case FormatError(p) => Some(p)
    case FormatDone(p) => Some(p)
    case Retain(p, _) => Some(p)
    case Count(p) => Some(p)
    case Send(p) => Some(p)
    case Admit(p) => Some(p)
    case DropBounced(p) => Some(p)
    case _ => None
  }

  ghost function WeightAt(producers: map<nat, Stage>, weight: Stage -> nat, p: nat): nat {
    if p in producers then weight(producers[p]) else 0
  }

  /** A change at one producer changes a total by the difference there. */
  lemma OneMoves(before: map<nat, Stage>, after: map<nat, Stage>, weight: Stage -> nat, p: nat)
    requires before - {p} == after - {p}
    ensures Total(after, weight) - WeightAt(after, weight, p) == Total(before, weight) - WeightAt(before, weight, p)
  {
    if p in before { TotalWithout(before, weight, p); } else { assert before - {p} == before; }
    if p in after { TotalWithout(after, weight, p); } else { assert after - {p} == after; }
  }

  /** A step only touches its own producer. */
  lemma StepTouches(l: Limits, s: State, step: Step, p: nat)
    requires Enabled(l, s, step) && (Actor(step).Some? ==> Actor(step).value == p)
    ensures s.pool.producers - {p} == Apply(l, s, step).pool.producers - {p}
    ensures Actor(step).None? ==> s.pool.producers == Apply(l, s, step).pool.producers
  {
  }

  /** A step adds one message, takes the first, or leaves the channel alone. */
  predicate Pops(step: Step) { step.Recv? || step.Drain? || step.DropLeftover? }

  function PushedBy(s: State, step: Step): Message {
    if step.Send? && At(s, step.p, Counted) then Item(Record(step.p, s.pool.producers[step.p].bytes, s.pool.producers[step.p].funding))
    else Stop
  }

  predicate Pushes(step: Step) { step.Send? || step.SendStop? }

  lemma MessagesMove(l: Limits, s: State, step: Step, weight: Message -> nat)
    requires Enabled(l, s, step)
    ensures var now := Sum(Apply(l, s, step).pipe.messages, weight);
            && (Pops(step) ==> Sum(s.pipe.messages, weight) == weight(s.pipe.messages[0]) + now)
            && (Pushes(step) && s.pipe.open ==> now == Sum(s.pipe.messages, weight) + weight(PushedBy(s, step)))
            && (Pushes(step) && !s.pipe.open ==> now == Sum(s.pipe.messages, weight))
            && (!Pops(step) && !Pushes(step) ==> now == Sum(s.pipe.messages, weight))
  {
    if Pushes(step) { SumAppend(s.pipe.messages, PushedBy(s, step), weight); }
  }

  /** The reservation a step leaves to be released, if it settles a record. */
  function Freed(l: Limits, s: State, step: Step): seq<nat>
    requires Enabled(l, s, step)
  {
    var t := Apply(l, s, step);
    if |t.pool.dropping| == |s.pool.dropping| + 1 then [t.pool.dropping[|s.pool.dropping|]] else []
  }

  lemma DroppingMoves(l: Limits, s: State, step: Step)
    requires Enabled(l, s, step)
    ensures step.Release? ==> AddUp(s.pool.dropping) == s.pool.dropping[step.k] + AddUp(Apply(l, s, step).pool.dropping)
    ensures !step.Release? ==> AddUp(Apply(l, s, step).pool.dropping) == AddUp(s.pool.dropping) + AddUp(Freed(l, s, step))
  {
    if step.Release? {
      AddUpRemove(s.pool.dropping, step.k);
    } else {
      AddUpJoin(s.pool.dropping, Freed(l, s, step));
      assert Apply(l, s, step).pool.dropping == s.pool.dropping + Freed(l, s, step);
    }
  }

  lemma ProducersMove(l: Limits, s: State, step: Step, weight: Stage -> nat)
    requires Enabled(l, s, step)
    ensures var before, after := s.pool.producers, Apply(l, s, step).pool.producers;
            if Actor(step).None? then Total(after, weight) == Total(before, weight)
            else var p := Actor(step).value;
              Total(after, weight) - WeightAt(after, weight, p) == Total(before, weight) - WeightAt(before, weight, p)
  {
    if Actor(step).Some? {
      StepTouches(l, s, step, Actor(step).value);
      OneMoves(s.pool.producers, Apply(l, s, step).pool.producers, weight, Actor(step).value);
    }
  }

  predicate Early(step: Step) { step.Reserve? || step.Format? || step.FormatError? || step.FormatDone? || step.Admit? }

  predicate Late(step: Step) { step.Count? || step.Send? || step.DropBounced? }

  lemma FundsByFormatter(l: Limits, s: State, step: Step)
    requires Shape(s) && FundsExact(l, s) && Enabled(l, s, step) && Early(step)
    ensures FundsExact(l, Apply(l, s, step))
  {
    ProducersMove(l, s, step, Funds);
    MessagesMove(l, s, step, MessageFunds);
    DroppingMoves(l, s, step);
  }

  lemma FundsByRetain(l: Limits, s: State, step: Step)
    requires Shape(s) && FundsExact(l, s) && Enabled(l, s, step) && step.Retain?
    ensures FundsExact(l, Apply(l, s, step))
  {
    ProducersMove(l, s, step, Funds);
    MessagesMove(l, s, step, MessageFunds);
    DroppingMoves(l, s, step);
  }

  lemma FundsBySender(l: Limits, s: State, step: Step)
    requires Shape(s) && FundsExact(l, s) && Enabled(l, s, step) && Late(step)
    ensures FundsExact(l, Apply(l, s, step))
  {
    ProducersMove(l, s, step, Funds);
    MessagesMove(l, s, step, MessageFunds);
    DroppingMoves(l, s, step);
  }

  lemma FundsByWriter(l: Limits, s: State, step: Step)
    requires Shape(s) && FundsExact(l, s) && Enabled(l, s, step) && Actor(step).None?
    ensures FundsExact(l, Apply(l, s, step))
  {
    ProducersMove(l, s, step, Funds);
    MessagesMove(l, s, step, MessageFunds);
    DroppingMoves(l, s, step);
  }

  lemma PopulationByFormatter(l: Limits, s: State, step: Step)
    requires Shape(s) && PopulationExact(s) && Enabled(l, s, step) && Early(step)
    ensures PopulationExact(Apply(l, s, step))
  {
    ProducersMove(l, s, step, InFormat);
    ProducersMove(l, s, step, InQueue);
    MessagesMove(l, s, step, MessageRecords);
  }

  lemma PopulationByRetain(l: Limits, s: State, step: Step)
    requires Shape(s) && PopulationExact(s) && Enabled(l, s, step) && step.Retain?
    ensures PopulationExact(Apply(l, s, step))
  {
    ProducersMove(l, s, step, InFormat);
    ProducersMove(l, s, step, InQueue);
    MessagesMove(l, s, step, MessageRecords);
  }

  lemma PopulationBySender(l: Limits, s: State, step: Step)
    requires Shape(s) && PopulationExact(s) && Enabled(l, s, step) && Late(step)
    ensures PopulationExact(Apply(l, s, step))
  {
    ProducersMove(l, s, step, InFormat);
    ProducersMove(l, s, step, InQueue);
    MessagesMove(l, s, step, MessageRecords);
  }

  lemma PopulationByWriter(l: Limits, s: State, step: Step)
    requires Shape(s) && PopulationExact(s) && Enabled(l, s, step) && Actor(step).None?
    ensures PopulationExact(Apply(l, s, step))
  {
    ProducersMove(l, s, step, InFormat);
    ProducersMove(l, s, step, InQueue);
    MessagesMove(l, s, step, MessageRecords);
  }

  lemma RecordsByFormatter(l: Limits, s: State, step: Step)
    requires Shape(s) && RecordsExact(s) && Enabled(l, s, step) && Early(step)
    ensures RecordsExact(Apply(l, s, step))
  {
    ProducersMove(l, s, step, Unsettled);
    MessagesMove(l, s, step, MessageRecords);
  }

  lemma RecordsByRetain(l: Limits, s: State, step: Step)
    requires Shape(s) && RecordsExact(s) && Enabled(l, s, step) && step.Retain?
    ensures RecordsExact(Apply(l, s, step))
  {
    ProducersMove(l, s, step, Unsettled);
    MessagesMove(l, s, step, MessageRecords);
  }

  lemma RecordsBySender(l: Limits, s: State, step: Step)
    requires Shape(s) && RecordsExact(s) && Enabled(l, s, step) && Late(step)
    ensures RecordsExact(Apply(l, s, step))
  {
    ProducersMove(l, s, step, Unsettled);
    MessagesMove(l, s, step, MessageRecords);
  }

  lemma RecordsByWriter(l: Limits, s: State, step: Step)
    requires Shape(s) && RecordsExact(s) && Enabled(l, s, step) && Actor(step).None?
    ensures RecordsExact(Apply(l, s, step))
  {
    ProducersMove(l, s, step, Unsettled);
    MessagesMove(l, s, step, MessageRecords);
  }

  lemma AdmissionsByFormatter(l: Limits, s: State, step: Step)
    requires Shape(s) && AdmissionsExact(s) && Enabled(l, s, step) && Early(step)
    ensures AdmissionsExact(Apply(l, s, step))
  {
    ProducersMove(l, s, step, Unadmitted);
  }

  lemma AdmissionsByRetain(l: Limits, s: State, step: Step)
    requires Shape(s) && AdmissionsExact(s) && Enabled(l, s, step) && step.Retain?
    ensures AdmissionsExact(Apply(l, s, step))
  {
    ProducersMove(l, s, step, Unadmitted);
  }

  lemma AdmissionsBySender(l: Limits, s: State, step: Step)
    requires Shape(s) && AdmissionsExact(s) && Enabled(l, s, step) && Late(step)
    ensures AdmissionsExact(Apply(l, s, step))
  {
    ProducersMove(l, s, step, Unadmitted);
  }

  lemma AdmissionsByWriter(l: Limits, s: State, step: Step)
    requires Shape(s) && AdmissionsExact(s) && Enabled(l, s, step) && Actor(step).None?
    ensures AdmissionsExact(Apply(l, s, step))
  {
    ProducersMove(l, s, step, Unadmitted);
  }

  lemma BytesByFormatter(l: Limits, s: State, step: Step)
    requires Shape(s) && BytesExact(s) && Enabled(l, s, step) && Early(step)
    ensures BytesExact(Apply(l, s, step))
  {
    ProducersMove(l, s, step, Bytes);
    MessagesMove(l, s, step, MessageBytes);
  }

  lemma BytesByRetain(l: Limits, s: State, step: Step)
    requires Shape(s) && BytesExact(s) && Enabled(l, s, step) && step.Retain?
    ensures BytesExact(Apply(l, s, step))
  {
    ProducersMove(l, s, step, Bytes);
    MessagesMove(l, s, step, MessageBytes);
  }

  lemma BytesBySender(l: Limits, s: State, step: Step)
    requires Shape(s) && BytesExact(s) && Enabled(l, s, step) && Late(step)
    ensures BytesExact(Apply(l, s, step))
  {
    ProducersMove(l, s, step, Bytes);
    MessagesMove(l, s, step, MessageBytes);
  }

  lemma BytesByWriter(l: Limits, s: State, step: Step)
    requires Shape(s) && BytesExact(s) && Enabled(l, s, step) && Actor(step).None?
    ensures BytesExact(Apply(l, s, step))
  {
    ProducersMove(l, s, step, Bytes);
    MessagesMove(l, s, step, MessageBytes);
  }


  lemma ShapeByProducer(l: Limits, s: State, step: Step)
    requires Shape(s) && Enabled(l, s, step) && Actor(step).Some?
    ensures Shape(Apply(l, s, step))
  {
  }

  lemma ShapeByWriter(l: Limits, s: State, step: Step)
    requires Shape(s) && Enabled(l, s, step) && Actor(step).None?
    ensures Shape(Apply(l, s, step))
  {
  }

  lemma StepConserves(l: Limits, s: State, step: Step)
    requires Conserved(l, s) && Enabled(l, s, step)
    ensures Conserved(l, Apply(l, s, step))
  {
    if Early(step) {
      FundsByFormatter(l, s, step);
      PopulationByFormatter(l, s, step);
      RecordsByFormatter(l, s, step);
      AdmissionsByFormatter(l, s, step);
      BytesByFormatter(l, s, step);
      ShapeByProducer(l, s, step);
    } else if step.Retain? {
      FundsByRetain(l, s, step);
      PopulationByRetain(l, s, step);
      RecordsByRetain(l, s, step);
      AdmissionsByRetain(l, s, step);
      BytesByRetain(l, s, step);
      ShapeByProducer(l, s, step);
    } else if Late(step) {
      FundsBySender(l, s, step);
      PopulationBySender(l, s, step);
      RecordsBySender(l, s, step);
      AdmissionsBySender(l, s, step);
      BytesBySender(l, s, step);
      ShapeByProducer(l, s, step);
    } else {
      AdmissionsByWriter(l, s, step);
      FundsByWriter(l, s, step);
      PopulationByWriter(l, s, step);
      RecordsByWriter(l, s, step);
      BytesByWriter(l, s, step);
      ShapeByWriter(l, s, step);
    }
  }

  // ---------- The channel order and the sink ----------

  function RecordsIn(messages: seq<Message>): seq<Record> {
    if messages == [] then []
    else (if messages[0].Item? then [messages[0].record] else []) + RecordsIn(messages[1..])
  }

  lemma {:induction false} RecordsAppend(messages: seq<Message>, message: Message)
    ensures RecordsIn(messages + [message]) == RecordsIn(messages) + (if message.Item? then [message.record] else [])
  {
    if messages == [] {
      assert messages + [message] == [message];
    } else {
      RecordsAppend(messages[1..], message);
      assert (messages + [message])[1..] == messages[1..] + [message];
    }
  }

  function Records(trail: Trail): seq<Record> {
    match trail
    case Begin => []
    case Then(before, item) => Records(before) + [item.record]
  }

  /** All that the handled records put into the sink. */
  function Rendered(trail: Trail): seq<Byte> {
    match trail
    case Begin => []
    case Then(before, Whole(record, text)) => Rendered(before) + text + record.bytes
    case Then(before, Cut(_, _, shown)) => Rendered(before) + shown
    case Then(before, Skipped(_)) => Rendered(before)
  }

  /** The piece being written right now. */
  function InProgress(w: Writer): seq<Byte> {
    match w
    case Noticing(_, _, text, done) => if done <= |text| then text[..done] else text
    case Writing(record, text, done) => text + (if done <= |record.bytes| then record.bytes[..done] else record.bytes)
    case _ => []
  }

  predicate NoCut(trail: Trail) { trail.Begin? || (NoCut(trail.before) && !trail.item.Cut?) }

  /** One cut piece, a strict prefix of its notice and record, and nothing after it. */
  predicate CutAtEnd(trail: Trail) {
    && trail.Then?
    && if trail.item.Cut?
       then NoCut(trail.before) && trail.item.shown <= trail.item.text + trail.item.record.bytes
            && |trail.item.shown| < |trail.item.text + trail.item.record.bytes|
       else trail.item.Skipped? && CutAtEnd(trail.before)
  }

  function Wholes(trail: Trail): nat {
    if trail.Begin? then 0 else Wholes(trail.before) + if trail.item.Whole? then 1 else 0
  }

  function HeldRecords(w: Writer): seq<Record> { if Held(w).Item? then [Held(w).record] else [] }

  predicate Retired(w: Writer) { w.Draining? || w.Closing? || w.Closed? }

  /** Records leave in the order they were sent, each handled once. */
  predicate InOrder(s: State) {
    s.pipe.sent == Records(s.sink.trail) + HeldRecords(s.sink.writer) + RecordsIn(s.pipe.messages)
  }

  predicate SinkOk(k: Sink) {
    && k.bytes == Rendered(k.trail) + InProgress(k.writer)
    && (if k.failed then CutAtEnd(k.trail) && Retired(k.writer) else NoCut(k.trail))
    && (k.writer.Noticing? ==> k.writer.done <= |k.writer.text|)
    && (k.writer.Writing? ==> k.writer.done <= |k.writer.record.bytes|)
  }

  /** The first of the waiting records becomes the last of the taken ones. */
  lemma HandOver(taken: seq<Record>, messages: seq<Message>)
    requires messages != [] && messages[0].Item?
    ensures taken + RecordsIn(messages) == taken + [messages[0].record] + RecordsIn(messages[1..])
  {
  }

  lemma SkipOrder(s: State)
    requires InOrder(s) && s.pipe.messages != [] && Held(s.sink.writer).Stop?
    ensures InOrder(SkipHead(s))
  {
    var taken := Records(s.sink.trail);
    assert taken + HeldRecords(s.sink.writer) == taken;
    if s.pipe.messages[0].Item? {
      HandOver(taken, s.pipe.messages);
      assert taken + [s.pipe.messages[0].record] + [] == taken + [s.pipe.messages[0].record];
    }
  }

  lemma RecvOrder(s: State)
    requires InOrder(s) && s.pipe.messages != [] && Held(s.sink.writer).Stop?
    ensures InOrder(RecvOn(s))
  {
    var taken := Records(s.sink.trail);
    assert taken + HeldRecords(s.sink.writer) == taken;
    if s.pipe.messages[0].Item? { HandOver(taken, s.pipe.messages); }
  }

  /** The held record becomes the last handled one. */
  lemma SettleOrder(s: State, t: State, item: Handled)
    requires InOrder(s) && Held(s.sink.writer) == Item(item.record)
    requires t.sink.trail == Then(s.sink.trail, item) && Held(t.sink.writer).Stop? && t.pipe.messages == s.pipe.messages && t.pipe.sent == s.pipe.sent
    ensures InOrder(t)
  {
    assert Records(t.sink.trail) + [] == Records(s.sink.trail) + [item.record];
  }

  lemma SendOrder(s: State, p: nat)
    requires InOrder(s) && p in s.pool.producers
    ensures InOrder(SendOn(s, p))
  {
    var stage := s.pool.producers[p];
    RecordsAppend(s.pipe.messages, Item(Record(p, stage.bytes, stage.funding)));
  }

  /** Steps that leave the channel's content and the writer's record alone. */
  predicate Aside(step: Step) {
    !(step.Send? || step.SendStop? || step.Recv? || step.Drain? || step.DropLeftover? || step.Received? || step.WriteDone? || step.WriteError?)
  }

  lemma AsideOrder(l: Limits, s: State, step: Step)
    requires Enabled(l, s, step) && Aside(step)
    ensures var t := Apply(l, s, step);
            && t.pipe.messages == s.pipe.messages && t.pipe.sent == s.pipe.sent
            && t.sink.trail == s.sink.trail && HeldRecords(t.sink.writer) == HeldRecords(s.sink.writer)
  {
  }

  lemma OrderStep(l: Limits, s: State, step: Step)
    requires InOrder(s) && Enabled(l, s, step)
    ensures InOrder(Apply(l, s, step))
  {
    if Aside(step) {
      AsideOrder(l, s, step);
    } else {
      match step
      case Send(p) => SendOrder(s, p);
      case SendStop => RecordsAppend(s.pipe.messages, Stop);
      case Recv => RecvOrder(s);
      case Drain => SkipOrder(s);
      case DropLeftover => SkipOrder(s);
      case Received(text) => if s.shutdown { SettleOrder(s, ReceivedOn(s, text), Skipped(s.sink.writer.record)); }
      case WriteDone =>
        if s.sink.writer.Writing? { SettleOrder(s, WriteDoneOn(s), Whole(s.sink.writer.record, s.sink.writer.text)); }
      case WriteError => SettleOrder(s, WriteErrorOn(s), WriteErrorOn(s).sink.trail.item);
    }
  }

  /** Steps that change neither the sink nor what the writer is writing. */
  predicate SinkAside(step: Step) { !step.Received? && !step.Write? && !step.WriteDone? && !step.WriteError? && !step.Drain? && !step.DropLeftover? }

  lemma AsideSink(l: Limits, s: State, step: Step)
    requires SinkOk(s.sink) && Enabled(l, s, step) && SinkAside(step)
    ensures var t := Apply(l, s, step);
            && t.sink == s.sink.(writer := t.sink.writer)
            && InProgress(t.sink.writer) == InProgress(s.sink.writer)
            && (Retired(s.sink.writer) ==> Retired(t.sink.writer))
            && (t.sink.writer == s.sink.writer || !(t.sink.writer.Noticing? || t.sink.writer.Writing?))
  {
  }

  lemma SinkStep(l: Limits, s: State, step: Step)
    requires SinkOk(s.sink) && Enabled(l, s, step)
    ensures SinkOk(Apply(l, s, step).sink)
  {
    if SinkAside(step) {
      AsideSink(l, s, step);
    } else {
      match step
      case Received(text) => ReceivedSink(s, text);
      case Write(n) => WriteSink(s, n);
      case WriteDone => WriteDoneSink(s);
      case WriteError => WriteErrorSink(s);
      case Drain => SkipSink(s);
      case DropLeftover => SkipSink(s);
    }
  }

  lemma SkipSink(s: State)
    requires SinkOk(s.sink) && s.pipe.messages != []
    ensures SinkOk(SkipHead(s).sink)
  {
  }

  lemma ReceivedSink(s: State, text: seq<Byte>)
    requires SinkOk(s.sink) && s.sink.writer.Taken?
    ensures SinkOk(ReceivedOn(s, text).sink)
  {
    assert text[..0] == [] && [] + s.sink.writer.record.bytes[..0] == [];
  }

  lemma Longer(bytes: seq<Byte>, done: nat, n: nat)
    requires done + n <= |bytes|
    ensures bytes[..done] + bytes[done..done + n] == bytes[..done + n]
  {
  }

  lemma Join(a: seq<Byte>, b: seq<Byte>, c: seq<Byte>)
    ensures (a + b) + c == a + (b + c)
  {
  }

  lemma WriteSink(s: State, n: nat)
    requires SinkOk(s.sink) && 1 <= n <= Remaining(s.sink.writer)
    ensures SinkOk(WriteOn(s, n).sink)
  {
    var w := s.sink.writer;
    if w.Noticing? {
      Longer(w.text, w.done, n);
      Join(Rendered(s.sink.trail), w.text[..w.done], w.text[w.done..w.done + n]);
    } else {
      var bytes := w.record.bytes;
      Longer(bytes, w.done, n);
      Join(w.text, bytes[..w.done], bytes[w.done..w.done + n]);
      Join(Rendered(s.sink.trail), InProgress(w), bytes[w.done..w.done + n]);
    }
  }

  lemma WriteDoneSink(s: State)
    requires SinkOk(s.sink) && (s.sink.writer.Noticing? || s.sink.writer.Writing?) && Remaining(s.sink.writer) == 0
    ensures SinkOk(WriteDoneOn(s).sink)
  {
    var w := s.sink.writer;
    if w.Noticing? {
      assert w.text[..w.done] == w.text == w.text + w.record.bytes[..0];
    } else {
      assert w.record.bytes[..w.done] == w.record.bytes;
      assert Rendered(s.sink.trail) + (w.text + w.record.bytes) == Rendered(s.sink.trail) + w.text + w.record.bytes;
    }
  }

  lemma WriteErrorSink(s: State)
    requires SinkOk(s.sink) && Remaining(s.sink.writer) > 0
    ensures SinkOk(WriteErrorOn(s).sink)
  {
    var w := s.sink.writer;
    assert InProgress(w) <= w.text + w.record.bytes;
  }

  // ---------- Whole runs ----------

  ghost predicate Inv(l: Limits, s: State) { Conserved(l, s) && InOrder(s) && SinkOk(s.sink) }

  ghost predicate Execution(l: Limits, steps: seq<Step>, states: seq<State>) {
    && |states| == |steps| + 1 && states[0] == Initial
    && forall i :: 0 <= i < |steps| ==> Enabled(l, states[i], steps[i]) && states[i + 1] == Apply(l, states[i], steps[i])
  }

  lemma StepKeeps(l: Limits, s: State, step: Step)
    requires Inv(l, s) && Enabled(l, s, step)
    ensures Inv(l, Apply(l, s, step))
  {
    StepConserves(l, s, step);
    OrderStep(l, s, step);
    SinkStep(l, s, step);
  }

  lemma {:induction false} RunConserves(l: Limits, steps: seq<Step>, states: seq<State>, k: nat)
    requires Execution(l, steps, states) && k < |states|
    ensures Inv(l, states[k])
  {
    if k > 0 {
      RunConserves(l, steps, states, k - 1);
      StepKeeps(l, states[k - 1], steps[k - 1]);
    }
  }

  /** Nothing in flight: every formatted record settled once, every formatted byte was
      written or counted as discarded, every sent record was handled in order, and
      only reservations being dropped are still funded. */
  lemma QuietBooks(l: Limits, steps: seq<Step>, states: seq<State>, k: nat)
    requires Execution(l, steps, states) && k < |states|
    requires var s := states[k]; s.pool.producers == map[] && s.pipe.messages == [] && Held(s.sink.writer).Stop?
    ensures var s := states[k];
            && s.work.records == s.counters.written + s.counters.partial + s.counters.encodedDrops
            && s.work.bytes == s.counters.writtenBytes - s.counters.noticeBytes + s.counters.discardedBytes
            && s.counters.admitted == |s.pipe.sent| && s.pipe.sent == Records(s.sink.trail)
            && s.sink.bytes == Rendered(s.sink.trail)
            && s.pool.formatting == 0 && s.pipe.queued == 0 && s.pool.funded == AddUp(s.pool.dropping)
  {
    RunConserves(l, steps, states, k);
  }

  /** The sink is always the handled records' notices and bytes in channel order with
      at most one cut piece, which is the last, and then what is being written. */
  lemma SinkInChannelOrder(l: Limits, steps: seq<Step>, states: seq<State>, k: nat)
    requires Execution(l, steps, states) && k < |states|
    ensures var s := states[k];
            && s.sink.bytes == Rendered(s.sink.trail) + InProgress(s.sink.writer)
            && Records(s.sink.trail) <= s.pipe.sent
            && (NoCut(s.sink.trail) || (CutAtEnd(s.sink.trail) && InProgress(s.sink.writer) == []))
  {
    RunConserves(l, steps, states, k);
  }

  // ---------- The channel has a bounded population ----------

  ghost predicate Covered(l: Limits, s: State) {
    && (forall p :: p in s.pool.producers && s.pool.producers[p].tag != Accepted ==>
          |s.pool.producers[p].bytes| + l.envelope <= s.pool.producers[p].funding)
    && (forall p :: p in s.pool.producers && InFormat(s.pool.producers[p]) == 1 ==>
          s.pool.producers[p].funding == l.recordBytes + l.envelope && |s.pool.producers[p].bytes| <= l.recordBytes)
    && (forall i :: 0 <= i < |s.pipe.messages| ==> MessageCovered(l, s.pipe.messages[i]))
  }

  predicate MessageCovered(l: Limits, m: Message) { m.Item? ==> |m.record.bytes| + l.envelope <= m.record.funding }

  lemma CoveredByFormatter(l: Limits, s: State, step: Step)
    requires Covered(l, s) && Enabled(l, s, step) && Early(step)
    ensures Covered(l, Apply(l, s, step))
  {
  }

  lemma CoveredByRetain(l: Limits, s: State, step: Step)
    requires Covered(l, s) && Enabled(l, s, step) && step.Retain?
    ensures Covered(l, Apply(l, s, step))
  {
  }

  lemma CoveredBySender(l: Limits, s: State, step: Step)
    requires Covered(l, s) && Enabled(l, s, step) && Late(step)
    ensures Covered(l, Apply(l, s, step))
  {
  }

  lemma CoveredByWriter(l: Limits, s: State, step: Step)
    requires Covered(l, s) && Enabled(l, s, step) && Actor(step).None?
    ensures Covered(l, Apply(l, s, step))
  {
    StepTouches(l, s, step, 0);
  }

  lemma CoveredStep(l: Limits, s: State, step: Step)
    requires Covered(l, s) && Enabled(l, s, step)
    ensures Covered(l, Apply(l, s, step))
  {
    if Early(step) {
      CoveredByFormatter(l, s, step);
    } else if step.Retain? {
      CoveredByRetain(l, s, step);
    } else if Late(step) {
      CoveredBySender(l, s, step);
    } else {
      CoveredByWriter(l, s, step);
    }
  }

  lemma {:induction false} CoveredRun(l: Limits, steps: seq<Step>, states: seq<State>, k: nat)
    requires Execution(l, steps, states) && k < |states|
    ensures Covered(l, states[k])
  {
    if k > 0 {
      CoveredRun(l, steps, states, k - 1);
      CoveredStep(l, states[k - 1], steps[k - 1]);
    }
  }

  lemma {:induction false} EnvelopesFunded(l: Limits, messages: seq<Message>)
    requires forall i :: 0 <= i < |messages| ==> MessageCovered(l, messages[i])
    ensures Sum(messages, MessageRecords) * l.envelope + Sum(messages, MessageBytes) <= Sum(messages, MessageFunds)
  {
    if messages != [] {
      assert MessageCovered(l, messages[0]);
      EnvelopesFunded(l, messages[1..]);
    }
  }

  /** The unbounded channel is bounded: even empty records cannot pile up, because
      each one's envelope and bytes are funded out of one budget. */
  lemma QueueIsBounded(l: Limits, steps: seq<Step>, states: seq<State>, k: nat)
    requires Execution(l, steps, states) && k < |states|
    ensures var m := states[k].pipe.messages;
            Sum(m, MessageRecords) * l.envelope + Sum(m, MessageBytes) <= states[k].pool.funded <= l.queueBytes
  {
    RunConserves(l, steps, states, k);
    CoveredRun(l, steps, states, k);
    EnvelopesFunded(l, states[k].pipe.messages);
  }

  // ---------- What a 64-bit counter shows ----------

  const U64_MAX: nat := 0xFFFF_FFFF_FFFF_FFFF

  datatype Counter = Counter(value: nat, saturated: bool)

  /** The counter is exact until its flag is raised, which is raised exactly when the
      true total no longer fits. */
  predicate Shows(c: Counter, total: nat) {
    (c.saturated <==> total > U64_MAX) && c.value == if total > U64_MAX then U64_MAX else total
  }

  /** One addition: whatever total the counter showed, it now shows that much more. */
  method AddSaturating(c: Counter, amount: nat) returns (d: Counter)
    requires c.value <= U64_MAX && amount <= U64_MAX
    ensures d == Added(c, amount)
    ensures forall total: nat :: Shows(c, total) ==> Shows(d, total + amount)
    ensures c.value <= d.value <= U64_MAX && (c.saturated ==> d.saturated)
  {
    d := c.(value := if c.value + amount > U64_MAX then U64_MAX else c.value + amount);
    if c.value + amount > U64_MAX {
      d := d.(saturated := true);
    }
  }

  function Added(c: Counter, amount: nat): Counter {
    if c.value + amount > U64_MAX then Counter(U64_MAX, true) else Counter(c.value + amount, c.saturated)
  }

  function AddedAll(amounts: seq<nat>): Counter {
    if amounts == [] then Counter(0, false)
    else Added(AddedAll(amounts[..|amounts| - 1]), amounts[|amounts| - 1])
  }

  /** From zero on, a counter always shows the sum of what was added. */
  lemma {:induction false} CounterShows(amounts: seq<nat>)
    ensures Shows(AddedAll(amounts), AddUp(amounts))
  {
    if amounts != [] {
      var front, last := amounts[..|amounts| - 1], amounts[|amounts| - 1];
      CounterShows(front);
      assert amounts == front + [last];
      AddUpJoin(front, [last]);
    }
  }

  // ---------- The source's own functions ----------

  lemma ReserveKeeps(l: Limits, s: State, p: nat)
    requires p !in s.pool.used && s.pool.funded + l.recordBytes + l.envelope <= l.queueBytes
    ensures Enabled(l, s, Reserve(p)) && Apply(l, s, Reserve(p)) == ReserveOn(l, s, p)
    ensures Inv(l, s) && Covered(l, s) ==> Inv(l, ReserveOn(l, s, p)) && Covered(l, ReserveOn(l, s, p))
  {
    if Inv(l, s) && Covered(l, s) {
      StepKeeps(l, s, Reserve(p));
      CoveredStep(l, s, Reserve(p));
    }
  }

  /** `State::reserve` for one record's worst case: granted exactly if it fits beside all
      that is funded, in which case it is a step of the machine and the books still balance. */
  method ReserveRecord(l: Limits, s: State, p: nat) returns (t: State, ok: bool)
    requires p !in s.pool.used
    ensures ok <==> s.pool.funded + l.recordBytes + l.envelope <= l.queueBytes
    ensures t == if ok then ReserveOn(l, s, p) else s
    ensures ok ==> Enabled(l, s, Reserve(p)) && t == Apply(l, s, Reserve(p))
    ensures Inv(l, s) && Covered(l, s) ==> Inv(l, t) && Covered(l, t)
  {
    var need := l.recordBytes + l.envelope;
    if s.pool.funded + need > l.queueBytes {
      return s, false;
    }
    ReserveKeeps(l, s, p);
    var pool := s.pool.(funded := s.pool.funded + need, used := s.pool.used + {p});
    pool := pool.(formatting := pool.formatting + 1, producers := pool.producers[p := Stage(Formatting, [], need)]);
    t, ok := s.(pool := pool), true;
  }

  /** `Reservation::retain_actual` and what `record` does with its answer. */
  method RetainActual(l: Limits, s: State, p: nat, capacity: nat) returns (t: State, ok: bool)
    requires Enabled(l, s, Retain(p, capacity))
    ensures t == RetainOn(l, s, p, capacity)
    ensures ok == (p in t.pool.producers)
  {
    var stage, bytes := s.pool.producers[p], capacity + l.envelope;
    var funded := s.pool.funded;
    if bytes <= stage.funding {
      funded := funded - (stage.funding - bytes);
      ok := true;
    } else {
      ok := funded + (bytes - stage.funding) <= l.queueBytes;
      if ok {
        funded := funded + (bytes - stage.funding);
      }
    }
    if ok {
      t := s.(pool := s.pool.(funded := funded, formatting := s.pool.formatting - 1,
                              producers := s.pool.producers[p := Stage(Encoded, stage.bytes, bytes)]));
    } else {
      t := s.(counters := s.counters.(encodedDrops := s.counters.encodedDrops + 1,
                                      discardedBytes := s.counters.discardedBytes + |stage.bytes|));
      t := t.(pool := s.pool.(producers := s.pool.producers - {p}, formatting := s.pool.formatting - 1,
                              dropping := s.pool.dropping + [stage.funding]));
    }
  }

  datatype Outcome = Written | Broken | Blocked

  /** `write_all` over `CountedSink::write`: each entry of `accepts` is what one call of
      the file took, 0 a hard failure; running out of entries is a sink that blocks. */
  method WriteAll(s: State, accepts: seq<nat>) returns (t: State, outcome: Outcome)
    requires s.sink.writer.Writing? && s.sink.writer.done == 0
    ensures t.sink.writer.Writing?
    ensures t == s.(sink := t.sink, counters := t.counters)
    ensures t.sink.writer == Writing(s.sink.writer.record, s.sink.writer.text, t.sink.writer.done) && t.sink.writer.done <= |s.sink.writer.record.bytes|
    ensures t.sink.bytes == s.sink.bytes + s.sink.writer.record.bytes[..t.sink.writer.done]
    ensures t.counters == s.counters.(writtenBytes := s.counters.writtenBytes + t.sink.writer.done)
    ensures outcome == Written <==> t.sink.writer.done == |s.sink.writer.record.bytes|
  {
    t := s;
    var i, bytes := 0, s.sink.writer.record.bytes;
    assert bytes[..0] == [];
    while t.sink.writer.done < |bytes|
      invariant t == s.(sink := t.sink, counters := t.counters) && t.sink == s.sink.(writer := t.sink.writer, bytes := t.sink.bytes)
      invariant t.sink.writer.Writing? && t.sink.writer == Writing(s.sink.writer.record, s.sink.writer.text, t.sink.writer.done)
      invariant t.sink.writer.done <= |bytes| && i <= |accepts|
      invariant t.sink.bytes == s.sink.bytes + bytes[..t.sink.writer.done]
      invariant t.counters == s.counters.(writtenBytes := s.counters.writtenBytes + t.sink.writer.done)
      decreases |bytes| - t.sink.writer.done
    {
      if i == |accepts| {
        return t, Blocked;
      }
      var n := if accepts[i] <= |bytes| - t.sink.writer.done then accepts[i] else |bytes| - t.sink.writer.done;
      if n == 0 {
        return t, Broken;
      }
      Longer(bytes, t.sink.writer.done, n);
      Join(s.sink.bytes, bytes[..t.sink.writer.done], bytes[t.sink.writer.done..t.sink.writer.done + n]);
      t := WriteOn(t, n);
      i := i + 1;
    }
    outcome := Written;
  }

  /** The final drain: every waiting record is received and discarded. */
  method DrainAll(s: State) returns (t: State)
    ensures t.pipe == s.pipe.(messages := [], queued := s.pipe.queued - Sum(s.pipe.messages, MessageRecords))
    ensures t.counters == s.counters.(encodedDrops := s.counters.encodedDrops + Sum(s.pipe.messages, MessageRecords),
                                      discardedBytes := s.counters.discardedBytes + Sum(s.pipe.messages, MessageBytes))
    ensures AddUp(t.pool.dropping) == AddUp(s.pool.dropping) + Sum(s.pipe.messages, MessageFunds)
    ensures t.sink.bytes == s.sink.bytes && Records(t.sink.trail) == Records(s.sink.trail) + RecordsIn(s.pipe.messages)
  {
    t := s;
    while t.pipe.messages != []
      invariant t.pipe.sent == s.pipe.sent && t.pipe.open == s.pipe.open && t.sink.bytes == s.sink.bytes
      invariant t.pipe.queued == s.pipe.queued - Sum(s.pipe.messages, MessageRecords) + Sum(t.pipe.messages, MessageRecords)
      invariant t.counters == s.counters.(encodedDrops := t.counters.encodedDrops, discardedBytes := t.counters.discardedBytes)
      invariant t.counters.encodedDrops + Sum(t.pipe.messages, MessageRecords) == s.counters.encodedDrops + Sum(s.pipe.messages, MessageRecords)
      invariant t.counters.discardedBytes + Sum(t.pipe.messages, MessageBytes) == s.counters.discardedBytes + Sum(s.pipe.messages, MessageBytes)
      invariant AddUp(t.pool.dropping) + Sum(t.pipe.messages, MessageFunds) == AddUp(s.pool.dropping) + Sum(s.pipe.messages, MessageFunds)
      invariant Records(t.sink.trail) + RecordsIn(t.pipe.messages) == Records(s.sink.trail) + RecordsIn(s.pipe.messages)
      decreases |t.pipe.messages|
    {
      var message := t.pipe.messages[0];
      if message.Item? {
        AddUpJoin(t.pool.dropping, [message.record.funding]);
        HandOver(Records(t.sink.trail), t.pipe.messages);
      }
      t := SkipHead(t);
    }
  }
}
