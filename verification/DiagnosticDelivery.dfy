/** What the diagnostic sink must write (crates/ctxmux-daemon/src/diagnostics.rs:97-220, 262-334,
  447-568). */
module DiagnosticDelivery {
  import opened Wrappers
  import opened MapSums
  import opened Diagnostics
  import Runs

  // The equations of Diagnostics also balance for a writer that drops everything.  Here is
  // what may be dropped, and why, and that the rest is written.

  // ---------- A healthy daemon ----------

  /** Every handled record was written whole. */
  predicate AllWhole(trail: Trail) { trail.Begin? || (AllWhole(trail.before) && trail.item.Whole?) }

  /** No shutdown was asked for, no write has failed, and the writer is at work. */
  predicate Healthy(s: State) {
    && !s.shutdown && !s.stopDue && !s.sink.failed && s.pipe.open && AllWhole(s.sink.trail)
    && !Retired(s.sink.writer)
    && forall i :: 0 <= i < |s.pipe.messages| ==> s.pipe.messages[i].Item?
  }

  predicate Disturbs(step: Step) { step.SetShutdown? || step.WriteError? }

  lemma ProducersStayHealthy(l: Limits, s: State, step: Step)
    requires Healthy(s) && Enabled(l, s, step) && Actor(step).Some?
    ensures Healthy(Apply(l, s, step))
  {
  }

  lemma WriterStaysHealthy(l: Limits, s: State, step: Step)
    requires Healthy(s) && Enabled(l, s, step) && Actor(step).None? && !Disturbs(step)
    ensures Healthy(Apply(l, s, step))
  {
  }

  /** In every run without a shutdown and without a failed write no record is skipped or
      cut: everything taken from the channel is written whole, in the order it was sent, but
      for the one record the writer holds. */
  lemma {:induction false} HealthyWritesEverything(l: Limits, steps: seq<Step>, states: seq<State>, k: nat)
    requires Execution(l, steps, states) && k < |states| && forall i :: 0 <= i < k ==> !Disturbs(steps[i])
    ensures Healthy(states[k]) && AllWhole(states[k].sink.trail)
  {
    if k > 0 {
      HealthyWritesEverything(l, steps, states, k - 1);
      if Actor(steps[k - 1]).Some? { ProducersStayHealthy(l, states[k - 1], steps[k - 1]); }
      else { WriterStaysHealthy(l, states[k - 1], steps[k - 1]); }
    }
  }

  // ---------- What the writer does with a record ----------

  /** In every run, with a record in hand: after a shutdown request it is discarded and
      counted; otherwise it is written next, after a notice exactly if the loss counters
      differ from those last reported. */
  lemma RecordInHand(l: Limits, steps: seq<Step>, states: seq<State>, k: nat)
    requires Execution(l, steps, states) && k < |steps| && steps[k].Received?
    ensures states[k].sink.writer.Taken?
    ensures var s, t, c := states[k], states[k + 1], states[k].counters;
            var record := s.sink.writer.record;
            var losses := Losses(c.beforeEncoding, c.encodedDrops, c.discardedBytes, c.oversized, c.formatFailed, c.writeFailed);
            if s.shutdown then
              && t.sink.writer == Idle && t.sink.trail == Then(s.sink.trail, Skipped(record)) && t.sink.bytes == s.sink.bytes
              && t.counters == c.(encodedDrops := c.encodedDrops + 1, discardedBytes := c.discardedBytes + |record.bytes|)
            else
              && t.counters == c
              && t.sink == s.sink.(writer := if losses != s.sink.reported then Noticing(record, losses, steps[k].text, 0) else Writing(record, [], 0))
  {
  }

  /** In every run a finished notice is what was last reported and is followed by its record;
      a finished record is whole in the trail, counted as written, and its reservation is on
      its way back. */
  lemma PieceFinished(l: Limits, steps: seq<Step>, states: seq<State>, k: nat)
    requires Execution(l, steps, states) && k < |steps| && steps[k].WriteDone?
    ensures var s, t := states[k], states[k + 1];
            match s.sink.writer {
              case Noticing(record, losses, text, done) =>
                done == |text| && t == s.(sink := s.sink.(reported := losses, writer := Writing(record, text, 0)))
              case Writing(record, text, done) =>
                && done == |record.bytes| && t.counters == s.counters.(written := s.counters.written + 1)
                && t.sink == s.sink.(writer := Idle, trail := Then(s.sink.trail, Whole(record, text)))
                && t.pool == s.pool.(dropping := s.pool.dropping + [record.funding])
              case _ => false
            }
  {
    RunConserves(l, steps, states, k);
  }

  /** In every run a write appends exactly the next bytes of the piece in hand. */
  lemma WriteAppends(l: Limits, steps: seq<Step>, states: seq<State>, k: nat)
    requires Execution(l, steps, states) && k < |steps| && steps[k].Write?
    ensures var s, t, n := states[k], states[k + 1], steps[k].n;
            match s.sink.writer {
              case Noticing(record, losses, text, done) =>
                && done + n <= |text| && t.sink.bytes == s.sink.bytes + text[done..done + n]
                && t.sink.writer == Noticing(record, losses, text, done + n)
                && t.counters == s.counters.(writtenBytes := s.counters.writtenBytes + n, noticeBytes := s.counters.noticeBytes + n)
              case Writing(record, text, done) =>
                && done + n <= |record.bytes| && t.sink.bytes == s.sink.bytes + record.bytes[done..done + n]
                && t.sink.writer == Writing(record, text, done + n)
                && t.counters == s.counters.(writtenBytes := s.counters.writtenBytes + n)
              case _ => false
            }
  {
  }

  /** In every run a failed write retires the sink for good: the record in hand is counted as
      partly written exactly if some byte of its own reached the sink. */
  lemma WriteFails(l: Limits, steps: seq<Step>, states: seq<State>, k: nat)
    requires Execution(l, steps, states) && k < |steps| && steps[k].WriteError?
    ensures states[k].sink.writer.Noticing? || states[k].sink.writer.Writing?
    ensures var s, t, w, c := states[k], states[k + 1], states[k].sink.writer, states[k].counters;
            var shown := if w.Writing? then w.done else 0;
            && t.sink.failed && t.sink.writer == Draining && t.sink.bytes == s.sink.bytes
            && t.counters == c.(writeFailed := c.writeFailed + 1,
                                partial := c.partial + (if shown > 0 then 1 else 0),
                                encodedDrops := c.encodedDrops + (if shown > 0 then 0 else 1),
                                discardedBytes := c.discardedBytes + |w.record.bytes| - shown)
  {
    RunConserves(l, steps, states, k);
  }

  /** In every run a shutdown request is remembered and owes the channel one stop message;
      the writer that takes it, or whose sink failed, discards what is left, in order, until
      the channel is empty, and then closes it. */
  lemma ShutdownDrains(l: Limits, steps: seq<Step>, states: seq<State>, k: nat)
    requires Execution(l, steps, states) && k < |steps|
    ensures var s, t := states[k], states[k + 1];
            && (steps[k].SetShutdown? ==> t == s.(shutdown := true, stopDue := true))
            && (steps[k].SendStop? ==> !t.stopDue && t.pipe.messages == s.pipe.messages + if s.pipe.open then [Stop] else [])
            && (steps[k].Recv? ==>
                  && s.pipe.messages != [] && t.pipe.messages == s.pipe.messages[1..]
                  && t.sink.writer == match s.pipe.messages[0] { case Stop => Draining case Item(record) => Taken(record) })
            && (steps[k].Drain? || steps[k].DropLeftover? ==>
                  && s.pipe.messages != [] && t.pipe.messages == s.pipe.messages[1..] && t.sink.bytes == s.sink.bytes && t.sink.writer == s.sink.writer
                  && (s.pipe.messages[0].Item? ==>
                        && t.pool.dropping == s.pool.dropping + [s.pipe.messages[0].record.funding]
                        && t.sink.trail == Then(s.sink.trail, Skipped(s.pipe.messages[0].record))))
            && (steps[k].DrainEmpty? ==> s.pipe.messages == [] && t.sink.writer == Closing)
            && (steps[k].CloseReceiver? ==> !t.pipe.open && t.sink.writer == Closed)
  {
  }

  // ---------- What a producer's record goes through ----------

  /** In every run formatting appends exactly, up to the record limit; past it the record is
      given up, counted, and never encoded. */
  lemma FormattingAppends(l: Limits, steps: seq<Step>, states: seq<State>, k: nat)
    requires Execution(l, steps, states) && k < |steps| && steps[k].Format?
    ensures steps[k].p in states[k].pool.producers
    ensures var s, t, p := states[k], states[k + 1], steps[k].p;
            var stage := s.pool.producers[p];
            if |stage.bytes| + |steps[k].value| <= l.recordBytes then
              && t.pool.producers == s.pool.producers[p := stage.(bytes := stage.bytes + steps[k].value)] && t.counters == s.counters
            else
              && t.pool.producers == s.pool.producers - {p} && t.pool.dropping == s.pool.dropping + [stage.funding]
              && t.counters == s.counters.(oversized := s.counters.oversized + 1, discardedBytes := s.counters.discardedBytes + |stage.bytes|)
  {
  }

  /** In every run an encoded record keeps exactly the funding of its buffer whenever that is
      no more than it has, or fits beside all that is funded; otherwise, and only then, it is
      dropped and counted. */
  lemma RetainedIfFunded(l: Limits, steps: seq<Step>, states: seq<State>, k: nat)
    requires Execution(l, steps, states) && k < |steps| && steps[k].Retain?
    ensures steps[k].p in states[k].pool.producers
    ensures var s, t, p := states[k], states[k + 1], steps[k].p;
            var stage, need := s.pool.producers[p], steps[k].capacity + l.envelope;
            if need <= stage.funding || s.pool.funded - stage.funding + need <= l.queueBytes then
              && t.pool.producers == s.pool.producers[p := Stage(Encoded, stage.bytes, need)] && t.counters == s.counters
              && t.pool.funded == s.pool.funded - stage.funding + need && t.pool.dropping == s.pool.dropping
            else
              && t.pool.producers == s.pool.producers - {p} && t.pool.dropping == s.pool.dropping + [stage.funding]
              && t.counters == s.counters.(encodedDrops := s.counters.encodedDrops + 1, discardedBytes := s.counters.discardedBytes + |stage.bytes|)
  {
  }

  /** In every run a counted record enters an open channel, as it was encoded, behind all
      that is there; only a channel whose receiver is gone gives it back. */
  lemma SentIfOpen(l: Limits, steps: seq<Step>, states: seq<State>, k: nat)
    requires Execution(l, steps, states) && k < |steps| && steps[k].Send?
    ensures steps[k].p in states[k].pool.producers
    ensures var s, t, p := states[k], states[k + 1], steps[k].p;
            var record := Record(p, s.pool.producers[p].bytes, s.pool.producers[p].funding);
            && t.counters == s.counters
            && if s.pipe.open then t.pipe.messages == s.pipe.messages + [Item(record)] && t.pipe.sent == s.pipe.sent + [record]
               else t.pipe == s.pipe && t.pool.producers == s.pool.producers[p := s.pool.producers[p].(tag := Bounced)]
  {
  }

  // ---------- The bytes of a record ----------

  /** Everything these steps formatted into the record of this producer. */
  function FormattedBy(steps: seq<Step>, p: nat): seq<Byte> {
    if steps == [] then []
    else
      var last := steps[|steps| - 1];
      FormattedBy(steps[..|steps| - 1], p) + if last.Format? && last.p == p then last.value else []
  }

  /** This producer's record carries this text, and is not formatted any more once sent. */
  ghost predicate Carries(s: State, p: nat, text: seq<Byte>) {
    && (p in s.pool.producers ==> p in s.pool.used)
    && (p !in s.pool.used ==> text == [])
    && (p in s.pool.producers && !s.pool.producers[p].tag.Accepted? ==> s.pool.producers[p].bytes == text)
    && forall i :: 0 <= i < |s.pipe.sent| && s.pipe.sent[i].id == p ==>
         s.pipe.sent[i].bytes == text && p in s.pool.used && (p in s.pool.producers ==> s.pool.producers[p].tag.Accepted?)
  }

  function Added(step: Step, p: nat): seq<Byte> { if step.Format? && step.p == p then step.value else [] }

  lemma FormatCarries(l: Limits, s: State, step: Step, p: nat, text: seq<Byte>)
    requires Carries(s, p, text) && Enabled(l, s, step) && step.Format?
    ensures Carries(Apply(l, s, step), p, text + Added(step, p))
  {
  }

  lemma SendCarries(l: Limits, s: State, step: Step, p: nat, text: seq<Byte>)
    requires Carries(s, p, text) && Enabled(l, s, step) && step.Send?
    ensures Carries(Apply(l, s, step), p, text)
  {
  }

  lemma ProducerCarries(l: Limits, s: State, step: Step, p: nat, text: seq<Byte>)
    requires Carries(s, p, text) && Enabled(l, s, step) && Actor(step).Some? && !step.Format? && !step.Send?
    ensures Carries(Apply(l, s, step), p, text)
  {
  }

  lemma WriterCarries(l: Limits, s: State, step: Step, p: nat, text: seq<Byte>)
    requires Carries(s, p, text) && Enabled(l, s, step) && Actor(step).None?
    ensures Carries(Apply(l, s, step), p, text)
  {
    StepTouches(l, s, step, p);
  }

  lemma StepCarries(l: Limits, s: State, step: Step, p: nat, text: seq<Byte>)
    requires Carries(s, p, text) && Enabled(l, s, step)
    ensures Carries(Apply(l, s, step), p, text + Added(step, p))
  {
    if step.Format? {
      FormatCarries(l, s, step, p, text);
    } else {
      assert text + Added(step, p) == text;
      if step.Send? { SendCarries(l, s, step, p, text); }
      else if Actor(step).Some? { ProducerCarries(l, s, step, p, text); }
      else { WriterCarries(l, s, step, p, text); }
    }
  }

  lemma {:induction false} RunCarries(l: Limits, steps: seq<Step>, states: seq<State>, k: nat, p: nat)
    requires Execution(l, steps, states) && k < |states|
    ensures Carries(states[k], p, FormattedBy(steps[..k], p))
  {
    if k > 0 {
      RunCarries(l, steps, states, k - 1, p);
      StepCarries(l, states[k - 1], steps[k - 1], p, FormattedBy(steps[..k - 1], p));
      assert steps[..k][..k - 1] == steps[..k - 1];
    }
  }

  /** In every run each record put in the channel carries exactly what its producer
      formatted, in order, and no producer sends two. */
  lemma RecordsCarryTheirText(l: Limits, steps: seq<Step>, states: seq<State>, k: nat, i: nat)
    requires Execution(l, steps, states) && k < |states| && i < |states[k].pipe.sent|
    ensures states[k].pipe.sent[i].bytes == FormattedBy(steps[..k], states[k].pipe.sent[i].id)
  {
    RunCarries(l, steps, states, k, states[k].pipe.sent[i].id);
  }

  // ---------- Nothing dropped without a reason ----------

  /** This step drops an encoded record for want of funds. */
  predicate Unfunded(l: Limits, s: State, step: Step) {
    && step.Retain? && step.p in s.pool.producers
    && var funding := s.pool.producers[step.p].funding;
       step.capacity + l.envelope > funding && s.pool.funded - funding + step.capacity + l.envelope > l.queueBytes
  }

  ghost function UnfundedIn(l: Limits, steps: seq<Step>, states: seq<State>, k: nat): nat
    requires k <= |steps| && |states| == |steps| + 1
  {
    if k == 0 then 0 else UnfundedIn(l, steps, states, k - 1) + if Unfunded(l, states[k - 1], steps[k - 1]) then 1 else 0
  }

  lemma ProducersDrop(l: Limits, s: State, step: Step)
    requires Healthy(s) && Enabled(l, s, step) && Actor(step).Some? && !step.DropBounced?
    ensures Apply(l, s, step).counters.encodedDrops == s.counters.encodedDrops + if Unfunded(l, s, step) then 1 else 0
    ensures Apply(l, s, step).counters.partial == s.counters.partial
  {
  }

  lemma WriterDrops(l: Limits, s: State, step: Step)
    requires Healthy(s) && Enabled(l, s, step) && Actor(step).None? && !Disturbs(step)
    ensures Apply(l, s, step).counters.encodedDrops == s.counters.encodedDrops
    ensures Apply(l, s, step).counters.partial == s.counters.partial
  {
  }

  /** No record ever bounced off a channel that is still open. */
  predicate NoneBounced(s: State) { forall p :: p in s.pool.producers ==> !s.pool.producers[p].tag.Bounced? }

  lemma NoneBounces(l: Limits, s: State, step: Step)
    requires Healthy(s) && NoneBounced(s) && Enabled(l, s, step)
    ensures NoneBounced(Apply(l, s, step)) && !step.DropBounced?
  {
  }

  /** In every run without a shutdown and without a failed write the encoded drops are
      exactly the records whose buffers could not be funded: every other encoded record is
      written, is in the channel, or is still its producer's. */
  lemma {:induction false} OnlyUnfundedAreDropped(l: Limits, steps: seq<Step>, states: seq<State>, k: nat)
    requires Execution(l, steps, states) && k < |states| && forall i :: 0 <= i < k ==> !Disturbs(steps[i])
    ensures states[k].counters.encodedDrops == UnfundedIn(l, steps, states, k) && states[k].counters.partial == 0 && NoneBounced(states[k])
  {
    if k > 0 {
      OnlyUnfundedAreDropped(l, steps, states, k - 1);
      HealthyWritesEverything(l, steps, states, k - 1);
      NoneBounces(l, states[k - 1], steps[k - 1]);
      if Actor(steps[k - 1]).Some? { ProducersDrop(l, states[k - 1], steps[k - 1]); }
      else { WriterDrops(l, states[k - 1], steps[k - 1]); }
    }
  }

  /** So once a healthy daemon is quiet, everything that was formatted and could be funded
      has been written whole, in the order it was sent. */
  lemma QuietHasWrittenAll(l: Limits, steps: seq<Step>, states: seq<State>, k: nat)
    requires Execution(l, steps, states) && k < |states| && forall i :: 0 <= i < k ==> !Disturbs(steps[i])
    requires var s := states[k]; s.pool.producers == map[] && s.pipe.messages == [] && Held(s.sink.writer).Stop?
    ensures var s := states[k];
            && s.work.records == s.counters.written + UnfundedIn(l, steps, states, k)
            && AllWhole(s.sink.trail) && Records(s.sink.trail) == s.pipe.sent && s.sink.bytes == Rendered(s.sink.trail)
  {
    QuietBooks(l, steps, states, k);
    OnlyUnfundedAreDropped(l, steps, states, k);
    HealthyWritesEverything(l, steps, states, k);
  }

  // ---------- The counters ----------

  /** This piece of text does not fit the record's bytes any more. */
  predicate Overflows(l: Limits, s: State, step: Step) {
    step.Format? && step.p in s.pool.producers && |s.pool.producers[step.p].bytes| + |step.value| > l.recordBytes
  }

  predicate ProducersCount(l: Limits, s: State, step: Step, d: Counters) {
    var c := s.counters;
    && d.beforeEncoding == c.beforeEncoding + (if step.Refuse? then 1 else 0)
    && d.formatFailed == c.formatFailed + (if step.FormatError? then 1 else 0)
    && d.oversized == c.oversized + (if Overflows(l, s, step) then 1 else 0)
    && d.admitted == c.admitted + (if step.Admit? then 1 else 0)
  }

  predicate WriterCounts(s: State, step: Step, d: Counters) {
    var c, w := s.counters, s.sink.writer;
    && d.written == c.written + (if step.WriteDone? && w.Writing? then 1 else 0)
    && d.writtenBytes == c.writtenBytes + (if step.Write? then step.n else 0)
    && d.noticeBytes == c.noticeBytes + (if step.Write? && w.Noticing? then step.n else 0)
    && d.writeFailed == c.writeFailed + (if step.WriteError? then 1 else 0)
    && d.partial == c.partial + (if step.WriteError? && w.Writing? && w.done > 0 then 1 else 0)
  }

  predicate OfWriter(step: Step) {
    step.Recv? || step.Received? || step.Write? || step.WriteDone? || step.WriteError? || step.Drain? || step.DropLeftover?
  }

  lemma WriterSteps(l: Limits, s: State, step: Step)
    requires Enabled(l, s, step) && OfWriter(step)
    ensures ProducersCount(l, s, step, Apply(l, s, step).counters) && WriterCounts(s, step, Apply(l, s, step).counters)
  {
  }

  lemma ProducerSteps(l: Limits, s: State, step: Step)
    requires Enabled(l, s, step) && !OfWriter(step)
    ensures ProducersCount(l, s, step, Apply(l, s, step).counters) && WriterCounts(s, step, Apply(l, s, step).counters)
  {
  }

  /** In every run: each counter rises with its own steps, by what they did, and with no
      others. */
  lemma CountersMove(l: Limits, steps: seq<Step>, states: seq<State>, k: nat)
    requires Execution(l, steps, states) && k < |steps|
    ensures ProducersCount(l, states[k], steps[k], states[k + 1].counters) && WriterCounts(states[k], steps[k], states[k + 1].counters)
  {
    if OfWriter(steps[k]) { WriterSteps(l, states[k], steps[k]); } else { ProducerSteps(l, states[k], steps[k]); }
  }
}
