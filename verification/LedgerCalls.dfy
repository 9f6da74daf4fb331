/** What each call of the command ledger does, in every run (crates/ctxmux-client/src/attachment.rs:
  260-307, 431-639). */
module LedgerCalls {
  import opened Wrappers
  import opened MapSums
  import opened CommandLedgers
  import opened CommandRuns

  // ---------- The three windows, counted from the commands themselves ----------

  ghost function InputIds(pending: map<nat, Pending>): set<nat> { set id | id in pending && pending[id].kind.Input? }

  function RequestBytes(kind: Kind): nat {
    match kind
    case Input(expected) => expected
    case _ => 0
  }

  ghost function RequestedBytes(pending: map<nat, Pending>): nat { Total(pending, (p: Pending) => RequestBytes(p.kind)) }

  lemma {:induction false} InputsAreCounted(pending: map<nat, Pending>)
    ensures Total(pending, InputsOf) == |InputIds(pending)|
    decreases |pending|
  {
    if pending != map[] {
      var k := Pick(pending);
      InputsAreCounted(pending - {k});
      if pending[k].kind.Input? {
        assert InputIds(pending) == InputIds(pending - {k}) + {k};
      } else {
        assert InputIds(pending) == InputIds(pending - {k});
      }
    } else {
      assert InputIds(pending) == {};
    }
  }

  lemma BytesAreSummed(pending: map<nat, Pending>)
    ensures Total(pending, BytesOf) == RequestedBytes(pending)
  {
    TotalAgree(pending, BytesOf, pending, (p: Pending) => RequestBytes(p.kind));
  }

  /** In every run the two counters are the number of pending inputs and the sum of their
      bytes, within the 64, 32 and 1 MiB windows. */
  lemma WindowsHold(steps: seq<Step>, runs: seq<Run>, k: nat)
    requires Execution(steps, runs) && k < |runs|
    ensures var s := runs[k].state;
            && s.pendingInputs == |InputIds(s.pending)| <= 32
            && s.pendingInputBytes == RequestedBytes(s.pending) <= 1024 * 1024
            && |s.pending| <= 64
  {
    IdsInvariant(steps, runs, k);
    InputsAreCounted(runs[k].state.pending);
    BytesAreSummed(runs[k].state.pending);
  }

  /** The attachment takes commands, and this one fits the windows. */
  ghost predicate Takes(s: State, kind: Kind, lost: bool) {
    && s.end.None? && s.fence.None? && !lost
    && |s.pending| < 64 && (kind.Input? ==> |InputIds(s.pending)| < 32)
    && RequestedBytes(s.pending) + RequestBytes(kind) <= 1024 * 1024
  }

  // ---------- Calls ----------

  /** In every run a command is registered exactly if the attachment is open and intact and
      the windows have room for it; it is pending under the next id, which the last id of
      all fences; and a refusal changes nothing. */
  lemma RegisteredIff(steps: seq<Step>, runs: seq<Run>, k: nat)
    requires Execution(steps, runs) && k < |steps| && steps[k].Register?
    ensures var r, t, kind, waiter := runs[k], runs[k + 1], steps[k].kind, steps[k].waiter;
            var id := r.state.nextId;
            if Takes(r.state, kind, steps[k].lost) then
              && id !in r.state.pending && t.state.pending == r.state.pending[id := Pending(kind, waiter)]
              && t.issuing == Some(id) && t.admitted == r.admitted + {waiter} && t.wire == r.wire && t.state.end == r.state.end
              && (if id == 0xFFFF_FFFF then t.state.nextId == id && t.state.fence == Some(CommandIdsExhausted)
                  else t.state.nextId == id + 1 && t.state.fence == None)
            else t == r
  {
    IdsInvariant(steps, runs, k);
    InputsAreCounted(runs[k].state.pending);
    BytesAreSummed(runs[k].state.pending);
    assert runs[k + 1] == Apply(runs[k], steps[k]);
  }

  /** Which refusal a ledger gives, in this order: closed, fenced, the view lost, and then
      the windows. */
  lemma RefusedFor(s: State, kind: Kind, lost: bool)
    requires LedgerOk(s)
    ensures Refuses(s, kind, lost).None? <==> Takes(s, kind, lost)
    ensures !Takes(s, kind, lost) ==>
              Refuses(s, kind, lost) == Some(
                if s.end.Some? then Unavailable(Closed)
                else if s.fence.Some? then Unavailable(s.fence.value)
                else if lost then Unavailable(ObservationUnavailable)
                else if |s.pending| == 64 then Backpressure(Commands)
                else if kind.Input? && |InputIds(s.pending)| == 32 then Backpressure(Inputs)
                else Backpressure(InputBytes))
  {
    InputsAreCounted(s.pending);
    BytesAreSummed(s.pending);
  }

  /** This outcome answers this very command: the receipt is of its kind and names its own
      size, signal or geometry; a failure confirms no more than was asked for, nothing if it
      says that nothing was applied, and backpressure means exactly that. */
  predicate Answers(kind: Kind, outcome: Outcome) {
    match outcome
    case Accepted(InputDone(written)) => kind.Input? && kind.expected == written
    case Accepted(ResizeDone(cols, rows)) => kind.Resize? && cols > 0 && rows > 0
    case Accepted(SignalDone(signal)) => kind.Signal? && kind.signal == signal
    case Accepted(StopDone(_)) => kind.Stop?
    case Rejected(failure) =>
      && (failure.backpressure ==> failure.notApplied)
      && match failure.confirmed
         case None => true
         case Some(bytes) => kind.Input? && bytes <= kind.expected && (failure.notApplied ==> bytes == 0)
  }

  /** In every run a result settles a command exactly if it names a pending one and answers
      it; then its own channel gets the answer, it is pending no more, and no other command
      is touched.  Any other result changes nothing. */
  lemma SettledIff(steps: seq<Step>, runs: seq<Run>, k: nat)
    requires Execution(steps, runs) && k < |steps| && steps[k].Resolve?
    ensures var r, t, id := runs[k], runs[k + 1], steps[k].id;
            if id in r.state.pending && Answers(r.state.pending[id].kind, steps[k].outcome) then
              && t.state.pending == r.state.pending - {id}
              && t.answered == r.answered + multiset{r.state.pending[id].waiter}
              && t.wire == r.wire && t.state.nextId == r.state.nextId && t.state.fence == r.state.fence && t.state.end == r.state.end
            else t == r
  {
    assert runs[k + 1] == Apply(runs[k], steps[k]);
  }

  /** Round trip: a command registered and then cancelled before it was sent leaves the
      ledger as it was, at the last id of all as well; only its channel is told. */
  lemma CancelUndoesRegister(r: Run, kind: Kind, waiter: nat)
    requires LedgerOk(r.state) && r.state.nextId !in r.state.pending && Takes(r.state, kind, false)
    requires Enabled(r, Register(kind, waiter, false))
    ensures Enabled(Apply(r, Register(kind, waiter, false)), Cancel)
    ensures var t := Apply(Apply(r, Register(kind, waiter, false)), Cancel);
            && t.state == r.state && t.issuing == None && t.wire == r.wire && t.frontier == r.frontier && t.skipped == r.skipped
            && t.cancelled == r.cancelled + multiset{waiter}
  {
    RefusedFor(r.state, kind, false);
    var u := Apply(r, Register(kind, waiter, false));
    assert u.state.pending - {r.state.nextId} == r.state.pending;
  }

  /** In every run: a sent command's id goes on the wire next; a cancelled one that is still
      pending is told so and gives its id back; one that was answered early only passes its
      id over. */
  lemma SentOrCancelled(steps: seq<Step>, runs: seq<Run>, k: nat)
    requires Execution(steps, runs) && k < |steps| && (steps[k].Send? || steps[k].Cancel?)
    ensures runs[k].issuing.Some?
    ensures var r, t, id := runs[k], runs[k + 1], runs[k].issuing.value;
            && t.issuing == None
            && (steps[k].Send? ==> t.wire == r.wire + [id] && t.state == r.state)
            && (steps[k].Cancel? ==> t.wire == r.wire)
            && (steps[k].Cancel? && id in r.state.pending ==>
                  && t.state.pending == r.state.pending - {id} && t.cancelled == r.cancelled + multiset{r.state.pending[id].waiter}
                  && (if id < 0xFFFF_FFFF then t.state.nextId == id && t.state.fence == r.state.fence
                      else t.state.fence == if r.state.fence == Some(CommandIdsExhausted) then None else r.state.fence))
            && (steps[k].Cancel? && id !in r.state.pending ==> t.state == r.state && t.skipped == r.skipped + {id})
  {
    IdsInvariant(steps, runs, k);
    assert runs[k + 1] == Apply(runs[k], steps[k]);
  }

  /** In every run: a detach fences an open attachment, and is acknowledged exactly once it
      was asked for and nothing is pending; the end of the transport tells every pending
      command's channel that its outcome is unknown, once. */
  lemma EndsAre(steps: seq<Step>, runs: seq<Run>, k: nat)
    requires Execution(steps, runs) && k < |steps|
    ensures var r, t := runs[k], runs[k + 1];
            && (steps[k].BeginDetach? ==> t == if r.state.end.Some? then r else r.(state := r.state.(fence := Some(Detaching), detaching := true)))
            && (steps[k].FinishDetach? ==>
                  t == if r.state.detaching && r.state.pending == map[] then r.(state := r.state.(end := Some(Detached), fence := Some(Closed))) else r)
            && (steps[k].Terminate? && r.state.end.Some? ==> t == r)
            && (steps[k].Terminate? && r.state.end.None? ==>
                  && t.state.end == Some(Terminated) && t.state.fence == Some(Closed) && t.state.pending == map[] && t.wire == r.wire
                  && forall w :: t.unknown[w] == r.unknown[w] + if Waits(r.state.pending, w) then 1 else 0)
  {
    assert runs[k + 1] == Apply(runs[k], steps[k]);
    if steps[k].Terminate? && runs[k].state.end.None? {
      forall w ensures w in Channels(runs[k].state.pending) <==> Waits(runs[k].state.pending, w) {}
    }
  }
}
