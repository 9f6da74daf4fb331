/** Whole runs of the command ledger: any interleaving of the issuing task with the
  reader task, and any daemon, conforming or not.

  `detach` takes the attachment by value, so it starts only while no command is
  between registration and queueing.  Frames leave the writer in queueing order.
 */
module CommandRuns {
  import opened Wrappers
  import opened CommandLedgers

  datatype Run = Run(
    state: State,
    issuing: Option<nat>,        // registered, not yet queued or cancelled
    wire: seq<nat>,              // ids queued for the daemon, in order
    frontier: nat,               // least id neither queued nor passed over
    skipped: set<nat>,           // ids whose cancellation found them settled already
    admitted: set<nat>,          // every channel ever registered
    answered: multiset<nat>,     // channels that got the daemon's answer
    cancelled: multiset<nat>,    // channels dropped with their unsent command
    unknown: multiset<nat>)      // channels told Unknown

  const Start := Run(State(1, None, false, None, map[], 0, 0), None, [], 1, {}, {}, multiset{}, multiset{}, multiset{})

  datatype Step =
    | Register(kind: Kind, waiter: nat, lost: bool)
    | Send
    | Cancel
    | Resolve(id: nat, outcome: Outcome)
    | BeginDetach
    | FinishDetach
    | Terminate

  predicate Enabled(r: Run, step: Step) {
    match step
    case Register(_, waiter, _) => r.issuing.None? && waiter !in r.admitted
    case Send => r.issuing.Some?
    case Cancel => r.issuing.Some?
    case BeginDetach => r.issuing.None?
    case _ => true
  }

  function Channels(pending: map<nat, Pending>): set<nat> {
    set id | id in pending :: pending[id].waiter
  }

  function Apply(r: Run, step: Step): Run
    requires Enabled(r, step)
  {
    match step
    case Register(kind, waiter, lost) =>
      if Refuses(r.state, kind, lost).Some? then r
      else r.(state := Registered(r.state, kind, waiter), issuing := Some(r.state.nextId), admitted := r.admitted + {waiter})
    case Send => r.(issuing := None, wire := r.wire + [r.issuing.value], frontier := r.issuing.value + 1)
    case Cancel =>
      var id := r.issuing.value;
      if id in r.state.pending then
        r.(issuing := None, state := RolledBack(Released(r.state, id), id),
           cancelled := r.cancelled + multiset{r.state.pending[id].waiter})
      else r.(issuing := None, frontier := id + 1, skipped := r.skipped + {id})
    case Resolve(id, outcome) =>
      if Resolves(r.state, id, outcome) then
        r.(state := Released(r.state, id), answered := r.answered + multiset{r.state.pending[id].waiter})
      else r
    case BeginDetach =>
      if r.state.end.Some? then r else r.(state := r.state.(fence := Some(Detaching), detaching := true))
    case FinishDetach =>
      if MayFinishDetach(r.state) then r.(state := r.state.(end := Some(Detached), fence := Some(Closed))) else r
    case Terminate =>
      if r.state.end.Some? then r
      else r.(state := Ended(r.state), unknown := r.unknown + multiset(Channels(r.state.pending)))
  }

  ghost predicate Execution(steps: seq<Step>, runs: seq<Run>) {
    && |runs| == |steps| + 1
    && runs[0] == Start
    && forall i :: 0 <= i < |steps| ==> Enabled(runs[i], steps[i]) && runs[i + 1] == Apply(runs[i], steps[i])
  }

  // ---------- Ids ----------

  predicate Rising(ids: seq<nat>) {
    forall i, j :: 0 <= i < j < |ids| ==> ids[i] < ids[j]
  }

  /** Where the next id comes from, while the attachment is open. */
  predicate NextIdOk(s: State, issuing: Option<nat>, frontier: nat) {
    match issuing
    case Some(id) =>
      && 1 <= frontier == id <= U32_MAX
      && (s.end.None? ==>
            && s.nextId == (if id == U32_MAX then U32_MAX else id + 1)
            && (s.fence == Some(CommandIdsExhausted) <==> id == U32_MAX))
    case None =>
      && 1 <= frontier
      && (s.end.None? ==>
            || (s.nextId == frontier && s.fence != Some(CommandIdsExhausted))
            || (frontier == U32_MAX + 1 && s.fence.Some?))
  }

  /** Every id below the frontier went on the wire or was passed over, never both. */
  ghost predicate TraceOk(wire: seq<nat>, skipped: set<nat>, frontier: nat) {
    && Rising(wire)
    && (forall i :: 0 <= i < |wire| ==> 1 <= wire[i] < frontier && wire[i] !in skipped)
    && (forall id :: id in skipped ==> 1 <= id < frontier)
    && (forall id :: 1 <= id < frontier && id !in skipped ==> id in wire)
  }

  ghost predicate IdsOk(r: Run) {
    && LedgerOk(r.state)
    && NextIdOk(r.state, r.issuing, r.frontier)
    && TraceOk(r.wire, r.skipped, r.frontier)
    && (forall id :: id in r.state.pending ==> id in r.wire || r.issuing == Some(id))
  }

  lemma IdsStep(r: Run, step: Step)
    requires IdsOk(r) && Enabled(r, step)
    ensures IdsOk(Apply(r, step))
  {
    match step
    case Register(kind, waiter, lost) =>
      if Refuses(r.state, kind, lost).None? {
        assert r.state.nextId !in r.state.pending;
        RegisterKeepsLedger(r.state, kind, waiter, lost);
      }
    case Cancel => CancelKeepsIds(r);
    case Resolve(id, outcome) => if Resolves(r.state, id, outcome) { ReleaseKeepsLedger(r.state, id); }
    case Send =>
      SentTrace(r.wire, r.skipped, r.frontier);
      assert forall id :: id in r.wire ==> id in r.wire + [r.frontier];
    case BeginDetach =>
    case FinishDetach =>
    case Terminate => EndKeepsLedger(r.state);
  }

  lemma CancelKeepsIds(r: Run)
    requires IdsOk(r) && r.issuing.Some?
    ensures IdsOk(Apply(r, Cancel))
  {
    var id := r.issuing.value;
    if id in r.state.pending {
      CancelKeepsLedger(r.state, id);
    } else {
      SkippedTrace(r.wire, r.skipped, r.frontier);
    }
  }

  lemma CancelKeepsLedger(s: State, id: nat)
    requires LedgerOk(s) && id in s.pending && 1 <= id <= U32_MAX
    ensures LedgerOk(RolledBack(Released(s, id), id))
  {
    assert s.end.None?;
    ReleaseKeepsLedger(s, id);
  }

  lemma SkippedTrace(wire: seq<nat>, skipped: set<nat>, frontier: nat)
    requires TraceOk(wire, skipped, frontier) && 1 <= frontier
    ensures TraceOk(wire, skipped + {frontier}, frontier + 1)
  {
  }

  lemma EndKeepsLedger(s: State)
    requires LedgerOk(s)
    ensures LedgerOk(Ended(s))
  {
  }

  lemma SentTrace(wire: seq<nat>, skipped: set<nat>, frontier: nat)
    requires TraceOk(wire, skipped, frontier) && 1 <= frontier
    ensures TraceOk(wire + [frontier], skipped, frontier + 1)
  {
    var longer := wire + [frontier];
    assert longer[|wire|] == frontier;
    forall id | 1 <= id <= frontier && id !in skipped ensures id in longer {
      if id < frontier { assert id in wire; }
    }
  }

  lemma {:induction false} IdsInvariant(steps: seq<Step>, runs: seq<Run>, k: nat)
    requires Execution(steps, runs) && k < |runs|
    ensures IdsOk(runs[k])
  {
    if k > 0 {
      IdsInvariant(steps, runs, k - 1);
      IdsStep(runs[k - 1], steps[k - 1]);
    }
  }

  /** The ids on the wire are exactly 1, 2, 3, ... unless some id below the last one
      was passed over; this holds of every run, cancellations and the exhaustion of
      the 32-bit ids included. */
  lemma WireIsContiguousIff(steps: seq<Step>, runs: seq<Run>, k: nat)
    requires Execution(steps, runs) && k < |runs|
    ensures var r := runs[k];
            (forall i :: 0 <= i < |r.wire| ==> r.wire[i] == i + 1)
              <==> (forall id :: id in r.skipped && r.wire != [] ==> id > r.wire[|r.wire| - 1])
  {
    IdsInvariant(steps, runs, k);
    var r := runs[k];
    if forall i :: 0 <= i < |r.wire| ==> r.wire[i] == i + 1 {
      forall id | id in r.skipped && r.wire != [] ensures id > r.wire[|r.wire| - 1] {
        if id <= |r.wire| { ContiguousHas(r.wire, id); }
      }
    }
    if forall id :: id in r.skipped && r.wire != [] ==> id > r.wire[|r.wire| - 1] {
      forall i | 0 <= i < |r.wire| ensures r.wire[i] == i + 1 {
        NoneSkipped(r, i);
      }
    }
  }

  lemma ContiguousHas(wire: seq<nat>, id: nat)
    requires forall i :: 0 <= i < |wire| ==> wire[i] == i + 1
    requires 1 <= id <= |wire|
    ensures id in wire
  {
    assert wire[id - 1] == id;
  }

  lemma {:induction false} NoneSkipped(r: Run, i: nat)
    requires IdsOk(r) && i < |r.wire|
    requires forall id :: id in r.skipped ==> id > r.wire[|r.wire| - 1]
    ensures r.wire[i] == i + 1
  {
    if i > 0 { NoneSkipped(r, i - 1); }
    assert r.wire[i] <= i + 1 || i + 1 in r.wire;
  }

  /** A daemon only answers commands it has received. */
  predicate AnswersQueued(r: Run, step: Step) {
    step.Resolve? ==> step.id in r.wire
  }

  ghost predicate ConformingDaemon(steps: seq<Step>, runs: seq<Run>)
    requires Execution(steps, runs)
  {
    forall i :: 0 <= i < |steps| ==> AnswersQueued(runs[i], steps[i])
  }

  /** An open attachment has passed over no id, and no send follows a passed-over id. */
  ghost predicate NothingSkipped(r: Run) {
    && (r.state.end.None? ==> r.skipped == {} && (r.issuing.Some? ==> r.issuing.value in r.state.pending))
    && (r.skipped != {} ==> r.issuing.None?)
    && (forall id, j :: id in r.skipped && 0 <= j < |r.wire| ==> id > r.wire[j])
  }

  lemma NothingSkippedStep(r: Run, step: Step)
    requires IdsOk(r) && NothingSkipped(r) && Enabled(r, step) && AnswersQueued(r, step)
    ensures NothingSkipped(Apply(r, step))
  {
    if step == Send {
      assert forall j :: 0 <= j < |r.wire| ==> Apply(r, Send).wire[j] == r.wire[j];
    }
    if step.Resolve? && r.issuing.Some? {
      assert step.id != r.issuing.value;
    }
  }

  lemma {:induction false} ConformingSkipsNothing(steps: seq<Step>, runs: seq<Run>, k: nat)
    requires Execution(steps, runs) && ConformingDaemon(steps, runs) && k < |runs|
    ensures IdsOk(runs[k]) && NothingSkipped(runs[k])
  {
    IdsInvariant(steps, runs, k);
    if k > 0 {
      ConformingSkipsNothing(steps, runs, k - 1);
      assert AnswersQueued(runs[k - 1], steps[k - 1]);
      NothingSkippedStep(runs[k - 1], steps[k - 1]);
    }
  }

  /** The wire carries exactly 1, 2, 3, ... and the daemon accepts every id. */
  lemma ConformingWire(steps: seq<Step>, runs: seq<Run>, k: nat)
    requires Execution(steps, runs) && ConformingDaemon(steps, runs) && k < |runs|
    ensures forall i :: 0 <= i < |runs[k].wire| ==> runs[k].wire[i] == i + 1
    ensures AcceptsAll(None, runs[k].wire)
  {
    ConformingSkipsNothing(steps, runs, k);
    WireIsContiguousIff(steps, runs, k);
    AcceptsAllIff(None, runs[k].wire);
  }

  /** Exactly when cancelling gives the id back: the daemon has not yet answered a
      command it never received. */
  lemma CancelRestoresIff(r: Run)
    requires IdsOk(r) && r.issuing.Some? && r.state.end.None?
    ensures var t := Apply(r, Cancel);
            (t.frontier == r.issuing.value && t.state.nextId == r.issuing.value && t.state.fence != Some(CommandIdsExhausted))
              <==> r.issuing.value in r.state.pending
  {
    IdsStep(r, Cancel);
  }

  /** One registered stop, answered before it is queued, then cancelled. */
  lemma EarlyAnswer(r: Run, waiter: nat) returns (registered: Run, answered: Run, after: Run)
    requires r.state == State(1, None, false, None, map[], 0, 0) && r.issuing.None? && waiter !in r.admitted
    ensures registered == Apply(r, Register(Stop, waiter, false))
    ensures answered == Apply(registered, Resolve(1, Accepted(StopDone(0))))
    ensures Enabled(answered, Cancel) && after == Apply(answered, Cancel)
    ensures after.state == State(2, None, false, None, map[], 0, 0) && after.issuing.None?
    ensures after.wire == r.wire && after.admitted == r.admitted + {waiter}
  {
    registered := Apply(r, Register(Stop, waiter, false));
    assert registered.state.pending == map[1 := Pending(Stop, waiter)];
    answered := Apply(registered, Resolve(1, Accepted(StopDone(0))));
    assert answered.state.pending == map[];
    after := Apply(answered, Cancel);
  }

  lemma Extend(steps: seq<Step>, runs: seq<Run>, step: Step, next: Run)
    requires Execution(steps, runs) && Enabled(runs[|steps|], step) && next == Apply(runs[|steps|], step)
    ensures Execution(steps + [step], runs + [next])
  {
    var longer := runs + [next];
    assert forall i :: 0 <= i <= |steps| ==> longer[i] == runs[i];
    assert forall i :: 0 <= i < |steps| ==> (steps + [step])[i] == steps[i];
  }

  /** A daemon that answers a command before it is sent, and an issuer that then
      cancels it: the first id on the wire is 2, which the daemon refuses. */
  lemma EarlyAnswerSkipsId() returns (steps: seq<Step>, runs: seq<Run>)
    ensures Execution(steps, runs)
    ensures runs[|steps|].wire == [2] && !AcceptsAll(None, runs[|steps|].wire)
  {
    var r1, r2, r3 := EarlyAnswer(Start, 0);
    var r4, r5 := SecondStop(r3);
    steps, runs := [], [Start];
    Extend(steps, runs, Register(Stop, 0, false), r1);
    steps, runs := steps + [Register(Stop, 0, false)], runs + [r1];
    Extend(steps, runs, Resolve(1, Accepted(StopDone(0))), r2);
    steps, runs := steps + [Resolve(1, Accepted(StopDone(0)))], runs + [r2];
    Extend(steps, runs, Cancel, r3);
    steps, runs := steps + [Cancel], runs + [r3];
    Extend(steps, runs, Register(Stop, 1, false), r4);
    steps, runs := steps + [Register(Stop, 1, false)], runs + [r4];
    Extend(steps, runs, Send, r5);
    steps, runs := steps + [Send], runs + [r5];
    AcceptsAllIff(None, r5.wire);
  }

  lemma SecondStop(r: Run) returns (registered: Run, sent: Run)
    requires r.state.nextId == 2 && r.state.end.None? && r.state.fence.None? && r.issuing.None?
    requires r.state.pending == map[] && r.state.pendingInputs == 0 && r.state.pendingInputBytes == 0
    requires r.wire == [] && r.admitted == {0}
    ensures Enabled(r, Register(Stop, 1, false)) && registered == Apply(r, Register(Stop, 1, false))
    ensures Enabled(registered, Send) && sent == Apply(registered, Send)
    ensures sent.wire == [2]
  {
    registered := Apply(r, Register(Stop, 1, false));
    sent := Apply(registered, Send);
  }

  // ---------- The daemon's view ----------

  /** The daemon's check of one id against the last one it accepted.  A refusal forgets
      nothing; and checking ids one by one accepts exactly the sequences that start at 1
      and rise strictly. */
  method ObserveCommandId(last: Option<nat>, id: nat) returns (ok: bool, now: Option<nat>)
    ensures ok == Observes(last, id) && now == if ok then Some(id) else last
    ensures forall ids :: AcceptsAll(last, [id] + ids) <==> ok && AcceptsAll(now, ids)
    ensures last.None? ==> (ok <==> id == 1)
    ensures last.None? && ok ==> forall ids {:trigger AcceptsAll(now, ids)} :: AcceptsAll(now, ids) ==> Rising([id] + ids)
  {
    forall ids ensures AcceptsAll(last, [id] + ids) <==> Observes(last, id) && AcceptsAll(Some(id), ids) {
      assert ([id] + ids)[1..] == ids;
    }
    forall ids | Observes(last, id) && AcceptsAll(Some(id), ids) ensures Rising([id] + ids) {
      assert AcceptsAll(last, [id] + ids);
      AcceptsAllIff(last, [id] + ids);
    }
    var valid;
    match last {
      case None => valid := id == 1;
      case Some(before) => valid := id > before;
    }
    if !valid { return false, last; }
    return true, Some(id);
  }

  predicate Observes(last: Option<nat>, id: nat) {
    if last.Some? then id > last.value else id == 1
  }

  predicate AcceptsAll(last: Option<nat>, ids: seq<nat>)
    decreases |ids|
  {
    ids == [] || (Observes(last, ids[0]) && AcceptsAll(Some(ids[0]), ids[1..]))
  }

  /** What the daemon accepts: a strictly rising sequence that starts at 1. */
  lemma {:induction false} AcceptsAllIff(last: Option<nat>, ids: seq<nat>)
    ensures AcceptsAll(last, ids) <==> (ids == [] || (Observes(last, ids[0]) && Rising(ids)))
    decreases |ids|
  {
    if ids != [] {
      var rest := ids[1..];
      AcceptsAllIff(Some(ids[0]), rest);
      if Rising(ids) {
        assert forall i, j :: 0 <= i < j < |rest| ==> rest[i] == ids[i + 1] && rest[j] == ids[j + 1];
      }
      if rest != [] && ids[0] < rest[0] && Rising(rest) {
        forall i, j | 0 <= i < j < |ids| ensures ids[i] < ids[j] {
          assert ids[j] == rest[j - 1];
          if i > 0 { assert ids[i] == rest[i - 1]; } else if j > 1 { assert rest[0] < rest[j - 1]; }
        }
      }
    }
  }

  /** In any run, conforming or not, the daemon accepts every id on the wire unless
      the very first id was passed over. */
  lemma DaemonAcceptsIff(steps: seq<Step>, runs: seq<Run>, k: nat)
    requires Execution(steps, runs) && k < |runs| && runs[k].wire != []
    ensures AcceptsAll(None, runs[k].wire) <==> 1 !in runs[k].skipped
  {
    IdsInvariant(steps, runs, k);
    AcceptsAllIff(None, runs[k].wire);
    var r := runs[k];
    if 1 !in r.skipped {
      assert 1 < r.frontier;
      assert 1 in r.wire;
    }
  }

  // ---------- Every command is settled exactly once ----------

  ghost predicate Waits(pending: map<nat, Pending>, waiter: nat) {
    exists id :: id in pending && pending[id].waiter == waiter
  }

  ghost function Settlements(r: Run, waiter: nat): nat {
    r.answered[waiter] + r.cancelled[waiter] + r.unknown[waiter]
  }

  /** Each registered command is pending or settled, once; nothing else ever is. */
  ghost predicate SettledOnce(r: Run) {
    && (forall i, j :: i in r.state.pending && j in r.state.pending && r.state.pending[i].waiter == r.state.pending[j].waiter ==> i == j)
    && (forall w :: Settlements(r, w) + (if Waits(r.state.pending, w) then 1 else 0) == (if w in r.admitted then 1 else 0))
    && (r.state.end.None? ==> r.unknown == multiset{})
  }

  lemma SettleStep(r: Run, step: Step)
    requires IdsOk(r) && SettledOnce(r) && Enabled(r, step)
    ensures SettledOnce(Apply(r, step))
  {
    match step
    case Register(kind, waiter, lost) =>
      if Refuses(r.state, kind, lost).None? { RegisterSettles(r, step); }
    case Cancel =>
      if r.issuing.value in r.state.pending { ReleaseSettles(r, Apply(r, step), r.issuing.value); }
    case Resolve(id, outcome) =>
      if Resolves(r.state, id, outcome) { ReleaseSettles(r, Apply(r, step), id); }
    case Terminate =>
      if r.state.end.None? { TerminateSettles(r); }
    case _ =>
  }

  lemma RegisterSettles(r: Run, step: Step)
    requires IdsOk(r) && SettledOnce(r) && Enabled(r, step)
    requires step.Register? && Refuses(r.state, step.kind, step.lost).None?
    ensures SettledOnce(Apply(r, step))
  {
    var t := Apply(r, step);
    var id := r.state.nextId;
    assert id !in r.state.pending;
    assert Settlements(r, step.waiter) == 0 && !Waits(r.state.pending, step.waiter);
    assert t.state.pending[id].waiter == step.waiter;
    forall w | w != step.waiter ensures Waits(t.state.pending, w) <==> Waits(r.state.pending, w) {
      if Waits(r.state.pending, w) {
        var i :| i in r.state.pending && r.state.pending[i].waiter == w;
        assert i in t.state.pending && t.state.pending[i].waiter == w;
      }
    }
  }

  lemma ReleaseSettles(r: Run, t: Run, id: nat)
    requires SettledOnce(r) && id in r.state.pending
    requires t.state.pending == r.state.pending - {id} && t.admitted == r.admitted
    requires t.state.end == r.state.end && t.unknown == r.unknown
    requires forall w :: Settlements(t, w) == Settlements(r, w) + (if w == r.state.pending[id].waiter then 1 else 0)
    ensures SettledOnce(t)
  {
    var mine := r.state.pending[id].waiter;
    assert Waits(r.state.pending, mine);
    forall w | w != mine ensures Waits(t.state.pending, w) <==> Waits(r.state.pending, w) {
      if Waits(r.state.pending, w) {
        var i :| i in r.state.pending && r.state.pending[i].waiter == w;
        assert i in t.state.pending && t.state.pending[i].waiter == w;
      }
    }
  }

  lemma TerminateSettles(r: Run)
    requires SettledOnce(r) && r.state.end.None?
    ensures SettledOnce(Apply(r, Terminate))
  {
    var t := Apply(r, Terminate);
    forall w ensures Settlements(t, w) == Settlements(r, w) + (if Waits(r.state.pending, w) then 1 else 0) {
      assert w in Channels(r.state.pending) <==> Waits(r.state.pending, w);
    }
  }

  lemma {:induction false} SettledInvariant(steps: seq<Step>, runs: seq<Run>, k: nat)
    requires Execution(steps, runs) && k < |runs|
    ensures IdsOk(runs[k]) && SettledOnce(runs[k])
  {
    IdsInvariant(steps, runs, k);
    if k > 0 {
      SettledInvariant(steps, runs, k - 1);
      SettleStep(runs[k - 1], steps[k - 1]);
    }
  }

  /** After the end of an attachment every registered command has exactly one
      settlement, for ever. */
  lemma EndSettlesEverything(steps: seq<Step>, runs: seq<Run>, k: nat, w: nat)
    requires Execution(steps, runs) && k < |runs| && runs[k].state.end.Some?
    ensures Settlements(runs[k], w) == if w in runs[k].admitted then 1 else 0
  {
    SettledInvariant(steps, runs, k);
    assert !Waits(runs[k].state.pending, w);
  }

  /** A detach acknowledged on an open attachment leaves no outcome unknown: every
      command was answered by the daemon or never sent. */
  lemma DetachIsClean(steps: seq<Step>, runs: seq<Run>, k: nat, w: nat)
    requires Execution(steps, runs) && k < |steps|
    requires steps[k] == FinishDetach && runs[k].state.end.None? && runs[k + 1].state.end == Some(Detached)
    ensures runs[k + 1].state.pending == map[]
    ensures w in runs[k + 1].admitted ==> runs[k + 1].answered[w] + runs[k + 1].cancelled[w] == 1
  {
    SettledInvariant(steps, runs, k + 1);
    SettledInvariant(steps, runs, k);
    assert runs[k + 1] == Apply(runs[k], steps[k]);
    assert !Waits(runs[k + 1].state.pending, w);
  }
}
