/** The client command ledger (crates/ctxmux-client/src/attachment.rs:260-307, 381-403,
  431-546, 588-639) and the daemon's check of the ids it receives
  (crates/ctxmux-daemon/src/attachment.rs:935-948). */
module CommandLedgers {
  import opened Wrappers
  import opened MapSums

  // Every method is one lock section.  The issuing task registers a command and then
  // either queues its frame or cancels it; the reader task resolves, acknowledges a
  // detach or terminates at any point in between.

  const U32_MAX: nat := 0xFFFF_FFFF
  const MAX_PENDING_COMMANDS: nat := 64
  const MAX_PENDING_INPUT_COMMANDS: nat := 32
  const MAX_PENDING_INPUT_BYTES: nat := 0x10_0000

  datatype Kind = Input(expected: nat) | Resize | Signal(signal: nat) | Stop

  datatype Receipt = InputDone(written: nat) | ResizeDone(cols: nat, rows: nat) | SignalDone(signal: nat) | StopDone(disposition: nat)

  datatype ControlFailure = ControlFailure(notApplied: bool, backpressure: bool, confirmed: Option<nat>)

  datatype Outcome = Accepted(receipt: Receipt) | Rejected(failure: ControlFailure)

  datatype Reason = Closed | CommandIdsExhausted | Detaching | ObservationUnavailable

  datatype Window = Commands | Inputs | InputBytes

  datatype Refusal = Unavailable(reason: Reason) | Backpressure(window: Window)

  datatype AttachmentEnd = Detached | Terminated

  /** A registered command; `waiter` is its own result channel. */
  datatype Pending = Pending(kind: Kind, waiter: nat)

  datatype State = State(
    nextId: nat,
    fence: Option<Reason>,
    detaching: bool,
    end: Option<AttachmentEnd>,
    pending: map<nat, Pending>,
    pendingInputs: int,
    pendingInputBytes: int)

  function KindBytes(kind: Kind): nat { if kind.Input? then kind.expected else 0 }

  function BytesOf(p: Pending): nat { KindBytes(p.kind) }

  function InputsOf(p: Pending): nat { if p.kind.Input? then 1 else 0 }

  /** The receipt answers this very command. */
  predicate Validates(kind: Kind, receipt: Receipt) {
    match kind
    case Input(expected) => receipt == InputDone(expected)
    case Resize => receipt.ResizeDone? && receipt.cols != 0 && receipt.rows != 0
    case Signal(signal) => receipt == SignalDone(signal)
    case Stop => receipt.StopDone?
  }

  predicate FailureOk(kind: Kind, failure: ControlFailure) {
    && !(failure.notApplied && failure.confirmed.Some? && failure.confirmed.value > 0)
    && (failure.backpressure ==> failure.notApplied)
    && (failure.confirmed.Some? ==> kind.Input? && failure.confirmed.value <= kind.expected)
  }

  predicate OutcomeOk(kind: Kind, outcome: Outcome) {
    match outcome
    case Accepted(receipt) => Validates(kind, receipt)
    case Rejected(failure) => FailureOk(kind, failure)
  }

  // ---------- The ledger's lock sections as functions ----------

  function Refuses(s: State, kind: Kind, lost: bool): Option<Refusal> {
    if s.end.Some? then Some(Unavailable(Closed))
    else if s.fence.Some? then Some(Unavailable(s.fence.value))
    else if lost then Some(Unavailable(ObservationUnavailable))
    else if |s.pending| == MAX_PENDING_COMMANDS then Some(Backpressure(Commands))
    else if kind.Input? && s.pendingInputs == MAX_PENDING_INPUT_COMMANDS then Some(Backpressure(Inputs))
    else if s.pendingInputBytes + KindBytes(kind) > MAX_PENDING_INPUT_BYTES then Some(Backpressure(InputBytes))
    else None
  }

  function Registered(s: State, kind: Kind, waiter: nat): State {
    s.(nextId := if s.nextId == U32_MAX then U32_MAX else s.nextId + 1,
       fence := if s.nextId == U32_MAX then Some(CommandIdsExhausted) else s.fence,
       pending := s.pending[s.nextId := Pending(kind, waiter)],
       pendingInputs := s.pendingInputs + InputsOf(Pending(kind, waiter)),
       pendingInputBytes := s.pendingInputBytes + KindBytes(kind))
  }

  function Released(s: State, id: nat): State
    requires id in s.pending
  {
    s.(pending := s.pending - {id},
       pendingInputs := s.pendingInputs - InputsOf(s.pending[id]),
       pendingInputBytes := s.pendingInputBytes - BytesOf(s.pending[id]))
  }

  function RolledBack(s: State, id: nat): State {
    if id == U32_MAX then (if s.fence == Some(CommandIdsExhausted) then s.(fence := None) else s)
    else s.(nextId := id)
  }

  predicate Resolves(s: State, id: nat, outcome: Outcome) {
    id in s.pending && OutcomeOk(s.pending[id].kind, outcome)
  }

  predicate MayFinishDetach(s: State) { s.detaching && s.pending == map[] }

  function Ended(s: State): State {
    if s.end.Some? then s
    else s.(end := Some(Terminated), fence := Some(Closed), pending := map[], pendingInputs := 0, pendingInputBytes := 0)
  }

  // ---------- What every lock section keeps ----------

  /** The counters are exact, the three windows hold, and an ended ledger is empty. */
  ghost predicate LedgerOk(s: State) {
    && 1 <= s.nextId <= U32_MAX
    && s.pendingInputs == Total(s.pending, InputsOf) <= MAX_PENDING_INPUT_COMMANDS
    && s.pendingInputBytes == Total(s.pending, BytesOf) <= MAX_PENDING_INPUT_BYTES
    && |s.pending| <= MAX_PENDING_COMMANDS
    && (s.end.Some? ==> s.pending == map[] && s.fence == Some(Closed))
  }

  lemma RegisterKeepsLedger(s: State, kind: Kind, waiter: nat, lost: bool)
    requires LedgerOk(s) && Refuses(s, kind, lost).None? && s.nextId !in s.pending
    ensures LedgerOk(Registered(s, kind, waiter))
  {
    TotalWith(s.pending, InputsOf, s.nextId, Pending(kind, waiter));
    TotalWith(s.pending, BytesOf, s.nextId, Pending(kind, waiter));
  }

  /** Releasing a command never takes a counter below zero. */
  lemma ReleaseKeepsLedger(s: State, id: nat)
    requires LedgerOk(s) && id in s.pending
    ensures LedgerOk(Released(s, id))
    ensures Released(s, id).pendingInputs >= 0 && Released(s, id).pendingInputBytes >= 0
  {
    TotalWithout(s.pending, InputsOf, id);
    TotalWithout(s.pending, BytesOf, id);
    assert |s.pending - {id}| <= |s.pending| by { assert (s.pending - {id}).Keys <= s.pending.Keys; SubsetSize((s.pending - {id}).Keys, s.pending.Keys); }
  }

  lemma {:induction false} SubsetSize(a: set<nat>, b: set<nat>)
    requires a <= b
    ensures |a| <= |b|
  {
    if a != {} {
      var x :| x in a;
      SubsetSize(a - {x}, b - {x});
    }
  }

  class Ledger {
    var state: State

    ghost predicate Valid()
      reads this
    {
      LedgerOk(state)
    }

    constructor ()
      ensures Valid() && state == State(1, None, false, None, map[], 0, 0)
    {
      state := State(1, None, false, None, map[], 0, 0);
    }

    /** `lost` is the inbox's observation_unavailable flag. */
    method RegisterCommand(kind: Kind, waiter: nat, lost: bool) returns (r: Result<nat, Refusal>)
      requires Valid() && state.nextId !in state.pending
      modifies this
      ensures Valid()
      ensures match Refuses(old(state), kind, lost)
              case Some(refusal) => r == Failure(refusal) && state == old(state)
              case None => r == Success(old(state.nextId)) && state == Registered(old(state), kind, waiter)
    {
      var inputBytes := KindBytes(kind);
      if state.end.Some? { return Failure(Unavailable(Closed)); }
      if state.fence.Some? { return Failure(Unavailable(state.fence.value)); }
      if lost { return Failure(Unavailable(ObservationUnavailable)); }
      if |state.pending| == MAX_PENDING_COMMANDS { return Failure(Backpressure(Commands)); }
      if kind.Input? && state.pendingInputs == MAX_PENDING_INPUT_COMMANDS { return Failure(Backpressure(Inputs)); }
      if state.pendingInputBytes + inputBytes > MAX_PENDING_INPUT_BYTES { return Failure(Backpressure(InputBytes)); }
      RegisterKeepsLedger(state, kind, waiter, lost);
      var id := state.nextId;
      if state.nextId == U32_MAX {
        state := state.(fence := Some(CommandIdsExhausted));
      } else {
        state := state.(nextId := state.nextId + 1);
      }
      if kind.Input? {
        state := state.(pendingInputs := state.pendingInputs + 1);
      }
      state := state.(pendingInputBytes := state.pendingInputBytes + inputBytes,
                      pending := state.pending[id := Pending(kind, waiter)]);
      r := Success(id);
    }

    /** Returns the channel that got the outcome; an error leaves the ledger alone. */
    method ResolveCommand(id: nat, outcome: Outcome) returns (waiter: Option<nat>)
      requires Valid()
      modifies this
      ensures Valid()
      ensures waiter.Some? == Resolves(old(state), id, outcome)
      ensures waiter.Some? ==> waiter.value == old(state).pending[id].waiter && state == Released(old(state), id)
      ensures waiter.None? ==> state == old(state)
    {
      if id !in state.pending { return None; }
      var pending := state.pending[id];
      match outcome {
        case Accepted(receipt) =>
          if !Validates(pending.kind, receipt) { return None; }
        case Rejected(failure) =>
          if failure.notApplied && failure.confirmed.Some? && failure.confirmed.value > 0 { return None; }
          if failure.backpressure && !failure.notApplied { return None; }
          if failure.confirmed.Some? && !(pending.kind.Input? && failure.confirmed.value <= pending.kind.expected) { return None; }
      }
      ReleaseCapacity(id);
      waiter := Some(pending.waiter);
    }

    method ReleaseCapacity(id: nat)
      requires Valid() && id in state.pending
      modifies this
      ensures Valid() && state == Released(old(state), id)
    {
      ReleaseKeepsLedger(state, id);
      var kind := state.pending[id].kind;
      state := state.(pending := state.pending - {id});
      if kind.Input? {
        state := state.(pendingInputs := state.pendingInputs - 1, pendingInputBytes := state.pendingInputBytes - KindBytes(kind));
      }
    }

    /** Give back the capacity, and the id, of a command that was never queued. */
    method CancelUnsent(id: nat)
      requires Valid() && 1 <= id <= U32_MAX
      requires id in state.pending && id < U32_MAX ==> state.nextId == id + 1
      modifies this
      ensures Valid()
      ensures state == if id in old(state).pending then RolledBack(Released(old(state), id), id) else old(state)
    {
      if id !in state.pending { return; }
      assert state.end.None?;
      ReleaseCapacity(id);
      if id == U32_MAX {
        if state.fence == Some(CommandIdsExhausted) {
          state := state.(fence := None);
        }
      } else {
        state := state.(nextId := id);
      }
    }

    method BeginDetach() returns (ok: bool)
      requires Valid()
      modifies this
      ensures Valid() && ok == old(state).end.None?
      ensures state == if ok then old(state).(fence := Some(Detaching), detaching := true) else old(state)
    {
      ok := state.end.None?;
      if ok {
        state := state.(fence := Some(Detaching), detaching := true);
      }
    }

    method FinishDetach() returns (ok: bool)
      requires Valid()
      modifies this
      ensures Valid() && ok == MayFinishDetach(old(state))
      ensures state == if ok then old(state).(end := Some(Detached), fence := Some(Closed)) else old(state)
    {
      if !state.detaching || |state.pending| != 0 { return false; }
      state := state.(end := Some(Detached), fence := Some(Closed));
      ok := true;
    }

    /** Every channel still pending gets `Unknown`; returns those commands. */
    method Terminate() returns (unknown: map<nat, Pending>)
      requires Valid()
      modifies this
      ensures Valid() && state == Ended(old(state))
      ensures unknown == if old(state).end.Some? then map[] else old(state).pending
    {
      if state.end.Some? { return map[]; }
      unknown := state.pending;
      state := state.(end := Some(Terminated), fence := Some(Closed), pendingInputs := 0, pendingInputBytes := 0, pending := map[]);
    }
  }
}
