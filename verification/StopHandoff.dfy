/** Settled Stops across an exec-in-place handoff (crates/ctxmux-daemon/src/creation.rs:
  1362-1413, 1914-1994, 2505-2553): the snapshot of one Registry and its restoration
  into the successor. */
module StopHandoffs {
  import opened Wrappers
  import opened MapSums
  import opened RegistryModel
  import opened RegistryBudgets
  import opened ControlBudgets
  import opened RegistryRuns
  import opened StopAnswers
  import opened RegistryKeys
  import Runs

  datatype Operation = Operation(id: nat, key: nat, outcome: StopResult)

  /** The settled operation of this key: its Run and its result. */
  function Lookup(g: Registry, key: nat): Option<(nat, StopResult)> {
    if key in g.s.stops && g.s.stops[key] in g.s.runs && g.s.runs[g.s.stops[key]].stop.Some? then
      var record := g.s.runs[g.s.stops[key]].stop.value;
      if record.cell in g.o.cells && g.o.cells[record.cell].result.Some?
      then Some((g.s.stops[key], g.o.cells[record.cell].result.value)) else None
    else None
  }

  // ---------- Snapshot ----------

  /** This Run's operation can cross: retained, settled, and not the not-applied result
      that no record keeps. */
  predicate Crosses(g: Registry, id: nat) {
    && CanRetain(g, id) && g.s.runs[id].stop.Some?
    && var record := g.s.runs[id].stop.value;
       record.cell in g.o.cells && g.o.cells[record.cell].result.Some? && !g.o.cells[record.cell].result.value.NotApplied?
  }

  predicate HasStop(g: Registry, id: nat) { id in g.s.runs && g.s.runs[id].stop.Some? }

  function OperationOf(g: Registry, id: nat): Operation
    requires Crosses(g, id)
  {
    var record := g.s.runs[id].stop.value;
    Operation(id, record.key, g.o.cells[record.cell].result.value)
  }

  predicate IdsRise(ops: seq<Operation>) {
    forall i, j :: 0 <= i < j < |ops| ==> ops[i].id < ops[j].id
  }

  /** One operation per Run that has one, in ascending id order. */
  ghost predicate IsSnapshot(g: Registry, ops: seq<Operation>) {
    && IdsRise(ops)
    && (forall i :: 0 <= i < |ops| ==> Crosses(g, ops[i].id) && ops[i] == OperationOf(g, ops[i].id))
    && (forall id :: HasStop(g, id) ==> exists i :: 0 <= i < |ops| && ops[i].id == id)
  }

  function Inserted(ops: seq<Operation>, op: Operation): seq<Operation> {
    if ops == [] || op.id < ops[0].id then [op] + ops else [ops[0]] + Inserted(ops[1..], op)
  }

  lemma {:induction false} InsertedRises(ops: seq<Operation>, op: Operation)
    requires IdsRise(ops) && forall i :: 0 <= i < |ops| ==> ops[i].id != op.id
    ensures IdsRise(Inserted(ops, op)) && forall x :: x in Inserted(ops, op) <==> x in ops || x == op
  {
    if ops != [] && op.id >= ops[0].id {
      var rest := ops[1..];
      assert ops == [ops[0]] + rest;
      InsertedRises(rest, op);
      var more := Inserted(rest, op);
      forall i | 0 <= i < |more| ensures ops[0].id < more[i].id {
        assert more[i] in rest || more[i] == op;
      }
    }
  }

  method HandoffStopOperations(g: Registry) returns (r: Result<seq<Operation>, nat>)
    ensures r.Success? <==> forall id :: HasStop(g, id) ==> Crosses(g, id)
    ensures r.Success? ==> IsSnapshot(g, r.value)
  {
    var ops: seq<Operation> := [];
    var left := g.s.runs.Keys;
    while left != {}
      invariant left <= g.s.runs.Keys && IdsRise(ops)
      invariant forall op :: op in ops ==> op.id !in left && Crosses(g, op.id) && op == OperationOf(g, op.id)
      invariant forall id :: HasStop(g, id) && id !in left ==> Crosses(g, id) && OperationOf(g, id) in ops
      decreases |left|
    {
      var id :| id in left;
      if g.s.runs[id].stop.Some? {
        if !Crosses(g, id) {
          assert HasStop(g, id);
          return Failure(id);
        }
        var op := OperationOf(g, id);
        InsertedRises(ops, op);
        ops := Inserted(ops, op);
      }
      left := left - {id};
    }
    forall id | HasStop(g, id) ensures exists i :: 0 <= i < |ops| && ops[i].id == id {
      var i :| 0 <= i < |ops| && ops[i] == OperationOf(g, id);
      assert ops[i].id == id;
    }
    r := Success(ops);
  }

  // ---------- When a snapshot is refused ----------

  /** No kept record holds a not-applied result. */
  ghost predicate KeepsApplied(g: Registry) {
    forall id {:trigger g.s.runs[id].stop} :: id in g.s.runs && g.s.runs[id].stop.Some? ==>
      var c := g.s.runs[id].stop.value.cell;
      c in g.o.cells && (g.o.cells[c].result.Some? ==> !g.o.cells[c].result.value.NotApplied?)
  }

  lemma SettleKeepsApplied(g: Registry, other: nat, result: StopResult)
    requires StopsOk(g.s.runs, g.s.stops) && StopsOwned(g) && KeepsApplied(g) && other in g.o.settlements
    ensures KeepsApplied(SettleOn(g, other, result))
  {
    assert InFlight(g, other);
    var h, cell := SettleOn(g, other, result), g.o.settlements[other];
    forall id | id in h.s.runs && h.s.runs[id].stop.Some? && id != other ensures g.s.runs[id].stop.value.cell != cell {
      assert g.s.stops[g.s.runs[id].stop.value.key] == id && g.s.stops[g.s.runs[other].stop.value.key] == other;
    }
  }

  lemma PublishKeepsApplied(limits: Limits, g: Registry, step: Step, h: Registry)
    requires FreshOk(g.s) && KeepsApplied(g) && Next(limits, g, step, h) && step.Publish?
    ensures KeepsApplied(h)
  {
    PublishedIsFound(g.s, step.ticket, step.charge);
  }

  lemma OtherKeepsApplied(limits: Limits, g: Registry, step: Step, h: Registry)
    requires KeepsApplied(g) && Next(limits, g, step, h) && !step.Publish? && !step.SettleStop?
    ensures KeepsApplied(h)
  {
    if step.Remove? || step.CommitRemoval? { RemovedLeave(g.s, [step.id]); }
  }

  lemma AppliedStep(limits: Limits, g: Registry, step: Step, h: Registry)
    requires StopsOk(g.s.runs, g.s.stops) && FreshOk(g.s) && StopsOwned(g) && KeepsApplied(g) && Next(limits, g, step, h)
    ensures KeepsApplied(h)
  {
    if step.Publish? {
      PublishKeepsApplied(limits, g, step, h);
    } else if step.SettleStop? {
      SettleKeepsApplied(g, step.id, step.result);
    } else {
      OtherKeepsApplied(limits, g, step, h);
    }
  }

  lemma AppliedThroughout(limits: Limits, steps: seq<Step>, states: seq<Registry>, k: nat)
    requires Execution(limits, steps, states) && k < |states|
    ensures StopsOwned(states[k]) && KeepsApplied(states[k])
  {
    RunKeeps(limits, steps, states, k);
    RunKeeps(limits, steps, states, 0);
    forall g: Registry, step: Step, h: Registry | Inv(limits, g) && KeepsApplied(g) && Next(limits, g, step, h)
      ensures Inv(limits, h) && KeepsApplied(h)
    {
      StepKeeps(limits, g, step);
      AppliedStep(limits, g, step, h);
    }
    Runs.HoldsThroughout((g: Registry) => Inv(limits, g) && KeepsApplied(g),
                         (g: Registry, step: Step, h: Registry) => Next(limits, g, step, h), steps, states, k);
  }

  /** In every reachable state a snapshot is taken exactly when no Stop is in flight and no
      Run that has one is being collected or removed: no other record can refuse it. */
  lemma SnapshotIff(limits: Limits, steps: seq<Step>, states: seq<Registry>, k: nat)
    requires Execution(limits, steps, states) && k < |states|
    ensures var g := states[k];
            (forall id :: HasStop(g, id) ==> Crosses(g, id)) <==>
            && g.o.settlements == map[]
            && forall id :: id in g.s.runs && g.s.runs[id].stop.Some? ==> g.s.runs[id].residency == Retained
  {
    AppliedThroughout(limits, steps, states, k);
    CrossesIff(states[k]);
  }

  lemma CrossesIff(g: Registry)
    requires StopsOwned(g) && KeepsApplied(g)
    ensures (forall id :: HasStop(g, id) ==> Crosses(g, id)) <==>
            && g.o.settlements == map[]
            && forall id :: id in g.s.runs && g.s.runs[id].stop.Some? ==> g.s.runs[id].residency == Retained
  {
    if forall id :: HasStop(g, id) ==> Crosses(g, id) {
      forall id | id in g.s.runs && g.s.runs[id].stop.Some? ensures g.s.runs[id].residency == Retained { assert HasStop(g, id); }
      forall id ensures id !in g.o.settlements {
        if id in g.o.settlements { assert InFlight(g, id) && HasStop(g, id); }
      }
    }
  }

  // ---------- Restore ----------

  function OperationCharge(limits: Limits, op: Operation): nat { RestoredCharge(limits, op.key, op.outcome) }

  function OperationCharges(limits: Limits, ops: seq<Operation>): nat {
    if ops == [] then 0 else OperationCharge(limits, ops[0]) + OperationCharges(limits, ops[1..])
  }

  /** The checks before anything is restored. */
  predicate Restorable(h: Registry, ops: seq<Operation>) {
    && (forall i, j :: 0 <= i < j < |ops| ==> ops[i].id != ops[j].id && ops[i].key != ops[j].key)
    && (forall i :: 0 <= i < |ops| ==>
          KeyOk(ops[i].key) && ops[i].id in h.s.runs && h.s.runs[ops[i].id].stop.None? && !ops[i].outcome.NotApplied?)
  }

  /** The control budget can fund every operation's own charge again. */
  predicate Fits(limits: Limits, h: Registry, ops: seq<Operation>) {
    h.o.control.used + OperationCharges(limits, ops) <= limits.control
  }

  function RestoreOne(limits: Limits, h: Registry, op: Operation, cell: nat): Registry
    requires op.id in h.s.runs
  {
    Registry(BeginStopOn(h.s, op.id, StopRecord(op.key, cell, OperationCharge(limits, op))),
             h.o.(cells := h.o.cells[cell := Cell(op.key, Some(op.outcome))],
                  control := Spend(h.o.control, OperationCharge(limits, op))))
  }

  function RestoreAll(limits: Limits, h: Registry, ops: seq<Operation>, cell: nat): Registry
    requires forall i :: 0 <= i < |ops| ==> ops[i].id in h.s.runs
    decreases |ops|
  {
    if ops == [] then h
    else RestoreAll(limits, RestoreOne(limits, h, ops[0], cell), ops[1..], cell + 1)
  }

  method RestoreHandoffStopOperations(limits: Limits, h: Registry, ops: seq<Operation>, cell: nat) returns (r: Result<Registry, ()>)
    requires h.o.control.used <= limits.control
    ensures r.Success? <==> Restorable(h, ops) && Fits(limits, h, ops)
    ensures r.Success? ==> r.value == RestoreAll(limits, h, ops, cell)
  {
    if !Restorable(h, ops) {
      return Failure(());
    }
    var g, i := h, 0;
    assert ops[0..] == ops;
    while i < |ops|
      invariant i <= |ops| && g.s.runs.Keys == h.s.runs.Keys
      invariant RestoreAll(limits, g, ops[i..], cell + i) == RestoreAll(limits, h, ops, cell)
      invariant g.o.control.used + OperationCharges(limits, ops[i..]) == h.o.control.used + OperationCharges(limits, ops)
      invariant g.o.control.used <= limits.control
    {
      assert ops[i..][1..] == ops[i + 1..];
      if g.o.control.used + OperationCharge(limits, ops[i]) > limits.control {
        return Failure(());
      }
      g := RestoreOne(limits, g, ops[i], cell + i);
      i := i + 1;
    }
    r := Success(g);
  }

  predicate CellsBelow(h: Registry, cell: nat) { forall c :: c in h.o.cells ==> c < cell }

  /** Every record has its cell, and every indexed Run its record. */
  predicate CellsKnown(h: Registry) {
    && (forall id {:trigger h.s.runs[id].stop} :: id in h.s.runs && h.s.runs[id].stop.Some? ==> h.s.runs[id].stop.value.cell in h.o.cells)
    && (forall k {:trigger h.s.stops[k]} :: k in h.s.stops ==> h.s.stops[k] in h.s.runs && h.s.runs[h.s.stops[k]].stop.Some?)
  }

  lemma OneLooksUp(limits: Limits, h: Registry, op: Operation, cell: nat, key: nat)
    requires op.id in h.s.runs && h.s.runs[op.id].stop.None? && CellsBelow(h, cell) && CellsKnown(h)
    ensures var g := RestoreOne(limits, h, op, cell);
            && CellsBelow(g, cell + 1) && CellsKnown(g)
            && Lookup(g, key) == if key == op.key then Some((op.id, op.outcome)) else Lookup(h, key)
  {
  }

  lemma {:induction false} AllLookUp(limits: Limits, h: Registry, ops: seq<Operation>, cell: nat, key: nat)
    requires Restorable(h, ops) && CellsBelow(h, cell) && CellsKnown(h)
    ensures (forall i :: 0 <= i < |ops| ==> ops[i].key != key) ==> Lookup(RestoreAll(limits, h, ops, cell), key) == Lookup(h, key)
    ensures forall i :: 0 <= i < |ops| && ops[i].key == key ==>
              Lookup(RestoreAll(limits, h, ops, cell), key) == Some((ops[i].id, ops[i].outcome))
    ensures RestoreAll(limits, h, ops, cell).o.visible == h.o.visible
    decreases |ops|
  {
    if ops != [] {
      var rest := ops[1..];
      OneLooksUp(limits, h, ops[0], cell, key);
      assert forall i :: 0 <= i < |rest| ==> rest[i] == ops[i + 1];
      AllLookUp(limits, RestoreOne(limits, h, ops[0], cell), rest, cell + 1, key);
      forall i | 0 <= i < |ops| && ops[i].key == key
        ensures Lookup(RestoreAll(limits, h, ops, cell), key) == Some((ops[i].id, ops[i].outcome))
      {
        if i > 0 { assert rest[i - 1].key == key; } else { assert forall j :: 0 <= j < |rest| ==> rest[j].key != key; }
      }
    }
  }

  /** A successor that retains the same Runs, with no Stop of its own yet. */
  predicate Successor(g: Registry, h: Registry) {
    && (forall id :: id in g.s.runs ==> id in h.s.runs)
    && (forall id :: id in h.s.runs ==> h.s.runs[id].stop.None?)
    && h.s.stops == map[]
  }

  /** What a retry of this key is told. */
  function Told(g: Registry, key: nat): Option<StopResult> {
    var found := Lookup(g, key);
    if found.Some? then Some(Observed(found.value.1, found.value.0 in g.o.visible)) else None
  }

  lemma SnapshotRestorable(limits: Limits, g: Registry, ops: seq<Operation>, h: Registry)
    requires StopsOk(g.s.runs, g.s.stops) && ReceiptsOk(limits, g) && IsSnapshot(g, ops) && Successor(g, h)
    ensures Restorable(h, ops)
  {
    forall i | 0 <= i < |ops| ensures KeyOk(ops[i].key) {
      assert Crosses(g, ops[i].id) && ops[i] == OperationOf(g, ops[i].id);
      assert ReceiptOk(limits, g.o.cells, g.s.runs[ops[i].id].stop.value);
    }
    forall i, j | 0 <= i < j < |ops| ensures ops[i].id != ops[j].id && ops[i].key != ops[j].key {
      assert ops[i] == OperationOf(g, ops[i].id) && ops[j] == OperationOf(g, ops[j].id);
      assert g.s.stops[ops[i].key] == ops[i].id && g.s.stops[ops[j].key] == ops[j].id;
    }
  }

  /** Round trip: every key of the old Registry leads to the same result on the same Run
      in the new one, and every unbound key to none. */
  lemma HandoffKeepsResults(limits: Limits, g: Registry, ops: seq<Operation>, h: Registry, cell: nat, key: nat)
    requires Inv(limits, g) && IsSnapshot(g, ops) && Successor(g, h) && CellsBelow(h, cell)
    ensures Restorable(h, ops)
    ensures Lookup(RestoreAll(limits, h, ops, cell), key) == Lookup(g, key)
    ensures RestoreAll(limits, h, ops, cell).o.visible == h.o.visible
    ensures key in g.s.stops <==> Lookup(g, key).Some?
  {
    SnapshotRestorable(limits, g, ops, h);
    AllLookUp(limits, h, ops, cell, key);
    assert Lookup(h, key) == None;
    if key in g.s.stops {
      var id := g.s.stops[key];
      assert HasStop(g, id) && g.s.runs[id].stop.value.key == key;
      var i :| 0 <= i < |ops| && ops[i].id == id;
      assert ops[i] == OperationOf(g, id);
    } else {
      forall i | 0 <= i < |ops| ensures ops[i].key != key {
        assert ops[i] == OperationOf(g, ops[i].id);
      }
    }
  }

  /** A retry is told the same before and after the handoff exactly when its result is not
      an accepted one, or its Run's terminal state is visible in both daemons or in neither. */
  lemma HandoffKeepsRetriesIff(limits: Limits, g: Registry, ops: seq<Operation>, h: Registry, cell: nat, key: nat)
    requires Inv(limits, g) && IsSnapshot(g, ops) && Successor(g, h) && CellsBelow(h, cell)
    ensures Restorable(h, ops)
    ensures Told(RestoreAll(limits, h, ops, cell), key) == Told(g, key) <==>
            match Lookup(g, key) {
              case None => true
              case Some((id, result)) => !result.Accepted? || (id in g.o.visible <==> id in h.o.visible)
            }
  {
    HandoffKeepsResults(limits, g, ops, h, cell, key);
  }

  // ---------- What the successor must fund ----------

  function ResultOf(cells: map<nat, Cell>, c: nat): StopResult {
    if c in cells && cells[c].result.Some? then cells[c].result.value else Accepted(0)
  }

  /** One entry's charge in the successor. */
  function ChargeAgain(limits: Limits, cells: map<nat, Cell>, entry: Entry): nat {
    if entry.stop.Some? then RestoredCharge(limits, entry.stop.value.key, ResultOf(cells, entry.stop.value.cell)) else 0
  }

  /** How much more that is than the entry holds now. */
  function TopUp(limits: Limits, cells: map<nat, Cell>, entry: Entry): nat {
    Less(ChargeAgain(limits, cells, entry), StopBytes(entry))
  }

  function Ids(ops: seq<Operation>): seq<nat> { if ops == [] then [] else [ops[0].id] + Ids(ops[1..]) }

  lemma {:induction false} IdsAt(ops: seq<Operation>)
    ensures |Ids(ops)| == |ops| && forall i :: 0 <= i < |ops| ==> Ids(ops)[i] == ops[i].id
  {
    if ops != [] { IdsAt(ops[1..]); }
  }

  lemma {:induction false} ChargesAreWeights(limits: Limits, g: Registry, ops: seq<Operation>)
    requires forall i :: 0 <= i < |ops| ==> Crosses(g, ops[i].id) && ops[i] == OperationOf(g, ops[i].id)
    ensures OperationCharges(limits, ops) == Weigh(g.s.runs, (e: Entry) => ChargeAgain(limits, g.o.cells, e), Ids(ops))
  {
    if ops != [] {
      assert ops[0] == OperationOf(g, ops[0].id);
      ChargesAreWeights(limits, g, ops[1..]);
      assert Ids(ops)[1..] == Ids(ops[1..]);
    }
  }

  /** A snapshot costs the successor what its records hold now, plus a top-up for every
      diagnostic longer than the room that was funded for it. */
  lemma HandoffCost(limits: Limits, g: Registry, ops: seq<Operation>)
    requires ReceiptsOk(limits, g) && IsSnapshot(g, ops)
    ensures OperationCharges(limits, ops)
            == Total(g.s.runs, StopBytes) + Total(g.s.runs, (e: Entry) => TopUp(limits, g.o.cells, e))
  {
    var weight := (e: Entry) => ChargeAgain(limits, g.o.cells, e);
    var more := (e: Entry) => TopUp(limits, g.o.cells, e);
    ChargesAreWeights(limits, g, ops);
    IdsAt(ops);
    TotalSplit(g.s.runs, weight, Ids(ops));
    var rest := Others(g.s.runs, Ids(ops));
    forall i | 0 <= i < |ops| ensures ops[i].id in Ids(ops) { assert Ids(ops)[i] == ops[i].id; }
    assert forall id :: id in rest ==> id in g.s.runs && !HasStop(g, id);
    TotalZero(rest, weight);
    forall id | id in g.s.runs ensures weight(g.s.runs[id]) == StopBytes(g.s.runs[id]) + more(g.s.runs[id]) {
      if HasStop(g, id) {
        assert ReceiptOk(limits, g.o.cells, g.s.runs[id].stop.value);
      }
    }
    TotalAdds(g.s.runs, weight, StopBytes, more);
  }

  /** A snapshot restores into the successor exactly when its free control bytes cover
      what the records hold now together with the top-ups. */
  lemma HandoffRestoresIff(limits: Limits, g: Registry, ops: seq<Operation>, h: Registry)
    requires Inv(limits, g) && IsSnapshot(g, ops) && Successor(g, h)
    ensures Restorable(h, ops)
    ensures Fits(limits, h, ops) <==>
            Total(g.s.runs, StopBytes) + Total(g.s.runs, (e: Entry) => TopUp(limits, g.o.cells, e)) <= limits.control - h.o.control.used
  {
    SnapshotRestorable(limits, g, ops, h);
    HandoffCost(limits, g, ops);
  }

  /** Under the same policy, with an Input side that holds no more than before, a snapshot
      whose diagnostics all fit the room made for them always restores. */
  lemma OrdinaryHandoffRestores(limits: Limits, g: Registry, ops: seq<Operation>, h: Registry)
    requires Inv(limits, g) && IsSnapshot(g, ops) && Successor(g, h)
    requires h.o.control.used <= g.o.control.inputs
    requires forall i :: 0 <= i < |ops| ==> Overlong(ops[i].outcome) == 0
    ensures Restorable(h, ops) && Fits(limits, h, ops)
  {
    var more := (e: Entry) => TopUp(limits, g.o.cells, e);
    forall id | id in g.s.runs ensures more(g.s.runs[id]) == 0 {
      if HasStop(g, id) {
        var i :| 0 <= i < |ops| && ops[i].id == id;
        assert ops[i] == OperationOf(g, id);
        assert ReceiptOk(limits, g.o.cells, g.s.runs[id].stop.value);
      }
    }
    TotalZero(g.s.runs, more);
    HandoffRestoresIff(limits, g, ops, h);
  }

  // ---------- The successor's Registry ----------

  lemma OneKeeps(limits: Limits, h: Registry, op: Operation, cell: nat)
    requires Inv(limits, h) && CellsBelow(h, cell) && KeyOk(op.key) && op.key !in h.s.stops
    requires op.id in h.s.runs && h.s.runs[op.id].stop.None?
    requires h.o.control.used + OperationCharge(limits, op) <= limits.control
    ensures Inv(limits, RestoreOne(limits, h, op, cell)) && CellsBelow(RestoreOne(limits, h, op, cell), cell + 1)
  {
    var record := StopRecord(op.key, cell, OperationCharge(limits, op));
    StopIndexes(h.s.runs, h.s.creation, h.s.stops, h.s.reservations, h.o.removals, op.id, record);
    StopBudgets(h.s, op.id, Some(record), h.s.stops[op.key := op.id], limits);
    SwapMovesFunds(h.s.runs, op.id, h.s.runs[op.id].(stop := Some(record)));
    OneOwns(limits, h, op, cell);
  }

  lemma OneOwns(limits: Limits, h: Registry, op: Operation, cell: nat)
    requires StopsOwned(h) && CellsBelow(h, cell) && op.id in h.s.runs && h.s.runs[op.id].stop.None?
    ensures StopsOwned(RestoreOne(limits, h, op, cell))
  {
    var g := RestoreOne(limits, h, op, cell);
    forall id | id in h.o.settlements ensures id != op.id && InFlight(g, id) { assert InFlight(h, id); }
  }

  /** A restored Registry starts in the invariant of the run machine, so every step of the
      successor keeps it as well. */
  lemma {:induction false} RestoredKeeps(limits: Limits, h: Registry, ops: seq<Operation>, cell: nat)
    requires Inv(limits, h) && Restorable(h, ops) && Fits(limits, h, ops) && CellsBelow(h, cell)
    requires forall i :: 0 <= i < |ops| ==> ops[i].key !in h.s.stops
    ensures Inv(limits, RestoreAll(limits, h, ops, cell))
    decreases |ops|
  {
    if ops != [] {
      var rest := ops[1..];
      OneKeeps(limits, h, ops[0], cell);
      assert forall i :: 0 <= i < |rest| ==> rest[i] == ops[i + 1];
      RestoredKeeps(limits, RestoreOne(limits, h, ops[0], cell), rest, cell + 1);
    }
  }

  // ---------- A snapshot that does not restore ----------

  const Loud: StopResult := Unknown(1, 4097)

  lemma StopLoudly(g: Registry) returns (bound: Registry, settled: Registry)
    requires g.s.runs == map[1 := Entry(None, None, 0, Retained)] && g.s.stops == map[]
    requires g.o.control.used == 0 && 0 !in g.o.cells
    ensures Next(Small, g, BeginStop(1, 7, 0), bound) && Next(Small, bound, SettleStop(1, Loud), settled)
    ensures settled.s.runs == map[1 := Entry(None, Some(StopRecord(7, 0, StopCharge(Small, 7))), 0, Retained)]
    ensures 0 in settled.o.cells && settled.o.cells[0] == Cell(7, Some(Loud))
  {
    assert KeyBytes(7) == 1;
    bound := Apply(Small, g, BeginStop(1, 7, 0));
    settled := Apply(Small, bound, SettleStop(1, Loud));
  }

  /** A concrete run to a Registry whose snapshot no successor of the same policy can
      restore: the budget funds one Stop exactly, and the Stop's diagnostic is one byte
      longer than the room made for it. */
  lemma LongDiagnosticOverflows(g: Registry) returns (steps: seq<Step>, states: seq<Registry>, ops: seq<Operation>)
    requires Initial(g) && g.o.cells == map[] && g.o.visible == {}
    ensures Execution(Small, steps, states) && |states| == 5 && IsSnapshot(states[4], ops)
    ensures forall h: Registry :: h.o.control.used >= 0 ==> !Fits(Small, h, ops)
  {
    FirstReservation(Small, g, Fresh, map[]);
    var s1 := Reserved(g, Fresh);
    var s2 := PublishIt(s1);
    var s3, s4 := StopLoudly(s2);
    steps := [Reserve(Fresh, map[]), Publish(1, 0), BeginStop(1, 7, 0), SettleStop(1, Loud)];
    states := [g, s1, s2, s3, s4];
    ops := LoudSnapshot(s4);
  }

  lemma LoudSnapshot(g: Registry) returns (ops: seq<Operation>)
    requires g.s.runs == map[1 := Entry(None, Some(StopRecord(7, 0, StopCharge(Small, 7))), 0, Retained)]
    requires 0 in g.o.cells && g.o.cells[0] == Cell(7, Some(Loud))
    ensures IsSnapshot(g, ops)
    ensures forall h: Registry :: h.o.control.used >= 0 ==> !Fits(Small, h, ops)
  {
    assert Crosses(g, 1);
    ops := [OperationOf(g, 1)];
    forall id | HasStop(g, id) ensures exists i :: 0 <= i < |ops| && ops[i].id == id { assert ops[0].id == id; }
    assert ops[1..] == [] && KeyBytes(7) == 1;
  }
}
