/** What Stop callers are told (crates/ctxmux-daemon/src/creation.rs:1310-1450, 2355-2503). */
module StopAnswers {
  import opened Wrappers
  import opened MapSums
  import opened RegistryModel
  import opened CandidateSelections
  import opened ControlBudgets
  import opened RegistryRuns

  // An owner or a retry holds a flight: its Run and the result cell.  It waits for the
  // cell, gives an accepted Stop's terminal publication some grace, and then answers.

  const PUBLICATION_PENDING: nat := 0
  const PENDING_MESSAGE_BYTES: nat := 120

  /** An accepted Stop is reported only once its Run's terminal state is visible. */
  function Observed(result: StopResult, visible: bool): StopResult {
    if result.Accepted? && !visible then Unknown(PUBLICATION_PENDING, PENDING_MESSAGE_BYTES) else result
  }

  /** The answer of a flight of this Run and cell that stops waiting now; None while the
      cell is unsettled and the flight cannot answer. */
  function Answer(g: Registry, id: nat, c: nat): Option<StopResult> {
    if c in g.o.cells && g.o.cells[c].result.Some? then Some(Observed(g.o.cells[c].result.value, id in g.o.visible)) else None
  }

  // ---------- Settlement ----------

  /** A settlement always finds its own unsettled record on a retained Run, whatever
      was collected, removed or published meanwhile. */
  lemma SettleFindsRecord(limits: Limits, steps: seq<Step>, states: seq<Registry>, k: nat, id: nat)
    requires Execution(limits, steps, states) && k < |states| && id in states[k].o.settlements
    ensures var g := states[k];
            && id in g.s.runs && g.s.runs[id].residency == Retained && g.s.runs[id].stop.Some?
            && var record := g.s.runs[id].stop.value;
               && record.cell == g.o.settlements[id] && record.cell in g.o.cells
               && g.o.cells[record.cell] == Cell(record.key, None)
               && record.key in g.s.stops && g.s.stops[record.key] == id
  {
    RunKeeps(limits, steps, states, k);
    assert InFlight(states[k], id);
  }

  /** A cell keeps its key, and its result once it has one. */
  predicate Later(g: Registry, h: Registry, c: nat) {
    && c in g.o.cells && c in h.o.cells && h.o.cells[c].key == g.o.cells[c].key
    && (g.o.cells[c].result.Some? ==> h.o.cells[c] == g.o.cells[c])
  }

  lemma CellsSettleOnce(limits: Limits, g: Registry, step: Step, h: Registry, c: nat)
    requires StopsOwned(g) && Next(limits, g, step, h) && c in g.o.cells
    ensures Later(g, h, c)
  {
    if step.SettleStop? {
      assert InFlight(g, step.id);
    }
  }

  lemma CellsAt(limits: Limits, steps: seq<Step>, states: seq<Registry>, k: nat, c: nat)
    requires Execution(limits, steps, states) && k < |steps| && c in states[k].o.cells
    ensures Later(states[k], states[k + 1], c)
  {
    RunKeeps(limits, steps, states, k);
    CellsSettleOnce(limits, states[k], steps[k], states[k + 1], c);
  }

  /** What a retry of a key is handed. */
  function RetryCell(g: Registry, key: nat): Option<nat> {
    if key in g.s.stops && g.s.stops[key] in g.s.runs && g.s.runs[g.s.stops[key]].stop.Some?
    then Some(g.s.runs[g.s.stops[key]].stop.value.cell) else None
  }

  lemma {:induction false} CellStays(limits: Limits, steps: seq<Step>, states: seq<Registry>, i: nat, j: nat, c: nat)
    requires Execution(limits, steps, states) && i <= j < |states| && c in states[i].o.cells
    ensures Later(states[i], states[j], c)
    decreases j
  {
    if i < j {
      CellStays(limits, steps, states, i, j - 1, c);
      CellsAt(limits, steps, states, j - 1, c);
    }
  }

  lemma {:induction false} VisibleStays(limits: Limits, steps: seq<Step>, states: seq<Registry>, i: nat, j: nat)
    requires Execution(limits, steps, states) && i <= j < |states|
    ensures states[i].o.visible <= states[j].o.visible
    decreases j
  {
    if i < j {
      VisibleStays(limits, steps, states, i, j - 1);
      assert Next(limits, states[j - 1], steps[j - 1], states[j]);
    }
  }

  /** A retry gets its key's own cell, on the Run the key is bound to. */
  lemma RetryFindsOwnCell(limits: Limits, steps: seq<Step>, states: seq<Registry>, k: nat, key: nat)
    requires Execution(limits, steps, states) && k < |states| && key in states[k].s.stops
    ensures var g := states[k];
            RetryCell(g, key).Some? && RetryCell(g, key).value in g.o.cells && g.o.cells[RetryCell(g, key).value].key == key
  {
    RunKeeps(limits, steps, states, k);
    var g := states[k];
    assert g.s.stops[key] in g.s.runs && g.s.runs[g.s.stops[key]].stop.Some?;
  }

  /** When two flights of one settled operation answer alike: exactly when the result is
      not an accepted one, or the Run's terminal state was visible at both answers or at
      neither.  Once it is visible every later flight reports the settled result, and two
      answers differ only by an accepted Stop first being reported as unknown. */
  lemma RetriesAgreeIff(limits: Limits, steps: seq<Step>, states: seq<Registry>, i: nat, j: nat, id: nat, c: nat)
    requires Execution(limits, steps, states) && i <= j < |states|
    requires c in states[i].o.cells && states[i].o.cells[c].result.Some?
    ensures var result := states[i].o.cells[c].result.value;
            && (Answer(states[i], id, c) == Answer(states[j], id, c)
                <==> !result.Accepted? || (id in states[i].o.visible <==> id in states[j].o.visible))
            && (id in states[i].o.visible ==> Answer(states[i], id, c) == Answer(states[j], id, c) == Some(result))
            && (Answer(states[i], id, c) != Answer(states[j], id, c) ==>
                  && result.Accepted? && Answer(states[j], id, c) == Some(result)
                  && Answer(states[i], id, c) == Some(Unknown(PUBLICATION_PENDING, PENDING_MESSAGE_BYTES)))
  {
    CellStays(limits, steps, states, i, j, c);
    VisibleStays(limits, steps, states, i, j);
  }

  // ---------- Two retries that differ ----------

  const Small: Limits := Quotas(10, 10, 1000, 4154, 56)
  const Fresh: Reservation := Reservation(1, None, 0, [])
  const Plan: seq<Step> := [Reserve(Fresh, map[]), Publish(1, 0), BeginStop(1, 7, 0), SettleStop(1, Accepted(0)),
                            RetryStop(1, 7), BecomeVisible(1), RetryStop(1, 7)]

  /** An empty Registry admits any publication within its limits, with nothing to replace. */
  lemma FirstReservation(limits: Limits, g: Registry, r: Reservation, ordinals: map<nat, nat>)
    requires Initial(g) && limits.records > 0 && limits.live > 0 && r.candidates == [] && r.newBytes <= limits.metadata
    ensures Next(limits, g, Reserve(r, ordinals), Reserved(g, r))
  {
    var facts := FactsOf(g, ordinals);
    forall order | IsOrder(g.s, facts, order)
      ensures Selects(g.s.runs, order, NeedsRecord(g.s, limits), ToFund(g.s, limits, r.newBytes), Total(g.s.reservations, Several) > 0, Chosen([]))
    {
      FastPathIsFullScan(g.s.runs, order, false, Chosen([]));
    }
    assert SelectedFrom(g.s, limits, facts, r.newBytes, Chosen([]));
  }

  lemma PublishIt(g: Registry) returns (h: Registry)
    requires g.s.reservations == map[1 := Fresh] && g.o.active == {1} && g.s.runs == map[] && g.s.stops == map[]
    ensures Next(Small, g, Publish(1, 0), h)
    ensures h.s.runs == map[1 := Entry(None, None, 0, Retained)] && h.s.stops == map[]
    ensures h.o.cells == g.o.cells && h.o.visible == g.o.visible && h.o.control.used == g.o.control.used
  {
    h := Published(g, 1, 0);
  }

  lemma StopIt(g: Registry) returns (bound: Registry, settled: Registry)
    requires g.s.runs == map[1 := Entry(None, None, 0, Retained)] && g.s.stops == map[]
    requires g.o.control.used == 0 && 0 !in g.o.cells
    ensures Next(Small, g, BeginStop(1, 7, 0), bound) && Next(Small, bound, SettleStop(1, Accepted(0)), settled)
    ensures 1 in settled.s.runs && settled.s.runs[1] == Entry(None, Some(StopRecord(7, 0, StopCharge(Small, 7))), 0, Retained)
    ensures settled.s.stops == map[7 := 1] && settled.o.visible == g.o.visible
    ensures 0 in settled.o.cells && settled.o.cells[0] == Cell(7, Some(Accepted(0)))
  {
    assert KeyBytes(7) == 1;
    bound := Apply(Small, g, BeginStop(1, 7, 0));
    settled := Apply(Small, bound, SettleStop(1, Accepted(0)));
  }

  lemma RetryTwice(g: Registry) returns (first: Registry, visible: Registry, second: Registry)
    requires 1 in g.s.runs && g.s.runs[1] == Entry(None, Some(StopRecord(7, 0, StopCharge(Small, 7))), 0, Retained)
    requires g.s.stops == map[7 := 1] && 0 in g.o.cells && g.o.cells[0] == Cell(7, Some(Accepted(0))) && 1 !in g.o.visible
    ensures Next(Small, g, RetryStop(1, 7), first) && Next(Small, first, BecomeVisible(1), visible) && Next(Small, visible, RetryStop(1, 7), second)
    ensures RetryCell(first, 7) == RetryCell(second, 7) == Some(0)
    ensures Answer(first, 1, 0) == Some(Unknown(PUBLICATION_PENDING, PENDING_MESSAGE_BYTES)) && Answer(second, 1, 0) == Some(Accepted(0))
  {
    first := Apply(Small, g, RetryStop(1, 7));
    visible := Apply(Small, first, BecomeVisible(1));
    second := Apply(Small, visible, RetryStop(1, 7));
  }

  /** A concrete run: the first retry of key 7 is told that the outcome is unknown, the
      second, of the same cell, that the Stop was accepted. */
  lemma RetriesDiffer(g: Registry) returns (states: seq<Registry>)
    requires Initial(g) && g.o.cells == map[] && g.o.visible == {}
    ensures Execution(Small, Plan, states) && states[0] == g
    ensures RetryCell(states[5], 7) == RetryCell(states[7], 7) == Some(0)
    ensures Answer(states[5], 1, 0) == Some(Unknown(PUBLICATION_PENDING, PENDING_MESSAGE_BYTES)) && Answer(states[7], 1, 0) == Some(Accepted(0))
  {
    FirstReservation(Small, g, Fresh, map[]);
    var s1 := Reserved(g, Fresh);
    var s2 := PublishIt(s1);
    var s3, s4 := StopIt(s2);
    var s5, s6, s7 := RetryTwice(s4);
    states := [g, s1, s2, s3, s4, s5, s6, s7];
  }

  // ---------- A Stop that was not applied ----------

  /** A not-applied settlement leaves no trace of the key: record and index entry are
      gone together, and no other record holds the key. */
  lemma NotAppliedForgets(limits: Limits, g: Registry, id: nat, reason: nat)
    requires Inv(limits, g) && id in g.o.settlements
    ensures var h, record := SettleOn(g, id, NotApplied(reason)), g.s.runs[id].stop.value;
            && h.s.runs == g.s.runs[id := g.s.runs[id].(stop := None)] && h.s.stops == g.s.stops - {record.key}
            && id !in h.o.settlements
            && h.o.cells[record.cell].result == Some(NotApplied(reason))
            && forall other :: other in h.s.runs && h.s.runs[other].stop.Some? ==> h.s.runs[other].stop.value.key != record.key
  {
    assert InFlight(g, id);
    SettleIndexes(g, id, NotApplied(reason));
  }

  /** Its funding goes with the record: exactly the bytes the Stop was admitted with. */
  lemma NotAppliedRefunds(limits: Limits, g: Registry, id: nat, reason: nat)
    requires Inv(limits, g) && id in g.o.settlements
    ensures var h, charge := SettleOn(g, id, NotApplied(reason)), StopCharge(limits, g.s.runs[id].stop.value.key);
            && h.o.control == Refund(g.o.control, charge)
            && Total(h.s.runs, StopBytes) == Total(g.s.runs, StopBytes) - charge
  {
    assert InFlight(g, id);
    SwapMovesFunds(g.s.runs, id, g.s.runs[id].(stop := None));
  }

  /** So the same key may be bound again at once. */
  lemma NotAppliedFreesKey(limits: Limits, g: Registry, id: nat, reason: nat, cell: nat)
    requires Inv(limits, g) && id in g.o.settlements && cell !in g.o.cells
    ensures Enabled(limits, SettleOn(g, id, NotApplied(reason)), BeginStop(id, g.s.runs[id].stop.value.key, cell))
  {
    assert InFlight(g, id);
    NotAppliedRefunds(limits, g, id, reason);
  }

  lemma ForgetUndoesBegin(s: State, id: nat, record: StopRecord)
    requires id in s.runs && s.runs[id].stop.None? && record.key !in s.stops
    ensures ForgetStopOn(BeginStopOn(s, id, record), id) == s
  {
    var t := ForgetStopOn(BeginStopOn(s, id, record), id);
    assert t.runs == s.runs && t.stops == s.stops;
  }

  /** Round trip: binding a Stop and settling it as not applied restores the Registry and
      the control budget; what stays is the answered cell and the caller's own pin. */
  lemma RefusalUndoesBegin(limits: Limits, g: Registry, id: nat, key: nat, cell: nat, reason: nat)
    requires StopsOwned(g) && Enabled(limits, g, BeginStop(id, key, cell))
    ensures var h := SettleOn(Apply(limits, g, BeginStop(id, key, cell)), id, NotApplied(reason));
            && h.s == g.s && h.o.control == g.o.control && h.o.settlements == g.o.settlements
            && h.o.pins == g.o.pins + multiset{id}
            && h.o.cells == g.o.cells[cell := Cell(key, Some(NotApplied(reason)))]
  {
    ForgetUndoesBegin(g.s, id, StopRecord(key, cell, StopCharge(limits, key)));
    forall i | i in g.o.settlements ensures i != id { assert InFlight(g, i); }
  }

  // ---------- A Stop whose Run is removed ----------

  /** Removing a Run takes its key out of the index at once, and its receipt is given back
      when the removed entry is dropped: exactly the bytes it held. */
  lemma RemovalRefunds(limits: Limits, g: Registry, id: nat, ordinals: map<nat, nat>)
    requires Inv(limits, g) && Enabled(limits, g, Remove(id, ordinals))
    ensures var out, bytes := Apply(limits, g, Remove(id, ordinals)), StopBytes(g.s.runs[id]);
            && Enabled(limits, out, DropRemoved(bytes))
            && (forall key :: key in out.s.stops ==> out.s.stops[key] != id)
            && Apply(limits, out, DropRemoved(bytes)).o.control == Refund(g.o.control, bytes)
            && Total(out.s.runs, StopBytes) == Total(g.s.runs, StopBytes) - bytes
  {
    WeighOne(g.s.runs, StopBytes, id);
    TotalSplit(g.s.runs, StopBytes, [id]);
  }
}
