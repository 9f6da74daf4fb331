/** What the statistics cells say about the calls (crates/ctxmux-daemon/src/qualification_stats.rs:
  183-334). */
module StatsAccounting {
  import opened MapSums
  import opened SnapshotStats
  import Runs

  // ---------- What one call is for ----------

  /** What a call adds to this cell, and what it takes away. */
  function Plus(call: Call, cell: nat): nat {
    match call
    case SetMany(_) => 0
    case Adjust(gauge, up) => if cell == gauge && up then 1 else 0
    case Increment(counter, delta) => if cell == counter then delta else 0
    case RecordSelection(evaluated) => if cell == SELECTIONS then 1 else if cell == EVALUATIONS_TOTAL then evaluated else 0
  }

  function Minus(call: Call, cell: nat): nat { if call.Adjust? && call.gauge == cell && !call.up then 1 else 0 }

  /** A call that stores into this cell whatever it holds. */
  predicate Stores(call: Call, cell: nat) { call.SetMany? && exists i :: 0 <= i < |call.values| && call.values[i].0 == cell }

  // ---------- What the open sections still owe ----------

  function PlusOf(op: Micro, cell: nat): nat {
    match op
    case Bump(gauge, up) => if cell == gauge && up then 1 else 0
    case Count(counter, delta) => if cell == counter then delta else 0
    case _ => 0
  }

  function MinusOf(op: Micro, cell: nat): nat { if op.Bump? && op.gauge == cell && !op.up then 1 else 0 }

  function PlusIn(todo: seq<Micro>, cell: nat): nat { if todo == [] then 0 else PlusOf(todo[0], cell) + PlusIn(todo[1..], cell) }

  function MinusIn(todo: seq<Micro>, cell: nat): nat { if todo == [] then 0 else MinusOf(todo[0], cell) + MinusIn(todo[1..], cell) }

  function PlusOwed(cell: nat): Writer -> nat { (writer: Writer) => if writer.Open? then PlusIn(writer.todo, cell) else 0 }

  function MinusOwed(cell: nat): Writer -> nat { (writer: Writer) => if writer.Open? then MinusIn(writer.todo, cell) else 0 }

  predicate StoresNothing(todo: seq<Micro>, cell: nat) { forall i :: 0 <= i < |todo| ==> !(todo[i].Put? && todo[i].gauge == cell) }

  /** The cell and what is owed to it make up what the calls were for. */
  ghost predicate Balanced(s: State, cell: nat, plus: nat, minus: nat) {
    && |s.cells| == CELL_COUNT && cell < CELL_COUNT
    && s.cells[cell] + Total(s.writers, PlusOwed(cell)) + minus == Total(s.writers, MinusOwed(cell)) + plus
    && forall w :: w in s.writers && s.writers[w].Open? ==> StoresNothing(s.writers[w].todo, cell)
  }

  predicate Unbroken(s: State) { forall w :: w in s.writers ==> !s.writers[w].Panicked? }

  /** A gauge or one of the counters: the cells that calls add to. */
  predicate Summed(cell: nat) { cell < METRIC_COUNT || (2 * METRIC_COUNT <= cell < CELL_COUNT && cell != EVALUATIONS_MAX) }

  lemma {:induction false} PutAllOwesNothing(values: seq<(Gauge, Word)>, cell: nat)
    requires forall i :: 0 <= i < |values| ==> values[i].0 != cell
    ensures PlusIn(PutAll(values), cell) == 0 && MinusIn(PutAll(values), cell) == 0 && StoresNothing(PutAll(values), cell)
  {
    if values != [] {
      var rest := PutAll(values[1..]);
      PutAllOwesNothing(values[1..], cell);
      assert PutAll(values)[1..][1..] == rest;
      assert PutAll(values)[1..][0] == Raise(values[0].0, values[0].1);
    }
  }

  lemma ThreeOwe(a: Micro, b: Micro, c: Micro, cell: nat)
    ensures PlusIn([a, b, c], cell) == PlusOf(a, cell) + PlusOf(b, cell) + PlusOf(c, cell)
    ensures MinusIn([a, b, c], cell) == MinusOf(a, cell) + MinusOf(b, cell) + MinusOf(c, cell)
  {
    var all, two, one := [a, b, c], [b, c], [c];
    assert all[1..] == two && two[1..] == one && one[1..] == [];
    assert all[0] == a && two[0] == b && one[0] == c;
    assert PlusIn(one[1..], cell) == 0 && MinusIn(one[1..], cell) == 0;
    assert PlusIn(two[1..], cell) == PlusOf(c, cell) && MinusIn(two[1..], cell) == MinusOf(c, cell);
  }

  lemma ProgramOwes(call: Call, cell: nat)
    requires !Stores(call, cell)
    ensures PlusIn(Program(call), cell) == Plus(call, cell) && MinusIn(Program(call), cell) == Minus(call, cell)
    ensures StoresNothing(Program(call), cell)
  {
    match call
    case SetMany(values) => PutAllOwesNothing(values, cell);
    case RecordSelection(evaluated) =>
      ThreeOwe(Count(SELECTIONS, 1), Count(EVALUATIONS_TOTAL, evaluated), RaiseMax(evaluated), cell);
    case Adjust(gauge, up) => assert Program(call)[1..] == [];
    case Increment(counter, delta) => assert Program(call)[1..] == [];
  }

  /** Giving one section other work moves a total by the difference. */
  lemma SectionMoves(writers: map<nat, Writer>, w: nat, writer: Writer, weight: Writer -> nat)
    requires w in writers
    ensures Total(writers[w := writer], weight) + weight(writers[w]) == Total(writers, weight) + weight(writer)
  {
    TotalWithout(writers, weight, w);
    TotalWithout(writers[w := writer], weight, w);
    assert writers[w := writer] - {w} == writers - {w};
  }

  lemma BeginBalances(s: State, w: nat, call: Call, cell: nat, plus: nat, minus: nat)
    requires Balanced(s, cell, plus, minus) && w !in s.writers && !Stores(call, cell)
    ensures Balanced(Apply(s, Begin(w, call)), cell, plus + Plus(call, cell), minus + Minus(call, cell))
  {
    ProgramOwes(call, cell);
    TotalWith(s.writers, PlusOwed(cell), w, Open(Program(call)));
    TotalWith(s.writers, MinusOwed(cell), w, Open(Program(call)));
  }

  lemma MicroBalances(s: State, w: nat, cell: nat, plus: nat, minus: nat)
    requires Balanced(s, cell, plus, minus) && Summed(cell) && Enabled(s, Execute(w)) && Unbroken(Apply(s, Execute(w)))
    ensures Balanced(Apply(s, Execute(w)), cell, plus, minus)
  {
    var t := Apply(s, Execute(w));
    var now := t.writers[w];
    assert !now.Panicked?;
    OpBalances(s, w, cell);
    SectionMoves(s.writers, w, now, PlusOwed(cell));
    SectionMoves(s.writers, w, now, MinusOwed(cell));
    assert t.writers == s.writers[w := now];
  }

  /** One operation does to the cell what it takes off the section's list. */
  lemma OpBalances(s: State, w: nat, cell: nat)
    requires |s.cells| == CELL_COUNT && Summed(cell) && Enabled(s, Execute(w)) && StoresNothing(s.writers[w].todo, cell)
    ensures var t := Apply(s, Execute(w));
            t.writers[w].Open? ==>
              && s.cells[cell] + PlusIn(s.writers[w].todo, cell) + MinusIn(t.writers[w].todo, cell)
                 == t.cells[cell] + PlusIn(t.writers[w].todo, cell) + MinusIn(s.writers[w].todo, cell)
              && StoresNothing(t.writers[w].todo, cell)
  {
    var todo, now := s.writers[w].todo, Apply(s, Execute(w)).writers[w];
    assert todo[0].Bump? && now.Open? ==> now.todo[1..] == todo[1..];
  }

  lemma ClosingBalances(s: State, step: Step, cell: nat, plus: nat, minus: nat)
    requires Balanced(s, cell, plus, minus) && Enabled(s, step) && (step.BumpRevision? || step.End? || step.Read?) && Unbroken(Apply(s, step))
    ensures Balanced(Apply(s, step), cell, plus, minus)
  {
    match step
    case BumpRevision(w) =>
      assert !Apply(s, step).writers[w].Panicked?;
      SectionMoves(s.writers, w, Closing, PlusOwed(cell));
      SectionMoves(s.writers, w, Closing, MinusOwed(cell));
    case End(w) =>
      TotalWithout(s.writers, PlusOwed(cell), w);
      TotalWithout(s.writers, MinusOwed(cell), w);
    case Read =>
  }

  // ---------- Over whole runs ----------

  function PlusBegun(steps: seq<Step>, cell: nat): nat {
    if steps == [] then 0
    else
      var last := steps[|steps| - 1];
      PlusBegun(steps[..|steps| - 1], cell) + if last.Begin? then Plus(last.call, cell) else 0
  }

  function MinusBegun(steps: seq<Step>, cell: nat): nat {
    if steps == [] then 0
    else
      var last := steps[|steps| - 1];
      MinusBegun(steps[..|steps| - 1], cell) + if last.Begin? then Minus(last.call, cell) else 0
  }

  predicate NeverStored(steps: seq<Step>, cell: nat) { forall i :: 0 <= i < |steps| && steps[i].Begin? ==> !Stores(steps[i].call, cell) }

  lemma PanicStays(s: State, step: Step)
    requires |s.cells| == CELL_COUNT && Enabled(s, step) && Unbroken(Apply(s, step))
    ensures Unbroken(s)
  {
    forall w | w in s.writers ensures !s.writers[w].Panicked? {
      if !step.End? || step.w != w { assert w in Apply(s, step).writers; }
    }
  }

  lemma {:induction false} RunBalances(steps: seq<Step>, states: seq<State>, k: nat, cell: nat)
    requires Execution(steps, states) && k < |states| && Summed(cell) && NeverStored(steps, cell) && Unbroken(states[k])
    ensures Balanced(states[k], cell, PlusBegun(steps[..k], cell), MinusBegun(steps[..k], cell))
  {
    if k > 0 {
      var s, step := states[k - 1], steps[k - 1];
      assert Next(s, step, states[k]);
      PanicStays(s, step);
      RunBalances(steps, states, k - 1, cell);
      assert steps[..k][..k - 1] == steps[..k - 1];
      var plus, minus := PlusBegun(steps[..k - 1], cell), MinusBegun(steps[..k - 1], cell);
      match step
      case Begin(w, call) => BeginBalances(s, w, call, cell, plus, minus);
      case Execute(w) => MicroBalances(s, w, cell, plus, minus);
      case _ => ClosingBalances(s, step, cell, plus, minus);
    }
  }

  /** In every run without a panic: with no section open, each gauge that is only adjusted is
      the number of its ups less its downs, and each counter the sum of what the calls added,
      whatever the interleaving. */
  lemma QuietCellsAreSums(steps: seq<Step>, states: seq<State>, k: nat, cell: nat)
    requires Execution(steps, states) && k < |states| && states[k].writers == map[]
    requires Summed(cell) && NeverStored(steps, cell)
    ensures |states[k].cells| == CELL_COUNT
    ensures states[k].cells[cell] == PlusBegun(steps[..k], cell) - MinusBegun(steps[..k], cell)
  {
    RunBalances(steps, states, k, cell);
  }

  // ---------- Peaks ----------

  /** The cell an operation only ever raises. */
  function Peak(raise: Micro): nat
    requires raise.Raise? || raise.RaiseMax?
  {
    if raise.Raise? then High(raise.gauge) else EVALUATIONS_MAX
  }

  /** This value has been raised to, or some section is about to, or has panicked. */
  ghost predicate PeakKept(s: State, raise: Micro)
    requires |s.cells| == CELL_COUNT && (raise.Raise? || raise.RaiseMax?)
  {
    || s.cells[Peak(raise)] >= raise.value
    || exists w :: w in s.writers && (s.writers[w].Panicked? || (s.writers[w].Open? && raise in s.writers[w].todo))
  }

  lemma PeakStays(s: State, step: Step, raise: Micro)
    requires |s.cells| == CELL_COUNT && Enabled(s, step) && (raise.Raise? || raise.RaiseMax?) && PeakKept(s, raise)
    ensures |Apply(s, step).cells| == CELL_COUNT && PeakKept(Apply(s, step), raise)
  {
    var t := Apply(s, step);
    if s.cells[Peak(raise)] < raise.value {
      var w :| w in s.writers && (s.writers[w].Panicked? || (s.writers[w].Open? && raise in s.writers[w].todo));
      if s.writers[w].Open? {
        var i :| 0 <= i < |s.writers[w].todo| && s.writers[w].todo[i] == raise;
        if step == Execute(w) && i > 0 {
          assert s.writers[w].todo[1..][i - 1] == raise;
          if t.writers[w].Open? { assert raise in t.writers[w].todo; }
        }
      }
      assert t.cells[Peak(raise)] >= raise.value || w in t.writers;
    }
  }

  /** Whatever a gauge holds was raised, is being raised, or its section panicked. */
  lemma PresentIsKept(s: State, g: Gauge)
    requires Consistent(s)
    ensures s.cells[g] < U64_MODULUS ==> PeakKept(s, Raise(g, s.cells[g]))
  {
    if s.cells[g] > s.cells[High(g)] && s.cells[g] < U64_MODULUS {
      var w :| w in s.writers && Owes(s.writers[w], g, s.cells[g]);
      if s.writers[w].Open? { assert s.writers[w].todo[0] == Raise(g, s.cells[g]); }
    }
  }

  predicate WordCells(s: State) { |s.cells| == CELL_COUNT && forall i :: 0 <= i < CELL_COUNT ==> s.cells[i] < U64_MODULUS }

  lemma WordsStay(s: State, step: Step)
    requires WordCells(s) && Enabled(s, step)
    ensures WordCells(Apply(s, step))
  {
  }

  lemma {:induction false} RunWords(steps: seq<Step>, states: seq<State>, k: nat)
    requires Execution(steps, states) && k < |states|
    ensures WordCells(states[k])
  {
    if k > 0 {
      RunWords(steps, states, k - 1);
      assert Next(states[k - 1], steps[k - 1], states[k]);
      WordsStay(states[k - 1], steps[k - 1]);
    }
  }

  lemma {:induction false} PeakIsKept(steps: seq<Step>, states: seq<State>, j: nat, k: nat, g: Gauge)
    requires Execution(steps, states) && j <= k < |states|
    ensures WordCells(states[j]) && WordCells(states[k])
    ensures PeakKept(states[k], Raise(g, states[j].cells[g]))
    decreases k
  {
    RunWords(steps, states, j);
    RunWords(steps, states, k);
    if j == k {
      RunInvariant(steps, states, k);
      PresentIsKept(states[k], g);
    } else {
      PeakIsKept(steps, states, j, k - 1, g);
      assert Next(states[k - 1], steps[k - 1], states[k]);
      PeakStays(states[k - 1], steps[k - 1], Raise(g, states[j].cells[g]));
    }
  }

  /** In every run: with no section open, a gauge's high-water mark is no less than any value
      the gauge ever held, even between the two operations of an update. */
  lemma HighWaterCoversHistory(steps: seq<Step>, states: seq<State>, j: nat, k: nat, g: Gauge)
    requires Execution(steps, states) && j <= k < |states| && states[k].writers == map[]
    ensures |states[j].cells| == CELL_COUNT && |states[k].cells| == CELL_COUNT
    ensures states[k].cells[High(g)] >= states[j].cells[g]
  {
    PeakIsKept(steps, states, j, k, g);
  }

  /** Raises only name values the gauge has held. */
  ghost predicate RaisesTrue(s: State, g: Gauge, held: set<nat>) {
    && |s.cells| == CELL_COUNT
    && s.cells[g] in held && s.cells[High(g)] in held
    && forall w :: w in s.writers && s.writers[w].Open? ==> forall i :: 0 <= i < |s.writers[w].todo| ==> RaiseTrue(s.writers[w].todo, i, g, held)
  }

  ghost predicate RaiseTrue(todo: seq<Micro>, i: nat, g: Gauge, held: set<nat>)
    requires i < |todo|
  {
    todo[i].Raise? && todo[i].gauge == g ==> todo[i].value in held || (i > 0 && todo[i - 1] == Put(g, todo[i].value))
  }

  lemma {:induction false} PutAllRaisesTrue(values: seq<(Gauge, Word)>, g: Gauge, held: set<nat>)
    ensures forall i :: 0 <= i < |PutAll(values)| ==> RaiseTrue(PutAll(values), i, g, held)
    ensures PutAll(values) != [] ==> PutAll(values)[0].Put?
  {
    if values != [] {
      var todo, rest := PutAll(values), PutAll(values[1..]);
      PutAllRaisesTrue(values[1..], g, held);
      forall i | 0 <= i < |todo| ensures RaiseTrue(todo, i, g, held) {
        if i >= 2 {
          assert todo[i] == rest[i - 2] && RaiseTrue(rest, i - 2, g, held);
          if i > 2 { assert todo[i - 1] == rest[i - 3]; }
        }
      }
    }
  }

  lemma RaisesStayTrue(s: State, step: Step, g: Gauge, held: set<nat>)
    requires RaisesTrue(s, g, held) && Enabled(s, step)
    ensures |Apply(s, step).cells| == CELL_COUNT && RaisesTrue(Apply(s, step), g, held + {Apply(s, step).cells[g]})
  {
    var t := Apply(s, step);
    var now := held + {t.cells[g]};
    match step
    case Begin(w, call) =>
      if call.SetMany? { PutAllRaisesTrue(call.values, g, now); }
      forall i | 0 <= i < |Program(call)| ensures RaiseTrue(Program(call), i, g, now) {}
      forall v | v in t.writers && t.writers[v].Open? ensures forall i :: 0 <= i < |t.writers[v].todo| ==> RaiseTrue(t.writers[v].todo, i, g, now) {
        if v != w { forall i | 0 <= i < |s.writers[v].todo| ensures RaiseTrue(s.writers[v].todo, i, g, now) { assert RaiseTrue(s.writers[v].todo, i, g, held); } }
      }
    case Execute(w) =>
      var todo := s.writers[w].todo;
      assert RaiseTrue(todo, 0, g, held);
      forall v | v in t.writers && t.writers[v].Open? ensures forall i :: 0 <= i < |t.writers[v].todo| ==> RaiseTrue(t.writers[v].todo, i, g, now) {
        forall i | 0 <= i < |t.writers[v].todo| ensures RaiseTrue(t.writers[v].todo, i, g, now) {
          if v != w {
            assert RaiseTrue(s.writers[v].todo, i, g, held);
          } else if todo[0].Bump? {
            if i > 0 { assert t.writers[w].todo[i] == todo[i] && RaiseTrue(todo, i, g, held); if i > 1 { assert t.writers[w].todo[i - 1] == todo[i - 1]; } }
          } else {
            assert t.writers[w].todo[i] == todo[i + 1] && RaiseTrue(todo, i + 1, g, held);
            if i > 0 { assert t.writers[w].todo[i - 1] == todo[i]; }
          }
        }
      }
    case _ =>
      forall v | v in t.writers && t.writers[v].Open? ensures forall i :: 0 <= i < |t.writers[v].todo| ==> RaiseTrue(t.writers[v].todo, i, g, now) {
        forall i | 0 <= i < |t.writers[v].todo| ensures RaiseTrue(t.writers[v].todo, i, g, now) { assert RaiseTrue(s.writers[v].todo, i, g, held); }
      }
  }

  /** The values this gauge has held up to here. */
  ghost function HeldBy(states: seq<State>, k: nat, g: Gauge): set<nat>
    requires k < |states| && forall i :: 0 <= i < |states| ==> |states[i].cells| == CELL_COUNT
  {
    {states[k].cells[g]} + if k == 0 then {} else HeldBy(states, k - 1, g)
  }

  lemma {:induction false} HeldMeans(states: seq<State>, k: nat, g: Gauge, value: nat)
    requires k < |states| && forall i :: 0 <= i < |states| ==> |states[i].cells| == CELL_COUNT
    requires value in HeldBy(states, k, g)
    ensures exists j :: 0 <= j <= k && states[j].cells[g] == value
  {
    if states[k].cells[g] != value { HeldMeans(states, k - 1, g, value); }
  }

  lemma {:induction false} RunRaisesTrue(steps: seq<Step>, states: seq<State>, k: nat, g: Gauge)
    requires Execution(steps, states) && k < |states| && forall i :: 0 <= i < |states| ==> |states[i].cells| == CELL_COUNT
    ensures RaisesTrue(states[k], g, HeldBy(states, k, g))
  {
    if k > 0 {
      RunRaisesTrue(steps, states, k - 1, g);
      assert Next(states[k - 1], steps[k - 1], states[k]);
      RaisesStayTrue(states[k - 1], steps[k - 1], g, HeldBy(states, k - 1, g));
      assert HeldBy(states, k, g) == HeldBy(states, k - 1, g) + {states[k].cells[g]};
    }
  }

  /** In every run a high-water mark is a value its gauge really held. */
  lemma HighWaterWasHeld(steps: seq<Step>, states: seq<State>, k: nat, g: Gauge)
    requires Execution(steps, states) && k < |states|
    ensures forall i :: 0 <= i < |states| ==> |states[i].cells| == CELL_COUNT
    ensures exists j :: 0 <= j <= k && states[j].cells[g] == states[k].cells[High(g)]
  {
    forall i | 0 <= i < |states| ensures |states[i].cells| == CELL_COUNT { RunWords(steps, states, i); }
    RunRaisesTrue(steps, states, k, g);
    HeldMeans(states, k, g, states[k].cells[High(g)]);
  }

  lemma {:induction false} SelectionPeak(steps: seq<Step>, states: seq<State>, i: nat, k: nat)
    requires Execution(steps, states) && i < k < |states| && steps[i].Begin? && steps[i].call.RecordSelection?
    ensures |states[k].cells| == CELL_COUNT && PeakKept(states[k], RaiseMax(steps[i].call.evaluated))
    decreases k
  {
    RunWords(steps, states, k);
    RunWords(steps, states, k - 1);
    assert Next(states[k - 1], steps[k - 1], states[k]);
    var raise := RaiseMax(steps[i].call.evaluated);
    if i == k - 1 {
      assert Program(steps[i].call)[2] == raise;
      assert steps[i].w in states[k].writers && raise in states[k].writers[steps[i].w].todo;
    } else {
      SelectionPeak(steps, states, i, k - 1);
      PeakStays(states[k - 1], steps[k - 1], raise);
    }
  }

  /** In every run: with no section open, the evaluation maximum is no less than what any
      selection begun before evaluated. */
  lemma MaximumCoversSelections(steps: seq<Step>, states: seq<State>, i: nat, k: nat)
    requires Execution(steps, states) && i < k < |states| && states[k].writers == map[]
    requires steps[i].Begin? && steps[i].call.RecordSelection?
    ensures |states[k].cells| == CELL_COUNT && states[k].cells[EVALUATIONS_MAX] >= steps[i].call.evaluated
  {
    SelectionPeak(steps, states, i, k);
  }

  // ---------- Stored gauges ----------

  function ValuesOf(call: Call, g: Gauge): set<nat> {
    if call.SetMany? then set i | 0 <= i < |call.values| && call.values[i].0 == g :: call.values[i].1 as nat else {}
  }

  function ValuesSet(steps: seq<Step>, g: Gauge): set<nat> {
    if steps == [] then {}
    else
      var last := steps[|steps| - 1];
      ValuesSet(steps[..|steps| - 1], g) + if last.Begin? then ValuesOf(last.call, g) else {}
  }

  predicate NeverAdjusted(steps: seq<Step>, g: Gauge) { forall i :: 0 <= i < |steps| && steps[i].Begin? ==> !(steps[i].call.Adjust? && steps[i].call.gauge == g) }

  /** Pending stores into the gauge are of values it is to be set to, and it is not adjusted. */
  predicate StoresTrue(todo: seq<Micro>, g: Gauge, values: set<nat>) {
    forall i :: 0 <= i < |todo| ==> (todo[i].Put? && todo[i].gauge == g ==> todo[i].value in values) && !(todo[i].Bump? && todo[i].gauge == g)
  }

  predicate HasStore(todo: seq<Micro>, g: Gauge) { exists i :: 0 <= i < |todo| && todo[i].Put? && todo[i].gauge == g }

  /** The gauge holds one of these values, or nothing yet, or a store is on its way. */
  ghost predicate Stored(s: State, g: Gauge, values: set<nat>) {
    && |s.cells| == CELL_COUNT
    && (forall w :: w in s.writers && s.writers[w].Open? ==> StoresTrue(s.writers[w].todo, g, values))
    && (s.cells[g] in values || values == {} || exists w :: Storing(s, w, g))
  }

  lemma {:induction false} PutAllStores(values: seq<(Gauge, Word)>, g: Gauge)
    ensures StoresTrue(PutAll(values), g, ValuesOf(SetMany(values), g))
    ensures ValuesOf(SetMany(values), g) != {} ==> HasStore(PutAll(values), g)
  {
    if values != [] {
      var todo, rest := PutAll(values), PutAll(values[1..]);
      PutAllStores(values[1..], g);
      assert forall v :: v in ValuesOf(SetMany(values[1..]), g) ==> v in ValuesOf(SetMany(values), g) by {
        assert forall i :: 0 <= i < |values[1..]| ==> values[1..][i] == values[i + 1];
      }
      assert values[0].0 == g ==> (values[0].1 as nat) in ValuesOf(SetMany(values), g);
      forall i | 0 <= i < |todo|
        ensures (todo[i].Put? && todo[i].gauge == g ==> todo[i].value in ValuesOf(SetMany(values), g)) && !(todo[i].Bump? && todo[i].gauge == g)
      {
        if i >= 2 { assert todo[i] == rest[i - 2]; }
      }
      if values[0].0 == g {
        assert todo[0].Put? && todo[0].gauge == g;
      } else if v :| v in ValuesOf(SetMany(values), g) {
        var i :| 0 <= i < |values| && values[i].0 == g && values[i].1 as nat == v;
        assert values[1..][i - 1] == values[i];
        assert v in ValuesOf(SetMany(values[1..]), g);
        var j :| 0 <= j < |rest| && rest[j].Put? && rest[j].gauge == g;
        assert todo[j + 2] == rest[j];
      }
    }
  }

  lemma ProgramStores(call: Call, g: Gauge)
    requires !(call.Adjust? && call.gauge == g)
    ensures StoresTrue(Program(call), g, ValuesOf(call, g)) && (ValuesOf(call, g) != {} ==> HasStore(Program(call), g))
  {
    if call.SetMany? { PutAllStores(call.values, g); }
  }

  /** A section that still has a store for the gauge, or never finished it. */
  ghost predicate Storing(s: State, v: nat, g: Gauge) {
    v in s.writers && (s.writers[v].Panicked? || (s.writers[v].Open? && HasStore(s.writers[v].todo, g)))
  }

  lemma BeginStored(s: State, w: nat, call: Call, g: Gauge, values: set<nat>)
    requires Stored(s, g, values) && w !in s.writers && !(call.Adjust? && call.gauge == g)
    ensures Stored(Apply(s, Begin(w, call)), g, values + ValuesOf(call, g))
  {
    var t := Apply(s, Begin(w, call));
    ProgramStores(call, g);
    assert t.writers[w] == Open(Program(call));
    if ValuesOf(call, g) != {} { assert Storing(t, w, g); } else { assert values + ValuesOf(call, g) == values; }
    if v :| Storing(s, v, g) { assert Storing(t, v, g); }
  }

  lemma ExecuteStored(s: State, w: nat, g: Gauge, values: set<nat>)
    requires Stored(s, g, values) && Enabled(s, Execute(w))
    ensures Stored(Apply(s, Execute(w)), g, values)
  {
    var t, todo := Apply(s, Execute(w)), s.writers[w].todo;
    OpStoresTrue(s, w, g, values);
    if v :| Storing(s, v, g) {
      if v == w {
        var i :| 0 <= i < |todo| && todo[i].Put? && todo[i].gauge == g;
        if i > 0 {
          RestStores(todo, i, t.writers[w], g);
          assert !t.writers[w].Closing? ==> Storing(t, w, g);
        }
      } else {
        assert Storing(t, v, g);
      }
    }
  }

  lemma CloseStored(s: State, step: Step, g: Gauge, values: set<nat>)
    requires Stored(s, g, values) && Enabled(s, step) && (step.BumpRevision? || step.End? || step.Read?)
    ensures Stored(Apply(s, step), g, values)
  {
    var t := Apply(s, step);
    if v :| Storing(s, v, g) { assert Storing(t, v, g); }
  }

  lemma RestStores(todo: seq<Micro>, i: nat, now: Writer, g: Gauge)
    requires 0 < i < |todo| && todo[i].Put? && todo[i].gauge == g
    requires now.Open? ==> now.todo == todo[1..] || (now.todo != [] && now.todo[1..] == todo[1..])
    ensures now.Open? ==> HasStore(now.todo, g)
  {
    if now.Open? {
      if now.todo == todo[1..] { assert now.todo[i - 1] == todo[i]; }
      else { assert now.todo[1..][i - 1] == todo[1..][i - 1]; assert now.todo[i] == todo[i]; }
    }
  }

  lemma OpStoresTrue(s: State, w: nat, g: Gauge, values: set<nat>)
    requires |s.cells| == CELL_COUNT && Enabled(s, Execute(w)) && StoresTrue(s.writers[w].todo, g, values)
    ensures var t := Apply(s, Execute(w));
            && (t.writers[w].Open? ==> StoresTrue(t.writers[w].todo, g, values))
            && (t.cells[g] == s.cells[g] || t.cells[g] in values)
            && (s.writers[w].todo[0].Put? && s.writers[w].todo[0].gauge == g ==> t.cells[g] in values)
            && (t.writers[w].Open? ==> t.writers[w].todo == s.writers[w].todo[1..]
                                       || (t.writers[w].todo != [] && t.writers[w].todo[1..] == s.writers[w].todo[1..]))
  {
    var todo, now := s.writers[w].todo, Apply(s, Execute(w)).writers[w];
    if now.Open? && todo[0].Bump? { assert now.todo[1..] == todo[1..]; }
  }

  lemma {:induction false} RunStored(steps: seq<Step>, states: seq<State>, k: nat, g: Gauge)
    requires Execution(steps, states) && k < |states| && NeverAdjusted(steps, g)
    ensures Stored(states[k], g, ValuesSet(steps[..k], g))
  {
    if k > 0 {
      RunStored(steps, states, k - 1, g);
      assert Next(states[k - 1], steps[k - 1], states[k]);
      assert steps[..k][..k - 1] == steps[..k - 1];
      var s, values := states[k - 1], ValuesSet(steps[..k - 1], g);
      match steps[k - 1]
      case Begin(w, call) => BeginStored(s, w, call, g, values);
      case Execute(w) => ExecuteStored(s, w, g, values);
      case _ => CloseStored(s, steps[k - 1], g, values);
    }
  }

  /** In every run: with no section open, a gauge that is only ever set holds a value some
      call has set it to, if any call has. */
  lemma QuietGaugeWasSet(steps: seq<Step>, states: seq<State>, k: nat, g: Gauge)
    requires Execution(steps, states) && k < |states| && states[k].writers == map[] && NeverAdjusted(steps, g)
    ensures |states[k].cells| == CELL_COUNT
    ensures ValuesSet(steps[..k], g) != {} ==> states[k].cells[g] in ValuesSet(steps[..k], g)
  {
    RunStored(steps, states, k, g);
  }
}
