/** Coherent statistics snapshots (crates/ctxmux-daemon/src/qualification_stats.rs). */
module SnapshotStats {
  import Runs

  // Any number of writers update shared atomics inside a write section bracketed by
  // `active += 1` and `revision += 1; active -= 1`.  One reader reads every cell
  // without a lock and retries until no section was open and the revision did not
  // move.  Every atomic operation is one step of the machine below; a writer may be
  // interrupted anywhere, and a panicking writer leaves its section open for ever.
  //
  // The 13 gauges, their 13 high-water marks and the 6 counters are one sequence of
  // 32 cells in the order the reader loads them.

  const METRIC_COUNT: nat := 13
  const CELL_COUNT: nat := 32
  const U64_MODULUS: nat := 0x1_0000_0000_0000_0000

  const SELECTIONS: nat := 27
  const EVALUATIONS_TOTAL: nat := 28
  const EVALUATIONS_MAX: nat := 29

  type Gauge = g: nat | g < METRIC_COUNT
  type Word = v: nat | v < U64_MODULUS
  type Counter = c: nat | 2 * METRIC_COUNT <= c < CELL_COUNT && c != EVALUATIONS_MAX witness 26

  function High(g: Gauge): nat { METRIC_COUNT + g }

  /** The public update calls. */
  datatype Call =
    | SetMany(values: seq<(Gauge, Word)>)
    | Adjust(gauge: Gauge, up: bool)
    | Increment(counter: Counter, delta: Word)
    | RecordSelection(evaluated: Word)

  /** The atomic operations a write section is made of. */
  datatype Micro =
    | Put(gauge: Gauge, value: Word)     // store
    | Bump(gauge: Gauge, up: bool)       // fetch_add / fetch_sub, then Raise the result
    | Raise(gauge: Gauge, value: Word)   // fetch_max on the high-water mark
    | Count(counter: Counter, delta: Word)
    | RaiseMax(value: Word)              // fetch_max on candidate_evaluations_max

  function Program(call: Call): seq<Micro> {
    match call
    case SetMany(values) => PutAll(values)
    case Adjust(gauge, up) => [Bump(gauge, up)]
    case Increment(counter, delta) => [Count(counter, delta)]
    case RecordSelection(evaluated) =>
      [Count(SELECTIONS, 1), Count(EVALUATIONS_TOTAL, evaluated), RaiseMax(evaluated)]
  }

  function PutAll(values: seq<(Gauge, Word)>): seq<Micro> {
    if values == [] then []
    else [Put(values[0].0, values[0].1), Raise(values[0].0, values[0].1)] + PutAll(values[1..])
  }

  /** A write section: still running, past its revision bump, or panicked. */
  datatype Writer = Open(todo: seq<Micro>) | Closing | Panicked

  datatype Reader =
    | CheckFirst
    | ReadRevision
    | Reading(revision: nat, got: seq<nat>)
    | CheckActive(revision: nat, got: seq<nat>)
    | CheckRevision(revision: nat, got: seq<nat>)
    | Returned(got: seq<nat>)

  datatype State = State(cells: seq<nat>, active: nat, revision: nat, writers: map<nat, Writer>, reader: Reader)

  predicate Initial(s: State) {
    && |s.cells| == CELL_COUNT
    && (forall i :: 0 <= i < CELL_COUNT ==> s.cells[i] == 0)
    && s.active == 0 && s.revision == 0 && s.writers == map[] && s.reader == CheckFirst
  }

  datatype Step =
    | Begin(w: nat, call: Call)
    | Execute(w: nat)
    | BumpRevision(w: nat)
    | End(w: nat)
    | Read

  predicate Enabled(s: State, step: Step) {
    match step
    case Begin(w, _) => w !in s.writers
    case Execute(w) => w in s.writers && s.writers[w].Open? && s.writers[w].todo != []
    case BumpRevision(w) => w in s.writers && s.writers[w] == Open([])
    case End(w) => w in s.writers && s.writers[w].Closing? && s.active > 0
    case Read => !s.reader.Returned?
  }

  function Max(a: nat, b: nat): nat { if a < b then b else a }

  /** One atomic operation of writer w; an overflow or underflow panics it. */
  function RunMicro(s: State, w: nat, op: Micro, rest: seq<Micro>): State
    requires |s.cells| == CELL_COUNT
  {
    match op
    case Put(g, v) => s.(cells := s.cells[g := v], writers := s.writers[w := Open(rest)])
    case Bump(g, up) =>
      if up then
        if s.cells[g] + 1 < U64_MODULUS
        then s.(cells := s.cells[g := s.cells[g] + 1], writers := s.writers[w := Open([Raise(g, s.cells[g] + 1)] + rest)])
        else s.(cells := s.cells[g := 0], writers := s.writers[w := Panicked])
      else
        if 0 < s.cells[g] <= U64_MODULUS
        then s.(cells := s.cells[g := s.cells[g] - 1], writers := s.writers[w := Open([Raise(g, s.cells[g] - 1)] + rest)])
        else s.(cells := s.cells[g := U64_MODULUS - 1], writers := s.writers[w := Panicked])
    case Raise(g, v) =>
      s.(cells := s.cells[High(g) := Max(s.cells[High(g)], v)], writers := s.writers[w := Open(rest)])
    case Count(c, d) =>
      if s.cells[c] + d < U64_MODULUS
      then s.(cells := s.cells[c := s.cells[c] + d], writers := s.writers[w := Open(rest)])
      else s.(writers := s.writers[w := Panicked])
    case RaiseMax(v) =>
      s.(cells := s.cells[EVALUATIONS_MAX := Max(s.cells[EVALUATIONS_MAX], v)], writers := s.writers[w := Open(rest)])
  }

  function Apply(s: State, step: Step): State
    requires Enabled(s, step) && |s.cells| == CELL_COUNT
  {
    match step
    case Begin(w, call) => s.(active := s.active + 1, writers := s.writers[w := Open(Program(call))])
    case Execute(w) => RunMicro(s, w, s.writers[w].todo[0], s.writers[w].todo[1..])
    case BumpRevision(w) =>
      if s.revision + 1 < U64_MODULUS
      then s.(revision := s.revision + 1, writers := s.writers[w := Closing])
      else s.(writers := s.writers[w := Panicked])
    case End(w) => s.(active := s.active - 1, writers := s.writers - {w})
    case Read => s.(reader := NextReader(s))
  }

  function NextReader(s: State): Reader
    requires |s.cells| == CELL_COUNT
  {
    match s.reader
    case CheckFirst => if s.active != 0 then CheckFirst else ReadRevision
    case ReadRevision => Reading(s.revision, [])
    case Reading(r, got) =>
      if |got| < CELL_COUNT then Reading(r, got + [s.cells[|got|]]) else CheckActive(r, got)
    case CheckActive(r, got) => if s.active == 0 then CheckRevision(r, got) else CheckFirst
    case CheckRevision(r, got) => if s.revision == r then Returned(got) else CheckFirst
    case Returned(got) => Returned(got)
  }

  predicate Next(s: State, step: Step, t: State) {
    |s.cells| == CELL_COUNT && Enabled(s, step) && t == Apply(s, step)
  }

  ghost predicate Execution(steps: seq<Step>, states: seq<State>) {
    && |states| == |steps| + 1
    && Initial(states[0])
    && forall i {:trigger steps[i]} :: 0 <= i < |steps| ==> Next(states[i], steps[i], states[i + 1])
  }

  // ---------- What a write section keeps ----------

  /** Each store is followed by its own high-water update. */
  ghost predicate StoresRaised(todo: seq<Micro>) {
    forall i :: 0 <= i < |todo| && todo[i].Put? ==>
      i + 1 < |todo| && todo[i + 1] == Raise(todo[i].gauge, todo[i].value)
  }

  /** Each evaluation maximum comes directly after its evaluation total. */
  ghost predicate TotalsFirst(todo: seq<Micro>) {
    forall i :: 0 < i < |todo| && todo[i].RaiseMax? ==> todo[i - 1] == Count(EVALUATIONS_TOTAL, todo[i].value)
  }

  ghost predicate NoRaiseMax(todo: seq<Micro>) {
    forall i :: 0 <= i < |todo| ==> !todo[i].RaiseMax?
  }

  lemma {:induction false} PutAllShape(values: seq<(Gauge, Word)>)
    ensures StoresRaised(PutAll(values)) && NoRaiseMax(PutAll(values))
  {
    if values != [] {
      PutAllShape(values[1..]);
      var rest := PutAll(values[1..]);
      var todo := PutAll(values);
      assert forall i :: 2 <= i < |todo| ==> todo[i] == rest[i - 2];
    }
  }

  /** Writer w owes gauge g the high-water update for its present value. */
  ghost predicate Owes(writer: Writer, g: Gauge, value: nat) {
    || writer.Panicked?
    || (writer.Open? && writer.todo != [] && writer.todo[0].Raise?
        && writer.todo[0].gauge == g && writer.todo[0].value == value)
  }

  ghost predicate RaiseDue(s: State, g: Gauge)
    requires |s.cells| == CELL_COUNT
  {
    exists w :: w in s.writers && Owes(s.writers[w], g, s.cells[g])
  }

  ghost predicate TodoOk(todo: seq<Micro>, total: nat) {
    && StoresRaised(todo)
    && TotalsFirst(todo)
    && (todo != [] && todo[0].RaiseMax? ==> todo[0].value <= total)
  }

  ghost predicate SectionOk(s: State, w: nat)
    requires |s.cells| == CELL_COUNT && w in s.writers
  {
    s.writers[w].Open? ==> TodoOk(s.writers[w].todo, s.cells[EVALUATIONS_TOTAL])
  }

  ghost predicate Consistent(s: State) {
    && |s.cells| == CELL_COUNT
    && |s.writers| == s.active
    && (forall w :: w in s.writers ==> SectionOk(s, w))
    && (forall g: Gauge :: s.cells[g] <= s.cells[High(g)] || RaiseDue(s, g))
    && s.cells[EVALUATIONS_MAX] <= s.cells[EVALUATIONS_TOTAL]
  }

  /** Facts that hold of the cells whenever no write section is open. */
  ghost predicate QuietFacts(cells: seq<nat>) {
    && |cells| == CELL_COUNT
    && (forall g: Gauge :: cells[g] <= cells[High(g)])
    && cells[EVALUATIONS_MAX] <= cells[EVALUATIONS_TOTAL]
  }

  /** The running writer's own section, one operation further. */
  lemma MicroKeepsOwn(s: State, w: nat)
    requires |s.cells| == CELL_COUNT && Enabled(s, Execute(w)) && SectionOk(s, w)
    ensures var t := Apply(s, Execute(w)); |t.cells| == CELL_COUNT && SectionOk(t, w)
  {
    var t := Apply(s, Execute(w));
    var todo := s.writers[w].todo;
    if t.writers[w].Open? {
      if todo[0].Bump? { assert t.writers[w].todo[1..] == todo[1..]; }
      assert forall i :: 0 <= i < |todo| - 1 ==> todo[1..][i] == todo[i + 1];
    }
  }

  /** The evaluation total never shrinks and nobody else's section changes. */
  lemma MicroKeepsOthers(s: State, w: nat)
    requires |s.cells| == CELL_COUNT && Enabled(s, Execute(w))
    ensures var t := Apply(s, Execute(w));
            && |t.cells| == CELL_COUNT && t.active == s.active && t.writers.Keys == s.writers.Keys
            && t.cells[EVALUATIONS_TOTAL] >= s.cells[EVALUATIONS_TOTAL]
            && forall x :: x in s.writers && x != w ==> t.writers[x] == s.writers[x]
  {
  }

  lemma MicroKeepsSections(s: State, w: nat)
    requires Consistent(s) && Enabled(s, Execute(w))
    ensures var t := Apply(s, Execute(w));
            |t.cells| == CELL_COUNT && |t.writers| == t.active && forall x :: x in t.writers ==> SectionOk(t, x)
  {
    MicroKeepsOwn(s, w);
    MicroKeepsOthers(s, w);
    var t := Apply(s, Execute(w));
    assert |t.writers| == |t.writers.Keys| && |s.writers| == |s.writers.Keys|;
    forall x | x in t.writers ensures SectionOk(t, x) {
      assert SectionOk(s, x);
    }
  }

  lemma MicroKeepsRaise(s: State, w: nat, g: Gauge)
    requires Consistent(s) && Enabled(s, Execute(w))
    requires |Apply(s, Execute(w)).cells| == CELL_COUNT
    ensures var t := Apply(s, Execute(w)); t.cells[g] <= t.cells[High(g)] || RaiseDue(t, g)
  {
    var t := Apply(s, Execute(w));
    var op := s.writers[w].todo[0];
    assert SectionOk(s, w);
    if ((op.Put? || op.Bump?) && op.gauge == g) || t.writers[w].Panicked? {
      assert Owes(t.writers[w], g, t.cells[g]);
    } else if s.cells[g] > s.cells[High(g)] {
      var x :| x in s.writers && Owes(s.writers[x], g, s.cells[g]);
      assert x == w || Owes(t.writers[x], g, t.cells[g]);
    }
  }

  lemma MicroKeepsTotals(s: State, w: nat)
    requires Consistent(s) && Enabled(s, Execute(w))
    requires |Apply(s, Execute(w)).cells| == CELL_COUNT
    ensures var t := Apply(s, Execute(w)); t.cells[EVALUATIONS_MAX] <= t.cells[EVALUATIONS_TOTAL]
  {
    assert SectionOk(s, w);
  }

  /** A step that touches no cell: only the stages of sections may change. */
  lemma QuietStepKeepsConsistent(s: State, t: State)
    requires Consistent(s) && t.cells == s.cells && |t.writers| == t.active
    requires forall w :: w in t.writers ==> SectionOk(t, w)
    requires forall w :: w in s.writers && (s.writers[w].Panicked? || (s.writers[w].Open? && s.writers[w].todo != []))
                         ==> w in t.writers && t.writers[w] == s.writers[w]
    ensures Consistent(t)
  {
    forall g: Gauge ensures t.cells[g] <= t.cells[High(g)] || RaiseDue(t, g) { RaiseDueFrame(s, t, g); }
  }

  lemma BeginKeepsConsistent(s: State, w: nat, call: Call)
    requires Consistent(s) && Enabled(s, Begin(w, call))
    ensures Consistent(Apply(s, Begin(w, call)))
  {
    var t := Apply(s, Begin(w, call));
    assert t.writers.Keys == s.writers.Keys + {w};
    assert |t.writers| == |t.writers.Keys|;
    ProgramShape(call);
    forall x | x in t.writers ensures SectionOk(t, x) { if x != w { assert SectionOk(s, x); } }
    QuietStepKeepsConsistent(s, t);
  }

  lemma CloseKeepsConsistent(s: State, step: Step)
    requires Consistent(s) && Enabled(s, step) && (step.BumpRevision? || step.End?)
    ensures Consistent(Apply(s, step))
  {
    var t := Apply(s, step);
    assert t.writers.Keys == if step.End? then s.writers.Keys - {step.w} else s.writers.Keys;
    assert |t.writers| == |t.writers.Keys| && |s.writers| == |s.writers.Keys|;
    forall x | x in t.writers ensures SectionOk(t, x) { assert SectionOk(s, x); }
    QuietStepKeepsConsistent(s, t);
  }

  lemma StepKeepsConsistent(s: State, step: Step)
    requires Consistent(s) && Enabled(s, step)
    ensures Consistent(Apply(s, step))
  {
    match step
    case Execute(w) =>
      MicroKeepsSections(s, w);
      MicroKeepsTotals(s, w);
      forall g: Gauge ensures Apply(s, step).cells[g] <= Apply(s, step).cells[High(g)] || RaiseDue(Apply(s, step), g) {
        MicroKeepsRaise(s, w, g);
      }
    case Begin(w, call) => BeginKeepsConsistent(s, w, call);
    case BumpRevision(_) => CloseKeepsConsistent(s, step);
    case End(_) => CloseKeepsConsistent(s, step);
    case Read =>
      forall w | w in s.writers ensures SectionOk(Apply(s, step), w) { assert SectionOk(s, w); }
      QuietStepKeepsConsistent(s, Apply(s, step));
  }

  lemma ProgramShape(call: Call)
    ensures StoresRaised(Program(call)) && TotalsFirst(Program(call))
    ensures Program(call) != [] ==> !Program(call)[0].RaiseMax?
  {
    if call.SetMany? { PutAllShape(call.values); }
  }

  /** Steps that touch no cell keep every outstanding high-water update. */
  lemma RaiseDueFrame(s: State, t: State, g: Gauge)
    requires |s.cells| == CELL_COUNT && t.cells == s.cells
    requires s.cells[g] <= s.cells[High(g)] || RaiseDue(s, g)
    requires forall w :: w in s.writers && (s.writers[w].Panicked? || (s.writers[w].Open? && s.writers[w].todo != []))
                         ==> w in t.writers && t.writers[w] == s.writers[w]
    ensures s.cells[g] <= s.cells[High(g)] || RaiseDue(t, g)
  {
  }

  // ---------- What the reader may conclude ----------

  /** A section that may still write, or has written since its revision bump was due. */
  ghost predicate Writing(s: State) {
    exists w :: w in s.writers && !s.writers[w].Closing?
  }

  /** Whatever the reader has loaded so far is the present memory, unless a section
      overlapped: then it is still open, or the revision has moved on. */
  ghost predicate ReaderOk(s: State) {
    && |s.cells| == CELL_COUNT
    && (s.reader.Reading? || s.reader.CheckActive? || s.reader.CheckRevision? ==> s.reader.revision <= s.revision)
    && (s.reader.Reading? ==>
          |s.reader.got| <= CELL_COUNT
          && (s.reader.got == s.cells[..|s.reader.got|] || s.revision > s.reader.revision || Writing(s)))
    && (s.reader.CheckActive? ==> s.reader.got == s.cells || s.revision > s.reader.revision || Writing(s))
  }

  lemma StepKeepsReader(s: State, step: Step)
    requires Consistent(s) && Enabled(s, step) && ReaderOk(s)
    ensures ReaderOk(Apply(s, step))
  {
    var t := Apply(s, step);
    if !step.Read? && (s.reader.Reading? || s.reader.CheckActive?) {
      match step
      case Begin(w, _) => if Writing(s) { var x :| x in s.writers && !s.writers[x].Closing?; assert x in t.writers; }
      case Execute(w) => assert w in t.writers && !t.writers[w].Closing?;
      case BumpRevision(w) => if t.revision == s.revision { assert t.writers[w].Panicked?; }
      case End(w) => if Writing(s) { var x :| x in s.writers && !s.writers[x].Closing?; assert x in t.writers; }
    }
  }

  /** states[j] is the linearization point: the reader is at its second activity
      check of the attempt it returned from, no section is open, memory equals got. */
  ghost predicate Witness(states: seq<State>, j: nat, got: seq<nat>) {
    && j < |states|
    && states[j].reader.CheckActive? && states[j].reader.got == got
    && states[j].writers == map[] && states[j].cells == got
  }

  /** The reader passed both activity checks with an unmoved revision. */
  ghost predicate Accepted(s: State, got: seq<nat>) {
    s.reader == Returned(got) || (s.reader.CheckRevision? && s.reader.got == got && s.reader.revision == s.revision)
  }

  lemma NextKeeps(s: State, step: Step, t: State)
    requires Consistent(s) && ReaderOk(s) && Next(s, step, t)
    ensures Consistent(t) && ReaderOk(t)
  {
    StepKeepsConsistent(s, step);
    StepKeepsReader(s, step);
  }

  lemma RunInvariant(steps: seq<Step>, states: seq<State>, k: nat)
    requires Execution(steps, states) && k < |states|
    ensures Consistent(states[k]) && ReaderOk(states[k])
  {
    forall s, step, t | Consistent(s) && ReaderOk(s) && Next(s, step, t) ensures Consistent(t) && ReaderOk(t) {
      NextKeeps(s, step, t);
    }
    Runs.HoldsThroughout((s: State) => Consistent(s) && ReaderOk(s), Next, steps, states, k);
  }

  lemma {:induction false} AcceptedHasWitness(steps: seq<Step>, states: seq<State>, k: nat, got: seq<nat>)
    requires Execution(steps, states) && k < |states| && Accepted(states[k], got)
    ensures exists j: nat :: j < k && Witness(states, j, got)
  {
    if k > 0 {
      var s, t := states[k - 1], states[k];
      RunInvariant(steps, states, k - 1);
      if s.reader.CheckActive? && steps[k - 1].Read? {
        assert |s.writers| == 0;
        assert s.writers.Keys == {};
        assert Witness(states, k - 1, got);
      } else {
        assert Accepted(s, got);
        AcceptedHasWitness(steps, states, k - 1, got);
        var j: nat :| j < k - 1 && Witness(states, j, got);
        assert j < k && Witness(states, j, got);
      }
    }
  }

  /** Main result: whatever interleaving, a returned snapshot equals the memory at
      one instant of the call at which no write section was open, and therefore no
      gauge exceeds its high-water mark and the largest evaluation count does not
      exceed the total. */
  lemma SnapshotIsCoherent(steps: seq<Step>, states: seq<State>, k: nat)
    requires Execution(steps, states) && k < |states| && states[k].reader.Returned?
    ensures exists j: nat :: j < k && Witness(states, j, states[k].reader.got)
    ensures QuietFacts(states[k].reader.got)
  {
    var got := states[k].reader.got;
    AcceptedHasWitness(steps, states, k, got);
    var j: nat :| j < k && Witness(states, j, got);
    RunInvariant(steps, states, j);
    assert forall g: Gauge :: !RaiseDue(states[j], g);
  }

  /** The reader still has to pass an activity check before it can return. */
  predicate Blocked(s: State, w: nat) {
    && w in s.writers && s.writers[w].Panicked?
    && !s.reader.Returned? && !s.reader.CheckRevision?
  }

  lemma StepKeepsBlocked(s: State, step: Step, t: State, w: nat)
    requires Consistent(s) && Next(s, step, t) && Blocked(s, w)
    ensures Blocked(t, w)
  {
    if step.Read? {
      assert w in s.writers.Keys;
      assert s.active > 0;
    }
  }

  /** A panicked writer never closes its section, so no attempt still short of its
      second activity check ever returns: an inconsistent cell is never shown. */
  lemma PanicBlocksSnapshots(steps: seq<Step>, states: seq<State>, i: nat, k: nat, w: nat)
    requires Execution(steps, states) && i <= k < |states| && Blocked(states[i], w)
    ensures Blocked(states[k], w)
  {
    RunInvariant(steps, states, i);
    forall s, step, t | Consistent(s) && ReaderOk(s) && Blocked(s, w) && Next(s, step, t)
      ensures Consistent(t) && ReaderOk(t) && Blocked(t, w)
    {
      NextKeeps(s, step, t);
      StepKeepsBlocked(s, step, t, w);
    }
    assert forall n {:trigger steps[i..][n]} :: 0 <= n < |steps| - i ==> steps[i..][n] == steps[i + n];
    Runs.HoldsThroughout((s: State) => Consistent(s) && ReaderOk(s) && Blocked(s, w), Next, steps[i..], states[i..], k - i);
  }

  // ---------- A reader that is left alone ----------

  function ReadTimes(s: State, n: nat): State
    requires |s.cells| == CELL_COUNT
    decreases n
  {
    if n == 0 || s.reader.Returned? then s else ReadTimes(Apply(s, Read), n - 1)
  }

  lemma {:induction false} ReadsCells(s: State, n: nat)
    requires |s.cells| == CELL_COUNT && s.reader.Reading? && |s.reader.got| + n <= CELL_COUNT && s.reader.got == s.cells[..|s.reader.got|]
    ensures ReadTimes(s, n) == s.(reader := Reading(s.reader.revision, s.cells[..|s.reader.got| + n]))
    decreases n
  {
    if n > 0 {
      var t := Apply(s, Read);
      assert t.reader.got == s.cells[..|s.reader.got| + 1];
      ReadsCells(t, n - 1);
    }
  }

  lemma {:induction false} ReadOn(s: State, m: nat, n: nat)
    requires |s.cells| == CELL_COUNT
    ensures |ReadTimes(s, m).cells| == CELL_COUNT && ReadTimes(ReadTimes(s, m), n) == ReadTimes(s, m + n)
    decreases m
  {
    if m > 0 && !s.reader.Returned? { ReadOn(Apply(s, Read), m - 1, n); }
  }

  /** With no section open and nobody interfering, an attempt returns exactly the cells after
      a fixed number of reads. */
  lemma SoleReaderReturns(s: State)
    requires |s.cells| == CELL_COUNT && s.active == 0 && s.reader == CheckFirst
    ensures ReadTimes(s, CELL_COUNT + 5) == s.(reader := Returned(s.cells))
  {
    var a := ReadTimes(s, 2);
    var t := Apply(s, Read);
    assert ReadTimes(Apply(t, Read), 0) == Apply(t, Read) && ReadTimes(t, 1) == Apply(t, Read);
    assert a == s.(reader := Reading(s.revision, [])) && s.cells[..0] == [];
    ReadsCells(a, CELL_COUNT);
    var b := ReadTimes(a, CELL_COUNT);
    assert s.cells[..CELL_COUNT] == s.cells;
    assert b == s.(reader := Reading(s.revision, s.cells));
    ReadOn(s, 2, CELL_COUNT);
    ReadOn(s, 2 + CELL_COUNT, 3);
    ReadTwice(b, Apply(b, Read));
  }

  lemma ReadTwice(b: State, c: State)
    requires |b.cells| == CELL_COUNT && b.active == 0 && b.reader == Reading(b.revision, b.cells) && c == Apply(b, Read)
    ensures ReadTimes(b, 3) == b.(reader := Returned(b.cells))
  {
    var d := Apply(c, Read);
    assert d.reader == CheckRevision(b.revision, b.cells);
    assert ReadTimes(d, 1) == Apply(d, Read) && ReadTimes(c, 2) == ReadTimes(d, 1);
  }
}
