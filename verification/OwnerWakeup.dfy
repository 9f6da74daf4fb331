/** Deferred-owner wakeup (crates/ctxmux-daemon/src/native_output.rs). */
module OwnerWakeup {

  // Several mutexes of one Run share a single `owner_deferred` flag.  The reactor
  // never blocks: it tries a mutex, and on failure publishes the flag and tries
  // once more.  Every owner guard, when dropped, unlocks, swaps the flag to false
  // and, if the flag was set, wakes the reactor.  Each atomic operation is one
  // step; any number of guards, on any mutexes, interleave with the reactor.
  //
  // A mutex can also be taken without an owner guard (crates/ctxmux-daemon/src/lib.rs:5526
  // does so for the persistence mutex); such a holder neither swaps nor wakes.

  /** Where one guard is between acquisition and the end of its drop. */
  datatype Stage = Held | Unlocked | Swapped

  datatype Guard = Guard(mutex: nat, stage: Stage)

  /** The reactor's position inside `try_owner`. */
  datatype Reactor = Running | FlagDue(mutex: nat) | RetryDue(mutex: nat)

  datatype State = State(
    guards: map<nat, Guard>,
    plain: set<nat>,      // mutexes held without an owner guard
    flag: bool,           // owner_deferred
    wake: bool,           // a wake the reactor has not consumed yet
    deferred: bool,       // try_owner returned None and no wake was consumed since
    reactor: Reactor)

  const Start := State(map[], {}, false, false, false, Running)

  datatype Step =
    | LockOwner(g: nat, m: nat)
    | LockPlain(m: nat)
    | UnlockPlain(m: nat)
    | Unlock(g: nat)
    | Swap(g: nat)
    | Wake(g: nat)
    | TryFirst(g: nat, m: nat)
    | StoreFlag
    | TrySecond(g: nat)
    | ConsumeWake

  ghost predicate GuardHolds(s: State, m: nat) {
    exists g :: g in s.guards && s.guards[g] == Guard(m, Held)
  }

  ghost predicate Locked(s: State, m: nat) {
    m in s.plain || GuardHolds(s, m)
  }

  ghost predicate Enabled(s: State, step: Step) {
    match step
    case LockOwner(g, m) => g !in s.guards && !Locked(s, m)
    case LockPlain(m) => !Locked(s, m)
    case UnlockPlain(m) => m in s.plain
    case Unlock(g) => g in s.guards && s.guards[g].stage == Held
    case Swap(g) => g in s.guards && s.guards[g].stage == Unlocked
    case Wake(g) => g in s.guards && s.guards[g].stage == Swapped
    case TryFirst(g, m) => s.reactor == Running && g !in s.guards
    case StoreFlag => s.reactor.FlagDue?
    case TrySecond(g) => s.reactor.RetryDue? && g !in s.guards
    case ConsumeWake => s.reactor == Running && s.wake
  }

  ghost function Apply(s: State, step: Step): State
    requires Enabled(s, step)
  {
    match step
    case LockOwner(g, m) => s.(guards := s.guards[g := Guard(m, Held)])
    case LockPlain(m) => s.(plain := s.plain + {m})
    case UnlockPlain(m) => s.(plain := s.plain - {m})
    case Unlock(g) => s.(guards := s.guards[g := s.guards[g].(stage := Unlocked)])
    case Swap(g) =>
      if s.flag then s.(flag := false, guards := s.guards[g := s.guards[g].(stage := Swapped)])
      else s.(guards := s.guards - {g})
    case Wake(g) => s.(wake := true, guards := s.guards - {g})
    case TryFirst(g, m) =>
      if Locked(s, m) then s.(reactor := FlagDue(m))
      else s.(guards := s.guards[g := Guard(m, Held)])
    case StoreFlag => s.(flag := true, reactor := RetryDue(s.reactor.mutex))
    case TrySecond(g) =>
      if Locked(s, s.reactor.mutex) then s.(deferred := true, reactor := Running)
      else s.(guards := s.guards[g := Guard(s.reactor.mutex, Held)], reactor := Running)
    case ConsumeWake => s.(wake := false, deferred := false)
  }

  /** A run: every consecutive pair of states is one enabled step. */
  ghost predicate Execution(steps: seq<Step>, states: seq<State>) {
    && |states| == |steps| + 1
    && states[0] == Start
    && forall i :: 0 <= i < |steps| ==> Enabled(states[i], steps[i]) && states[i + 1] == Apply(states[i], steps[i])
  }

  ghost predicate WakePromised(s: State) {
    s.wake || exists g :: g in s.guards && s.guards[g].stage == Swapped
  }

  ghost predicate GuardWillSwap(s: State) {
    exists g :: g in s.guards && s.guards[g].stage != Swapped
  }

  /** Some guard is certain to wake the reactor, or already has. */
  ghost predicate NotStranded(s: State) {
    WakePromised(s) || (s.flag && GuardWillSwap(s))
  }

  ghost predicate Inv(s: State) {
    && (s.deferred ==> NotStranded(s))
    && (s.reactor.RetryDue? ==> s.flag || WakePromised(s))
  }

  /** The one step that strands the reactor: its second try fails on a mutex held
      without a guard, while no guard is in flight and no wake is pending. */
  predicate Strands(s: State, step: Step) {
    step.TrySecond? && s.reactor.RetryDue? && s.reactor.mutex in s.plain && s.guards == map[] && !s.wake
  }

  /** Every other step keeps the invariant, with or without plain holders. */
  lemma StepKeepsInv(s: State, step: Step)
    requires Inv(s) && Enabled(s, step) && !Strands(s, step)
    ensures Inv(Apply(s, step))
  {
    var t := Apply(s, step);
    if WakePromised(s) && !step.ConsumeWake? { PromiseSurvives(s, step); }
    match step
    case LockOwner(g, m) => if s.deferred && !WakePromised(s) { assert t.guards[g].stage == Held; }
    case Unlock(g) => if s.flag { assert t.guards[g].stage == Unlocked; }
    case Swap(g) => if s.flag { assert t.guards[g].stage == Swapped; }
    case Wake(g) => assert t.wake;
    case TryFirst(g, m) =>
      if s.deferred && !WakePromised(s) { KeepWillSwap(s, t); }
    case StoreFlag =>
      if s.deferred && !WakePromised(s) { KeepWillSwap(s, t); }
    case TrySecond(g) =>
      if Locked(s, s.reactor.mutex) { DeferralCoveredIff(s, g); }
      else if s.deferred && !WakePromised(s) { KeepWillSwap(s, t); }
    case LockPlain(_) =>
    case UnlockPlain(_) =>
    case ConsumeWake =>
  }

  lemma PromiseSurvives(s: State, step: Step)
    requires Enabled(s, step) && WakePromised(s) && !step.ConsumeWake?
    ensures WakePromised(Apply(s, step))
  {
    var t := Apply(s, step);
    if !s.wake {
      var h :| h in s.guards && s.guards[h].stage == Swapped;
      if step != Wake(h) { assert h in t.guards && t.guards[h].stage == Swapped; }
    }
  }

  lemma KeepWillSwap(s: State, t: State)
    requires GuardWillSwap(s)
    requires forall g :: g in s.guards ==> g in t.guards && t.guards[g] == s.guards[g]
    ensures GuardWillSwap(t)
  {
    var h :| h in s.guards && s.guards[h].stage != Swapped;
    assert h in t.guards;
  }

  /** Exactly when a second failed try leaves the reactor covered: some guard is
      in flight, or a wake is already promised. A mutex held only by a holder
      without a guard, with no other guard around, is the whole failing family. */
  lemma DeferralCoveredIff(s: State, g: nat)
    requires Enabled(s, TrySecond(g)) && Inv(s) && Locked(s, s.reactor.mutex)
    ensures Apply(s, TrySecond(g)).deferred
    ensures NotStranded(Apply(s, TrySecond(g))) <==> !Strands(s, TrySecond(g))
  {
    var t := Apply(s, TrySecond(g));
    assert t.guards == s.guards && t.flag == s.flag && t.wake == s.wake;
    if s.guards != map[] {
      var h :| h in s.guards;
      assert t.guards[h].stage == Swapped || t.guards[h].stage != Swapped;
    }
  }

  // ---------- Whole runs ----------

  /** The reactor never runs into a mutex held without a guard at the wrong moment. */
  ghost predicate NeverStrands(steps: seq<Step>, states: seq<State>)
    requires |states| == |steps| + 1
  {
    forall i :: 0 <= i < |steps| ==> !Strands(states[i], steps[i])
  }

  /** As long as no step strands the reactor, a deferral is covered at every state. */
  lemma {:induction false} CoveredUpTo(steps: seq<Step>, states: seq<State>, k: nat)
    requires Execution(steps, states) && k < |states|
    requires forall i :: 0 <= i < k ==> !Strands(states[i], steps[i])
    ensures Inv(states[k])
  {
    if k > 0 {
      CoveredUpTo(steps, states, k - 1);
      StepKeepsInv(states[k - 1], steps[k - 1]);
    }
  }

  /** Exactly which runs lose no wakeup, plain holders and all: a deferral is covered
      by a pending or certain wake throughout, if and only if no second try ever fails
      on a plainly held mutex with no guard in flight and no wake pending. */
  lemma NoLostWakeupIff(steps: seq<Step>, states: seq<State>)
    requires Execution(steps, states)
    ensures (forall k :: 0 <= k < |states| && states[k].deferred ==> NotStranded(states[k])) <==> NeverStrands(steps, states)
  {
    if NeverStrands(steps, states) {
      forall k | 0 <= k < |states| && states[k].deferred ensures NotStranded(states[k]) {
        CoveredUpTo(steps, states, k);
      }
    } else {
      var i := FirstStrand(steps, states, |steps|);
      CoveredUpTo(steps, states, i);
      assert Enabled(states[i], steps[i]) && states[i + 1] == Apply(states[i], steps[i]);
      DeferralCoveredIff(states[i], steps[i].g);
    }
  }

  lemma {:induction false} FirstStrand(steps: seq<Step>, states: seq<State>, n: nat) returns (i: nat)
    requires n <= |steps| && |states| == |steps| + 1
    requires exists k :: 0 <= k < n && Strands(states[k], steps[k])
    ensures i < n && Strands(states[i], steps[i])
    ensures forall k :: 0 <= k < i ==> !Strands(states[k], steps[k])
  {
    if k :| 0 <= k < n - 1 && Strands(states[k], steps[k]) {
      i := FirstStrand(steps, states, n - 1);
    } else {
      i := n - 1;
    }
  }

  ghost predicate OwnerGuardsOnly(steps: seq<Step>) {
    forall i :: 0 <= i < |steps| ==> !steps[i].LockPlain?
  }

  lemma {:induction false} NoPlainHolder(steps: seq<Step>, states: seq<State>, k: nat)
    requires Execution(steps, states) && OwnerGuardsOnly(steps) && k < |states|
    ensures states[k].plain == {}
  {
    if k > 0 { NoPlainHolder(steps, states, k - 1); }
  }

  /** No lost wakeup: in every run whose mutexes are only taken through owner
      guards, a deferral is always covered by a pending or certain wake. */
  lemma NoLostWakeup(steps: seq<Step>, states: seq<State>, k: nat)
    requires Execution(steps, states) && OwnerGuardsOnly(steps) && k < |states|
    ensures Inv(states[k]) && states[k].plain == {}
    ensures states[k].deferred ==> NotStranded(states[k])
  {
    forall i | 0 <= i < k ensures !Strands(states[i], steps[i]) { NoPlainHolder(steps, states, i); }
    NoPlainHolder(steps, states, k);
    CoveredUpTo(steps, states, k);
  }

  /** Once every guard has finished its drop, a deferred reactor has its wake, plain
      holders or not, unless a step has stranded it. */
  lemma QuiescenceDeliversWake(steps: seq<Step>, states: seq<State>, k: nat)
    requires Execution(steps, states) && k < |states| && forall i :: 0 <= i < k ==> !Strands(states[i], steps[i])
    requires states[k].deferred && states[k].guards == map[]
    ensures states[k].wake
  {
    CoveredUpTo(steps, states, k);
  }

  const PlainHolderSteps: seq<Step> := [LockPlain(0), TryFirst(0, 0), StoreFlag, TrySecond(0), UnlockPlain(0)]

  /** A concrete run in which a holder without a guard strands the reactor: every
      mutex is free again, no guard is in flight, and no wake will ever come. */
  lemma PlainHolderStrands() returns (states: seq<State>)
    ensures Execution(PlainHolderSteps, states)
    ensures var last := states[5]; last.deferred && last.plain == {} && last.guards == map[] && !NotStranded(last)
  {
    var s1 := Apply(Start, LockPlain(0));
    assert Locked(s1, 0);
    var s2 := Apply(s1, TryFirst(0, 0));
    var s3 := Apply(s2, StoreFlag);
    assert Locked(s3, 0);
    var s4 := Apply(s3, TrySecond(0));
    var s5 := Apply(s4, UnlockPlain(0));
    states := [Start, s1, s2, s3, s4, s5];
    assert !GuardHolds(Start, 0);
  }

  // ---------- What the guards and the reactor get ----------

  /** Nobody holds it, with or without a guard. */
  predicate Free(s: State, m: nat) { m !in s.plain && forall g :: g in s.guards && s.guards[g].mutex == m ==> s.guards[g].stage != Held }

  /** This guard holds its mutex, and nobody else does. */
  predicate Alone(s: State, g: nat)
    requires g in s.guards
  {
    && s.guards[g].mutex !in s.plain
    && forall h :: h in s.guards && h != g && s.guards[h].mutex == s.guards[g].mutex ==> s.guards[h].stage != Held
  }

  ghost predicate Exclusive(s: State) { forall g :: g in s.guards && s.guards[g].stage == Held ==> Alone(s, g) }

  lemma ExclusiveStep(s: State, step: Step)
    requires Exclusive(s) && Enabled(s, step)
    ensures Exclusive(Apply(s, step))
  {
    FreeIff(s);
    var t := Apply(s, step);
    forall g | g in t.guards && t.guards[g].stage == Held ensures Alone(t, g) {
      if g in s.guards && s.guards[g].stage == Held { assert Alone(s, g); }
    }
  }

  /** In every run a mutex has one holder: one guard, or one owner without a guard. */
  lemma {:induction false} MutualExclusion(steps: seq<Step>, states: seq<State>, k: nat)
    requires Execution(steps, states) && k < |states|
    ensures Exclusive(states[k])
  {
    if k > 0 {
      MutualExclusion(steps, states, k - 1);
      ExclusiveStep(states[k - 1], steps[k - 1]);
    }
  }

  lemma FreeIff(s: State)
    ensures forall m :: Free(s, m) <==> !Locked(s, m)
  {
    forall m ensures Free(s, m) <==> !Locked(s, m) {
      if g :| g in s.guards && s.guards[g].mutex == m && s.guards[g].stage == Held { assert s.guards[g] == Guard(m, Held); }
    }
  }

  /** In every run the reactor has a mutex it tries exactly if that mutex is free, on the
      first or the second try; between the two it publishes the flag; and only a second
      failure defers the owner, until a wake is consumed. */
  lemma TriesAre(steps: seq<Step>, states: seq<State>, k: nat)
    requires Execution(steps, states) && k < |steps|
    ensures var s, t := states[k], states[k + 1];
            match steps[k] {
              case TryFirst(g, m) =>
                t == if Free(s, m) then s.(guards := s.guards[g := Guard(m, Held)]) else s.(reactor := FlagDue(m))
              case StoreFlag => s.reactor.FlagDue? && t.flag && t.reactor == RetryDue(s.reactor.mutex) && t.guards == s.guards && t.wake == s.wake
              case TrySecond(g) =>
                && s.reactor.RetryDue? && t.reactor == Running
                && if Free(s, s.reactor.mutex) then t.guards == s.guards[g := Guard(s.reactor.mutex, Held)] && t.deferred == s.deferred
                   else t.guards == s.guards && t.deferred
              case ConsumeWake => s.wake && !t.wake && !t.deferred && t.guards == s.guards && t.flag == s.flag
              case _ => t.reactor == s.reactor && t.deferred == s.deferred
            }
  {
    FreeIff(states[k]);
  }

  ghost function WakingIn(guards: map<nat, Guard>): set<nat> { set g | g in guards && guards[g].stage == Swapped }

  /** The guards that have swapped the flag away and owe the wake. */
  ghost function Waking(s: State): set<nat> { WakingIn(s.guards) }

  lemma WakingPut(guards: map<nat, Guard>, g: nat, guard: Guard)
    requires g in guards ==> guards[g].stage != Swapped
    ensures WakingIn(guards[g := guard]) == if guard.stage == Swapped then WakingIn(guards) + {g} else WakingIn(guards)
    ensures g !in WakingIn(guards)
  {
  }

  lemma WakingLeaves(guards: map<nat, Guard>, g: nat)
    ensures WakingIn(guards - {g}) == WakingIn(guards) - {g}
  {
  }

  function Flags(steps: seq<Step>): nat { if steps == [] then 0 else Flags(steps[..|steps| - 1]) + if steps[|steps| - 1].StoreFlag? then 1 else 0 }

  function Wakes(steps: seq<Step>): nat { if steps == [] then 0 else Wakes(steps[..|steps| - 1]) + if steps[|steps| - 1].Wake? then 1 else 0 }

  function FlagUp(s: State): nat { if s.flag then 1 else 0 }

  lemma WakingStep(s: State, step: Step)
    requires Enabled(s, step)
    ensures |Waking(Apply(s, step))| + FlagUp(Apply(s, step)) + (if step.Wake? then 1 else 0)
            <= |Waking(s)| + FlagUp(s) + (if step.StoreFlag? then 1 else 0)
  {
    match step
    case LockOwner(g, m) => WakingPut(s.guards, g, Guard(m, Held));
    case Unlock(g) => WakingPut(s.guards, g, s.guards[g].(stage := Unlocked));
    case Swap(g) => if s.flag { WakingPut(s.guards, g, s.guards[g].(stage := Swapped)); } else { WakingLeaves(s.guards, g); }
    case Wake(g) => WakingLeaves(s.guards, g);
    case TryFirst(g, m) => WakingPut(s.guards, g, Guard(m, Held));
    case TrySecond(g) => WakingPut(s.guards, g, Guard(s.reactor.mutex, Held));
    case _ =>
  }

  /** In every run no flag is answered twice: the wakes given and those under way are at
      most the flags the reactor published. */
  lemma {:induction false} WakesAreOwed(steps: seq<Step>, states: seq<State>, k: nat)
    requires Execution(steps, states) && k < |states|
    ensures Wakes(steps[..k]) + |Waking(states[k])| + FlagUp(states[k]) <= Flags(steps[..k])
  {
    if k == 0 {
      assert Waking(states[0]) == {};
    } else {
      WakesAreOwed(steps, states, k - 1);
      WakingStep(states[k - 1], steps[k - 1]);
      assert steps[..k][..k - 1] == steps[..k - 1];
    }
  }
}
