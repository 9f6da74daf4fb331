/** Cleanup of started but unpublished Runs (crates/ctxmux-daemon/src/creation.rs:
  286-748).

  A bounded pool of slots is shared by live reservations, native owners handed over
  for cleanup, and tmux entries.  A handed-over key stays fenced until every one of
  its owners is proven reaped.
 */
module CleanupOwnership {
  import opened Wrappers
  import opened MapSums
  import Runs

  /** Native owners waiting for their reap under one creation key. */
  datatype Fence = Fence(request: nat, owners: seq<nat>)

  /** `UnpublishedCleanupState`. */
  datatype State = State(owned: int, entries: map<nat, Fence>, tmux: seq<nat>)

  datatype Pending = Pending(request: nat, run: nat, token: nat)

  datatype End = Published | Cleaned | Transferred

  /** The owners outside the lock; `reaped` is what the native side has proven. */
  datatype Owners = Owners(
    reservations: map<nat, nat>,   // live keyed reservations and their keys
    tmuxReservations: set<nat>,
    pending: map<nat, Pending>,    // armed publications
    ended: map<nat, End>,
    handed: map<nat, nat>,         // native Runs handed over, and their keys
    reaped: set<nat>)

  datatype System = System(s: State, o: Owners)

  // ---------- Pruning ----------

  function Kept(owners: seq<nat>, gone: set<nat>): seq<nat> {
    if owners == [] then [] else (if owners[0] in gone then [] else [owners[0]]) + Kept(owners[1..], gone)
  }

  function Pruned(fence: Fence, gone: set<nat>): Fence { fence.(owners := Kept(fence.owners, gone)) }

  function KeptEntries(entries: map<nat, Fence>, gone: set<nat>): map<nat, Fence> {
    map k | k in entries && Kept(entries[k].owners, gone) != [] :: Pruned(entries[k], gone)
  }

  function OwnersOf(fence: Fence): nat { |fence.owners| }

  ghost function Held(s: State): nat { Total(s.entries, OwnersOf) + |s.tmux| }

  /** `prune_reaped`: every proven owner leaves and gives back its slot. */
  ghost function PruneOn(s: State, reaped: set<nat>, tmuxDone: set<nat>): State {
    var t := s.(entries := KeptEntries(s.entries, reaped), tmux := Kept(s.tmux, tmuxDone));
    t.(owned := s.owned - (Held(s) - Held(t)))
  }

  lemma {:induction false} KeptHas(owners: seq<nat>, gone: set<nat>)
    ensures |Kept(owners, gone)| <= |owners|
    ensures forall run :: run in Kept(owners, gone) <==> run in owners && run !in gone
  {
    if owners != [] { KeptHas(owners[1..], gone); }
  }

  lemma KeptWithout(entries: map<nat, Fence>, k: nat, gone: set<nat>)
    requires k in entries
    ensures var rest := KeptEntries(entries - {k}, gone);
            k !in rest && KeptEntries(entries, gone) == if Kept(entries[k].owners, gone) != [] then rest[k := Pruned(entries[k], gone)] else rest
  {
  }

  /** Empty fences count nothing, so dropping them keeps the total. */
  lemma {:induction false} KeptTotal(entries: map<nat, Fence>, gone: set<nat>)
    ensures Total(KeptEntries(entries, gone), OwnersOf) <= Total(entries, OwnersOf)
    decreases |entries|
  {
    if entries == map[] {
      assert KeptEntries(entries, gone) == map[];
    } else {
      var k := Pick(entries);
      KeptTotal(entries - {k}, gone);
      KeptHas(entries[k].owners, gone);
      KeptWithout(entries, k, gone);
      if Kept(entries[k].owners, gone) != [] {
        TotalWith(KeptEntries(entries - {k}, gone), OwnersOf, k, Pruned(entries[k], gone));
      }
    }
  }

  method Retain(owners: seq<nat>, gone: set<nat>) returns (kept: seq<nat>, left: nat)
    ensures kept == Kept(owners, gone) && left + |kept| == |owners|
  {
    kept, left := [], 0;
    assert owners[0..] == owners;
    for i := 0 to |owners|
      invariant kept + Kept(owners[i..], gone) == Kept(owners, gone)
      invariant left + |kept| == i
    {
      assert owners[i..][1..] == owners[i + 1..];
      if owners[i] in gone { left := left + 1; } else { kept := kept + [owners[i]]; }
    }
  }

  lemma KeptOneMore(all: map<nat, Fence>, walk: map<nat, Fence>, k: nat, gone: set<nat>)
    requires k in walk && k in all && walk[k] == all[k]
    ensures var before := KeptEntries(all - walk.Keys, gone);
            && k !in before
            && KeptEntries(all - (walk - {k}).Keys, gone) ==
               if Kept(walk[k].owners, gone) != [] then before[k := Pruned(walk[k], gone)] else before
  {
  }

  method PruneReaped(s: State, reaped: set<nat>, tmuxDone: set<nat>) returns (t: State)
    ensures t == PruneOn(s, reaped, tmuxDone)
  {
    var gone, entries, walk := 0, map[], s.entries;
    while walk != map[]
      invariant forall k :: k in walk ==> k in s.entries && walk[k] == s.entries[k]
      invariant entries == KeptEntries(s.entries - walk.Keys, reaped)
      invariant gone + Total(entries, OwnersOf) + Total(walk, OwnersOf) == Total(s.entries, OwnersOf)
      decreases |walk|
    {
      var k :| k in walk;
      var kept, left := Retain(walk[k].owners, reaped);
      TotalWithout(walk, OwnersOf, k);
      gone := gone + left;
      if kept != [] {
        TotalWith(entries, OwnersOf, k, Pruned(walk[k], reaped));
        entries := entries[k := walk[k].(owners := kept)];
      }
      KeptOneMore(s.entries, walk, k, reaped);
      walk := walk - {k};
    }
    assert s.entries - walk.Keys == s.entries;
    var tmux, done := Retain(s.tmux, tmuxDone);
    t := State(s.owned - (gone + done), entries, tmux);
  }

  // ---------- Lock sections ----------

  datatype Refusal = Unavailable | Conflict

  method ResolveFence(s: State, key: nat, request: nat, reaped: set<nat>, tmuxDone: set<nat>) returns (t: State, r: Result<(), Refusal>)
    ensures t == PruneOn(s, reaped, tmuxDone)
    ensures r.Success? <==> key !in t.entries
    ensures r.Failure? ==> r.error == if t.entries[key].request == request then Unavailable else Conflict
  {
    t := PruneReaped(s, reaped, tmuxDone);
    if key in t.entries {
      return t, Failure(if t.entries[key].request == request then Unavailable else Conflict);
    }
    r := Success(());
  }

  /** `reserve` and `reserve_tmux`. */
  method Reserve(s: State, slots: nat, reaped: set<nat>, tmuxDone: set<nat>) returns (t: State, ok: bool)
    ensures var u := PruneOn(s, reaped, tmuxDone); ok == (u.owned < slots) && t == if ok then u.(owned := u.owned + 1) else u
  {
    t := PruneReaped(s, reaped, tmuxDone);
    ok := t.owned < slots;
    if ok {
      t := t.(owned := t.owned + 1);
    }
  }

  /** Hand one native Run over under its key.  A second one joins the fence and leaves the
      first request in charge; the slot passes from the reservation to the owner; and no
      pruning opens the key again before this Run is proven reaped. */
  method Transfer(s: State, key: nat, request: nat, run: nat) returns (t: State)
    ensures t == TransferOn(s, key, request, run)
    ensures t.entries.Keys == s.entries.Keys + {key} && forall k :: k in s.entries && k != key ==> t.entries[k] == s.entries[k]
    ensures t.entries[key].request == if key in s.entries then s.entries[key].request else request
    ensures t.entries[key].owners == (if key in s.entries then s.entries[key].owners else []) + [run]
    ensures Held(t) == Held(s) + 1
    ensures forall reaped, tmuxDone :: run !in reaped ==> key in PruneOn(t, reaped, tmuxDone).entries
  {
    TransferSlots(s, key, request, run);
    if key in s.entries {
      var fence := s.entries[key];
      t := s.(entries := s.entries[key := fence.(owners := fence.owners + [run])]);
    } else {
      t := s.(entries := s.entries[key := Fence(request, [run])]);
    }
    forall reaped, tmuxDone | run !in reaped ensures key in PruneOn(t, reaped, tmuxDone).entries {
      assert run in t.entries[key].owners;
      KeptHas(t.entries[key].owners, reaped);
    }
  }

  function TransferOn(s: State, key: nat, request: nat, run: nat): State {
    s.(entries := s.entries[key := if key in s.entries then s.entries[key].(owners := s.entries[key].owners + [run]) else Fence(request, [run])])
  }

  // ---------- The step machine ----------

  datatype Step =
    | TakeSlot(token: nat, key: nat, tmuxDone: set<nat>)
    | TakeTmuxSlot(token: nat, tmuxDone: set<nat>)
    | Arm(p: nat, request: nat, run: nat, token: nat)
    | PublishPending(p: nat)
    | CleanPending(p: nat)
    | TransferPending(p: nat)
    | DropSlot(token: nat)
    | DropTmuxSlot(token: nat)
    | TransferTmux(token: nat, run: nat)
    | Prune(tmuxDone: set<nat>)
    | Reap(run: nat)

  /** No armed publication holds this token. */
  predicate Unbound(o: Owners, token: nat) {
    forall p :: p in o.pending ==> o.pending[p].token != token
  }

  function KeyOf(o: Owners, token: nat): nat { if token in o.reservations then o.reservations[token] else 0 }

  ghost predicate Enabled(slots: nat, y: System, step: Step) {
    match step
    case TakeSlot(token, _, tmuxDone) =>
      token !in y.o.reservations && token !in y.o.tmuxReservations && PruneOn(y.s, y.o.reaped, tmuxDone).owned < slots
    case TakeTmuxSlot(token, tmuxDone) =>
      token !in y.o.reservations && token !in y.o.tmuxReservations && PruneOn(y.s, y.o.reaped, tmuxDone).owned < slots
    case Arm(p, _, run, token) =>
      p !in y.o.pending && p !in y.o.ended && token in y.o.reservations && Unbound(y.o, token) && run !in y.o.handed
      && (forall q :: q in y.o.pending ==> y.o.pending[q].run != run)
    case PublishPending(p) => p in y.o.pending
    case CleanPending(p) => p in y.o.pending
    case TransferPending(p) => p in y.o.pending
    case DropSlot(token) => token in y.o.reservations && Unbound(y.o, token)
    case DropTmuxSlot(token) => token in y.o.tmuxReservations
    case TransferTmux(token, _) => token in y.o.tmuxReservations
    case Prune(_) => true
    case Reap(_) => true
  }

  ghost function Apply(slots: nat, y: System, step: Step): System
    requires Enabled(slots, y, step)
  {
    var s, o := y.s, y.o;
    match step
    case TakeSlot(token, key, tmuxDone) =>
      var t := PruneOn(s, o.reaped, tmuxDone);
      System(t.(owned := t.owned + 1), o.(reservations := o.reservations[token := key]))
    case TakeTmuxSlot(token, tmuxDone) =>
      var t := PruneOn(s, o.reaped, tmuxDone);
      System(t.(owned := t.owned + 1), o.(tmuxReservations := o.tmuxReservations + {token}))
    case Arm(p, request, run, token) => System(s, o.(pending := o.pending[p := Pending(request, run, token)]))
    case PublishPending(p) => System(s, o.(pending := o.pending - {p}, ended := o.ended[p := Published]))
    case CleanPending(p) =>
      System(s.(owned := s.owned - 1),
             o.(pending := o.pending - {p}, ended := o.ended[p := Cleaned], reservations := o.reservations - {o.pending[p].token}))
    case TransferPending(p) =>
      var pending := o.pending[p];
      var key := KeyOf(o, pending.token);
      System(TransferOn(s, key, pending.request, pending.run),
             o.(pending := o.pending - {p}, ended := o.ended[p := Transferred],
                reservations := o.reservations - {pending.token}, handed := o.handed[pending.run := key]))
    case DropSlot(token) => System(s.(owned := s.owned - 1), o.(reservations := o.reservations - {token}))
    case DropTmuxSlot(token) => System(s.(owned := s.owned - 1), o.(tmuxReservations := o.tmuxReservations - {token}))
    case TransferTmux(token, run) => System(s.(tmux := s.tmux + [run]), o.(tmuxReservations := o.tmuxReservations - {token}))
    case Prune(tmuxDone) => System(PruneOn(s, o.reaped, tmuxDone), o)
    case Reap(run) => System(s, o.(reaped := o.reaped + {run}))
  }

  // ---------- Invariants ----------

  /** Every slot is a live reservation or a held owner, and they fit. */
  ghost predicate SlotsExact(slots: nat, y: System) {
    y.s.owned == |y.o.reservations| + |y.o.tmuxReservations| + Held(y.s) <= slots
  }

  /** Every armed publication holds its own live reservation, and has not ended. */
  ghost predicate PendingOk(o: Owners) {
    && (forall p :: p in o.pending ==> o.pending[p].token in o.reservations && p !in o.ended && o.pending[p].run !in o.handed)
    && (forall p, q :: p in o.pending && q in o.pending && p != q ==>
          o.pending[p].token != o.pending[q].token && o.pending[p].run != o.pending[q].run)
  }

  /** Exactly the owners handed over and not yet proven reaped stand behind a fence,
      those proven since may still. */
  ghost predicate FencesOk(entries: map<nat, Fence>, handed: map<nat, nat>, reaped: set<nat>) {
    && (forall run :: run in handed && run !in reaped ==> handed[run] in entries && run in entries[handed[run]].owners)
    && (forall k :: k in entries ==> entries[k].owners != [])
    && (forall k, run :: k in entries && run in entries[k].owners ==> run in handed && handed[run] == k)
  }

  ghost predicate Inv(slots: nat, y: System) { SlotsExact(slots, y) && PendingOk(y.o) && FencesOk(y.s.entries, y.o.handed, y.o.reaped) }

  lemma PruneKeepsSlots(s: State, reaped: set<nat>, tmuxDone: set<nat>)
    ensures var t := PruneOn(s, reaped, tmuxDone); t.owned - Held(t) == s.owned - Held(s) && t.owned <= s.owned
  {
    KeptTotal(s.entries, reaped);
    KeptHas(s.tmux, tmuxDone);
  }

  /** An unproven owner stays behind its fence; a fence that stays lost no other owner. */
  lemma PruneMember(entries: map<nat, Fence>, reaped: set<nat>, k: nat, run: nat)
    requires k in entries
    ensures var kept := KeptEntries(entries, reaped);
            (k in kept && run in kept[k].owners) <==> (run in entries[k].owners && run !in reaped)
  {
    KeptHas(entries[k].owners, reaped);
  }

  lemma PruneKeepsFences(entries: map<nat, Fence>, handed: map<nat, nat>, reaped: set<nat>)
    requires FencesOk(entries, handed, reaped)
    ensures FencesOk(KeptEntries(entries, reaped), handed, reaped)
  {
    var kept := KeptEntries(entries, reaped);
    forall run | run in handed && run !in reaped ensures handed[run] in kept && run in kept[handed[run]].owners {
      PruneMember(entries, reaped, handed[run], run);
    }
    forall k, run | k in kept && run in kept[k].owners ensures run in handed && handed[run] == k {
      PruneMember(entries, reaped, k, run);
    }
  }

  lemma TransferSlots(s: State, key: nat, request: nat, run: nat)
    ensures Held(TransferOn(s, key, request, run)) == Held(s) + 1
  {
    var t := TransferOn(s, key, request, run);
    TotalWithout(t.entries, OwnersOf, key);
    if key in s.entries {
      TotalWithout(s.entries, OwnersOf, key);
      assert t.entries - {key} == s.entries - {key};
    } else {
      assert t.entries - {key} == s.entries;
    }
  }

  lemma SlotsStep(slots: nat, y: System, step: Step)
    requires SlotsExact(slots, y) && PendingOk(y.o) && Enabled(slots, y, step)
    ensures SlotsExact(slots, Apply(slots, y, step))
  {
    match step
    case TakeSlot(_, _, tmuxDone) => PruneKeepsSlots(y.s, y.o.reaped, tmuxDone);
    case TakeTmuxSlot(_, tmuxDone) => PruneKeepsSlots(y.s, y.o.reaped, tmuxDone);
    case Prune(tmuxDone) => PruneKeepsSlots(y.s, y.o.reaped, tmuxDone);
    case TransferPending(p) => TransferSlots(y.s, KeyOf(y.o, y.o.pending[p].token), y.o.pending[p].request, y.o.pending[p].run);
    case _ =>
  }

  lemma PendingStep(slots: nat, y: System, step: Step)
    requires PendingOk(y.o) && Enabled(slots, y, step)
    ensures PendingOk(Apply(slots, y, step).o)
  {
  }

  lemma TransferFences(s: State, handed: map<nat, nat>, reaped: set<nat>, key: nat, request: nat, run: nat)
    requires FencesOk(s.entries, handed, reaped) && run !in handed
    ensures FencesOk(TransferOn(s, key, request, run).entries, handed[run := key], reaped)
  {
  }

  lemma FencesStep(slots: nat, y: System, step: Step)
    requires FencesOk(y.s.entries, y.o.handed, y.o.reaped) && PendingOk(y.o) && Enabled(slots, y, step)
    ensures var z := Apply(slots, y, step); FencesOk(z.s.entries, z.o.handed, z.o.reaped)
  {
    match step
    case TakeSlot(_, _, _) => PruneKeepsFences(y.s.entries, y.o.handed, y.o.reaped);
    case TakeTmuxSlot(_, _) => PruneKeepsFences(y.s.entries, y.o.handed, y.o.reaped);
    case Prune(_) => PruneKeepsFences(y.s.entries, y.o.handed, y.o.reaped);
    case TransferPending(p) =>
      var pending := y.o.pending[p];
      TransferFences(y.s, y.o.handed, y.o.reaped, KeyOf(y.o, pending.token), pending.request, pending.run);
    case _ =>
  }

  // ---------- Whole runs ----------

  predicate Initial(y: System) {
    && y.s == State(0, map[], []) && y.o.reservations == map[] && y.o.tmuxReservations == {}
    && y.o.pending == map[] && y.o.handed == map[]
  }

  ghost predicate Next(slots: nat, y: System, step: Step, z: System) {
    Enabled(slots, y, step) && z == Apply(slots, y, step)
  }

  ghost predicate Execution(slots: nat, steps: seq<Step>, states: seq<System>) {
    && |states| == |steps| + 1 && Initial(states[0])
    && forall i {:trigger steps[i]} :: 0 <= i < |steps| ==> Next(slots, states[i], steps[i], states[i + 1])
  }

  lemma StepKeeps(slots: nat, y: System, step: Step, z: System)
    requires Inv(slots, y) && Next(slots, y, step, z)
    ensures Inv(slots, z)
  {
    SlotsStep(slots, y, step);
    PendingStep(slots, y, step);
    FencesStep(slots, y, step);
  }

  lemma RunKeeps(slots: nat, steps: seq<Step>, states: seq<System>, k: nat)
    requires Execution(slots, steps, states) && k < |states|
    ensures Inv(slots, states[k])
  {
    assert Inv(slots, states[0]);
    forall y, step, z | Inv(slots, y) && Next(slots, y, step, z) ensures Inv(slots, z) {
      StepKeeps(slots, y, step, z);
    }
    Runs.HoldsThroughout((y: System) => Inv(slots, y), (y: System, step: Step, z: System) => Next(slots, y, step, z), steps, states, k);
  }

  lemma FencesThroughout(slots: nat, steps: seq<Step>, states: seq<System>, k: nat)
    requires Execution(slots, steps, states) && k < |states|
    ensures PendingOk(states[k].o) && FencesOk(states[k].s.entries, states[k].o.handed, states[k].o.reaped)
  {
    RunKeeps(slots, steps, states, k);
  }

  lemma FenceOpens(entries: map<nat, Fence>, handed: map<nat, nat>, reaped: set<nat>, key: nat)
    requires FencesOk(entries, handed, reaped)
    ensures key !in KeptEntries(entries, reaped) <==> forall run :: run in handed && handed[run] == key ==> run in reaped
  {
    if key in KeptEntries(entries, reaped) {
      KeptHas(entries[key].owners, reaped);
      var run := Kept(entries[key].owners, reaped)[0];
      assert run in Kept(entries[key].owners, reaped);
    } else {
      forall run | run in handed && handed[run] == key ensures run in reaped {
        if run !in reaped { PruneMember(entries, reaped, key, run); }
      }
    }
  }

  /** Exactly when a key may be used again: every native owner ever handed over under
      it has been proven reaped. */
  lemma FenceOpensIff(slots: nat, steps: seq<Step>, states: seq<System>, k: nat, key: nat, tmuxDone: set<nat>)
    requires Execution(slots, steps, states) && k < |states|
    ensures var y := states[k];
            key !in PruneOn(y.s, y.o.reaped, tmuxDone).entries <==> forall run :: run in y.o.handed && y.o.handed[run] == key ==> run in y.o.reaped
  {
    FencesThroughout(slots, steps, states, k);
    FenceOpens(states[k].s.entries, states[k].o.handed, states[k].o.reaped, key);
  }

  /** Publications only ever gain one end and keep it. */
  lemma EndsOnce(slots: nat, y: System, step: Step, z: System, p: nat)
    requires Inv(slots, y) && Next(slots, y, step, z)
    ensures p in y.o.ended ==> p in z.o.ended && z.o.ended[p] == y.o.ended[p] && p !in z.o.pending
    ensures p in y.o.pending ==> (p in z.o.pending && p !in z.o.ended) || (p !in z.o.pending && p in z.o.ended)
    ensures p in y.o.pending && p !in z.o.pending ==>
              && step == (match z.o.ended[p] { case Published => PublishPending(p) case Cleaned => CleanPending(p) case Transferred => TransferPending(p) })
              && (var token := y.o.pending[p].token;
                  token in y.o.reservations && (token in z.o.reservations <==> z.o.ended[p] == Published))
  {
  }

  /** A transferred publication is behind the fence of its reservation's key, and its
      request is the fence's if it is the first there. */
  lemma TransferIs(slots: nat, y: System, p: nat, z: System)
    requires Inv(slots, y) && Next(slots, y, TransferPending(p), z)
    ensures p in y.o.pending && y.o.pending[p].token in y.o.reservations
    ensures var request, run, key := y.o.pending[p].request, y.o.pending[p].run, y.o.reservations[y.o.pending[p].token];
            && run in z.o.handed && z.o.handed[run] == key && p in z.o.ended && z.o.ended[p] == Transferred
            && key in z.s.entries && run in z.s.entries[key].owners
            && z.s.entries[key].request == (if key in y.s.entries then y.s.entries[key].request else request)
  {
  }

  function DoneBy(step: Step): set<nat> { if step.TakeSlot? || step.TakeTmuxSlot? || step.Prune? then step.tmuxDone else {} }

  /** A tmux entry comes only by a transfer and goes only when the native side is done
      with it. */
  lemma TmuxEntriesAre(slots: nat, y: System, step: Step, z: System)
    requires Next(slots, y, step, z)
    ensures forall run :: run in z.s.tmux <==> (run in y.s.tmux && run !in DoneBy(step)) || (step.TransferTmux? && step.run == run)
  {
    KeptHas(y.s.tmux, DoneBy(step));
  }

  /** The token's slot goes back, by hand or with the publication that holds it. */
  predicate Releases(o: Owners, step: Step, token: nat) {
    || step == DropSlot(token)
    || ((step.CleanPending? || step.TransferPending?) && step.p in o.pending && o.pending[step.p].token == token)
  }

  predicate Holds(o: Owners, token: nat, key: nat) { token in o.reservations && o.reservations[token] == key }

  predicate Armed(o: Owners, p: nat, pending: Pending, key: nat) {
    p in o.pending && o.pending[p] == pending && Holds(o, pending.token, key)
  }

  lemma SlotStep(slots: nat, y: System, step: Step, z: System, token: nat, key: nat)
    requires Next(slots, y, step, z) && Holds(y.o, token, key) && !Releases(y.o, step, token)
    ensures Holds(z.o, token, key)
  {
  }

  lemma ArmedStep(slots: nat, y: System, step: Step, z: System, p: nat, pending: Pending, key: nat)
    requires PendingOk(y.o) && Next(slots, y, step, z) && (Armed(y.o, p, pending, key) || p in y.o.ended)
    ensures Armed(z.o, p, pending, key) || p in z.o.ended
  {
  }

  /** Until its slot goes back, a reservation keeps the key it was taken for. */
  lemma SlotKeepsKey(slots: nat, steps: seq<Step>, states: seq<System>, i: nat, k: nat, token: nat, key: nat, tmuxDone: set<nat>)
    requires Execution(slots, steps, states) && i < k < |states| && steps[i] == TakeSlot(token, key, tmuxDone)
    ensures Holds(states[k].o, token, key) || exists j {:trigger steps[j]} :: i < j < k && Releases(states[j].o, steps[j], token)
  {
    assert Next(slots, states[i], steps[i], states[i + 1]);
    forall y: System, step: Step, z: System | Holds(y.o, token, key) && Next(slots, y, step, z) && !Releases(y.o, step, token)
      ensures Holds(z.o, token, key)
    {
      SlotStep(slots, y, step, z, token, key);
    }
    Runs.HoldsUntil((y: System) => Holds(y.o, token, key), (y: System, step: Step, z: System) => Next(slots, y, step, z),
                    (y: System, step: Step) => Releases(y.o, step, token), steps, states, i + 1, k);
  }

  /** An armed publication stays as it was armed, on the same key, until it ends. */
  lemma {:induction false} ArmedStays(slots: nat, steps: seq<Step>, states: seq<System>, i: nat, k: nat, p: nat, pending: Pending, key: nat)
    requires Execution(slots, steps, states) && i < k < |states|
    requires steps[i] == Arm(p, pending.request, pending.run, pending.token) && Holds(states[i].o, pending.token, key)
    ensures Armed(states[k].o, p, pending, key) || p in states[k].o.ended
    decreases k
  {
    assert Next(slots, states[k - 1], steps[k - 1], states[k]);
    if i + 1 < k {
      ArmedStays(slots, steps, states, i, k - 1, p, pending, key);
      FencesThroughout(slots, steps, states, k - 1);
      ArmedStep(slots, states[k - 1], steps[k - 1], states[k], p, pending, key);
    }
  }

  /** Whatever is pending was armed, with the request, Run and token it has now. */
  lemma {:induction false} WasArmed(slots: nat, steps: seq<Step>, states: seq<System>, k: nat, p: nat) returns (a: nat)
    requires Execution(slots, steps, states) && k < |states| && p in states[k].o.pending
    ensures a < k && var pending := states[k].o.pending[p]; steps[a] == Arm(p, pending.request, pending.run, pending.token)
    decreases k
  {
    assert Next(slots, states[k - 1], steps[k - 1], states[k]);
    if p in states[k - 1].o.pending { a := WasArmed(slots, steps, states, k - 1, p); } else { a := k - 1; }
  }

  lemma {:induction false} HandedStays(slots: nat, steps: seq<Step>, states: seq<System>, i: nat, k: nat, run: nat)
    requires Execution(slots, steps, states) && i <= k < |states| && run in states[i].o.handed
    ensures run in states[k].o.handed && states[k].o.handed[run] == states[i].o.handed[run]
    decreases k
  {
    if i < k {
      HandedStays(slots, steps, states, i, k - 1, run);
      FencesThroughout(slots, steps, states, k - 1);
      assert Next(slots, states[k - 1], steps[k - 1], states[k]);
    }
  }

  /** A publication armed on a token (WasArmed) and transferred later keeps the key that token
      was taken for fenced at every later state in which its Run is not proven reaped, whatever
      else is pruned or handed over. */
  lemma TransferredStaysFenced(slots: nat, steps: seq<Step>, states: seq<System>, a: nat, i: nat, k: nat, p: nat, pending: Pending, tmuxDone: set<nat>)
    requires Execution(slots, steps, states) && a < i < k < |states|
    requires steps[a] == Arm(p, pending.request, pending.run, pending.token) && steps[i] == TransferPending(p)
    ensures pending.token in states[a].o.reservations
    ensures var key := states[a].o.reservations[pending.token];
            && pending.run in states[k].o.handed && states[k].o.handed[pending.run] == key
            && (pending.run !in states[k].o.reaped ==> key in PruneOn(states[k].s, states[k].o.reaped, tmuxDone).entries)
  {
    assert Next(slots, states[a], steps[a], states[a + 1]);
    var key := states[a].o.reservations[pending.token];
    ArmedStays(slots, steps, states, a, i, p, pending, key);
    RunKeeps(slots, steps, states, i);
    assert Next(slots, states[i], steps[i], states[i + 1]);
    TransferIs(slots, states[i], p, states[i + 1]);
    HandedStays(slots, steps, states, i + 1, k, pending.run);
    FenceOpensIff(slots, steps, states, k, key, tmuxDone);
  }
}
