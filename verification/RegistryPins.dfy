/** Who keeps a Run or a ticket in the Registry (crates/ctxmux-daemon/src/creation.rs:1637-1707,
  2556-2573, 2849-2912). */
module RegistryPins {
  import opened Wrappers
  import opened RegistryModel
  import opened CandidateSelections
  import opened RegistryRuns
  import opened RegistryKeys
  import opened ControlBudgets
  import Runs

  // ---------- Pins ----------

  /** What one step adds to the clones of this Run's `Arc` that are out. */
  function PinsOf(step: Step, id: nat): int {
    match step
    case BeginStop(other, _, _) => if other == id then 2 else 0
    case RetryStop(other, _) => if other == id then 1 else 0
    case Pin(other) => if other == id then 1 else 0
    case SnapshotPin(other) => if other == id then 1 else 0
    case SettleStop(other, _) => if other == id then -1 else 0
    case Unpin(other) => if other == id then -1 else 0
    case _ => 0
  }

  function PinsIn(steps: seq<Step>, id: nat): int {
    if steps == [] then 0 else PinsIn(steps[..|steps| - 1], id) + PinsOf(steps[|steps| - 1], id)
  }

  lemma StepCountsPins(limits: Limits, g: Registry, step: Step, h: Registry, id: nat)
    requires Next(limits, g, step, h) && (step.SettleStop? ==> InFlight(g, step.id))
    ensures h.o.pins[id] == g.o.pins[id] + PinsOf(step, id)
  {
  }

  /** In every run the clones of a Run that are out are those taken and not given back. */
  lemma {:induction false} PinsAreCounted(limits: Limits, steps: seq<Step>, states: seq<Registry>, k: nat, id: nat)
    requires Execution(limits, steps, states) && k < |states|
    ensures states[k].o.pins[id] == states[0].o.pins[id] + PinsIn(steps[..k], id)
  {
    if k > 0 {
      PinsAreCounted(limits, steps, states, k - 1, id);
      PinsStep(limits, steps, states, k - 1, id);
      assert steps[..k][..k - 1] == steps[..k - 1];
    }
  }

  lemma PinsStep(limits: Limits, steps: seq<Step>, states: seq<Registry>, k: nat, id: nat)
    requires Execution(limits, steps, states) && k < |steps|
    ensures states[k + 1].o.pins[id] == states[k].o.pins[id] + PinsOf(steps[k], id)
  {
    RunKeeps(limits, steps, states, k);
    if steps[k].SettleStop? { assert InFlight(states[k], steps[k].id); }
    StepCountsPins(limits, states[k], steps[k], states[k + 1], id);
  }

  predicate Held(g: Registry, id: nat) { CanRetain(g, id) && g.o.pins[id] > 0 }

  /** This step gives back the last clone. */
  predicate LetsGo(g: Registry, step: Step, id: nat) { PinsOf(step, id) < 0 && g.o.pins[id] == 1 }

  lemma FencingNeedsFree(limits: Limits, g: Registry, r: Reservation, ordinals: map<nat, nat>, id: nat)
    requires SelectedFrom(g.s, limits, FactsOf(g, ordinals), r.newBytes, Chosen(r.candidates)) && Held(g, id)
    ensures id !in r.candidates
  {
    ChosenAreOldest(g.s, limits, FactsOf(g, ordinals), r.newBytes, r.candidates);
  }

  lemma ReservingKeepsHeld(limits: Limits, g: Registry, step: Step, h: Registry, id: nat)
    requires Next(limits, g, step, h) && Reserving(step) && Held(g, id)
    ensures Held(h, id)
  {
    FencingNeedsFree(limits, g, step.r, step.ordinals, id);
  }

  lemma PublishKeepsRetained(s: State, ticket: nat, charge: nat, removals: set<nat>, id: nat)
    requires ResidencyOk(s.runs, s.reservations, removals) && FreshOk(s) && ticket in s.reservations
    requires id in s.runs && s.runs[id].residency == Retained
    ensures id in PublishOn(s, ticket, charge).runs && PublishOn(s, ticket, charge).runs[id] == s.runs[id]
  {
    PublishedIsFound(s, ticket, charge);
  }

  lemma MovingKeepsHeld(limits: Limits, g: Registry, step: Step, h: Registry, id: nat)
    requires IndexesOk(g.s, g.o.removals) && FreshOk(g.s)
    requires Next(limits, g, step, h) && !Reserving(step) && Held(g, id) && h.o.pins[id] > 0
    ensures Held(h, id)
  {
    RetainedIsNoCandidate(g, id);
    if step.Publish? { PublishKeepsRetained(g.s, step.ticket, step.charge, g.o.removals, id); }
    else if step.Remove? || step.CommitRemoval? { RemovedLeave(g.s, [step.id]); }
  }

  lemma HeldStep(limits: Limits, g: Registry, step: Step, h: Registry, id: nat)
    requires Inv(limits, g) && Next(limits, g, step, h) && Held(g, id) && !LetsGo(g, step, id)
    ensures Held(h, id)
  {
    if step.SettleStop? { assert InFlight(g, step.id); }
    StepCountsPins(limits, g, step, h, id);
    if Reserving(step) { ReservingKeepsHeld(limits, g, step, h, id); } else { MovingKeepsHeld(limits, g, step, h, id); }
  }

  /** In every run a retained Run with a clone out is never collected, fenced or removed
      before the last clone is given back. */
  lemma HeldRunStays(limits: Limits, steps: seq<Step>, states: seq<Registry>, i: nat, k: nat, id: nat)
    requires Execution(limits, steps, states) && i <= k < |states| && Held(states[i], id)
    ensures Held(states[k], id) || exists j {:trigger steps[j]} :: i <= j < k && LetsGo(states[j], steps[j], id)
  {
    RunKeeps(limits, steps, states, i);
    forall g: Registry, step: Step, h: Registry | Inv(limits, g) && Held(g, id) && Next(limits, g, step, h) && !LetsGo(g, step, id)
      ensures Inv(limits, h) && Held(h, id)
    {
      StepKeeps(limits, g, step);
      HeldStep(limits, g, step, h, id);
    }
    Runs.HoldsUntil((g: Registry) => Inv(limits, g) && Held(g, id), (g: Registry, step: Step, h: Registry) => Next(limits, g, step, h),
                    (g: Registry, step: Step) => LetsGo(g, step, id), steps, states, i, k);
  }

  // ---------- Tickets ----------

  /** A fresh ticket may be published within its promise, or dropped. */
  lemma ReservedMayPublish(limits: Limits, g: Registry, step: Step, h: Registry, charge: nat)
    requires Next(limits, g, step, h) && step.Reserve? && charge <= step.r.newBytes
    ensures var ticket := g.s.nextTicket + 1;
            && Enabled(limits, h, Publish(ticket, charge)) && Enabled(limits, h, DropReservation(ticket))
            && ticket in h.o.permits && h.s.live == g.s.live + 1
  {
  }

  /** The owner of the ticket is gone and its reservation is not. */
  predicate Unresolved(g: Registry, ticket: nat, r: Reservation) {
    Listed(g.s, ticket, r) && ticket !in g.o.active
  }

  lemma UnresolvedStep(limits: Limits, g: Registry, step: Step, h: Registry, ticket: nat, r: Reservation)
    requires Next(limits, g, step, h) && Unresolved(g, ticket, r)
    ensures Unresolved(h, ticket, r)
  {
  }

  lemma LostIsUnresolved(limits: Limits, g: Registry, step: Step, h: Registry, r: Reservation)
    requires Next(limits, g, step, h) && step.LoseReservation? && Listed(g.s, step.ticket, r)
    ensures Unresolved(h, step.ticket, r)
  {
  }

  /** In every run a reservation whose owner was lost keeps its promise counted for ever. */
  lemma UnresolvedStays(limits: Limits, steps: seq<Step>, states: seq<Registry>, i: nat, k: nat, r: Reservation)
    requires Execution(limits, steps, states) && i < k < |states| && steps[i].LoseReservation? && Listed(states[i].s, steps[i].ticket, r)
    ensures Unresolved(states[k], steps[i].ticket, r)
  {
    var ticket := steps[i].ticket;
    LostIsUnresolved(limits, states[i], steps[i], states[i + 1], r);
    forall g: Registry, step: Step, h: Registry | Unresolved(g, ticket, r) && Next(limits, g, step, h) ensures Unresolved(h, ticket, r) {
      UnresolvedStep(limits, g, step, h, ticket, r);
    }
    Runs.HoldsUntil((g: Registry) => Unresolved(g, ticket, r), (g: Registry, step: Step, h: Registry) => Next(limits, g, step, h),
                    (g: Registry, step: Step) => false, steps, states, i + 1, k);
  }

  /** And its candidates stay fenced as long. */
  lemma UnresolvedFences(g: Registry, ticket: nat, r: Reservation, id: nat)
    requires ResidencyOk(g.s.runs, g.s.reservations, g.o.removals) && Unresolved(g, ticket, r) && id in r.candidates
    ensures id in g.s.runs && g.s.runs[id].residency == Collecting(ticket)
  {
  }

  // ---------- Bytes, permits and visible ends ----------

  /** Receipt bytes this step funds or gives back. */
  function Receipts(limits: Limits, g: Registry, step: Step): int {
    match step
    case BeginStop(_, key, _) => StopCharge(limits, key)
    case SettleStop(id, result) => if result.NotApplied? && id in g.s.runs then 0 - StopBytes(g.s.runs[id]) else 0
    case DropRemoved(bytes) => 0 - bytes
    case _ => 0
  }

  /** In every run: the Input side holds what it last asked for; beside it the bytes in use
      change only by receipts, and a Run's terminal state becomes visible by its own step and
      stays so. */
  lemma ControlMoves(limits: Limits, steps: seq<Step>, states: seq<Registry>, k: nat)
    requires Execution(limits, steps, states) && k < |steps|
    ensures var c, d := states[k].o.control, states[k + 1].o.control;
            && d.inputs == (if steps[k].ShareInputs? then steps[k].bytes else c.inputs)
            && d.used - d.inputs == c.used - c.inputs + Receipts(limits, states[k], steps[k])
    ensures states[k + 1].o.visible == states[k].o.visible + if steps[k].BecomeVisible? then {steps[k].id} else {}
  {
    assert Next(limits, states[k], steps[k], states[k + 1]);
    if steps[k].SettleStop? { SettlesFunded(limits, steps, states, k); }
  }

  lemma SettlesFunded(limits: Limits, steps: seq<Step>, states: seq<Registry>, k: nat)
    requires Execution(limits, steps, states) && k < |steps| && steps[k].SettleStop?
    ensures var g, id := states[k], steps[k].id; id in g.o.settlements && id in g.s.runs && g.s.runs[id].stop.Some?
  {
    RunKeeps(limits, steps, states, k);
    assert Next(limits, states[k], steps[k], states[k + 1]);
    assert InFlight(states[k], steps[k].id);
  }

  /** In every run a live slot is taken by a reservation and given back by its own permit,
      whatever becomes of the ticket in between. */
  lemma LiveMoves(limits: Limits, steps: seq<Step>, states: seq<Registry>, k: nat)
    requires Execution(limits, steps, states) && k < |steps|
    ensures var g, h := states[k], states[k + 1];
            match steps[k] {
              case Reserve(_, _) => h.s.live == g.s.live + 1 && g.s.nextTicket + 1 !in g.o.permits && h.o.permits == g.o.permits + {g.s.nextTicket + 1}
              case ReleasePermit(ticket) => h.s.live == g.s.live - 1 && ticket in g.o.permits && h.o.permits == g.o.permits - {ticket}
              case _ => h.s.live == g.s.live && h.o.permits == g.o.permits
            }
  {
    RunKeeps(limits, steps, states, k);
    LiveStep(limits, states[k], steps[k], states[k + 1]);
  }

  lemma LiveStep(limits: Limits, g: Registry, step: Step, h: Registry)
    requires LiveOk(limits, g) && Next(limits, g, step, h)
    ensures match step {
              case Reserve(_, _) => h.s.live == g.s.live + 1 && g.s.nextTicket + 1 !in g.o.permits && h.o.permits == g.o.permits + {g.s.nextTicket + 1}
              case ReleasePermit(ticket) => h.s.live == g.s.live - 1 && ticket in g.o.permits && h.o.permits == g.o.permits - {ticket}
              case _ => h.s.live == g.s.live && h.o.permits == g.o.permits
            }
  {
  }
}
