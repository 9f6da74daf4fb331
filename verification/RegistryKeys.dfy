/** What a key leads to, over whole runs of the Registry (crates/ctxmux-daemon/src/creation.rs:
  1533-1551, 2256-2345, 2371-2503, 2917-2934, 3012-3075). */
module RegistryKeys {
  import opened Wrappers
  import opened MapSums
  import opened RegistryModel
  import opened CandidateSelections
  import opened ControlBudgets
  import opened RegistryRuns
  import opened StopAnswers
  import Runs

  // The invariants of RegistryRuns also hold of a Registry that forgets.  Here each lock
  // section is described entry by entry and key by key, without its own functions.

  // ---------- Each lock section, in plain terms ----------

  /** The Runs outside `gone` stay as they are, with every key that leads to them; the ones
      in `gone` leave with every key that leads to them; nothing else enters. */
  ghost predicate Leaves(s: State, t: State, gone: seq<nat>) {
    && (forall id :: id in t.runs <==> id in s.runs && id !in gone)
    && (forall id :: id in t.runs ==> t.runs[id] == s.runs[id])
    && (forall k :: k in t.creation <==> k in s.creation && s.creation[k] !in gone)
    && (forall k :: k in t.creation ==> t.creation[k] == s.creation[k])
    && (forall k :: k in t.stops <==> k in s.stops && s.stops[k] !in gone)
    && (forall k :: k in t.stops ==> t.stops[k] == s.stops[k])
  }

  /** Only the residency of these Runs changes, and to this. */
  ghost predicate Fences(s: State, t: State, ids: seq<nat>, residency: Residency) {
    && t.creation == s.creation && t.stops == s.stops && t.retained == s.retained
    && (forall id :: id in t.runs <==> id in s.runs)
    && (forall id :: id in s.runs ==> t.runs[id] == if id in ids then s.runs[id].(residency := residency) else s.runs[id])
  }

  lemma RemovedLeave(s: State, ids: seq<nat>)
    ensures var t := RemoveOn(s, ids);
            Leaves(s, t, ids) && t.reservations == s.reservations && t.live == s.live && t.nextTicket == s.nextTicket
  {
  }

  /** A new ticket lists the reservation as it was asked for, and its candidates, and only
      they, are fenced under it. */
  lemma ReservedIsListed(s: State, r: Reservation)
    ensures var t, ticket := ReserveOn(s, r), s.nextTicket + 1;
            && Fences(s, t, r.candidates, Collecting(ticket)) && t.nextTicket == ticket && t.live == s.live + 1
            && ticket in t.reservations && t.reservations[ticket] == r
            && forall other :: other != ticket ==> (other in t.reservations <==> other in s.reservations)
                                                   && (other in s.reservations ==> t.reservations[other] == s.reservations[other])
  {
  }

  lemma RestoredIsFree(s: State, ticket: nat)
    requires ticket in s.reservations
    ensures var t := RestoreOn(s, ticket);
            && Fences(s, t, s.reservations[ticket].candidates, Retained) && t.reservations == s.reservations - {ticket}
            && t.live == s.live && t.nextTicket == s.nextTicket
  {
  }

  lemma RemovalFences(s: State, id: nat)
    ensures Fences(s, FenceRemovalOn(s, id), [id], Removing) && FenceRemovalOn(s, id).reservations == s.reservations
    ensures Fences(s, CancelRemovalOn(s, id), [id], Retained) && CancelRemovalOn(s, id).reservations == s.reservations
  {
  }

  /** A published Run is there, as it was reserved, and its creation key leads to it; its
      candidates are gone with their keys; everybody else stays, with every key. */
  lemma PublishedIsFound(s: State, ticket: nat, charge: nat)
    requires ticket in s.reservations && FreshOk(s)
    ensures var r, t := s.reservations[ticket], PublishOn(s, ticket, charge);
            && r.newId in t.runs && t.runs[r.newId] == Entry(r.key, None, charge, Retained)
            && (r.key.Some? ==> r.key.value in t.creation && t.creation[r.key.value] == r.newId)
            && (forall id :: id in t.runs <==> id == r.newId || (id in s.runs && id !in r.candidates))
            && (forall id :: id in s.runs && id !in r.candidates ==> t.runs[id] == s.runs[id])
            && (forall k :: k in t.creation <==> Some(k) == r.key || (k in s.creation && s.creation[k] !in r.candidates))
            && (forall k :: k in s.creation && s.creation[k] !in r.candidates ==> t.creation[k] == s.creation[k])
            && (forall k :: k in t.stops <==> k in s.stops && s.stops[k] !in r.candidates)
            && (forall k :: k in t.stops ==> t.stops[k] == s.stops[k])
            && t.reservations == s.reservations - {ticket} && t.nextTicket == s.nextTicket && t.live == s.live
  {
  }

  // ---------- The creation key of a published Run ----------

  predicate Leads(s: State, key: nat, id: nat) {
    && key in s.creation && s.creation[key] == id
    && id in s.runs && s.runs[id].key == Some(key)
  }

  /** This step removes or collects the Run. */
  predicate Takes(g: Registry, step: Step, id: nat) {
    || (step.Remove? && step.id == id)
    || (step.CommitRemoval? && step.id == id)
    || (step.Publish? && step.ticket in g.s.reservations && id in g.s.reservations[step.ticket].candidates)
  }

  /** Some step from here to there does. */
  ghost predicate Taken(steps: seq<Step>, states: seq<Registry>, i: nat, k: nat, id: nat)
    requires i <= k < |states| == |steps| + 1
  {
    exists j {:trigger steps[j]} :: i <= j < k && Takes(states[j], steps[j], id)
  }

  lemma StepKeepsKey(limits: Limits, g: Registry, step: Step, h: Registry, key: nat, id: nat)
    requires FreshOk(g.s) && Next(limits, g, step, h) && Leads(g.s, key, id) && !Takes(g, step, id)
    ensures Leads(h.s, key, id)
  {
    match step
    case Publish(ticket, charge) => PublishedIsFound(g.s, ticket, charge);
    case Remove(other, _) => RemovedLeave(g.s, [other]);
    case CommitRemoval(other) => RemovedLeave(g.s, [other]);
    case _ =>
  }

  /** In every run a creation key keeps leading to its Run until that very Run is removed
      or collected. */
  lemma KeyKeepsLeading(limits: Limits, steps: seq<Step>, states: seq<Registry>, i: nat, k: nat, key: nat, id: nat)
    requires Execution(limits, steps, states) && i <= k < |states| && Leads(states[i].s, key, id)
    ensures Leads(states[k].s, key, id) || Taken(steps, states, i, k, id)
  {
    RunKeeps(limits, steps, states, i);
    forall g: Registry, step: Step, h: Registry | Inv(limits, g) && Leads(g.s, key, id) && Next(limits, g, step, h) && !Takes(g, step, id)
      ensures Inv(limits, h) && Leads(h.s, key, id)
    {
      StepKeeps(limits, g, step);
      StepKeepsKey(limits, g, step, h, key, id);
    }
    Runs.HoldsUntil((g: Registry) => Inv(limits, g) && Leads(g.s, key, id),
                    (g: Registry, step: Step, h: Registry) => Next(limits, g, step, h),
                    (g: Registry, step: Step) => Takes(g, step, id), steps, states, i, k);
  }

  lemma PublishedAtOnce(limits: Limits, g: Registry, step: Step, h: Registry)
    requires FreshOk(g.s) && Next(limits, g, step, h) && step.Publish?
    ensures step.ticket in g.s.reservations
    ensures var r := g.s.reservations[step.ticket];
            && r.newId in h.s.runs && h.s.runs[r.newId] == Entry(r.key, None, step.charge, Retained)
            && (r.key.Some? ==> Leads(h.s, r.key.value, r.newId))
  {
    PublishedIsFound(g.s, step.ticket, step.charge);
  }

  lemma PublishedInRun(limits: Limits, steps: seq<Step>, states: seq<Registry>, i: nat)
    requires Execution(limits, steps, states) && i < |steps| && steps[i].Publish?
    ensures steps[i].ticket in states[i].s.reservations
    ensures var r := states[i].s.reservations[steps[i].ticket];
            && r.newId in states[i + 1].s.runs && states[i + 1].s.runs[r.newId] == Entry(r.key, None, steps[i].charge, Retained)
            && (r.key.Some? ==> Leads(states[i + 1].s, r.key.value, r.newId))
  {
    RunKeeps(limits, steps, states, i);
    PublishedAtOnce(limits, states[i], steps[i], states[i + 1]);
  }

  /** In every run a keyed publication makes its key lead to the new Run at once, and it
      does so until that Run is removed or collected: no retry of the creation finds
      nothing meanwhile. */
  lemma PublishedKeyLeads(limits: Limits, steps: seq<Step>, states: seq<Registry>, i: nat, k: nat)
    requires Execution(limits, steps, states) && i < k < |states| && steps[i].Publish?
    ensures steps[i].ticket in states[i].s.reservations
    ensures var r := states[i].s.reservations[steps[i].ticket];
            && r.newId in states[i + 1].s.runs && states[i + 1].s.runs[r.newId] == Entry(r.key, None, steps[i].charge, Retained)
            && (r.key.Some? ==> Leads(states[k].s, r.key.value, r.newId) || Taken(steps, states, i + 1, k, r.newId))
  {
    PublishedInRun(limits, steps, states, i);
    var r := states[i].s.reservations[steps[i].ticket];
    if r.key.Some? { KeyKeepsLeading(limits, steps, states, i + 1, k, r.key.value, r.newId); }
  }

  predicate Listed(s: State, ticket: nat, r: Reservation) {
    ticket <= s.nextTicket && ticket in s.reservations && s.reservations[ticket] == r
  }

  predicate Uses(step: Step, ticket: nat) { (step.Publish? || step.DropReservation?) && step.ticket == ticket }

  lemma StepKeepsTicket(limits: Limits, g: Registry, step: Step, h: Registry, ticket: nat, r: Reservation)
    requires Next(limits, g, step, h) && Listed(g.s, ticket, r) && !Uses(step, ticket)
    ensures Listed(h.s, ticket, r)
  {
  }

  /** In every run a reservation is published, if at all, as it was asked for: its ticket
      lists the same Run, key, bytes and candidates until the ticket is used or dropped. */
  lemma ReservationStays(limits: Limits, steps: seq<Step>, states: seq<Registry>, i: nat, k: nat)
    requires Execution(limits, steps, states) && i < k < |states| && steps[i].Reserve?
    ensures var ticket := states[i].s.nextTicket + 1;
            Listed(states[k].s, ticket, steps[i].r) || exists j :: i < j < k && Uses(steps[j], ticket)
  {
    assert Next(limits, states[i], steps[i], states[i + 1]);
    var ticket, r := states[i].s.nextTicket + 1, steps[i].r;
    forall g: Registry, step: Step, h: Registry | Listed(g.s, ticket, r) && Next(limits, g, step, h) && !Uses(step, ticket) ensures Listed(h.s, ticket, r) {
      StepKeepsTicket(limits, g, step, h, ticket, r);
    }
    Runs.HoldsUntil((g: Registry) => Listed(g.s, ticket, r), (g: Registry, step: Step, h: Registry) => Next(limits, g, step, h),
                    (g: Registry, step: Step) => Uses(step, ticket), steps, states, i + 1, k);
  }

  // ---------- The key and the result of a Stop ----------

  predicate StopLeads(s: State, key: nat, id: nat, cell: nat) {
    && key in s.stops && s.stops[key] == id
    && id in s.runs && s.runs[id].stop.Some? && s.runs[id].stop.value.key == key && s.runs[id].stop.value.cell == cell
  }

  predicate Forgets(g: Registry, step: Step, id: nat) {
    Takes(g, step, id) || (step.SettleStop? && step.id == id && step.result.NotApplied?)
  }

  lemma SettleKeepsStop(g: Registry, other: nat, result: StopResult, key: nat, id: nat, cell: nat)
    requires StopsOk(g.s.runs, g.s.stops) && other in g.o.settlements && StopLeads(g.s, key, id, cell)
    requires other == id ==> !result.NotApplied?
    ensures StopLeads(SettleOn(g, other, result).s, key, id, cell)
  {
  }

  lemma LeavingKeepsStop(s: State, t: State, gone: seq<nat>, key: nat, id: nat, cell: nat)
    requires Leaves(s, t, gone) && id !in gone && StopLeads(s, key, id, cell)
    ensures StopLeads(t, key, id, cell)
  {
  }

  lemma PublishKeepsStop(s: State, ticket: nat, charge: nat, key: nat, id: nat, cell: nat)
    requires ticket in s.reservations && FreshOk(s) && id !in s.reservations[ticket].candidates && StopLeads(s, key, id, cell)
    ensures StopLeads(PublishOn(s, ticket, charge), key, id, cell)
  {
    PublishedIsFound(s, ticket, charge);
  }

  predicate Quiet(step: Step) { !step.Publish? && !step.Remove? && !step.CommitRemoval? && !step.SettleStop? }

  lemma QuietKeepsStop(limits: Limits, g: Registry, step: Step, h: Registry, key: nat, id: nat, cell: nat)
    requires Next(limits, g, step, h) && StopLeads(g.s, key, id, cell) && Quiet(step)
    ensures StopLeads(h.s, key, id, cell)
  {
  }

  lemma StepKeepsStop(limits: Limits, g: Registry, step: Step, h: Registry, key: nat, id: nat, cell: nat)
    requires StopsOk(g.s.runs, g.s.stops) && FreshOk(g.s)
    requires Next(limits, g, step, h) && StopLeads(g.s, key, id, cell) && !Forgets(g, step, id)
    ensures StopLeads(h.s, key, id, cell)
  {
    if Quiet(step) {
      QuietKeepsStop(limits, g, step, h, key, id, cell);
    } else if step.Publish? {
      PublishKeepsStop(g.s, step.ticket, step.charge, key, id, cell);
    } else if step.SettleStop? {
      SettleKeepsStop(g, step.id, step.result, key, id, cell);
    } else {
      RemovedLeave(g.s, [step.id]);
      LeavingKeepsStop(g.s, h.s, [step.id], key, id, cell);
    }
  }

  ghost predicate BoundIn(limits: Limits, g: Registry, key: nat, id: nat, cell: nat) { Inv(limits, g) && StopLeads(g.s, key, id, cell) }

  lemma BoundStep(limits: Limits, g: Registry, step: Step, h: Registry, key: nat, id: nat, cell: nat)
    requires BoundIn(limits, g, key, id, cell) && Next(limits, g, step, h) && !Forgets(g, step, id)
    ensures BoundIn(limits, h, key, id, cell)
  {
    StepKeeps(limits, g, step);
    StepKeepsStop(limits, g, step, h, key, id, cell);
  }

  /** In every run a Stop key keeps leading to the Run and the cell it was bound to until
      the Run is removed or collected, or the Stop turns out not applied. */
  lemma StopKeyKeepsLeading(limits: Limits, steps: seq<Step>, states: seq<Registry>, i: nat, k: nat)
    requires Execution(limits, steps, states) && i < k < |states| && steps[i].BeginStop?
    ensures var id, key, cell := steps[i].id, steps[i].key, steps[i].cell;
            StopLeads(states[k].s, key, id, cell) || exists j :: i < j < k && Forgets(states[j], steps[j], id)
  {
    var id, key, cell := steps[i].id, steps[i].key, steps[i].cell;
    RunKeeps(limits, steps, states, i + 1);
    BoundAtOnce(limits, states[i], steps[i], states[i + 1]);
    forall g: Registry, step: Step, h: Registry | BoundIn(limits, g, key, id, cell) && Next(limits, g, step, h) && !Forgets(g, step, id)
      ensures BoundIn(limits, h, key, id, cell)
    {
      BoundStep(limits, g, step, h, key, id, cell);
    }
    Runs.HoldsUntil((g: Registry) => BoundIn(limits, g, key, id, cell),
                    (g: Registry, step: Step, h: Registry) => Next(limits, g, step, h),
                    (g: Registry, step: Step) => Forgets(g, step, id), steps, states, i + 1, k);
  }

  lemma BoundAtOnce(limits: Limits, g: Registry, step: Step, h: Registry)
    requires Next(limits, g, step, h) && step.BeginStop?
    ensures StopLeads(h.s, step.key, step.id, step.cell)
    ensures step.cell in h.o.cells && h.o.cells[step.cell] == Cell(step.key, None)
    ensures step.id in h.o.settlements && h.o.settlements[step.id] == step.cell
  {
  }

  /** In every run a settlement's own result is what its cell holds from then on, the one
      given to it and no other; every other cell is left alone. */
  lemma SettledResultStays(limits: Limits, steps: seq<Step>, states: seq<Registry>, i: nat, k: nat)
    requires Execution(limits, steps, states) && i < k < |states| && steps[i].SettleStop?
    ensures steps[i].id in states[i].o.settlements
    ensures var c := states[i].o.settlements[steps[i].id];
            && c in states[k].o.cells && states[k].o.cells[c].result == Some(steps[i].result)
            && c in states[i].o.cells && states[k].o.cells[c].key == states[i].o.cells[c].key
    ensures forall c :: c in states[i].o.cells && c != states[i].o.settlements[steps[i].id] ==>
              c in states[i + 1].o.cells && states[i + 1].o.cells[c] == states[i].o.cells[c]
  {
    RunKeeps(limits, steps, states, i);
    assert Next(limits, states[i], steps[i], states[i + 1]);
    assert InFlight(states[i], steps[i].id);
    CellStays(limits, steps, states, i + 1, k, states[i].o.settlements[steps[i].id]);
  }
}
