/** The Registry's lock sections in their own form (crates/ctxmux-daemon/src/creation.rs:
  2150-2345, 2355-2512, 2556-2655, 2881-3075), each proved equal to the function the
  model in RegistryModel and RegistryRuns speaks about.
 */
module RunRegistries {
  import opened Wrappers
  import opened MapSums
  import opened RegistryModel
  import opened RegistryBudgets
  import opened CandidateSelections
  import opened ControlBudgets
  import opened RegistryRuns

  datatype Error = RunNotFound | InvalidRunState | BackendUnavailable | CapacityError | Internal | InvalidRequest | StopConflict | ControlBackpressure

  // ---------- Removal of entries ----------

  /** `remove_registry_entry`: the entry, its charge, and the two index entries its
      own keys name. */
  method RemoveRegistryEntry(s: State, id: nat) returns (t: State)
    requires id in s.runs && KeysOk(s.runs, s.creation) && StopsOk(s.runs, s.stops)
    ensures t == RemoveOn(s, [id])
  {
    var removed := s.runs[id];
    t := s.(runs := s.runs - {id}, retained := Less(s.retained, removed.charge));
    if removed.key.Some? {
      t := t.(creation := t.creation - {removed.key.value});
    }
    if removed.stop.Some? {
      t := t.(stops := t.stops - {removed.stop.value.key});
    }
    assert t.runs == Without(s.runs, [id]);
    assert t.creation == IndexWithout(s.creation, [id]) by { OneKeyOut(s.runs, s.creation, id); }
    assert t.stops == IndexWithout(s.stops, [id]) by { OneStopOut(s.runs, s.stops, id); }
    WeighOne(s.runs, Charge, id);
  }

  lemma OneKeyOut(runs: map<nat, Entry>, creation: map<nat, nat>, id: nat)
    requires KeysOk(runs, creation) && id in runs
    ensures IndexWithout(creation, [id]) == if runs[id].key.Some? then creation - {runs[id].key.value} else creation
  {
  }

  lemma OneStopOut(runs: map<nat, Entry>, stops: map<nat, nat>, id: nat)
    requires StopsOk(runs, stops) && id in runs
    ensures IndexWithout(stops, [id]) == if runs[id].stop.Some? then stops - {runs[id].stop.value.key} else stops
  {
  }

  lemma RemoveJoin(s: State, ids: seq<nat>, id: nat)
    requires id !in ids
    ensures RemoveOn(RemoveOn(s, ids), [id]) == RemoveOn(s, ids + [id])
  {
    assert Without(Without(s.runs, ids), [id]) == Without(s.runs, ids + [id]);
    assert IndexWithout(IndexWithout(s.creation, ids), [id]) == IndexWithout(s.creation, ids + [id]);
    assert IndexWithout(IndexWithout(s.stops, ids), [id]) == IndexWithout(s.stops, ids + [id]);
    ChargesJoin(s.runs, ids, id);
    WeighOne(Without(s.runs, ids), Charge, id);
  }

  lemma {:induction false} ChargesJoin(runs: map<nat, Entry>, ids: seq<nat>, id: nat)
    ensures Charges(runs, ids + [id]) == Charges(runs, ids) + ChargeAt(runs, id)
  {
    if ids == [] {
      assert ids + [id] == [id];
    } else {
      ChargesJoin(runs, ids[1..], id);
      assert (ids + [id])[1..] == ids[1..] + [id];
    }
  }

  method RemoveAll(s: State, ids: seq<nat>) returns (t: State)
    requires KeysOk(s.runs, s.creation) && StopsOk(s.runs, s.stops) && Distinct(ids) && forall id :: id in ids ==> id in s.runs
    ensures t == RemoveOn(s, ids)
  {
    t := s;
    assert RemoveOn(s, []) == s;
    for i := 0 to |ids|
      invariant t == RemoveOn(s, ids[..i])
    {
      assert ids[i] in ids && ids[i] !in ids[..i];
      RemoveKeys(s.runs, s.creation, s.stops, ids[..i]);
      RemoveJoin(s, ids[..i], ids[i]);
      assert ids[..i] + [ids[i]] == ids[..i + 1];
      t := RemoveRegistryEntry(t, ids[i]);
    }
    assert ids[..|ids|] == ids;
  }

  // ---------- Fences ----------

  method FenceAll(runs: map<nat, Entry>, ids: seq<nat>, residency: Residency) returns (fenced: map<nat, Entry>)
    requires forall id :: id in ids ==> id in runs
    ensures fenced == WithResidency(runs, ids, residency)
  {
    fenced := runs;
    assert WithResidency(runs, [], residency) == runs;
    for i := 0 to |ids|
      invariant fenced == WithResidency(runs, ids[..i], residency)
    {
      assert ids[i] in ids;
      fenced := fenced[ids[i] := fenced[ids[i]].(residency := residency)];
      assert ids[..i + 1] == ids[..i] + [ids[i]];
      assert fenced == WithResidency(runs, ids[..i + 1], residency);
    }
    assert ids[..|ids|] == ids;
  }

  method RestoreReservation(s: State, ticket: nat, ghost removals: set<nat>) returns (t: State)
    requires ticket in s.reservations && ResidencyOk(s.runs, s.reservations, removals)
    ensures t == RestoreOn(s, ticket)
  {
    var reservation := s.reservations[ticket];
    var runs := FenceAll(s.runs, reservation.candidates, Retained);
    t := s.(reservations := s.reservations - {ticket}, runs := runs);
  }

  // ---------- Publication ----------

  /** Fence the chosen candidates under a new ticket; a candidate that cannot give up
      its descriptors undoes the fence under the same lock. */
  method FenceCandidates(s: State, r: Reservation, detachOk: bool, ghost removals: set<nat>) returns (t: State)
    requires ResidencyOk(s.runs, s.reservations, removals) && s.nextTicket + 1 !in s.reservations && AllRetained(s, r.candidates)
    ensures t == if detachOk then ReserveOn(s, r) else s.(nextTicket := s.nextTicket + 1)
  {
    var ticket: nat := s.nextTicket + 1;
    var runs := FenceAll(s.runs, r.candidates, Collecting(ticket));
    t := s.(nextTicket := ticket, runs := runs, reservations := s.reservations[ticket := r]);
    if detachOk {
      t := t.(live := t.live + 1);
    } else {
      ReserveFences(s, r, removals);
      RestoreUndoesReserve(s, r);
      t := RestoreReservation(t, ticket, removals);
    }
  }

  /** `reserve_publication` after the pressure release; `detachOk` is whether every
      candidate gave up its descriptors. */
  method ReservePublication(s: State, limits: Limits, f: Facts, newId: nat, key: Option<nat>, newBytes: nat, allocOk: bool, detachOk: bool,
                            ghost removals: set<nat>)
    returns (t: State, r: Result<seq<nat>, Error>)
    requires IndexesOk(s, removals) && FreshOk(s) && BudgetsOk(s, limits)
    ensures r.Success? ==>
              && s.live < limits.live && SelectedFrom(s, limits, f, newBytes, Chosen(r.value))
              && t == ReserveOn(s, Reservation(newId, key, newBytes, r.value))
    ensures r.Failure? ==> t == s || (!detachOk && t == s.(nextTicket := s.nextTicket + 1))
    ensures r == Failure(CapacityError) <==> s.live >= limits.live || SelectedFrom(s, limits, f, newBytes, RunCapacity)
    ensures s.live < limits.live && SelectedFrom(s, limits, f, newBytes, AlreadyReserved) ==> r == Failure(BackendUnavailable)
  {
    if s.live >= limits.live {
      return s, Failure(CapacityError);
    }
    var selection, _ := SelectPublicationCandidates(s, limits, f, newBytes);
    SelectedOnce(s, limits, f, newBytes, selection);
    match selection {
      case RunCapacity => return s, Failure(CapacityError);
      case AlreadyReserved => return s, Failure(BackendUnavailable);
      case Chosen(candidates) =>
        if !allocOk {
          return s, Failure(Internal);
        }
        var reservation := Reservation(newId, key, newBytes, candidates);
        ChoiceAffords(s, limits, f, reservation);
        t := FenceCandidates(s, reservation, detachOk, removals);
        r := if detachOk then Success(candidates) else Failure(Internal);
    }
  }

  /** The selection's verdict is the only one that fits the state. */
  lemma SelectedOnce(s: State, limits: Limits, f: Facts, newBytes: nat, result: Selection)
    requires SelectedFrom(s, limits, f, newBytes, result)
    ensures forall other :: SelectedFrom(s, limits, f, newBytes, other) ==> other == result
  {
    var order := OrderExists(s, f);
    forall other | SelectedFrom(s, limits, f, newBytes, other) ensures other == result {
      SelectionUnique(s.runs, order, NeedsRecord(s, limits), ToFund(s, limits, newBytes), Total(s.reservations, Several) > 0, other, result);
    }
  }

  /** `publish_creation` and `publish_unkeyed`: consume the ticket, drop its candidates,
      insert the new Run and its key. */
  method ConsumeReservation(s: State, ticket: nat, charge: nat, ghost removals: set<nat>) returns (t: State)
    requires IndexesOk(s, removals) && FreshOk(s) && ticket in s.reservations
    ensures t == PublishOn(s, ticket, charge)
  {
    var reservation := s.reservations[ticket];
    t := s.(reservations := s.reservations - {ticket});
    t := RemoveAll(t, reservation.candidates);
    t := t.(retained := t.retained + charge,
            runs := t.runs[reservation.newId := Entry(reservation.key, None, charge, Retained)]);
    if reservation.key.Some? {
      t := t.(creation := t.creation[reservation.key.value := reservation.newId]);
    }
  }

  // ---------- Removal ----------

  /** `validate_removable_entry`; `running` and the ordinal are the Run's own. */
  method ValidateRemovable(s: State, f: Facts, running: set<nat>, id: nat) returns (r: Result<(), Error>)
    ensures r.Success? <==> Eligible(s, f, id) && id !in running
    ensures r == Failure(RunNotFound) <==> id !in s.runs
    ensures r == Failure(InvalidRunState) <==> id in s.runs && s.runs[id].residency == Retained && id in running
  {
    if id !in s.runs { return Failure(RunNotFound); }
    if s.runs[id].residency != Retained { return Failure(BackendUnavailable); }
    if id in running { return Failure(InvalidRunState); }
    if id in f.pinned { return Failure(BackendUnavailable); }
    if id !in f.ordinals { return Failure(BackendUnavailable); }
    r := Success(());
  }

  method RemoveMemory(s: State, f: Facts, running: set<nat>, id: nat, detachOk: bool, ghost removals: set<nat>) returns (t: State, r: Result<(), Error>)
    requires IndexesOk(s, removals)
    ensures r.Success? <==> Eligible(s, f, id) && id !in running && detachOk
    ensures t == if r.Success? then RemoveOn(s, [id]) else s
  {
    r := ValidateRemovable(s, f, running, id);
    t := s;
    if r.Success? {
      if !detachOk { return s, Failure(Internal); }
      t := RemoveRegistryEntry(s, id);
    }
  }

  method BeginPersistentRemoval(s: State, f: Facts, running: set<nat>, id: nat, detachOk: bool) returns (t: State, r: Result<nat, Error>)
    ensures r.Success? <==> Eligible(s, f, id) && id !in running && s.runs[id].key.Some? && detachOk
    ensures r.Success? ==> r.value == s.runs[id].key.value && t == FenceRemovalOn(s, id)
    ensures r.Failure? ==> t == s
  {
    var ok := ValidateRemovable(s, f, running, id);
    if ok.Failure? { return s, Failure(ok.error); }
    if s.runs[id].key.None? || !detachOk { return s, Failure(Internal); }
    var runs := FenceAll(s.runs, [id], Removing);
    t, r := s.(runs := runs), Success(s.runs[id].key.value);
  }

  /** Commit of a removal fence whose durable delete succeeded. */
  method RemoveFenced(s: State, id: nat, ghost removals: set<nat>) returns (t: State)
    requires IndexesOk(s, removals) && id in removals
    ensures t == RemoveOn(s, [id])
  {
    t := RemoveRegistryEntry(s, id);
  }

  /** Drop of a removal fence without a commit. */
  method ReleaseFenced(s: State, id: nat, ghost removals: set<nat>) returns (t: State)
    requires IndexesOk(s, removals) && id in removals
    ensures t == CancelRemovalOn(s, id)
  {
    t := s;
    if id in s.runs {
      var runs := FenceAll(s.runs, [id], Retained);
      t := s.(runs := runs);
    }
  }

  // ---------- Recoverable Stops ----------

  datatype Admission = Owner(cell: nat) | Retry(cell: nat)

  /** `begin_recoverable_stop`: bind a Stop key and fund its receipt, or join the operation
      the key is already bound to.  `native` is whether the Run has a native control. */
  method BeginRecoverableStop(g: Registry, limits: Limits, id: nat, key: nat, cell: nat, native: bool)
    returns (h: Registry, r: Result<Admission, Error>)
    requires Inv(limits, g) && cell !in g.o.cells
    ensures r.Failure? ==> h == g
    ensures r == Failure(InvalidRequest) <==> !KeyOk(key)
    ensures KeyOk(key) && key in g.s.stops ==>
              && (r.Success? <==> g.s.stops[key] == id && CanRetain(g, id))
              && (r.Success? ==> r.value == Retry(g.s.runs[id].stop.value.cell) && Next(limits, g, Step.RetryStop(id, key), h))
              && (g.s.stops[key] != id ==> r == Failure(StopConflict))
    ensures KeyOk(key) && key !in g.s.stops ==>
              && (r.Success? ==> r.value == Owner(cell) && Next(limits, g, Step.BeginStop(id, key, cell), h))
              && (r.Success? <==> native && Enabled(limits, g, Step.BeginStop(id, key, cell)))
              && (r.Success? <==> native && CanRetain(g, id) && g.s.runs[id].stop.None? && g.o.control.used + StopCharge(limits, key) <= limits.control)
              && (CanRetain(g, id) && g.s.runs[id].stop.Some? ==> r == Failure(StopConflict))
              && (r == Failure(ControlBackpressure) <==>
                  && CanRetain(g, id) && g.s.runs[id].stop.None?
                  && g.o.control.used + StopCharge(limits, key) > limits.control)
  {
    var s := g.s;
    if !KeyOk(key) { return g, Failure(InvalidRequest); }
    if key in s.stops {
      if s.stops[key] != id { return g, Failure(StopConflict); }
      assert id in s.runs && s.runs[id].stop.Some? && s.runs[id].stop.value.key == key;
      if s.runs[id].residency != Retained { return g, Failure(BackendUnavailable); }
      h := g.(o := g.o.(pins := g.o.pins + multiset{id}));
      return h, Success(Retry(s.runs[id].stop.value.cell));
    }
    if id !in s.runs { return g, Failure(RunNotFound); }
    if s.runs[id].residency != Retained { return g, Failure(BackendUnavailable); }
    if s.runs[id].stop.Some? { return g, Failure(StopConflict); }
    var memory := StopCharge(limits, key);
    if g.o.control.used + memory > limits.control { return g, Failure(ControlBackpressure); }
    var control := Spend(g.o.control, memory);
    if !native {
      control := Refund(control, memory);
      return g.(o := g.o.(control := control)), Failure(InvalidRunState);
    }
    s := s.(runs := s.runs[id := s.runs[id].(stop := Some(StopRecord(key, cell, memory)))]);
    s := s.(stops := s.stops[key := id]);
    var o := g.o.(cells := g.o.cells[cell := Cell(key, None)], settlements := g.o.settlements[id := cell]);
    h := RegistryRuns.Registry(s, o.(pins := o.pins + multiset{id, id}, control := control));
    r := Success(Owner(cell));
  }

  /** Record the outcome of a settlement; a not-applied one forgets the operation, and its
      funding goes with the record. */
  method SettleRecoverableStop(g: Registry, id: nat, result: StopResult, ghost limits: Limits) returns (h: Registry)
    requires Inv(limits, g) && id in g.o.settlements
    ensures h == SettleOn(g, id, result)
  {
    assert InFlight(g, id);
    var record := g.s.runs[id].stop.value;
    assert record.cell in g.o.cells && g.o.cells[record.cell].result.None?;
    h := g;
    if result.NotApplied? {
      var s := g.s.(runs := g.s.runs[id := g.s.runs[id].(stop := None)]);
      s := s.(stops := s.stops - {record.key});
      h := RegistryRuns.Registry(s, g.o.(control := Refund(g.o.control, record.memory)));
    }
    h := h.(o := h.o.(cells := h.o.cells[record.cell := h.o.cells[record.cell].(result := Some(result))]));
    h := h.(o := h.o.(settlements := h.o.settlements - {id}, pins := h.o.pins - multiset{id}));
  }

  function NextTicket(g: Registry): Registry { g.(s := g.s.(nextTicket := g.s.nextTicket + 1)) }

  /** A reservation and its two owners: the ticket and the live permit. */
  method TryReserve(g: Registry, limits: Limits, newId: nat, key: Option<nat>, newBytes: nat, ordinals: map<nat, nat>, allocOk: bool, detachOk: bool)
    returns (h: Registry, r: Result<nat, Error>)
    requires Inv(limits, g) && FreshFor(g.s, Reservation(newId, key, newBytes, []))
    ensures Inv(limits, h)
    ensures r.Success? ==> r.value in h.s.reservations && Next(limits, g, Step.Reserve(h.s.reservations[r.value], ordinals), h)
    ensures r.Failure? ==> h == g || h == NextTicket(g)
  {
    var next, chosen := ReservePublication(g.s, limits, FactsOf(g, ordinals), newId, key, newBytes, allocOk, detachOk, g.o.removals);
    if chosen.Failure? {
      TicketKeeps(limits, g);
      return g.(s := next), Failure(chosen.error);
    }
    var ticket: nat := g.s.nextTicket + 1;
    ghost var reservation := Reservation(newId, key, newBytes, chosen.value);
    ReserveStep(limits, g, reservation, ordinals);
    h := RegistryRuns.Registry(next, g.o.(active := g.o.active + {ticket}, permits := g.o.permits + {ticket}));
    r := Success(ticket);
  }

  lemma ReserveStep(limits: Limits, g: Registry, r: Reservation, ordinals: map<nat, nat>)
    requires Inv(limits, g) && FreshFor(g.s, r) && g.s.live < limits.live
    requires SelectedFrom(g.s, limits, FactsOf(g, ordinals), r.newBytes, Chosen(r.candidates))
    ensures Next(limits, g, Step.Reserve(r, ordinals), Reserved(g, r)) && Inv(limits, Reserved(g, r))
  {
    StepKeeps(limits, g, Step.Reserve(r, ordinals));
  }

  /** The Registry as the daemon holds it, with the owners it hands out.  Every operation
      is one step of the run machine, or changes nothing but perhaps the ticket number;
      so every reachable state satisfies the machine's invariant. */
  class RunRegistry {
    const limits: Limits
    var state: State
    var owners: Owners

    ghost function Now(): Registry
      reads this
    {
      RegistryRuns.Registry(state, owners)
    }

    ghost predicate Valid()
      reads this
    {
      Inv(limits, Now())
    }

    constructor (limits: Limits)
      ensures Valid() && Initial(Now()) && this.limits == limits
    {
      this.limits := limits;
      state := State(map[], map[], map[], map[], 0, 0, 0);
      owners := Owners({}, {}, multiset{}, map[], map[], {}, Control(0, 0, 0), {});
      new;
      EmptyOk(limits, Now());
    }

    // ---------- Publications ----------

    method Reserve(newId: nat, key: Option<nat>, newBytes: nat, ordinals: map<nat, nat>, allocOk: bool, detachOk: bool) returns (r: Result<nat, Error>)
      requires Valid() && FreshFor(state, Reservation(newId, key, newBytes, []))
      modifies this
      ensures Valid()
      ensures r.Success? ==> r.value in state.reservations
                             && Next(limits, old(Now()), Step.Reserve(state.reservations[r.value], ordinals), Now())
      ensures r.Failure? ==> Now() == old(Now()) || Now() == NextTicket(old(Now()))
    {
      var after;
      after, r := TryReserve(RegistryRuns.Registry(state, owners), limits, newId, key, newBytes, ordinals, allocOk, detachOk);
      state, owners := after.s, after.o;
    }

    method PublishCreation(ticket: nat, charge: nat)
      requires Valid() && ticket in owners.active && ticket in state.reservations && charge <= state.reservations[ticket].newBytes
      modifies this
      ensures Valid() && Next(limits, old(Now()), Step.Publish(ticket, charge), Now())
    {
      StepKeeps(limits, Now(), Step.Publish(ticket, charge));
      var control := Leave(state.runs, state.reservations[ticket].candidates, owners.control);
      state := ConsumeReservation(state, ticket, charge, owners.removals);
      owners := owners.(active := owners.active - {ticket}, control := control);
    }

    method DropReservation(ticket: nat)
      requires Valid() && ticket in owners.active && ticket in state.reservations
      modifies this
      ensures Valid() && Next(limits, old(Now()), Step.DropReservation(ticket), Now())
    {
      StepKeeps(limits, Now(), Step.DropReservation(ticket));
      state := RestoreReservation(state, ticket, owners.removals);
      owners := owners.(active := owners.active - {ticket});
    }

    method IntoUnresolved(ticket: nat)
      requires Valid() && ticket in owners.active
      modifies this
      ensures Valid() && Next(limits, old(Now()), Step.LoseReservation(ticket), Now())
    {
      StepKeeps(limits, Now(), Step.LoseReservation(ticket));
      owners := owners.(active := owners.active - {ticket});
    }

    method ReleasePermit(ticket: nat)
      requires Valid() && ticket in owners.permits && ticket !in owners.active
      modifies this
      ensures Valid() && Next(limits, old(Now()), Step.ReleasePermit(ticket), Now())
      ensures state.live == old(state.live) - 1
    {
      StepKeeps(limits, Now(), Step.ReleasePermit(ticket));
      state := state.(live := Less(state.live, 1));
      owners := owners.(permits := owners.permits - {ticket});
    }

    // ---------- Removals ----------

    method Remove(id: nat, running: set<nat>, ordinals: map<nat, nat>, detachOk: bool) returns (r: Result<(), Error>)
      requires Valid()
      modifies this
      ensures Valid()
      ensures r.Success? <==> Eligible(old(state), FactsOf(old(Now()), ordinals), id) && id !in running && detachOk
      ensures if r.Success? then Next(limits, old(Now()), Step.Remove(id, ordinals), Now()) else Now() == old(Now())
    {
      ghost var g := Now();
      var control := Leave(state.runs, [id], owners.control);
      var facts := FactsOf(RegistryRuns.Registry(state, owners), ordinals);
      state, r := RemoveMemory(state, facts, running, id, detachOk, owners.removals);
      if r.Success? {
        StepKeeps(limits, g, Step.Remove(id, ordinals));
        owners := owners.(control := control);
      }
    }

    method BeginRemoval(id: nat, running: set<nat>, ordinals: map<nat, nat>, detachOk: bool) returns (r: Result<nat, Error>)
      requires Valid()
      modifies this
      ensures Valid()
      ensures r.Success? ==> Next(limits, old(Now()), Step.BeginRemoval(id, ordinals), Now()) && state.runs[id].key == Some(r.value)
      ensures r.Failure? ==> Now() == old(Now())
    {
      ghost var g := Now();
      var facts := FactsOf(RegistryRuns.Registry(state, owners), ordinals);
      state, r := BeginPersistentRemoval(state, facts, running, id, detachOk);
      if r.Success? {
        StepKeeps(limits, g, Step.BeginRemoval(id, ordinals));
        owners := owners.(removals := owners.removals + {id});
      }
    }

    method CommitPersistentRemoval(id: nat)
      requires Valid() && id in owners.removals
      modifies this
      ensures Valid() && Next(limits, old(Now()), Step.CommitRemoval(id), Now())
    {
      StepKeeps(limits, Now(), Step.CommitRemoval(id));
      var control := Leave(state.runs, [id], owners.control);
      state := RemoveFenced(state, id, owners.removals);
      owners := owners.(removals := owners.removals - {id}, control := control);
    }

    method CancelPersistentRemoval(id: nat)
      requires Valid() && id in owners.removals
      modifies this
      ensures Valid() && Next(limits, old(Now()), Step.CancelRemoval(id), Now())
    {
      StepKeeps(limits, Now(), Step.CancelRemoval(id));
      state := ReleaseFenced(state, id, owners.removals);
      owners := owners.(removals := owners.removals - {id});
    }

    /** Entries that left are dropped after the lock, and give back their receipts. */
    method DropRemoved(bytes: nat)
      requires Valid() && bytes <= owners.control.leaving
      modifies this
      ensures Valid() && Next(limits, old(Now()), Step.DropRemoved(bytes), Now())
    {
      StepKeeps(limits, Now(), Step.DropRemoved(bytes));
      owners := owners.(control := Refund(owners.control, bytes).(leaving := owners.control.leaving - bytes));
    }

    // ---------- Stops ----------

    method BeginStop(id: nat, key: nat, cell: nat, native: bool) returns (r: Result<Admission, Error>)
      requires Valid() && cell !in owners.cells
      modifies this
      ensures Valid()
      ensures r.Failure? ==> Now() == old(Now())
      ensures r.Success? ==> Next(limits, old(Now()), if r.value.Owner? then Step.BeginStop(id, key, cell) else Step.RetryStop(id, key), Now())
      ensures r.Success? ==> r.value.cell in owners.cells && owners.cells[r.value.cell].key == key
    {
      ghost var g := Now();
      var after;
      after, r := BeginRecoverableStop(RegistryRuns.Registry(state, owners), limits, id, key, cell, native);
      if r.Success? { StepKeeps(limits, g, if r.value.Owner? then Step.BeginStop(id, key, cell) else Step.RetryStop(id, key)); }
      state, owners := after.s, after.o;
    }

    method SettleStop(id: nat, result: StopResult)
      requires Valid() && id in owners.settlements
      modifies this
      ensures Valid() && Next(limits, old(Now()), Step.SettleStop(id, result), Now())
    {
      StepKeeps(limits, Now(), Step.SettleStop(id, result));
      var after := SettleRecoverableStop(RegistryRuns.Registry(state, owners), id, result, limits);
      state, owners := after.s, after.o;
    }

    /** The Input side takes or gives back bytes of the shared budget. */
    method ShareInputs(bytes: nat) returns (ok: bool)
      requires Valid()
      modifies this
      ensures Valid()
      ensures if ok then Next(limits, old(Now()), Step.ShareInputs(bytes), Now()) else Now() == old(Now())
      ensures bytes <= old(owners.control.inputs) ==> ok
    {
      ok := owners.control.used - owners.control.inputs + bytes <= limits.control;
      if ok {
        StepKeeps(limits, Now(), Step.ShareInputs(bytes));
        owners := owners.(control := Spend(Refund(owners.control, owners.control.inputs), bytes).(inputs := bytes));
      }
    }

    method BecomeVisible(id: nat)
      requires Valid()
      modifies this
      ensures Valid() && Next(limits, old(Now()), Step.BecomeVisible(id), Now())
    {
      StepKeeps(limits, Now(), Step.BecomeVisible(id));
      owners := owners.(visible := owners.visible + {id});
    }

    // ---------- Pins ----------

    /** A Run being replaced or removed is refused, an unknown one is none. */
    method Pin(id: nat) returns (r: Result<bool, Error>)
      requires Valid()
      modifies this
      ensures Valid()
      ensures r == Success(false) <==> id !in old(state).runs
      ensures r == Success(true) <==> CanRetain(old(Now()), id)
      ensures if r == Success(true) then Next(limits, old(Now()), Step.Pin(id), Now()) else Now() == old(Now())
    {
      if id !in state.runs { return Success(false); }
      if state.runs[id].residency != Retained { return Failure(BackendUnavailable); }
      StepKeeps(limits, Now(), Step.Pin(id));
      owners := owners.(pins := owners.pins + multiset{id});
      r := Success(true);
    }

    method SnapshotPin(id: nat)
      requires Valid() && id in state.runs
      modifies this
      ensures Valid() && Next(limits, old(Now()), Step.SnapshotPin(id), Now())
    {
      StepKeeps(limits, Now(), Step.SnapshotPin(id));
      owners := owners.(pins := owners.pins + multiset{id});
    }

    method Unpin(id: nat)
      requires Valid() && owners.pins[id] > if id in owners.settlements then 1 else 0
      modifies this
      ensures Valid() && Next(limits, old(Now()), Step.Unpin(id), Now())
    {
      StepKeeps(limits, Now(), Step.Unpin(id));
      owners := owners.(pins := owners.pins - multiset{id});
    }
  }
}
