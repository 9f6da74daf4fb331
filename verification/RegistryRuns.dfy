/** Whole runs of the Run Registry (crates/ctxmux-daemon/src/creation.rs:1355-1415,
  1771-1830, 2121-2345, 2355-2553, 2569-2593, 2629-2655, 2853-2875). */
module RegistryRuns {
  import opened Wrappers
  import opened MapSums
  import opened RegistryModel
  import opened RegistryBudgets
  import opened CandidateSelections
  import opened ControlBudgets
  import Runs

  // Any interleaving of reservations, publications, drops, unresolved losses,
  // removals, Stops and pins.  A recoverable Stop binds a key to a Run, is settled
  // by one owner, and every retry of the key shares its result cell.

  /** A result cell; settling it is final. */
  datatype Cell = Cell(key: nat, result: Option<StopResult>)

  /** The owners outside the Registry lock. */
  datatype Owners = Owners(
    active: set<nat>,              // tickets whose reservation owner is alive
    removals: set<nat>,            // outstanding removal fences
    pins: multiset<nat>,           // Arc clones of Runs, one per holder
    settlements: map<nat, nat>,    // Run -> cell of its Stop in flight
    cells: map<nat, Cell>,
    permits: set<nat>,             // outstanding live permits, by ticket
    control: Control,              // the control byte budget
    visible: set<nat>)             // Runs whose terminal state has been published and
                                   // whose native entry is retired, for good

  datatype Registry = Registry(s: State, o: Owners)

  /** A Registry just built by its constructor. */
  predicate Initial(g: Registry) {
    && g.s.runs == map[] && g.s.creation == map[] && g.s.stops == map[] && g.s.reservations == map[]
    && g.s.nextTicket == 0 && g.s.live == 0 && g.s.retained == 0
    && g.o.active == {} && g.o.removals == {} && g.o.settlements == map[] && g.o.permits == {}
    && g.o.control == Control(0, 0, 0)
  }

  datatype Step =
    | Reserve(r: Reservation, ordinals: map<nat, nat>)
    | ReserveAborted(r: Reservation, ordinals: map<nat, nat>)
    | Publish(ticket: nat, charge: nat)
    | DropReservation(ticket: nat)
    | LoseReservation(ticket: nat)
    | ReleasePermit(ticket: nat)
    | Remove(id: nat, ordinals: map<nat, nat>)
    | BeginRemoval(id: nat, ordinals: map<nat, nat>)
    | CommitRemoval(id: nat)
    | CancelRemoval(id: nat)
    | DropRemoved(bytes: nat)
    | BeginStop(id: nat, key: nat, cell: nat)
    | RetryStop(id: nat, key: nat)
    | SettleStop(id: nat, result: StopResult)
    | Pin(id: nat)
    | SnapshotPin(id: nat)
    | Unpin(id: nat)
    | ShareInputs(bytes: nat)
    | BecomeVisible(id: nat)

  function PinnedIds(g: Registry): set<nat> { set id | id in g.s.runs && g.o.pins[id] > 0 }

  function FactsOf(g: Registry, ordinals: map<nat, nat>): Facts { Facts(PinnedIds(g), ordinals) }

  predicate CanRetain(g: Registry, id: nat) { id in g.s.runs && g.s.runs[id].residency == Retained }

  ghost predicate Enabled(limits: Limits, g: Registry, step: Step) {
    match step
    case Reserve(r, ordinals) =>
      && g.s.live < limits.live && FreshFor(g.s, r)
      && SelectedFrom(g.s, limits, FactsOf(g, ordinals), r.newBytes, Chosen(r.candidates))
    case ReserveAborted(r, ordinals) =>
      && g.s.live < limits.live && FreshFor(g.s, r)
      && SelectedFrom(g.s, limits, FactsOf(g, ordinals), r.newBytes, Chosen(r.candidates))
    case Publish(ticket, charge) =>
      ticket in g.o.active && ticket in g.s.reservations && charge <= g.s.reservations[ticket].newBytes
    case DropReservation(ticket) => ticket in g.o.active && ticket in g.s.reservations
    case LoseReservation(ticket) => ticket in g.o.active
    case ReleasePermit(ticket) => ticket in g.o.permits && ticket !in g.o.active
    case Remove(id, ordinals) => Eligible(g.s, FactsOf(g, ordinals), id)
    case BeginRemoval(id, ordinals) => Eligible(g.s, FactsOf(g, ordinals), id)
    case CommitRemoval(id) => id in g.o.removals
    case CancelRemoval(id) => id in g.o.removals
    case DropRemoved(bytes) => bytes <= g.o.control.leaving
    case BeginStop(id, key, cell) =>
      && KeyOk(key) && key !in g.s.stops && CanRetain(g, id) && g.s.runs[id].stop.None? && cell !in g.o.cells
      && g.o.control.used + StopCharge(limits, key) <= limits.control
    case RetryStop(id, key) => key in g.s.stops && g.s.stops[key] == id && CanRetain(g, id)
    case SettleStop(id, _) => id in g.o.settlements
    case Pin(id) => CanRetain(g, id)
    case SnapshotPin(id) => id in g.s.runs
    case Unpin(id) => g.o.pins[id] > if id in g.o.settlements then 1 else 0
    case ShareInputs(bytes) => g.o.control.used - g.o.control.inputs + bytes <= limits.control
    case BecomeVisible(_) => true
  }

  function WithStop(runs: map<nat, Entry>, id: nat, stop: Option<StopRecord>): map<nat, Entry>
    requires id in runs
  {
    runs[id := runs[id].(stop := stop)]
  }

  function BeginStopOn(s: State, id: nat, record: StopRecord): State
    requires id in s.runs
  {
    s.(runs := WithStop(s.runs, id, Some(record)), stops := s.stops[record.key := id])
  }

  function ForgetStopOn(s: State, id: nat): State
    requires id in s.runs && s.runs[id].stop.Some?
  {
    s.(runs := WithStop(s.runs, id, None), stops := s.stops - {s.runs[id].stop.value.key})
  }

  function TakenOut(g: Registry, ids: seq<nat>): Owners { g.o.(control := Leave(g.s.runs, ids, g.o.control)) }

  function SettleOn(g: Registry, id: nat, result: StopResult): Registry
    requires id in g.o.settlements
  {
    var cell := g.o.settlements[id];
    var o := g.o.(settlements := g.o.settlements - {id}, pins := g.o.pins - multiset{id},
                  cells := if cell in g.o.cells then g.o.cells[cell := g.o.cells[cell].(result := Some(result))] else g.o.cells);
    if result.NotApplied? && id in g.s.runs && g.s.runs[id].stop.Some? then
      Registry(ForgetStopOn(g.s, id), o.(control := Refund(o.control, StopBytes(g.s.runs[id]))))
    else Registry(g.s, o)
  }

  function Reserved(g: Registry, r: Reservation): Registry {
    var ticket := g.s.nextTicket + 1;
    Registry(ReserveOn(g.s, r), g.o.(active := g.o.active + {ticket}, permits := g.o.permits + {ticket}))
  }

  /** The candidates' descriptors could not be detached: the fence is undone at once. */
  function Aborted(g: Registry, r: Reservation): Registry {
    g.(s := RestoreOn(ReserveOn(g.s, r), g.s.nextTicket + 1).(live := g.s.live))
  }

  function Published(g: Registry, ticket: nat, charge: nat): Registry
    requires ticket in g.s.reservations
  {
    Registry(PublishOn(g.s, ticket, charge), TakenOut(g, g.s.reservations[ticket].candidates).(active := g.o.active - {ticket}))
  }

  ghost function Apply(limits: Limits, g: Registry, step: Step): Registry
    requires Enabled(limits, g, step)
  {
    match step
    case Reserve(r, _) => Reserved(g, r)
    case ReserveAborted(r, _) => Aborted(g, r)
    case Publish(ticket, charge) => Published(g, ticket, charge)
    case DropReservation(ticket) => Registry(RestoreOn(g.s, ticket), g.o.(active := g.o.active - {ticket}))
    case LoseReservation(ticket) => g.(o := g.o.(active := g.o.active - {ticket}))
    case ReleasePermit(ticket) => Registry(g.s.(live := Less(g.s.live, 1)), g.o.(permits := g.o.permits - {ticket}))
    case Remove(id, _) => Registry(RemoveOn(g.s, [id]), TakenOut(g, [id]))
    case BeginRemoval(id, _) => Registry(FenceRemovalOn(g.s, id), g.o.(removals := g.o.removals + {id}))
    case CommitRemoval(id) => Registry(RemoveOn(g.s, [id]), TakenOut(g, [id]).(removals := g.o.removals - {id}))
    case CancelRemoval(id) => Registry(CancelRemovalOn(g.s, id), g.o.(removals := g.o.removals - {id}))
    case DropRemoved(bytes) =>
      g.(o := g.o.(control := Refund(g.o.control, bytes).(leaving := g.o.control.leaving - bytes)))
    case BeginStop(id, key, cell) =>
      Registry(BeginStopOn(g.s, id, StopRecord(key, cell, StopCharge(limits, key))),
               g.o.(settlements := g.o.settlements[id := cell], cells := g.o.cells[cell := Cell(key, None)],
                    pins := g.o.pins + multiset{id, id}, control := Spend(g.o.control, StopCharge(limits, key))))
    case RetryStop(id, _) => g.(o := g.o.(pins := g.o.pins + multiset{id}))
    case SettleStop(id, result) => SettleOn(g, id, result)
    case Pin(id) => g.(o := g.o.(pins := g.o.pins + multiset{id}))
    case SnapshotPin(id) => g.(o := g.o.(pins := g.o.pins + multiset{id}))
    case Unpin(id) => g.(o := g.o.(pins := g.o.pins - multiset{id}))
    case ShareInputs(bytes) =>
      g.(o := g.o.(control := Spend(Refund(g.o.control, g.o.control.inputs), bytes).(inputs := bytes)))
    case BecomeVisible(id) => g.(o := g.o.(visible := g.o.visible + {id}))
  }

  // ---------- Invariants ----------

  ghost predicate LiveOk(limits: Limits, g: Registry) {
    && g.s.live == |g.o.permits| <= limits.live
    && (forall t :: t in g.o.permits ==> t <= g.s.nextTicket)
    && g.o.active <= g.s.reservations.Keys
  }

  /** A Stop in flight has its one record, unsettled, on a pinned retained Run. */
  ghost predicate InFlight(g: Registry, id: nat) {
    && CanRetain(g, id) && g.o.pins[id] >= 1 && id in g.o.settlements
    && g.s.runs[id].stop.Some?
    && g.s.runs[id].stop.value.cell == g.o.settlements[id]
  }

  /** Every record's cell is its own, and is unsettled exactly while its owner is out. */
  ghost predicate StopsOwned(g: Registry) {
    && (forall id :: id in g.o.settlements ==> InFlight(g, id))
    && (forall id {:trigger g.s.runs[id].stop} :: id in g.s.runs && g.s.runs[id].stop.Some? ==>
          var record := g.s.runs[id].stop.value;
          && record.cell in g.o.cells && g.o.cells[record.cell].key == record.key
          && (g.o.cells[record.cell].result.None? <==> id in g.o.settlements))
  }

  /** A receipt holds its charge: the ordinary one, or after a handoff the one for its
      whole diagnostic. */
  predicate ReceiptOk(limits: Limits, cells: map<nat, Cell>, record: StopRecord) {
    && KeyOk(record.key)
    && (|| record.memory == StopCharge(limits, record.key)
        || (record.cell in cells && cells[record.cell].result.Some?
            && record.memory == RestoredCharge(limits, record.key, cells[record.cell].result.value)))
  }

  ghost predicate ReceiptsOk(limits: Limits, g: Registry) {
    forall id {:trigger g.s.runs[id].stop} :: id in g.s.runs && g.s.runs[id].stop.Some? ==> ReceiptOk(limits, g.o.cells, g.s.runs[id].stop.value)
  }

  ghost predicate Funded(limits: Limits, g: Registry) { FundsOk(g.s.runs, g.o.control, limits) }

  ghost predicate CoreInv(limits: Limits, g: Registry) {
    && IndexesOk(g.s, g.o.removals) && FreshOk(g.s) && BudgetsOk(g.s, limits)
    && LiveOk(limits, g) && StopsOwned(g)
  }

  ghost predicate Inv(limits: Limits, g: Registry) {
    CoreInv(limits, g) && Funded(limits, g) && ReceiptsOk(limits, g)
  }

  // ---------- The indexes ----------

  lemma StopIndexes(runs: map<nat, Entry>, creation: map<nat, nat>, stops: map<nat, nat>, reservations: map<nat, Reservation>, removals: set<nat>,
                    id: nat, record: StopRecord)
    requires KeysOk(runs, creation) && StopsOk(runs, stops) && ResidencyOk(runs, reservations, removals)
    requires id in runs && runs[id].stop.None? && record.key !in stops
    ensures KeysOk(WithStop(runs, id, Some(record)), creation) && StopsOk(WithStop(runs, id, Some(record)), stops[record.key := id])
    ensures ResidencyOk(WithStop(runs, id, Some(record)), reservations, removals)
  {
  }

  lemma ForgetIndexes(runs: map<nat, Entry>, creation: map<nat, nat>, stops: map<nat, nat>, reservations: map<nat, Reservation>, removals: set<nat>, id: nat)
    requires KeysOk(runs, creation) && StopsOk(runs, stops) && ResidencyOk(runs, reservations, removals)
    requires id in runs && runs[id].stop.Some?
    ensures KeysOk(WithStop(runs, id, None), creation) && StopsOk(WithStop(runs, id, None), stops - {runs[id].stop.value.key})
    ensures ResidencyOk(WithStop(runs, id, None), reservations, removals)
  {
  }

  lemma RetainedIsNoCandidate(g: Registry, id: nat)
    requires IndexesOk(g.s, g.o.removals) && CanRetain(g, id)
    ensures forall t :: t in g.s.reservations ==> id !in g.s.reservations[t].candidates
    ensures id !in g.o.removals
  {
  }

  lemma RemovingIsNoCandidate(g: Registry, id: nat)
    requires IndexesOk(g.s, g.o.removals) && id in g.o.removals
    ensures id in g.s.runs && forall t :: t in g.s.reservations ==> id !in g.s.reservations[t].candidates
  {
  }

  lemma TakeOut(g: Registry, id: nat)
    requires IndexesOk(g.s, g.o.removals)
    requires forall t :: t in g.s.reservations ==> id !in g.s.reservations[t].candidates
    ensures IndexesOk(RemoveOn(g.s, [id]), g.o.removals - {id})
  {
    RemoveIndexes(g.s, [id], g.o.removals);
    assert (set x | x in g.o.removals && x !in [id]) == g.o.removals - {id};
  }

  /** A selection that may be used: retained candidates, enough of them. */
  ghost predicate Sound(limits: Limits, g: Registry, r: Reservation) {
    && FreshFor(g.s, r) && AllRetained(g.s, r.candidates) && Affordable(g.s, r, limits)
    && g.s.nextTicket + 1 !in g.s.reservations
    && forall id :: id in r.candidates ==> id !in PinnedIds(g)
  }

  lemma ReservingIsSound(limits: Limits, g: Registry, r: Reservation, ordinals: map<nat, nat>)
    requires BudgetsOk(g.s, limits) && FreshOk(g.s) && FreshFor(g.s, r)
    requires SelectedFrom(g.s, limits, FactsOf(g, ordinals), r.newBytes, Chosen(r.candidates))
    ensures Sound(limits, g, r)
  {
    ChoiceAffords(g.s, limits, FactsOf(g, ordinals), r);
  }

  predicate Reserving(step: Step) { step.Reserve? || step.ReserveAborted? }

  ghost predicate Moving(limits: Limits, g: Registry, step: Step) {
    Enabled(limits, g, step) && !Reserving(step)
  }

  lemma BeginStopIndexes(s: State, id: nat, record: StopRecord, removals: set<nat>)
    requires IndexesOk(s, removals) && id in s.runs && s.runs[id].stop.None? && record.key !in s.stops
    ensures IndexesOk(BeginStopOn(s, id, record), removals)
  {
    StopIndexes(s.runs, s.creation, s.stops, s.reservations, removals, id, record);
  }

  lemma SettleIndexes(g: Registry, id: nat, result: StopResult)
    requires IndexesOk(g.s, g.o.removals) && id in g.o.settlements && InFlight(g, id)
    ensures IndexesOk(SettleOn(g, id, result).s, g.o.removals)
  {
    ForgetIndexes(g.s.runs, g.s.creation, g.s.stops, g.s.reservations, g.o.removals, id);
  }

  /** Steps of publications and their owners. */
  predicate Publishing(step: Step) {
    step.Publish? || step.DropReservation? || step.LoseReservation? || step.ReleasePermit?
  }

  lemma PublishingIndexes(limits: Limits, g: Registry, step: Step)
    requires IndexesOk(g.s, g.o.removals) && FreshOk(g.s) && Moving(limits, g, step) && Publishing(step)
    ensures IndexesOk(Apply(limits, g, step).s, Apply(limits, g, step).o.removals)
  {
    match step
    case Publish(ticket, charge) => PublishIndexes(g.s, ticket, charge, g.o.removals);
    case DropReservation(ticket) => RestoreIndexes(g.s, ticket, g.o.removals);
    case _ =>
  }

  lemma OtherIndexes(limits: Limits, g: Registry, step: Step)
    requires IndexesOk(g.s, g.o.removals) && Moving(limits, g, step) && !Publishing(step)
    requires step.SettleStop? ==> InFlight(g, step.id)
    ensures IndexesOk(Apply(limits, g, step).s, Apply(limits, g, step).o.removals)
  {
    match step
    case Remove(id, _) => RetainedIsNoCandidate(g, id); TakeOut(g, id); assert g.o.removals - {id} == g.o.removals;
    case BeginRemoval(id, _) => FenceIndexes(g.s, id, g.o.removals);
    case CommitRemoval(id) => RemovingIsNoCandidate(g, id); TakeOut(g, id);
    case CancelRemoval(id) => CancelIndexes(g.s, id, g.o.removals);
    case BeginStop(id, key, cell) => BeginStopIndexes(g.s, id, StopRecord(key, cell, StopCharge(limits, key)), g.o.removals);
    case SettleStop(id, result) => SettleIndexes(g, id, result);
    case _ =>
  }

  lemma FreshStep(limits: Limits, g: Registry, step: Step)
    requires FreshOk(g.s) && Moving(limits, g, step)
    ensures FreshOk(Apply(limits, g, step).s)
  {
    var t := Apply(limits, g, step).s;
    match step
    case Publish(ticket, charge) => PublishFresh(g.s, ticket, charge);
    case _ => ShrinkFresh(g.s, t);
  }

  // ---------- The budgets ----------

  lemma StopBudgets(s: State, id: nat, stop: Option<StopRecord>, stops: map<nat, nat>, limits: Limits)
    requires BudgetsOk(s, limits) && id in s.runs
    ensures BudgetsOk(s.(runs := WithStop(s.runs, id, stop), stops := stops), limits)
  {
    var runs := WithStop(s.runs, id, stop);
    TotalAgree(runs, Charge, s.runs, Charge);
    assert runs.Keys == s.runs.Keys && |runs.Keys| == |runs| && |s.runs.Keys| == |s.runs|;
    ExcessAgree(s.runs, runs, s.reservations);
  }

  lemma LiveIsNoBudget(s: State, live: nat, ticket: nat, limits: Limits)
    requires BudgetsOk(s, limits)
    ensures BudgetsOk(s.(live := live, nextTicket := ticket), limits)
  {
  }

  lemma BudgetsStep(limits: Limits, g: Registry, step: Step)
    requires BudgetsOk(g.s, limits) && IndexesOk(g.s, g.o.removals) && FreshOk(g.s) && Moving(limits, g, step)
    ensures BudgetsOk(Apply(limits, g, step).s, limits)
  {
    match step
    case Publish(ticket, charge) => PublishBudgets(g.s, ticket, charge, limits, g.o.removals);
    case DropReservation(ticket) => RestoreBudgets(g.s, ticket, limits);
    case ReleasePermit(_) => LiveIsNoBudget(g.s, Less(g.s.live, 1), g.s.nextTicket, limits);
    case Remove(id, _) => RetainedIsNoCandidate(g, id); RemoveBudgets(g.s, id, limits);
    case BeginRemoval(id, _) => FenceBudgets(g.s, id, Removing, limits);
    case CommitRemoval(id) => RemovingIsNoCandidate(g, id); RemoveBudgets(g.s, id, limits);
    case CancelRemoval(id) => FenceBudgets(g.s, id, Retained, limits);
    case BeginStop(id, key, cell) =>
      StopBudgets(g.s, id, Some(StopRecord(key, cell, StopCharge(limits, key))), g.s.stops[key := id], limits);
    case SettleStop(id, result) =>
      if result.NotApplied? && id in g.s.runs && g.s.runs[id].stop.Some? {
        StopBudgets(g.s, id, None, g.s.stops - {g.s.runs[id].stop.value.key}, limits);
      }
    case _ =>
  }

  // ---------- Live permits ----------

  lemma ReserveLive(limits: Limits, g: Registry, r: Reservation)
    requires LiveOk(limits, g) && g.s.live < limits.live
    ensures LiveOk(limits, Reserved(g, r))
  {
    assert g.s.nextTicket + 1 !in g.o.permits;
  }

  lemma PublishingLive(limits: Limits, g: Registry, step: Step)
    requires LiveOk(limits, g) && Moving(limits, g, step) && Publishing(step)
    ensures LiveOk(limits, Apply(limits, g, step))
  {
  }

  /** Other steps change neither permits nor reservations. */
  lemma OtherLive(limits: Limits, g: Registry, step: Step)
    requires Moving(limits, g, step) && !Publishing(step)
    ensures var h := Apply(limits, g, step);
            && h.s.live == g.s.live && h.o.permits == g.o.permits && h.s.nextTicket == g.s.nextTicket
            && h.o.active == g.o.active && h.s.reservations == g.s.reservations
  {
  }

  // ---------- Stops ----------

  /** Nothing about Stops changes, and every Run with a Stop in flight stays retained. */
  predicate StopsUntouched(g: Registry, h: Registry) {
    && h.o.settlements == g.o.settlements && h.o.cells == g.o.cells
    && (forall id :: id in g.o.settlements ==> h.o.pins[id] >= 1)
    && (forall id {:trigger h.s.runs[id].stop} :: id in h.s.runs && h.s.runs[id].stop.Some? ==> id in g.s.runs && g.s.runs[id].stop == h.s.runs[id].stop)
    && (forall id :: id in g.o.settlements ==> CanRetain(h, id) && id in g.s.runs && h.s.runs[id].stop == g.s.runs[id].stop)
  }

  lemma UntouchedStops(g: Registry, h: Registry)
    requires StopsOwned(g) && StopsUntouched(g, h)
    ensures StopsOwned(h)
  {
    forall id | id in h.o.settlements ensures InFlight(h, id) { assert InFlight(g, id); }
  }

  /** A selection never takes a Run with a Stop in flight: its settlement pins it. */
  lemma FencingSparesStops(g: Registry, h: Registry, ids: seq<nat>, residency: Residency)
    requires StopsOwned(g) && h.o.settlements == g.o.settlements && h.o.cells == g.o.cells && h.o.pins == g.o.pins
    requires h.s.runs == WithResidency(g.s.runs, ids, residency)
    requires residency == Retained || forall id :: id in ids ==> id !in PinnedIds(g)
    ensures StopsOwned(h)
  {
    forall id | id in g.o.settlements
      ensures CanRetain(h, id) && id in g.s.runs && h.s.runs[id].stop == g.s.runs[id].stop && h.o.pins[id] >= 1
    {
      assert InFlight(g, id);
    }
    UntouchedStops(g, h);
  }

  lemma RemovalSparesStops(g: Registry, h: Registry, ids: seq<nat>)
    requires StopsOwned(g) && h.o.settlements == g.o.settlements && h.o.cells == g.o.cells && h.o.pins == g.o.pins
    requires forall id :: id in h.s.runs && h.s.runs[id].stop.Some? ==> id in g.s.runs && h.s.runs[id] == g.s.runs[id]
    requires forall id :: id in g.s.runs && id !in ids ==> id in h.s.runs && h.s.runs[id] == g.s.runs[id]
    requires forall id :: id in ids ==> !InFlight(g, id)
    ensures StopsOwned(h)
  {
    forall id | id in g.o.settlements
      ensures CanRetain(h, id) && id in g.s.runs && h.s.runs[id].stop == g.s.runs[id].stop && h.o.pins[id] >= 1
    {
      assert InFlight(g, id);
    }
    UntouchedStops(g, h);
  }

  lemma BeginOwns(g: Registry, id: nat, key: nat, cell: nat, limits: Limits)
    requires StopsOwned(g) && Enabled(limits, g, BeginStop(id, key, cell))
    ensures StopsOwned(Apply(limits, g, BeginStop(id, key, cell)))
  {
    var h := Apply(limits, g, BeginStop(id, key, cell));
    assert id in g.o.settlements ==> InFlight(g, id);
    forall i | i in h.o.settlements ensures InFlight(h, i) {
      if i != id { assert InFlight(g, i); }
    }
  }

  lemma SettleOwns(g: Registry, id: nat, result: StopResult)
    requires StopsOwned(g) && StopsOk(g.s.runs, g.s.stops) && id in g.o.settlements
    ensures StopsOwned(SettleOn(g, id, result))
  {
    assert InFlight(g, id);
    var h := SettleOn(g, id, result);
    var cell := g.o.settlements[id];
    forall i | i in h.o.settlements ensures InFlight(h, i) {
      assert InFlight(g, i);
    }
    forall i | i in g.s.runs && g.s.runs[i].stop.Some? && g.s.runs[i].stop.value.cell == cell ensures i == id {
      assert g.o.cells[cell].key == g.s.runs[i].stop.value.key == g.s.runs[id].stop.value.key;
    }
  }

  lemma PinningOwns(g: Registry, pins: multiset<nat>)
    requires StopsOwned(g) && forall id :: id in g.o.settlements ==> pins[id] >= 1
    ensures StopsOwned(g.(o := g.o.(pins := pins)))
  {
    UntouchedStops(g, g.(o := g.o.(pins := pins))) by {
      forall id | id in g.o.settlements ensures CanRetain(g, id) { assert InFlight(g, id); }
    }
  }

  lemma PublishOwns(g: Registry, ticket: nat, charge: nat)
    requires StopsOwned(g) && ResidencyOk(g.s.runs, g.s.reservations, g.o.removals) && FreshOk(g.s) && ticket in g.s.reservations
    ensures StopsOwned(Published(g, ticket, charge))
  {
    var h := Published(g, ticket, charge);
    var ids := g.s.reservations[ticket].candidates;
    assert forall id :: id in ids ==> g.s.runs[id].residency == Collecting(ticket);
    RemovalSparesStops(g, h, ids);
  }

  lemma RemoveOwns(g: Registry, id: nat, removals: set<nat>)
    requires StopsOwned(g) && !InFlight(g, id)
    ensures StopsOwned(Registry(RemoveOn(g.s, [id]), TakenOut(g, [id]).(removals := removals)))
  {
    RemovalSparesStops(g, Registry(RemoveOn(g.s, [id]), TakenOut(g, [id]).(removals := removals)), [id]);
  }

  lemma PublishingOwns(limits: Limits, g: Registry, step: Step)
    requires StopsOwned(g) && IndexesOk(g.s, g.o.removals) && FreshOk(g.s) && Moving(limits, g, step) && Publishing(step)
    ensures StopsOwned(Apply(limits, g, step))
  {
    var h := Apply(limits, g, step);
    match step
    case Publish(ticket, charge) => PublishOwns(g, ticket, charge);
    case DropReservation(ticket) => FencingSparesStops(g, h, g.s.reservations[ticket].candidates, Retained);
    case _ =>
  }

  lemma OtherOwns(limits: Limits, g: Registry, step: Step)
    requires StopsOwned(g) && IndexesOk(g.s, g.o.removals) && Moving(limits, g, step) && !Publishing(step)
    ensures StopsOwned(Apply(limits, g, step))
  {
    var h := Apply(limits, g, step);
    match step
    case Remove(id, _) => RemoveOwns(g, id, g.o.removals);
    case BeginRemoval(id, _) => FencingSparesStops(g, h, [id], Removing);
    case CommitRemoval(id) => RemovingIsNoCandidate(g, id); RemoveOwns(g, id, g.o.removals - {id});
    case CancelRemoval(id) => FencingSparesStops(g, h, [id], Retained);
    case BeginStop(id, key, cell) => BeginOwns(g, id, key, cell, limits);
    case SettleStop(id, result) => SettleOwns(g, id, result);
    case RetryStop(id, _) => PinningOwns(g, h.o.pins);
    case Pin(_) => PinningOwns(g, h.o.pins);
    case SnapshotPin(_) => PinningOwns(g, h.o.pins);
    case Unpin(_) => PinningOwns(g, h.o.pins);
    case _ => PinningOwns(h, h.o.pins);
  }

  // ---------- Each step keeps the core ----------

  lemma ReserveKeeps(limits: Limits, g: Registry, r: Reservation)
    requires CoreInv(limits, g) && Sound(limits, g, r) && g.s.live < limits.live
    ensures CoreInv(limits, Reserved(g, r))
  {
    ReserveIndexes(g.s, r, g.o.removals);
    ReserveFresh(g.s, r);
    ReserveBudgets(g.s, r, limits);
    ReserveLive(limits, g, r);
    FencingSparesStops(g, Reserved(g, r), r.candidates, Collecting(g.s.nextTicket + 1));
  }

  /** An aborted reservation leaves everything but the ticket number as it was. */
  lemma AbortUndoes(g: Registry, r: Reservation)
    requires g.s.nextTicket + 1 !in g.s.reservations && AllRetained(g.s, r.candidates)
    ensures Aborted(g, r) == g.(s := g.s.(nextTicket := g.s.nextTicket + 1))
  {
    RestoreUndoesReserve(g.s, r);
  }

  lemma TicketKeeps(limits: Limits, g: Registry)
    requires CoreInv(limits, g)
    ensures CoreInv(limits, g.(s := g.s.(nextTicket := g.s.nextTicket + 1)))
  {
    LiveIsNoBudget(g.s, g.s.live, g.s.nextTicket + 1, limits);
    UntouchedTicket(g, limits);
  }

  lemma UntouchedTicket(g: Registry, limits: Limits)
    requires IndexesOk(g.s, g.o.removals) && FreshOk(g.s) && LiveOk(limits, g) && StopsOwned(g)
    ensures var h := g.(s := g.s.(nextTicket := g.s.nextTicket + 1));
            IndexesOk(h.s, h.o.removals) && FreshOk(h.s) && LiveOk(limits, h) && StopsOwned(h)
  {
    var h := g.(s := g.s.(nextTicket := g.s.nextTicket + 1));
    forall id | id in h.o.settlements ensures InFlight(h, id) { assert InFlight(g, id); }
  }

  lemma MovingKeeps(limits: Limits, g: Registry, step: Step)
    requires CoreInv(limits, g) && Moving(limits, g, step)
    ensures CoreInv(limits, Apply(limits, g, step))
  {
    BudgetsStep(limits, g, step);
    FreshStep(limits, g, step);
    if Publishing(step) {
      PublishingLive(limits, g, step);
      PublishingIndexes(limits, g, step);
      PublishingOwns(limits, g, step);
    } else {
      OtherLive(limits, g, step);
      OtherIndexes(limits, g, step);
      OtherOwns(limits, g, step);
    }
  }

  lemma CoreStep(limits: Limits, g: Registry, step: Step)
    requires CoreInv(limits, g) && Enabled(limits, g, step)
    ensures CoreInv(limits, Apply(limits, g, step))
  {
    if Reserving(step) {
      ReservingIsSound(limits, g, step.r, step.ordinals);
      if step.Reserve? { ReserveKeeps(limits, g, step.r); } else { AbortUndoes(g, step.r); TicketKeeps(limits, g); }
    } else {
      MovingKeeps(limits, g, step);
    }
  }

  // ---------- The control budget ----------

  lemma PublishFunds(limits: Limits, g: Registry, ticket: nat, charge: nat)
    requires Funded(limits, g) && ResidencyOk(g.s.runs, g.s.reservations, g.o.removals) && FreshOk(g.s)
    requires ticket in g.s.reservations
    ensures Funded(limits, Published(g, ticket, charge))
  {
    var r := g.s.reservations[ticket];
    LeavingKeepsFunds(g.s.runs, r.candidates, g.o.control, limits);
    InsertKeepsFunds(Without(g.s.runs, r.candidates), r.newId, Entry(r.key, None, charge, Retained), Leave(g.s.runs, r.candidates, g.o.control), limits);
  }

  lemma SettleFunds(limits: Limits, g: Registry, id: nat, result: StopResult)
    requires Funded(limits, g) && id in g.o.settlements && InFlight(g, id)
    ensures Funded(limits, SettleOn(g, id, result))
  {
    if result.NotApplied? { SwapMovesFunds(g.s.runs, id, g.s.runs[id].(stop := None)); }
  }

  lemma BeginFunds(limits: Limits, g: Registry, id: nat, key: nat, cell: nat)
    requires Funded(limits, g) && Enabled(limits, g, BeginStop(id, key, cell))
    ensures Funded(limits, Apply(limits, g, BeginStop(id, key, cell)))
  {
    SwapMovesFunds(g.s.runs, id, g.s.runs[id].(stop := Some(StopRecord(key, cell, StopCharge(limits, key)))));
  }

  lemma ReservingFunds(limits: Limits, g: Registry, r: Reservation)
    requires Funded(limits, g)
    ensures Funded(limits, Reserved(g, r)) && Funded(limits, Aborted(g, r))
  {
    FencingKeepsFunds(g.s.runs, r.candidates, Collecting(g.s.nextTicket + 1), g.o.control, limits);
    FencingKeepsFunds(ReserveOn(g.s, r).runs, r.candidates, Retained, g.o.control, limits);
  }

  lemma PublishingFunds(limits: Limits, g: Registry, step: Step)
    requires Funded(limits, g) && IndexesOk(g.s, g.o.removals) && FreshOk(g.s) && Moving(limits, g, step) && Publishing(step)
    ensures Funded(limits, Apply(limits, g, step))
  {
    match step
    case Publish(ticket, charge) => PublishFunds(limits, g, ticket, charge);
    case DropReservation(ticket) => FencingKeepsFunds(g.s.runs, g.s.reservations[ticket].candidates, Retained, g.o.control, limits);
    case _ =>
  }

  lemma OtherFunds(limits: Limits, g: Registry, step: Step)
    requires Funded(limits, g) && IndexesOk(g.s, g.o.removals) && Moving(limits, g, step) && !Publishing(step)
    requires step.SettleStop? ==> InFlight(g, step.id)
    ensures Funded(limits, Apply(limits, g, step))
  {
    match step
    case Remove(id, _) => LeavingKeepsFunds(g.s.runs, [id], g.o.control, limits);
    case BeginRemoval(id, _) => FencingKeepsFunds(g.s.runs, [id], Removing, g.o.control, limits);
    case CommitRemoval(id) => LeavingKeepsFunds(g.s.runs, [id], g.o.control, limits);
    case CancelRemoval(id) => FencingKeepsFunds(g.s.runs, [id], Retained, g.o.control, limits);
    case BeginStop(id, key, cell) => BeginFunds(limits, g, id, key, cell);
    case SettleStop(id, result) => SettleFunds(limits, g, id, result);
    case _ =>
  }

  lemma FundsStep(limits: Limits, g: Registry, step: Step)
    requires CoreInv(limits, g) && Funded(limits, g) && Enabled(limits, g, step)
    ensures Funded(limits, Apply(limits, g, step))
  {
    if Reserving(step) {
      ReservingFunds(limits, g, step.r);
    } else if Publishing(step) {
      PublishingFunds(limits, g, step);
    } else {
      assert step.SettleStop? ==> InFlight(g, step.id);
      OtherFunds(limits, g, step);
    }
  }

  /** No step changes a receipt that stays, nor a result that is settled. */
  lemma ReceiptsStep(limits: Limits, g: Registry, step: Step)
    requires ReceiptsOk(limits, g) && StopsOwned(g) && Enabled(limits, g, step)
    ensures ReceiptsOk(limits, Apply(limits, g, step))
  {
    if step.SettleStop? { assert InFlight(g, step.id); }
  }

  // ---------- Whole runs ----------

  lemma StepKeeps(limits: Limits, g: Registry, step: Step)
    requires Inv(limits, g) && Enabled(limits, g, step)
    ensures Inv(limits, Apply(limits, g, step))
  {
    CoreStep(limits, g, step);
    FundsStep(limits, g, step);
    ReceiptsStep(limits, g, step);
  }

  ghost predicate Next(limits: Limits, g: Registry, step: Step, h: Registry) {
    Enabled(limits, g, step) && h == Apply(limits, g, step)
  }

  ghost predicate Execution(limits: Limits, steps: seq<Step>, states: seq<Registry>) {
    && |states| == |steps| + 1 && Initial(states[0])
    && forall i {:trigger steps[i]} :: 0 <= i < |steps| ==> Next(limits, states[i], steps[i], states[i + 1])
  }

  lemma EmptyOk(limits: Limits, g: Registry)
    requires Initial(g)
    ensures Inv(limits, g)
  {
  }

  /** Every reachable Registry: exact indexes, both budgets with every outstanding
      promise honoured, live permits within their limit, and owned Stops. */
  lemma RunKeeps(limits: Limits, steps: seq<Step>, states: seq<Registry>, k: nat)
    requires Execution(limits, steps, states) && k < |states|
    ensures Inv(limits, states[k])
  {
    EmptyOk(limits, states[0]);
    forall g, step, h | Inv(limits, g) && Next(limits, g, step, h) ensures Inv(limits, h) {
      StepKeeps(limits, g, step);
    }
    Runs.HoldsThroughout((g: Registry) => Inv(limits, g),
                         (g: Registry, step: Step, h: Registry) => Next(limits, g, step, h), steps, states, k);
  }

  /** Even if every outstanding reservation publishes its full promise and none of the
      possible releases of one ticket is counted for another, both limits hold. */
  lemma PromisesAreCovered(limits: Limits, steps: seq<Step>, states: seq<Registry>, k: nat)
    requires Execution(limits, steps, states) && k < |states|
    ensures var s := states[k].s;
            && |s.runs| + Total(s.reservations, Burden) <= limits.records
            && Total(s.runs, Charge) + Total(s.reservations, ExcessIn(s.runs)) <= limits.metadata
            && |states[k].o.permits| == s.live <= limits.live
  {
    RunKeeps(limits, steps, states, k);
  }

  /** Every byte of the control budget in use belongs to a Stop record, to an entry about
      to be dropped, or to the Input side, and the budget is never exceeded. */
  lemma ControlBytesAreOwned(limits: Limits, steps: seq<Step>, states: seq<Registry>, k: nat)
    requires Execution(limits, steps, states) && k < |states|
    ensures var c := states[k].o.control;
            c.used == Total(states[k].s.runs, StopBytes) + c.leaving + c.inputs <= limits.control
    ensures states[k].o.settlements == map[] || Total(states[k].s.runs, StopBytes) > 0
  {
    RunKeeps(limits, steps, states, k);
    var g := states[k];
    if id :| id in g.o.settlements {
      assert InFlight(g, id);
      TotalWithout(g.s.runs, StopBytes, id);
    }
  }

  lemma DisjointIn(s: State, removals: set<nat>, t: nat, u: nat)
    requires ResidencyOk(s.runs, s.reservations, removals) && t in s.reservations && u in s.reservations
    ensures Distinct(s.reservations[t].candidates)
    ensures t != u ==> forall id :: id in s.reservations[t].candidates ==> id !in s.reservations[u].candidates
  {
    forall id | t != u && id in s.reservations[t].candidates ensures id !in s.reservations[u].candidates {
      assert s.runs[id].residency == Collecting(t);
    }
  }

  /** The candidate sets of two tickets are disjoint and duplicate-free. */
  lemma CandidatesDisjoint(limits: Limits, steps: seq<Step>, states: seq<Registry>, k: nat, t: nat, u: nat)
    requires Execution(limits, steps, states) && k < |states|
    requires t in states[k].s.reservations && u in states[k].s.reservations
    ensures Distinct(states[k].s.reservations[t].candidates)
    ensures t != u ==> forall id :: id in states[k].s.reservations[t].candidates ==> id !in states[k].s.reservations[u].candidates
  {
    RunKeeps(limits, steps, states, k);
    DisjointIn(states[k].s, states[k].o.removals, t, u);
  }
}
