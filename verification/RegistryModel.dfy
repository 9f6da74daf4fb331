/** The Run Registry's state and its lock sections (crates/ctxmux-daemon/src/creation.rs:
  1514-1597, 1637-1760, 2121-2345, 2355-2512, 2556-2655, 2814-2934, 2937-3075).

  Run ids and keys are numbers; `Arc` clones of a Run outside the Registry are its
  pins, and the RAII owners (publication reservations, removal fences, settlements,
  live permits) are tracked beside the state they own.
 */
module RegistryModel {
  import opened Wrappers
  import opened MapSums

  const U64_MAX: nat := 0xFFFF_FFFF_FFFF_FFFF
  const I64_MAX: nat := 0x7FFF_FFFF_FFFF_FFFF

  datatype Residency = Retained | Collecting(ticket: nat) | Removing

  /** One bound native Stop: its key, its result cell, and the control bytes it holds. */
  datatype StopRecord = StopRecord(key: nat, cell: nat, memory: nat)

  datatype Entry = Entry(key: Option<nat>, stop: Option<StopRecord>, charge: nat, residency: Residency)

  datatype Reservation = Reservation(newId: nat, key: Option<nat>, newBytes: nat, candidates: seq<nat>)

  datatype State = State(
    runs: map<nat, Entry>,
    creation: map<nat, nat>,
    stops: map<nat, nat>,
    reservations: map<nat, Reservation>,
    nextTicket: nat,
    live: nat,
    retained: nat)

  /** The quotas the Registry is built with; `stopOwner` is the size of one Stop record
      and its result cell. */
  datatype Quotas = Quotas(records: nat, live: nat, metadata: nat, control: nat, stopOwner: nat)

  /** What the daemon accepts as a policy: byte quotas are positive and fit 63 bits
      (crates/ctxmux-daemon/src/resources.rs:218-245). */
  type Limits = q: Quotas | 1 <= q.metadata <= I64_MAX && 1 <= q.control <= I64_MAX witness Quotas(1, 1, 1, 1, 0)

  function Less(a: nat, b: nat): nat { if b <= a then a - b else 0 }

  function Min(a: nat, b: nat): nat { if a < b then a else b }

  // ---------- Sums ----------

  function Charge(entry: Entry): nat { entry.charge }

  function ChargeAt(runs: map<nat, Entry>, id: nat): nat { if id in runs then runs[id].charge else 0 }

  /** The candidates' charges together. */
  function Charges(runs: map<nat, Entry>, ids: seq<nat>): nat { Weigh(runs, Charge, ids) }

  /** What a reservation will add to the metadata total at most. */
  function Excess(runs: map<nat, Entry>, r: Reservation): nat { Less(r.newBytes, Charges(runs, r.candidates)) }

  function ExcessIn(runs: map<nat, Entry>): Reservation -> nat { r => Excess(runs, r) }

  /** A reservation without candidate will add a record. */
  function Burden(r: Reservation): nat { if r.candidates == [] then 1 else 0 }

  function Several(r: Reservation): nat { if |r.candidates| > 1 then 1 else 0 }

  ghost function Projected(s: State): nat {
    s.retained + Total(s.reservations, ExcessIn(s.runs))
  }

  ghost function ProjectedRecords(s: State): nat { |s.runs| + Total(s.reservations, Burden) }

  // ---------- Lock sections ----------

  /** Fence or release exactly these entries. */
  function WithResidency(runs: map<nat, Entry>, ids: seq<nat>, residency: Residency): map<nat, Entry> {
    map id | id in runs :: if id in ids then runs[id].(residency := residency) else runs[id]
  }

  function ReserveOn(s: State, r: Reservation): State {
    var ticket := s.nextTicket + 1;
    s.(nextTicket := ticket, live := s.live + 1,
       runs := WithResidency(s.runs, r.candidates, Collecting(ticket)),
       reservations := s.reservations[ticket := r])
  }

  function RestoreOn(s: State, ticket: nat): State
    requires ticket in s.reservations
  {
    s.(runs := WithResidency(s.runs, s.reservations[ticket].candidates, Retained), reservations := s.reservations - {ticket})
  }

  /** The entries and every index that names them. */
  function RemoveOn(s: State, ids: seq<nat>): State {
    s.(runs := Without(s.runs, ids), creation := IndexWithout(s.creation, ids), stops := IndexWithout(s.stops, ids),
       retained := Less(s.retained, Charges(s.runs, ids)))
  }

  function InsertOn(s: State, id: nat, key: Option<nat>, charge: nat): State {
    s.(runs := s.runs[id := Entry(key, None, charge, Retained)],
       creation := if key.Some? then s.creation[key.value := id] else s.creation,
       retained := s.retained + charge)
  }

  function PublishOn(s: State, ticket: nat, charge: nat): State
    requires ticket in s.reservations
  {
    var r := s.reservations[ticket];
    InsertOn(RemoveOn(s.(reservations := s.reservations - {ticket}), r.candidates), r.newId, r.key, charge)
  }

  function FenceRemovalOn(s: State, id: nat): State { s.(runs := WithResidency(s.runs, [id], Removing)) }

  function CancelRemovalOn(s: State, id: nat): State { s.(runs := WithResidency(s.runs, [id], Retained)) }

  // ---------- The indexes ----------

  predicate KeysOk(runs: map<nat, Entry>, creation: map<nat, nat>) {
    && (forall id {:trigger runs[id].key} :: id in runs && runs[id].key.Some? ==> runs[id].key.value in creation && creation[runs[id].key.value] == id)
    && (forall k {:trigger creation[k]} :: k in creation ==> creation[k] in runs && runs[creation[k]].key == Some(k))
  }

  predicate StopsOk(runs: map<nat, Entry>, stops: map<nat, nat>) {
    && (forall id {:trigger runs[id].stop} :: id in runs && runs[id].stop.Some? ==> runs[id].stop.value.key in stops && stops[runs[id].stop.value.key] == id)
    && (forall k {:trigger stops[k]} :: k in stops ==> stops[k] in runs && runs[stops[k]].stop.Some? && runs[stops[k]].stop.value.key == k)
  }

  /** A Run is being collected exactly by the ticket that lists it, and being removed
      exactly while a removal fence for it is out. */
  ghost predicate ResidencyOk(runs: map<nat, Entry>, reservations: map<nat, Reservation>, removals: set<nat>) {
    && (forall t, id :: t in reservations && id in reservations[t].candidates ==> id in runs && runs[id].residency == Collecting(t))
    && (forall id {:trigger runs[id].residency} :: id in runs && runs[id].residency.Collecting? ==>
          runs[id].residency.ticket in reservations && id in reservations[runs[id].residency.ticket].candidates)
    && (forall t :: t in reservations ==> Distinct(reservations[t].candidates))
    && (forall id :: id in removals <==> id in runs && runs[id].residency == Removing)
  }

  predicate Apart(a: Reservation, b: Reservation) {
    a.newId != b.newId && (a.key.None? || a.key != b.key)
  }

  /** The ids and keys promised to reservations are nobody else's. */
  predicate FreshOk(s: State) {
    && (forall t :: t in s.reservations ==> t <= s.nextTicket)
    && (forall t {:trigger s.reservations[t].newId} :: t in s.reservations ==> s.reservations[t].newId !in s.runs)
    && (forall t {:trigger s.reservations[t].key} :: t in s.reservations && s.reservations[t].key.Some? ==> s.reservations[t].key.value !in s.creation)
    && (forall t, u :: t in s.reservations && u in s.reservations && t != u ==> Apart(s.reservations[t], s.reservations[u]))
  }

  ghost predicate IndexesOk(s: State, removals: set<nat>) {
    && KeysOk(s.runs, s.creation)
    && StopsOk(s.runs, s.stops)
    && ResidencyOk(s.runs, s.reservations, removals)
  }

  // ---------- The budgets ----------

  ghost predicate BudgetsOk(s: State, limits: Limits) {
    && s.retained == Total(s.runs, Charge)
    && ProjectedRecords(s) <= limits.records
    && Projected(s) <= limits.metadata
    && Total(s.reservations, Several) <= 1
  }

  // ---------- Every lock section keeps the indexes ----------

  /** What creation guarantees about a new id and key: the id is fresh, and the key's
      stripe is held, so nobody retains or reserves it. */
  predicate FreshFor(s: State, r: Reservation) {
    && r.newId !in s.runs
    && (r.key.Some? ==> r.key.value !in s.creation)
    && (forall t :: t in s.reservations ==> Apart(s.reservations[t], r) && Apart(r, s.reservations[t]))
  }

  predicate AllRetained(s: State, ids: seq<nat>) {
    Distinct(ids) && forall id :: id in ids ==> id in s.runs && s.runs[id].residency == Retained
  }

  lemma ReserveResidency(runs: map<nat, Entry>, reservations: map<nat, Reservation>, ticket: nat, r: Reservation, removals: set<nat>)
    requires ResidencyOk(runs, reservations, removals) && ticket !in reservations && Distinct(r.candidates)
    requires forall id :: id in r.candidates ==> id in runs && runs[id].residency == Retained
    ensures ResidencyOk(WithResidency(runs, r.candidates, Collecting(ticket)), reservations[ticket := r], removals)
  {
  }

  lemma ReserveIndexes(s: State, r: Reservation, removals: set<nat>)
    requires IndexesOk(s, removals) && s.nextTicket + 1 !in s.reservations && AllRetained(s, r.candidates)
    ensures IndexesOk(ReserveOn(s, r), removals)
  {
    var t := ReserveOn(s, r);
    ReserveKeys(s, r);
    ReserveFences(s, r, removals);
    assert t.creation == s.creation && t.stops == s.stops;
  }

  lemma ReserveKeys(s: State, r: Reservation)
    requires KeysOk(s.runs, s.creation) && StopsOk(s.runs, s.stops)
    ensures KeysOk(ReserveOn(s, r).runs, ReserveOn(s, r).creation) && StopsOk(ReserveOn(s, r).runs, ReserveOn(s, r).stops)
  {
    KeepKeys(s, r.candidates, Collecting(s.nextTicket + 1));
  }

  lemma ReserveFences(s: State, r: Reservation, removals: set<nat>)
    requires ResidencyOk(s.runs, s.reservations, removals) && s.nextTicket + 1 !in s.reservations && AllRetained(s, r.candidates)
    ensures ResidencyOk(ReserveOn(s, r).runs, ReserveOn(s, r).reservations, removals)
  {
    ReserveResidency(s.runs, s.reservations, s.nextTicket + 1, r, removals);
  }

  lemma ReserveFresh(s: State, r: Reservation)
    requires FreshOk(s) && FreshFor(s, r)
    ensures FreshOk(ReserveOn(s, r))
  {
    var t := ReserveOn(s, r);
    assert t.runs.Keys == s.runs.Keys && t.creation == s.creation;
  }

  /** Lock sections that add no Run and no reservation keep the promises. */
  lemma ShrinkFresh(s: State, t: State)
    requires FreshOk(s) && t.runs.Keys <= s.runs.Keys && t.creation.Keys <= s.creation.Keys && s.nextTicket <= t.nextTicket
    requires forall k :: k in t.reservations ==> k in s.reservations && t.reservations[k] == s.reservations[k]
    ensures FreshOk(t)
  {
  }

  lemma KeepKeys(s: State, ids: seq<nat>, residency: Residency)
    requires KeysOk(s.runs, s.creation) && StopsOk(s.runs, s.stops)
    ensures KeysOk(WithResidency(s.runs, ids, residency), s.creation) && StopsOk(WithResidency(s.runs, ids, residency), s.stops)
  {
  }

  lemma RestoreResidency(runs: map<nat, Entry>, reservations: map<nat, Reservation>, ticket: nat, removals: set<nat>)
    requires ResidencyOk(runs, reservations, removals) && ticket in reservations
    ensures ResidencyOk(WithResidency(runs, reservations[ticket].candidates, Retained), reservations - {ticket}, removals)
  {
  }

  lemma RestoreIndexes(s: State, ticket: nat, removals: set<nat>)
    requires IndexesOk(s, removals) && ticket in s.reservations
    ensures IndexesOk(RestoreOn(s, ticket), removals)
  {
    KeepKeys(s, s.reservations[ticket].candidates, Retained);
    RestoreResidency(s.runs, s.reservations, ticket, removals);
  }

  /** Restoring undoes a reservation, the ticket number apart. */
  lemma RestoreUndoesReserve(s: State, r: Reservation)
    requires s.nextTicket + 1 !in s.reservations && AllRetained(s, r.candidates)
    ensures RestoreOn(ReserveOn(s, r), s.nextTicket + 1) == s.(nextTicket := s.nextTicket + 1, live := s.live + 1)
  {
    var t := ReserveOn(s, r);
    assert t.reservations - {s.nextTicket + 1} == s.reservations;
    assert WithResidency(t.runs, r.candidates, Retained) == s.runs;
  }

  lemma FenceIndexes(s: State, id: nat, removals: set<nat>)
    requires IndexesOk(s, removals) && AllRetained(s, [id])
    ensures IndexesOk(FenceRemovalOn(s, id), removals + {id})
  {
    KeepKeys(s, [id], Removing);
    var t := FenceRemovalOn(s, id);
    assert ResidencyOk(t.runs, t.reservations, removals + {id});
  }

  lemma CancelIndexes(s: State, id: nat, removals: set<nat>)
    requires IndexesOk(s, removals) && id in removals
    ensures IndexesOk(CancelRemovalOn(s, id), removals - {id})
  {
    KeepKeys(s, [id], Retained);
    var t := CancelRemovalOn(s, id);
    assert ResidencyOk(t.runs, t.reservations, removals - {id});
  }

  function Without(runs: map<nat, Entry>, ids: seq<nat>): map<nat, Entry> { Others(runs, ids) }

  function IndexWithout(index: map<nat, nat>, ids: seq<nat>): map<nat, nat> {
    map k | k in index && index[k] !in ids :: index[k]
  }

  lemma RemoveKeys(runs: map<nat, Entry>, creation: map<nat, nat>, stops: map<nat, nat>, ids: seq<nat>)
    requires KeysOk(runs, creation) && StopsOk(runs, stops)
    ensures KeysOk(Without(runs, ids), IndexWithout(creation, ids)) && StopsOk(Without(runs, ids), IndexWithout(stops, ids))
  {
  }

  lemma RemoveResidency(runs: map<nat, Entry>, reservations: map<nat, Reservation>, ids: seq<nat>, removals: set<nat>)
    requires ResidencyOk(runs, reservations, removals)
    requires forall t, id :: t in reservations && id in reservations[t].candidates ==> id !in ids
    ensures ResidencyOk(Without(runs, ids), reservations, set id | id in removals && id !in ids)
  {
  }

  /** Removing entries nobody's candidate list names. */
  lemma RemoveIndexes(s: State, ids: seq<nat>, removals: set<nat>)
    requires IndexesOk(s, removals)
    requires forall t, id :: t in s.reservations && id in s.reservations[t].candidates ==> id !in ids
    ensures IndexesOk(RemoveOn(s, ids), set id | id in removals && id !in ids)
  {
    RemoveKeys(s.runs, s.creation, s.stops, ids);
    RemoveResidency(s.runs, s.reservations, ids, removals);
  }

  lemma InsertKeys(runs: map<nat, Entry>, creation: map<nat, nat>, stops: map<nat, nat>, id: nat, key: Option<nat>, charge: nat)
    requires KeysOk(runs, creation) && StopsOk(runs, stops) && id !in runs && (key.Some? ==> key.value !in creation)
    ensures KeysOk(runs[id := Entry(key, None, charge, Retained)], if key.Some? then creation[key.value := id] else creation)
    ensures StopsOk(runs[id := Entry(key, None, charge, Retained)], stops)
  {
  }

  lemma InsertResidency(runs: map<nat, Entry>, reservations: map<nat, Reservation>, id: nat, entry: Entry, removals: set<nat>)
    requires ResidencyOk(runs, reservations, removals) && id !in runs && entry.residency == Retained
    ensures ResidencyOk(runs[id := entry], reservations, removals)
  {
  }

  lemma InsertFresh(s: State, id: nat, key: Option<nat>, charge: nat)
    requires FreshOk(s)
    requires forall t :: t in s.reservations ==> s.reservations[t].newId != id && (key.None? || s.reservations[t].key != key)
    ensures FreshOk(InsertOn(s, id, key, charge))
  {
  }

  lemma PublishResidency(runs: map<nat, Entry>, reservations: map<nat, Reservation>, ticket: nat, removals: set<nat>)
    requires ResidencyOk(runs, reservations, removals) && ticket in reservations
    ensures ResidencyOk(Without(runs, reservations[ticket].candidates), reservations - {ticket}, removals)
  {
    forall t, id | t in reservations && t != ticket && id in reservations[t].candidates ensures id !in reservations[ticket].candidates {
      assert runs[id].residency == Collecting(t);
    }
  }

  /** Publication replaces its candidates by the new Run in one step. */
  lemma PublishIndexes(s: State, ticket: nat, charge: nat, removals: set<nat>)
    requires IndexesOk(s, removals) && ticket in s.reservations
    requires var r := s.reservations[ticket]; r.newId !in s.runs && (r.key.Some? ==> r.key.value !in s.creation)
    ensures IndexesOk(PublishOn(s, ticket, charge), removals)
  {
    var r := s.reservations[ticket];
    var u := RemoveOn(s.(reservations := s.reservations - {ticket}), r.candidates);
    RemoveKeys(s.runs, s.creation, s.stops, r.candidates);
    PublishResidency(s.runs, s.reservations, ticket, removals);
    InsertKeys(u.runs, u.creation, u.stops, r.newId, r.key, charge);
    InsertResidency(u.runs, u.reservations, r.newId, Entry(r.key, None, charge, Retained), removals);
  }

  /** The new Run's id and key were nobody else's, and still are not. */
  lemma PublishFresh(s: State, ticket: nat, charge: nat)
    requires FreshOk(s) && ticket in s.reservations
    ensures FreshOk(PublishOn(s, ticket, charge))
  {
    var r := s.reservations[ticket];
    var u := RemoveOn(s.(reservations := s.reservations - {ticket}), r.candidates);
    ShrinkFresh(s, u);
    assert forall t :: t in u.reservations ==> Apart(s.reservations[t], r);
    InsertFresh(u, r.newId, r.key, charge);
  }
}
