/** The Registry's record and metadata budgets (crates/ctxmux-daemon/src/creation.rs:
  1637-1769, 2314-2336, 2917-2923, 3012-3075): no ticket's possible net release is
  ever spent by another ticket.

  A reservation promises a record unless it replaces one, and the bytes by which its own
  demand exceeds what its own candidates will release.  Retained totals and promises
  together stay within the limits at every lock section.
 */
module RegistryBudgets {
  import opened Wrappers
  import opened MapSums
  import opened RegistryModel

  // ---------- Charges ----------

  lemma {:induction false} ChargesAgree(runs: map<nat, Entry>, more: map<nat, Entry>, ids: seq<nat>)
    requires forall id :: id in ids ==> ChargeAt(runs, id) == ChargeAt(more, id)
    ensures Charges(runs, ids) == Charges(more, ids)
  {
    if ids != [] {
      assert ChargeAt(runs, ids[0]) == ChargeAt(more, ids[0]);
      ChargesAgree(runs, more, ids[1..]);
    }
  }

  /** Fencing and releasing change no charge. */
  lemma FencingKeepsCharges(runs: map<nat, Entry>, ids: seq<nat>, residency: Residency)
    ensures Total(WithResidency(runs, ids, residency), Charge) == Total(runs, Charge)
    ensures |WithResidency(runs, ids, residency)| == |runs|
    ensures forall id :: ChargeAt(WithResidency(runs, ids, residency), id) == ChargeAt(runs, id)
  {
    var fenced := WithResidency(runs, ids, residency);
    assert fenced.Keys == runs.Keys;
    assert |fenced.Keys| == |fenced| && |runs.Keys| == |runs|;
    TotalAgree(fenced, Charge, runs, Charge);
  }

  /** Reservations whose candidates kept their charges keep their excess. */
  lemma ExcessAgree(runs: map<nat, Entry>, more: map<nat, Entry>, reservations: map<nat, Reservation>)
    requires forall t, id :: t in reservations && id in reservations[t].candidates ==> ChargeAt(runs, id) == ChargeAt(more, id)
    ensures Total(reservations, ExcessIn(runs)) == Total(reservations, ExcessIn(more))
  {
    forall t | t in reservations ensures Excess(runs, reservations[t]) == Excess(more, reservations[t]) {
      ChargesAgree(runs, more, reservations[t].candidates);
    }
    TotalAgree(reservations, ExcessIn(runs), reservations, ExcessIn(more));
  }

  // ---------- Each lock section ----------

  /** Enough room by itself, or together with the candidates it fences. */
  ghost predicate Affordable(s: State, r: Reservation, limits: Limits) {
    && (r.candidates == [] ==> ProjectedRecords(s) < limits.records)
    && Projected(s) + r.newBytes <= limits.metadata + Charges(s.runs, r.candidates)
    && (|r.candidates| > 1 ==> Total(s.reservations, Several) == 0)
  }

  lemma ReserveKeepsExcess(s: State, r: Reservation)
    ensures Total(s.reservations, ExcessIn(s.runs)) == Total(s.reservations, ExcessIn(ReserveOn(s, r).runs))
    ensures Excess(s.runs, r) == Excess(ReserveOn(s, r).runs, r)
  {
    var t := ReserveOn(s, r);
    FencingKeepsCharges(s.runs, r.candidates, Collecting(s.nextTicket + 1));
    ExcessAgree(s.runs, t.runs, s.reservations);
    ChargesAgree(s.runs, t.runs, r.candidates);
  }

  lemma ReserveExcess(s: State, r: Reservation)
    requires s.nextTicket + 1 !in s.reservations
    ensures Projected(ReserveOn(s, r)) == Projected(s) + Excess(s.runs, r)
  {
    var t := ReserveOn(s, r);
    ReserveKeepsExcess(s, r);
    assert t.retained == s.retained && t.reservations == s.reservations[s.nextTicket + 1 := r];
    TotalWith<nat, Reservation>(s.reservations, ExcessIn(t.runs), s.nextTicket + 1, r);
    assert ExcessIn(t.runs)(r) == Excess(s.runs, r);
  }

  lemma ReserveCounts(s: State, r: Reservation)
    requires s.nextTicket + 1 !in s.reservations
    ensures ProjectedRecords(ReserveOn(s, r)) == ProjectedRecords(s) + Burden(r)
    ensures Total(ReserveOn(s, r).reservations, Several) == Total(s.reservations, Several) + Several(r)
    ensures Total(ReserveOn(s, r).runs, Charge) == Total(s.runs, Charge)
  {
    FencingKeepsCharges(s.runs, r.candidates, Collecting(s.nextTicket + 1));
    TotalWith<nat, Reservation>(s.reservations, Burden, s.nextTicket + 1, r);
    TotalWith<nat, Reservation>(s.reservations, Several, s.nextTicket + 1, r);
  }

  lemma ReserveBudgets(s: State, r: Reservation, limits: Limits)
    requires BudgetsOk(s, limits) && s.nextTicket + 1 !in s.reservations && Affordable(s, r, limits)
    ensures BudgetsOk(ReserveOn(s, r), limits)
  {
    ReserveExcess(s, r);
    ReserveCounts(s, r);
  }

  lemma RestoreBudgets(s: State, ticket: nat, limits: Limits)
    requires BudgetsOk(s, limits) && ticket in s.reservations
    ensures BudgetsOk(RestoreOn(s, ticket), limits)
  {
    var t := RestoreOn(s, ticket);
    FencingKeepsCharges(s.runs, s.reservations[ticket].candidates, Retained);
    ExcessAgree(s.runs, t.runs, t.reservations);
    TotalWithout(s.reservations, ExcessIn(s.runs), ticket);
    TotalWithout(s.reservations, Burden, ticket);
    TotalWithout(s.reservations, Several, ticket);
  }

  lemma FenceBudgets(s: State, id: nat, residency: Residency, limits: Limits)
    requires BudgetsOk(s, limits)
    ensures BudgetsOk(s.(runs := WithResidency(s.runs, [id], residency)), limits)
  {
    var t := s.(runs := WithResidency(s.runs, [id], residency));
    FencingKeepsCharges(s.runs, [id], residency);
    ExcessAgree(s.runs, t.runs, s.reservations);
  }

  /** Removing one entry that no reservation counts on; the saturating subtraction
      never saturates. */
  lemma RemoveBudgets(s: State, id: nat, limits: Limits)
    requires BudgetsOk(s, limits) && id in s.runs
    requires forall t :: t in s.reservations ==> id !in s.reservations[t].candidates
    ensures BudgetsOk(RemoveOn(s, [id]), limits)
    ensures s.runs[id].charge <= s.retained && RemoveOn(s, [id]).retained == s.retained - s.runs[id].charge
  {
    var t := RemoveOn(s, [id]);
    TotalSplit(s.runs, Charge, [id]);
    assert Charges(s.runs, [id]) == s.runs[id].charge;
    ExcessAgree(s.runs, t.runs, s.reservations);
  }

  lemma PublishRetained(s: State, ticket: nat, charge: nat, removals: set<nat>)
    requires ResidencyOk(s.runs, s.reservations, removals) && ticket in s.reservations && s.reservations[ticket].newId !in s.runs
    requires s.retained == Total(s.runs, Charge)
    ensures var t, spent := PublishOn(s, ticket, charge), Charges(s.runs, s.reservations[ticket].candidates);
            t.retained == Total(t.runs, Charge) == s.retained - spent + charge
    ensures |PublishOn(s, ticket, charge).runs| + |s.reservations[ticket].candidates| == |s.runs| + 1
  {
    var r := s.reservations[ticket];
    TotalSplit(s.runs, Charge, r.candidates);
    TotalWith(Without(s.runs, r.candidates), Charge, r.newId, Entry(r.key, None, charge, Retained));
  }

  lemma PublishExcess(s: State, ticket: nat, charge: nat, removals: set<nat>)
    requires ResidencyOk(s.runs, s.reservations, removals) && ticket in s.reservations && s.reservations[ticket].newId !in s.runs
    ensures var t := PublishOn(s, ticket, charge);
            Total(s.reservations, ExcessIn(s.runs)) == Total(t.reservations, ExcessIn(t.runs)) + Excess(s.runs, s.reservations[ticket])
  {
    TotalWithout(s.reservations, ExcessIn(s.runs), ticket);
    PublishKeepsCharges(s, ticket, charge, removals);
    ExcessAgree(s.runs, PublishOn(s, ticket, charge).runs, s.reservations - {ticket});
  }

  lemma PublishCounts(s: State, ticket: nat, charge: nat)
    requires ticket in s.reservations
    ensures var t, r := PublishOn(s, ticket, charge), s.reservations[ticket];
            && Total(s.reservations, Burden) == Total(t.reservations, Burden) + Burden(r)
            && Total(s.reservations, Several) == Total(t.reservations, Several) + Several(r)
  {
    TotalWithout(s.reservations, Burden, ticket);
    TotalWithout(s.reservations, Several, ticket);
  }

  /** Publication spends only its own promise: the candidates leave, the new Run
      enters with at most the reserved bytes, and both budgets still hold. */
  lemma PublishBudgets(s: State, ticket: nat, charge: nat, limits: Limits, removals: set<nat>)
    requires BudgetsOk(s, limits) && ResidencyOk(s.runs, s.reservations, removals)
    requires ticket in s.reservations && charge <= s.reservations[ticket].newBytes && s.reservations[ticket].newId !in s.runs
    ensures BudgetsOk(PublishOn(s, ticket, charge), limits)
  {
    PublishRetained(s, ticket, charge, removals);
    PublishExcess(s, ticket, charge, removals);
    PublishCounts(s, ticket, charge);
  }

  /** No other ticket's candidate is touched by a publication. */
  lemma PublishKeepsCharges(s: State, ticket: nat, charge: nat, removals: set<nat>)
    requires ResidencyOk(s.runs, s.reservations, removals) && ticket in s.reservations && s.reservations[ticket].newId !in s.runs
    ensures forall t, id :: t in s.reservations && t != ticket && id in s.reservations[t].candidates ==>
              ChargeAt(s.runs, id) == ChargeAt(PublishOn(s, ticket, charge).runs, id)
  {
    var r := s.reservations[ticket];
    forall t, id | t in s.reservations && t != ticket && id in s.reservations[t].candidates
      ensures ChargeAt(s.runs, id) == ChargeAt(PublishOn(s, ticket, charge).runs, id)
    {
      assert s.runs[id].residency == Collecting(t);
      assert id !in r.candidates && id != r.newId;
    }
  }
}
