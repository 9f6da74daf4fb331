/** Choice of the Runs a publication replaces (crates/ctxmux-daemon/src/creation.rs:
  1599-1769).

  A Run is eligible when it is retained, only the Registry holds it, and it has a
  terminal ordinal (`collection_ordinal`).  Pins and ordinals are inputs.
 */
module CandidateSelections {
  import opened Wrappers
  import opened MapSums
  import opened RegistryModel
  import opened RegistryBudgets

  /** What the selection reads outside the Registry state. */
  datatype Facts = Facts(pinned: set<nat>, ordinals: map<nat, nat>)

  predicate Eligible(s: State, f: Facts, id: nat) {
    id in s.runs && s.runs[id].residency == Retained && id !in f.pinned && id in f.ordinals
  }

  /** Older terminal ordinal first, then the smaller id. */
  predicate Before(ordinals: map<nat, nat>, a: nat, b: nat) {
    a in ordinals && b in ordinals && (ordinals[a] < ordinals[b] || (ordinals[a] == ordinals[b] && a < b))
  }

  predicate Ordered(ordinals: map<nat, nat>, ids: seq<nat>) {
    forall i, j :: 0 <= i < j < |ids| ==> Before(ordinals, ids[i], ids[j])
  }

  /** All eligible Runs in collection order. */
  ghost predicate IsOrder(s: State, f: Facts, order: seq<nat>) {
    Ordered(f.ordinals, order) && forall id :: id in order <==> Eligible(s, f, id)
  }

  lemma FirstIsLeast(ordinals: map<nat, nat>, ids: seq<nat>, id: nat)
    requires Ordered(ordinals, ids) && id in ids
    ensures ids[0] == id || Before(ordinals, ids[0], id)
  {
    var i :| 0 <= i < |ids| && ids[i] == id;
    if i > 0 { assert Before(ordinals, ids[0], ids[i]); }
  }

  /** The order is unique: two of them agree at every place. */
  lemma {:induction false} OrderUnique(ordinals: map<nat, nat>, a: seq<nat>, b: seq<nat>)
    requires Ordered(ordinals, a) && Ordered(ordinals, b)
    requires forall id :: id in a <==> id in b
    ensures a == b
    decreases |a|
  {
    assert a == [] || a[0] in b;
    assert b == [] || b[0] in a;
    if a != [] && b != [] {
      FirstIsLeast(ordinals, a, b[0]);
      FirstIsLeast(ordinals, b, a[0]);
      RestSame(ordinals, a, b);
      OrderUnique(ordinals, a[1..], b[1..]);
    }
  }

  lemma RestSame(ordinals: map<nat, nat>, a: seq<nat>, b: seq<nat>)
    requires Ordered(ordinals, a) && Ordered(ordinals, b) && a != [] && b != [] && a[0] == b[0]
    requires forall id :: id in a <==> id in b
    ensures forall id :: id in a[1..] <==> id in b[1..]
    ensures Ordered(ordinals, a[1..]) && Ordered(ordinals, b[1..])
  {
    forall id | id in a[1..] ensures id in b[1..] { RestHas(ordinals, a, b, id); }
    forall id | id in b[1..] ensures id in a[1..] { RestHas(ordinals, b, a, id); }
  }

  lemma RestHas(ordinals: map<nat, nat>, a: seq<nat>, b: seq<nat>, id: nat)
    requires Ordered(ordinals, a) && a != [] && b != [] && a[0] == b[0] && id in a[1..] && id in b
    ensures id in b[1..]
  {
    var i :| 0 <= i < |a[1..]| && a[1..][i] == id;
    assert a[i + 1] == id && Before(ordinals, a[0], a[i + 1]);
    var j :| 0 <= j < |b| && b[j] == id;
    assert b[1..][j - 1] == id;
  }

  // ---------- What a publication needs ----------

  /** Bytes the new Run's metadata must free, in 64-bit saturating arithmetic. */
  ghost function ToFund(s: State, limits: Limits, newBytes: nat): nat {
    Less(Min(U64_MAX, Min(U64_MAX, Projected(s)) + newBytes), limits.metadata)
  }

  ghost predicate NeedsRecord(s: State, limits: Limits) { ProjectedRecords(s) >= limits.records }

  /** The first n of the order cover the record and the metadata need. */
  predicate Meets(runs: map<nat, Entry>, order: seq<nat>, n: nat, needs: bool, fund: nat) {
    n <= |order| && (needs ==> n > 0) && Charges(runs, order[..n]) >= fund
  }

  predicate Shortest(runs: map<nat, Entry>, order: seq<nat>, n: nat, needs: bool, fund: nat) {
    Meets(runs, order, n, needs, fund) && forall m: nat :: m < n ==> !Meets(runs, order, m, needs, fund)
  }

  datatype Selection = Chosen(candidates: seq<nat>) | RunCapacity | AlreadyReserved

  /** The shortest sufficient prefix of the order; a capacity error exactly when all
      eligible Runs together do not suffice; and no second multiple replacement. */
  ghost predicate Selects(runs: map<nat, Entry>, order: seq<nat>, needs: bool, fund: nat, several: bool, result: Selection) {
    match result
    case Chosen(candidates) =>
      && Shortest(runs, order, |candidates|, needs, fund) && candidates == order[..|candidates|]
      && (|candidates| > 1 ==> !several)
    case RunCapacity => !Meets(runs, order, |order|, needs, fund)
    case AlreadyReserved => several && exists n: nat :: n > 1 && Shortest(runs, order, n, needs, fund)
  }

  lemma {:induction false} ChargesPrefix(runs: map<nat, Entry>, order: seq<nat>, n: nat)
    requires n < |order|
    ensures Charges(runs, order[..n + 1]) == Charges(runs, order[..n]) + ChargeAt(runs, order[n])
    decreases n
  {
    if n == 0 {
      assert order[..1] == [order[0]] && [order[0]][1..] == [];
      assert order[..0] == [] && Charges(runs, []) == 0;
    } else {
      assert order[..n + 1][1..] == order[1..][..n] && order[..n][1..] == order[1..][..n - 1];
      assert order[..n + 1][0] == order[0] == order[..n][0];
      ChargesPrefix(runs, order[1..], n - 1);
    }
  }

  /** More candidates never suffice less. */
  lemma {:induction false} MeetsGrows(runs: map<nat, Entry>, order: seq<nat>, m: nat, n: nat, needs: bool, fund: nat)
    requires Meets(runs, order, m, needs, fund) && m <= n <= |order|
    ensures Meets(runs, order, n, needs, fund)
    decreases n - m
  {
    if m < n {
      ChargesPrefix(runs, order, m);
      MeetsGrows(runs, order, m + 1, n, needs, fund);
    }
  }

  lemma ShortestUnique(runs: map<nat, Entry>, order: seq<nat>, m: nat, n: nat, needs: bool, fund: nat)
    requires Shortest(runs, order, m, needs, fund) && Shortest(runs, order, n, needs, fund)
    ensures m == n
  {
  }

  /** The state determines the result. */
  lemma SelectionUnique(runs: map<nat, Entry>, order: seq<nat>, needs: bool, fund: nat, several: bool, a: Selection, b: Selection)
    requires Selects(runs, order, needs, fund, several, a) && Selects(runs, order, needs, fund, several, b)
    ensures a == b
  {
    var x := PrefixOf(runs, order, needs, fund, several, a);
    if x.Some? { MeetsGrows(runs, order, x.value, |order|, needs, fund); }
    var y := PrefixOf(runs, order, needs, fund, several, b);
    if y.Some? { MeetsGrows(runs, order, y.value, |order|, needs, fund); }
    if x.Some? && y.Some? { ShortestUnique(runs, order, x.value, y.value, needs, fund); }
  }

  ghost function PrefixOf(runs: map<nat, Entry>, order: seq<nat>, needs: bool, fund: nat, several: bool, result: Selection): (n: Option<nat>)
    requires Selects(runs, order, needs, fund, several, result)
    ensures n.None? <==> result.RunCapacity?
    ensures n.Some? ==> Shortest(runs, order, n.value, needs, fund) && (n.value > 1 && several <==> result.AlreadyReserved?)
    ensures result.Chosen? ==> n == Some(|result.candidates|)
  {
    match result
    case Chosen(candidates) => Some(|candidates|)
    case RunCapacity => None
    case AlreadyReserved =>
      var n: nat :| n > 1 && Shortest(runs, order, n, needs, fund);
      Some(n)
  }

  /** The fast path: with no pressure the scan would choose nothing anyway, on every
      state and in every order. */
  lemma FastPathIsFullScan(runs: map<nat, Entry>, order: seq<nat>, several: bool, result: Selection)
    ensures Selects(runs, order, false, 0, several, result) <==> result == Chosen([])
  {
    assert order[..0] == [];
    assert Meets(runs, order, 0, false, 0);
    assert Selects(runs, order, false, 0, several, Chosen([]));
    if Selects(runs, order, false, 0, several, result) {
      SelectionUnique(runs, order, false, 0, several, result, Chosen([]));
    }
  }

  /** The result any full scan would give, whatever order the entries come in. */
  ghost predicate SelectedFrom(s: State, limits: Limits, f: Facts, newBytes: nat, result: Selection) {
    forall order :: IsOrder(s, f, order) ==>
      Selects(s.runs, order, NeedsRecord(s, limits), ToFund(s, limits, newBytes), Total(s.reservations, Several) > 0, result)
  }

  // ---------- Saturation ----------

  /** The bytes to free, in unbounded arithmetic. */
  ghost function ExactNeed(s: State, limits: Limits, newBytes: nat): nat { Less(Projected(s) + newBytes, limits.metadata) }

  /** What a full scan would give in unbounded arithmetic. */
  ghost predicate SelectedExactly(s: State, limits: Limits, f: Facts, newBytes: nat, result: Selection) {
    forall order :: IsOrder(s, f, order) ==>
      Selects(s.runs, order, NeedsRecord(s, limits), ExactNeed(s, limits, newBytes), Total(s.reservations, Several) > 0, result)
  }

  /** No choice of eligible Runs holds more than the metadata limit. */
  lemma OrderWithinLimit(s: State, limits: Limits, f: Facts, order: seq<nat>, n: nat)
    requires BudgetsOk(s, limits) && IsOrder(s, f, order) && n <= |order|
    ensures Charges(s.runs, order[..n]) <= limits.metadata
  {
    forall i, j | 0 <= i < j < n ensures order[i] != order[j] {
      assert Before(f.ordinals, order[i], order[j]);
    }
    forall id | id in order[..n] ensures id in s.runs { assert id in order; }
    TotalSplit(s.runs, Charge, order[..n]);
  }

  /** A saturated total asks for at least 2^63 bytes, more than any validated policy
      lets the Registry hold: the prefix that suffices is the same either way. */
  lemma SaturationHidesNothing(s: State, limits: Limits, f: Facts, newBytes: nat, order: seq<nat>, n: nat)
    requires BudgetsOk(s, limits) && IsOrder(s, f, order)
    ensures Meets(s.runs, order, n, NeedsRecord(s, limits), ToFund(s, limits, newBytes))
            <==> Meets(s.runs, order, n, NeedsRecord(s, limits), ExactNeed(s, limits, newBytes))
  {
    if n <= |order| { OrderWithinLimit(s, limits, f, order, n); }
  }

  lemma SelectsAgree(runs: map<nat, Entry>, order: seq<nat>, needs: bool, fund: nat, more: nat, several: bool, result: Selection)
    requires forall n: nat :: Meets(runs, order, n, needs, fund) <==> Meets(runs, order, n, needs, more)
    ensures Selects(runs, order, needs, fund, several, result) <==> Selects(runs, order, needs, more, several, result)
  {
    assert forall n: nat :: Shortest(runs, order, n, needs, fund) <==> Shortest(runs, order, n, needs, more);
  }

  /** The 64-bit saturating selection gives the same verdict as unbounded arithmetic, on
      every state within its budgets and for every request. */
  lemma SaturationIsExact(s: State, limits: Limits, f: Facts, newBytes: nat, result: Selection)
    requires BudgetsOk(s, limits)
    ensures SelectedFrom(s, limits, f, newBytes, result) <==> SelectedExactly(s, limits, f, newBytes, result)
  {
    var needs, several := NeedsRecord(s, limits), Total(s.reservations, Several) > 0;
    forall order | IsOrder(s, f, order)
      ensures Selects(s.runs, order, needs, ToFund(s, limits, newBytes), several, result)
              <==> Selects(s.runs, order, needs, ExactNeed(s, limits, newBytes), several, result)
    {
      forall n: nat { SaturationHidesNothing(s, limits, f, newBytes, order, n); }
      SelectsAgree(s.runs, order, needs, ToFund(s, limits, newBytes), ExactNeed(s, limits, newBytes), several, result);
    }
  }

  // ---------- What is chosen, in plain terms ----------

  /** A Run that may be replaced: retained, held by nobody else, and ended. */
  predicate MayGo(s: State, f: Facts, id: nat) {
    id in s.runs && s.runs[id].residency == Retained && id !in f.pinned && id in f.ordinals
  }

  /** Every chosen Run may go, and oldest first: the listed terminal ordinals never fall,
      ids decide a tie, and no Run that ended before a chosen one is left out. */
  ghost predicate OldestFirst(s: State, f: Facts, ids: seq<nat>) {
    && (forall i :: 0 <= i < |ids| ==> MayGo(s, f, ids[i]))
    && (forall i, j :: 0 <= i < j < |ids| ==>
          f.ordinals[ids[i]] < f.ordinals[ids[j]] || (f.ordinals[ids[i]] == f.ordinals[ids[j]] && ids[i] < ids[j]))
    && (forall a, b :: a in ids && MayGo(s, f, b) && (f.ordinals[b] < f.ordinals[a] || (f.ordinals[b] == f.ordinals[a] && b < a)) ==>
          b in ids)
  }

  lemma ChosenAreOldest(s: State, limits: Limits, f: Facts, newBytes: nat, ids: seq<nat>)
    requires SelectedFrom(s, limits, f, newBytes, Chosen(ids))
    ensures OldestFirst(s, f, ids)
  {
    var order := OrderExists(s, f);
    var n := |ids|;
    assert ids == order[..n];
    forall i | 0 <= i < n ensures ids[i] == order[i] && Eligible(s, f, ids[i]) { assert order[i] in order; }
    forall i, j | 0 <= i < j < n ensures Before(f.ordinals, ids[i], ids[j]) {}
    forall a, b | a in ids && MayGo(s, f, b) && (f.ordinals[b] < f.ordinals[a] || (f.ordinals[b] == f.ordinals[a] && b < a)) ensures b in ids {
      var i :| 0 <= i < n && ids[i] == a;
      assert Eligible(s, f, b) && b in order;
      var j :| 0 <= j < |order| && order[j] == b;
      forall m | n <= m < |order| ensures order[m] != b { assert Before(f.ordinals, order[i], order[m]); }
      assert ids[j] == b;
    }
  }

  /** These Runs, gone, make room for the new record and its bytes. */
  ghost predicate Suffices(s: State, limits: Limits, newBytes: nat, ids: seq<nat>) {
    && (ids != [] || |s.runs| + Total(s.reservations, Burden) < limits.records)
    && s.retained + Total(s.reservations, ExcessIn(s.runs)) + newBytes <= limits.metadata + Charges(s.runs, ids)
  }

  lemma MeetsSuffices(s: State, limits: Limits, f: Facts, newBytes: nat, order: seq<nat>, n: nat)
    requires BudgetsOk(s, limits) && IsOrder(s, f, order) && n <= |order|
    ensures Meets(s.runs, order, n, NeedsRecord(s, limits), ToFund(s, limits, newBytes)) <==> Suffices(s, limits, newBytes, order[..n])
  {
    SaturationHidesNothing(s, limits, f, newBytes, order, n);
  }

  /** The chosen Runs make room, and one fewer would not. */
  lemma ChosenAreFewest(s: State, limits: Limits, f: Facts, newBytes: nat, ids: seq<nat>)
    requires BudgetsOk(s, limits) && SelectedFrom(s, limits, f, newBytes, Chosen(ids))
    ensures Suffices(s, limits, newBytes, ids)
    ensures forall n :: 0 <= n < |ids| ==> !Suffices(s, limits, newBytes, ids[..n])
    ensures |ids| > 1 ==> forall t :: t in s.reservations ==> |s.reservations[t].candidates| <= 1
  {
    var order := OrderExists(s, f);
    SeveralMeans(s.reservations);
    MeetsSuffices(s, limits, f, newBytes, order, |ids|);
    forall n | 0 <= n < |ids| ensures !Suffices(s, limits, newBytes, ids[..n]) {
      MeetsSuffices(s, limits, f, newBytes, order, n);
      assert ids[..n] == order[..n];
    }
  }

  /** Any distinct Runs that may go weigh no more than all of them. */
  lemma AllWeighMost(s: State, f: Facts, order: seq<nat>, ids: seq<nat>)
    requires IsOrder(s, f, order) && Distinct(ids) && forall id :: id in ids ==> MayGo(s, f, id)
    ensures Charges(s.runs, ids) <= Charges(s.runs, order)
    ensures ids != [] ==> order != []
  {
    var some := map id | id in s.runs && MayGo(s, f, id) :: s.runs[id];
    forall i, j | 0 <= i < j < |order| ensures order[i] != order[j] { assert Before(f.ordinals, order[i], order[j]); }
    WeighAgree(s.runs, Charge, some, ids);
    WeighAgree(s.runs, Charge, some, order);
    TotalSplit(some, Charge, ids);
    TotalSplit(some, Charge, order);
    assert Others(some, order) == map[];
    if ids != [] { assert ids[0] in order; }
  }

  /** A capacity refusal means that no Runs that may go would make room, however chosen,
      and a choice or a conflict that some would. */
  lemma CapacityIff(s: State, limits: Limits, f: Facts, newBytes: nat, result: Selection)
    requires BudgetsOk(s, limits) && SelectedFrom(s, limits, f, newBytes, result)
    ensures result.RunCapacity? <==>
            forall ids: seq<nat> :: Distinct(ids) && (forall id :: id in ids ==> MayGo(s, f, id)) ==> !Suffices(s, limits, newBytes, ids)
  {
    var order := OrderExists(s, f);
    var needs, fund, several := NeedsRecord(s, limits), ToFund(s, limits, newBytes), Total(s.reservations, Several) > 0;
    MeetsSuffices(s, limits, f, newBytes, order, |order|);
    assert order[..|order|] == order;
    if result.RunCapacity? {
      forall ids: seq<nat> | Distinct(ids) && (forall id :: id in ids ==> MayGo(s, f, id)) ensures !Suffices(s, limits, newBytes, ids) {
        AllWeighMost(s, f, order, ids);
      }
    } else {
      var n := PrefixOf(s.runs, order, needs, fund, several, result);
      MeetsGrows(s.runs, order, n.value, |order|, needs, fund);
      forall i, j | 0 <= i < j < |order| ensures order[i] != order[j] { assert Before(f.ordinals, order[i], order[j]); }
      assert Distinct(order) && (forall id :: id in order ==> MayGo(s, f, id)) && Suffices(s, limits, newBytes, order);
    }
  }

  lemma {:induction false} SeveralMeans(reservations: map<nat, Reservation>)
    ensures Total(reservations, Several) > 0 <==> exists t :: t in reservations && |reservations[t].candidates| > 1
    decreases |reservations|
  {
    if reservations != map[] {
      var k := Pick(reservations);
      var rest := reservations - {k};
      SeveralMeans(rest);
      if t :| t in rest && |rest[t].candidates| > 1 { assert t in reservations && |reservations[t].candidates| > 1; }
      assert forall t :: t in reservations ==> t == k || (t in rest && rest[t] == reservations[t]);
    }
  }

  /** No Run that may go ended before this one. */
  ghost predicate Oldest(s: State, f: Facts, id: nat) {
    MayGo(s, f, id) && forall other :: MayGo(s, f, other) && other != id ==>
                         f.ordinals[id] < f.ordinals[other] || (f.ordinals[id] == f.ordinals[other] && id < other)
  }

  /** A second multiple replacement is refused, and nothing else is for that reason: some
      reservation already replaces several Runs, and the oldest Run alone would not make
      room here. */
  lemma ConflictMeansSeveral(s: State, limits: Limits, f: Facts, newBytes: nat)
    requires BudgetsOk(s, limits) && SelectedFrom(s, limits, f, newBytes, AlreadyReserved)
    ensures exists t :: t in s.reservations && |s.reservations[t].candidates| > 1
    ensures !Suffices(s, limits, newBytes, []) && forall id :: Oldest(s, f, id) ==> !Suffices(s, limits, newBytes, [id])
  {
    var order := OrderExists(s, f);
    SeveralMeans(s.reservations);
    MeetsSuffices(s, limits, f, newBytes, order, 0);
    assert order[..0] == [];
    forall id | Oldest(s, f, id) ensures !Suffices(s, limits, newBytes, [id]) {
      assert id in order && order[0] in order;
      FirstIsLeast(f.ordinals, order, id);
      assert Eligible(s, f, order[0]) && order[..1] == [id];
      MeetsSuffices(s, limits, f, newBytes, order, 1);
    }
  }

  // ---------- The source's own functions ----------

  function Inserted(ordinals: map<nat, nat>, sorted: seq<nat>, id: nat): seq<nat> {
    if sorted == [] || Before(ordinals, id, sorted[0]) then [id] + sorted
    else [sorted[0]] + Inserted(ordinals, sorted[1..], id)
  }

  lemma {:induction false} InsertedSorts(ordinals: map<nat, nat>, sorted: seq<nat>, id: nat)
    requires Ordered(ordinals, sorted) && id in ordinals && id !in sorted && forall x :: x in sorted ==> x in ordinals
    ensures var more := Inserted(ordinals, sorted, id); Ordered(ordinals, more) && forall x :: x in more <==> x in sorted || x == id
  {
    if sorted != [] && !Before(ordinals, id, sorted[0]) {
      var rest := sorted[1..];
      assert sorted[0] in sorted && Before(ordinals, sorted[0], id);
      assert sorted == [sorted[0]] + rest;
      InsertedSorts(ordinals, rest, id);
      var more := Inserted(ordinals, rest, id);
      forall x | x in more ensures Before(ordinals, sorted[0], x) {
        if x != id {
          var k :| 0 <= k < |rest| && rest[k] == x;
          assert Before(ordinals, sorted[0], sorted[k + 1]);
        }
      }
    }
  }

  /** Every state has a collection order. */
  lemma OrderExists(s: State, f: Facts) returns (order: seq<nat>)
    ensures IsOrder(s, f, order)
  {
    order := OrderOf(s, f, s.runs.Keys);
  }

  lemma {:induction false} OrderOf(s: State, f: Facts, ids: set<nat>) returns (order: seq<nat>)
    requires ids <= s.runs.Keys
    ensures Ordered(f.ordinals, order) && forall id :: id in order <==> Eligible(s, f, id) && id in ids
    decreases |ids|
  {
    if ids == {} {
      order := [];
    } else {
      var id :| id in ids;
      order := OrderOf(s, f, ids - {id});
      if Eligible(s, f, id) {
        InsertedSorts(f.ordinals, order, id);
        order := Inserted(f.ordinals, order, id);
      }
    }
  }

  /** The scan over all entries, with the number it walked. */
  method CollectEligible(s: State, f: Facts) returns (order: seq<nat>, evaluated: nat)
    ensures IsOrder(s, f, order)
    ensures OldestFirst(s, f, order) && forall id :: MayGo(s, f, id) ==> id in order
    ensures evaluated == |s.runs|
  {
    order, evaluated := [], 0;
    var left := s.runs.Keys;
    while left != {}
      invariant left <= s.runs.Keys && evaluated + |left| == |s.runs|
      invariant Ordered(f.ordinals, order) && forall id :: id in order <==> Eligible(s, f, id) && id !in left
      decreases |left|
    {
      var id :| id in left;
      left := left - {id};
      evaluated := evaluated + 1;
      if s.runs[id].residency == Retained && id !in f.pinned && id in f.ordinals {
        InsertedSorts(f.ordinals, order, id);
        order := Inserted(f.ordinals, order, id);
      }
    }
  }

  /** The two sums over the outstanding reservations. */
  method SumReservations(s: State) returns (burden: nat, reserved: nat, several: bool)
    ensures burden == Total(s.reservations, Burden)
    ensures reserved == Total(s.reservations, ExcessIn(s.runs))
    ensures several <==> Total(s.reservations, Several) > 0
  {
    burden, reserved, several := 0, 0, false;
    var left := s.reservations;
    while left != map[]
      invariant burden + Total(left, Burden) == Total(s.reservations, Burden)
      invariant reserved + Total(left, ExcessIn(s.runs)) == Total(s.reservations, ExcessIn(s.runs))
      invariant several || Total(left, Several) > 0 <==> Total(s.reservations, Several) > 0
      decreases |left|
    {
      var t :| t in left;
      TotalWithout(left, Burden, t);
      TotalWithout(left, ExcessIn(s.runs), t);
      TotalWithout(left, Several, t);
      var r := left[t];
      burden := burden + (if r.candidates == [] then 1 else 0);
      reserved := reserved + Less(r.newBytes, Charges(s.runs, r.candidates));
      several := several || |r.candidates| > 1;
      left := left - {t};
    }
  }

  method ChoosePrefix(runs: map<nat, Entry>, order: seq<nat>, needs: bool, fund: nat, several: bool) returns (result: Selection)
    requires fund <= U64_MAX
    ensures Selects(runs, order, needs, fund, several, result)
  {
    var i, sum := 0, 0;
    assert order[..0] == [];
    while i < |order| && !((!needs || i > 0) && sum >= fund)
      invariant i <= |order| && sum == Min(U64_MAX, Charges(runs, order[..i]))
      invariant forall m: nat :: m < i ==> !Meets(runs, order, m, needs, fund)
    {
      ChargesPrefix(runs, order, i);
      sum := Min(U64_MAX, sum + ChargeAt(runs, order[i]));
      i := i + 1;
    }
    assert order[..|order|] == order;
    if (needs && i == 0) || sum < fund {
      result := RunCapacity;
    } else if i > 1 && several {
      assert Shortest(runs, order, i, needs, fund);
      result := AlreadyReserved;
    } else {
      result := Chosen(order[..i]);
      assert |order[..i]| == i;
    }
  }

  method FullScan(s: State, f: Facts, needs: bool, fund: nat, several: bool) returns (result: Selection, evaluated: nat)
    requires fund <= U64_MAX
    ensures forall order :: IsOrder(s, f, order) ==> Selects(s.runs, order, needs, fund, several, result)
    ensures evaluated == |s.runs|
  {
    var order;
    order, evaluated := CollectEligible(s, f);
    result := ChoosePrefix(s.runs, order, needs, fund, several);
    forall other | IsOrder(s, f, other) ensures other == order {
      OrderUnique(f.ordinals, other, order);
    }
  }

  method SelectPublicationCandidates(s: State, limits: Limits, f: Facts, newBytes: nat)
    returns (result: Selection, evaluated: nat)
    ensures SelectedFrom(s, limits, f, newBytes, result)
    ensures result.Chosen? ==> OldestFirst(s, f, result.candidates)
    ensures evaluated == if !NeedsRecord(s, limits) && ToFund(s, limits, newBytes) == 0 then 0 else |s.runs|
  {
    var burden, reserved, several := SumReservations(s);
    var needs := |s.runs| + burden >= limits.records;
    var projected := Min(U64_MAX, s.retained + reserved);
    var fund := Less(Min(U64_MAX, projected + newBytes), limits.metadata);
    if !needs && fund == 0 {
      forall order | IsOrder(s, f, order) ensures Selects(s.runs, order, false, 0, several, Chosen([])) {
        FastPathIsFullScan(s.runs, order, several, Chosen([]));
      }
      ChosenAreOldest(s, limits, f, newBytes, []);
      return Chosen([]), 0;
    }
    result, evaluated := FullScan(s, f, needs, fund, several);
    if result.Chosen? { ChosenAreOldest(s, limits, f, newBytes, result.candidates); }
  }

  // ---------- What the choice is good for ----------

  /** A chosen set pays for its publication: the candidates are distinct retained Runs
      nobody else fences, and both budgets hold afterwards. */
  lemma ChoiceAffords(s: State, limits: Limits, f: Facts, r: Reservation)
    requires BudgetsOk(s, limits)
    requires SelectedFrom(s, limits, f, r.newBytes, Chosen(r.candidates))
    ensures Affordable(s, r, limits) && AllRetained(s, r.candidates)
    ensures forall id :: id in r.candidates ==> id !in f.pinned
  {
    var order := OrderExists(s, f);
    var n := |r.candidates|;
    assert Meets(s.runs, order, n, NeedsRecord(s, limits), ToFund(s, limits, r.newBytes));
    SaturationHidesNothing(s, limits, f, r.newBytes, order, n);
    forall i | 0 <= i < n ensures r.candidates[i] == order[i] && Eligible(s, f, order[i]) {
      assert order[i] in order;
    }
    forall i, j | 0 <= i < j < n ensures r.candidates[i] != r.candidates[j] {
      assert Before(f.ordinals, order[i], order[j]);
    }
  }
}
