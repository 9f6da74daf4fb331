/** Listing the fleet page by page (crates/ctxmux-daemon/src/creation.rs:2681-2710,
  crates/ctxmux-daemon/src/lib.rs:3512-3517, 7977-7983; crates/ctxmux-client/src/lib.rs:686-697).

  Run ids are numbers in their own order.  `select` is the library's partial selection;
  nothing but its contract is used.
 */
module Paging {
  import opened Wrappers

  predicate Ascending(ids: seq<nat>) {
    forall i, j :: 0 <= i < j < |ids| ==> ids[i] < ids[j]
  }

  predicate Past(after: Option<nat>, id: nat) { after.None? || id > after.value }

  /** What one page says about the fleet it was taken from: the first rows past the
      cursor, at most `limit`, and whether anything is left. */
  ghost predicate PageOf(fleet: set<nat>, after: Option<nat>, limit: nat, page: seq<nat>, more: bool) {
    && Ascending(page) && |page| <= limit
    && (forall id :: id in page ==> id in fleet && Past(after, id))
    && (forall id :: id in fleet && Past(after, id) && id !in page ==>
          more && |page| == limit && AllBelow(page, id))
    && (more ==> exists id :: id in fleet && Past(after, id) && id !in page)
  }

  /** Rearranged so that place n holds what sorting would put there. */
  ghost predicate Partitioned(arranged: seq<nat>, ids: seq<nat>, n: nat)
    requires n < |arranged|
  {
    && |arranged| == |ids|
    && (forall id :: id in arranged <==> id in ids)
    && (forall i, j :: 0 <= i < j < |arranged| ==> arranged[i] != arranged[j])
    && (forall i :: 0 <= i < n ==> arranged[i] < arranged[n])
    && (forall i :: n < i < |arranged| ==> arranged[i] > arranged[n])
  }

  predicate Distinct(ids: seq<nat>) {
    forall i, j :: 0 <= i < j < |ids| ==> ids[i] != ids[j]
  }

  /** The contract of `select_nth_unstable` on distinct ids. */
  ghost predicate SelectsNth(select: (seq<nat>, nat) -> seq<nat>) {
    forall ids, n: nat {:trigger select(ids, n)} :: Distinct(ids) && n < |ids| ==> |select(ids, n)| == |ids| && Partitioned(select(ids, n), ids, n)
  }

  /** A member that is not among the first n stands at place n or later. */
  lemma NotInPrefix(ids: seq<nat>, n: nat, id: nat) returns (i: nat)
    requires n <= |ids| && id in ids && id !in ids[..n]
    ensures n <= i < |ids| && ids[i] == id
  {
    assert ids == ids[..n] + ids[n..];
    var k :| 0 <= k < |ids[n..]| && ids[n..][k] == id;
    i := n + k;
  }

  predicate AllBelow(rows: seq<nat>, id: nat) { forall row :: row in rows ==> row < id }

  /** The first of ascending ids is the least, and the tail is the others. */
  lemma TailOf(ids: seq<nat>)
    requires Ascending(ids) && ids != []
    ensures Ascending(ids[1..])
    ensures forall id :: id in ids ==> ids[0] <= id
    ensures forall id :: id in ids[1..] <==> id in ids && id > ids[0]
  {
    var rest := ids[1..];
    assert ids == [ids[0]] + rest;
    forall id | id in rest ensures id > ids[0] {
      var k :| 0 <= k < |rest| && rest[k] == id;
      assert ids[k + 1] == id;
    }
  }

  function Inserted(sorted: seq<nat>, id: nat): seq<nat> {
    if sorted == [] || id < sorted[0] then [id] + sorted else [sorted[0]] + Inserted(sorted[1..], id)
  }

  lemma {:induction false} InsertedAscends(sorted: seq<nat>, id: nat)
    requires Ascending(sorted) && id !in sorted
    ensures Ascending(Inserted(sorted, id)) && |Inserted(sorted, id)| == |sorted| + 1
    ensures forall x :: x in Inserted(sorted, id) <==> x in sorted || x == id
  {
    if sorted != [] && id >= sorted[0] {
      var rest := sorted[1..];
      TailOf(sorted);
      assert sorted[0] in sorted && sorted == [sorted[0]] + rest;
      InsertedAscends(rest, id);
      var more := Inserted(rest, id);
      forall i | 0 <= i < |more| ensures sorted[0] < more[i] {
        assert more[i] in more;
      }
    }
  }

  method Sort(ids: seq<nat>) returns (sorted: seq<nat>)
    requires Distinct(ids)
    ensures Ascending(sorted) && |sorted| == |ids| && forall x :: x in sorted <==> x in ids
  {
    sorted := [];
    for i := 0 to |ids|
      invariant Ascending(sorted) && |sorted| == i
      invariant forall x :: x in sorted <==> x in ids[..i]
    {
      assert ids[..i + 1] == ids[..i] + [ids[i]];
      assert ids[i] !in ids[..i];
      InsertedAscends(sorted, ids[i]);
      sorted := Inserted(sorted, ids[i]);
    }
    assert ids[..|ids|] == ids;
  }

  /** The ids past the cursor, in the order the map happens to give them. */
  method Gather(fleet: set<nat>, after: Option<nat>) returns (ids: seq<nat>)
    ensures Distinct(ids) && forall id :: id in ids <==> id in fleet && Past(after, id)
  {
    ids := [];
    var left := fleet;
    while left != {}
      invariant left <= fleet && Distinct(ids)
      invariant forall id :: id in ids <==> id in fleet && Past(after, id) && id !in left
      decreases |left|
    {
      var id :| id in left;
      left := left - {id};
      if after.None? || id > after.value {
        ids := ids + [id];
      }
    }
  }

  method ListSummariesAfter(fleet: set<nat>, after: Option<nat>, limit: nat, select: (seq<nat>, nat) -> seq<nat>)
    returns (page: seq<nat>, more: bool)
    requires SelectsNth(select)
    ensures PageOf(fleet, after, limit, page, more)
  {
    var ids := Gather(fleet, after);
    var near := ids;
    if |ids| > limit + 1 {
      var arranged := select(ids, limit);
      near := arranged[..limit + 1];
      NearestFirst(ids, arranged, limit);
    }
    var sorted := Sort(near);
    more := |sorted| > limit;
    page := if more then sorted[..limit] else sorted;
    TakePage(fleet, after, limit, ids, near, sorted);
  }

  /** The truncated selection keeps the limit + 1 smallest ids: whatever is cut off is
      larger than all of them. */
  lemma NearestFirst(ids: seq<nat>, arranged: seq<nat>, limit: nat)
    requires limit + 1 < |ids| && |arranged| == |ids| && Partitioned(arranged, ids, limit)
    ensures Distinct(arranged[..limit + 1])
    ensures forall id :: id in arranged[..limit + 1] ==> id in ids
    ensures forall id :: id in ids && id !in arranged[..limit + 1] ==> AllBelow(arranged[..limit + 1], id)
  {
    var near := arranged[..limit + 1];
    forall id | id in near ensures id in ids { assert id in arranged; }
    forall id, row | id in ids && id !in near && row in near ensures row < id {
      assert id in arranged;
      var i := NotInPrefix(arranged, limit + 1, id);
      var j :| 0 <= j < |near| && near[j] == row;
      assert arranged[j] == row;
    }
  }

  lemma TakePage(fleet: set<nat>, after: Option<nat>, limit: nat, ids: seq<nat>, near: seq<nat>, sorted: seq<nat>)
    requires forall id :: id in ids <==> id in fleet && Past(after, id)
    requires forall id :: id in near ==> id in ids
    requires near == ids || |near| == limit + 1
    requires forall id :: id in ids && id !in near ==> AllBelow(near, id)
    requires Ascending(sorted) && |sorted| == |near| && forall x :: x in sorted <==> x in near
    ensures PageOf(fleet, after, limit, if |sorted| > limit then sorted[..limit] else sorted, |sorted| > limit)
  {
    var page := if |sorted| > limit then sorted[..limit] else sorted;
    forall id | id in page ensures id in sorted {}
    forall id | id in fleet && Past(after, id) && id !in page ensures |sorted| > limit && AllBelow(page, id) {
      if id in near {
        var i := NotInPrefix(sorted, |page|, id);
      } else {
        assert AllBelow(near, id);
      }
    }
    if |sorted| > limit {
      var next := sorted[limit];
      assert next in sorted && next in near;
      assert next in fleet && Past(after, next) && next !in page;
    }
  }

  /** A page is the beginning of the whole sorted list past the cursor, cut at the
      limit, and `more` says exactly whether the list is longer. */
  lemma PageIsPrefix(fleet: set<nat>, after: Option<nat>, limit: nat, page: seq<nat>, more: bool, all: seq<nat>)
    requires PageOf(fleet, after, limit, page, more)
    requires Ascending(all) && forall id :: id in all <==> id in fleet && Past(after, id)
    ensures |page| <= |all| && page == all[..|page|]
    ensures |page| == if |all| > limit then limit else |all|
    ensures more <==> |all| > limit
  {
    StartsWith(page, all);
    if |page| < |all| {
      var id := all[|page|];
      assert id in all;
      forall i | 0 <= i < |page| ensures page[i] != id { assert page[i] == all[i]; }
      assert id !in page;
    } else {
      assert page == all;
    }
  }

  lemma {:induction false} StartsWith(page: seq<nat>, all: seq<nat>)
    requires Ascending(page) && Ascending(all)
    requires forall id :: id in page ==> id in all
    requires forall id :: id in all && id !in page ==> AllBelow(page, id)
    ensures |page| <= |all| && page == all[..|page|]
    decreases |page|
  {
    if page != [] {
      assert page[0] in page;
      TailOf(page);
      TailOf(all);
      assert all[0] in all;
      assert page[0] == all[0];
      StartsWith(page[1..], all[1..]);
      assert all[..|page|] == [all[0]] + all[1..][..|page| - 1];
    }
  }

  // ---------- The client's walk ----------

  const LIST_MAX_PAGE_RUNS: nat := 512

  function ClampLimit(limit: Option<nat>): nat {
    if limit.None? || limit.value == 0 || limit.value > LIST_MAX_PAGE_RUNS then LIST_MAX_PAGE_RUNS else limit.value
  }

  /** One request: a page and the cursor to continue from. */
  method ListPage(fleet: set<nat>, after: Option<nat>, limit: Option<nat>, select: (seq<nat>, nat) -> seq<nat>)
    returns (page: seq<nat>, next: Option<nat>)
    requires SelectsNth(select)
    ensures PageOf(fleet, after, ClampLimit(limit), page, next.Some?)
    ensures |page| <= if limit.Some? && 1 <= limit.value <= 512 then limit.value else 512
    ensures next.Some? ==> |page| == if limit.Some? && 1 <= limit.value <= 512 then limit.value else 512
    ensures next.Some? ==> page != [] && next.value == page[|page| - 1]
  {
    var more;
    page, more := ListSummariesAfter(fleet, after, ClampLimit(limit), select);
    next := if more && page != [] then Some(page[|page| - 1]) else None;
    if more {
      var id :| id in fleet && Past(after, id) && id !in page;
      assert |page| == ClampLimit(limit) > 0;
    }
  }

  /** The walk against a fleet that changes between requests; `fleets[i]` is what the
      i-th request sees.  `ended` is false when the requests ran out first. */
  method ListAll(fleets: seq<set<nat>>, select: (seq<nat>, nat) -> seq<nat>) returns (runs: seq<nat>, ended: bool, asked: nat)
    requires SelectsNth(select)
    ensures asked <= |fleets| && Ascending(runs)
    ensures forall row :: row in runs ==> exists i :: 0 <= i < asked && row in fleets[i]
    ensures ended ==> asked > 0 && forall id :: (forall i :: 0 <= i < asked ==> id in fleets[i]) ==> id in runs
    ensures !ended ==> asked == |fleets| && (asked > 0 ==> |runs| >= asked && LastOf(runs) >= asked - 1)
  {
    var cursor: Option<nat>;
    runs, ended, asked, cursor := [], false, 0, None;
    while asked < |fleets|
      invariant asked <= |fleets| && Ascending(runs)
      invariant cursor == if runs == [] then None else Some(LastOf(runs))
      invariant |runs| >= asked
      invariant forall row :: row in runs ==> exists i :: 0 <= i < asked && row in fleets[i]
      invariant forall id :: (forall i :: 0 <= i < asked ==> id in fleets[i]) && !Past(cursor, id) ==> id in runs
    {
      var page, next := ListPage(fleets[asked], cursor, None, select);
      WalkOn(runs, page, cursor);
      assert forall row :: row in page ==> row in fleets[asked];
      ghost var seen := runs;
      forall id | (forall i :: 0 <= i < asked + 1 ==> id in fleets[i]) && (next.None? || !Past(next, id)) ensures id in seen + page {
        assert id in fleets[asked];
        assert next.None? || next.value in page;
        if !Past(cursor, id) {
          assert forall i :: 0 <= i < asked ==> id in fleets[i];
          assert id in seen;
        } else {
          assert id in page || AllBelow(page, id);
        }
      }
      runs := runs + page;
      asked := asked + 1;
      if next.None? {
        return runs, true, asked;
      }
      cursor := next;
    }
    if asked > 0 { AtLeastLength(runs, |runs| - 1); }
  }

  function LastOf(runs: seq<nat>): nat { if runs == [] then 0 else runs[|runs| - 1] }

  lemma WalkOn(runs: seq<nat>, page: seq<nat>, cursor: Option<nat>)
    requires Ascending(runs) && Ascending(page) && cursor == if runs == [] then None else Some(LastOf(runs))
    requires forall row :: row in page ==> Past(cursor, row)
    ensures Ascending(runs + page)
    ensures page != [] ==> LastOf(runs + page) == page[|page| - 1]
  {
    var all := runs + page;
    forall i, j | 0 <= i < j < |all| ensures all[i] < all[j] {
      if i < |runs| <= j {
        assert page[j - |runs|] in page;
        assert runs[i] <= LastOf(runs);
      }
    }
  }

  /** Strictly ascending ids climb at least as fast as their places: in a bounded id
      space the walk cannot go on for ever. */
  lemma {:induction false} AtLeastLength(runs: seq<nat>, n: nat)
    requires Ascending(runs) && n < |runs|
    ensures runs[n] >= n
  {
    if n > 0 { AtLeastLength(runs, n - 1); }
  }

  lemma {:induction false} OnceEach(runs: seq<nat>, id: nat)
    requires Ascending(runs) && id in runs
    ensures multiset(runs)[id] == 1
  {
    var front, last := runs[..|runs| - 1], runs[|runs| - 1];
    assert runs == front + [last];
    if id == last {
      assert id !in front;
    } else {
      OnceEach(front, id);
    }
  }

  /** Whatever is created or removed while it pages, a walk that ends lists every Run
      that existed throughout exactly once. */
  method ListPersistent(fleets: seq<set<nat>>, select: (seq<nat>, nat) -> seq<nat>, id: nat) returns (runs: seq<nat>, ended: bool)
    requires SelectsNth(select) && fleets != [] && forall i :: 0 <= i < |fleets| ==> id in fleets[i]
    ensures ended ==> multiset(runs)[id] == 1
  {
    var asked;
    runs, ended, asked := ListAll(fleets, select);
    if ended { OnceEach(runs, id); }
  }

  lemma {:induction false} NoMoreThanFleet(runs: seq<nat>, fleet: set<nat>)
    requires Ascending(runs) && forall row :: row in runs ==> row in fleet
    ensures |runs| <= |fleet|
  {
    if runs != [] {
      var front, last := runs[..|runs| - 1], runs[|runs| - 1];
      assert last in runs;
      forall row | row in front ensures row in fleet - {last} { assert row in runs; }
      NoMoreThanFleet(front, fleet - {last});
    }
  }

  /** On an unchanging Registry the walk ends, with the whole fleet in order. */
  method ListUnchanging(fleet: set<nat>, select: (seq<nat>, nat) -> seq<nat>) returns (runs: seq<nat>)
    requires SelectsNth(select)
    ensures Ascending(runs) && forall id :: id in runs <==> id in fleet
  {
    var fleets := seq(|fleet| + 1, i => fleet);
    var ended, asked;
    runs, ended, asked := ListAll(fleets, select);
    NoMoreThanFleet(runs, fleet);
  }
}
