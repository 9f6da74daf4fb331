/** What the live event journal promises, stated over an unbounded log.

  The log holds every accepted event; the journal retains the suffix that starts
  at `base`.  A receiver is a position in the log.
 */
module JournalModel {
  import opened Wrappers

  /** One published event: the bytes its payload permit holds, and whether losing
      it loses output (an Output or Gap event). */
  datatype Event = Event(id: nat, payload: nat, output: bool)

  datatype View = View(log: seq<Event>, base: nat, readers: seq<Option<nat>>, closed: bool)

  datatype Recv = Got(event: Event) | Lagged(count: nat) | Empty | Closed

  ghost predicate ValidView(v: View) {
    && v.base <= |v.log|
    && forall i :: 0 <= i < |v.readers| && v.readers[i].Some? ==> v.readers[i].value <= |v.log|
  }

  /** The earliest position still wanted by a receiver, or the end of the log. */
  function Wanted(readers: seq<Option<nat>>, end: nat): (w: nat)
    ensures w <= end
  {
    if readers == [] then end
    else
      var rest := Wanted(readers[1..], end);
      if readers[0].Some? && readers[0].value <= rest then readers[0].value else rest
  }

  lemma {:induction false} WantedIsEarliest(readers: seq<Option<nat>>, end: nat)
    ensures forall i :: 0 <= i < |readers| && readers[i].Some? ==> Wanted(readers, end) <= readers[i].value
    ensures Wanted(readers, end) == end || Some(Wanted(readers, end)) in readers
  {
    if readers != [] {
      WantedIsEarliest(readers[1..], end);
      assert forall i :: 1 <= i < |readers| ==> readers[i] == readers[1..][i - 1];
    }
  }

  function Reclaimed(v: View): nat {
    var w := Wanted(v.readers, |v.log|);
    if v.base < w then w else v.base
  }

  /** One `try_recv` by receiver r. */
  function Receive(v: View, r: nat): (result: (View, Recv))
    requires ValidView(v) && r < |v.readers| && v.readers[r].Some?
    ensures ValidView(result.0) && |result.0.readers| == |v.readers| && result.0.readers[r].Some?
  {
    var pos := v.readers[r].value;
    if pos < v.base then (v.(readers := v.readers[r := Some(v.base)]), Lagged(v.base - pos))
    else if pos == |v.log| then (v, if v.closed then Closed else Empty)
    else
      var moved := v.(readers := v.readers[r := Some(pos + 1)]);
      (moved.(base := Reclaimed(moved)), Got(v.log[pos]))
  }

  predicate AllGone(readers: seq<Option<nat>>) {
    forall i :: 0 <= i < |readers| ==> readers[i].None?
  }

  /** One receiver going away. */
  function Leave(v: View, r: nat): View
    requires ValidView(v) && r < |v.readers| && v.readers[r].Some?
  {
    var gone := v.(readers := v.readers[r := None]);
    var kept := gone.(base := Reclaimed(gone));
    if AllGone(kept.readers) then kept.(readers := []) else kept
  }

  /** Reading or leaving never retires an event another receiver still wants, so
      those steps cannot make anybody lag. */
  lemma OthersCannotCauseLag(v: View, r: nat, other: nat)
    requires ValidView(v) && r < |v.readers| && v.readers[r].Some?
    requires other < |v.readers| && other != r && v.readers[other].Some?
    requires v.base <= v.readers[other].value
    ensures var t := Receive(v, r).0;
            t.readers[other] == v.readers[other] && t.base <= t.readers[other].value
    ensures var t := Leave(v, r);
            other < |t.readers| && t.readers[other] == v.readers[other] && t.base <= t.readers[other].value
  {
    var gone := v.(readers := v.readers[r := None]);
    assert gone.readers[other].Some?;
    WantedIsEarliest(gone.readers, |v.log|);
    WantedIsEarliest(v.readers[r := Some(v.readers[r].value + 1)], |v.log|);
  }

  /** What one receiver observes from n further reads with nobody else acting. */
  function Observe(v: View, r: nat, n: nat): seq<Recv>
    requires ValidView(v) && r < |v.readers| && v.readers[r].Some?
    decreases n
  {
    if n == 0 then [] else [Receive(v, r).1] + Observe(Receive(v, r).0, r, n - 1)
  }

  /** Every event from this position on, in order. */
  function Rest(log: seq<Event>, from: nat): seq<Recv>
    decreases |log| - from
  {
    if from >= |log| then [] else [Got(log[from])] + Rest(log, from + 1)
  }

  /** After the sender is gone a receiver that has not fallen behind drains every
      event from its position on, in order, and only then sees the end. */
  lemma {:induction false} DrainsBeforeClosed(v: View, r: nat)
    requires ValidView(v) && r < |v.readers| && v.readers[r].Some?
    requires v.closed && v.base <= v.readers[r].value
    ensures var pos := v.readers[r].value; var n := |v.log| - pos;
            Observe(v, r, n + 1) == Rest(v.log, pos) + [Closed]
    decreases |v.log| - v.readers[r].value
  {
    var pos := v.readers[r].value;
    var n := |v.log| - pos;
    if n > 0 {
      var t := Receive(v, r).0;
      assert t.readers[r] == Some(pos + 1);
      WantedIsEarliest(t.readers, |v.log|);
      DrainsBeforeClosed(t, r);
      assert Observe(v, r, n + 1) == [Got(v.log[pos])] + Observe(t, r, n);
    } else {
      assert Observe(v, r, 1) == [Closed] + Observe(v, r, 0);
    }
  }

  // ---------- One receiver's history ----------

  /** Everything one receiver was told, newest last. */
  datatype History =
    | Subscribed(at: nat)
    | Delivered(before: History, event: Event)
    | Skipped(before: History, upto: nat)

  /** The log position a receiver with this history has reached. */
  function Position(h: History): nat {
    match h
    case Subscribed(at) => at
    case Delivered(before, _) => Position(before) + 1
    case Skipped(_, upto) => upto
  }

  function Origin(h: History): nat {
    match h
    case Subscribed(at) => at
    case Delivered(before, _) => Origin(before)
    case Skipped(before, _) => Origin(before)
  }

  ghost predicate Covers(lost: set<nat>, from: nat, upto: nat) {
    forall p :: from <= p < upto ==> p in lost
  }

  /** The history covers the log from its origin on without a hole, an overlap or a
      reordering, and everything skipped was lost to pressure. */
  ghost predicate Follows(h: History, log: seq<Event>, lost: set<nat>) {
    match h
    case Subscribed(at) => at <= |log|
    case Delivered(before, event) =>
      Follows(before, log, lost) && Position(before) < |log| && event == log[Position(before)]
    case Skipped(before, upto) =>
      Follows(before, log, lost) && Position(before) < upto <= |log| && Covers(lost, Position(before), upto)
  }

  /** The delivered events with the log positions they were delivered for. */
  function Deliveries(h: History): seq<(nat, Event)> {
    match h
    case Subscribed(_) => []
    case Delivered(before, event) => Deliveries(before) + [(Position(before), event)]
    case Skipped(before, _) => Deliveries(before)
  }

  /** The sum of all reported lags. */
  function SkippedCount(h: History): int {
    match h
    case Subscribed(_) => 0
    case Delivered(before, _) => SkippedCount(before)
    case Skipped(before, upto) => SkippedCount(before) + upto - Position(before)
  }

  /** delivered + skipped = position − subscription position. */
  lemma {:induction false} HistoryAccounts(h: History, log: seq<Event>, lost: set<nat>)
    requires Follows(h, log, lost)
    ensures Origin(h) <= Position(h) <= |log|
    ensures |Deliveries(h)| + SkippedCount(h) == Position(h) - Origin(h)
  {
    if !h.Subscribed? { HistoryAccounts(h.before, log, lost); }
  }

  /** No duplicates and no reordering: every delivery is the log's event at its own
      position, and a later delivery is at a later position. */
  lemma {:induction false} HistoryInOrder(h: History, log: seq<Event>, lost: set<nat>)
    requires Follows(h, log, lost)
    ensures forall i :: 0 <= i < |Deliveries(h)| ==>
              Origin(h) <= Deliveries(h)[i].0 < Position(h) <= |log| && Deliveries(h)[i].1 == log[Deliveries(h)[i].0]
    ensures forall i, j :: 0 <= i < j < |Deliveries(h)| ==> Deliveries(h)[i].0 < Deliveries(h)[j].0
  {
    HistoryAccounts(h, log, lost);
    if !h.Subscribed? {
      HistoryInOrder(h.before, log, lost);
      HistoryAccounts(h.before, log, lost);
    }
  }

  /** Nothing is silently missing: every position the receiver went past was either
      delivered to it or lost to pressure. */
  lemma {:induction false} HistoryComplete(h: History, log: seq<Event>, lost: set<nat>, p: nat)
    requires Follows(h, log, lost) && Origin(h) <= p < Position(h)
    ensures p in lost || (p < |log| && (p, log[p]) in Deliveries(h))
  {
    HistoryAccounts(h.before, log, lost);
    if p < Position(h.before) {
      HistoryComplete(h.before, log, lost, p);
    }
  }

  /** Accepting more events or losing more of them keeps every history. */
  lemma {:induction false} HistoryGrows(h: History, log: seq<Event>, lost: set<nat>, log': seq<Event>, lost': set<nat>)
    requires Follows(h, log, lost) && log <= log' && lost <= lost'
    ensures Follows(h, log', lost')
  {
    if !h.Subscribed? { HistoryGrows(h.before, log, lost, log', lost'); }
  }
}
