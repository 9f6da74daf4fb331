/** Runs of the live event journal (crates/ctxmux-daemon/src/live_event_journal.rs). */
module JournalRuns {
  import opened Wrappers
  import opened JournalModel
  import Runs

  // Any interleaving of subscriptions, preparations, sends, reads, drops and the end of
  // the sender, with the past of the journal and one history for each reader slot.

  function Live(readers: seq<Option<nat>>): nat {
    if readers == [] then 0 else (if readers[0].Some? then 1 else 0) + Live(readers[1..])
  }

  lemma {:induction false} LiveUpdate(readers: seq<Option<nat>>, r: nat, value: Option<nat>)
    requires r < |readers|
    ensures Live(readers[r := value]) ==
            Live(readers) - (if readers[r].Some? then 1 else 0) + (if value.Some? then 1 else 0)
  {
    if r > 0 {
      LiveUpdate(readers[1..], r - 1, value);
      assert readers[r := value][1..] == readers[1..][r - 1 := value];
    } else {
      assert readers[r := value][1..] == readers[1..];
    }
  }

  lemma {:induction false} LiveAppend(readers: seq<Option<nat>>, value: Option<nat>)
    ensures Live(readers + [value]) == Live(readers) + (if value.Some? then 1 else 0)
  {
    if readers == [] {
      assert readers + [value] == [value];
    } else {
      LiveAppend(readers[1..], value);
      assert (readers + [value])[1..] == readers[1..] + [value];
    }
  }

  lemma {:induction false} LiveZero(readers: seq<Option<nat>>)
    ensures Live(readers) == 0 <==> AllGone(readers)
  {
    if readers != [] {
      LiveZero(readers[1..]);
      assert forall i :: 1 <= i < |readers| ==> readers[i] == readers[1..][i - 1];
    }
  }

  ghost predicate ReaderOk(reader: Option<nat>, history: History, log: seq<Event>, lost: set<nat>, base: nat) {
    reader.Some? ==> reader.value == Position(history) && Follows(history, log, lost) && Covers(lost, reader.value, base)
  }

  ghost predicate ReadersOk(readers: seq<Option<nat>>, histories: seq<History>, log: seq<Event>, lost: set<nat>, base: nat) {
    && |histories| == |readers|
    && forall i :: 0 <= i < |readers| ==> ReaderOk(readers[i], histories[i], log, lost, base)
  }

  /** Accepting events keeps every receiver's history. */
  lemma ReadersKept(readers: seq<Option<nat>>, histories: seq<History>, log: seq<Event>, lost: set<nat>, base: nat, log': seq<Event>)
    requires ReadersOk(readers, histories, log, lost, base) && log <= log'
    ensures ReadersOk(readers, histories, log', lost, base)
  {
    forall i | 0 <= i < |readers| && readers[i].Some?
      ensures ReaderOk(readers[i], histories[i], log', lost, base)
    {
      assert ReaderOk(readers[i], histories[i], log, lost, base);
      HistoryGrows(histories[i], log, lost, log', lost);
    }
  }

  ghost predicate AllPast(readers: seq<Option<nat>>, base: nat) {
    forall i :: 0 <= i < |readers| && readers[i].Some? ==> base < readers[i].value
  }

  ghost function LostAfter(lost: set<nat>, base: nat, pressure: bool): set<nat> {
    if pressure then lost + {base} else lost
  }

  lemma ReadersRetire(readers: seq<Option<nat>>, histories: seq<History>, log: seq<Event>, lost: set<nat>, base: nat, pressure: bool)
    requires ReadersOk(readers, histories, log, lost, base)
    requires pressure || AllPast(readers, base)
    ensures ReadersOk(readers, histories, log, LostAfter(lost, base, pressure), base + 1)
  {
    forall i | 0 <= i < |readers| && readers[i].Some?
      ensures ReaderOk(readers[i], histories[i], log, LostAfter(lost, base, pressure), base + 1)
    {
      assert ReaderOk(readers[i], histories[i], log, lost, base);
      HistoryGrows(histories[i], log, lost, log, LostAfter(lost, base, pressure));
    }
  }

  /** The histories after receiver r saw this outcome. */
  ghost function Recorded(histories: seq<History>, r: nat, outcome: Recv): seq<History>
    requires r < |histories|
  {
    match outcome
    case Got(event) => histories[r := Delivered(histories[r], event)]
    case Lagged(n) => histories[r := Skipped(histories[r], Position(histories[r]) + n)]
    case _ => histories
  }

  /** Slot r of a table, reused or newly pushed, takes this value. */
  function WithReader<T>(table: seq<T>, r: nat, value: T): seq<T>
    requires r <= |table|
  {
    if r < |table| then table[r := value] else table + [value]
  }

  lemma ReaderJoins(readers: seq<Option<nat>>, histories: seq<History>, r: nat, log: seq<Event>, lost: set<nat>, base: nat)
    requires ReadersOk(readers, histories, log, lost, base) && base <= |log|
    requires r <= |readers| && (r < |readers| ==> readers[r].None?)
    ensures ReadersOk(WithReader(readers, r, Some(|log|)), WithReader(histories, r, Subscribed(|log|)), log, lost, base)
    ensures Live(WithReader(readers, r, Some(|log|))) == Live(readers) + 1
  {
    if r < |readers| { LiveUpdate(readers, r, Some(|log|)); } else { LiveAppend(readers, Some(|log|)); }
    assert ReaderOk(Some(|log|), Subscribed(|log|), log, lost, base);
  }

  /** A receiver moves forward by one recorded step. */
  lemma ReaderMoves(readers: seq<Option<nat>>, histories: seq<History>, r: nat, history: History, log: seq<Event>, lost: set<nat>, base: nat)
    requires ReadersOk(readers, histories, log, lost, base) && r < |readers| && readers[r].Some?
    requires ReaderOk(Some(Position(history)), history, log, lost, base)
    ensures ReadersOk(readers[r := Some(Position(history))], histories[r := history], log, lost, base)
    ensures Live(readers[r := Some(Position(history))]) == Live(readers)
  {
    LiveUpdate(readers, r, Some(Position(history)));
  }

  lemma ReaderLeaves(readers: seq<Option<nat>>, histories: seq<History>, r: nat, log: seq<Event>, lost: set<nat>, base: nat)
    requires ReadersOk(readers, histories, log, lost, base) && r < |readers| && readers[r].Some?
    ensures ReadersOk(readers[r := None], histories, log, lost, base)
    ensures Live(readers) > 0 && Live(readers[r := None]) == Live(readers) - 1
    ensures Live(readers[r := None]) == 0 <==> AllGone(readers[r := None])
  {
    LiveUpdate(readers, r, None);
    LiveZero(readers[r := None]);
  }

  lemma {:induction false} NobodyWants(readers: seq<Option<nat>>, end: nat)
    requires AllGone(readers)
    ensures Wanted(readers, end) == end
  {
    if readers != [] { NobodyWants(readers[1..], end); }
  }

  // ---------- The step machine ----------

  /** The journal, the positions retired under pressure, and the receivers' histories. */
  datatype Book = Book(view: View, lost: set<nat>, histories: seq<History>)

  datatype Step =
    | Subscribe(r: nat)
    | Prepare(upto: nat)     // reclaim, then retire under pressure up to here
    | Send(event: Event)
    | Read(r: nat)
    | Drop(r: nat)
    | Close

  predicate Present(v: View, r: nat) { r < |v.readers| && v.readers[r].Some? }

  predicate Enabled(b: Book, step: Step) {
    match step
    case Subscribe(r) => !b.view.closed && r <= |b.view.readers| && (r < |b.view.readers| ==> b.view.readers[r].None?)
    case Prepare(upto) => !b.view.closed && Reclaimed(b.view) <= upto <= |b.view.log|
    case Send(_) => !b.view.closed && !AllGone(b.view.readers)
    case Read(r) => Present(b.view, r)
    case Drop(r) => Present(b.view, r)
    case Close => true
  }

  ghost predicate Inv(b: Book) {
    b.view.base <= |b.view.log| && ReadersOk(b.view.readers, b.histories, b.view.log, b.lost, b.view.base)
  }

  lemma InvIsValid(b: Book)
    requires Inv(b)
    ensures ValidView(b.view) && |b.histories| == |b.view.readers|
  {
    forall r: nat | Present(b.view, r) ensures b.view.readers[r].value <= |b.view.log| {
      assert ReaderOk(b.view.readers[r], b.histories[r], b.view.log, b.lost, b.view.base);
      HistoryAccounts(b.histories[r], b.view.log, b.lost);
    }
  }

  /** `lost` with the log positions from..upto added. */
  ghost function Lose(lost: set<nat>, from: nat, upto: nat): set<nat> {
    if upto <= from then lost else Lose(lost, from, upto - 1) + {upto - 1}
  }

  lemma {:induction false} LoseExactly(lost: set<nat>, from: nat, upto: nat)
    ensures forall p :: p in Lose(lost, from, upto) <==> p in lost || from <= p < upto
  {
    if from < upto { LoseExactly(lost, from, upto - 1); }
  }

  ghost function Apply(b: Book, step: Step): Book
    requires ValidView(b.view) && |b.histories| == |b.view.readers| && Enabled(b, step)
  {
    match step
    case Subscribe(r) =>
      Book(b.view.(readers := WithReader(b.view.readers, r, Some(|b.view.log|))), b.lost, WithReader(b.histories, r, Subscribed(|b.view.log|)))
    case Prepare(upto) => b.(view := b.view.(base := upto), lost := Lose(b.lost, Reclaimed(b.view), upto))
    case Send(event) => b.(view := b.view.(log := b.view.log + [event]))
    case Read(r) => Book(Receive(b.view, r).0, b.lost, Recorded(b.histories, r, Receive(b.view, r).1))
    case Drop(r) =>
      var v := Leave(b.view, r);
      Book(v, b.lost, if v.readers == [] then [] else b.histories)
    case Close => b.(view := b.view.(closed := true))
  }

  // ---------- Every step keeps the histories ----------

  /** Giving up what nobody wants keeps every history. */
  lemma ReclaimKeeps(v: View, histories: seq<History>, lost: set<nat>)
    requires v.base <= |v.log| && ReadersOk(v.readers, histories, v.log, lost, v.base)
    ensures Reclaimed(v) <= |v.log| && ReadersOk(v.readers, histories, v.log, lost, Reclaimed(v))
  {
    WantedIsEarliest(v.readers, |v.log|);
    forall i | 0 <= i < |v.readers| && v.readers[i].Some?
      ensures ReaderOk(v.readers[i], histories[i], v.log, lost, Reclaimed(v))
    {
      assert ReaderOk(v.readers[i], histories[i], v.log, lost, v.base);
    }
  }

  lemma PrepareKeeps(b: Book, upto: nat)
    requires Inv(b) && Reclaimed(b.view) <= upto <= |b.view.log|
    ensures ReadersOk(b.view.readers, b.histories, b.view.log, Lose(b.lost, Reclaimed(b.view), upto), upto)
  {
    ReclaimKeeps(b.view, b.histories, b.lost);
    var lost := Lose(b.lost, Reclaimed(b.view), upto);
    LoseExactly(b.lost, Reclaimed(b.view), upto);
    forall i | 0 <= i < |b.view.readers| && b.view.readers[i].Some?
      ensures ReaderOk(b.view.readers[i], b.histories[i], b.view.log, lost, upto)
    {
      assert ReaderOk(b.view.readers[i], b.histories[i], b.view.log, b.lost, Reclaimed(b.view));
      HistoryGrows(b.histories[i], b.view.log, b.lost, b.view.log, lost);
    }
  }

  lemma ReadKeeps(b: Book, r: nat)
    requires Inv(b) && Present(b.view, r) && ValidView(b.view)
    ensures Inv(Book(Receive(b.view, r).0, b.lost, Recorded(b.histories, r, Receive(b.view, r).1)))
  {
    var v, h := b.view, b.histories[r];
    assert ReaderOk(v.readers[r], h, v.log, b.lost, v.base);
    match Receive(v, r).1
    case Lagged(n) => ReaderMoves(v.readers, b.histories, r, Skipped(h, v.base), v.log, b.lost, v.base);
    case Got(event) =>
      ReaderMoves(v.readers, b.histories, r, Delivered(h, event), v.log, b.lost, v.base);
      ReclaimKeeps(v.(readers := v.readers[r := Some(v.readers[r].value + 1)]), b.histories[r := Delivered(h, event)], b.lost);
    case _ =>
  }

  lemma DropKeeps(b: Book, r: nat)
    requires Inv(b) && Present(b.view, r) && ValidView(b.view)
    ensures var v := Leave(b.view, r); Inv(Book(v, b.lost, if v.readers == [] then [] else b.histories))
  {
    ReaderLeaves(b.view.readers, b.histories, r, b.view.log, b.lost, b.view.base);
    ReclaimKeeps(b.view.(readers := b.view.readers[r := None]), b.histories, b.lost);
  }

  lemma StepKeeps(b: Book, step: Step)
    requires Inv(b) && ValidView(b.view) && |b.histories| == |b.view.readers| && Enabled(b, step)
    ensures Inv(Apply(b, step))
  {
    match step
    case Subscribe(r) => ReaderJoins(b.view.readers, b.histories, r, b.view.log, b.lost, b.view.base);
    case Prepare(upto) => PrepareKeeps(b, upto);
    case Send(event) => ReadersKept(b.view.readers, b.histories, b.view.log, b.lost, b.view.base, b.view.log + [event]);
    case Read(r) => ReadKeeps(b, r);
    case Drop(r) => DropKeeps(b, r);
    case Close =>
  }

  // ---------- Whole runs ----------

  ghost predicate Next(b: Book, step: Step, c: Book) {
    ValidView(b.view) && |b.histories| == |b.view.readers| && Enabled(b, step) && c == Apply(b, step)
  }

  lemma JoinIsStep(b: Book, r: nat)
    requires Inv(b) && Enabled(b, Subscribe(r))
    ensures |b.histories| == |b.view.readers|
    ensures Next(b, Subscribe(r), Book(b.view.(readers := WithReader(b.view.readers, r, Some(|b.view.log|))), b.lost,
                                       WithReader(b.histories, r, Subscribed(|b.view.log|))))
  {
    InvIsValid(b);
  }

  lemma ReadIsStep(b: Book, r: nat)
    requires Inv(b) && Present(b.view, r)
    ensures ValidView(b.view) && |b.histories| == |b.view.readers|
    ensures Next(b, Read(r), Book(Receive(b.view, r).0, b.lost, Recorded(b.histories, r, Receive(b.view, r).1)))
  {
    InvIsValid(b);
  }

  lemma DropIsStep(b: Book, r: nat)
    requires Inv(b) && Present(b.view, r)
    ensures ValidView(b.view)
    ensures Next(b, Drop(r), Book(Leave(b.view, r), b.lost, if Leave(b.view, r).readers == [] then [] else b.histories))
  {
    InvIsValid(b);
  }

  ghost predicate Execution(steps: seq<Step>, books: seq<Book>) {
    && |books| == |steps| + 1 && books[0] == Book(View([], 0, [], false), {}, [])
    && forall i {:trigger steps[i]} :: 0 <= i < |steps| ==> Next(books[i], steps[i], books[i + 1])
  }

  lemma RunKeeps(steps: seq<Step>, books: seq<Book>, k: nat)
    requires Execution(steps, books) && k < |books|
    ensures Inv(books[k])
  {
    forall b, step, c | Inv(b) && Next(b, step, c) ensures Inv(c) { StepKeeps(b, step); }
    Runs.HoldsThroughout(Inv, Next, steps, books, k);
  }

  /** In every run, what each receiver was told is the log itself: its deliveries are the
      events at their own ascending positions, delivered plus skipped is the distance it
      has come, and every position it went past was delivered to it or retired under
      pressure. */
  lemma ReceiversFollowTheLog(steps: seq<Step>, books: seq<Book>, k: nat, r: nat)
    requires Execution(steps, books) && k < |books| && Present(books[k].view, r)
    ensures r < |books[k].histories|
    ensures var v, h := books[k].view, books[k].histories[r];
            && v.readers[r].value == Position(h) <= |v.log| && Origin(h) <= Position(h)
            && |Deliveries(h)| + SkippedCount(h) == Position(h) - Origin(h)
            && (forall i :: 0 <= i < |Deliveries(h)| ==>
                  Origin(h) <= Deliveries(h)[i].0 < Position(h) && Deliveries(h)[i].1 == v.log[Deliveries(h)[i].0])
            && (forall i, j :: 0 <= i < j < |Deliveries(h)| ==> Deliveries(h)[i].0 < Deliveries(h)[j].0)
            && (forall p :: Origin(h) <= p < Position(h) ==> p in books[k].lost || (p, v.log[p]) in Deliveries(h))
  {
    RunKeeps(steps, books, k);
    var v, h, lost := books[k].view, books[k].histories[r], books[k].lost;
    assert ReaderOk(v.readers[r], h, v.log, lost, v.base);
    HistoryAccounts(h, v.log, lost);
    HistoryInOrder(h, v.log, lost);
    forall p | Origin(h) <= p < Position(h) ensures p in lost || (p, v.log[p]) in Deliveries(h) {
      HistoryComplete(h, v.log, lost, p);
    }
  }

  /** Nothing is ever lost but by a preparation that retired it under pressure. */
  lemma {:induction false} LostUnderPressure(steps: seq<Step>, books: seq<Book>, k: nat, p: nat)
    requires Execution(steps, books) && k < |books| && p in books[k].lost
    ensures exists i :: 0 <= i < k && steps[i].Prepare? && Reclaimed(books[i].view) <= p < steps[i].upto
  {
    if k > 0 {
      assert Next(books[k - 1], steps[k - 1], books[k]);
      if p in books[k - 1].lost {
        LostUnderPressure(steps, books, k - 1, p);
      } else {
        LoseExactly(books[k - 1].lost, Reclaimed(books[k - 1].view), steps[k - 1].upto);
      }
    }
  }

  /** A receiver is told that it lags only if some preparation retired, under pressure,
      the very event it would have read next. */
  lemma LagsOnlyUnderPressure(steps: seq<Step>, books: seq<Book>, k: nat, r: nat)
    requires Execution(steps, books) && k < |books| && Present(books[k].view, r)
    ensures ValidView(books[k].view)
    ensures Receive(books[k].view, r).1.Lagged? ==>
              exists i :: 0 <= i < k && steps[i].Prepare? && Reclaimed(books[i].view) <= books[k].view.readers[r].value < steps[i].upto
  {
    RunKeeps(steps, books, k);
    InvIsValid(books[k]);
    var v := books[k].view;
    assert ReaderOk(v.readers[r], books[k].histories[r], v.log, books[k].lost, v.base);
    if v.readers[r].value < v.base { LostUnderPressure(steps, books, k, v.readers[r].value); }
  }

  /** One notice if the receiver has fallen behind, then every retained event from its
      position on in order, and only then the end. */
  ghost predicate Drains(v: View, r: nat)
    requires ValidView(v) && Present(v, r)
  {
    var pos := v.readers[r].value;
    var lag, from := if pos < v.base then [Lagged(v.base - pos)] else [], if pos < v.base then v.base else pos;
    Observe(v, r, |lag| + (|v.log| - from) + 1) == lag + Rest(v.log, from) + [Closed]
  }

  /** After the sender is gone, that is what a receiver gets. */
  lemma ClosedDrains(b: Book, r: nat)
    requires Inv(b) && ValidView(b.view) && b.view.closed && Present(b.view, r)
    ensures Drains(b.view, r)
  {
    var v := b.view;
    if v.readers[r].value < v.base {
      var t := Receive(v, r).0;
      DrainsBeforeClosed(t, r);
      assert Observe(v, r, 1 + (|v.log| - v.base) + 1) == [Lagged(v.base - v.readers[r].value)] + Observe(t, r, |v.log| - v.base + 1);
    } else {
      DrainsBeforeClosed(v, r);
    }
  }

  /** In every run, a receiver that outlives the sender drains what is retained. */
  lemma RunsDrain(steps: seq<Step>, books: seq<Book>, k: nat, r: nat)
    requires Execution(steps, books) && k < |books| && books[k].view.closed && Present(books[k].view, r)
    ensures ValidView(books[k].view) && Drains(books[k].view, r)
  {
    RunKeeps(steps, books, k);
    InvIsValid(books[k]);
    ClosedDrains(books[k], r);
  }
}
