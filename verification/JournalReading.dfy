/** What each call of the live event journal does, in every run (crates/ctxmux-daemon/src/live_event_journal.rs:
  83-275). */
module JournalReading {
  import opened Wrappers
  import opened JournalModel
  import opened JournalRuns

  /** The events these steps sent. */
  function SentIn(steps: seq<Step>): seq<Event> {
    if steps == [] then []
    else
      var last := steps[|steps| - 1];
      SentIn(steps[..|steps| - 1]) + if last.Send? then [last.event] else []
  }

  /** In every run the log is what was sent, all of it and in order. */
  lemma {:induction false} LogIsWhatWasSent(steps: seq<Step>, books: seq<Book>, k: nat)
    requires Execution(steps, books) && k < |books|
    ensures books[k].view.log == SentIn(steps[..k])
  {
    if k > 0 {
      LogIsWhatWasSent(steps, books, k - 1);
      assert Next(books[k - 1], steps[k - 1], books[k]);
      assert steps[..k][..k - 1] == steps[..k - 1];
    }
  }

  /** In every run a new receiver starts at the present end of the log, in a slot nobody
      holds, and everybody else stays where they are. */
  lemma SubscribedAtEnd(steps: seq<Step>, books: seq<Book>, k: nat)
    requires Execution(steps, books) && k < |steps| && steps[k].Subscribe?
    ensures var v, t, r := books[k].view, books[k + 1].view, steps[k].r;
            && !Present(v, r) && Present(t, r) && t.readers[r] == Some(|v.log|)
            && r < |books[k + 1].histories| && books[k + 1].histories[r] == Subscribed(|v.log|)
            && t.log == v.log && t.base == v.base
            && forall other: nat :: other != r && Present(v, other) ==> Present(t, other) && t.readers[other] == v.readers[other]
  {
    assert Next(books[k], steps[k], books[k + 1]);
  }

  /** In every run a receiver is given its next event whenever there is one: a lag, to the
      oldest retained event, exactly if the next one was retired; the event at its own
      position, and one position further, if it is retained; and otherwise the end of a
      closed journal or that there is nothing yet. */
  lemma ReadGivesNext(steps: seq<Step>, books: seq<Book>, k: nat)
    requires Execution(steps, books) && k < |steps| && steps[k].Read?
    ensures Present(books[k].view, steps[k].r) && ValidView(books[k].view) && Present(books[k + 1].view, steps[k].r)
    ensures var v, t, r := books[k].view, books[k + 1].view, steps[k].r;
            var pos, next, outcome := v.readers[r].value, t.readers[r].value, Receive(v, r).1;
            && (if pos < v.base then outcome == Lagged(v.base - pos) && next == v.base
                else if pos < |v.log| then outcome == Got(v.log[pos]) && next == pos + 1
                else outcome == (if v.closed then Recv.Closed else Empty) && next == pos)
            && t.log == v.log && t.closed == v.closed
            && forall other: nat :: other != r ==> (Present(v, other) <==> Present(t, other)) && (Present(v, other) ==> t.readers[other] == v.readers[other])
  {
    assert Next(books[k], steps[k], books[k + 1]);
  }

  /** Everything before this position has been read by every receiver that is here. */
  predicate AllBeyond(v: View, p: nat) { forall r :: 0 <= r < |v.readers| && v.readers[r].Some? ==> v.readers[r].value >= p }

  lemma EarliestIsBeyond(v: View, p: nat)
    requires AllBeyond(v, p) && p <= |v.log|
    ensures Reclaimed(v) >= p
  {
    WantedIsEarliest(v.readers, |v.log|);
    if Wanted(v.readers, |v.log|) != |v.log| {
      var r :| 0 <= r < |v.readers| && v.readers[r] == Some(Wanted(v.readers, |v.log|));
    }
  }

  /** In every run a delivery or a departure frees at once all that every remaining receiver
      has read, while it retains everything some receiver still wants. */
  lemma ReadBacklogIsFreed(steps: seq<Step>, books: seq<Book>, k: nat, p: nat)
    requires Execution(steps, books) && k < |steps| && p <= |books[k].view.log|
    requires steps[k].Drop? || (steps[k].Read? && Present(books[k].view, steps[k].r) && books[k].view.base <= books[k].view.readers[steps[k].r].value < |books[k].view.log|)
    requires AllBeyond(books[k + 1].view, p)
    ensures books[k + 1].view.base >= p
    ensures var v, t := books[k].view, books[k + 1].view;
            forall r: nat {:trigger Present(t, r)} :: Present(t, r) && t.readers[r].value >= v.base ==> t.readers[r].value >= t.base
  {
    assert Next(books[k], steps[k], books[k + 1]);
    RunKeeps(steps, books, k);
    var v, r := books[k].view, steps[k].r;
    if steps[k].Read? {
      var moved := v.(readers := v.readers[r := Some(v.readers[r].value + 1)]);
      EarliestIsBeyond(moved, p);
      WantedIsEarliest(moved.readers, |moved.log|);
    } else {
      var gone := v.(readers := v.readers[r := None]);
      if !AllGone(gone.readers) { EarliestIsBeyond(gone, p); } else { NobodyWants(gone.readers, |gone.log|); }
      WantedIsEarliest(gone.readers, |gone.log|);
    }
  }

  /** In every run a preparation retires only what it must: everything from the reclaimed base
      on up to where it says, and it loses no more than that. */
  lemma PreparedIs(steps: seq<Step>, books: seq<Book>, k: nat, p: nat)
    requires Execution(steps, books) && k < |steps| && steps[k].Prepare?
    ensures var b, t := books[k], books[k + 1];
            && t.view == b.view.(base := steps[k].upto) && t.histories == b.histories
            && (p in t.lost <==> p in b.lost || Reclaimed(b.view) <= p < steps[k].upto)
  {
    assert Next(books[k], steps[k], books[k + 1]);
    LoseExactly(books[k].lost, Reclaimed(books[k].view), steps[k].upto);
  }

  /** In every run a departed receiver's slot is free, and the table goes with the last one. */
  lemma DroppedIsGone(steps: seq<Step>, books: seq<Book>, k: nat)
    requires Execution(steps, books) && k < |steps| && steps[k].Drop?
    ensures var v, t, r := books[k].view, books[k + 1].view, steps[k].r;
            && !Present(t, r) && t.log == v.log && t.closed == v.closed
            && (forall other: nat :: other != r ==> (Present(v, other) <==> Present(t, other)) && (Present(v, other) ==> t.readers[other] == v.readers[other]))
            && (AllGone(t.readers) ==> t.readers == [])
  {
    assert Next(books[k], steps[k], books[k + 1]);
    var v, r := books[k].view, steps[k].r;
    assert forall other: nat {:trigger Present(v, other)} :: other != r && Present(v, other) ==> v.readers[r := None][other].Some?;
  }
}
