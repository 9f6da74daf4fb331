/** What the client's inbox must keep (crates/ctxmux-client/src/attachment.rs:706-982). */
module EventRetention {
  import opened Wrappers
  import opened EventInboxes

  // EventInboxes shows that nothing is lost silently; here is what is not lost at all.
  // Everything is said of the bytes in the queue and of what the consumer will be shown.

  // ---------- Which events are accepted ----------

  predicate HasTerminal(events: seq<RunEvent>) { exists e :: e in events && (e.Exited? || e.Interrupted?) }

  predicate HasDiscontinuity(events: seq<RunEvent>) { ObservationDiscontinuity in events }

  predicate Closed(steps: seq<Step>) { exists i :: 0 <= i < |steps| && steps[i].Close? }

  /** The stages are those of the events accepted and of the steps taken. */
  ghost predicate StagesOk(steps: seq<Step>, r: Run) {
    && (r.state.sawTerminal <==> HasTerminal(r.pushed))
    && (r.state.sawDiscontinuity <==> HasDiscontinuity(r.pushed))
    && (r.state.closed <==> Closed(steps) || !r.state.local.Available?)
  }

  lemma StagesStep(limits: Limits, steps: seq<Step>, r: Run, step: Step)
    requires limits.slotBytes > 0 && Inv(limits, r) && StagesOk(steps, r)
    ensures StagesOk(steps + [step], Apply(limits, r, step))
  {
    var t := Apply(limits, r, step);
    ClosedGrows(steps, step);
    if step.Push? && !Rejected(r.state, step.event) {
      PushStages(r.state, limits, step.event, step.allocOk);
      assert t.pushed == r.pushed + [step.event];
      SeesGrow(r.pushed, step.event);
    }
  }

  lemma ClosedGrows(steps: seq<Step>, step: Step)
    ensures Closed(steps + [step]) <==> Closed(steps) || step.Close?
  {
    var more := steps + [step];
    if i :| 0 <= i < |steps| && steps[i].Close? { assert more[i].Close?; }
    assert more[|steps|] == step;
  }

  lemma SeesGrow(events: seq<RunEvent>, event: RunEvent)
    ensures HasTerminal(events + [event]) <==> HasTerminal(events) || event.Exited? || event.Interrupted?
    ensures HasDiscontinuity(events + [event]) <==> HasDiscontinuity(events) || event.ObservationDiscontinuity?
  {
    var more := events + [event];
    if e :| e in events && (e.Exited? || e.Interrupted?) { assert e in more; }
    assert event in more;
  }

  lemma {:induction false} RunStages(limits: Limits, steps: seq<Step>, runs: seq<Run>, k: nat)
    requires Execution(limits, steps, runs) && k < |runs|
    ensures StagesOk(steps[..k], runs[k])
  {
    if k > 0 {
      RunStages(limits, steps, runs, k - 1);
      RunKeeps(limits, steps, runs, k - 1);
      StagesStep(limits, steps[..k - 1], runs[k - 1], steps[k - 1]);
      assert steps[..k - 1] + [steps[k - 1]] == steps[..k];
    }
  }

  /** In every run an event is accepted exactly if the transport has not closed an intact
      view, no terminal event was accepted before, and after a discontinuity only a terminal
      one; whatever is not accepted changes nothing. */
  lemma AcceptedIff(limits: Limits, steps: seq<Step>, runs: seq<Run>, k: nat)
    requires Execution(limits, steps, runs) && k < |steps| && steps[k].Push?
    ensures var r, event := runs[k], steps[k].event;
            if (Closed(steps[..k]) && r.state.local.Available?) || HasTerminal(r.pushed)
               || (HasDiscontinuity(r.pushed) && !event.Exited? && !event.Interrupted?)
            then runs[k + 1] == r
            else runs[k + 1].pushed == r.pushed + [event] && runs[k + 1].delivered == r.delivered
  {
    RunStages(limits, steps, runs, k);
  }

  // ---------- What becomes of an accepted event ----------

  /** The consumer of an intact view gets the event itself next. */
  predicate Kept(before: State, after: State, event: RunEvent) {
    after.local.Available? && Pending(after) == Pending(before) + [event]
  }

  /** A gap that reaches this far for these causes comes last, in place of the one before. */
  predicate GapComesLast(before: State, after: State, head: nat, causes: set<Cause>) {
    && after.local.Available? && after.queue == before.queue
    && match before.pendingGap
       case None => after.pendingGap == Some(Gap(head, causes))
       case Some(Gap(reached, others)) => after.pendingGap == Some(Gap(if reached < head then head else reached, others + causes))
       case _ => false
  }

  /** The view ends with one discontinuity after all that was pending, and then the error. */
  predicate ViewEnds(before: State, after: State) {
    && after.local.LostMarkerPending? && after.closed && after.error == Some(ObservationUnavailable)
    && Pending(after) == Pending(before) + [ObservationDiscontinuity]
  }

  function GapCount(s: State): nat { if s.pendingGap.Some? then 1 else 0 }

  /** Bytes of all the spare capacities the view retains. */
  ghost function Spare(s: State): nat { SumEnvelope(s.queue) + if s.terminal.Some? then EnvelopeBytes(s.terminal.value) else 0 }

  /** The event fits: its bytes beside those queued, and a slot for everything queued, for
      the gap and for it, beside all spare bytes, without allocating or successfully. */
  ghost predicate FitsBytes(s: State, limits: Limits, event: RunEvent, allocOk: bool) {
    var needed := |s.queue| + GapCount(s) + 1;
    var slots := if needed < s.capacity then s.capacity else needed;
    && SumBytes(s.queue) + EventBytes(event) <= limits.payload
    && limits.inboxBytes + slots * limits.slotBytes + Spare(s) + EnvelopeBytes(event) <= limits.envelope
    && (needed <= s.capacity || allocOk)
  }

  lemma FitsMeansBytes(s: State, limits: Limits, event: RunEvent, allocOk: bool)
    requires Funded(s, limits)
    ensures Fits(s, limits, event, allocOk) <==> FitsBytes(s, limits, event, allocOk)
  {
    BackingIsProduct(Max(s.capacity, |s.queue| + (1 + GapSlots(s))), limits.slotBytes);
  }

  /** This snapshot only confirms more input of the command its predecessor was about. */
  predicate OnlyConfirms(a: Service, b: Service) {
    && a.revision < b.revision && a.confirmedBytes < b.confirmedBytes && b.unsettledCommands > 0
    && b == a.(revision := b.revision, confirmedBytes := b.confirmedBytes)
  }

  /** The newest thing pending is a snapshot that this event only confirms more of. */
  predicate Supersedes(s: State, event: RunEvent) {
    && s.pendingGap.None? && s.queue != [] && event.ServiceChanged? && s.queue[|s.queue| - 1].ServiceChanged?
    && OnlyConfirms(s.queue[|s.queue| - 1].service, event.service)
  }

  lemma AdvancesMeansConfirms(a: Service, b: Service)
    ensures Advances(a, b) <==> OnlyConfirms(a, b)
  {
  }

  predicate Grows(before: Run, after: Run) { after.pushed != before.pushed }

  /** In every run, for an accepted ordinary event in an intact view that supersedes no
      snapshot: it is kept exactly if it fits in bytes; an output that does not fit becomes
      gap up to its end, named as the client's own pressure; and anything else that does not
      fit ends the view. */
  lemma OrdinaryIsKeptIff(limits: Limits, steps: seq<Step>, runs: seq<Run>, k: nat)
    requires Execution(limits, steps, runs) && k < |steps| && steps[k].Push? && Grows(runs[k], runs[k + 1])
    requires runs[k].state.local.Available?
    requires var e := steps[k].event; !e.Gap? && !e.Exited? && !e.Interrupted? && !Supersedes(runs[k].state, e)
    ensures var s, t, event := runs[k].state, runs[k + 1].state, steps[k].event;
            if FitsBytes(s, limits, event, steps[k].allocOk) then Kept(s, t, event)
            else if event.Output? then GapComesLast(s, t, event.endByte, {ClientViewPressure})
            else ViewEnds(s, t)
  {
    RunKeeps(limits, steps, runs, k);
    OrdinaryPush(runs[k], limits, steps[k].event, steps[k].allocOk);
  }

  lemma OrdinaryPush(r: Run, limits: Limits, event: RunEvent, allocOk: bool)
    requires limits.slotBytes > 0 && Inv(limits, r) && r.state.local.Available? && !Rejected(r.state, event)
    requires !event.Gap? && !event.Exited? && !event.Interrupted? && !Supersedes(r.state, event)
    ensures var t := PushOn(r.state, limits, event, allocOk);
            if FitsBytes(r.state, limits, event, allocOk) then Kept(r.state, t, event)
            else if event.Output? then GapComesLast(r.state, t, event.endByte, {ClientViewPressure})
            else ViewEnds(r.state, t)
  {
    var s, seen := r.state, Seen(r.state, event);
    if s.queue != [] && event.ServiceChanged? && s.queue[|s.queue| - 1].ServiceChanged? {
      AdvancesMeansConfirms(s.queue[|s.queue| - 1].service, event.service);
    }
    FitsMeansBytes(seen, limits, event, allocOk);
    assert s.terminal.None?;
    assert Pending(seen) == Pending(s) == s.queue + Opt(s.pendingGap);
  }

  /** In every run a snapshot that only confirms more replaces its predecessor, at the same
      place; no other event ever replaces one. */
  lemma SupersedingReplaces(limits: Limits, steps: seq<Step>, runs: seq<Run>, k: nat)
    requires Execution(limits, steps, runs) && k < |steps| && steps[k].Push? && Grows(runs[k], runs[k + 1])
    requires runs[k].state.local.Available? && Supersedes(runs[k].state, steps[k].event)
    ensures var s, t := runs[k].state, runs[k + 1].state;
            Pending(s) != [] && Pending(t) == Pending(s)[..|Pending(s)| - 1] + [steps[k].event] && t.local.Available?
  {
    RunKeeps(limits, steps, runs, k);
    var s := runs[k].state;
    AdvancesMeansConfirms(s.queue[|s.queue| - 1].service, steps[k].event.service);
    assert s.terminal.None? && Pending(s) == s.queue;
  }

  /** In every run a gap from the daemon is never lost: it joins the pending gap. */
  lemma GapIsKept(limits: Limits, steps: seq<Step>, runs: seq<Run>, k: nat)
    requires Execution(limits, steps, runs) && k < |steps| && steps[k].Push? && Grows(runs[k], runs[k + 1])
    requires runs[k].state.local.Available? && steps[k].event.Gap?
    ensures GapComesLast(runs[k].state, runs[k + 1].state, steps[k].event.head, steps[k].event.causes)
  {
    RunKeeps(limits, steps, runs, k);
  }

  /** In every run the terminal event is kept exactly if its text fits beside what the view
      already retains, whether or not a queue slot can be had; otherwise the view ends. */
  lemma TerminalIsKeptIff(limits: Limits, steps: seq<Step>, runs: seq<Run>, k: nat)
    requires Execution(limits, steps, runs) && k < |steps| && steps[k].Push? && Grows(runs[k], runs[k + 1])
    requires runs[k].state.local.Available? && (steps[k].event.Exited? || steps[k].event.Interrupted?)
    ensures var s, t, event := runs[k].state, runs[k + 1].state, steps[k].event;
            if limits.inboxBytes + s.capacity * limits.slotBytes + Spare(s) + EnvelopeBytes(event) <= limits.envelope
            then Kept(s, t, event) else ViewEnds(s, t)
  {
    RunKeeps(limits, steps, runs, k);
    TerminalPush(runs[k], limits, steps[k].event, steps[k].allocOk);
  }

  lemma TerminalPush(r: Run, limits: Limits, event: RunEvent, allocOk: bool)
    requires limits.slotBytes > 0 && Inv(limits, r) && r.state.local.Available? && !Rejected(r.state, event) && IsTerminal(event)
    ensures var s, t := r.state, PushOn(r.state, limits, event, allocOk);
            if limits.inboxBytes + s.capacity * limits.slotBytes + Spare(s) + EnvelopeBytes(event) <= limits.envelope
            then Kept(s, t, event) else ViewEnds(s, t)
  {
    var s, seen := r.state, Seen(r.state, event);
    BackingIsProduct(s.capacity, limits.slotBytes);
    if Room(seen, limits, 1, EnvelopeBytes(event), allocOk) { RoomImpliesFunded(seen, limits, 1, EnvelopeBytes(event), allocOk); }
    assert s.terminal.None?;
    assert Pending(seen) == Pending(s) == s.queue + Opt(s.pendingGap);
  }

  /** In every run a kept terminal event waits beside the queue exactly if a gap is pending
      or the queue has no room for it: only then it takes no slot. */
  lemma TerminalIsQueuedIff(limits: Limits, steps: seq<Step>, runs: seq<Run>, k: nat)
    requires Execution(limits, steps, runs) && k < |steps| && steps[k].Push? && Grows(runs[k], runs[k + 1])
    requires runs[k].state.local.Available? && runs[k + 1].state.local.Available? && (steps[k].event.Exited? || steps[k].event.Interrupted?)
    ensures var s, t, event := runs[k].state, runs[k + 1].state, steps[k].event;
            if s.pendingGap.None? && SlotFits(s, limits, event, steps[k].allocOk)
            then t.queue == s.queue + [event] && t.terminal.None? else t.queue == s.queue && t.terminal == Some(event)
  {
    RunKeeps(limits, steps, runs, k);
    var s := runs[k].state;
    BackingIsProduct(Max(s.capacity, |s.queue| + 1), limits.slotBytes);
    assert s.terminal.None?;
  }

  /** One more slot beside all spare bytes, without allocating or successfully. */
  ghost predicate SlotFits(s: State, limits: Limits, event: RunEvent, allocOk: bool) {
    var needed := |s.queue| + 1;
    var slots := if needed < s.capacity then s.capacity else needed;
    && limits.inboxBytes + slots * limits.slotBytes + Spare(s) + EnvelopeBytes(event) <= limits.envelope
    && (needed <= s.capacity || allocOk)
  }

  /** In every run the backing grows only by an event that finds no free slot, and then at
      least doubles, unless one slot more would leave the envelope. */
  lemma BackingDoubles(limits: Limits, steps: seq<Step>, runs: seq<Run>, k: nat)
    requires Execution(limits, steps, runs) && k < |steps|
    ensures var s, t := runs[k].state, runs[k + 1].state;
            && t.capacity >= s.capacity
            && (t.capacity > s.capacity ==>
                  && steps[k].Push? && |s.queue| + GapCount(s) + 1 > s.capacity
                  && (t.capacity >= 2 * s.capacity
                      || limits.inboxBytes + (t.capacity + 1) * limits.slotBytes + Spare(s) + EnvelopeBytes(steps[k].event) > limits.envelope))
  {
    RunFits(limits, steps, runs, k);
    RunFits(limits, steps, runs, k + 1);
    var s, t := runs[k].state, runs[k + 1].state;
    if steps[k].Push? && !Rejected(s, steps[k].event) {
      PushGrows(s, limits, steps[k].event, steps[k].allocOk);
      GrownIs(s, limits, 1 + GapSlots(s), EnvelopeBytes(steps[k].event));
    }
  }

  lemma RunFits(limits: Limits, steps: seq<Step>, runs: seq<Run>, k: nat)
    requires Execution(limits, steps, runs) && k < |runs|
    ensures var s := runs[k].state; limits.slotBytes > 0 && |s.queue| <= s.capacity && s.envelopePayload == Spare(s)
  {
    RunKeeps(limits, steps, runs, k);
  }

  predicate GrownFor(s: State, t: State, limits: Limits, event: RunEvent)
    requires limits.slotBytes > 0
  {
    || t.capacity == s.capacity
    || (t.capacity == Grown(s, limits, 1 + GapSlots(s), EnvelopeBytes(event)) && |t.queue| == |s.queue| + 1 + GapSlots(s))
  }

  lemma OrdinaryGrows(s: State, limits: Limits, event: RunEvent, allocOk: bool)
    requires limits.slotBytes > 0
    ensures GrownFor(s, OrdinaryOn(s, limits, event, allocOk), limits, event)
  {
  }

  lemma TerminalGrows(s: State, limits: Limits, event: RunEvent, allocOk: bool)
    requires limits.slotBytes > 0
    ensures GrownFor(s, TerminalOn(s, limits, event, allocOk), limits, event)
  {
  }

  lemma PushGrows(s: State, limits: Limits, event: RunEvent, allocOk: bool)
    requires limits.slotBytes > 0
    ensures GrownFor(s, PushOn(s, limits, event, allocOk), limits, event)
  {
    var seen := Seen(s, event);
    OrdinaryGrows(seen, limits, event, allocOk);
    TerminalGrows(seen, limits, event, allocOk);
    assert GrownFor(seen, PushOn(s, limits, event, allocOk), limits, event);
  }

  lemma GrownIs(s: State, limits: Limits, slots: nat, payload: nat)
    requires limits.slotBytes > 0
    ensures var grown := Grown(s, limits, slots, payload);
            if |s.queue| + slots <= s.capacity then grown == s.capacity
            else grown >= 2 * s.capacity || limits.inboxBytes + (grown + 1) * limits.slotBytes + s.envelopePayload + payload > limits.envelope
  {
  }

  /** In every run the first close keeps the error it was given and everything pending; a
      later one changes nothing. */
  lemma CloseIs(limits: Limits, steps: seq<Step>, runs: seq<Run>, k: nat)
    requires Execution(limits, steps, runs) && k < |steps| && steps[k].Close?
    ensures var r, t := runs[k], runs[k + 1];
            t == if r.state.closed then r else r.(state := r.state.(closed := true, error := steps[k].error))
  {
  }

  /** In every run nothing accepted after the loss of the view changes what is shown. */
  lemma NothingAfterLoss(limits: Limits, steps: seq<Step>, runs: seq<Run>, k: nat)
    requires Execution(limits, steps, runs) && k < |steps| && steps[k].Push? && !runs[k].state.local.Available?
    ensures Pending(runs[k + 1].state) == Pending(runs[k].state) && runs[k + 1].state.local == runs[k].state.local
  {
    RunKeeps(limits, steps, runs, k);
  }

  /** In every run a poll hands out the first pending event and leaves the others in order;
      with nothing pending it reports the error once, then the end of a closed view, and
      otherwise that there is nothing yet. */
  lemma PollTakesFirst(limits: Limits, steps: seq<Step>, runs: seq<Run>, k: nat)
    requires Execution(limits, steps, runs) && k < |steps| && steps[k].Read?
    ensures var r, t, reading := runs[k], runs[k + 1], NextOf(runs[k].state).1;
            && t.pushed == r.pushed && t.account == r.account
            && t.state.error == (if Pending(r.state) != [] then r.state.error else None)
            && if Pending(r.state) != [] then
                 && reading == Got(Pending(r.state)[0]) && t.delivered == r.delivered + [Pending(r.state)[0]]
                 && Pending(t.state) == Pending(r.state)[1..]
               else
                 && t.delivered == r.delivered && Pending(t.state) == []
                 && reading == match r.state.error
                    case Some(error) => Failed(error)
                    case None => if r.state.closed then End else Wait
  {
    RunKeeps(limits, steps, runs, k);
    var s := runs[k].state;
    if Pending(s) != [] { NextDelivers(s, limits); }
    else { assert |s.queue| <= |Pending(s)|; }
  }
}
