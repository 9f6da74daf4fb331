/** What the attachment's client is sent, step by step (crates/ctxmux-daemon/src/attachment.rs:198-335,
  416-493, 723-895). */
module AttachmentDelivery {
  import opened Wrappers
  import opened AttachmentLoops
  import CommandRuns

  // AttachmentLoops bounds what may be shown; here is what must be.  Everything is said of
  // the frames on the wire and the loop's variables before and after one step of a run.

  /** `before` is an initial part of `wire`. */
  predicate Precedes(before: Wire, wire: Wire) { wire == before || (wire.Then? && Precedes(before, wire.before)) }

  predicate NothingOutstanding(s: State) { s.queues.admissions == [] && s.queues.results == [] }

  /** The terminal event was written last, or waits for what is outstanding. */
  predicate EndsWith(before: State, after: State, event: RunEvent) {
    if NothingOutstanding(before) then after.done && after.wire.Then? && after.wire.frame == EventFrame(event)
    else !after.done && after.controls.held == Some(event)
  }

  // ---------- Live events ----------

  /** In every run: a live event received without lag is written if the client has not been
      shown as much, and only then; the terminal event is written once nothing is
      outstanding; any other event is always written; and the cursor moves on. */
  lemma LiveIsWritten(steps: seq<Step>, states: seq<State>, k: nat)
    requires Execution(steps, states) && Initial(states[0]) && k < |steps|
    requires steps[k].Received? && steps[k].envelope.published.Live? && !states[k].view.lagged
    ensures var s, t, first, event := states[k], states[k + 1], states[0].view, steps[k].envelope.published.event;
            var written := Then(s.wire, EventFrame(event));
            && t.view.cursor == steps[k].envelope.after && t.queues == s.queues
            && match event {
                 case Output(endByte) =>
                   Shown(first.through, t.wire) >= endByte && t.wire == if endByte > Shown(first.through, s.wire) then written else s.wire
                 case Resized(revision) =>
                   Geometry(first.resize, t.wire) >= revision && t.wire == if revision > Geometry(first.resize, s.wire) then written else s.wire
                 case ServiceChanged(revision) =>
                   Revision(first.service, t.wire) >= revision && t.wire == if revision > Revision(first.service, s.wire) then written else s.wire
                 case Ended(_) => EndsWith(s, t, event) && t.wire == if NothingOutstanding(s) then written else s.wire
                 case Other(_) => t.wire == written
               }
  {
    RunKeeps(steps, states, k);
    NothingShownTwice(steps, states, k);
    NothingShownTwice(steps, states, k + 1);
  }

  /** The view was closed, has ended, or holds its terminal event. */
  predicate Withdrawn(s: State) { s.closed || s.done || s.controls.held.Some? }

  lemma {:induction false} CancelFollows(s: State)
    ensures var t := CancelOn(s); Precedes(s.wire, t.wire) && t.queues.admissions == [] && t.done == s.done && t.view == s.view && t.closed == s.closed
    decreases |s.queues.admissions|
  {
    if s.queues.admissions != [] {
      var u := CancelOne(s);
      CancelFollows(u);
      PrecedesOn(s.wire, u.wire, CancelOn(s).wire);
    }
  }

  lemma {:induction false} PrecedesOn(a: Wire, b: Wire, c: Wire)
    requires Precedes(a, b) && Precedes(b, c)
    ensures Precedes(a, c)
  {
    if b != c { PrecedesOn(a, b, c.before); }
  }

  predicate Advances(a: View, b: View) { b.through >= a.through && b.resize >= a.resize && b.service >= a.service }

  lemma RecoverAdvances(s: State, retained: Cursor, info: RunInfo)
    ensures Advances(s.view, RecoverOn(s, retained, info).view)
  {
  }

  lemma DeliverAdvances(s: State, envelope: Envelope)
    ensures Advances(s.view, DeliverOn(s, envelope).view)
  {
  }

  lemma ReceivedAdvances(s: State, envelope: Envelope, info: RunInfo)
    ensures Advances(s.view, ReceivedOn(s, envelope, info).view)
  {
    var before := s.(view := s.view.(lagged := false));
    var u := RecoverOn(before, RetainedAt(envelope), info);
    RecoverAdvances(before, RetainedAt(envelope), info);
    DeliverAdvances(s, envelope);
    DeliverAdvances(u, envelope);
    CancelFollows(u.(closed := true));
  }

  lemma StepAdvances(s: State, step: Step)
    requires Enabled(s, step)
    ensures Advances(s.view, Apply(s, step).view)
    ensures Withdrawn(s) ==> Withdrawn(Apply(s, step))
  {
    if step.Received? { ReceivedAdvances(s, step.envelope, step.info); }
  }

  lemma {:induction false} RunAdvances(steps: seq<Step>, states: seq<State>, i: nat, k: nat)
    requires Execution(steps, states) && i <= k < |states|
    ensures Advances(states[i].view, states[k].view)
    ensures Withdrawn(states[i]) ==> Withdrawn(states[k])
    decreases k
  {
    if i < k {
      RunAdvances(steps, states, i, k - 1);
      StepAdvances(states[k - 1], steps[k - 1]);
    }
  }

  /** What has been shown reaches this event, or the view is withdrawn. */
  predicate Reached(first: View, s: State, event: RunEvent) {
    || Withdrawn(s)
    || (event.Output? && Shown(first.through, s.wire) >= event.endByte)
    || (event.Resized? && Geometry(first.resize, s.wire) >= event.revision)
    || (event.ServiceChanged? && Revision(first.service, s.wire) >= event.revision)
  }

  predicate Tracked(event: RunEvent) { event.Output? || event.Resized? || event.ServiceChanged? }

  lemma ReceivedReaches(s: State, envelope: Envelope, info: RunInfo)
    requires envelope.published.Live? && Tracked(envelope.published.event)
    ensures var t, event := ReceivedOn(s, envelope, info), envelope.published.event;
            || Withdrawn(t)
            || (event.Output? && t.view.through >= event.endByte)
            || (event.Resized? && t.view.resize >= event.revision)
            || (event.ServiceChanged? && t.view.service >= event.revision)
  {
    var u := RecoverOn(s.(view := s.view.(lagged := false)), RetainedAt(envelope), info);
    CancelFollows(u.(closed := true));
  }

  /** In every run, lags and recoveries included: each output ever received is covered by an
      output or a gap on the wire from then on, each geometry and service revision by one at
      least as new, unless the view was closed, has ended or is about to. */
  lemma ReceivedIsShown(steps: seq<Step>, states: seq<State>, i: nat, k: nat)
    requires Execution(steps, states) && Initial(states[0]) && i < k < |states|
    requires steps[i].Received? && steps[i].envelope.published.Live? && Tracked(steps[i].envelope.published.event)
    ensures Reached(states[0].view, states[k], steps[i].envelope.published.event)
  {
    ReceivedReaches(states[i], steps[i].envelope, steps[i].info);
    RunAdvances(steps, states, i + 1, k);
    NothingShownTwice(steps, states, k);
  }

  // ---------- Lags ----------

  predicate LagStep(s: State, step: Step) {
    step.Received? && (s.view.lagged || step.envelope.published.SnapshotNeeded?)
  }

  /** What the retained log had published up to the point of the recovery. */
  function Retained(step: Step): Cursor
    requires step.Received?
  {
    if step.envelope.published.SnapshotNeeded? then step.envelope.after else step.envelope.before
  }

  lemma DeliverFollows(s: State, envelope: Envelope)
    ensures Precedes(s.wire, DeliverOn(s, envelope).wire)
  {
  }

  /** In every run: a lost observation is announced first; it closes the view of a running
      Run, with no admission left, and ends the view of any other with its terminal state. */
  lemma LostObservationIsTold(steps: seq<Step>, states: seq<State>, k: nat)
    requires Execution(steps, states) && Initial(states[0]) && k < |steps| && LagStep(states[k], steps[k])
    requires Retained(steps[k]).observation > states[k].view.cursor.observation
    ensures var s, t, info := states[k], states[k + 1], steps[k].info;
            && !t.view.lagged && Precedes(Then(s.wire, ObservationDiscontinuity), t.wire)
            && if info.running then t.closed && !t.done && t.queues.admissions == [] else EndsWith(s, t, Ended(info.ended))
  {
    var s := states[k];
    RunKeeps(steps, states, k);
    var u := RecoverOn(s.(view := s.view.(lagged := false)), RetainedAt(steps[k].envelope), steps[k].info);
    assert u.wire == Then(s.wire, ObservationDiscontinuity);
    CancelFollows(u.(closed := true));
  }

  /** In every run: the client loses output to a lag only behind a gap, with the exact head
      and exactly the causes there were, written before anything else. */
  lemma LostOutputIsGap(steps: seq<Step>, states: seq<State>, k: nat)
    requires Execution(steps, states) && Initial(states[0]) && k < |steps| && LagStep(states[k], steps[k])
    requires Retained(steps[k]).observation <= states[k].view.cursor.observation
    ensures var s, t, first, info := states[k], states[k + 1], states[0].view, steps[k].info;
            var seen, now := s.view.cursor, Retained(steps[k]);
            var marked, resized := now.discontinuity > seen.discontinuity, now.resize > Geometry(first.resize, s.wire);
            marked || resized || now.output > Shown(first.through, s.wire) ==>
              exists head, causes :: Precedes(Then(s.wire, Gap(head, causes)), t.wire)
                && head == Max(Max(now.output, if marked then now.discontinuityByte else 0), info.latest)
                && SubscriberLag in causes && (GeometryLag in causes <==> resized)
                && (LiveEventPressure in causes <==> now.causes.pressure > seen.causes.pressure)
                && (SourceDiscontinuity in causes <==> now.causes.source > seen.causes.source)
                && (UnknownCause in causes <==> now.causes.unknown > seen.causes.unknown)
  {
    var s, now, info := states[k], Retained(steps[k]), steps[k].info;
    RunKeeps(steps, states, k);
    NothingShownTwice(steps, states, k);
    if LostOutput(s.view, s.view.cursor, now) {
      var before := s.(view := s.view.(lagged := false));
      var gap := Then(s.wire, Gap(GapHead(s.view.cursor, now, info), LagCauses(s.view, now)));
      assert GapOn(before, now, info).wire == gap;
      ContinuesAfter(s, gap, steps[k]);
    }
  }

  lemma ContinuesAfter(s: State, gap: Wire, step: Step)
    requires LagStep(s, step) && !LostObservation(s.view.cursor, Retained(step))
    requires GapOn(s.(view := s.view.(lagged := false)), Retained(step), step.info).wire == gap
    ensures Precedes(gap, ReceivedOn(s, step.envelope, step.info).wire)
  {
    var before := s.(view := s.view.(lagged := false));
    var u := RecoverOn(before, Retained(step), step.info);
    assert Precedes(gap, u.wire);
    DeliverFollows(u, step.envelope);
    PrecedesOn(gap, u.wire, DeliverOn(u, step.envelope).wire);
    PrecedesOn(gap, u.wire, Then(u.wire, EventFrame(Ended(step.info.ended))));
  }

  /** The event of the recovery itself still reaches the client. */
  predicate FollowedBy(before: State, after: State, published: Published) {
    published.Live? ==>
      && (published.event.Other? ==> after.wire.Then? && after.wire.frame == EventFrame(published.event))
      && (published.event.Ended? ==> EndsWith(before, after, published.event))
  }

  /** The gaps and discontinuities on the wire. */
  function Marks(wire: Wire): nat {
    if !wire.Then? then 0 else Marks(wire.before) + if wire.frame.Gap? || wire.frame.ObservationDiscontinuity? then 1 else 0
  }

  lemma {:induction false} CancelMarksNothing(s: State)
    ensures Marks(CancelOn(s).wire) == Marks(s.wire)
    decreases |s.queues.admissions|
  {
    if s.queues.admissions != [] { CancelMarksNothing(CancelOne(s)); }
  }

  predicate LosesSomething(s: State, step: Step) {
    && LagStep(s, step)
    && var seen, now := s.view.cursor, Retained(step);
       || now.observation > seen.observation || now.discontinuity > seen.discontinuity
       || now.output > s.view.through || now.resize > s.view.resize
  }

  lemma RecoverMarks(s: State, retained: Cursor, info: RunInfo)
    ensures Marks(RecoverOn(s, retained, info).wire) ==
            Marks(s.wire) + if LostObservation(s.view.cursor, retained) || LostOutput(s.view, s.view.cursor, retained) then 1 else 0
  {
  }

  lemma DeliverMarksNothing(s: State, envelope: Envelope)
    ensures Marks(DeliverOn(s, envelope).wire) == Marks(s.wire)
  {
  }

  lemma ReceivedMarks(s: State, step: Step)
    requires step.Received?
    ensures Marks(ReceivedOn(s, step.envelope, step.info).wire) == Marks(s.wire) + if LosesSomething(s, step) then 1 else 0
  {
    var u := RecoverOn(s.(view := s.view.(lagged := false)), RetainedAt(step.envelope), step.info);
    RecoverMarks(s.(view := s.view.(lagged := false)), RetainedAt(step.envelope), step.info);
    CancelMarksNothing(u.(closed := true));
    DeliverMarksNothing(u, step.envelope);
    DeliverMarksNothing(s, step.envelope);
  }

  lemma StepMarks(s: State, step: Step)
    requires Enabled(s, step)
    ensures Marks(Apply(s, step).wire) == Marks(s.wire) + if LosesSomething(s, step) then 1 else 0
  {
    if step.Received? { ReceivedMarks(s, step); }
  }

  /** In every run: a gap or a discontinuity is written by exactly the receptions after a
      lag that lost an observation, output or a geometry the client was not shown. */
  lemma MarkedIffLost(steps: seq<Step>, states: seq<State>, k: nat)
    requires Execution(steps, states) && Initial(states[0]) && k < |steps|
    ensures var s, first := states[k], states[0].view;
            Marks(states[k + 1].wire) == Marks(s.wire) +
              if LagStep(s, steps[k])
                 && (|| Retained(steps[k]).observation > s.view.cursor.observation
                     || Retained(steps[k]).discontinuity > s.view.cursor.discontinuity
                     || Retained(steps[k]).output > Shown(first.through, s.wire)
                     || Retained(steps[k]).resize > Geometry(first.resize, s.wire))
              then 1 else 0
  {
    RunKeeps(steps, states, k);
    NothingShownTwice(steps, states, k);
    StepMarks(states[k], steps[k]);
  }

  /** In every run: after a lag what is shown reaches all that was retained, a newer service
      state is shown, and the end of the Run, if it was missed, ends the view; otherwise the
      cursor moves on with the event. */
  lemma LagCatchesUp(steps: seq<Step>, states: seq<State>, k: nat)
    requires Execution(steps, states) && Initial(states[0]) && k < |steps| && LagStep(states[k], steps[k])
    requires Retained(steps[k]).observation <= states[k].view.cursor.observation
    ensures var s, t, first, info := states[k], states[k + 1], states[0].view, steps[k].info;
            var seen, now := s.view.cursor, Retained(steps[k]);
            && !t.view.lagged && !t.closed
            && Shown(first.through, t.wire) >= now.output
            && (now.discontinuity > seen.discontinuity ==> Shown(first.through, t.wire) >= now.discontinuityByte)
            && (now.service > seen.service && info.service.Some? ==> Revision(first.service, t.wire) >= info.service.value)
            && (if now.terminal > seen.terminal && !info.running then EndsWith(s, t, Ended(info.ended))
                else t.view.cursor == steps[k].envelope.after && FollowedBy(s, t, steps[k].envelope.published))
  {
    RunKeeps(steps, states, k);
    NothingShownTwice(steps, states, k + 1);
    CatchesUp(states[k], steps[k]);
  }

  lemma CatchesUp(s: State, step: Step)
    requires LagStep(s, step) && !LostObservation(s.view.cursor, Retained(step)) && Open(s) && !s.closed && !s.done
    ensures var t, seen, now, info := ReceivedOn(s, step.envelope, step.info), s.view.cursor, Retained(step), step.info;
            && !t.view.lagged && !t.closed && t.view.through >= now.output
            && (now.discontinuity > seen.discontinuity ==> t.view.through >= now.discontinuityByte)
            && (now.service > seen.service && info.service.Some? ==> t.view.service >= info.service.value)
            && (if now.terminal > seen.terminal && !info.running then EndsWith(s, t, Ended(info.ended))
                else t.view.cursor == step.envelope.after && FollowedBy(s, t, step.envelope.published))
  {
    var before := s.(view := s.view.(lagged := false));
    var u := RecoverOn(before, Retained(step), step.info);
    RecoveryCovers(before, Retained(step), step.info);
    RecoverKeepsRest(before, Retained(step), step.info);
    DeliverAdvances(u, step.envelope);
  }

  lemma RecoverKeepsRest(s: State, retained: Cursor, info: RunInfo)
    ensures var t := RecoverOn(s, retained, info);
            && t == s.(wire := t.wire, view := t.view) && t.view.lagged == s.view.lagged && t.view.cursor == s.view.cursor
  {
  }

  // ---------- Commands ----------

  function UntouchedReply(c: Command): Reply { if c.isStop then Reply.Unknown else NotApplied }

  /** In every run: a command frame with a rising id joins the queue of an open view, or is
      answered at once with the disposition that is true of it; one whose id does not rise,
      or that meets a sealed daemon, ends the attachment. */
  lemma CommandIsTaken(steps: seq<Step>, states: seq<State>, k: nat)
    requires Execution(steps, states) && k < |steps| && steps[k].Incoming? && steps[k].frame.CommandFrame?
    ensures var s, t, c, fate := states[k], states[k + 1], steps[k].frame.command, steps[k].fate;
            var rises := match s.controls.lastId { case None => c.id == 1 case Some(last) => c.id > last };
            if !rises then t.done && t.wire == Then(s.wire, ErrorFrame)
            else if !s.closed && fate.Sealed? then t.done && t.wire == s.wire
            else
              && !t.done && t.controls.lastId == Some(c.id) && t.queues.seen == s.queues.seen + [c]
              && t.queues.results == s.queues.results && t.queues.entered == s.queues.entered
              && if !s.closed && fate.Queued? then t.wire == s.wire && t.queues.admissions == s.queues.admissions + [c]
                 else
                   && t.queues.admissions == s.queues.admissions
                   && t.wire == Then(s.wire, ResultOf(c, if s.closed || fate.NoMemory? then (if c.isStop then Reply.Unknown else NotApplied)
                                                         else if fate.RetryLater? then NotApplied else Invalid))
  {
  }

  /** The command frames of these steps, in order. */
  function CommandsIn(steps: seq<Step>): seq<Command> {
    if steps == [] then []
    else
      var last := steps[|steps| - 1];
      CommandsIn(steps[..|steps| - 1]) + if last.Incoming? && last.frame.CommandFrame? then [last.frame.command] else []
  }

  lemma {:induction false} CancelKeepsSeen(s: State)
    ensures CancelOn(s).queues.seen == s.queues.seen
    decreases |s.queues.admissions|
  {
    if s.queues.admissions != [] { CancelKeepsSeen(CancelOne(s)); }
  }

  lemma StepSees(s: State, step: Step)
    requires Enabled(s, step) && !Apply(s, step).done
    ensures Apply(s, step).queues.seen == s.queues.seen + if step.Incoming? && step.frame.CommandFrame? then [step.frame.command] else []
  {
    if step.Received? {
      var u := RecoverOn(s.(view := s.view.(lagged := false)), RetainedAt(step.envelope), step.info);
      CancelKeepsSeen(u.(closed := true));
    }
  }

  /** In every run that has not ended, the commands seen are exactly the command frames
      received, in order: none is forgotten, and RunKeeps accounts for each. */
  lemma {:induction false} EveryCommandIsSeen(steps: seq<Step>, states: seq<State>, k: nat)
    requires Execution(steps, states) && Initial(states[0]) && k < |states| && !states[k].done
    ensures states[k].queues.seen == CommandsIn(steps[..k])
  {
    if k > 0 {
      assert !states[k - 1].done;
      EveryCommandIsSeen(steps, states, k - 1);
      StepSees(states[k - 1], steps[k - 1]);
      assert steps[..k][..k - 1] == steps[..k - 1];
    }
  }

  /** In every run: a finished command's own outcome is the next frame; with it a held
      terminal event is written exactly if nothing is outstanding any more. */
  lemma OutcomeIsReported(steps: seq<Step>, states: seq<State>, k: nat)
    requires Execution(steps, states) && Initial(states[0]) && k < |steps| && steps[k].Complete?
    ensures var s, t := states[k], states[k + 1];
            && steps[k].k < |s.queues.results|
            && t.queues.results == s.queues.results[..steps[k].k] + s.queues.results[steps[k].k + 1..]
            && t.queues.admissions == s.queues.admissions && t.view == s.view
            && var reported := Then(s.wire, ResultOf(s.queues.results[steps[k].k], Settled(steps[k].outcome)));
               if s.controls.held.Some? && NothingOutstanding(t)
               then t.done && t.wire == Then(reported, EventFrame(s.controls.held.value))
               else !t.done && t.wire == reported && t.controls.held == s.controls.held
  {
    RunKeeps(steps, states, k);
    RunKeeps(steps, states, k + 1);
    StopsRemove(states[k].queues.results, steps[k].k);
  }

  /** The frames of cancelling these admissions. */
  function Refusals(wire: Wire, admissions: seq<Command>): Wire
    decreases |admissions|
  {
    if admissions == [] then wire else Refusals(Then(wire, ResultOf(admissions[0], UntouchedReply(admissions[0]))), admissions[1..])
  }

  /** Closing a view answers every unadmitted command, oldest first, with the disposition
      of a command that never reached the daemon, and touches nothing else. */
  lemma {:induction false} CancelAnswersInOrder(s: State)
    ensures var t := CancelOn(s);
            && t.wire == Refusals(s.wire, s.queues.admissions) && t.queues == s.queues.(admissions := [])
            && t == s.(wire := t.wire, queues := t.queues, controls := s.controls.(pendingStops := t.controls.pendingStops))
    decreases |s.queues.admissions|
  {
    if s.queues.admissions != [] { CancelAnswersInOrder(CancelOne(s)); }
  }

  /** The other steps, in every run: the oldest admission enters the daemon, a detach is
      acknowledged and ends the view, a frame out of place is refused, and a lag is
      remembered until the next event. */
  lemma OtherSteps(steps: seq<Step>, states: seq<State>, k: nat)
    requires Execution(steps, states) && k < |steps|
    ensures var s, t := states[k], states[k + 1];
            && (steps[k].AdmitFront? ==>
                  && s.queues.admissions != [] && t.queues.admissions == s.queues.admissions[1..]
                  && t.queues.results == s.queues.results + [s.queues.admissions[0]]
                  && t.queues.entered == s.queues.entered + [s.queues.admissions[0]] && t.wire == s.wire && t.view == s.view && !t.done)
            && (steps[k] == Lag ==> t == s.(view := s.view.(lagged := true)))
            && (steps[k].Incoming? && steps[k].frame.Detach? ==> t.done && t.wire == Then(s.wire, DetachAck))
            && (steps[k].Incoming? && steps[k].frame.Misplaced? ==> t == s.(wire := Then(s.wire, ErrorFrame)))
            && (steps[k].Incoming? && steps[k].frame.Eof? ==> t == s.(done := true))
            && (steps[k] == SourceClosed || steps[k] == Finish ==> t == s.(done := true))
  {
  }
}
