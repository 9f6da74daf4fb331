/** The Run-local live event journal (crates/ctxmux-daemon/src/live_event_journal.rs).

  One inline slot plus a funded deque, reader cursors, and retirement under byte
  pressure.  Each method is one lock section; `Model()` is the state the model in
  JournalModel speaks about.
 */
module Journals {
  import opened Wrappers
  import opened ByteBudgets
  import opened JournalModel
  import opened JournalRuns

  /** Bytes of the payload permits held by a run of events. */
  function Payload(events: seq<Event>): nat {
    if events == [] then 0 else events[0].payload + Payload(events[1..])
  }

  lemma {:induction false} PayloadAppend(events: seq<Event>, event: Event)
    ensures Payload(events + [event]) == Payload(events) + event.payload
  {
    if events == [] {
      assert events + [event] == [event];
    } else {
      PayloadAppend(events[1..], event);
      assert (events + [event])[1..] == events[1..] + [event];
    }
  }

  function Contents(first: Option<Event>, rest: seq<Event>): seq<Event> {
    (if first.Some? then [first.value] else []) + rest
  }

  /** The inline slot and the deque hold exactly the log from `base` on, and an
      empty journal owns no container. */
  ghost predicate Retains(first: Option<Event>, rest: seq<Event>, capacity: nat, base: nat, log: seq<Event>) {
    && base <= |log|
    && Contents(first, rest) == log[base..]
    && (first.None? ==> rest == [] && capacity == 0)
    && |rest| <= capacity
  }

  lemma OldestRetired(first: Option<Event>, rest: seq<Event>, capacity: nat, base: nat, log: seq<Event>)
    requires Retains(first, rest, capacity, base, log) && first.Some?
    ensures base < |log| && first.value == log[base]
    ensures Payload(log[base..]) == first.value.payload + Payload(log[base + 1..])
    ensures (rest == []) == (base + 1 == |log|)
    ensures Retains(if rest == [] then None else Some(rest[0]), if rest == [] then [] else rest[1..],
                    if rest == [] then 0 else capacity, base + 1, log)
  {
    assert log[base..][0] == first.value && log[base..][1..] == log[base + 1..] == rest;
  }

  /** Some event at from..upto carried output. */
  ghost predicate LostOutput(log: seq<Event>, from: nat, upto: nat)
    requires upto <= |log|
  {
    from < upto && (log[upto - 1].output || LostOutput(log, from, upto - 1))
  }

  lemma {:induction false} LossesJoin(log: seq<Event>, lost: set<nat>, from: nat, mid: nat, upto: nat)
    requires from <= mid <= upto <= |log|
    ensures LostOutput(log, from, upto) <==> LostOutput(log, from, mid) || LostOutput(log, mid, upto)
    ensures Lose(lost, from, upto) == Lose(Lose(lost, from, mid), mid, upto)
  {
    if mid < upto { LossesJoin(log, lost, from, mid, upto - 1); }
  }

  lemma {:induction false} LostOutputMeans(log: seq<Event>, from: nat, upto: nat)
    requires upto <= |log|
    ensures LostOutput(log, from, upto) <==> exists p :: from <= p < upto && log[p].output
  {
    if from < upto {
      LostOutputMeans(log, from, upto - 1);
      assert log[upto - 1].output ==> from <= upto - 1 < upto && log[upto - 1].output;
    }
  }

  /** Bytes of a container with `capacity` slots. */
  function SlotsBytes(capacity: nat, slot: nat): nat {
    if capacity == 0 then 0 else SlotsBytes(capacity - 1, slot) + slot
  }

  lemma {:induction false} SlotsBytesAre(capacity: nat, slot: nat)
    ensures SlotsBytes(capacity, slot) == capacity * slot
  {
    if capacity > 0 { SlotsBytesAre(capacity - 1, slot); }
  }

  function Doubled(capacity: nat): nat {
    if capacity == 0 then 1 else 2 * capacity
  }


  /** What the journal's mutex protects. */
  datatype State = State(
    first: Option<Event>,
    rest: seq<Event>,
    restCapacity: nat,
    restMemory: nat,       // bytes of the permit behind the deque
    base: nat,
    next: nat,
    readers: seq<Option<nat>>,
    readersCapacity: nat,
    readersMemory: nat,    // bytes of the permit behind the reader slots
    receiverCount: nat,
    closed: bool,
    cloned: set<nat>)      // positions of which a delivered clone lives on outside

  /** The past of the journal: every accepted event, the positions retired under
      pressure, and one history for each reader slot. */
  datatype Past = Past(log: seq<Event>, lost: set<nat>, histories: seq<History>)

  ghost function ViewOf(s: State, past: Past): View {
    View(past.log, s.base, s.readers, s.closed)
  }

  /** What holds inside a lock section too. */
  ghost predicate Core(s: State, past: Past) {
    && s.next == |past.log|
    && Retains(s.first, s.rest, s.restCapacity, s.base, past.log)
    && ReadersOk(s.readers, past.histories, past.log, past.lost, s.base)
    && |s.readers| <= s.readersCapacity
    && s.receiverCount == Live(s.readers)
  }

  ghost predicate Settled(s: State) {
    s.receiverCount == 0 ==> s.base == s.next && s.readers == [] && s.readersCapacity == 0
  }

  /** `send` will find a slot: the inline one, or an unused funded one. */
  predicate SlotReady(s: State) {
    s.first.None? || |s.rest| < s.restCapacity
  }

  /** Bytes of every permit the state owns. */
  ghost function Owned(s: State, past: Past): nat
    requires s.base <= |past.log|
  {
    s.restMemory + s.readersMemory + Payload(past.log[s.base..])
  }

  /** The past after from..upto was retired under pressure. */
  ghost function LosePast(past: Past, from: nat, upto: nat): Past {
    past.(lost := Lose(past.lost, from, upto))
  }

  lemma LoseOne(past: Past, base: nat)
    requires base <= |past.log|
    ensures LosePast(past, base, base) == past && !LostOutput(past.log, base, base)
    ensures LosePast(past, base, base + 1) == RetirePast(past, base, true)
    ensures base < |past.log| ==> LostOutput(past.log, base, base + 1) == past.log[base].output
  {
    assert Lose(past.lost, base, base + 1) == Lose(past.lost, base, base) + {base};
  }

  ghost function RetirePast(past: Past, base: nat, pressure: bool): Past {
    past.(lost := LostAfter(past.lost, base, pressure))
  }

  /** Appending to whichever of the two places `send` picks keeps the state exact. */
  lemma EventAccepted(s: State, past: Past, event: Event)
    requires Core(s, past) && SlotReady(s)
    ensures var t := if s.first.None? then s.(first := Some(event), next := s.next + 1)
                     else s.(rest := s.rest + [event], next := s.next + 1);
            var now := past.(log := past.log + [event]);
            Core(t, now) && Owned(t, now) == Owned(s, past) + event.payload
  {
    var log := past.log + [event];
    PayloadAppend(past.log[s.base..], event);
    assert log[s.base..] == past.log[s.base..] + [event];
    ReadersKept(s.readers, past.histories, past.log, past.lost, s.base, log);
  }

  /** Retire the oldest event. `refund` is released to the budget; `moved` stays
      funded by whoever still holds a clone. */
  method Retire(s: State, ghost past: Past, ghost pressure: bool)
    returns (t: State, output: bool, refund: nat, ghost moved: nat)
    requires Core(s, past) && s.first.Some?
    requires pressure || AllPast(s.readers, s.base)
    ensures Core(t, RetirePast(past, s.base, pressure)) && SlotReady(t)
    ensures t == s.(first := t.first, rest := t.rest, base := s.base + 1,
                    restCapacity := if s.rest == [] then 0 else s.restCapacity,
                    restMemory := if s.rest == [] then 0 else s.restMemory)
    ensures output == past.log[s.base].output
    ensures Owned(s, past) == Owned(t, past) + refund + moved
    ensures moved == if s.base in s.cloned then past.log[s.base].payload else 0
  {
    OldestRetired(s.first, s.rest, s.restCapacity, s.base, past.log);
    ReadersRetire(s.readers, past.histories, past.log, past.lost, s.base, pressure);
    var retired := s.first.value;
    output := retired.output;
    refund, moved := if s.base in s.cloned then 0 else retired.payload, if s.base in s.cloned then retired.payload else 0;
    if s.rest == [] {
      // The backlog has disappeared: release its container, too.
      t := s.(first := None, base := s.base + 1, restCapacity := 0, restMemory := 0);
      refund := refund + s.restMemory;
    } else {
      t := s.(first := Some(s.rest[0]), rest := s.rest[1..], base := s.base + 1);
    }
  }

  /** The deque keeps its container, or has none because it is empty. */
  ghost predicate SameContainer(s: State, t: State) {
    || (t.restCapacity == s.restCapacity && t.restMemory == s.restMemory)
    || (t.first.None? && t.restCapacity == 0 && t.restMemory == 0)
  }

  /** Retire what no receiver wants any more. */
  method Reclaim(s: State, ghost past: Past) returns (t: State, refund: nat, ghost moved: nat)
    requires Core(s, past)
    ensures Core(t, past)
    ensures ViewOf(t, past) == ViewOf(s, past).(base := Reclaimed(ViewOf(s, past)))
    ensures t == s.(first := t.first, rest := t.rest, base := t.base, restCapacity := t.restCapacity, restMemory := t.restMemory)
    ensures Owned(s, past) == Owned(t, past) + refund + moved
    ensures SlotReady(s) ==> SlotReady(t)
    ensures SameContainer(s, t)
  {
    var through := s.next;
    for i := |s.readers| downto 0
      invariant through == Wanted(s.readers[i..], s.next)
    {
      if s.readers[i].Some? && s.readers[i].value <= through {
        through := s.readers[i].value;
      }
    }
    assert s.readers[0..] == s.readers;
    WantedIsEarliest(s.readers, s.next);
    t, refund, moved := s, 0, 0;
    while t.base < through
      invariant Core(t, past)
      invariant s.base <= t.base <= if s.base < through then through else s.base
      invariant t == s.(first := t.first, rest := t.rest, base := t.base, restCapacity := t.restCapacity, restMemory := t.restMemory)
      invariant Owned(s, past) == Owned(t, past) + refund + moved
      invariant SlotReady(s) ==> SlotReady(t)
      invariant SameContainer(s, t)
      decreases through - t.base
    {
      var output, freed;
      ghost var kept;
      t, output, freed, kept := Retire(t, past, false);
      refund, moved := refund + freed, moved + kept;
    }
  }

  /** The first free reader slot, or the end of the table. */
  method FreeSlot(readers: seq<Option<nat>>) returns (index: nat)
    ensures index <= |readers|
    ensures if index < |readers| then readers[index].None? else None !in readers
  {
    index := 0;
    while index < |readers| && readers[index].Some?
      invariant index <= |readers|
      invariant None !in readers[..index]
    {
      index := index + 1;
    }
    assert readers[..|readers|] == readers;
  }

  class Journal {
    const budget: ByteBudget
    const sharedBytes: nat   // size of the shared allocation
    const slotBytes: nat     // size of one deque slot
    const readerBytes: nat   // size of one reader slot
    var state: State
    ghost var past: Past
    ghost var elsewhere: nat // bytes of all permits owned outside the journal

    ghost function Model(): View
      reads this
    {
      ViewOf(state, past)
    }

    /** The journal with its past, as the run machine of JournalRuns speaks about it. */
    ghost function Now(): Book
      reads this
    {
      Book(Model(), past.lost, past.histories)
    }

    ghost predicate Valid()
      reads this, budget
    {
      && budget.Valid()
      && Core(state, past)
      && Settled(state)
      && state.restMemory == SlotsBytes(state.restCapacity, slotBytes)
      && state.readersMemory == SlotsBytes(state.readersCapacity, readerBytes)
      && budget.used == sharedBytes + Owned(state, past) + elsewhere
    }

    constructor (budget: ByteBudget, sharedBytes: nat, slotBytes: nat, readerBytes: nat, ghost elsewhere: nat)
      requires budget.Valid() && budget.used == sharedBytes + elsewhere
      ensures Valid() && SlotReady(state) && Model() == View([], 0, [], false)
      ensures this.budget == budget && this.elsewhere == elsewhere
      ensures this.sharedBytes == sharedBytes && this.slotBytes == slotBytes && this.readerBytes == readerBytes
    {
      this.budget, this.sharedBytes, this.slotBytes, this.readerBytes := budget, sharedBytes, slotBytes, readerBytes;
      state := State(None, [], 0, 0, 0, 0, [], 0, 0, 0, false, {});
      past := Past([], {}, []);
      this.elsewhere := elsewhere;
    }

    /** Replace a full container by one of twice its capacity, funding the new one
        while the old one is still owned. */
    method Grow(memory: nat, bytes: nat, allocOk: bool) returns (grown: bool)
      requires budget.Valid() && memory <= budget.used
      modifies budget
      ensures budget.Valid()
      ensures grown == (allocOk && old(budget.used) + bytes <= budget.limit)
      ensures budget.used == if grown then old(budget.used) + bytes - memory else old(budget.used)
    {
      grown := budget.Reserve(bytes);
      if grown {
        if allocOk {
          budget.Release(memory);
        } else {
          budget.Release(bytes);
          grown := false;
        }
      }
    }

    /** Register a receiver at the present end of the log. */
    method Subscribe(allocOk: bool) returns (reader: Option<nat>)
      requires Valid()
      modifies this, budget
      ensures Valid() && elsewhere == old(elsewhere)
      ensures reader.None? ==> state == old(state) && past == old(past) && budget.used == old(budget.used)
      ensures reader.Some? ==> reader.value <= |old(state).readers| && Model() == old(Model()).(readers := WithReader(old(state).readers, reader.value, Some(old(state).next)))
      ensures reader.Some? ==> reader.value <= |old(past).histories| && past == old(past).(histories := WithReader(old(past).histories, reader.value, Subscribed(old(state).next)))
      ensures reader.Some? && reader.value < |old(state).readers| ==> old(state).readers[reader.value].None?
      ensures reader.Some? ==> Next(old(Now()), Step.Subscribe(reader.value), Now())
      ensures old(SlotReady(state)) ==> SlotReady(state)
      ensures reader.None? <==> (old(state).closed ||
                (None !in old(state).readers && |old(state).readers| == old(state).readersCapacity
                 && !(allocOk && old(budget.used) + SlotsBytes(Doubled(old(state).readersCapacity), readerBytes) <= budget.limit)))
    {
      if state.closed {
        return None;
      }
      var index := FreeSlot(state.readers);
      if index == |state.readers| == state.readersCapacity {
        var bytes := SlotsBytes(Doubled(state.readersCapacity), readerBytes);
        var grown := Grow(state.readersMemory, bytes, allocOk);
        if !grown {
          return None;
        }
        state := state.(readersCapacity := Doubled(state.readersCapacity), readersMemory := bytes);
      }
      JoinIsStep(Now(), index);
      ReaderJoins(state.readers, past.histories, index, past.log, past.lost, state.base);
      past := past.(histories := WithReader(past.histories, index, Subscribed(state.next)));
      state := state.(readers := WithReader(state.readers, index, Some(state.next)), receiverCount := state.receiverCount + 1);
      reader := Some(index);
    }

    /** Make room for one event before its cursor is created. */
    method Prepare(allocation: Option<nat>, allocOk: bool) returns (memory: bool, retiredOutput: bool)
      requires Valid()
      modifies this, budget
      ensures Valid() && SlotReady(state)
      ensures Reclaimed(old(Model())) <= state.base
      ensures Model() == old(Model()).(base := state.base)
      ensures past == LosePast(old(past), Reclaimed(old(Model())), state.base)
      ensures retiredOutput <==> LostOutput(past.log, Reclaimed(old(Model())), state.base)
      ensures !state.closed ==> Next(old(Now()), Step.Prepare(state.base), Now())
      // Without pressure nothing that a receiver still wants is retired.
      ensures (allocOk && old(budget.used) + SlotsBytes(Doubled(old(state).restCapacity), slotBytes)
                          + (if allocation.Some? then allocation.value else 0) <= budget.limit)
              ==> state.base == Reclaimed(old(Model())) && memory == allocation.Some?
      // The payload is funded unless even an empty journal leaves no room for it.
      ensures memory ==> allocation.Some? && elsewhere >= allocation.value
      ensures allocation.Some? && !memory ==> state.base == state.next && budget.used + allocation.value > budget.limit
    {
      InvIsValid(Now());
      retiredOutput := PrepareSlot(allocOk);
      memory := false;
      if allocation.Some? {
        ghost var slotReadyAt := state.base;
        var output;
        memory, output := FundPayload(allocation.value);
        LossesJoin(past.log, old(past).lost, Reclaimed(old(Model())), slotReadyAt, state.base);
        retiredOutput := retiredOutput || output;
      }
    }

    /** Reclaim, then grow the full deque or give up its oldest event. */
    method PrepareSlot(allocOk: bool) returns (retiredOutput: bool)
      requires Valid()
      modifies this, budget
      ensures Valid() && SlotReady(state)
      ensures Reclaimed(old(Model())) <= state.base
      ensures Model() == old(Model()).(base := state.base)
      ensures past == LosePast(old(past), Reclaimed(old(Model())), state.base)
      ensures retiredOutput <==> LostOutput(past.log, Reclaimed(old(Model())), state.base)
      ensures budget.used <= old(budget.used) + SlotsBytes(Doubled(old(state).restCapacity), slotBytes)
      ensures allocOk && old(budget.used) + SlotsBytes(Doubled(old(state).restCapacity), slotBytes) <= budget.limit
              ==> state.base == Reclaimed(old(Model()))
    {
      ReclaimNow();
      LoseOne(past, state.base);
      retiredOutput := false;
      if state.first.Some? && |state.rest| == state.restCapacity {
        var bytes := SlotsBytes(Doubled(state.restCapacity), slotBytes);
        var grown := Grow(state.restMemory, bytes, allocOk);
        if grown {
          state := state.(restCapacity := Doubled(state.restCapacity), restMemory := bytes);
        } else {
          retiredOutput := RetireNow();
        }
      }
    }

    /** Reserve a payload, retiring the oldest event after each refusal. */
    method FundPayload(bytes: nat) returns (memory: bool, retiredOutput: bool)
      requires Valid() && SlotReady(state)
      modifies this, budget
      ensures Valid() && SlotReady(state) && old(state).base <= state.base
      ensures Model() == old(Model()).(base := state.base)
      ensures past == LosePast(old(past), old(state).base, state.base)
      ensures retiredOutput <==> LostOutput(past.log, old(state).base, state.base)
      ensures old(budget.used) + bytes <= budget.limit ==> memory && state.base == old(state).base
      ensures memory ==> elsewhere >= bytes
      ensures !memory ==> state.base == state.next && budget.used + bytes > budget.limit
    {
      ghost var from, was, view := state.base, past, Model();
      LoseOne(past, from);
      retiredOutput := false;
      memory := ReserveElsewhere(bytes);
      while !memory && state.first.Some?
        invariant Valid() && SlotReady(state)
        invariant from <= state.base <= |was.log|
        invariant Model() == view.(base := state.base)
        invariant past == LosePast(was, from, state.base)
        invariant retiredOutput == LostOutput(was.log, from, state.base)
        invariant memory ==> elsewhere >= bytes
        invariant !memory ==> budget.used + bytes > budget.limit
        invariant state.base > from || !memory ==> old(budget.used) + bytes > budget.limit
        decreases state.next - state.base
      {
        memory, retiredOutput := RetireAndRetry(bytes, retiredOutput, was, from);
      }
    }

    /** One turn of that loop. */
    method RetireAndRetry(bytes: nat, retired: bool, ghost was: Past, ghost from: nat) returns (memory: bool, retiredOutput: bool)
      requires Valid() && state.first.Some? && from <= state.base && past == LosePast(was, from, state.base)
      requires retired == LostOutput(was.log, from, state.base)
      modifies this, budget
      ensures Valid() && SlotReady(state)
      ensures state.base == old(state).base + 1
      ensures Model() == old(Model()).(base := state.base)
      ensures past == LosePast(was, from, state.base)
      ensures retiredOutput == LostOutput(was.log, from, state.base)
      ensures memory ==> elsewhere >= bytes
      ensures !memory ==> budget.used + bytes > budget.limit
    {
      var output := RetireNow();
      retiredOutput := retired || output;
      memory := ReserveElsewhere(bytes);
    }

    /** Retire the oldest event under pressure. */
    method RetireNow() returns (output: bool)
      requires Valid() && state.first.Some?
      modifies this, budget
      ensures Valid() && SlotReady(state)
      ensures state.next == old(state).next && Model() == old(Model()).(base := old(state).base + 1)
      ensures past == RetirePast(old(past), old(state).base, true)
      ensures output == past.log[old(state).base].output
      ensures budget.used <= old(budget.used)
    {
      var t, refund;
      ghost var moved;
      t, output, refund, moved := Retire(state, past, true);
      past := RetirePast(past, state.base, true);
      state, elsewhere := t, elsewhere + moved;
      budget.Release(refund);
    }

    method ReclaimNow()
      requires budget.Valid() && Core(state, past)
      requires state.restMemory == SlotsBytes(state.restCapacity, slotBytes)
      requires budget.used == sharedBytes + Owned(state, past) + elsewhere
      modifies this`state, this`elsewhere, budget
      ensures budget.Valid() && Core(state, past)
      ensures state.restMemory == SlotsBytes(state.restCapacity, slotBytes)
      ensures budget.used == sharedBytes + Owned(state, past) + elsewhere
      ensures Model() == old(Model()).(base := Reclaimed(old(Model())))
      ensures state.readersCapacity == old(state).readersCapacity && state.readersMemory == old(state).readersMemory
      ensures state.receiverCount == old(state).receiverCount && state.cloned == old(state).cloned
      ensures budget.used <= old(budget.used)
      ensures old(SlotReady(state)) ==> SlotReady(state)
      ensures state.first.Some? ==> state.restCapacity == old(state).restCapacity
    {
      var t, refund;
      ghost var moved;
      t, refund, moved := Reclaim(state, past);
      state, elsewhere := t, elsewhere + moved;
      budget.Release(refund);
    }

    /** Append one prepared event for the present receivers. */
    method Send(event: Event)
      requires Valid() && SlotReady(state) && event.payload <= elsewhere
      requires state.next < U64_MAX
      modifies this, budget
      ensures Valid()
      ensures past == if old(state).closed || old(state).receiverCount == 0 then old(past)
                      else old(past).(log := old(past).log + [event])
      ensures Model() == old(Model()).(log := past.log)
      ensures elsewhere == old(elsewhere) - event.payload
      ensures if past == old(past) then Now() == old(Now()) else Next(old(Now()), Step.Send(event), Now())
    {
      InvIsValid(Now());
      LiveZero(state.readers);
      elsewhere := elsewhere - event.payload;
      if state.closed || state.receiverCount == 0 {
        budget.Release(event.payload);
        return;
      }
      EventAccepted(state, past, event);
      if state.first.None? {
        state := state.(first := Some(event), next := state.next + 1);
      } else {
        assert |state.rest| < state.restCapacity;  // the source's slot assertion
        state := state.(rest := state.rest + [event], next := state.next + 1);
      }
      past := past.(log := past.log + [event]);
    }

    /** One read by receiver r. */
    method TryRecv(r: nat) returns (outcome: Recv)
      requires Valid() && r < |state.readers| && state.readers[r].Some?
      modifies this, budget
      ensures Valid()
      ensures Model() == Receive(old(Model()), r).0
      ensures outcome == Receive(old(Model()), r).1
      ensures past == old(past).(histories := Recorded(old(past).histories, r, outcome))
      ensures Next(old(Now()), Step.Read(r), Now())
      ensures state.cloned == if outcome.Got? then old(state).cloned + {old(state).readers[r].value} else old(state).cloned
      ensures old(SlotReady(state)) ==> SlotReady(state)
    {
      ReadIsStep(Now(), r);
      var position := state.readers[r].value;
      assert ReaderOk(state.readers[r], past.histories[r], past.log, past.lost, state.base);
      if position < state.base {
        outcome := Lagged(state.base - position);
        CatchUp(r);
        return;
      }
      if position == state.next {
        return if state.closed then Closed else Empty;
      }
      var event := Advance(r);
      outcome := Got(event);
    }

    /** Move a receiver that fell behind to the oldest retained event. */
    method CatchUp(r: nat)
      requires Valid() && r < |state.readers| && state.readers[r].Some? && state.readers[r].value < state.base
      modifies this
      ensures Valid() && elsewhere == old(elsewhere)
      ensures state == old(state).(readers := old(state).readers[r := Some(old(state).base)])
      ensures past == old(past).(histories := old(past).histories[r := Skipped(old(past).histories[r], old(state).base)])
    {
      assert ReaderOk(state.readers[r], past.histories[r], past.log, past.lost, state.base);
      ReaderMoves(state.readers, past.histories, r, Skipped(past.histories[r], state.base), past.log, past.lost, state.base);
      past := past.(histories := past.histories[r := Skipped(past.histories[r], state.base)]);
      state := state.(readers := state.readers[r := Some(state.base)]);
    }

    /** Hand the event at its position to receiver r. */
    method Advance(r: nat) returns (event: Event)
      requires Valid() && r < |state.readers| && state.readers[r].Some? && state.base <= state.readers[r].value < state.next
      modifies this, budget
      ensures Valid()
      ensures event == old(past).log[old(state).readers[r].value]
      ensures state.readers == old(state).readers[r := Some(old(state).readers[r].value + 1)]
      ensures state.closed == old(state).closed
      ensures state.base == Reclaimed(View(past.log, old(state).base, state.readers, state.closed))
      ensures past == old(past).(histories := Recorded(old(past).histories, r, Got(event)))
      ensures state.cloned == old(state).cloned + {old(state).readers[r].value}
      ensures old(SlotReady(state)) ==> SlotReady(state)
    {
      event := HandOver(r);
      ReclaimNow();
    }

    /** The event at its position, and the receiver one further. */
    method HandOver(r: nat) returns (event: Event)
      requires Valid() && r < |state.readers| && state.readers[r].Some? && state.base <= state.readers[r].value < state.next
      modifies this
      ensures Valid() && elsewhere == old(elsewhere)
      ensures event == old(past).log[old(state).readers[r].value]
      ensures state == old(state).(readers := old(state).readers[r := Some(old(state).readers[r].value + 1)],
                                   cloned := old(state).cloned + {old(state).readers[r].value})
      ensures past == old(past).(histories := Recorded(old(past).histories, r, Got(event)))
    {
      var position := state.readers[r].value;
      var offset := position - state.base;
      assert Contents(state.first, state.rest)[offset] == past.log[state.base..][offset] == past.log[position];
      assert ReaderOk(state.readers[r], past.histories[r], past.log, past.lost, state.base);
      event := if offset == 0 then state.first.value else state.rest[offset - 1];
      ReaderMoves(state.readers, past.histories, r, Delivered(past.histories[r], event), past.log, past.lost, state.base);
      past := past.(histories := past.histories[r := Delivered(past.histories[r], event)]);
      state := state.(readers := state.readers[r := Some(position + 1)], cloned := state.cloned + {position});
    }

    /** A receiver goes away. */
    method DropReceiver(r: nat)
      requires Valid() && r < |state.readers| && state.readers[r].Some?
      modifies this, budget
      ensures Valid()
      ensures Model() == Leave(old(Model()), r)
      ensures state.receiverCount == old(state).receiverCount - 1
      ensures past == old(past).(histories := if state.receiverCount == 0 then [] else old(past).histories)
      ensures Next(old(Now()), Step.Drop(r), Now())
      ensures old(SlotReady(state)) ==> SlotReady(state)
    {
      DropIsStep(Now(), r);
      ReaderLeaves(state.readers, past.histories, r, past.log, past.lost, state.base);
      state := state.(readers := state.readers[r := None], receiverCount := state.receiverCount - 1);
      ReclaimNow();
      if state.receiverCount == 0 {
        NobodyWants(state.readers, state.next);
        budget.Release(state.readersMemory);
        state := state.(readers := [], readersCapacity := 0, readersMemory := 0);
        past := past.(histories := []);
      }
    }

    /** The sender goes away.  Nothing is retired any more: every receiver that is here is
        told once if it lags, drains what is retained from its position on in order, and
        only then sees the end. */
    method Close()
      requires Valid()
      modifies this`state
      ensures Valid() && Next(old(Now()), Step.Close, Now())
      ensures ValidView(Model()) && forall r :: Present(Model(), r) ==> Drains(Model(), r)
    {
      InvIsValid(Now());
      state := state.(closed := true);
      InvIsValid(Now());
      forall r | Present(Model(), r) ensures Drains(Model(), r) { ClosedDrains(Now(), r); }
    }

    /** Everybody else who shares the budget reserves and refunds permits freely. */
    method ReserveElsewhere(bytes: nat) returns (ok: bool)
      requires Valid()
      modifies this`elsewhere, budget
      ensures Valid()
      ensures ok == (old(budget.used) + bytes <= budget.limit)
      ensures elsewhere == old(elsewhere) + if ok then bytes else 0
    {
      ok := budget.Reserve(bytes);
      if ok {
        elsewhere := elsewhere + bytes;
      }
    }

    method ReleaseElsewhere(bytes: nat)
      requires Valid() && bytes <= elsewhere
      modifies this`elsewhere, budget
      ensures Valid()
      ensures elsewhere == old(elsewhere) - bytes && budget.used == old(budget.used) - bytes
    {
      budget.Release(bytes);
      elsewhere := elsewhere - bytes;
    }
  }

  /** A backlog that has been read leaves no event, no container and no byte behind: what the
      budget is used for is the shared allocation, the reader table and others' permits. */
  lemma ReadBacklogOwnsNothing(j: Journal)
    requires j.Valid() && j.state.base == j.state.next
    ensures j.state.first == None && j.state.rest == [] && j.state.restCapacity == 0 && j.state.restMemory == 0
    ensures j.budget.used == j.sharedBytes + j.state.readersMemory + j.elsewhere
  {
    assert j.past.log[j.state.base..] == [];
  }
}
