/** The functors of an event loop as one growing list with two marks: up to `ran`
    they have run, up to `taken` they have been swapped out of the queue. */
module LoopFlow {
  /** A functor has a name and queues other functors, one by one, while it runs. */
  datatype Functor = Functor(id: int, queues: seq<Functor>)

  /** Where the loop's thread is: not in loop() yet, at poll, handling timers and
      events, about to swap, running a batch. */
  datatype Phase = Before | Waiting | Handling | Swapping | Draining

  datatype Flow = Flow(
    phase: Phase,
    queued: seq<Functor>,   // all ever queued, in lock order
    taken: nat,
    ran: nat,
    counter: nat,           // the eventfd
    waking: nat,            // producers between their push and their wakeup
    calling: bool,
    reported: bool,         // poll has reported the eventfd
    rounds: nat)

  datatype Event =
    | Push(f: Functor)      // the locked section of another thread's queueInLoop
    | Wake                  // its wakeup
    | Queue(f: Functor)     // queueInLoop on the loop's thread, by a handler or by a running functor
    | Start
    | PollReturn(ready: bool)
    | ReadWakeup
    | StartDrain
    | Swap
    | RunNext
    | EndDrain

  const START := Flow(Before, [], 0, 0, 0, 0, false, false, 0)

  predicate Enabled(s: Flow, e: Event) {
    match e
    case Push(_) => true
    case Wake => s.waking > 0
    case Queue(_) => s.phase.Before? || s.phase.Handling? || s.phase.Draining?
    case Start => s.phase.Before?
    case PollReturn(ready) => s.phase.Waiting? && (ready ==> s.counter > 0)
    case ReadWakeup => s.phase.Handling? && s.reported
    case StartDrain => s.phase.Handling?
    case Swap => s.phase.Swapping?
    case RunNext => s.phase.Draining? && s.ran < s.taken <= |s.queued|
    case EndDrain => s.phase.Draining? && s.ran >= s.taken
  }

  function Step(s: Flow, e: Event): Flow
    requires Enabled(s, e)
  {
    match e
    case Push(f) => s.(queued := s.queued + [f], waking := s.waking + 1)
    case Wake => s.(waking := s.waking - 1, counter := s.counter + 1)
    case Queue(f) =>
      s.(queued := s.queued + [f],
         counter := s.counter + (if s.calling then 1 else 0))
    case Start => s.(phase := Waiting)
    case PollReturn(ready) => s.(phase := Handling, reported := ready)
    case ReadWakeup => s.(counter := 0, reported := false)
    case StartDrain => s.(phase := Swapping, calling := true)
    case Swap => s.(phase := Draining, taken := |s.queued|)
    case RunNext => s.(ran := s.ran + 1)
    case EndDrain => s.(phase := Waiting, calling := false, rounds := s.rounds + 1)
  }

  predicate CanRun(s: Flow, events: seq<Event>)
    decreases |events|
  {
    events == [] || (Enabled(s, events[0]) && CanRun(Step(s, events[0]), events[1..]))
  }

  function Run(s: Flow, events: seq<Event>): Flow
    requires CanRun(s, events)
    decreases |events|
  {
    if events == [] then s else Run(Step(s, events[0]), events[1..])
  }

  lemma {:induction false} RunOneMore(s: Flow, events: seq<Event>, e: Event)
    requires CanRun(s, events) && Enabled(Run(s, events), e)
    ensures CanRun(s, events + [e]) && Run(s, events + [e]) == Step(Run(s, events), e)
    decreases |events|
  {
    if events == [] {
      assert [e][1..] == [];
    } else {
      RunOneMore(Step(s, events[0]), events[1..], e);
      assert (events + [e])[1..] == events[1..] + [e];
    }
  }

  /** The flow the events lead to. */
  predicate LeadsTo(events: seq<Event>, s: Flow) {
    CanRun(START, events) && Run(START, events) == s
  }

  // ------------------------------------------------------------- invariants

  /** Work that waits is announced. */
  predicate Announced(s: Flow) {
    s.taken < |s.queued| ==> s.counter > 0 || s.waking > 0
  }

  predicate Ordered(s: Flow) {
    && s.ran <= s.taken <= |s.queued|
    && (!s.phase.Draining? ==> s.ran == s.taken)
    && (s.calling <==> s.phase.Swapping? || s.phase.Draining?)
  }

  predicate Sound(s: Flow) {
    && Ordered(s)
    && (s.phase.Before? ==> s.rounds == 0)
    && (s.phase.Draining? || (s.phase.Waiting? && s.rounds > 0) ==> Announced(s))
  }

  lemma StepSound(s: Flow, e: Event)
    requires Sound(s) && Enabled(s, e)
    ensures Sound(Step(s, e))
  {
  }

  lemma {:induction false} RunSound(s: Flow, events: seq<Event>)
    requires Sound(s) && CanRun(s, events)
    ensures Sound(Run(s, events))
    decreases |events|
  {
    if events != [] {
      StepSound(s, events[0]);
      RunSound(Step(s, events[0]), events[1..]);
    }
  }

  /** Another thread has pushed, or a round is over. */
  predicate Rouses(e: Event) {
    e.Push? || e.EndDrain?
  }

  predicate Roused(events: seq<Event>) {
    exists i :: 0 <= i < |events| && Rouses(events[i])
  }

  /** Up to the first poll, only a push of another thread leads to a wakeup. */
  predicate Dormant(s: Flow, roused: bool) {
    && (!roused ==> s.rounds == 0)
    && (s.phase.Before? || (s.phase.Waiting? && s.rounds == 0) ==> (s.counter > 0 || s.waking > 0 <==> roused))
  }

  lemma {:induction false} RunDormant(s: Flow, events: seq<Event>, roused: bool)
    requires Sound(s) && Dormant(s, roused) && CanRun(s, events)
    ensures Dormant(Run(s, events), roused || Roused(events))
    decreases |events|
  {
    if events != [] {
      var rest := events[1..];
      StepSound(s, events[0]);
      RunDormant(Step(s, events[0]), rest, roused || Rouses(events[0]));
      assert Roused(events) <==> Rouses(events[0]) || Roused(rest) by {
        assert forall i :: 0 <= i < |rest| ==> rest[i] == events[i + 1];
        if Roused(events) && !Rouses(events[0]) {
          var i :| 0 <= i < |events| && Rouses(events[i]);
          assert Rouses(rest[i - 1]);
        }
      }
    }
  }

  /** No lost wakeup, over every interleaving: when the loop is at poll with
      functors waiting, the eventfd is readable or a producer is about to write
      it, if and only if another thread has pushed anything so far or a round is
      over.  Reading the eventfd while handling events cannot break this,
      because the swap that follows takes everything. */
  lemma NoLostWakeup(events: seq<Event>)
    requires CanRun(START, events)
    ensures var t := Run(START, events);
            t.phase.Waiting? && t.taken < |t.queued| ==> (t.counter > 0 || t.waking > 0 <==> Roused(events))
  {
    RunSound(START, events);
    RunDormant(START, events, false);
  }

  // -------------------------------------------- the flow, told by its events

  lemma {:induction false} RunSplitLast(s: Flow, events: seq<Event>)
    requires events != [] && CanRun(s, events)
    ensures var init, e := events[..|events| - 1], events[|events| - 1];
            CanRun(s, init) && Enabled(Run(s, init), e) && Run(s, events) == Step(Run(s, init), e)
    decreases |events|
  {
    var init := events[..|events| - 1];
    if |events| > 1 {
      RunSplitLast(Step(s, events[0]), events[1..]);
      assert init[1..] == events[1..][..|events[1..]| - 1];
    } else {
      assert Run(Step(s, events[0]), []) == Step(s, events[0]);
    }
  }

  /** What the events put into the queue, in their order. */
  function Queued(events: seq<Event>): seq<Functor> {
    if events == [] then []
    else
      var init := Queued(events[..|events| - 1]);
      match events[|events| - 1]
      case Push(f) => init + [f]
      case Queue(f) => init + [f]
      case _ => init
  }

  /** What of it has been swapped out. */
  function Swapped(events: seq<Event>): seq<Functor> {
    if events == [] then []
    else if events[|events| - 1].Swap? then Queued(events)
    else Swapped(events[..|events| - 1])
  }

  /** How many events are of the kind. */
  function Times(events: seq<Event>, kind: Event -> bool): nat {
    if events == [] then 0
    else Times(events[..|events| - 1], kind) + if kind(events[|events| - 1]) then 1 else 0
  }

  /** A batch has begun and has not ended. */
  predicate InBatch(events: seq<Event>) {
    events != [] &&
    (events[|events| - 1].StartDrain? || (!events[|events| - 1].EndDrain? && InBatch(events[..|events| - 1])))
  }

  /** The wakeups since the eventfd was last read. */
  function Wakeups(events: seq<Event>): nat {
    if events == [] then 0
    else
      var init := events[..|events| - 1];
      match events[|events| - 1]
      case Wake => Wakeups(init) + 1
      case Queue(_) => Wakeups(init) + if InBatch(init) then 1 else 0
      case ReadWakeup => 0
      case _ => Wakeups(init)
  }

  predicate Runs(e: Event) { e.RunNext? }

  predicate Ends(e: Event) { e.EndDrain? }

  predicate Wakes(e: Event) { e.Wake? }

  predicate Pushes(e: Event) { e.Push? }

  /** The functors are where the events say. */
  predicate QueueTold(s: Flow, events: seq<Event>) {
    && s.queued == Queued(events)
    && s.taken <= |s.queued| && s.queued[..s.taken] == Swapped(events)
    && s.ran == Times(events, Runs) && s.rounds == Times(events, Ends)
  }

  /** The eventfd, and those about to write it, stand as the events say. */
  predicate WakeupsTold(s: Flow, events: seq<Event>) {
    && s.counter == Wakeups(events) && s.calling == InBatch(events)
    && s.waking + Times(events, Wakes) == Times(events, Pushes)
  }

  lemma StepQueueTold(s: Flow, events: seq<Event>, e: Event)
    requires Enabled(s, e) && QueueTold(s, events)
    ensures QueueTold(Step(s, e), events + [e])
  {
    assert (events + [e])[..|events|] == events;
  }

  lemma StepWakeupsTold(s: Flow, events: seq<Event>, e: Event)
    requires Enabled(s, e) && WakeupsTold(s, events)
    ensures WakeupsTold(Step(s, e), events + [e])
  {
    assert (events + [e])[..|events|] == events;
  }

  /** Over every run: the queue has seen exactly what was pushed and queued, in
      that order; what the last swap found has left it; and the eventfd counts the
      wakeups since it was last read. */
  lemma {:induction false} RunToldBy(events: seq<Event>)
    requires CanRun(START, events)
    ensures QueueTold(Run(START, events), events) && WakeupsTold(Run(START, events), events)
    decreases |events|
  {
    if events != [] {
      var init, e := events[..|events| - 1], events[|events| - 1];
      RunSplitLast(START, events);
      RunToldBy(init);
      StepQueueTold(Run(START, init), init, e);
      StepWakeupsTold(Run(START, init), init, e);
      assert init + [e] == events;
    }
  }

  /** Poll may sleep while a functor waits that the loop's own thread queued before
      loop(). */
  lemma EarlyFunctorIsNotAnnounced(f: Functor)
    ensures var events := [Queue(f), Start];
            CanRun(START, events) && var t := Run(START, events);
            t.phase.Waiting? && t.taken < |t.queued| && t.counter == 0 && t.waking == 0
  {
    var s := Step(START, Queue(f));
    assert [Start][1..] == [] && [Queue(f), Start][1..] == [Start];
    assert Run(Step(s, Start), []) == Step(s, Start);
    assert Run(s, [Start]) == Step(s, Start);
  }

  /** Until the next swap the batch stays what it is: a functor queued by a
      running functor, or by anybody meanwhile, does not run in this batch. */
  lemma {:induction false} BatchIsFixed(s: Flow, events: seq<Event>)
    requires Sound(s) && CanRun(s, events)
    requires forall i :: 0 <= i < |events| ==> events[i] != Swap
    ensures var t := Run(s, events);
            t.taken == s.taken && t.ran <= s.taken <= |s.queued| && s.queued <= t.queued
    decreases |events|
  {
    if events != [] {
      StepSound(s, events[0]);
      BatchIsFixed(Step(s, events[0]), events[1..]);
    }
  }

  /** A round runs everything that was queued when it swapped. */
  lemma RoundRunsAll(s: Flow, events: seq<Event>)
    requires Sound(s) && s.phase.Swapping? && CanRun(Step(s, Swap), events)
    requires forall i :: 0 <= i < |events| ==> events[i] != Swap
    requires Run(Step(s, Swap), events).phase.Waiting?
    ensures Run(Step(s, Swap), events).ran == |s.queued|
  {
    StepSound(s, Swap);
    BatchIsFixed(Step(s, Swap), events);
    RunSound(Step(s, Swap), events);
  }
}
