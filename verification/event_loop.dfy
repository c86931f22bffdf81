/** The functor queue of an event loop: other threads push under a lock and then
    write the eventfd; the loop swaps the queue out and runs what it got. */
module EventLoops {
  import opened LoopFlow

  /** What another thread does at some moment: its locked push, or its wakeup. */
  datatype Act = DoPush(f: Functor) | DoWake

  /** A piece of the loop's own code that queues functors, and what other threads do
      meanwhile: with j functors still to be queued, `meanwhile(j)`. */
  datatype Handler = Handler(queues: seq<Functor>, meanwhile: nat -> seq<Act>)

  /** What happens around one round of the loop: what poll reports and what other
      threads do before it returns; the timers, and the handlers before and after
      that of the eventfd; and what other threads do before the swap and while
      functor k of the batch runs. */
  datatype Surroundings = Surroundings(
    before: seq<Act>, ready: bool, timers: Handler, first: Handler, last: Handler,
    swapping: seq<Act>, during: nat -> nat -> seq<Act>)

  // ----------------------------------------- what should happen, without flags

  /** The functors other threads push. */
  function Pushed(acts: seq<Act>): seq<Functor> {
    if acts == [] then [] else (if acts[0].DoPush? then [acts[0].f] else []) + Pushed(acts[1..])
  }

  /** What enters the queue while the loop's own thread queues cbs. */
  function Entered(cbs: seq<Functor>, meanwhile: nat -> seq<Act>): seq<Functor> {
    Pushed(meanwhile(|cbs|)) + if cbs == [] then [] else [cbs[0]] + Entered(cbs[1..], meanwhile)
  }

  function EnteredBy(h: Handler): seq<Functor> {
    Entered(h.queues, h.meanwhile)
  }

  /** What enters the queue while the first n functors of a batch run. */
  function EnteredInBatch(batch: seq<Functor>, n: nat, during: nat -> nat -> seq<Act>): seq<Functor>
    requires n <= |batch|
  {
    if n == 0 then []
    else EnteredInBatch(batch, n - 1, during) + Entered(batch[n - 1].queues, during(n - 1))
  }

  /** What has run, and what is waiting. */
  datatype Agenda = Agenda(executed: seq<Functor>, pending: seq<Functor>)

  /** What enters the queue between two batches. */
  function Arrivals(around: Surroundings): seq<Functor> {
    Pushed(around.before) + EnteredBy(around.timers) + EnteredBy(around.first) + EnteredBy(around.last) +
    Pushed(around.swapping)
  }

  /** A round runs all that waits when it swaps, and leaves what arrives later. */
  function AfterRound(a: Agenda, around: Surroundings): Agenda {
    var batch := a.pending + Arrivals(around);
    Agenda(a.executed + batch, EnteredInBatch(batch, |batch|, around.during))
  }

  function AfterRounds(a: Agenda, rounds: seq<Surroundings>): Agenda {
    if rounds == [] then a else AfterRound(AfterRounds(a, rounds[..|rounds| - 1]), rounds[|rounds| - 1])
  }

  lemma PushedFirst(was: seq<Functor>, acts: seq<Act>)
    requires acts != []
    ensures was + Pushed([acts[0]]) + Pushed(acts[1..]) == was + Pushed(acts)
  {
    var one, rest := if acts[0].DoPush? then [acts[0].f] else [], Pushed(acts[1..]);
    assert Pushed([acts[0]]) == one + Pushed([]) == one;
    assert was + one + rest == was + (one + rest);
  }

  lemma AfterOneMore(a: Agenda, rounds: seq<Surroundings>, k: nat)
    requires k < |rounds|
    ensures AfterRounds(a, rounds[..k + 1]) == AfterRound(AfterRounds(a, rounds[..k]), rounds[k])
  {
    assert rounds[..k + 1][..k] == rounds[..k];
  }

  lemma Regroup<T>(a: seq<T>, b: seq<T>, c: seq<T>, d: seq<T>)
    ensures a + b + c + d == a + (b + (c + d))
  {
  }

  lemma OneMore<T>(a: seq<T>, b: seq<T>, k: nat)
    requires k < |b|
    ensures a + b[..k] + [b[k]] == a + b[..k + 1]
  {
  }

  lemma Collect<T>(a: seq<T>, b: seq<T>, c: seq<T>, d: seq<T>, e: seq<T>)
    ensures a + b + c + d + e == a + (b + c + d + e)
  {
  }

  class EventLoop {
    var pendingFunctors: seq<Functor>
    var callingPendingFunctors: bool
    var eventfd: nat
    var reported: bool
    var waking: nat   // other threads between their push and their wakeup
    // What has run, in the order it ran.
    var executed: seq<Functor>

    ghost var flow: Flow
    ghost var history: seq<Event>

    /** The executed functors, those of the running batch still to come, and the
        queue make up everything ever queued, in lock order. */
    ghost predicate Valid()
      reads this
    {
      && Sound(flow) && LeadsTo(history, flow)
      && executed == flow.queued[..flow.ran]
      && pendingFunctors == flow.queued[flow.taken..]
      && callingPendingFunctors == flow.calling
      && eventfd == flow.counter
      && reported == flow.reported
      && waking == flow.waking
    }

    constructor ()
      ensures Valid() && flow == START && history == []
    {
      pendingFunctors, executed := [], [];
      callingPendingFunctors, reported, eventfd, waking := false, false, 0, 0;
      flow, history := START, [];
    }

    ghost method Take(e: Event)
      requires Sound(flow) && LeadsTo(history, flow) && Enabled(flow, e)
      modifies this`flow, this`history
      ensures Sound(flow) && LeadsTo(history, flow)
      ensures flow == Step(old(flow), e) && history == old(history) + [e]
    {
      StepSound(flow, e);
      RunOneMore(START, history, e);
      flow, history := Step(flow, e), history + [e];
    }

    method Wakeup()
      modifies this`eventfd
      ensures eventfd == old(eventfd) + 1
    {
      eventfd := eventfd + 1;
    }

    /** queueInLoop on the loop's own thread. */
    method QueueInLoop(cb: Functor)
      modifies this`pendingFunctors, this`eventfd
      ensures pendingFunctors == old(pendingFunctors) + [cb]
      ensures eventfd == old(eventfd) + if callingPendingFunctors then 1 else 0
    {
      pendingFunctors := pendingFunctors + [cb];
      if callingPendingFunctors {
        Wakeup();
      }
    }

    /** The same point of the same batch, with more in the queue. */
    ghost predicate Grown(s: Flow, t: Flow) {
      && t.phase == s.phase && t.taken == s.taken && t.rounds == s.rounds && t.reported == s.reported
      && s.queued <= t.queued
    }

    method Act(act: Act)
      requires Valid()
      modifies this`pendingFunctors, this`eventfd, this`waking, this`flow, this`history
      ensures Valid()
      ensures flow == (if act.DoPush? then Step(old(flow), Push(act.f))
                       else if old(flow).waking > 0 then Step(old(flow), Wake) else old(flow))
      ensures pendingFunctors == old(pendingFunctors) + Pushed([act])
      ensures old(history) <= history
    {
      match act
      case DoPush(f) =>
        assert Pushed([act]) == [f];
        pendingFunctors := pendingFunctors + [f];
        waking := waking + 1;
        Take(Push(f));
      case DoWake =>
        if waking > 0 {
          waking := waking - 1;
          Wakeup();
          Take(Wake);
        }
    }

    method Interfere(acts: seq<Act>)
      requires Valid()
      modifies this`pendingFunctors, this`eventfd, this`waking, this`flow, this`history
      ensures Valid()
      ensures Grown(old(flow), flow) && flow.ran == old(flow).ran
      ensures pendingFunctors == old(pendingFunctors) + Pushed(acts)
      decreases |acts|
    {
      if acts != [] {
        PushedFirst(pendingFunctors, acts);
        Act(acts[0]);
        Interfere(acts[1..]);
      }
    }

    method HandleRead()
      requires Valid() && Enabled(flow, ReadWakeup)
      modifies this`eventfd, this`reported, this`flow, this`history
      ensures Valid() && flow == Step(old(flow), ReadWakeup)
    {
      eventfd := 0;
      reported := false;
      Take(ReadWakeup);
    }

    /** What code on the loop's own thread queues, one by one, while other threads
        go on. */
    method QueueAll(cbs: seq<Functor>, meanwhile: nat -> seq<Act>)
      requires Valid() && (flow.phase.Before? || flow.phase.Handling? || flow.phase.Draining?)
      modifies this`pendingFunctors, this`eventfd, this`waking, this`flow, this`history
      ensures Valid() && Grown(old(flow), flow) && flow.ran == old(flow).ran
      ensures pendingFunctors == old(pendingFunctors) + Entered(cbs, meanwhile)
      decreases |cbs|
    {
      ghost var was := pendingFunctors;
      Interfere(meanwhile(|cbs|));
      if cbs != [] {
        QueueNext(cbs[0]);
        QueueAll(cbs[1..], meanwhile);
        Regroup(was, Pushed(meanwhile(|cbs|)), [cbs[0]], Entered(cbs[1..], meanwhile));
      } else {
        assert Pushed(meanwhile(0)) + [] == Pushed(meanwhile(0));
      }
    }

    method QueueNext(cb: Functor)
      requires Valid() && Enabled(flow, Queue(cb))
      modifies this`pendingFunctors, this`eventfd, this`flow, this`history
      ensures Valid() && flow == Step(old(flow), Queue(cb))
      ensures pendingFunctors == old(pendingFunctors) + [cb]
    {
      QueueInLoop(cb);
      Take(Queue(cb));
    }

    // ------------------------------------------------------------ the batch

    /** Run one functor of the batch: here it queues others. */
    method RunFunctor(functor: Functor, meanwhile: nat -> seq<Act>)
      requires Valid() && Enabled(flow, RunNext) && functor == flow.queued[flow.ran]
      modifies this`pendingFunctors, this`eventfd, this`waking, this`executed, this`flow, this`history
      ensures Valid() && executed == old(executed) + [functor]
      ensures Grown(old(flow), flow) && flow.ran == old(flow).ran + 1
      ensures pendingFunctors == old(pendingFunctors) + Entered(functor.queues, meanwhile)
    {
      executed := executed + [functor];
      Take(RunNext);
      QueueAll(functor.queues, meanwhile);
    }

    /** Swap the queue out under the lock, then run what was in it, while other
        threads go on. */
    method DoPendingFunctors(swapping: seq<Act>, during: nat -> nat -> seq<Act>)
      requires Valid() && flow.phase.Handling?
      modifies this
      ensures Valid() && flow.phase.Waiting?
      ensures flow.rounds == old(flow).rounds + 1 && flow.reported == old(flow).reported
      ensures var batch := old(pendingFunctors) + Pushed(swapping);
              executed == old(executed) + batch && pendingFunctors == EnteredInBatch(batch, |batch|, during)
    {
      Begin();
      var functors := SwapOut(swapping);
      RunBatch(functors, during);
      End();
    }

    /** Other threads may push until the swap. */
    method SwapOut(swapping: seq<Act>) returns (functors: seq<Functor>)
      requires Valid() && flow.phase.Swapping?
      modifies this`pendingFunctors, this`eventfd, this`waking, this`flow, this`history
      ensures Valid() && flow.phase.Draining? && pendingFunctors == []
      ensures functors == old(pendingFunctors) + Pushed(swapping) && functors == flow.queued[flow.ran..flow.taken]
      ensures flow.rounds == old(flow).rounds && flow.reported == old(flow).reported
    {
      Interfere(swapping);
      functors := TakeAll();
    }

    method Begin()
      requires Valid() && flow.phase.Handling?
      modifies this`callingPendingFunctors, this`flow, this`history
      ensures Valid() && flow.phase.Swapping?
      ensures flow.rounds == old(flow).rounds && flow.reported == old(flow).reported
    {
      callingPendingFunctors := true;
      Take(StartDrain);
    }

    method End()
      requires Valid() && flow.phase.Draining? && flow.ran == flow.taken
      modifies this`callingPendingFunctors, this`flow, this`history
      ensures Valid() && flow.phase.Waiting?
      ensures flow.rounds == old(flow).rounds + 1 && flow.reported == old(flow).reported
    {
      callingPendingFunctors := false;
      Take(EndDrain);
    }

    method RunBatch(functors: seq<Functor>, during: nat -> nat -> seq<Act>)
      requires Valid() && flow.phase.Draining? && functors == flow.queued[flow.ran..flow.taken]
      requires pendingFunctors == []
      modifies this`pendingFunctors, this`eventfd, this`waking, this`executed, this`flow, this`history
      ensures Valid() && flow.phase.Draining? && flow.ran == flow.taken == old(flow).taken
      ensures flow.rounds == old(flow).rounds && flow.reported == old(flow).reported
      ensures executed == old(executed) + functors
      ensures pendingFunctors == EnteredInBatch(functors, |functors|, during)
    {
      var next := 0;
      ghost var start := flow;
      while next < |functors|
        invariant 0 <= next <= |functors| && Valid() && InBatch(start, functors, next)
        invariant executed == old(executed) + functors[..next]
        invariant pendingFunctors == EnteredInBatch(functors, next, during)
      {
        OneMore(old(executed), functors, next);
        RunNth(start, functors, next, during(next));
        next := next + 1;
      }
      assert functors[..next] == functors;
    }

    /** The batch that began at `start`, with the first `next` functors done. */
    ghost predicate InBatch(start: Flow, functors: seq<Functor>, next: nat)
      reads this
    {
      && start.phase.Draining? && Sound(start) && functors == start.queued[start.ran..start.taken]
      && next <= |functors| && Grown(start, flow) && flow.ran == start.ran + next
    }

    method RunNth(ghost start: Flow, functors: seq<Functor>, next: nat, meanwhile: nat -> seq<Act>)
      requires Valid() && InBatch(start, functors, next) && next < |functors|
      modifies this`pendingFunctors, this`eventfd, this`waking, this`executed, this`flow, this`history
      ensures Valid() && InBatch(start, functors, next + 1)
      ensures executed == old(executed) + [functors[next]]
      ensures pendingFunctors == old(pendingFunctors) + Entered(functors[next].queues, meanwhile)
    {
      assert functors[next] == start.queued[start.ran + next];
      RunFunctor(functors[next], meanwhile);
    }

    method TakeAll() returns (functors: seq<Functor>)
      requires Valid() && flow.phase.Swapping?
      modifies this`pendingFunctors, this`flow, this`history
      ensures Valid() && flow == Step(old(flow), Swap)
      ensures functors == flow.queued[flow.ran..flow.taken]
      ensures functors == old(pendingFunctors) && pendingFunctors == []
    {
      functors, pendingFunctors := pendingFunctors, [];
      Take(Swap);
    }

    // -------------------------------------------------------------- the loop

    /** One round: poll, timers and handlers, then the batch. */
    method Round(around: Surroundings)
      requires Valid() && flow.phase.Waiting?
      modifies this
      ensures Valid() && flow.phase.Waiting? && !reported
      ensures flow.rounds == old(flow).rounds + 1
      ensures Agenda(executed, pendingFunctors) == AfterRound(Agenda(old(executed), old(pendingFunctors)), around)
    {
      ghost var was := pendingFunctors;
      Dispatch(around);
      DoPendingFunctors(around.swapping, around.during);
      assert was + Dispatched(around) + Pushed(around.swapping) == was + Arrivals(around);
    }

    function Dispatched(around: Surroundings): seq<Functor> {
      Pushed(around.before) + EnteredBy(around.timers) + EnteredBy(around.first) + EnteredBy(around.last)
    }

    /** From poll to the last handler.  A reported eventfd is read. */
    method Dispatch(around: Surroundings)
      requires Valid() && flow.phase.Waiting?
      modifies this`pendingFunctors, this`eventfd, this`reported, this`waking, this`flow, this`history
      ensures Valid() && flow.phase.Handling? && !reported && flow.rounds == old(flow).rounds
      ensures pendingFunctors == old(pendingFunctors) + Dispatched(around)
    {
      ghost var was := pendingFunctors;
      Interfere(around.before);
      Poll(around.ready);
      QueueAll(around.timers.queues, around.timers.meanwhile);
      QueueAll(around.first.queues, around.first.meanwhile);
      if reported {
        HandleRead();
      }
      QueueAll(around.last.queues, around.last.meanwhile);
      Collect(was, Pushed(around.before), EnteredBy(around.timers), EnteredBy(around.first), EnteredBy(around.last));
    }

    /** poll reports the eventfd only if it is readable. */
    method Poll(ready: bool)
      requires Valid() && flow.phase.Waiting?
      modifies this`reported, this`flow, this`history
      ensures reported <==> ready && old(flow).counter > 0
      ensures Valid() && flow == Step(old(flow), PollReturn(reported))
    {
      reported := ready && eventfd > 0;
      Take(PollReturn(reported));
    }

    /** loop(), after its own thread has queued some functors, for any number of
        rounds: what has run and what is waiting is exactly what should have, and it
        is all that was ever pushed and queued, in lock order.  When the loop is
        back at poll with functors waiting, it is or will be woken up if and only if
        a round is over or another thread has pushed something. */
    method Loop(early: Handler, rounds: seq<Surroundings>)
      requires Valid() && flow == START && pendingFunctors == [] && executed == []
      modifies this
      ensures Valid() && flow.phase.Waiting? && flow.rounds == |rounds|
      ensures Agenda(executed, pendingFunctors) == AfterRounds(Agenda([], EnteredBy(early)), rounds)
      ensures executed + pendingFunctors == Queued(history)
      ensures pendingFunctors != [] ==> (eventfd > 0 || waking > 0 <==> Roused(history))
      ensures eventfd == Wakeups(history) && (rounds != [] ==> Roused(history))
    {
      Open(early);
      var k := 0;
      assert rounds[..0] == [];
      while k < |rounds|
        invariant 0 <= k <= |rounds|
        invariant Valid() && flow.phase.Waiting? && flow.rounds == k
        invariant Agenda(executed, pendingFunctors) == AfterRounds(Agenda([], EnteredBy(early)), rounds[..k])
      {
        AfterOneMore(Agenda([], EnteredBy(early)), rounds, k);
        Round(rounds[k]);
        k := k + 1;
      }
      assert rounds[..k] == rounds;
      Announce();
    }

    /** From the start to the first poll. */
    method Open(early: Handler)
      requires Valid() && flow == START && pendingFunctors == [] && executed == []
      modifies this
      ensures Valid() && flow.phase.Waiting? && flow.rounds == 0
      ensures executed == [] && pendingFunctors == EnteredBy(early)
    {
      QueueAll(early.queues, early.meanwhile);
      Take(Start);
    }

    /** What is known of the loop at poll. */
    lemma Announce()
      requires Valid() && flow.phase.Waiting?
      ensures executed + pendingFunctors == Queued(history)
      ensures pendingFunctors != [] ==> (eventfd > 0 || waking > 0 <==> Roused(history))
      ensures eventfd == Wakeups(history) && (flow.rounds > 0 ==> Roused(history))
    {
      RunDormant(START, history, false);
      NoLostWakeup(history);
      RunToldBy(history);
      assert flow.queued == flow.queued[..flow.ran] + flow.queued[flow.taken..];
    }
  }
}
