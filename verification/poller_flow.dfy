/** Poller, channels and kernel as plain tables, with every call allowed, so that
    it can be said exactly which calls break their agreement. */
module PollerFlow {
  import opened Channels

  datatype Chan = Chan(fd: nat, events: Mask, state: ChannelState)

  /** An entry of the kernel's set: the events, and the pointer it hands back. */
  datatype Registration<P> = Registration(events: Mask, channel: P)

  /** Channels are known by their pointers.  `table` is the poller's map, `kernel`
      the epoll set, `failures` counts the calls the kernel has refused. */
  datatype World<!P(==)> = World(
    chans: map<P, Chan>, table: map<nat, P>, kernel: map<nat, Registration<P>>, failures: nat)

  datatype Op<P> = Open(p: P, fd: nat) | SetEvents(p: P, events: Mask) | Remove(p: P)

  function Empty<P>(): World<P> {
    World(map[], map[], map[], 0)
  }

  function Add<P>(w: World<P>, p: P): World<P>
    requires p in w.chans
  {
    var fd := w.chans[p].fd;
    if fd in w.kernel then w.(failures := w.failures + 1)
    else w.(kernel := w.kernel[fd := Registration(w.chans[p].events, p)])
  }

  function Mod<P>(w: World<P>, p: P): World<P>
    requires p in w.chans
  {
    var fd := w.chans[p].fd;
    if fd !in w.kernel then w.(failures := w.failures + 1)
    else w.(kernel := w.kernel[fd := Registration(w.chans[p].events, p)])
  }

  function Del<P>(w: World<P>, p: P): World<P>
    requires p in w.chans
  {
    var fd := w.chans[p].fd;
    if fd !in w.kernel then w.(failures := w.failures + 1) else w.(kernel := w.kernel - {fd})
  }

  function SetState<P>(w: World<P>, p: P, state: ChannelState): World<P>
    requires p in w.chans
  {
    w.(chans := w.chans[p := w.chans[p].(state := state)])
  }

  function WithEvents<P>(w: World<P>, p: P, events: Mask): World<P>
    requires p in w.chans
  {
    w.(chans := w.chans[p := w.chans[p].(events := events)])
  }

  function UpdateChannel<P>(w: World<P>, p: P): World<P>
    requires p in w.chans
  {
    var c := w.chans[p];
    match c.state
    case New => Add(SetState(w.(table := w.table[c.fd := p]), p, Added), p)
    case Deleted => Add(SetState(w, p, Added), p)
    case Added => if c.events == NO_EVENTS then SetState(Del(w, p), p, Deleted) else Mod(w, p)
  }

  function RemoveChannel<P>(w: World<P>, p: P): World<P>
    requires p in w.chans
  {
    var c := w.chans[p];
    var v := w.(table := w.table - {c.fd});
    if c.state == Added then Del(v, p) else v
  }

  predicate Enabled<P>(w: World<P>, op: Op<P>) {
    match op
    case Open(p, _) => p !in w.chans
    case SetEvents(p, _) => p in w.chans
    case Remove(p) => p in w.chans
  }

  function Step<P>(w: World<P>, op: Op<P>): World<P>
    requires Enabled(w, op)
  {
    match op
    case Open(p, fd) => w.(chans := w.chans[p := Chan(fd, NO_EVENTS, New)])
    case SetEvents(p, events) => UpdateChannel(WithEvents(w, p, events), p)
    case Remove(p) => RemoveChannel(w, p)
  }

  /** No call has failed; each entry of the poller's map is a channel with that
      descriptor; and a descriptor is in the kernel's set exactly when its
      channel is in state Added, with that channel's pointer and events. */
  ghost predicate Agree<P>(w: World<P>) {
    && w.failures == 0
    && (forall fd :: fd in w.table ==>
          w.table[fd] in w.chans && w.chans[w.table[fd]].fd == fd && w.chans[w.table[fd]].state != New)
    && (forall fd :: fd in w.kernel ==> (
          fd in w.table && w.chans[w.table[fd]].state == Added &&
          w.kernel[fd] == Registration(w.chans[w.table[fd]].events, w.table[fd])))
    && (forall fd :: fd in w.table && w.chans[w.table[fd]].state == Added ==> fd in w.kernel)
  }

  /** The channel is the poller's own; or it is new, and its descriptor is not
      registered for another one. */
  predicate Fit<P>(w: World<P>, p: P)
    requires p in w.chans
  {
    var c := w.chans[p];
    if c.state == New then
      c.fd !in w.table || (w.table[c.fd] in w.chans && w.chans[w.table[c.fd]].state == Deleted)
    else c.fd in w.table && w.table[c.fd] == p
  }

  /** What an update does to a channel that fits. */
  function Updated<P>(w: World<P>, p: P, events: Mask): World<P>
    requires p in w.chans
  {
    var fd := w.chans[p].fd;
    var leaves := w.chans[p].state == Added && events == NO_EVENTS;
    World(
      w.chans[p := Chan(fd, events, if leaves then Deleted else Added)],
      w.table[fd := p],
      if leaves then w.kernel - {fd} else w.kernel[fd := Registration(events, p)],
      w.failures)
  }

  lemma UpdateEffect<P>(w: World<P>, p: P, events: Mask)
    requires Agree(w) && p in w.chans && Fit(w, p)
    ensures Step(w, SetEvents(p, events)) == Updated(w, p, events)
  {
    assert w.table[w.chans[p].fd := p] == w.table || w.chans[p].state == New;
  }

  lemma SetEventsFit<P>(w: World<P>, p: P, events: Mask)
    requires Agree(w) && p in w.chans && Fit(w, p)
    ensures Agree(Updated(w, p, events))
  {
    assert forall fd :: fd in w.table && w.table[fd] == p ==> fd == w.chans[p].fd;
  }

  lemma SetEventsUnfit<P>(w: World<P>, p: P, events: Mask)
    requires Agree(w) && p in w.chans && !Fit(w, p)
    ensures !Agree(Step(w, SetEvents(p, events)))
  {
    var fd := w.chans[p].fd;
    var v := Step(w, SetEvents(p, events));
    if v.failures == 0 {
      assert w.chans[p].state != New;
      if w.chans[p].state == Added && events == NO_EVENTS {
        assert fd !in v.kernel && fd in v.table && v.chans[v.table[fd]].state == Added;
      } else {
        assert v.kernel[fd] == Registration(events, p);
      }
    }
  }

  /** One update keeps the agreement if and only if the channel fits: it is the
      poller's own, or new with a descriptor that is not in use.  So updating a
      channel after its removal, or opening a second one on a live descriptor,
      is refused by the kernel or hits somebody else's registration. */
  lemma UpdateAgrees<P>(w: World<P>, p: P, events: Mask)
    requires Agree(w) && p in w.chans
    ensures Agree(Step(w, SetEvents(p, events))) <==> Fit(w, p)
  {
    if Fit(w, p) {
      UpdateEffect(w, p, events);
      SetEventsFit(w, p, events);
    } else {
      SetEventsUnfit(w, p, events);
    }
  }

  /** Withdrawing all interest takes a descriptor out of the kernel's set if and
      only if it was in it: done twice, the descriptor is watched again, for
      hang-ups and errors. */
  lemma WithdrawnInterest<P>(w: World<P>, p: P)
    requires Agree(w) && p in w.chans && Fit(w, p)
    ensures var fd := w.chans[p].fd; fd in Step(w, SetEvents(p, NO_EVENTS)).kernel <==> fd !in w.kernel
  {
  }

  /** The caller's discipline: descriptors of live channels are distinct, and a
      removed channel is not used again. */
  predicate Obeys<P>(w: World<P>, live: set<P>, op: Op<P>) {
    match op
    case Open(p, fd) => forall q :: q in live && q in w.chans ==> w.chans[q].fd != fd
    case SetEvents(p, _) => p in live
    case Remove(p) => p in live
  }

  function Lives<P>(live: set<P>, op: Op<P>): set<P> {
    match op
    case Open(p, _) => live + {p}
    case SetEvents(_, _) => live
    case Remove(p) => live - {p}
  }

  /** What the discipline keeps: the poller's map holds exactly the live channels
      that have ever been updated. */
  ghost predicate Tidy<P>(w: World<P>, live: set<P>) {
    && (forall p :: p in live ==> p in w.chans)
    && (forall p, q :: p in live && q in live && p != q ==> w.chans[p].fd != w.chans[q].fd)
    && (forall p :: p in live && w.chans[p].state != New ==> w.chans[p].fd in w.table && w.table[w.chans[p].fd] == p)
    && (forall fd :: fd in w.table ==> w.table[fd] in live)
  }

  ghost predicate Kept<P>(w: World<P>, live: set<P>) {
    Agree(w) && Tidy(w, live)
  }

  lemma SetEventsTidy<P>(w: World<P>, live: set<P>, p: P, events: Mask)
    requires Tidy(w, live) && p in live
    ensures Tidy(Updated(w, p, events), live)
  {
    var v := Updated(w, p, events);
    forall q | q in live && v.chans[q].state != New
      ensures v.chans[q].fd in v.table && v.table[v.chans[q].fd] == q
    {
      assert q != p ==> w.chans[q].fd != w.chans[p].fd && v.chans[q] == w.chans[q];
    }
  }

  lemma OpenKept<P>(w: World<P>, live: set<P>, p: P, fd: nat)
    requires Kept(w, live) && p !in w.chans && Obeys(w, live, Open(p, fd))
    ensures Kept(Step(w, Open(p, fd)), live + {p})
  {
    assert p !in live;
  }

  lemma SetEventsKept<P>(w: World<P>, live: set<P>, p: P, events: Mask)
    requires Kept(w, live) && p in live
    ensures Kept(Step(w, SetEvents(p, events)), live)
  {
    UpdateEffect(w, p, events);
    SetEventsFit(w, p, events);
    SetEventsTidy(w, live, p, events);
  }

  lemma RemoveKept<P>(w: World<P>, live: set<P>, p: P)
    requires Kept(w, live) && p in live
    ensures Kept(Step(w, Remove(p)), live - {p})
  {
    var v := Step(w, Remove(p));
    var fd := w.chans[p].fd;
    assert forall k :: k in w.table && w.table[k] == p ==> k == fd;
    assert v.chans == w.chans && v.table == w.table - {fd} && v.kernel == w.kernel - {fd} && v.failures == 0;
  }

  lemma StepKept<P>(w: World<P>, live: set<P>, op: Op<P>)
    requires Kept(w, live) && Enabled(w, op) && Obeys(w, live, op)
    ensures Kept(Step(w, op), Lives(live, op))
  {
    match op
    case Open(p, fd) => OpenKept(w, live, p, fd);
    case SetEvents(p, events) => SetEventsKept(w, live, p, events);
    case Remove(p) => RemoveKept(w, live, p);
  }

  lemma OthersUntouched<P>(w: World<P>, live: set<P>, op: Op<P>, q: P)
    requires Enabled(w, op) && q in w.chans && q != op.p
    ensures q in Step(w, op).chans && Step(w, op).chans[q] == w.chans[q]
    ensures q in Lives(live, op) <==> q in live
  {
  }

  predicate CanRun<P>(w: World<P>, live: set<P>, ops: seq<Op<P>>)
    decreases |ops|
  {
    ops == [] ||
    (Enabled(w, ops[0]) && Obeys(w, live, ops[0]) && CanRun(Step(w, ops[0]), Lives(live, ops[0]), ops[1..]))
  }

  function Run<P>(w: World<P>, live: set<P>, ops: seq<Op<P>>): World<P>
    requires CanRun(w, live, ops)
    decreases |ops|
  {
    if ops == [] then w else Run(Step(w, ops[0]), Lives(live, ops[0]), ops[1..])
  }

  lemma {:induction false} RunKept<P>(w: World<P>, live: set<P>, ops: seq<Op<P>>)
    requires Kept(w, live) && CanRun(w, live, ops)
    ensures Agree(Run(w, live, ops))
    decreases |ops|
  {
    if ops != [] {
      StepKept(w, live, ops[0]);
      RunKept(Step(w, ops[0]), Lives(live, ops[0]), ops[1..]);
    }
  }

  /** Over every run that keeps the discipline, no call is ever refused, and map,
      states and kernel agree. */
  lemma RunAgrees<P>(ops: seq<Op<P>>)
    requires CanRun(Empty(), {}, ops)
    ensures Agree(Run(Empty(), {}, ops))
  {
    RunKept(Empty(), {}, ops);
  }
}
