/** A connection told by its events: what each event adds to the streams, the
    callbacks and the FINs, which phase it leads to, and what waits for the loop. */
module TcpAccounts {
  import opened Wrappers
  import opened Channels
  import opened TcpStream

  // --------------------------------------------------------------- dispatch

  datatype Kind = OnHangUp | OnError | OnInput | OnOutput

  /** The callbacks a report causes, in their order. */
  function Callbacks(v: Revents): seq<Kind> {
    (if v.hup && !v.readable then [OnHangUp] else []) + (if v.error then [OnError] else []) +
    (if v.readable then [OnInput] else []) + (if v.writable then [OnOutput] else [])
  }

  /** The callbacks that are still to come. */
  function Due(c: Conn): seq<Kind> {
    if c.armed.None? then [] else Callbacks(c.armed.value)
  }

  predicate Dispatches(c: Conn, e: Event, k: Kind) {
    e.Handle? && Due(c) != [] && Due(c)[0] == k
  }

  lemma HandleDispatches(c: Conn, v: Revents, input: Input, r: Outcome)
    requires Fits(r, c.out)
    ensures var d := HandleNext(c, v, input, r);
            if Callbacks(v) == [] then d.armed == None else d.armed.Some? && Due(d) == Callbacks(v)[1..]
  {
  }

  lemma WorkKeepsArmed(c: Conn, w: Work, r: Outcome)
    requires w.Sending? ==> Fits(r, w.s)
    ensures RunWork(c, w, r).armed == c.armed
  {
  }

  /** A report is dispatched callback by callback, in order and to the end. */
  lemma StepDispatches(c: Conn, e: Event)
    requires Enabled(c, e)
    ensures var d := Step(c, e);
            match e
            case Poll(v) => Due(d) == Callbacks(v) && d.armed.Some?
            case Handle(_, _) => if Due(c) == [] then d.armed == None else d.armed.Some? && Due(d) == Due(c)[1..]
            case _ => d.armed == c.armed
  {
    match e
    case RunNext(r) => WorkKeepsArmed(c, c.queue[0], r);
    case Send(s, r) => if c.phase.Connected? { WorkKeepsArmed(c, Sending(s), r); }
    case Handle(input, r) => HandleDispatches(c, c.armed.value, input, r);
    case _ =>
  }

  // ----------------------------------------------------------------- phases

  /** The event takes the connection down: a hang-up without input, the end of the
      stream, a forced close that runs, or the destruction of one that is up. */
  predicate Ends(c: Conn, e: Event) {
    || Dispatches(c, e, OnHangUp)
    || (Dispatches(c, e, OnInput) && e.input == Got(""))
    || (e.RunNext? && c.queue != [] && c.queue[0].Closing? && Live(c))
    || (e.Destroy? && Live(c))
  }

  /** The event begins to take it down. */
  predicate Begins(c: Conn, e: Event) {
    c.phase.Connected? && (e.Shutdown? || e.PostShutdown? || e.ForceClose?)
  }

  lemma WorkPhase(c: Conn, w: Work, r: Outcome)
    requires w.Sending? ==> Fits(r, w.s)
    ensures RunWork(c, w, r).phase == if w.Closing? && Live(c) then Disconnected else c.phase
  {
  }

  lemma HandlePhase(c: Conn, v: Revents, input: Input, r: Outcome)
    requires Fits(r, c.out)
    ensures HandleNext(c, v, input, r).phase ==
            if Callbacks(v) != [] && (Callbacks(v)[0] == OnHangUp || (Callbacks(v)[0] == OnInput && input == Got("")))
            then Disconnected else c.phase
  {
  }

  lemma StepPhase(c: Conn, e: Event)
    requires Enabled(c, e)
    ensures Step(c, e).phase ==
            if Ends(c, e) then Disconnected
            else if Begins(c, e) then Disconnecting
            else if e.Establish? then Connected
            else c.phase
  {
    match e
    case RunNext(r) => WorkPhase(c, c.queue[0], r);
    case Send(s, r) => if c.phase.Connected? { WorkPhase(c, Sending(s), r); }
    case Handle(input, r) => HandlePhase(c, c.armed.value, input, r);
    case _ =>
  }

  predicate EverEnds(c: Conn, events: seq<Event>)
    requires CanRun(c, events)
    decreases |events|
  {
    events != [] && (Ends(c, events[0]) || EverEnds(Step(c, events[0]), events[1..]))
  }

  predicate EverBegins(c: Conn, events: seq<Event>)
    requires CanRun(c, events)
    decreases |events|
  {
    events != [] && (Begins(c, events[0]) || EverBegins(Step(c, events[0]), events[1..]))
  }

  predicate EverEstablished(events: seq<Event>) {
    events != [] && (events[0].Establish? || EverEstablished(events[1..]))
  }

  /** Nothing is reported to, or handed over for, a connection that was never up. */
  predicate Untouched(c: Conn) {
    c.phase.Connecting? ==> c.armed == None && c.queue == [] && c.handed == []
  }

  lemma StepUntouched(c: Conn, e: Event)
    requires Untouched(c) && Enabled(c, e)
    ensures Untouched(Step(c, e))
  {
    StepPhase(c, e);
    StepDispatches(c, e);
  }

  lemma {:induction false} RunPhaseFrom(c: Conn, events: seq<Event>)
    requires Untouched(c) && CanRun(c, events)
    ensures var d := Run(c, events);
            && (d.phase.Connecting? <==> c.phase.Connecting? && !EverEstablished(events))
            && (d.phase.Disconnected? <==> c.phase.Disconnected? || EverEnds(c, events))
            && (Left(d) <==> Left(c) || EverBegins(c, events) || EverEnds(c, events))
    decreases |events|
  {
    if events != [] {
      StepPhase(c, events[0]);
      StepUntouched(c, events[0]);
      RunPhaseFrom(Step(c, events[0]), events[1..]);
    }
  }

  /** Over every run: the connection has been up if and only if it was established;
      it is down if and only if an event has taken it down; and it is going down
      or down if and only if one has begun or done so. */
  lemma RunPhase(events: seq<Event>)
    requires CanRun(START, events)
    ensures var c := Run(START, events);
            && (c.phase.Connecting? <==> !EverEstablished(events))
            && (c.phase.Disconnected? <==> EverEnds(START, events))
            && (Left(c) <==> EverBegins(START, events) || EverEnds(START, events))
  {
    RunPhaseFrom(START, events);
  }

  // --------------------------------------------------------------- accounts

  datatype Account = Account(wire: string, received: string, calls: seq<Call>, fins: seq<Fin>)

  const NOTHING := Account("", "", [], [])

  function AccountOf(c: Conn): Account {
    Account(c.wire, c.received, c.calls, c.fins)
  }

  function Plus(a: Account, b: Account): Account {
    Account(a.wire + b.wire, a.received + b.received, a.calls + b.calls, a.fins + b.fins)
  }

  lemma PlusAssociates(a: Account, b: Account, c: Account)
    ensures Plus(Plus(a, b), c) == Plus(a, Plus(b, c)) && Plus(a, NOTHING) == a
  {
    TcpStream.Regroup(a.wire, b.wire, c.wire);
    TcpStream.Regroup(a.received, b.received, c.received);
    TcpStream.Regroup(a.calls, b.calls, c.calls);
    TcpStream.Regroup(a.fins, b.fins, c.fins);
  }

  /** What the code offers to the socket: a string sent while nothing waits, or all
      that waits when the socket takes more. */
  function OfferedBy(c: Conn, e: Event): string {
    match e
    case Send(_, _) => if c.out == "" then SentBy(c, e) else ""
    case RunNext(_) => if c.out == "" then SentBy(c, e) else ""
    case Handle(_, _) => if Dispatches(c, e, OnOutput) && Writing(c) then c.out else ""
    case _ => ""
  }

  /** What the socket takes of it. */
  function TookBy(c: Conn, e: Event): string {
    match e
    case Send(_, r) => Prefix(OfferedBy(c, e), r)
    case RunNext(r) => Prefix(OfferedBy(c, e), r)
    case Handle(_, r) => Prefix(OfferedBy(c, e), r)
    case _ => ""
  }

  function Prefix(s: string, r: Outcome): string {
    if r.Wrote? && r.n <= |s| then s[..r.n] else ""
  }

  function ReadBy(c: Conn, e: Event): string {
    if Dispatches(c, e, OnInput) && e.input.Got? then e.input.bytes else ""
  }

  function CalledBy(c: Conn, e: Event): seq<Call> {
    if e.Establish? then [Up] else if Ends(c, e) then [Down(|c.wire|)] else []
  }

  /** A FIN goes out when a shutdown finds nothing waiting, or when the last waiting
      byte of a connection that is going down is written. */
  function FinBy(c: Conn, e: Event): seq<Fin> {
    if (e.Shutdown? && c.phase.Connected? && c.out == "")
       || (e.RunNext? && c.queue != [] && c.queue[0].Finishing? && !Writing(c))
    then [Fin(|c.wire|, |c.accepted|)]
    else if c.phase.Disconnecting? && OfferedBy(c, e) != "" && e.Handle? && TookBy(c, e) == OfferedBy(c, e)
    then [Fin(|c.wire| + |c.out|, |c.accepted|)]
    else []
  }

  function AccountBy(c: Conn, e: Event): Account {
    Account(TookBy(c, e), ReadBy(c, e), CalledBy(c, e), FinBy(c, e))
  }

  lemma SendAccount(c: Conn, s: string, r: Outcome)
    requires Fits(r, s)
    ensures AccountOf(SendInLoop(c, s, r)) ==
            Plus(AccountOf(c), NOTHING.(wire := if c.out == "" && !c.phase.Disconnected? then Prefix(s, r) else ""))
  {
    PlusAssociates(AccountOf(c), NOTHING, NOTHING);
  }

  /** What running a functor adds. */
  lemma ByWork(c: Conn, r: Outcome)
    requires Enabled(c, RunNext(r))
    ensures AccountBy(c, RunNext(r)) ==
            match c.queue[0]
            case Sending(s) => NOTHING.(wire := if c.out == "" && !c.phase.Disconnected? then Prefix(s, r) else "")
            case Finishing => NOTHING.(fins := if Writing(c) then [] else [Fin(|c.wire|, |c.accepted|)])
            case Closing => NOTHING.(calls := if Live(c) then [Down(|c.wire|)] else [])
  {
  }

  lemma WorkAccount(c: Conn, r: Outcome)
    requires Faithful(c) && Enabled(c, RunNext(r))
    ensures AccountOf(Step(c, RunNext(r))) == Plus(AccountOf(c), AccountBy(c, RunNext(r)))
  {
    ByWork(c, r);
    PlusAssociates(AccountOf(c), NOTHING, NOTHING);
    match c.queue[0]
    case Sending(s) => SendAccount(c, s, r);
    case Finishing =>
    case Closing =>
  }

  lemma OutputAccount(c: Conn, r: Outcome)
    requires Faithful(c) && Fits(r, c.out)
    ensures var d := HandleWrite(c, r);
            var took := if Writing(c) then Prefix(c.out, r) else "";
            && d.wire == c.wire + took
            && d.fins == c.fins + (if c.phase.Disconnecting? && Writing(c) && took == c.out
                                   then [Fin(|c.wire| + |c.out|, |c.accepted|)] else [])
            && d.received == c.received && d.calls == c.calls
  {
    assert c.wire + "" == c.wire && c.fins + [] == c.fins;
  }

  lemma InputAccount(c: Conn, input: Input)
    ensures var d := HandleRead(c, input);
            && d.received == c.received + (if input.Got? then input.bytes else "")
            && d.calls == c.calls + (if input == Got("") then [Down(|c.wire|)] else [])
            && d.wire == c.wire && d.fins == c.fins
  {
    assert c.received + "" == c.received && c.calls + [] == c.calls;
  }

  /** What a callback of a report adds. */
  function ByKind(c: Conn, k: Kind, input: Input, r: Outcome): Account {
    match k
    case OnHangUp => NOTHING.(calls := [Down(|c.wire|)])
    case OnError => NOTHING
    case OnInput =>
      NOTHING.(received := if input.Got? then input.bytes else "",
               calls := if input == Got("") then [Down(|c.wire|)] else [])
    case OnOutput =>
      var took := if Writing(c) then Prefix(c.out, r) else "";
      NOTHING.(wire := took,
               fins := if c.phase.Disconnecting? && Writing(c) && took == c.out
                       then [Fin(|c.wire| + |c.out|, |c.accepted|)] else [])
  }

  lemma ByHandle(c: Conn, input: Input, r: Outcome)
    requires Enabled(c, Handle(input, r))
    ensures AccountBy(c, Handle(input, r)) == if Due(c) == [] then NOTHING else ByKind(c, Due(c)[0], input, r)
  {
  }

  lemma KindAccount(c: Conn, v: Revents, input: Input, r: Outcome)
    requires Faithful(c) && Fits(r, c.out)
    ensures AccountOf(HandleNext(c, v, input, r)) ==
            Plus(AccountOf(c), if Callbacks(v) == [] then NOTHING else ByKind(c, Callbacks(v)[0], input, r))
  {
    PlusAssociates(AccountOf(c), NOTHING, NOTHING);
    if v.hup && !v.readable {
      assert Callbacks(v)[0] == OnHangUp;
    } else if v.error {
      assert Callbacks(v)[0] == OnError;
    } else if v.readable {
      assert Callbacks(v)[0] == OnInput;
      InputAccount(c, input);
    } else if v.writable {
      assert Callbacks(v)[0] == OnOutput;
      OutputAccount(c, r);
    }
  }

  lemma HandleAccount(c: Conn, input: Input, r: Outcome)
    requires Faithful(c) && Enabled(c, Handle(input, r))
    ensures AccountOf(HandleNext(c, c.armed.value, input, r)) == Plus(AccountOf(c), AccountBy(c, Handle(input, r)))
  {
    ByHandle(c, input, r);
    KindAccount(c, c.armed.value, input, r);
  }

  /** Each event adds to the wire what the socket takes of what is offered, to the
      input what is read, one call for each change, and the FIN when it is due. */
  lemma StepAccount(c: Conn, e: Event)
    requires Faithful(c) && Enabled(c, e)
    ensures AccountOf(Step(c, e)) == Plus(AccountOf(c), AccountBy(c, e))
  {
    PlusAssociates(AccountOf(c), NOTHING, NOTHING);
    match e
    case RunNext(r) => WorkAccount(c, r);
    case Handle(input, r) => HandleAccount(c, input, r);
    case Send(s, r) => SendAccount(c, s, r);
    case _ =>
  }

  function Total(c: Conn, events: seq<Event>): Account
    requires CanRun(c, events)
    decreases |events|
  {
    if events == [] then NOTHING else Plus(AccountBy(c, events[0]), Total(Step(c, events[0]), events[1..]))
  }

  lemma {:induction false} RunAccountFrom(c: Conn, events: seq<Event>)
    requires Faithful(c) && CanRun(c, events)
    ensures AccountOf(Run(c, events)) == Plus(AccountOf(c), Total(c, events))
    decreases |events|
  {
    if events == [] {
      PlusAssociates(AccountOf(c), NOTHING, NOTHING);
    } else {
      var d := Step(c, events[0]);
      StepFaithful(c, events[0]);
      StepAccount(c, events[0]);
      RunAccountFrom(d, events[1..]);
      PlusAssociates(AccountOf(c), AccountBy(c, events[0]), Total(d, events[1..]));
    }
  }

  /** Over every run: what was written, read, called and shut down is what its
      events add up to. */
  lemma RunAccount(events: seq<Event>)
    requires CanRun(START, events)
    ensures AccountOf(Run(START, events)) == Total(START, events)
  {
    RunAccountFrom(START, events);
    var t := Total(START, events);
    assert Plus(AccountOf(START), t) == t;
  }

  // --------------------------------------------------- work for the loop

  /** What a call leaves to the loop. */
  function HandedBy(c: Conn, e: Event): seq<Work> {
    if !c.phase.Connected? then []
    else
      match e
      case PostSend(s) => [Sending(s)]
      case PostShutdown => [Finishing]
      case ForceClose => [Closing]
      case _ => []
  }

  function PushedBy(c: Conn, e: Event): seq<Work> {
    if e.Push? && e.i < |c.handed| then [c.handed[e.i]] else []
  }

  function RanBy(c: Conn, e: Event): seq<Work> {
    if e.RunNext? && c.queue != [] then [c.queue[0]] else []
  }

  lemma StepQueue(c: Conn, e: Event)
    requires Enabled(c, e)
    ensures c.queue + PushedBy(c, e) == RanBy(c, e) + Step(c, e).queue
  {
    match e
    case RunNext(r) => WorkKeepsQueue(c, c.queue[0], r);
    case Handle(input, r) => HandleKeepsQueue(c, c.armed.value, input, r);
    case Send(s, r) => if c.phase.Connected? { WorkKeepsQueue(c, Sending(s), r); }
    case _ =>
  }

  lemma TakeOut<T>(a: seq<T>, i: nat)
    requires i < |a|
    ensures multiset(a) == multiset([a[i]]) + multiset(a[..i] + a[i + 1..])
  {
    assert a == a[..i] + [a[i]] + a[i + 1..];
  }

  lemma HandedIs(c: Conn, e: Event)
    requires Enabled(c, e)
    ensures Step(c, e).handed ==
            if e.Push? then c.handed[..e.i] + c.handed[e.i + 1..] else c.handed + HandedBy(c, e)
  {
    assert c.handed + [] == c.handed;
    match e
    case RunNext(r) => WorkKeepsQueue(c, c.queue[0], r);
    case Handle(input, r) => HandleKeepsQueue(c, c.armed.value, input, r);
    case Send(s, r) => if c.phase.Connected? { WorkKeepsQueue(c, Sending(s), r); }
    case _ =>
  }

  lemma StepHands(c: Conn, e: Event)
    requires Enabled(c, e)
    ensures multiset(c.handed + HandedBy(c, e)) == multiset(PushedBy(c, e)) + multiset(Step(c, e).handed)
  {
    HandedIs(c, e);
    if e.Push? {
      TakeOut(c.handed, e.i);
      assert c.handed + [] == c.handed;
    }
  }

  function Handed(c: Conn, events: seq<Event>): seq<Work>
    requires CanRun(c, events)
    decreases |events|
  {
    if events == [] then [] else HandedBy(c, events[0]) + Handed(Step(c, events[0]), events[1..])
  }

  function Pushed(c: Conn, events: seq<Event>): seq<Work>
    requires CanRun(c, events)
    decreases |events|
  {
    if events == [] then [] else PushedBy(c, events[0]) + Pushed(Step(c, events[0]), events[1..])
  }

  function Ran(c: Conn, events: seq<Event>): seq<Work>
    requires CanRun(c, events)
    decreases |events|
  {
    if events == [] then [] else RanBy(c, events[0]) + Ran(Step(c, events[0]), events[1..])
  }

  /** In a queue, q + p == r + q' and q' + ps == rs + q'' make one step. */
  lemma QueueOn<T>(q: seq<T>, p: seq<T>, r: seq<T>, d: seq<T>, ps: seq<T>, rs: seq<T>, end: seq<T>)
    requires q + p == r + d && d + ps == rs + end
    ensures q + (p + ps) == (r + rs) + end
  {
    TcpStream.Regroup(q, p, ps);
    TcpStream.Regroup(r, d, ps);
    TcpStream.Regroup(r, rs, end);
  }

  lemma {:induction false} RunQueueFrom(c: Conn, events: seq<Event>)
    requires CanRun(c, events)
    ensures c.queue + Pushed(c, events) == Ran(c, events) + Run(c, events).queue
    decreases |events|
  {
    if events != [] {
      var e, rest := events[0], events[1..];
      var d := Step(c, e);
      StepQueue(c, e);
      RunQueueFrom(d, rest);
      QueueOn(c.queue, PushedBy(c, e), RanBy(c, e), d.queue, Pushed(d, rest), Ran(d, rest), Run(d, rest).queue);
    }
  }

  lemma HandsOn<T>(h: seq<T>, hb: seq<T>, p: seq<T>, d: seq<T>, hs: seq<T>, ps: seq<T>, end: seq<T>)
    requires multiset(h + hb) == multiset(p) + multiset(d)
    requires multiset(d + hs) == multiset(ps) + multiset(end)
    ensures multiset(h + (hb + hs)) == multiset(p + ps) + multiset(end)
  {
    assert h + (hb + hs) == (h + hb) + hs;
    calc {
      multiset(h + (hb + hs));
      multiset(p) + multiset(d) + multiset(hs);
      multiset(p) + (multiset(d) + multiset(hs));
      multiset(p) + multiset(d + hs);
      multiset(p) + (multiset(ps) + multiset(end));
      multiset(p) + multiset(ps) + multiset(end);
      multiset(p + ps) + multiset(end);
    }
  }

  lemma {:induction false} RunHandsFrom(c: Conn, events: seq<Event>)
    requires CanRun(c, events)
    ensures multiset(c.handed + Handed(c, events)) == multiset(Pushed(c, events)) + multiset(Run(c, events).handed)
    decreases |events|
  {
    if events == [] {
      assert c.handed + [] == c.handed;
    } else {
      var e, rest := events[0], events[1..];
      var d := Step(c, e);
      StepHands(c, e);
      RunHandsFrom(d, rest);
      var end := Run(d, rest).handed;
      HandsOn(c.handed, HandedBy(c, e), PushedBy(c, e), d.handed, Handed(d, rest), Pushed(d, rest), end);
    }
  }

  /** Over every run: what was pushed has run or is in the queue, first in first
      out; and every call made on a connection that was up is being handed over or
      has been pushed, once. */
  lemma RunQueue(events: seq<Event>)
    requires CanRun(START, events)
    ensures var c := Run(START, events);
            && Pushed(START, events) == Ran(START, events) + c.queue
            && multiset(Handed(START, events)) == multiset(Pushed(START, events)) + multiset(c.handed)
  {
    RunQueueFrom(START, events);
    RunHandsFrom(START, events);
    var pushed, handed := Pushed(START, events), Handed(START, events);
    assert START.queue == [] && [] + pushed == pushed;
    assert START.handed == [] && [] + handed == handed;
  }

  lemma {:induction false} RanClosing(c: Conn, events: seq<Event>)
    requires Untouched(c) && CanRun(c, events) && Closing in Ran(c, events)
    ensures Run(c, events).phase.Disconnected?
    decreases |events|
  {
    StepUntouched(c, events[0]);
    StepPhase(c, events[0]);
    if Closing in RanBy(c, events[0]) {
      RunPhaseFrom(Step(c, events[0]), events[1..]);
    } else {
      RanClosing(Step(c, events[0]), events[1..]);
    }
  }

  /** A forced close that has run has taken the connection down. */
  lemma ForcedCloseCloses(events: seq<Event>)
    requires CanRun(START, events) && Closing in Ran(START, events)
    ensures Run(START, events).phase.Disconnected?
  {
    RanClosing(START, events);
  }

  // ------------------------------------------------------------------- mark

  function LastMark(mark: nat, events: seq<Event>): nat
    decreases |events|
  {
    if events == [] then mark
    else LastMark(if events[0].SetHighWaterMark? then events[0].mark else mark, events[1..])
  }

  lemma StepMark(c: Conn, e: Event)
    requires Enabled(c, e)
    ensures Step(c, e).mark == (if e.SetHighWaterMark? then e.mark else c.mark)
    ensures Step(c, e).removed == (c.removed || e.Destroy?)
  {
    match e
    case RunNext(r) => WorkKeepsMark(c, c.queue[0], r);
    case Handle(input, r) => HandleKeepsMark(c, c.armed.value, input, r);
    case _ =>
  }

  lemma WorkKeepsMark(c: Conn, w: Work, r: Outcome)
    requires w.Sending? ==> Fits(r, w.s)
    ensures RunWork(c, w, r).mark == c.mark && RunWork(c, w, r).removed == c.removed
  {
  }

  lemma HandleKeepsMark(c: Conn, v: Revents, input: Input, r: Outcome)
    requires Fits(r, c.out)
    ensures HandleNext(c, v, input, r).mark == c.mark && HandleNext(c, v, input, r).removed == c.removed
  {
  }

  /** The mark in force is the last one set. */
  lemma {:induction false} RunMark(c: Conn, events: seq<Event>)
    requires CanRun(c, events)
    ensures Run(c, events).mark == LastMark(c.mark, events)
    decreases |events|
  {
    if events != [] {
      StepMark(c, events[0]);
      RunMark(Step(c, events[0]), events[1..]);
    }
  }
}
