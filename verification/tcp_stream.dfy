/** A connection seen from outside: what was accepted for sending, what reached
    the socket, when the write side was shut down, which callbacks ran, and what
    the poller was told.  There is no buffer layout here, and no stored mask. */
module TcpStream {
  import opened Wrappers
  import opened Channels

  datatype Phase = Connecting | Connected | Disconnecting | Disconnected

  /** The connection callback; at Down, how many bytes had been written. */
  datatype Call = Up | Down(written: nat)

  /** What the socket does with a write: take a prefix, refuse for now, report a
      dead peer (EPIPE or ECONNRESET), or fail otherwise. */
  datatype Outcome = Wrote(n: nat) | WouldBlock | Broken | Failed

  /** What a read brings; no bytes at all mean the end of the stream. */
  datatype Input = Got(bytes: string) | ReadError

  /** The lengths of the two streams when the write side was shut down. */
  datatype Fin = Fin(written: nat, accepted: nat)

  /** A string that was accepted when `at` bytes had been, and given up at once,
      because the peer was found dead. */
  datatype Gap = Gap(at: nat, text: string)

  /** What the user and the owner are told by callbacks: input has come, all output is
      written, more output waits than the mark says, the connection is closed. */
  datatype Signal = Message | WriteComplete | HighWater(waiting: nat) | Gone

  const HIGH_WATER_MARK := 64 * 1024 * 1024

  /** What a call from another thread, or a forced close, leaves to the loop. */
  datatype Work = Sending(s: string) | Finishing | Closing

  datatype Conn = Conn(
    phase: Phase,
    out: string,             // accepted and not yet written
    cleared: bool,           // all interest in events was withdrawn
    removed: bool,           // taken out of the poller for good
    armed: Option<Revents>,  // reported and not dispatched yet
    handed: seq<Work>,       // of callers that have seen the state and not yet reached the loop's queue
    queue: seq<Work>,        // this connection's part of the loop's queue
    accepted: string,
    wire: string,
    gaps: seq<Gap>,
    fins: seq<Fin>,
    calls: seq<Call>,
    told: seq<Notice>,
    mark: nat,
    signals: seq<Signal>,
    received: string)

  datatype Event =
    | Establish
    | Send(s: string, r: Outcome)   // on the loop's thread
    | Shutdown                      // on the loop's thread
    | PostSend(s: string)
    | PostShutdown
    | ForceClose
    | SetHighWaterMark(mark: nat)
    | Push(i: nat)
    | RunNext(r: Outcome)
    | Poll(revents: Revents)
    | Handle(input: Input, r: Outcome)
    | Destroy

  const START := Conn(Connecting, "", false, false, None, [], [], "", "", [], [], [], [], HIGH_WATER_MARK, [], "")

  const WRITABLE := Revents(false, false, false, true)

  // -------------------------------------------------------------- the steps

  predicate Writing(c: Conn) {
    c.out != "" && !c.cleared
  }

  /** The events the connection is watched for. */
  function Interest(c: Conn): Mask {
    Mask(!c.phase.Connecting? && !c.cleared, Writing(c))
  }

  /** The step from c to d, with the poller told of a change of interest. */
  function Noted(c: Conn, d: Conn): Conn {
    if Interest(c) == Interest(d) then d else d.(told := d.told + [Update(Interest(d))])
  }

  predicate Fits(r: Outcome, data: string) {
    r.Wrote? ==> r.n <= |data|
  }

  /** After the FIN the socket refuses every write for good. */
  predicate Possible(c: Conn, r: Outcome, data: string) {
    Fits(r, data) && (c.fins != [] ==> r.Broken? || r.Failed?)
  }

  /** How much of s a direct write leaves over. */
  function Rest(s: string, r: Outcome): string
    requires Fits(r, s)
  {
    match r
    case Wrote(n) => s[n..]
    case Broken => ""
    case _ => s
  }

  /** Offer the bytes to the socket at once. */
  function WriteDirectly(c: Conn, s: string, r: Outcome): Conn
    requires Fits(r, s)
  {
    c.(accepted := c.accepted + s,
       wire := if r.Wrote? then c.wire + s[..r.n] else c.wire,
       gaps := if r.Broken? && s != "" then c.gaps + [Gap(|c.accepted|, s)] else c.gaps,
       signals := if r == Wrote(|s|) then c.signals + [WriteComplete] else c.signals)
  }

  /** Buffer bytes and ask to be told when the socket takes more. */
  function Keep(c: Conn, more: string): Conn {
    if more == "" then c
    else Noted(c, c.(out := c.out + more, signals := c.signals + Crossing(c, more)))
  }

  /** More output makes what waits reach the mark. */
  function Crossing(c: Conn, more: string): seq<Signal> {
    if |c.out| < c.mark <= |c.out| + |more| then [HighWater(|c.out| + |more|)] else []
  }

  function SendInLoop(c: Conn, s: string, r: Outcome): Conn
    requires Fits(r, s)
  {
    if c.phase.Disconnected? then c
    else if c.out == "" then Keep(WriteDirectly(c, s, r), Rest(s, r))
    else Keep(c.(accepted := c.accepted + s), s)
  }

  function SendFin(c: Conn): Conn {
    c.(fins := c.fins + [Fin(|c.wire|, |c.accepted|)])
  }

  function ShutdownInLoop(c: Conn): Conn {
    if Writing(c) then c else SendFin(c)
  }

  function Close(c: Conn): Conn {
    c.(phase := Disconnected, cleared := true, calls := c.calls + [Down(|c.wire|)],
       told := c.told + [Update(NO_EVENTS)], signals := c.signals + [Gone])
  }

  function HandleWrite(c: Conn, r: Outcome): Conn
    requires Fits(r, c.out)
  {
    if Writing(c) && r.Wrote? && r.n > 0 then
      var d := Noted(c, c.(wire := c.wire + c.out[..r.n], out := c.out[r.n..]));
      if d.out == "" then Drained(d) else d
    else c
  }

  function Drained(c: Conn): Conn {
    var d := c.(signals := c.signals + [WriteComplete]);
    if d.phase.Disconnecting? then SendFin(d) else d
  }

  function HandleRead(c: Conn, input: Input): Conn {
    match input
    case Got(bytes) =>
      if bytes == "" then Close(c) else c.(received := c.received + bytes, signals := c.signals + [Message])
    case ReadError => c
  }

  /** The next of the callbacks a reported event causes, in their order: hang-up
      without input, error, input, output.  The one for errors only logs. */
  function HandleNext(c: Conn, v: Revents, input: Input, r: Outcome): Conn
    requires Fits(r, c.out)
  {
    if v.hup && !v.readable then Close(c).(armed := Some(v.(hup := false)))
    else if v.error then c.(armed := Some(v.(error := false)))
    else if v.readable then HandleRead(c, input).(armed := Some(v.(hup := false, readable := false)))
    else if v.writable then HandleWrite(c, r).(armed := Some(v.(writable := false)))
    else c.(armed := None)
  }

  predicate Live(c: Conn) {
    c.phase.Connected? || c.phase.Disconnecting?
  }

  function RunWork(c: Conn, w: Work, r: Outcome): Conn
    requires w.Sending? ==> Fits(r, w.s)
  {
    match w
    case Sending(s) => SendInLoop(c, s, r)
    case Finishing => ShutdownInLoop(c)
    case Closing => if Live(c) then Close(c) else c
  }

  function Hand(c: Conn, phase: Phase, w: Work): Conn {
    if c.phase.Connected? then c.(phase := phase, handed := c.handed + [w]) else c
  }

  predicate Enabled(c: Conn, e: Event) {
    match e
    case Establish => c.phase.Connecting? && !c.removed
    case Send(s, r) => Possible(c, r, s)
    case Shutdown => true
    case PostSend(_) => true
    case PostShutdown => true
    case ForceClose => true
    case SetHighWaterMark(_) => true
    case Push(i) => i < |c.handed|
    case RunNext(r) => c.queue != [] && c.armed == None && (c.queue[0].Sending? ==> Possible(c, r, c.queue[0].s))
    case Poll(v) => c.armed == None && !c.phase.Connecting? && !c.cleared && !c.removed && (v.writable ==> Writing(c))
    case Handle(_, r) => c.armed.Some? && Possible(c, r, c.out)
    case Destroy => !c.removed
  }

  function Step(c: Conn, e: Event): Conn
    requires Enabled(c, e)
  {
    match e
    case Establish => Noted(c, c.(phase := Connected, calls := c.calls + [Up]))
    case Send(s, r) => if c.phase.Connected? then SendInLoop(c, s, r) else c
    case Shutdown => if c.phase.Connected? then ShutdownInLoop(c.(phase := Disconnecting)) else c
    case PostSend(s) => Hand(c, Connected, Sending(s))
    case PostShutdown => Hand(c, Disconnecting, Finishing)
    case ForceClose => Hand(c, Disconnecting, Closing)
    case SetHighWaterMark(mark) => c.(mark := mark)
    case Push(i) => c.(handed := c.handed[..i] + c.handed[i + 1..], queue := c.queue + [c.handed[i]])
    case RunNext(r) => RunWork(c, c.queue[0], r).(queue := c.queue[1..])
    case Poll(v) => c.(armed := Some(v))
    case Handle(input, r) => HandleNext(c, c.armed.value, input, r)
    case Destroy =>
      (if Live(c) then c.(phase := Disconnected, calls := c.calls + [Down(|c.wire|)]) else c)
      .(removed := true, told := c.told + [Removal])
  }

  predicate CanRun(c: Conn, events: seq<Event>)
    decreases |events|
  {
    events == [] || (Enabled(c, events[0]) && CanRun(Step(c, events[0]), events[1..]))
  }

  function Run(c: Conn, events: seq<Event>): Conn
    requires CanRun(c, events)
    decreases |events|
  {
    if events == [] then c else Run(Step(c, events[0]), events[1..])
  }

  lemma RunFirst(c: Conn, e: Event, rest: seq<Event>)
    requires Enabled(c, e) && CanRun(Step(c, e), rest)
    ensures CanRun(c, [e] + rest) && Run(c, [e] + rest) == Run(Step(c, e), rest)
  {
    assert ([e] + rest)[1..] == rest;
  }

  lemma {:induction false} RunAppend(c: Conn, a: seq<Event>, b: seq<Event>)
    requires CanRun(c, a) && CanRun(Run(c, a), b)
    ensures CanRun(c, a + b) && Run(c, a + b) == Run(Run(c, a), b)
    decreases |a|
  {
    if a == [] {
      assert a + b == b;
    } else {
      RunAppend(Step(c, a[0]), a[1..], b);
      assert (a + b)[1..] == a[1..] + b;
    }
  }

  predicate Left(c: Conn) {
    c.phase.Disconnecting? || c.phase.Disconnected?
  }

  /** There is no way back: what has been called, written, shut down and signalled
      stays so, and the phases go one way. */
  predicate Advances(c: Conn, d: Conn) {
    && c.calls <= d.calls && c.wire <= d.wire && c.fins <= d.fins && c.signals <= d.signals
    && (Left(c) ==> Left(d)) && (c.phase.Disconnected? ==> d.phase.Disconnected?)
    && (Live(d) ==> Live(c) || c.phase.Connecting?)
    && (c.cleared ==> d.cleared) && (c.cleared && c.phase.Disconnected? ==> d.out == c.out)
  }

  lemma WorkAdvances(c: Conn, w: Work, r: Outcome)
    requires w.Sending? ==> Fits(r, w.s)
    ensures Advances(c, RunWork(c, w, r))
  {
  }

  lemma HandleAdvances(c: Conn, v: Revents, input: Input, r: Outcome)
    requires Fits(r, c.out)
    ensures Advances(c, HandleNext(c, v, input, r))
  {
  }

  lemma StepAdvances(c: Conn, e: Event)
    requires Enabled(c, e)
    ensures Advances(c, Step(c, e))
  {
    match e
    case RunNext(r) => WorkAdvances(c, c.queue[0], r);
    case Handle(input, r) => HandleAdvances(c, c.armed.value, input, r);
    case Send(s, r) => if c.phase.Connected? { WorkAdvances(c, Sending(s), r); }
    case _ =>
  }

  // -------------------------------------------------------- stream fidelity

  /** The gaps are stretches of the text, apart from each other and in order. */
  predicate GapsOf(text: string, gaps: seq<Gap>)
    decreases |gaps|
  {
    gaps == [] ||
    var g := gaps[|gaps| - 1];
    && g.text != "" && g.at + |g.text| <= |text| && text[g.at..g.at + |g.text|] == g.text
    && GapsOf(text[..g.at], gaps[..|gaps| - 1])
  }

  /** The text with the gaps taken out. */
  function Delivered(text: string, gaps: seq<Gap>): string
    requires GapsOf(text, gaps)
    decreases |gaps|
  {
    if gaps == [] then text
    else
      var g := gaps[|gaps| - 1];
      Delivered(text[..g.at], gaps[..|gaps| - 1]) + text[g.at + |g.text|..]
  }

  lemma DeliveredMore(text: string, gaps: seq<Gap>, s: string)
    requires GapsOf(text, gaps)
    ensures GapsOf(text + s, gaps) && Delivered(text + s, gaps) == Delivered(text, gaps) + s
  {
    if gaps != [] {
      var g := gaps[|gaps| - 1];
      var end := g.at + |g.text|;
      assert (text + s)[..g.at] == text[..g.at];
      assert (text + s)[g.at..end] == text[g.at..end];
      assert (text + s)[end..] == text[end..] + s;
    }
  }

  lemma DeliveredGap(text: string, gaps: seq<Gap>, s: string)
    requires GapsOf(text, gaps) && s != ""
    ensures GapsOf(text + s, gaps + [Gap(|text|, s)])
    ensures Delivered(text + s, gaps + [Gap(|text|, s)]) == Delivered(text, gaps)
  {
    var all := gaps + [Gap(|text|, s)];
    assert (text + s)[..|text|] == text && (text + s)[|text|..|text| + |s|] == s;
    assert all[..|all| - 1] == gaps;
  }

  lemma {:induction false} DeliveredLess(text: string, gaps: seq<Gap>)
    requires GapsOf(text, gaps)
    ensures |Delivered(text, gaps)| <= |text| && (gaps != [] ==> |Delivered(text, gaps)| < |text|)
    decreases |gaps|
  {
    if gaps != [] {
      DeliveredLess(text[..gaps[|gaps| - 1].at], gaps[..|gaps| - 1]);
    }
  }

  /** No byte is altered, repeated or moved: the written and the waiting bytes
      are the accepted ones, but for the strings a dead peer made the code give
      up as a whole. */
  predicate Faithful(c: Conn) {
    && (c.cleared ==> c.phase.Disconnected?)
    && GapsOf(c.accepted, c.gaps) && c.wire + c.out == Delivered(c.accepted, c.gaps)
  }

  lemma WriteDirectlyFaithful(c: Conn, s: string, r: Outcome)
    requires Faithful(c) && Fits(r, s) && c.out == ""
    ensures var d := WriteDirectly(c, s, r);
            GapsOf(d.accepted, d.gaps) && d.wire + Rest(s, r) == Delivered(d.accepted, d.gaps)
  {
    assert c.wire + "" == c.wire;
    DeliveredMore(c.accepted, c.gaps, s);
    if r.Broken? && s != "" {
      DeliveredGap(c.accepted, c.gaps, s);
    } else if r.Wrote? {
      assert c.wire + s[..r.n] + s[r.n..] == c.wire + s;
    }
  }

  lemma KeepOut(c: Conn, more: string)
    ensures Keep(c, more).out == c.out + more
  {
    assert c.out + "" == c.out;
  }

  lemma SendFaithful(c: Conn, s: string, r: Outcome)
    requires Faithful(c) && Fits(r, s)
    ensures Faithful(SendInLoop(c, s, r))
  {
    if c.out != "" {
      DeliveredMore(c.accepted, c.gaps, s);
      assert c.wire + (c.out + s) == (c.wire + c.out) + s;
      KeepOut(c.(accepted := c.accepted + s), s);
    } else {
      WriteDirectlyFaithful(c, s, r);
      KeepOut(WriteDirectly(c, s, r), Rest(s, r));
      assert "" + Rest(s, r) == Rest(s, r);
    }
  }

  lemma WriteFaithful(c: Conn, r: Outcome)
    requires Faithful(c) && Fits(r, c.out)
    ensures Faithful(HandleWrite(c, r))
  {
    if Writing(c) && r.Wrote? && r.n > 0 {
      assert c.out == c.out[..r.n] + c.out[r.n..];
      assert c.wire + c.out[..r.n] + c.out[r.n..] == c.wire + c.out;
    }
  }

  lemma WorkFaithful(c: Conn, w: Work, r: Outcome)
    requires Faithful(c) && (w.Sending? ==> Fits(r, w.s))
    ensures Faithful(RunWork(c, w, r))
  {
    if w.Sending? {
      SendFaithful(c, w.s, r);
    }
  }

  lemma HandleFaithful(c: Conn, v: Revents, input: Input, r: Outcome)
    requires Faithful(c) && Fits(r, c.out)
    ensures Faithful(HandleNext(c, v, input, r))
  {
    WriteFaithful(c, r);
  }

  lemma StepFaithful(c: Conn, e: Event)
    requires Faithful(c) && Enabled(c, e)
    ensures Faithful(Step(c, e))
  {
    match e
    case Send(s, r) => SendFaithful(c, s, r);
    case RunNext(r) => WorkFaithful(c, c.queue[0], r);
    case Handle(input, r) => HandleFaithful(c, c.armed.value, input, r);
    case _ =>
  }

  /** A direct write of s meets a dead peer. */
  predicate MeetsDeadPeer(c: Conn, s: string, r: Outcome) {
    r.Broken? && s != "" && c.out == "" && !c.phase.Disconnected?
  }

  /** The string an event makes the code give up, if any. */
  function GivenUpBy(c: Conn, e: Event): seq<Gap> {
    match e
    case Send(s, r) => if c.phase.Connected? && MeetsDeadPeer(c, s, r) then [Gap(|c.accepted|, s)] else []
    case RunNext(r) =>
      if c.queue != [] && c.queue[0].Sending? && MeetsDeadPeer(c, c.queue[0].s, r)
      then [Gap(|c.accepted|, c.queue[0].s)] else []
    case _ => []
  }

  function GivenUp(c: Conn, events: seq<Event>): seq<Gap>
    requires CanRun(c, events)
    decreases |events|
  {
    if events == [] then [] else GivenUpBy(c, events[0]) + GivenUp(Step(c, events[0]), events[1..])
  }

  /** No direct write of the run meets a dead peer. */
  predicate NeverGivesUp(c: Conn, events: seq<Event>)
    requires CanRun(c, events)
    decreases |events|
  {
    events == [] || (GivenUpBy(c, events[0]) == [] && NeverGivesUp(Step(c, events[0]), events[1..]))
  }

  lemma Regroup<T>(a: seq<T>, b: seq<T>, c: seq<T>)
    ensures a + b + c == a + (b + c)
  {
  }

  lemma SendGivesUp(c: Conn, s: string, r: Outcome)
    requires Fits(r, s)
    ensures SendInLoop(c, s, r).gaps == c.gaps + if MeetsDeadPeer(c, s, r) then [Gap(|c.accepted|, s)] else []
  {
  }

  lemma StepGivesUp(c: Conn, e: Event)
    requires Enabled(c, e)
    ensures Step(c, e).gaps == c.gaps + GivenUpBy(c, e)
  {
    match e
    case RunNext(r) => if c.queue[0].Sending? { SendGivesUp(c, c.queue[0].s, r); }
    case Send(s, r) => SendGivesUp(c, s, r);
    case _ =>
  }

  lemma {:induction false} RunGivesUp(c: Conn, events: seq<Event>)
    requires CanRun(c, events)
    ensures Run(c, events).gaps == c.gaps + GivenUp(c, events)
    ensures GivenUp(c, events) == [] <==> NeverGivesUp(c, events)
    decreases |events|
  {
    if events != [] {
      var d := Step(c, events[0]);
      StepGivesUp(c, events[0]);
      RunGivesUp(d, events[1..]);
      Regroup(c.gaps, GivenUpBy(c, events[0]), GivenUp(d, events[1..]));
    }
  }

  /** What an event sends: a string on a connection that is up, or one that waits
      for the loop, on a connection that is not down. */
  function SentBy(c: Conn, e: Event): string {
    match e
    case Send(s, _) => if c.phase.Connected? then s else ""
    case RunNext(_) => if c.queue != [] && c.queue[0].Sending? && !c.phase.Disconnected? then c.queue[0].s else ""
    case _ => ""
  }

  /** All strings sent in a run, one after another. */
  function Sent(c: Conn, events: seq<Event>): string
    requires CanRun(c, events)
    decreases |events|
  {
    if events == [] then "" else SentBy(c, events[0]) + Sent(Step(c, events[0]), events[1..])
  }

  lemma SendAccepts(c: Conn, s: string, r: Outcome)
    requires Fits(r, s)
    ensures SendInLoop(c, s, r).accepted == c.accepted + if c.phase.Disconnected? then "" else s
  {
  }

  lemma HandleAccepts(c: Conn, v: Revents, input: Input, r: Outcome)
    requires Fits(r, c.out)
    ensures HandleNext(c, v, input, r).accepted == c.accepted
  {
  }

  lemma StepAccepts(c: Conn, e: Event)
    requires Enabled(c, e)
    ensures Step(c, e).accepted == c.accepted + SentBy(c, e)
  {
    match e
    case Send(s, r) => SendAccepts(c, s, r);
    case RunNext(r) => if c.queue[0].Sending? { SendAccepts(c, c.queue[0].s, r); }
    case Handle(input, r) => HandleAccepts(c, c.armed.value, input, r);
    case _ =>
  }

  lemma {:induction false} RunAccepts(c: Conn, events: seq<Event>)
    requires CanRun(c, events)
    ensures Run(c, events).accepted == c.accepted + Sent(c, events)
    decreases |events|
  {
    if events != [] {
      StepAccepts(c, events[0]);
      RunAccepts(Step(c, events[0]), events[1..]);
      Regroup(c.accepted, SentBy(c, events[0]), Sent(Step(c, events[0]), events[1..]));
    }
  }

  lemma {:induction false} RunStaysFaithful(c: Conn, events: seq<Event>)
    requires Faithful(c) && CanRun(c, events)
    ensures Faithful(Run(c, events))
    decreases |events|
  {
    if events != [] {
      StepFaithful(c, events[0]);
      RunStaysFaithful(Step(c, events[0]), events[1..]);
    }
  }

  /** For any pattern of partial writes and refusals, in any run: the bytes the
      socket took and those still buffered are all that was sent, in order,
      without the strings whose direct write met a dead peer; so nothing is
      missing if and only if no direct write did. */
  lemma RunFaithful(events: seq<Event>)
    requires CanRun(START, events)
    ensures var c, sent, gaps := Run(START, events), Sent(START, events), GivenUp(START, events);
            && c.accepted == sent && GapsOf(sent, gaps) && c.wire + c.out == Delivered(sent, gaps)
            && (c.wire + c.out == sent <==> NeverGivesUp(START, events))
  {
    RunStaysFaithful(START, events);
    RunGivesUp(START, events);
    RunAccepts(START, events);
    var c := Run(START, events);
    assert c.gaps == GivenUp(START, events) && c.accepted == Sent(START, events);
    DeliveredLess(c.accepted, c.gaps);
  }

  // ------------------------------------------------------ graceful shutdown

  predicate Waiting(c: Conn, w: Work) {
    w in c.handed || w in c.queue
  }

  lemma PushKeeps(c: Conn, i: nat, w: Work)
    requires i < |c.handed|
    ensures Waiting(Step(c, Push(i)), w) <==> Waiting(c, w)
  {
    assert c.handed == c.handed[..i] + [c.handed[i]] + c.handed[i + 1..];
  }

  lemma WorkKeepsQueue(c: Conn, w: Work, r: Outcome)
    requires w.Sending? ==> Fits(r, w.s)
    ensures RunWork(c, w, r).handed == c.handed && RunWork(c, w, r).queue == c.queue
  {
  }

  lemma HandleKeepsQueue(c: Conn, v: Revents, input: Input, r: Outcome)
    requires Fits(r, c.out)
    ensures var d := HandleNext(c, v, input, r); d.handed == c.handed && d.queue == c.queue
  {
  }

  /** What waits for the loop stays until it runs; only calls on a connected
      connection add to it. */
  lemma StepWaiting(c: Conn, e: Event, w: Work)
    requires Enabled(c, e)
    ensures Waiting(c, w) ==> Waiting(Step(c, e), w) || (e.RunNext? && c.queue[0] == w)
    ensures Waiting(Step(c, e), w) && !Waiting(c, w) ==>
              c.phase.Connected? && (match w
                                     case Sending(s) => e == PostSend(s)
                                     case Finishing => e == PostShutdown
                                     case Closing => e == ForceClose)
  {
    match e
    case Push(i) =>
      PushKeeps(c, i, w);
    case RunNext(r) =>
      WorkKeepsQueue(c, c.queue[0], r);
      assert c.queue == [c.queue[0]] + c.queue[1..];
    case Handle(input, r) =>
      HandleKeepsQueue(c, c.armed.value, input, r);
    case _ =>
  }

  /** At most one FIN, sent when nothing was waiting in the buffer; since then no
      byte has been accepted or written. */
  predicate FinSafe(c: Conn) {
    && |c.fins| <= 1
    && (c.fins != [] ==> c.fins[0] == Fin(|c.wire|, |c.accepted|) && c.out == "")
  }

  /** What every run keeps: a FIN belongs to a connection that is going down, and
      nothing has been written since. */
  predicate Standing(c: Conn) {
    && Faithful(c)
    && (c.fins != [] || Waiting(c, Finishing) ==> Left(c))
    && (forall i :: 0 <= i < |c.fins| ==> c.fins[i].written == |c.wire| && c.fins[i].accepted <= |c.accepted|)
  }

  lemma WorkStanding(c: Conn, w: Work, r: Outcome)
    requires Standing(c) && (w.Sending? ==> Possible(c, r, w.s)) && (w.Finishing? ==> Left(c))
    ensures Standing(RunWork(c, w, r))
  {
    WorkFaithful(c, w, r);
  }

  lemma HandleStanding(c: Conn, v: Revents, input: Input, r: Outcome)
    requires Standing(c) && Possible(c, r, c.out)
    ensures Standing(HandleNext(c, v, input, r))
  {
    HandleFaithful(c, v, input, r);
  }

  lemma StepStanding(c: Conn, e: Event)
    requires Standing(c) && Enabled(c, e)
    ensures Standing(Step(c, e))
  {
    StepWaiting(c, e, Finishing);
    match e
    case RunNext(r) => WorkStanding(c, c.queue[0], r);
    case Handle(input, r) => HandleStanding(c, c.armed.value, input, r);
    case Send(s, r) => if c.phase.Connected? { WorkStanding(c, Sending(s), r); }
    case _ =>
  }

  /** Work that is too late: a send after the FIN, or a shutdown after the FIN or
      after a close that left output unwritten. */
  predicate Overdue(c: Conn, w: Work) {
    match w
    case Sending(s) => s != "" && c.phase.Disconnecting? && c.fins != []
    case Finishing => !Writing(c) && (c.fins != [] || c.out != "")
    case Closing => false
  }

  lemma WorkFinSafe(c: Conn, w: Work, r: Outcome)
    requires Standing(c) && (w.Sending? ==> Possible(c, r, w.s)) && (w.Finishing? ==> Left(c))
    ensures FinSafe(RunWork(c, w, r)) <==> FinSafe(c) && !Overdue(c, w)
  {
    if w.Sending? && Overdue(c, w) {
      assert |RunWork(c, w, r).accepted| > |c.accepted|;
    }
  }

  lemma HandleFinSafe(c: Conn, v: Revents, input: Input, r: Outcome)
    requires Standing(c) && Possible(c, r, c.out)
    ensures FinSafe(HandleNext(c, v, input, r)) <==> FinSafe(c)
  {
  }

  /** Another thread's call that runs too late. */
  predicate Late(c: Conn, e: Event) {
    e.RunNext? && c.queue != [] && Overdue(c, c.queue[0])
  }

  /** The one way to break the order of FIN and data is a late call, and it is
      broken for good. */
  lemma StepFinSafe(c: Conn, e: Event)
    requires Standing(c) && Enabled(c, e)
    ensures FinSafe(Step(c, e)) <==> FinSafe(c) && !Late(c, e)
  {
    match e
    case RunNext(r) => WorkFinSafe(c, c.queue[0], r);
    case Handle(input, r) => HandleFinSafe(c, c.armed.value, input, r);
    case Send(s, r) => if c.phase.Connected? { WorkFinSafe(c, Sending(s), r); }
    case _ =>
  }

  predicate NeverLate(c: Conn, events: seq<Event>)
    requires CanRun(c, events)
    decreases |events|
  {
    events == [] || (!Late(c, events[0]) && NeverLate(Step(c, events[0]), events[1..]))
  }

  lemma {:induction false} RunKeepsFinSafe(c: Conn, events: seq<Event>)
    requires Standing(c) && CanRun(c, events)
    ensures FinSafe(Run(c, events)) <==> FinSafe(c) && NeverLate(c, events)
    decreases |events|
  {
    if events != [] {
      StepStanding(c, events[0]);
      StepFinSafe(c, events[0]);
      RunKeepsFinSafe(Step(c, events[0]), events[1..]);
    }
  }

  /** Over every run: FIN and data are in order if and only if no call of another
      thread has run too late. */
  lemma RunFinSafe(events: seq<Event>)
    requires CanRun(START, events)
    ensures FinSafe(Run(START, events)) <==> NeverLate(START, events)
  {
    RunKeepsFinSafe(START, events);
  }

  /** A shutdown, or a send that would still be written, waits for the loop. */
  ghost predicate Pending(c: Conn) {
    Waiting(c, Finishing) || (Live(c) && exists s :: s != "" && Waiting(c, Sending(s)))
  }

  /** The guard against late calls: no FIN goes out, and no close gives up output,
      over the head of what other threads have left to the loop. */
  ghost predicate Rash(c: Conn, e: Event)
    requires Enabled(c, e)
  {
    var d := Step(c, e);
    (|d.fins| > |c.fins| || (d.cleared && !c.cleared && d.out != "")) && Pending(d)
  }

  ghost predicate NeverRash(c: Conn, events: seq<Event>)
    requires CanRun(c, events)
    decreases |events|
  {
    events == [] || (!Rash(c, events[0]) && NeverRash(Step(c, events[0]), events[1..]))
  }

  ghost predicate Clear(c: Conn) {
    c.fins != [] || (c.cleared && c.out != "") ==> !Pending(c)
  }

  lemma ClearNeverLate(c: Conn, e: Event)
    requires Standing(c) && Clear(c)
    ensures !Late(c, e)
  {
  }

  lemma StepClear(c: Conn, e: Event)
    requires Standing(c) && Clear(c) && Enabled(c, e) && !Rash(c, e)
    ensures Clear(Step(c, e)) && !Late(c, e)
  {
    var d := Step(c, e);
    ClearNeverLate(c, e);
    StepAdvances(c, e);
    StepWaiting(c, e, Finishing);
    if Pending(d) && (d.fins != [] || (d.cleared && d.out != "")) && !Waiting(c, Finishing) {
      assert d.fins == c.fins && (d.cleared ==> c.cleared || d.out == "");
      var s :| s != "" && Waiting(d, Sending(s));
      StepWaiting(c, e, Sending(s));
    }
  }

  lemma {:induction false} CautiousNeverLate(c: Conn, events: seq<Event>)
    requires Standing(c) && Clear(c) && CanRun(c, events) && NeverRash(c, events)
    ensures NeverLate(c, events)
    decreases |events|
  {
    if events != [] {
      StepClear(c, events[0]);
      StepStanding(c, events[0]);
      CautiousNeverLate(Step(c, events[0]), events[1..]);
    }
  }

  /** The write side was shut down at most once, after all that was sent (but for
      strings given up) had been written, and nothing was sent or written since. */
  ghost predicate Graceful(events: seq<Event>)
    requires CanRun(START, events)
  {
    var c, sent, gaps := Run(START, events), Sent(START, events), GivenUp(START, events);
    && |c.fins| <= 1
    && (c.fins != [] ==>
          c.fins[0] == Fin(|c.wire|, |sent|) && GapsOf(sent, gaps) && c.wire == Delivered(sent, gaps))
  }

  lemma GracefulShutdown(events: seq<Event>)
    requires CanRun(START, events) && NeverRash(START, events)
    ensures Graceful(events)
  {
    CautiousNeverLate(START, events);
    RunFinSafe(events);
    RunFaithful(events);
    var c := Run(START, events);
    assert c.wire + "" == c.wire;
  }

  /** The caller's way to be safe: send and shut down on the loop's own thread. */
  predicate LoopThreadOnly(events: seq<Event>) {
    forall i :: 0 <= i < |events| ==> !events[i].PostSend? && !events[i].PostShutdown?
  }

  ghost predicate OnlyCloses(c: Conn) {
    forall w :: Waiting(c, w) ==> w.Closing?
  }

  lemma {:induction false} LoopThreadNeverRash(c: Conn, events: seq<Event>)
    requires CanRun(c, events) && OnlyCloses(c) && LoopThreadOnly(events)
    ensures NeverRash(c, events)
    decreases |events|
  {
    if events != [] {
      forall w | Waiting(Step(c, events[0]), w) ensures w.Closing? {
        StepWaiting(c, events[0], w);
      }
      LoopThreadNeverRash(Step(c, events[0]), events[1..]);
    }
  }

  /** Callers on the loop's thread always get a graceful shutdown. */
  lemma LoopThreadGraceful(events: seq<Event>)
    requires CanRun(START, events) && LoopThreadOnly(events)
    ensures Graceful(events)
  {
    LoopThreadNeverRash(START, events);
    GracefulShutdown(events);
  }

  /** The FIN is not forgotten: a disconnecting connection without output has sent
      it, or a shutdown or forced close is still on its way. */
  predicate FinNotForgotten(c: Conn) {
    && (OwesFin(c) ==> Waiting(c, Finishing) || Waiting(c, Closing))
    && (c.cleared ==> c.phase.Disconnected?)
  }

  predicate OwesFin(c: Conn) {
    c.phase.Disconnecting? && c.out == "" && c.fins == []
  }

  lemma WorkOwesFin(c: Conn, w: Work, r: Outcome)
    requires (w.Sending? ==> Fits(r, w.s)) && (c.cleared ==> c.phase.Disconnected?)
    ensures var d := RunWork(c, w, r);
            (OwesFin(d) ==> OwesFin(c) && w.Sending?) && (d.cleared ==> d.phase.Disconnected?)
  {
  }

  lemma HandleOwesFin(c: Conn, v: Revents, input: Input, r: Outcome)
    requires Fits(r, c.out) && (c.cleared ==> c.phase.Disconnected?)
    ensures var d := HandleNext(c, v, input, r);
            (OwesFin(d) ==> OwesFin(c)) && (d.cleared ==> d.phase.Disconnected?)
  {
  }

  lemma StepSendsFin(c: Conn, e: Event)
    requires FinNotForgotten(c) && Enabled(c, e)
    ensures FinNotForgotten(Step(c, e))
  {
    StepWaiting(c, e, Finishing);
    StepWaiting(c, e, Closing);
    match e
    case RunNext(r) => WorkOwesFin(c, c.queue[0], r);
    case Handle(input, r) => HandleOwesFin(c, c.armed.value, input, r);
    case Send(s, r) => if c.phase.Connected? { WorkOwesFin(c, Sending(s), r); }
    case _ =>
  }

  lemma {:induction false} RunKeepsFin(c: Conn, events: seq<Event>)
    requires FinNotForgotten(c) && CanRun(c, events)
    ensures FinNotForgotten(Run(c, events))
    decreases |events|
  {
    if events != [] {
      StepSendsFin(c, events[0]);
      RunKeepsFin(Step(c, events[0]), events[1..]);
    }
  }

  lemma RunSendsFin(events: seq<Event>)
    requires CanRun(START, events)
    ensures FinNotForgotten(Run(START, events))
  {
    RunKeepsFin(START, events);
  }

  /** A send waits, and the loop's thread has shut down. */
  const OVERTAKEN := START.(
    phase := Disconnecting, handed := [Sending("x")], fins := [Fin(0, 0)], calls := [Up],
    told := [Update(Mask(true, false))])

  lemma ReachOvertaken()
    ensures var events := [Establish, PostSend("x"), Shutdown];
            CanRun(START, events) && Run(START, events) == OVERTAKEN
  {
    var c1 := Step(START, Establish);
    var c2 := Step(c1, PostSend("x"));
    RunFirst(c2, Shutdown, []);
    RunFirst(c1, PostSend("x"), [Shutdown] + []);
    RunFirst(START, Establish, [PostSend("x")] + ([Shutdown] + []));
    assert [Establish, PostSend("x"), Shutdown] == [Establish] + ([PostSend("x")] + ([Shutdown] + []));
  }

  /** That send is accepted after the FIN, meets a shut socket and is given up. */
  lemma PostedSendAfterFin()
    ensures var events := [Establish, PostSend("x"), Shutdown, Push(0), RunNext(Broken)];
            CanRun(START, events) && var c := Run(START, events);
            c.fins == [Fin(0, 0)] && c.accepted == "x" && c.wire == "" && c.gaps == [Gap(0, "x")] && !FinSafe(c)
  {
    ReachOvertaken();
    LostAfterFin();
    var a, b := [Establish, PostSend("x"), Shutdown], [Push(0), RunNext(Broken)];
    RunAppend(START, a, b);
    assert a + b == [Establish, PostSend("x"), Shutdown, Push(0), RunNext(Broken)];
  }

  lemma LostAfterFin()
    ensures var events := [Push(0), RunNext(Broken)];
            CanRun(OVERTAKEN, events) && var c := Run(OVERTAKEN, events);
            c.fins == [Fin(0, 0)] && c.accepted == "x" && c.wire == "" && c.gaps == [Gap(0, "x")] && !FinSafe(c)
  {
    var c1 := Step(OVERTAKEN, Push(0));
    RunFirst(c1, RunNext(Broken), []);
    RunFirst(OVERTAKEN, Push(0), [RunNext(Broken)] + []);
    assert [Push(0), RunNext(Broken)] == [Push(0)] + ([RunNext(Broken)] + []);
  }

  /** Output waits, and so does another thread's shutdown. */
  const DRAINING := START.(
    phase := Disconnecting, out := "x", accepted := "x", handed := [Finishing], calls := [Up],
    told := [Update(Mask(true, false)), Update(Mask(true, true))])

  lemma ReachDraining()
    ensures var events := [Establish, Send("x", WouldBlock), PostShutdown];
            CanRun(START, events) && Run(START, events) == DRAINING
  {
    var c1 := Step(START, Establish);
    var c2 := Step(c1, Send("x", WouldBlock));
    RunFirst(c2, PostShutdown, []);
    RunFirst(c1, Send("x", WouldBlock), [PostShutdown] + []);
    RunFirst(START, Establish, [Send("x", WouldBlock)] + ([PostShutdown] + []));
    assert [Establish, Send("x", WouldBlock), PostShutdown] ==
           [Establish] + ([Send("x", WouldBlock)] + ([PostShutdown] + []));
  }

  const DRAINED := DRAINING.(
    out := "", signals := [WriteComplete], wire := "x", fins := [Fin(1, 1)],
    told := DRAINING.told + [Update(Mask(true, false))])

  lemma ReachDrained()
    ensures var events := [Poll(WRITABLE), Handle(ReadError, Wrote(1)), Handle(ReadError, Failed)];
            CanRun(DRAINING, events) && Run(DRAINING, events) == DRAINED
  {
    var e1 := Poll(WRITABLE);
    var e2, e3 := Handle(ReadError, Wrote(1)), Handle(ReadError, Failed);
    var c1 := Step(DRAINING, e1);
    var c2 := Step(c1, e2);
    assert c2.out == "" && c2.wire == "x";
    RunFirst(c2, e3, []);
    RunFirst(c1, e2, [e3] + []);
    RunFirst(DRAINING, e1, [e2] + ([e3] + []));
    assert [e1, e2, e3] == [e1] + ([e2] + ([e3] + []));
  }

  /** The output drains before that shutdown runs: two FINs. */
  lemma FinTwice()
    ensures var opening := [Establish, Send("x", WouldBlock), PostShutdown];
            var drain := [Poll(WRITABLE), Handle(ReadError, Wrote(1)), Handle(ReadError, Failed)];
            var events := opening + drain + [Push(0), RunNext(Failed)];
            CanRun(START, events) && Run(START, events).fins == [Fin(1, 1), Fin(1, 1)]
  {
    ReachDraining();
    ReachDrained();
    FinAgain();
    var opening := [Establish, Send("x", WouldBlock), PostShutdown];
    var drain := [Poll(WRITABLE), Handle(ReadError, Wrote(1)), Handle(ReadError, Failed)];
    RunAppend(START, opening, drain);
    RunAppend(START, opening + drain, [Push(0), RunNext(Failed)]);
  }

  lemma FinAgain()
    ensures var events := [Push(0), RunNext(Failed)];
            CanRun(DRAINED, events) && Run(DRAINED, events).fins == [Fin(1, 1), Fin(1, 1)]
  {
    var c1 := Step(DRAINED, Push(0));
    RunFirst(c1, RunNext(Failed), []);
    RunFirst(DRAINED, Push(0), [RunNext(Failed)] + []);
    assert [Push(0), RunNext(Failed)] == [Push(0)] + ([RunNext(Failed)] + []);
  }

  // -------------------------------------------------------------- lifecycle

  /** The callback has run as the phase says: not at all, Up, or Up and Down, and
      nothing has been written since Down. */
  predicate LifeSafe(c: Conn) {
    && (c.phase.Connecting? ==> c.armed == None)
    && c.calls == match c.phase
                  case Connecting => []
                  case Disconnected => [Up, Down(|c.wire|)]
                  case _ => [Up]
  }

  /** An event reported before the connection went down closes it again or
      writes, after it went down. */
  predicate Stale(c: Conn, e: Event) {
    e.Handle? && c.phase.Disconnected? && c.armed.Some? &&
    var v := c.armed.value;
    if v.hup && !v.readable then true
    else if v.error then false
    else if v.readable then e.input == Got("")
    else v.writable && Writing(c) && e.r.Wrote? && e.r.n > 0
  }

  lemma WorkLifeSafe(c: Conn, w: Work, r: Outcome)
    requires Faithful(c) && LifeSafe(c) && (w.Sending? ==> Fits(r, w.s))
    ensures LifeSafe(RunWork(c, w, r))
  {
  }

  lemma HandleLifeSafe(c: Conn, input: Input, r: Outcome)
    requires Faithful(c) && LifeSafe(c) && Enabled(c, Handle(input, r))
    ensures LifeSafe(HandleNext(c, c.armed.value, input, r)) <==> !Stale(c, Handle(input, r))
  {
  }

  lemma StepLifeSafe(c: Conn, e: Event)
    requires Faithful(c) && LifeSafe(c) && Enabled(c, e)
    ensures LifeSafe(Step(c, e)) <==> !Stale(c, e)
  {
    match e
    case RunNext(r) => WorkLifeSafe(c, c.queue[0], r);
    case Handle(input, r) => HandleLifeSafe(c, input, r);
    case Send(s, r) => if c.phase.Connected? { WorkLifeSafe(c, Sending(s), r); }
    case _ =>
  }

  /** Nothing that could still close or write is reported for a connection that
      is down. */
  predicate Quiet(c: Conn) {
    && (c.phase.Disconnected? ==> c.cleared || c.removed)
    && (c.phase.Disconnected? && c.armed.Some? ==> c.cleared && !c.armed.value.hup && !c.armed.value.readable)
  }

  /** The owner destroys a live connection between its events, not while
      reported events wait. */
  predicate Orderly(c: Conn, e: Event) {
    e.Destroy? && Live(c) ==> c.armed == None
  }

  lemma StepQuiet(c: Conn, e: Event)
    requires Quiet(c) && Enabled(c, e) && Orderly(c, e)
    ensures Quiet(Step(c, e)) && !Stale(c, e)
  {
  }

  predicate NeverStale(c: Conn, events: seq<Event>)
    requires CanRun(c, events)
    decreases |events|
  {
    events == [] || (!Stale(c, events[0]) && NeverStale(Step(c, events[0]), events[1..]))
  }

  /** Down was called twice, or bytes were written after it: there is no way back. */
  predicate Spoilt(c: Conn) {
    && c.phase.Disconnected? && |c.calls| >= 2
    && (|c.calls| >= 3 || (c.calls[1].Down? && c.calls[1].written < |c.wire|))
  }

  lemma StaleSpoils(c: Conn, e: Event)
    requires Faithful(c) && LifeSafe(c) && Enabled(c, e) && Stale(c, e)
    ensures Spoilt(Step(c, e))
  {
    assert c.calls == [Up, Down(|c.wire|)];
  }

  lemma StepSpoils(c: Conn, e: Event)
    requires Enabled(c, e)
    ensures Spoilt(c) ==> Spoilt(Step(c, e))
    ensures Faithful(c) && LifeSafe(c) && Stale(c, e) ==> Spoilt(Step(c, e))
  {
    StepAdvances(c, e);
    if Faithful(c) && LifeSafe(c) && Stale(c, e) {
      StaleSpoils(c, e);
    }
  }

  lemma {:induction false} RunSpoilt(c: Conn, events: seq<Event>)
    requires Spoilt(c) && CanRun(c, events)
    ensures !LifeSafe(Run(c, events))
    decreases |events|
  {
    if events != [] {
      StepSpoils(c, events[0]);
      RunSpoilt(Step(c, events[0]), events[1..]);
    }
  }

  lemma {:induction false} RunKeepsLifeSafe(c: Conn, events: seq<Event>)
    requires Faithful(c) && LifeSafe(c) && CanRun(c, events)
    ensures LifeSafe(Run(c, events)) <==> NeverStale(c, events)
    decreases |events|
  {
    if events != [] {
      if Stale(c, events[0]) {
        StepSpoils(c, events[0]);
        RunSpoilt(Step(c, events[0]), events[1..]);
      } else {
        StepFaithful(c, events[0]);
        StepLifeSafe(c, events[0]);
        RunKeepsLifeSafe(Step(c, events[0]), events[1..]);
      }
    }
  }

  /** Over every run, whichever path closes first: the callback has been called as
      the phase says, so never more than Up and then Down, and no byte has been
      written after Down, if and only if no stale event closes or writes. */
  lemma UpThenDownOnce(events: seq<Event>)
    requires CanRun(START, events)
    ensures LifeSafe(Run(START, events)) <==> NeverStale(START, events)
  {
    RunKeepsLifeSafe(START, events);
  }

  predicate AllOrderly(c: Conn, events: seq<Event>)
    requires CanRun(c, events)
    decreases |events|
  {
    events == [] || (Orderly(c, events[0]) && AllOrderly(Step(c, events[0]), events[1..]))
  }

  /** An owner that destroys between events meets no stale event. */
  lemma {:induction false} OrderlyNeverStale(c: Conn, events: seq<Event>)
    requires Quiet(c) && CanRun(c, events) && AllOrderly(c, events)
    ensures NeverStale(c, events)
    decreases |events|
  {
    if events != [] {
      StepQuiet(c, events[0]);
      OrderlyNeverStale(Step(c, events[0]), events[1..]);
    }
  }

  /** With such an owner, Up and Down are called once each. */
  lemma OrderlyOwner(events: seq<Event>)
    requires CanRun(START, events) && AllOrderly(START, events)
    ensures LifeSafe(Run(START, events))
  {
    OrderlyNeverStale(START, events);
    UpThenDownOnce(events);
  }

  // ------------------------------------------- callbacks of user and owner

  /** A direct write takes the whole string. */
  predicate TakenWhole(c: Conn, s: string, r: Outcome) {
    c.out == "" && !c.phase.Disconnected? && r == Wrote(|s|)
  }

  predicate TakesWhole(c: Conn, e: Event) {
    match e
    case Send(s, r) => c.phase.Connected? && TakenWhole(c, s, r)
    case RunNext(r) => c.queue != [] && c.queue[0].Sending? && TakenWhole(c, c.queue[0].s, r)
    case _ => false
  }

  /** From c to d, the callbacks called are the right ones: for the high-water mark
      exactly when the waiting output reaches it, for complete output exactly when
      the last of it goes out, for the owner exactly when the connection is closed
      by itself. */
  ghost predicate Signalled(c: Conn, d: Conn, whole: bool, destroyed: bool) {
    c.signals <= d.signals && c.calls <= d.calls &&
    var more := d.signals[|c.signals|..];
    && (forall n :: HighWater(n) in more <==> |c.out| < c.mark <= |d.out| == n)
    && (WriteComplete in more <==> d.out == "" && (c.out != "" || whole))
    && (Message in more <==> |d.received| > |c.received|)
    && (Gone in more <==> |d.calls| > |c.calls| && d.calls[|c.calls|].Down? && !destroyed)
    && |more| <= 1
  }

  lemma LastOne<T>(a: seq<T>, x: T)
    ensures (a + [x])[|a|..] == [x] && (a + [])[|a|..] == []
  {
  }

  lemma KeepSignals(c: Conn, more: string)
    ensures var d := Keep(c, more);
            && d.calls == c.calls && d.received == c.received && d.out == c.out + more
            && d.signals == c.signals + Crossing(c, more)
  {
    assert c.out + "" == c.out && c.signals + [] == c.signals;
  }

  lemma SendSignals(c: Conn, s: string, r: Outcome)
    requires Fits(r, s)
    ensures Signalled(c, SendInLoop(c, s, r), TakenWhole(c, s, r), false)
  {
    if c.phase.Disconnected? {
      assert c.signals[|c.signals|..] == [];
    } else if c.out != "" {
      KeepSignals(c.(accepted := c.accepted + s), s);
      CrossingIs(c, SendInLoop(c, s, r), s);
    } else {
      DirectSignals(c, s, r);
    }
  }

  lemma DirectSignals(c: Conn, s: string, r: Outcome)
    requires Fits(r, s) && c.out == ""
    ensures Signalled(c, Keep(WriteDirectly(c, s, r), Rest(s, r)), r == Wrote(|s|), false)
  {
    var m := WriteDirectly(c, s, r);
    KeepSignals(m, Rest(s, r));
    if r == Wrote(|s|) {
      assert m.signals + [] == m.signals;
      LastOne(c.signals, WriteComplete);
    } else if Rest(s, r) != "" {
      CrossingIs(c, Keep(m, Rest(s, r)), Rest(s, r));
    } else {
      assert m.signals[|c.signals|..] == [];
    }
  }

  lemma CrossingIs(c: Conn, d: Conn, more: string)
    requires d.signals == c.signals + Crossing(c, more) && d.out == c.out + more
    requires d.calls == c.calls && d.received == c.received && (d.out == "" ==> c.out == "")
    ensures Signalled(c, d, false, false)
  {
    assert d.signals[|c.signals|..] == Crossing(c, more);
  }

  lemma WorkSignals(c: Conn, w: Work, r: Outcome)
    requires w.Sending? ==> Fits(r, w.s)
    ensures Signalled(c, RunWork(c, w, r), w.Sending? && TakenWhole(c, w.s, r), false)
  {
    if w.Sending? {
      SendSignals(c, w.s, r);
    }
  }

  lemma HandleSignals(c: Conn, v: Revents, input: Input, r: Outcome)
    requires Fits(r, c.out)
    ensures Signalled(c, HandleNext(c, v, input, r), false, false)
  {
  }

  lemma StepSignals(c: Conn, e: Event)
    requires Enabled(c, e)
    ensures Signalled(c, Step(c, e), TakesWhole(c, e), e.Destroy?)
  {
    match e
    case RunNext(r) => WorkSignals(c, c.queue[0], r);
    case Handle(input, r) => HandleSignals(c, c.armed.value, input, r);
    case Send(s, r) => if c.phase.Connected? { WorkSignals(c, Sending(s), r); }
    case _ =>
  }

  function Goings(signals: seq<Signal>): nat {
    if signals == [] then 0
    else Goings(signals[..|signals| - 1]) + if signals[|signals| - 1].Gone? then 1 else 0
  }

  /** The owner has been told at most once, and only of a connection that is down. */
  predicate GoneOnce(c: Conn) {
    Goings(c.signals) <= if c.phase.Disconnected? then 1 else 0
  }

  lemma GoingsMore(signals: seq<Signal>, x: Signal)
    ensures Goings(signals + [x]) == Goings(signals) + if x.Gone? then 1 else 0
  {
    assert (signals + [x])[..|signals|] == signals;
  }

  lemma StepGoings(c: Conn, e: Event)
    requires Enabled(c, e)
    ensures var d := Step(c, e);
            && c.calls <= d.calls && Goings(d.signals) <= Goings(c.signals) + 1
            && (d.calls == c.calls || d.calls[|c.calls|].Up? ==> Goings(d.signals) == Goings(c.signals))
  {
    StepSignals(c, e);
    var d := Step(c, e);
    var more := d.signals[|c.signals|..];
    if more == [] {
      assert d.signals == c.signals;
    } else {
      assert d.signals == c.signals + [more[0]];
      GoingsMore(c.signals, more[0]);
    }
  }

  lemma StepGoneOnce(c: Conn, e: Event)
    requires Faithful(c) && LifeSafe(c) && GoneOnce(c) && Enabled(c, e) && !Stale(c, e)
    ensures GoneOnce(Step(c, e))
  {
    StepLifeSafe(c, e);
    StepAdvances(c, e);
    StepGoings(c, e);
  }

  lemma {:induction false} RunKeepsGoneOnce(c: Conn, events: seq<Event>)
    requires Faithful(c) && LifeSafe(c) && GoneOnce(c) && CanRun(c, events) && NeverStale(c, events)
    ensures GoneOnce(Run(c, events))
    decreases |events|
  {
    if events != [] {
      StepFaithful(c, events[0]);
      StepLifeSafe(c, events[0]);
      StepGoneOnce(c, events[0]);
      RunKeepsGoneOnce(Step(c, events[0]), events[1..]);
    }
  }

  /** Without stale events, the owner is told at most once that the connection is
      gone. */
  lemma OwnerToldOnce(events: seq<Event>)
    requires CanRun(START, events) && NeverStale(START, events)
    ensures GoneOnce(Run(START, events))
  {
    RunKeepsGoneOnce(START, events);
  }

  /** Destroying a live connection while a hang-up waits calls Down twice, and uses
      the channel after its removal. */
  lemma DestroyedUnderHangUp()
    ensures var events := [Establish, Poll(Revents(true, false, false, false)), Destroy, Handle(ReadError, WouldBlock)];
            CanRun(START, events) && var c := Run(START, events);
            c.calls == [Up, Down(0), Down(0)] && c.told == [Update(Mask(true, false)), Removal, Update(NO_EVENTS)]
  {
    var e2, e4 := Poll(Revents(true, false, false, false)), Handle(ReadError, WouldBlock);
    var c1 := Step(START, Establish);
    var c2 := Step(c1, e2);
    var c3 := Step(c2, Destroy);
    RunFirst(c3, e4, []);
    RunFirst(c2, Destroy, [e4]);
    RunFirst(c1, e2, [Destroy, e4]);
    RunFirst(START, Establish, [e2, Destroy, e4]);
    assert [Establish, e2, Destroy, e4] == [Establish] + ([e2] + ([Destroy] + ([e4] + [])));
  }
}
