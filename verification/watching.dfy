/** A connection and the poller it talks to, among any other channels: what the
    kernel watches the connection for, over whole runs. */
module Watching {
  import opened Wrappers
  import opened Channels
  import opened TcpStream
  import P = PollerFlow

  /** A poller with one of its channels, `own`, and that channel's connection. */
  datatype Scene<!T(==)> = Scene(world: P.World<T>, live: set<T>, own: T, conn: Conn)

  /** A step of the connection, or of some other channel. */
  datatype Move<T> = Mine(e: Event) | Other(op: P.Op<T>)

  function Hear<T>(s: Scene<T>, n: Notice): Scene<T>
    requires s.own in s.world.chans
  {
    var op := match n
              case Update(events) => P.SetEvents(s.own, events)
              case Removal => P.Remove(s.own);
    s.(world := P.Step(s.world, op), live := P.Lives(s.live, op))
  }

  function HearAll<T>(s: Scene<T>, ns: seq<Notice>): Scene<T>
    requires s.own in s.world.chans
    decreases |ns|
  {
    if ns == [] then s else HearAll(Hear(s, ns[0]), ns[1..])
  }

  /** What a step tells the poller. */
  function News(c: Conn, d: Conn): seq<Notice> {
    if |c.told| <= |d.told| then d.told[|c.told|..] else []
  }

  /** Other channels are used as the poller asks of its callers; the connection is
      destroyed between its events. */
  predicate MoveEnabled<T>(s: Scene<T>, m: Move<T>) {
    s.own in s.world.chans &&
    match m
    case Mine(e) => Enabled(s.conn, e) && Orderly(s.conn, e)
    case Other(op) => op.p != s.own && P.Enabled(s.world, op) && P.Obeys(s.world, s.live, op)
  }

  function MoveStep<T>(s: Scene<T>, m: Move<T>): Scene<T>
    requires MoveEnabled(s, m)
  {
    match m
    case Mine(e) => HearAll(s, News(s.conn, Step(s.conn, e))).(conn := Step(s.conn, e))
    case Other(op) => s.(world := P.Step(s.world, op), live := P.Lives(s.live, op))
  }

  predicate CanMove<T>(s: Scene<T>, moves: seq<Move<T>>)
    decreases |moves|
  {
    moves == [] || (MoveEnabled(s, moves[0]) && CanMove(MoveStep(s, moves[0]), moves[1..]))
  }

  function Moved<T>(s: Scene<T>, moves: seq<Move<T>>): Scene<T>
    requires CanMove(s, moves)
    decreases |moves|
  {
    if moves == [] then s else Moved(MoveStep(s, moves[0]), moves[1..])
  }

  // --------------------------------------------------------- the connection

  /** A connection that never misbehaves towards its poller. */
  predicate Sound(c: Conn) {
    && Faithful(c) && LifeSafe(c) && Quiet(c)
    && (c.phase.Connecting? ==> c.out == "" && !c.cleared && c.handed == [] && c.queue == [])
    && (c.removed ==> !Live(c))
  }

  lemma StepInPlace(c: Conn, e: Event)
    requires Sound(c) && Enabled(c, e)
    ensures var d := Step(c, e);
            && (d.phase.Connecting? ==> d.out == "" && !d.cleared && d.handed == [] && d.queue == [])
            && (d.removed ==> !Live(d))
  {
    StepAdvances(c, e);
  }

  lemma StepSound(c: Conn, e: Event)
    requires Sound(c) && Enabled(c, e) && Orderly(c, e)
    ensures Sound(Step(c, e))
  {
    StepFaithful(c, e);
    StepQuiet(c, e);
    StepLifeSafe(c, e);
    StepInPlace(c, e);
  }

  predicate Silent(c: Conn, d: Conn) {
    && d.told == c.told && d.removed == c.removed && d.cleared == c.cleared
    && Interest(d) == Interest(c) && d.phase.Connecting? == c.phase.Connecting?
  }

  predicate Tells(c: Conn, d: Conn) {
    && Interest(d) != Interest(c) && d.told == c.told + [Update(Interest(d))]
    && !c.removed && !c.cleared && !d.removed && !d.phase.Connecting?
    && (c.phase.Connecting? ==> !d.cleared)
  }

  predicate Leaves(c: Conn, d: Conn) {
    d.told == c.told + [Removal] && !c.removed && d.removed
  }

  lemma WorkNews(c: Conn, w: Work, r: Outcome)
    requires Sound(c) && !c.phase.Connecting? && (w.Sending? ==> TcpStream.Fits(r, w.s))
    ensures Silent(c, RunWork(c, w, r)) || Tells(c, RunWork(c, w, r))
  {
  }

  lemma HandleNews(c: Conn, input: Input, r: Outcome)
    requires Sound(c) && Enabled(c, Handle(input, r)) && !Stale(c, Handle(input, r))
    ensures var d := HandleNext(c, c.armed.value, input, r); Silent(c, d) || Tells(c, d)
  {
  }

  /** A step says nothing and changes nothing the poller knows; or tells the new
      interest, while the channel is in use; or takes its leave, once. */
  lemma StepNews(c: Conn, e: Event)
    requires Sound(c) && Enabled(c, e) && Orderly(c, e)
    ensures Silent(c, Step(c, e)) || Tells(c, Step(c, e)) || Leaves(c, Step(c, e))
  {
    StepQuiet(c, e);
    match e
    case RunNext(r) => WorkNews(c, c.queue[0], r);
    case Handle(input, r) => HandleNews(c, input, r);
    case Send(s, r) => if c.phase.Connected? { WorkNews(c, Sending(s), r); }
    case _ =>
  }

  // ---------------------------------------------------------------- together

  /** The state the poller should have the connection's channel in. */
  function ExpectedState(c: Conn): ChannelState {
    if c.phase.Connecting? then New else if c.cleared then Deleted else Added
  }

  ghost predicate Joined<T>(s: Scene<T>) {
    && P.Kept(s.world, s.live) && Sound(s.conn)
    && s.own in s.world.chans && (s.own in s.live <==> !s.conn.removed)
    && (!s.conn.removed ==>
          s.world.chans[s.own].events == Interest(s.conn) && s.world.chans[s.own].state == ExpectedState(s.conn))
  }

  lemma TellJoined<T>(s: Scene<T>, d: Conn)
    requires Joined(s) && Sound(d) && Tells(s.conn, d)
    ensures Joined(Hear(s, Update(Interest(d))).(conn := d))
  {
    P.SetEventsKept(s.world, s.live, s.own, Interest(d));
    P.UpdateEffect(s.world, s.own, Interest(d));
  }

  lemma LeaveJoined<T>(s: Scene<T>, d: Conn)
    requires Joined(s) && Sound(d) && Leaves(s.conn, d)
    ensures Joined(Hear(s, Removal).(conn := d))
  {
    P.RemoveKept(s.world, s.live, s.own);
  }

  lemma HearOne<T>(s: Scene<T>, c: Conn, d: Conn, n: Notice)
    requires d.told == c.told + [n] && s.own in s.world.chans
    ensures HearAll(s, News(c, d)) == Hear(s, n)
  {
    assert News(c, d) == [n];
  }

  lemma MineJoined<T>(s: Scene<T>, e: Event)
    requires Joined(s) && MoveEnabled(s, Mine(e))
    ensures Joined(MoveStep(s, Mine(e)))
  {
    StepSound(s.conn, e);
    StepNews(s.conn, e);
    var d := Step(s.conn, e);
    if Tells(s.conn, d) {
      HearOne(s, s.conn, d, Update(Interest(d)));
      TellJoined(s, d);
    } else if Leaves(s.conn, d) {
      HearOne(s, s.conn, d, Removal);
      LeaveJoined(s, d);
    } else {
      assert News(s.conn, d) == [];
    }
  }

  lemma OtherJoined<T>(s: Scene<T>, op: P.Op<T>)
    requires Joined(s) && MoveEnabled(s, Other(op))
    ensures Joined(MoveStep(s, Other(op)))
  {
    P.StepKept(s.world, s.live, op);
    P.OthersUntouched(s.world, s.live, op, s.own);
  }

  lemma {:induction false} RunJoined<T>(s: Scene<T>, moves: seq<Move<T>>)
    requires Joined(s) && CanMove(s, moves)
    ensures Joined(Moved(s, moves))
    decreases |moves|
  {
    if moves != [] {
      match moves[0] {
        case Mine(e) => MineJoined(s, e);
        case Other(op) => OtherJoined(s, op);
      }
      RunJoined(MoveStep(s, moves[0]), moves[1..]);
    }
  }

  /** The kernel watches this connection's descriptor on its behalf. */
  predicate Watched<T>(s: Scene<T>)
    requires s.own in s.world.chans
  {
    var fd := s.world.chans[s.own].fd;
    fd in s.world.kernel && s.world.kernel[fd].channel == s.own
  }

  /** Over every run of a connection and any other channels: no call is refused;
      the kernel watches the connection's descriptor exactly while the connection
      is up, for input always, and for output exactly while output waits. */
  lemma WatchedExactly<T>(s: Scene<T>, moves: seq<Move<T>>)
    requires P.Kept(s.world, s.live) && s.own in s.live && s.conn == START
    requires s.world.chans[s.own].state == New && s.world.chans[s.own].events == NO_EVENTS
    requires CanMove(s, moves)
    ensures var t := Moved(s, moves);
            && t.world.failures == 0 && t.own in t.world.chans
            && (Watched(t) <==> Live(t.conn))
            && (Live(t.conn) ==> t.world.kernel[t.world.chans[t.own].fd].events == Mask(true, t.conn.out != ""))
  {
    RunJoined(s, moves);
  }

  /** So a connection can be reported exactly for what the kernel watches. */
  lemma ReportedExactly<T>(s: Scene<T>, v: Revents)
    requires Joined(s)
    ensures Enabled(s.conn, Poll(v)) <==>
              s.conn.armed == None && Watched(s) &&
              (v.writable ==> s.world.kernel[s.world.chans[s.own].fd].events.writing)
  {
  }
}
