/** A TCP connection on its event loop: state, event mask, output buffer, and a
    socket that takes what it likes. */
module TcpConnections {
  import opened Wrappers
  import opened ByteBuffers
  import opened Channels
  import opened TcpStream

  /** What has left through the descriptor. */
  class Socket {
    var wire: string
    var shutdowns: nat

    constructor ()
      ensures wire == "" && shutdowns == 0
    {
      wire, shutdowns := "", 0;
    }

    /** What may happen to a write: after the write side is shut down it fails. */
    predicate Takes(r: Outcome, data: string)
      reads this
    {
      TcpStream.Fits(r, data) && (shutdowns > 0 ==> r.Broken? || r.Failed?)
    }

    /** The number of bytes taken, or -1 with the error in r. */
    method Write(data: string, r: Outcome) returns (n: int)
      requires Takes(r, data)
      modifies this`wire
      ensures n == if r.Wrote? then r.n else -1
      ensures wire == if r.Wrote? then old(wire) + data[..r.n] else old(wire)
    {
      if r.Wrote? {
        wire := wire + data[..r.n];
        n := r.n;
      } else {
        n := -1;
      }
    }

    method ShutdownWrite()
      modifies this`shutdowns
      ensures shutdowns == old(shutdowns) + 1
    {
      shutdowns := shutdowns + 1;
    }
  }

  /** Everything of a connection but its buffers. */
  datatype Observation = Observation(
    state: Phase, calls: seq<Call>, revents: Option<Revents>, handed: seq<Work>, queue: seq<Work>,
    events: Mask, told: seq<Notice>, wire: string, shutdowns: nat, mark: nat, signals: seq<Signal>)

  /** What is to be observed: in particular, write interest exactly while output
      waits, and no interest at all once it was withdrawn. */
  function Expected(c: Conn): Observation {
    Observation(
      c.phase, c.calls, c.armed, c.handed, c.queue, Interest(c), c.told, c.wire, |c.fins|, c.mark, c.signals)
  }

  class TcpConnection {
    var state: Phase
    const channel: Channel
    const socket: Socket
    const outputBuffer: Buffer
    const inputBuffer: Buffer
    var calls: seq<Call>
    var highWaterMark: nat
    // The other callbacks called, or left to the loop, in order.
    var signals: seq<Signal>
    // What the loop holds for this connection, and what other threads are handing to it.
    var revents: Option<Revents>
    var handed: seq<Work>
    var queue: seq<Work>

    ghost var conn: Conn

    ghost predicate Valid()
      reads this, channel, socket, outputBuffer, outputBuffer.buffer, inputBuffer, inputBuffer.buffer
    {
      && outputBuffer != inputBuffer && outputBuffer.buffer != inputBuffer.buffer
      && outputBuffer.Queue() == Some(conn.out) && inputBuffer.Queue().Some? && inputBuffer.put == conn.received
      && Observed() == Expected(conn)
      && (conn.cleared ==> conn.phase.Disconnected?)
    }

    ghost function Observed(): Observation
      reads `state, `calls, `revents, `handed, `queue, `highWaterMark, `signals, channel, socket
    {
      Observation(
        state, calls, revents, handed, queue, channel.events, channel.told, socket.wire, socket.shutdowns,
        highWaterMark, signals)
    }

    constructor (fd: nat)
      ensures Valid() && conn == START
    {
      state := Connecting;
      channel := new Channel(fd);
      socket := new Socket();
      outputBuffer := new Buffer();
      inputBuffer := new Buffer();
      calls, revents, handed, queue := [], None, [], [];
      highWaterMark, signals := HIGH_WATER_MARK, [];
      conn := START;
    }

    // --------------------------------------------------------------- sending

    method Send(s: string, r: Outcome)
      requires Valid() && Possible(conn, r, s)
      modifies this`conn, this`signals, channel, socket, outputBuffer, outputBuffer.buffer
      ensures Valid() && conn == Step(old(conn), TcpStream.Send(s, r))
      ensures outputBuffer.buffer == old(outputBuffer.buffer) || fresh(outputBuffer.buffer)
    {
      if state == Connected {
        SendInLoop(s, r);
      }
    }

    method SendInLoop(s: string, r: Outcome)
      requires Valid() && Possible(conn, r, s)
      modifies this`conn, this`signals, channel, socket, outputBuffer, outputBuffer.buffer
      ensures Valid() && conn == TcpStream.SendInLoop(old(conn), s, r)
      ensures outputBuffer.buffer == old(outputBuffer.buffer) || fresh(outputBuffer.buffer)
    {
      if state == Disconnected {
        return;
      }
      var remaining := s;
      if !channel.IsWriting() && outputBuffer.ReadableBytes() == 0 {
        remaining := WriteDirectly(s, r);
      } else {
        conn := conn.(accepted := conn.accepted + s);
      }
      Keep(remaining);
    }

    /** Offer the bytes to the socket at once; what it does not take remains,
        unless the peer is dead. */
    method WriteDirectly(s: string, r: Outcome) returns (remaining: string)
      requires Valid() && Possible(conn, r, s)
      modifies this`conn, this`signals, socket
      ensures Valid() && conn == TcpStream.WriteDirectly(old(conn), s, r)
      ensures remaining == Rest(s, r)
    {
      var nwrote := socket.Write(s, r);
      var faultError := false;
      if nwrote >= 0 {
        if nwrote == |s| {
          signals := signals + [WriteComplete];
        }
      } else {
        nwrote := 0;
        if r.Broken? {
          faultError := true;
        }
      }
      remaining := if faultError then "" else s[nwrote..];
      conn := TcpStream.WriteDirectly(conn, s, r);
    }

    lemma Keeping(c: Conn, more: string)
      requires more != "" && !c.cleared
      ensures var d := TcpStream.Keep(c, more);
              && d.out == c.out + more
              && Expected(d) == Expected(c).(
                   events := Interest(c).(writing := true),
                   told := if Writing(c) then c.told else c.told + [Update(Interest(c).(writing := true))],
                   signals := c.signals + Crossing(c, more))
    {
    }

    /** Buffer what remains and ask to be told when the socket takes more. */
    method Keep(remaining: string)
      requires Valid() && !conn.phase.Disconnected?
      modifies this`conn, this`signals, channel, outputBuffer, outputBuffer.buffer
      ensures Valid() && conn == TcpStream.Keep(old(conn), remaining)
      ensures outputBuffer.buffer == old(outputBuffer.buffer) || fresh(outputBuffer.buffer)
    {
      if |remaining| > 0 {
        Keeping(conn, remaining);
        SignalCrossing(remaining);
        outputBuffer.Append(remaining);
        WatchForOutput();
        conn := TcpStream.Keep(conn, remaining);
      }
    }

    method SignalCrossing(remaining: string)
      requires Valid()
      modifies this`signals
      ensures signals == old(signals) + Crossing(conn, remaining)
    {
      var oldLen := outputBuffer.ReadableBytes();
      if oldLen + |remaining| >= highWaterMark && oldLen < highWaterMark {
        signals := signals + [HighWater(oldLen + |remaining|)];
      } else {
        assert signals + [] == signals;
      }
    }

    method WatchForOutput()
      modifies channel
      ensures channel.events == old(channel.events).(writing := true)
      ensures channel.told ==
              if old(channel.events.writing) then old(channel.told) else old(channel.told) + [Update(channel.events)]
    {
      if !channel.IsWriting() {
        channel.EnableWriting();
      }
    }

    // ------------------------------------------------------ closing down

    method Shutdown()
      requires Valid()
      modifies this`state, this`conn, socket
      ensures Valid() && conn == Step(old(conn), TcpStream.Shutdown)
    {
      if state == Connected {
        state := Disconnecting;
        conn := conn.(phase := Disconnecting);
        ShutdownInLoop();
      }
    }

    method ShutdownInLoop()
      requires Valid()
      modifies this`conn, socket
      ensures Valid() && conn == TcpStream.ShutdownInLoop(old(conn))
    {
      if !channel.IsWriting() {
        socket.ShutdownWrite();
      }
      conn := TcpStream.ShutdownInLoop(conn);
    }

    method HandleClose()
      requires Valid()
      modifies this`state, this`conn, this`calls, this`signals, channel
      ensures Valid() && conn == Close(old(conn))
    {
      state := Disconnected;
      channel.DisableAll();
      calls := calls + [Down(|socket.wire|)];
      signals := signals + [Gone];
      conn := Close(conn);
    }

    method ForceClose()
      requires Valid()
      modifies this`state, this`conn, this`handed
      ensures Valid() && conn == Step(old(conn), TcpStream.ForceClose)
    {
      if state == Connected {
        state := Disconnecting;
        handed := handed + [Closing];
      }
      conn := Step(conn, TcpStream.ForceClose);
    }

    method ForceCloseInLoop()
      requires Valid()
      modifies this`state, this`conn, this`calls, this`signals, channel
      ensures Valid() && conn == if Live(old(conn)) then Close(old(conn)) else old(conn)
    {
      if state == Connected || state == Disconnecting {
        HandleClose();
      }
    }

    // ------------------------------------------------- calls of other threads

    method PostSend(s: string)
      requires Valid()
      modifies this`conn, this`handed
      ensures Valid() && conn == Step(old(conn), TcpStream.PostSend(s))
    {
      if state == Connected {
        handed := handed + [Sending(s)];
      }
      conn := Step(conn, TcpStream.PostSend(s));
    }

    method PostShutdown()
      requires Valid()
      modifies this`state, this`conn, this`handed
      ensures Valid() && conn == Step(old(conn), TcpStream.PostShutdown)
    {
      if state == Connected {
        state := Disconnecting;
        handed := handed + [Finishing];
      }
      conn := Step(conn, TcpStream.PostShutdown);
    }

    /** A caller that has seen the state reaches the loop's queue. */
    method Push(i: nat)
      requires Valid() && Enabled(conn, TcpStream.Push(i))
      modifies this`conn, this`handed, this`queue
      ensures Valid() && conn == Step(old(conn), TcpStream.Push(i))
    {
      handed, queue := handed[..i] + handed[i + 1..], queue + [handed[i]];
      conn := Step(conn, TcpStream.Push(i));
    }

    /** The loop takes the next functor of this connection. */
    method RunNext(r: Outcome)
      requires Valid() && Enabled(conn, TcpStream.RunNext(r))
      modifies this`state, this`conn, this`calls, this`signals, this`queue, channel, socket
      modifies outputBuffer, outputBuffer.buffer
      ensures Valid() && conn == Step(old(conn), TcpStream.RunNext(r))
    {
      RunWork(queue[0], r);
      queue := queue[1..];
      conn := conn.(queue := conn.queue[1..]);
    }

    method RunWork(w: Work, r: Outcome)
      requires Valid() && (w.Sending? ==> Possible(conn, r, w.s))
      modifies this`state, this`conn, this`calls, this`signals, channel, socket
      modifies outputBuffer, outputBuffer.buffer
      ensures Valid() && conn == TcpStream.RunWork(old(conn), w, r)
    {
      match w
      case Sending(s) => SendInLoop(s, r);
      case Finishing => ShutdownInLoop();
      case Closing => ForceCloseInLoop();
    }

    // --------------------------------------------------------------- lifecycle

    method ConnectEstablished()
      requires Valid() && Enabled(conn, Establish)
      modifies this`state, this`conn, this`calls, this`signals, channel
      ensures Valid() && conn == Step(old(conn), Establish)
    {
      state := Connected;
      channel.EnableReading();
      calls := calls + [Up];
      conn := Step(conn, Establish);
    }

    method ConnectDestroyed()
      requires Valid() && Enabled(conn, Destroy)
      modifies this`state, this`conn, this`calls, this`signals, channel
      ensures Valid() && conn == Step(old(conn), Destroy)
    {
      if state == Connected || state == Disconnecting {
        state := Disconnected;
        calls := calls + [Down(|socket.wire|)];
      }
      channel.Remove();
      conn := Step(conn, Destroy);
    }

    // -------------------------------------------------------------- dispatch

    method Poll(v: Revents)
      requires Valid() && Enabled(conn, TcpStream.Poll(v))
      modifies this`conn, this`revents
      ensures Valid() && conn == Step(old(conn), TcpStream.Poll(v))
    {
      revents := Some(v);
      conn := Step(conn, TcpStream.Poll(v));
    }

    method HandleWrite(r: Outcome)
      requires Valid() && Possible(conn, r, conn.out)
      modifies this`conn, this`signals, channel, socket, outputBuffer
      ensures Valid() && conn == TcpStream.HandleWrite(old(conn), r)
    {
      if channel.IsWriting() {
        ghost var c := conn;
        var n := socket.Write(outputBuffer.buffer[outputBuffer.readerIndex..outputBuffer.writerIndex], r);
        if n > 0 {
          var _ := outputBuffer.Retrieve(n);
          conn := Noted(conn, conn.(wire := conn.wire + conn.out[..n], out := conn.out[n..]));
          if outputBuffer.ReadableBytes() == 0 {
            channel.DisableWriting();
            Drained();
          }
        } else {
          assert r.Wrote? ==> c.wire + c.out[..0] == c.wire;
        }
      }
    }

    /** All output is written. */
    method Drained()
      requires Valid() && conn.out == ""
      modifies this`conn, this`signals, socket
      ensures Valid() && conn == TcpStream.Drained(old(conn))
    {
      signals := signals + [WriteComplete];
      conn := conn.(signals := conn.signals + [WriteComplete]);
      if state == Disconnecting {
        ShutdownInLoop();
      }
    }

    method HandleRead(input: Input)
      requires Valid() && (input.Got? ==> |input.bytes| <= inputBuffer.ReadCapacity())
      modifies this`state, this`conn, this`calls, this`signals, channel, inputBuffer, inputBuffer.buffer
      ensures Valid() && conn == TcpStream.HandleRead(old(conn), input)
      ensures inputBuffer.Contents() == old(inputBuffer.Contents()) + if input.Got? then input.bytes else ""
    {
      var n := inputBuffer.ReadFd(if input.Got? then Some(input.bytes) else None);
      if n > 0 {
        signals := signals + [Message];
        conn := TcpStream.HandleRead(conn, input);
      } else if n == 0 {
        HandleClose();
      }
    }

    method SetHighWaterMark(mark: nat)
      requires Valid()
      modifies this`conn, this`highWaterMark
      ensures Valid() && conn == Step(old(conn), TcpStream.SetHighWaterMark(mark))
    {
      highWaterMark := mark;
      conn := Step(conn, TcpStream.SetHighWaterMark(mark));
    }

    method TryRead() returns (s: string)
      requires Valid()
      ensures s == inputBuffer.Contents()
    {
      s := inputBuffer.buffer[inputBuffer.readerIndex..inputBuffer.writerIndex];
    }

    method ReadAll() returns (s: string)
      requires Valid()
      modifies inputBuffer
      ensures Valid() && conn == old(conn)
      ensures s == old(inputBuffer.Contents()) && inputBuffer.Contents() == ""
      ensures inputBuffer.taken == old(inputBuffer.taken) + s
    {
      s := TryRead();
      var _ := inputBuffer.Retrieve(|s|);
    }

    /** The next callback of the reported events, as the channel dispatches them. */
    method HandleNext(input: Input, r: Outcome)
      requires Valid() && Enabled(conn, Handle(input, r))
      requires input.Got? ==> |input.bytes| <= inputBuffer.ReadCapacity()
      modifies this`state, this`conn, this`calls, this`signals, this`revents, channel, socket
      modifies outputBuffer, outputBuffer.buffer, inputBuffer, inputBuffer.buffer
      ensures Valid() && conn == Step(old(conn), Handle(input, r))
    {
      var v := revents.value;
      if v.hup && !v.readable {
        HandleClose();
        Dispatched(Some(v.(hup := false)));
      } else if v.error {
        Dispatched(Some(v.(error := false)));
      } else if v.readable {
        HandleRead(input);
        Dispatched(Some(v.(hup := false, readable := false)));
      } else if v.writable {
        HandleWrite(r);
        Dispatched(Some(v.(writable := false)));
      } else {
        Dispatched(None);
      }
    }

    method Dispatched(rest: Option<Revents>)
      requires Valid()
      modifies this`conn, this`revents
      ensures Valid() && conn == old(conn).(armed := rest)
    {
      revents := rest;
      conn := conn.(armed := rest);
    }
  }
}
