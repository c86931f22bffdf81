/** The double-buffered logger: producers fill the current buffer under a lock,
    one consumer takes the full ones away, writes them and hands two back. */
module AsyncLoggings {
  import opened LogFlow
  import opened LogFiles

  /** Who owns a buffer.  A full buffer keeps its ticket from the queue through
      the batch; the tickets are handed out in the order of the queue. */
  datatype Home = Current | Next | Spare1 | Spare2 | Full(ticket: nat)

  /** All there is to know about a buffer: whether its characters are those of its
      lines, how large it is, whose it is, and the lines. */
  datatype Deed = Deed(sound: bool, size: nat, home: Home, lines: seq<Line>)

  /** A block of `size` characters, filled from the front with whole lines. */
  class Buffer {
    const size: nat
    var data: seq<char>
    var cur: nat
    ghost var lines: seq<Line>
    ghost var home: Home

    ghost predicate Valid()
      reads this
    {
      cur <= |data| == size && data[..cur] == Text(lines)
    }

    ghost function Holds(): Deed
      reads this
    {
      Deed(Valid(), size, home, lines)
    }

    constructor (size: nat, ghost home: Home)
      ensures Valid() && lines == [] && cur == 0 && this.size == size && this.home == home
    {
      this.home := home;
      this.size := size;
      data := seq(size, _ => '\0');
      cur := 0;
      lines := [];
    }

    function Length(): nat
      reads this
    {
      cur
    }

    function Avail(): int
      reads this
    {
      size - cur
    }

    /** A text that does not fit, with one character to spare, is not stored. */
    method Append(buf: string, ghost no: nat)
      requires Valid()
      modifies this`data, this`cur, this`lines
      ensures Valid()
      ensures lines == if old(Avail()) > |buf| then old(lines) + [Line(no, buf)] else old(lines)
    {
      if Avail() > |buf| {
        data := data[..cur] + buf + data[cur + |buf|..];
        assert data[..cur + |buf|] == old(data[..cur]) + buf;
        assert (lines + [Line(no, buf)])[..|lines|] == lines;
        cur := cur + |buf|;
        lines := lines + [Line(no, buf)];
      }
    }

    method Reset()
      requires Valid()
      modifies this`cur, this`lines
      ensures Valid() && lines == [] && cur == 0
    {
      cur := 0;
      lines := [];
    }
  }

  function OutText(items: seq<Item>): string {
    if items == [] then []
    else OutText(items[..|items| - 1]) + ItemText(items[|items| - 1])
  }

  function ItemText(item: Item): string {
    match item
    case Written(line) => line.text
    case Notice(text) => text
  }

  lemma OutTextPush(p: seq<Item>, item: Item)
    ensures OutText(p + [item]) == OutText(p) + ItemText(item)
  {
    assert (p + [item])[..|p|] == p;
  }

  lemma {:induction false} OutTextAppend(p: seq<Item>, q: seq<Item>)
    ensures OutText(p + q) == OutText(p) + OutText(q)
  {
    if q == [] {
      assert p + q == p;
    } else {
      var q0, x := q[..|q| - 1], q[|q| - 1];
      assert q == q0 + [x];
      Regroup(p, q0, [x]);
      OutTextAppend(p, q0);
      OutTextPush(p + q0, x);
      Regroup(OutText(p), OutText(q0), ItemText(x));
    }
  }

  lemma OutTextOfLines(lines: seq<Line>)
    ensures OutText(AsItems(lines)) == Text(lines)
  {
    if lines != [] {
      var n := |lines| - 1;
      OutTextOfLines(lines[..n]);
      assert AsItems(lines)[..n] == AsItems(lines[..n]);
    }
  }

  lemma NoticeText(items: seq<Item>, notice: string)
    ensures OutText(items + [Notice(notice)]) == OutText(items) + notice
  {
    OutTextPush(items, Notice(notice));
  }

  lemma LinesText(items: seq<Item>, lines: seq<Line>)
    ensures OutText(items + AsItems(lines)) == OutText(items) + Text(lines)
  {
    OutTextAppend(items, AsItems(lines));
    OutTextOfLines(lines);
  }

  /** What happens around one round of the consumer: lines that come in before it
      has the lock, between that and its look at the batch, and after step k of
      its writing; the notice it would write about dropped buffers; and what the
      clock says at step k. */
  datatype Surroundings = Surroundings(
    before: seq<string>, swapped: seq<string>, during: nat -> seq<string>, notice: string, clock: nat -> int)

  /** The consumer writes n buffers, and lines come in after each. */
  function Writes(during: nat -> seq<string>, n: nat): seq<Event> {
    if n == 0 then [] else Writes(during, n - 1) + [LogFlow.WriteNext] + Appends(during(n))
  }

  /** From the swap to the first write. */
  function Trims(around: Surroundings): seq<Event> {
    Appends(around.swapped) + [LogFlow.Cut(around.notice)] + Appends(around.during(0))
  }

  /** All that happens in a round after its swap, if n buffers are written. */
  function AfterSwap(around: Surroundings, n: nat): seq<Event> {
    Trims(around) + Writes(around.during, n) + [LogFlow.Recycle]
  }

  function RoundEvents(around: Surroundings, n: nat): seq<Event> {
    Appends(around.before) + [LogFlow.Swap] + AfterSwap(around, n)
  }

  /** All that happens in some rounds, with so many buffers written in each. */
  function AllEvents(rounds: seq<Surroundings>, written: seq<nat>): seq<Event>
    requires |written| == |rounds|
  {
    if rounds == [] then []
    else
      var n := |rounds| - 1;
      AllEvents(rounds[..n], written[..n]) + RoundEvents(rounds[n], written[n])
  }

  lemma AllRounds(rounds: seq<Surroundings>, k: nat, written: seq<nat>)
    requires |written| == k == |rounds|
    ensures AllEvents(rounds[..k], written) == AllEvents(rounds, written)
  {
    assert rounds[..k] == rounds;
  }

  lemma OneRoundMore(rounds: seq<Surroundings>, written: seq<nat>, k: nat, n: nat)
    requires |written| == k < |rounds|
    ensures AllEvents(rounds[..k + 1], written + [n]) == AllEvents(rounds[..k], written) + RoundEvents(rounds[k], n)
  {
    assert rounds[..k + 1][..k] == rounds[..k] && (written + [n])[..k] == written;
  }

  lemma RoundInOrder(events: seq<Event>, around: Surroundings, n: nat)
    ensures events + RoundEvents(around, n) ==
            events + Appends(around.before) + [LogFlow.Swap] + Trims(around) + Writes(around.during, n) +
            [LogFlow.Recycle]
  {
    var a, b, c, d := Appends(around.before), [LogFlow.Swap], Trims(around), Writes(around.during, n);
    assert events + a + b + c + d + [LogFlow.Recycle] == events + (a + b + (c + d + [LogFlow.Recycle]));
  }

  lemma NoWrites(events: seq<Event>, during: nat -> seq<string>)
    ensures events + Writes(during, 0) == events
  {
  }

  lemma WritesNoSwap(during: nat -> seq<string>, n: nat)
    ensures NoSwap(Writes(during, n))
  {
  }

  lemma RoundFlushed(events: seq<Event>, around: Surroundings, n: nat, f: Flow, size: nat)
    requires LeadsTo(events + RoundEvents(around, n), f, size) && f.phase.Idle?
    ensures Flushed(f, |Storable(Logged(events) + around.before, size)|)
  {
    var before := events + Appends(around.before);
    WritesNoSwap(around.during, n);
    assert events + RoundEvents(around, n) == before + [LogFlow.Swap] + AfterSwap(around, n);
    BatchFlushed(before, AfterSwap(around, n), f, size);
    LoggedAppend(events, Appends(around.before));
    LoggedAppends(around.before);
  }

  class AsyncLogging {
    const size: nat
    var currentBuffer: Buffer?
    var nextBuffer: Buffer?
    var buffers: seq<Buffer>
    const file: LogFile

    ghost var flow: Flow
    // Every buffer ever made for this logger.
    ghost var pool: set<Buffer>
    // The tickets of the first buffer queued and of the first in the batch.
    ghost var queued: nat
    ghost var taken: nat

    ghost predicate Owns(b: Buffer, home: Home, lines: seq<Line>)
      reads `pool, b
    {
      b in pool && b.Holds() == Deed(true, size, home, lines)
    }

    ghost predicate Queue(bs: seq<Buffer>, first: nat, lists: seq<seq<Line>>)
      reads `pool, bs
    {
      |bs| == |lists| && forall i :: 0 <= i < |bs| ==> Owns(bs[i], Full(first + i), lists[i])
    }

    lemma QueuePush(bs: seq<Buffer>, first: nat, lists: seq<seq<Line>>, b: Buffer, list: seq<Line>)
      requires Queue(bs, first, lists) && Owns(b, Full(first + |bs|), list)
      ensures Queue(bs + [b], first, lists + [list])
    {
    }

    lemma QueueTake(bs: seq<Buffer>, first: nat, lists: seq<seq<Line>>, k: nat)
      requires Queue(bs, first, lists) && k <= |bs|
      ensures Queue(bs[..k], first, lists[..k])
    {
    }

    /** What the producers rely on, and leave behind, whenever the lock is free. */
    ghost predicate Shared(queue: seq<seq<Line>>, current: seq<Line>)
      reads `currentBuffer, `nextBuffer, `buffers, `queued, `pool, currentBuffer, nextBuffer, buffers
    {
      && currentBuffer != null && Owns(currentBuffer, Current, current)
      && (nextBuffer != null ==> Owns(nextBuffer, Next, []))
      && (nextBuffer == null ==> buffers != [])
      && Queue(buffers, queued, queue)
    }

    /** In the middle of a locked section, the current buffer has been moved away. */
    ghost predicate Moved(queue: seq<seq<Line>>)
      reads `currentBuffer, `nextBuffer, `buffers, `queued, `pool, nextBuffer, buffers
    {
      && currentBuffer == null
      && (nextBuffer != null ==> Owns(nextBuffer, Next, []))
      && |buffers| >= (if nextBuffer == null then 2 else 1)
      && Queue(buffers, queued, queue)
    }

    /** The file holds what the flow says was written. */
    ghost predicate Filed(out: seq<Item>)
      reads file
    {
      file.Valid() && file.Total() == OutText(out)
    }

    ghost predicate Valid()
      reads this, currentBuffer, nextBuffer, buffers, file
    {
      Shared(flow.queue, flow.current) && Filed(flow.out)
    }

    /** What the consumer holds while it works on a batch: enough buffers to have
        two spares again at the end. */
    ghost predicate Batch(bs: seq<Buffer>, spare: Buffer?)
      reads `flow, `taken, `queued, `pool, bs, spare
    {
      && bs != [] && Queue(bs, taken, flow.batch) && taken + |bs| <= queued
      && (spare == null ==> |bs| >= 2)
      && (spare != null ==> Owns(spare, Spare2, []))
    }

    constructor (size: nat, rollSize: int, flushInterval: int, checkEveryN: int, now: int)
      ensures Valid() && flow == LogFlow.EMPTY && this.size == size
      ensures file.rollSize == rollSize && fresh(file) && fresh(pool)
    {
      this.size := size;
      currentBuffer := new Buffer(size, Current);
      nextBuffer := new Buffer(size, Next);
      buffers := [];
      pool := {currentBuffer, nextBuffer};
      file := new LogFile(rollSize, flushInterval, checkEveryN, now);
      flow, queued, taken := LogFlow.EMPTY, 0, 0;
    }

    // ------------------------------------------------------------- producers

    /** Store a line in the current buffer, if it fits. */
    method Put(logline: string, ghost queue: seq<seq<Line>>, ghost current: seq<Line>, ghost no: nat)
      requires Shared(queue, current)
      modifies currentBuffer
      ensures Shared(queue, if |Text(current)| + |logline| < size then current + [Line(no, logline)] else current)
    {
      assert currentBuffer.Avail() == size - |Text(current)|;
      currentBuffer.Append(logline, no);
      assert Owns(currentBuffer, Current,
                  if |Text(current)| + |logline| < size then current + [Line(no, logline)] else current);
    }

    /** Move the current buffer to the end of the queue. */
    method Enqueue(ghost queue: seq<seq<Line>>, ghost current: seq<Line>)
      requires Shared(queue, current)
      modifies this`currentBuffer, this`buffers, currentBuffer
      ensures Moved(queue + [current])
      ensures buffers == old(buffers) + [old(currentBuffer)]
    {
      currentBuffer.home := Full(queued + |buffers|);
      QueuePush(buffers, queued, queue, currentBuffer, current);
      buffers := buffers + [currentBuffer];
      currentBuffer := null;
    }

    /** Take the spare buffer, or a new one. */
    method Refill(ghost queue: seq<seq<Line>>)
      requires Moved(queue)
      modifies this`currentBuffer, this`nextBuffer, this`pool, nextBuffer
      ensures pool >= old(pool) && fresh(pool - old(pool))
      ensures Shared(queue, [])
      ensures currentBuffer == old(nextBuffer) || fresh(currentBuffer)
      ensures nextBuffer == null
    {
      if nextBuffer != null {
        currentBuffer := nextBuffer;
        currentBuffer.home := Current;
        nextBuffer := null;
      } else {
        currentBuffer := new Buffer(size, Current);
        pool := pool + {currentBuffer};
      }
    }

    /** Store a line in the next buffer, which is empty. */
    method PutInNext(logline: string, ghost queue: seq<seq<Line>>, ghost current: seq<Line>, ghost no: nat)
      requires Shared(queue, current)
      modifies this`currentBuffer, this`nextBuffer, this`buffers, this`pool, currentBuffer, nextBuffer
      ensures pool >= old(pool) && fresh(pool - old(pool))
      ensures Shared(queue + [current], if |logline| < size then [Line(no, logline)] else [])
      ensures currentBuffer == old(nextBuffer) || fresh(currentBuffer)
      ensures nextBuffer == null
    {
      Enqueue(queue, current);
      Refill(queue + [current]);
      Put(logline, queue + [current], [], no);
    }

    /** A producer's call, from taking the lock to releasing it. */
    method Append(logline: string)
      requires Valid()
      modifies this`currentBuffer, this`nextBuffer, this`buffers, this`flow, this`pool, currentBuffer, nextBuffer
      ensures pool >= old(pool) && fresh(pool - old(pool))
      ensures Valid()
      ensures flow == Step(old(flow), LogFlow.Append(logline), size)
      ensures currentBuffer == old(currentBuffer) || currentBuffer == old(nextBuffer) || fresh(currentBuffer)
      ensures nextBuffer == null || nextBuffer == old(nextBuffer)
    {
      Store(logline);
      flow := Step(flow, LogFlow.Append(logline), size);
    }

    method Store(logline: string)
      requires Shared(flow.queue, flow.current)
      modifies this`currentBuffer, this`nextBuffer, this`buffers, this`pool, currentBuffer, nextBuffer
      ensures pool >= old(pool) && fresh(pool - old(pool))
      ensures var g := Step(flow, LogFlow.Append(logline), size); Shared(g.queue, g.current)
      ensures currentBuffer == old(currentBuffer) || currentBuffer == old(nextBuffer) || fresh(currentBuffer)
      ensures nextBuffer == null || nextBuffer == old(nextBuffer)
    {
      ghost var no := |flow.accepted|;
      if currentBuffer.Avail() > |logline| {
        Put(logline, flow.queue, flow.current, no);
      } else {
        PutInNext(logline, flow.queue, flow.current, no);
      }
    }

    // -------------------------------------------------------------- consumer

    /** The consumer's locked section: take everything queued, the current
        buffer included, and leave its two spares in place of what is missing. */
    method Swap(newBuffer1: Buffer, newBuffer2: Buffer) returns (batch: seq<Buffer>, spare: Buffer?)
      requires Valid() && flow.phase.Idle?
      requires Owns(newBuffer1, Spare1, []) && Owns(newBuffer2, Spare2, [])
      modifies this`currentBuffer, this`nextBuffer, this`buffers, this`flow, this`queued, this`taken
      modifies currentBuffer, newBuffer1, newBuffer2
      ensures Valid() && flow == Step(old(flow), LogFlow.Swap, size)
      ensures Batch(batch, spare) && (spare == newBuffer2 || spare == null)
    {
      Enqueue(flow.queue, flow.current);
      batch := buffers;
      spare := Exchange(newBuffer1, newBuffer2, flow.queue + [flow.current]);
      flow := Step(flow, LogFlow.Swap, size);
    }

    method Exchange(newBuffer1: Buffer, newBuffer2: Buffer, ghost queue: seq<seq<Line>>) returns (spare: Buffer?)
      requires Moved(queue)
      requires Owns(newBuffer1, Spare1, []) && Owns(newBuffer2, Spare2, [])
      modifies this`currentBuffer, this`nextBuffer, this`buffers, this`queued, this`taken
      modifies newBuffer1, newBuffer2
      ensures Shared([], [])
      ensures var bs := old(buffers);
              bs != [] && Queue(bs, taken, queue) && taken + |bs| <= queued && (spare == null ==> |bs| >= 2)
      ensures spare == null || (spare == newBuffer2 && Owns(spare, Spare2, []))
    {
      currentBuffer := newBuffer1;
      currentBuffer.home := Current;
      taken, queued := queued, queued + |buffers|;
      buffers := [];
      spare := newBuffer2;
      if nextBuffer == null {
        nextBuffer := spare;
        nextBuffer.home := Next;
        spare := null;
      }
    }

    /** Too many buffers: write a notice instead, and keep the first two. */
    method Cut(buffersToWrite: seq<Buffer>, ghost spare: Buffer?, notice: string, now: int, later: int)
      returns (kept: seq<Buffer>)
      requires Valid() && Batch(buffersToWrite, spare) && flow.phase.Cutting?
      modifies this`flow, file
      ensures Valid() && flow == Step(old(flow), LogFlow.Cut(notice), size)
      ensures Batch(kept, spare)
    {
      kept := Drop(buffersToWrite, spare, notice, now, later);
      flow := Step(flow, LogFlow.Cut(notice), size);
    }

    method Drop(buffersToWrite: seq<Buffer>, ghost spare: Buffer?, notice: string, now: int, later: int)
      returns (kept: seq<Buffer>)
      requires Filed(flow.out) && Batch(buffersToWrite, spare) && flow.phase.Cutting?
      modifies file
      ensures var g := Step(flow, LogFlow.Cut(notice), size); Filed(g.out) && Queue(kept, taken, g.batch)
      ensures if |buffersToWrite| > MAX_BATCH then |kept| == 2 else kept == buffersToWrite
    {
      kept := buffersToWrite;
      if |buffersToWrite| > MAX_BATCH {
        WriteNotice(notice, flow.out, now, later);
        kept := buffersToWrite[..2];
        QueueTake(buffersToWrite, taken, flow.batch, 2);
      }
    }

    method WriteNotice(notice: string, ghost out: seq<Item>, now: int, later: int)
      requires Filed(out)
      modifies file
      ensures Filed(out + [Notice(notice)])
    {
      NoticeText(out, notice);
      file.Append(notice, now, later);
    }

    /** One turn of the loop over the batch. */
    method WriteNext(buffersToWrite: seq<Buffer>, ghost spare: Buffer?, next: nat, now: int, later: int)
      requires Valid() && Batch(buffersToWrite, spare) && flow.phase == Writing(next) && next < |buffersToWrite|
      modifies this`flow, file
      ensures Valid() && flow == Step(old(flow), LogFlow.WriteNext, size)
      ensures Batch(buffersToWrite, spare)
    {
      WriteOut(buffersToWrite[next], taken + next, flow.batch[next], flow.out, now, later);
      flow := Step(flow, LogFlow.WriteNext, size);
    }

    method WriteOut(
        buffer: Buffer, ghost ticket: nat, ghost lines: seq<Line>, ghost out: seq<Item>, now: int, later: int)
      requires Owns(buffer, Full(ticket), lines) && Filed(out)
      modifies file
      ensures Filed(out + AsItems(lines))
    {
      LinesText(out, lines);
      file.Append(buffer.data[..buffer.Length()], now, later);
    }

    /** Take the last buffers of the batch back as spares and free the others. */
    method Recycle(batch: seq<Buffer>, spare: Buffer?) returns (newBuffer1: Buffer, newBuffer2: Buffer)
      requires Valid() && Batch(batch, spare) && flow.phase == Writing(|batch|)
      modifies this`flow, batch
      ensures Valid() && flow == Step(old(flow), LogFlow.Recycle, size)
      ensures Owns(newBuffer1, Spare1, []) && Owns(newBuffer2, Spare2, [])
      ensures newBuffer1 in batch && (newBuffer2 in batch || newBuffer2 == spare)
    {
      newBuffer1, newBuffer2 := TakeBack(batch, spare);
      flow := Step(flow, LogFlow.Recycle, size);
    }

    method TakeBack(batch: seq<Buffer>, spare: Buffer?) returns (newBuffer1: Buffer, newBuffer2: Buffer)
      requires Batch(batch, spare)
      modifies batch
      ensures Owns(newBuffer1, Spare1, []) && Owns(newBuffer2, Spare2, [])
      ensures newBuffer1 in batch && (newBuffer2 in batch || newBuffer2 == spare)
    {
      var buffersToWrite := batch;
      assert buffersToWrite != [];
      newBuffer1 := buffersToWrite[|buffersToWrite| - 1];
      buffersToWrite := buffersToWrite[..|buffersToWrite| - 1];
      newBuffer1.Reset();
      newBuffer1.home := Spare1;
      if spare == null {
        assert buffersToWrite != [];
        newBuffer2 := buffersToWrite[|buffersToWrite| - 1];
        newBuffer2.Reset();
        newBuffer2.home := Spare2;
      } else {
        newBuffer2 := spare;
      }
    }

    // ---------------------------------------------------------- the whole run

    /** What producers may do between two steps of the consumer. */
    method Interfere(lines: seq<string>)
      requires Valid()
      modifies this`currentBuffer, this`nextBuffer, this`buffers, this`flow, this`pool, currentBuffer, nextBuffer
      ensures pool >= old(pool) && fresh(pool - old(pool))
      ensures Valid()
      ensures flow == AppendAll(old(flow), lines, size)
      ensures currentBuffer == old(currentBuffer) || currentBuffer == old(nextBuffer) || fresh(currentBuffer)
      ensures nextBuffer == null || nextBuffer == old(nextBuffer)
      decreases |lines|
    {
      if lines != [] {
        Append(lines[0]);
        Interfere(lines[1..]);
      }
    }

    lemma BatchApart(bs: seq<Buffer>, spare: Buffer?)
      requires Valid() && Batch(bs, spare)
      ensures currentBuffer !in bs && nextBuffer !in bs
      ensures currentBuffer != spare && (spare != null ==> nextBuffer != spare)
    {
    }

    /** The producers do not disturb what the consumer has in hand. */
    method InterfereWith(lines: seq<string>, ghost bs: seq<Buffer>, ghost spare: Buffer?, ghost events: seq<Event>)
      requires Valid() && Batch(bs, spare) && LeadsTo(events, flow, size)
      modifies this`currentBuffer, this`nextBuffer, this`buffers, this`flow, this`pool, currentBuffer, nextBuffer
      ensures pool >= old(pool) && fresh(pool - old(pool))
      ensures Valid() && Batch(bs, spare) && LeadsTo(events + Appends(lines), flow, size)
      ensures flow.phase == old(flow).phase
    {
      BatchApart(bs, spare);
      AppendAllLeads(events, flow, lines, size);
      Interfere(lines);
    }

    /** One turn of the consumer's loop, and what comes in meanwhile. */
    method WriteTurn(
        batch: seq<Buffer>, spare: Buffer?, next: nat, now: int, input: seq<string>, ghost events: seq<Event>)
      requires Valid() && Batch(batch, spare) && LeadsTo(events, flow, size)
      requires flow.phase == Writing(next) && next < |batch|
      modifies this`currentBuffer, this`nextBuffer, this`buffers, this`flow, this`pool, currentBuffer, nextBuffer, file
      ensures pool >= old(pool) && fresh(pool - old(pool))
      ensures Valid() && Batch(batch, spare) && LeadsTo(events + [LogFlow.WriteNext] + Appends(input), flow, size)
      ensures flow.phase == Writing(next + 1)
    {
      LeadsOn(events, flow, LogFlow.WriteNext, size);
      WriteNext(batch, spare, next, now, now);
      InterfereWith(input, batch, spare, events + [LogFlow.WriteNext]);
    }

    /** The consumer's loop over a batch. */
    method WriteBatch(batch: seq<Buffer>, spare: Buffer?, around: Surroundings, ghost events: seq<Event>)
      requires Halfway(batch, spare, 0, events)
      modifies this`currentBuffer, this`nextBuffer, this`buffers, this`flow, this`pool, pool, file
      ensures pool >= old(pool) && fresh(pool - old(pool))
      ensures Halfway(batch, spare, |batch|, events + Writes(around.during, |batch|))
    {
      var next := 0;
      ghost var was := pool;
      NoWrites(events, around.during);
      while next < |batch|
        invariant 0 <= next <= |batch|
        invariant was <= pool && fresh(pool - was)
        invariant Halfway(batch, spare, next, events + Writes(around.during, next))
      {
        NthTurn(batch, spare, next, around, events);
        next := next + 1;
      }
    }

    /** The first `next` buffers of the batch are written. */
    ghost predicate Halfway(batch: seq<Buffer>, spare: Buffer?, next: nat, events: seq<Event>)
      reads this, currentBuffer, nextBuffer, buffers, file, batch, spare
    {
      Valid() && Batch(batch, spare) && flow.phase == Writing(next) && LeadsTo(events, flow, size)
    }

    method NthTurn(batch: seq<Buffer>, spare: Buffer?, next: nat, around: Surroundings, ghost events: seq<Event>)
      requires Halfway(batch, spare, next, events + Writes(around.during, next)) && next < |batch|
      modifies this`currentBuffer, this`nextBuffer, this`buffers, this`flow, this`pool, pool, file
      ensures pool >= old(pool) && fresh(pool - old(pool))
      ensures Halfway(batch, spare, next + 1, events + Writes(around.during, next + 1))
    {
      Chain(events, Writes(around.during, next), [LogFlow.WriteNext], Appends(around.during(next + 1)));
      ghost var soFar := events + Writes(around.during, next);
      WriteTurn(batch, spare, next, around.clock(next + 1), around.during(next + 1), soFar);
    }

    lemma Chain<T>(a: seq<T>, b: seq<T>, c: seq<T>, d: seq<T>)
      ensures a + b + c + d == a + (b + c + d)
    {
    }

    /** One round of the consumer, step by step; all that came in before its swap is in
        the file when it ends, but for what was dropped. */
    method Round(newBuffer1: Buffer, newBuffer2: Buffer, around: Surroundings, ghost events: seq<Event>)
      returns (spare1: Buffer, spare2: Buffer, ghost written: nat)
      requires Valid() && LeadsTo(events, flow, size) && flow.phase.Idle?
      requires Owns(newBuffer1, Spare1, []) && Owns(newBuffer2, Spare2, [])
      modifies this`currentBuffer, this`nextBuffer, this`buffers, this`flow, this`pool, this`queued, this`taken
      modifies pool, file
      ensures pool >= old(pool) && fresh(pool - old(pool))
      ensures Valid() && flow.phase.Idle? && LeadsTo(events + RoundEvents(around, written), flow, size)
      ensures Flushed(flow, |Storable(Logged(events) + around.before, size)|)
      ensures Owns(spare1, Spare1, []) && Owns(spare2, Spare2, [])
    {
      var batch, spare := Gather(newBuffer1, newBuffer2, around, events);
      written := |batch|;
      ghost var now := events + Appends(around.before) + [LogFlow.Swap] + Trims(around);
      spare1, spare2 := Finish(batch, spare, around, now);
      RoundInOrder(events, around, written);
      RoundFlushed(events, around, written, flow, size);
    }

    method Gather(newBuffer1: Buffer, newBuffer2: Buffer, around: Surroundings, ghost events: seq<Event>)
      returns (batch: seq<Buffer>, spare: Buffer?)
      requires Valid() && LeadsTo(events, flow, size) && flow.phase.Idle?
      requires Owns(newBuffer1, Spare1, []) && Owns(newBuffer2, Spare2, [])
      modifies this`currentBuffer, this`nextBuffer, this`buffers, this`flow, this`pool, this`queued, this`taken
      modifies pool, file
      ensures pool >= old(pool) && fresh(pool - old(pool))
      ensures Valid() && Batch(batch, spare) && flow.phase == Writing(0)
      ensures LeadsTo(events + Appends(around.before) + [LogFlow.Swap] + Trims(around), flow, size)
    {
      batch, spare := Collect(newBuffer1, newBuffer2, around.before, events);
      batch := Trim(batch, spare, around, events + Appends(around.before) + [LogFlow.Swap]);
    }

    /** From the swap to the first write. */
    method Trim(buffersToWrite: seq<Buffer>, spare: Buffer?, around: Surroundings, ghost events: seq<Event>)
      returns (batch: seq<Buffer>)
      requires Valid() && Batch(buffersToWrite, spare) && LeadsTo(events, flow, size) && flow.phase.Cutting?
      modifies this`currentBuffer, this`nextBuffer, this`buffers, this`flow, this`pool, pool, file
      ensures pool >= old(pool) && fresh(pool - old(pool))
      ensures Valid() && Batch(batch, spare) && flow.phase == Writing(0)
      ensures LeadsTo(events + Trims(around), flow, size)
    {
      InterfereWith(around.swapped, buffersToWrite, spare, events);
      batch := CutTurn(buffersToWrite, spare, around.notice, around.clock(0), around.during(0),
                       events + Appends(around.swapped));
      Chain(events, Appends(around.swapped), [LogFlow.Cut(around.notice)], Appends(around.during(0)));
    }

    method Finish(batch: seq<Buffer>, spare: Buffer?, around: Surroundings, ghost events: seq<Event>)
      returns (spare1: Buffer, spare2: Buffer)
      requires Valid() && Batch(batch, spare) && LeadsTo(events, flow, size) && flow.phase == Writing(0)
      modifies this`currentBuffer, this`nextBuffer, this`buffers, this`flow, this`pool, pool, file
      ensures pool >= old(pool) && fresh(pool - old(pool))
      ensures Valid() && flow.phase.Idle?
      ensures LeadsTo(events + Writes(around.during, |batch|) + [LogFlow.Recycle], flow, size)
      ensures Owns(spare1, Spare1, []) && Owns(spare2, Spare2, [])
    {
      WriteBatch(batch, spare, around, events);
      spare1, spare2 := RecycleTurn(batch, spare, events + Writes(around.during, |batch|));
    }

    method RecycleTurn(batch: seq<Buffer>, spare: Buffer?, ghost events: seq<Event>)
      returns (spare1: Buffer, spare2: Buffer)
      requires Valid() && Batch(batch, spare) && LeadsTo(events, flow, size) && flow.phase == Writing(|batch|)
      modifies this`flow, batch
      ensures Valid() && LeadsTo(events + [LogFlow.Recycle], flow, size) && flow.phase.Idle?
      ensures Owns(spare1, Spare1, []) && Owns(spare2, Spare2, [])
    {
      LeadsOn(events, flow, LogFlow.Recycle, size);
      spare1, spare2 := Recycle(batch, spare);
    }

    method Collect(newBuffer1: Buffer, newBuffer2: Buffer, before: seq<string>, ghost events: seq<Event>)
      returns (batch: seq<Buffer>, spare: Buffer?)
      requires Valid() && LeadsTo(events, flow, size) && flow.phase.Idle?
      requires Owns(newBuffer1, Spare1, []) && Owns(newBuffer2, Spare2, [])
      modifies this`currentBuffer, this`nextBuffer, this`buffers, this`flow, this`pool, this`queued, this`taken, pool
      ensures pool >= old(pool) && fresh(pool - old(pool))
      ensures Valid() && Batch(batch, spare) && flow.phase.Cutting?
      ensures LeadsTo(events + Appends(before) + [LogFlow.Swap], flow, size)
    {
      AppendAllLeads(events, flow, before, size);
      Interfere(before);
      LeadsOn(events + Appends(before), flow, LogFlow.Swap, size);
      batch, spare := Swap(newBuffer1, newBuffer2);
    }

    method CutTurn(
        buffersToWrite: seq<Buffer>, spare: Buffer?, notice: string, now: int, input: seq<string>,
        ghost events: seq<Event>)
      returns (batch: seq<Buffer>)
      requires Valid() && Batch(buffersToWrite, spare) && LeadsTo(events, flow, size) && flow.phase.Cutting?
      modifies this`currentBuffer, this`nextBuffer, this`buffers, this`flow, this`pool, currentBuffer, nextBuffer, file
      ensures pool >= old(pool) && fresh(pool - old(pool))
      ensures Valid() && Batch(batch, spare) && flow.phase == Writing(0)
      ensures LeadsTo(events + [LogFlow.Cut(notice)] + Appends(input), flow, size)
    {
      LeadsOn(events, flow, LogFlow.Cut(notice), size);
      batch := Cut(buffersToWrite, spare, notice, now, now);
      InterfereWith(input, batch, spare, events + [LogFlow.Cut(notice)]);
    }

    method MakeSpares() returns (newBuffer1: Buffer, newBuffer2: Buffer)
      requires Valid()
      modifies this`pool
      ensures pool >= old(pool) && fresh(pool - old(pool))
      ensures Valid() && Owns(newBuffer1, Spare1, []) && Owns(newBuffer2, Spare2, [])
    {
      newBuffer1 := new Buffer(size, Spare1);
      newBuffer2 := new Buffer(size, Spare2);
      pool := pool + {newBuffer1, newBuffer2};
    }

    /** The consumer thread, for any number of rounds and any interleaving with
        the producers: it never meets a null or a used spare buffer, and what
        happens is exactly these rounds, step by step, so that all `LogFlow` says
        of its runs holds of the file. */
    method ThreadFunc(rounds: seq<Surroundings>) returns (ghost written: seq<nat>)
      requires Valid() && flow == LogFlow.EMPTY
      modifies this`currentBuffer, this`nextBuffer, this`buffers, this`flow, this`pool, this`queued, this`taken
      modifies pool, file
      ensures Valid() && file.Total() == OutText(flow.out)
      ensures |written| == |rounds| && LeadsTo(AllEvents(rounds, written), flow, size) && flow.phase.Idle?
    {
      var newBuffer1, newBuffer2 := MakeSpares();
      assert LeadsTo([], flow, size);
      var round := 0;
      ghost var was := pool;
      written := [];
      assert rounds[..0] == [];
      while round < |rounds|
        invariant 0 <= round == |written| <= |rounds|
        invariant was <= pool && fresh(pool - was)
        invariant Valid() && flow.phase.Idle? && LeadsTo(AllEvents(rounds[..round], written), flow, size)
        invariant Owns(newBuffer1, Spare1, []) && Owns(newBuffer2, Spare2, [])
      {
        ghost var n;
        newBuffer1, newBuffer2, n := NthRound(rounds, round, newBuffer1, newBuffer2, written);
        written := written + [n];
        round := round + 1;
      }
      AllRounds(rounds, round, written);
    }

    method NthRound(
        rounds: seq<Surroundings>, k: nat, newBuffer1: Buffer, newBuffer2: Buffer, ghost written: seq<nat>)
      returns (spare1: Buffer, spare2: Buffer, ghost n: nat)
      requires |written| == k < |rounds|
      requires Valid() && flow.phase.Idle? && LeadsTo(AllEvents(rounds[..k], written), flow, size)
      requires Owns(newBuffer1, Spare1, []) && Owns(newBuffer2, Spare2, [])
      modifies this`currentBuffer, this`nextBuffer, this`buffers, this`flow, this`pool, this`queued, this`taken
      modifies pool, file
      ensures pool >= old(pool) && fresh(pool - old(pool))
      ensures Valid() && flow.phase.Idle? && LeadsTo(AllEvents(rounds[..k + 1], written + [n]), flow, size)
      ensures Owns(spare1, Spare1, []) && Owns(spare2, Spare2, [])
    {
      assert newBuffer1.Length() == 0 && newBuffer2.Length() == 0;
      spare1, spare2, n := Round(newBuffer1, newBuffer2, rounds[k], AllEvents(rounds[..k], written));
      OneRoundMore(rounds, written, k, n);
    }
  }

  /** After some rounds of the consumer: the lines accepted are all that came in and
      fit, in order; those that came in before the last swap are in the file or
      dropped; and every line is accounted for. */
  lemma RoundsFlushed(rounds: seq<Surroundings>, written: seq<nat>, f: Flow, size: nat)
    requires |written| == |rounds| > 0 && LeadsTo(AllEvents(rounds, written), f, size) && f.phase.Idle?
    ensures Accounted(f) && f.accepted == Storable(Logged(AllEvents(rounds, written)), size)
    ensures var n := |rounds| - 1;
            Flushed(f, |Storable(Logged(AllEvents(rounds[..n], written[..n])) + rounds[n].before, size)|)
  {
    var n := |rounds| - 1;
    LeadsAccounted(AllEvents(rounds, written), f, size);
    RoundFlushed(AllEvents(rounds[..n], written[..n]), rounds[n], written[n], f, size);
  }
}
