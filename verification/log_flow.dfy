/** Where log lines are on their way from the producers to the file, without
    buffer objects: lists of lines, and who may move them when. */
module LogFlow {
  /** A line and its number in the order in which the lock admitted the lines. */
  datatype Line = Line(no: nat, text: string)

  /** What goes to the file: a line, or the notice that buffers were dropped. */
  datatype Item = Written(line: Line) | Notice(text: string)

  /** What the consumer does next: wait for a batch, cut an oversized batch,
      write buffer `next` of the batch. */
  datatype Phase = Idle | Cutting | Writing(next: nat)

  datatype Flow = Flow(
    accepted: seq<string>,
    current: seq<Line>,
    queue: seq<seq<Line>>,
    batch: seq<seq<Line>>,
    phase: Phase,
    out: seq<Item>,
    dropped: seq<Line>)

  datatype Event =
    | Append(text: string)
    | Swap
    | Cut(notice: string)
    | WriteNext
    | Recycle

  const EMPTY := Flow([], [], [], [], Idle, [], [])

  const MAX_BATCH := 25

  function Text(lines: seq<Line>): string {
    if lines == [] then [] else Text(lines[..|lines| - 1]) + lines[|lines| - 1].text
  }

  function Lines(buffers: seq<seq<Line>>): seq<Line> {
    if buffers == [] then [] else Lines(buffers[..|buffers| - 1]) + buffers[|buffers| - 1]
  }

  function AsItems(lines: seq<Line>): (items: seq<Item>)
    ensures |items| == |lines|
  {
    seq(|lines|, i requires 0 <= i < |lines| => Written(lines[i]))
  }

  predicate Enabled(f: Flow, e: Event) {
    match e
    case Append(_) => true
    case Swap => f.phase.Idle?
    case Cut(_) => f.phase.Cutting?
    case WriteNext => f.phase.Writing? && f.phase.next < |f.batch|
    case Recycle => f.phase.Writing? && f.phase.next >= |f.batch|
  }

  /** A line that fills a whole buffer of `size` characters is never stored. */
  function Step(f: Flow, e: Event, size: nat): Flow
    requires Enabled(f, e)
  {
    match e
    case Append(text) =>
      var line := Line(|f.accepted|, text);
      if |Text(f.current)| + |text| < size then
        f.(accepted := f.accepted + [text], current := f.current + [line])
      else if |text| < size then
        f.(accepted := f.accepted + [text], queue := f.queue + [f.current], current := [line])
      else
        f.(queue := f.queue + [f.current], current := [])
    case Swap =>
      f.(batch := f.queue + [f.current], queue := [], current := [], phase := Cutting)
    case Cut(notice) =>
      if |f.batch| > MAX_BATCH then
        f.(out := f.out + [Notice(notice)], dropped := f.dropped + Lines(f.batch[2..]),
           batch := f.batch[..2], phase := Writing(0))
      else
        f.(phase := Writing(0))
    case WriteNext =>
      f.(out := f.out + AsItems(f.batch[f.phase.next]), phase := Writing(f.phase.next + 1))
    case Recycle =>
      f.(batch := [], phase := Idle)
  }

  predicate CanRun(f: Flow, events: seq<Event>, size: nat)
    decreases |events|
  {
    events == [] || (Enabled(f, events[0]) && CanRun(Step(f, events[0], size), events[1..], size))
  }

  function Run(f: Flow, events: seq<Event>, size: nat): Flow
    requires CanRun(f, events, size)
    decreases |events|
  {
    if events == [] then f else Run(Step(f, events[0], size), events[1..], size)
  }

  lemma {:induction false} RunOneMore(f: Flow, events: seq<Event>, e: Event, size: nat)
    requires CanRun(f, events, size) && Enabled(Run(f, events, size), e)
    ensures CanRun(f, events + [e], size)
    ensures Run(f, events + [e], size) == Step(Run(f, events, size), e, size)
    decreases |events|
  {
    if events == [] {
      assert [e][1..] == [];
    } else {
      RunOneMore(Step(f, events[0], size), events[1..], e, size);
      assert (events + [e])[1..] == events[1..] + [e];
    }
  }

  // --------------------------------------------------------- lists of lines

  lemma {:induction false} LinesAppend(p: seq<seq<Line>>, q: seq<seq<Line>>)
    ensures Lines(p + q) == Lines(p) + Lines(q)
  {
    if q == [] {
      assert p + q == p;
    } else {
      var n := |q| - 1;
      LinesAppend(p, q[..n]);
      assert (p + q)[..|p + q| - 1] == p + q[..n];
    }
  }

  lemma LinesOne(b: seq<Line>)
    ensures Lines([b]) == b
  {
    assert [b][..0] == [];
    assert Lines([]) == [];
  }

  lemma LinesSplit(buffers: seq<seq<Line>>, k: nat)
    requires k <= |buffers|
    ensures Lines(buffers) == Lines(buffers[..k]) + Lines(buffers[k..])
  {
    assert buffers == buffers[..k] + buffers[k..];
    LinesAppend(buffers[..k], buffers[k..]);
  }

  /** The lines among the items written. */
  function WrittenLines(items: seq<Item>): seq<Line> {
    if items == [] then []
    else WrittenLines(items[..|items| - 1]) +
         var last := items[|items| - 1]; if last.Written? then [last.line] else []
  }

  lemma {:induction false} WrittenAppend(p: seq<Item>, q: seq<Item>)
    ensures WrittenLines(p + q) == WrittenLines(p) + WrittenLines(q)
  {
    if q == [] {
      assert p + q == p;
    } else {
      var n := |q| - 1;
      WrittenAppend(p, q[..n]);
      assert (p + q)[..|p + q| - 1] == p + q[..n];
    }
  }

  lemma {:induction false} WrittenAsItems(lines: seq<Line>)
    ensures WrittenLines(AsItems(lines)) == lines
  {
    if lines != [] {
      var n := |lines| - 1;
      WrittenAsItems(lines[..n]);
      assert AsItems(lines)[..n] == AsItems(lines[..n]);
    }
  }

  // ------------------------------------------------------------- all places

  /** The buffers of the batch the consumer has still to write. */
  function Unwritten(f: Flow): seq<seq<Line>> {
    if f.phase.Writing? && f.phase.next <= |f.batch| then f.batch[f.phase.next..]
    else if f.phase.Cutting? then f.batch
    else []
  }

  /** Everything not dropped, from the file back to the producers' buffer. */
  function InTransit(f: Flow): seq<Line> {
    WrittenLines(f.out) + Lines(Unwritten(f)) + Lines(f.queue) + f.current
  }

  function Everything(accepted: seq<string>): seq<Line> {
    seq(|accepted|, i requires 0 <= i < |accepted| => Line(i, accepted[i]))
  }

  ghost predicate Ascending(lines: seq<Line>) {
    forall i, j :: 0 <= i < j < |lines| ==> lines[i].no < lines[j].no
  }

  /** Each accepted line is in transit or dropped, and not both. */
  ghost predicate EachOnce(accepted: seq<string>, transit: seq<Line>, dropped: seq<Line>) {
    forall n :: 0 <= n < |accepted| ==> (Line(n, accepted[n]) in transit) != (Line(n, accepted[n]) in dropped)
  }

  ghost predicate AllGenuine(accepted: seq<string>, lines: seq<Line>) {
    forall i :: 0 <= i < |lines| ==> lines[i].no < |accepted| && lines[i].text == accepted[lines[i].no]
  }

  ghost predicate AccountedFor(accepted: seq<string>, transit: seq<Line>, dropped: seq<Line>) {
    && AllGenuine(accepted, transit) && AllGenuine(accepted, dropped)
    && Ascending(transit)
    && EachOnce(accepted, transit, dropped)
    && (dropped == [] ==> transit == Everything(accepted))
  }

  ghost predicate Accounted(f: Flow) {
    && (f.phase.Idle? ==> f.batch == [])
    && (f.phase.Writing? ==> f.phase.next <= |f.batch|)
    && AccountedFor(f.accepted, InTransit(f), f.dropped)
  }

  // ---------------------------------------------------- how each step moves

  lemma Regroup<T>(a: seq<T>, b: seq<T>, c: seq<T>)
    ensures a + (b + c) == a + b + c
  {
  }

  /** What stands before the queue. */
  function Ahead(f: Flow): seq<Line> {
    WrittenLines(f.out) + Lines(Unwritten(f))
  }

  lemma EnqueueMoves(f: Flow)
    ensures Lines(f.queue + [f.current]) == Lines(f.queue) + f.current
  {
    LinesAppend(f.queue, [f.current]);
    LinesOne(f.current);
  }

  lemma AppendMoves(f: Flow, text: string, size: nat)
    ensures var g := Step(f, Append(text), size);
            if |text| < size
            then g.accepted == f.accepted + [text] && InTransit(g) == InTransit(f) + [Line(|f.accepted|, text)]
            else g.accepted == f.accepted && InTransit(g) == InTransit(f)
  {
    var g := Step(f, Append(text), size);
    assert Ahead(g) == Ahead(f);
    EnqueueMoves(f);
    Regroup(Ahead(f), Lines(f.queue), f.current);
    Regroup(Ahead(f) + Lines(f.queue), f.current, [Line(|f.accepted|, text)]);
  }

  lemma SwapMoves(f: Flow, size: nat)
    requires f.phase.Idle? && f.batch == []
    ensures InTransit(Step(f, Swap, size)) == InTransit(f)
  {
    var g := Step(f, Swap, size);
    EnqueueMoves(f);
    assert Ahead(f) == WrittenLines(f.out);
    assert Ahead(g) == WrittenLines(f.out) + (Lines(f.queue) + f.current);
    Regroup(WrittenLines(f.out), Lines(f.queue), f.current);
    assert InTransit(g) == Ahead(g);
  }

  /** The part of a batch beyond its first two buffers, if it is cut. */
  function Excess(f: Flow): seq<Line> {
    if |f.batch| > MAX_BATCH then Lines(f.batch[2..]) else []
  }

  function Kept(f: Flow): seq<Line> {
    if |f.batch| > MAX_BATCH then Lines(f.batch[..2]) else Lines(f.batch)
  }

  lemma CutMoves(f: Flow, notice: string, size: nat)
    requires f.phase.Cutting?
    ensures var g := Step(f, Cut(notice), size);
            && InTransit(f) == (WrittenLines(f.out) + Kept(f)) + Excess(f) + (Lines(f.queue) + f.current)
            && InTransit(g) == (WrittenLines(f.out) + Kept(f)) + (Lines(f.queue) + f.current)
            && g.dropped == f.dropped + Excess(f)
  {
    var g := Step(f, Cut(notice), size);
    assert Lines(f.batch) == Kept(f) + Excess(f) by {
      if |f.batch| > MAX_BATCH {
        LinesSplit(f.batch, 2);
      }
    }
    assert Lines(Unwritten(g)) == Kept(f) by {
      assert g.batch[0..] == g.batch;
    }
    assert WrittenLines(g.out) == WrittenLines(f.out) by {
      WrittenAppend(f.out, [Notice(notice)]);
      assert [Notice(notice)][..0] == [];
    }
    Regroup(WrittenLines(f.out), Kept(f), Excess(f));
    Regroup(WrittenLines(f.out) + Kept(f) + Excess(f), Lines(f.queue), f.current);
    Regroup(WrittenLines(f.out) + Kept(f), Lines(f.queue), f.current);
  }

  lemma WriteNextMoves(f: Flow, size: nat)
    requires Enabled(f, WriteNext)
    ensures InTransit(Step(f, WriteNext, size)) == InTransit(f)
  {
    var g := Step(f, WriteNext, size);
    var k := f.phase.next;
    assert WrittenLines(g.out) == WrittenLines(f.out) + f.batch[k] by {
      WrittenAppend(f.out, AsItems(f.batch[k]));
      WrittenAsItems(f.batch[k]);
    }
    assert Lines(f.batch[k..]) == f.batch[k] + Lines(f.batch[k + 1..]) by {
      LinesSplit(f.batch[k..], 1);
      LinesOne(f.batch[k]);
      assert f.batch[k..][..1] == [f.batch[k]] && f.batch[k..][1..] == f.batch[k + 1..];
    }
    Regroup(WrittenLines(f.out), f.batch[k], Lines(f.batch[k + 1..]));
  }

  lemma RecycleMoves(f: Flow, size: nat)
    requires Enabled(f, Recycle) && f.phase.next <= |f.batch|
    ensures InTransit(Step(f, Recycle, size)) == InTransit(f)
  {
  }

  // ----------------------------------------------------------- conservation

  lemma OneMoreLine(accepted: seq<string>, transit: seq<Line>, dropped: seq<Line>, text: string)
    requires AccountedFor(accepted, transit, dropped)
    ensures AccountedFor(accepted + [text], transit + [Line(|accepted|, text)], dropped)
  {
    var all, t := accepted + [text], transit + [Line(|accepted|, text)];
    forall n | 0 <= n < |all| ensures (Line(n, all[n]) in t) != (Line(n, all[n]) in dropped) {
      if n < |accepted| {
        assert Line(n, all[n]) == Line(n, accepted[n]);
      } else {
        assert t[|transit|] == Line(n, all[n]);
      }
    }
  }

  lemma AppendAccounted(f: Flow, text: string, size: nat)
    requires Accounted(f)
    ensures Accounted(Step(f, Append(text), size))
  {
    AppendMoves(f, text, size);
    if |text| < size {
      OneMoreLine(f.accepted, InTransit(f), f.dropped, text);
    }
  }

  lemma CutAccounted(f: Flow, notice: string, size: nat)
    requires Accounted(f) && f.phase.Cutting?
    ensures Accounted(Step(f, Cut(notice), size))
  {
    CutMoves(f, notice, size);
    MiddleDropped(f.accepted, WrittenLines(f.out) + Kept(f), Excess(f), Lines(f.queue) + f.current, f.dropped);
  }

  lemma MiddleDropped(accepted: seq<string>, a: seq<Line>, b: seq<Line>, c: seq<Line>, dropped: seq<Line>)
    requires AccountedFor(accepted, a + b + c, dropped)
    ensures AccountedFor(accepted, a + c, dropped + b)
  {
    MiddleOut(a, b, c);
    MiddleGenuine(accepted, a, b, c, dropped);
    assert b == [] ==> a + b + c == a + c;
  }

  lemma MiddleGenuine(accepted: seq<string>, a: seq<Line>, b: seq<Line>, c: seq<Line>, dropped: seq<Line>)
    requires AllGenuine(accepted, a + b + c) && AllGenuine(accepted, dropped)
    requires EachOnce(accepted, a + b + c, dropped) && forall l :: l in b ==> l !in a + c
    ensures AllGenuine(accepted, a + c) && AllGenuine(accepted, dropped + b)
    ensures EachOnce(accepted, a + c, dropped + b)
  {
    forall l | l in a + c || l in b ensures l in a + b + c {
    }
    forall l | l in a + b + c ensures l in a + c || l in b {
    }
    forall i | 0 <= i < |a + c| ensures (a + c)[i] in a + b + c {
    }
    forall i | 0 <= i < |b| ensures b[i] in a + b + c {
    }
  }

  /** Taking the middle out of an ascending list leaves it ascending, and apart
      from the middle. */
  lemma MiddleOut(a: seq<Line>, b: seq<Line>, c: seq<Line>)
    requires Ascending(a + b + c)
    ensures Ascending(a + c)
    ensures forall l :: l in b ==> l !in a + c
  {
    var s := a + b + c;
    forall i, j | 0 <= i < j < |a + c| ensures (a + c)[i].no < (a + c)[j].no {
      var i', j' := if i < |a| then i else i + |b|, if j < |a| then j else j + |b|;
      assert s[i'] == (a + c)[i] && s[j'] == (a + c)[j];
    }
    forall k, i | 0 <= k < |b| && 0 <= i < |a + c| ensures b[k] != (a + c)[i] {
      assert s[|a| + k] == b[k] && s[if i < |a| then i else i + |b|] == (a + c)[i];
    }
  }

  lemma StepAccounted(f: Flow, e: Event, size: nat)
    requires Accounted(f) && Enabled(f, e)
    ensures Accounted(Step(f, e, size))
  {
    match e
    case Append(text) => AppendAccounted(f, text, size);
    case Swap => SwapMoves(f, size);
    case Cut(notice) => CutAccounted(f, notice, size);
    case WriteNext => WriteNextMoves(f, size);
    case Recycle => RecycleMoves(f, size);
  }

  /** Over every interleaving of producers and consumer: the lines written, on
      their way through the batch, queued and in the current buffer are, in
      this order, the accepted lines in lock order but for those dropped; no
      line is in two places, none is altered, and each is either in transit or
      dropped.  If nothing was dropped they are all the accepted lines. */
  lemma {:induction false} RunAccounted(f: Flow, events: seq<Event>, size: nat)
    requires Accounted(f) && CanRun(f, events, size)
    ensures Accounted(Run(f, events, size))
    decreases |events|
  {
    if events != [] {
      StepAccounted(f, events[0], size);
      RunAccounted(Step(f, events[0], size), events[1..], size);
    }
  }

  // ---------------------------------------------------------- what is asked

  /** The lines short enough for a buffer. */
  function Storable(lines: seq<string>, size: nat): seq<string> {
    if lines == [] then []
    else (if |lines[0]| < size then [lines[0]] else []) + Storable(lines[1..], size)
  }

  lemma {:induction false} StorableAppend(p: seq<string>, q: seq<string>, size: nat)
    ensures Storable(p + q, size) == Storable(p, size) + Storable(q, size)
  {
    if p == [] {
      assert p + q == q;
    } else {
      var first := if |p[0]| < size then [p[0]] else [];
      StorableAppend(p[1..], q, size);
      assert (p + q)[1..] == p[1..] + q;
      Regroup(first, Storable(p[1..], size), Storable(q, size));
    }
  }

  /** The lines the producers log in a run. */
  function Logged(events: seq<Event>): seq<string> {
    if events == [] then []
    else (if events[0].Append? then [events[0].text] else []) + Logged(events[1..])
  }

  /** Over every run: every line that fits into a buffer is accepted, in the order
      in which the lock admits them, and no other. */
  lemma {:induction false} RunAccepts(f: Flow, events: seq<Event>, size: nat)
    requires CanRun(f, events, size)
    ensures Run(f, events, size).accepted == f.accepted + Storable(Logged(events), size)
    decreases |events|
  {
    if events != [] {
      var first := if events[0].Append? then [events[0].text] else [];
      RunAccepts(Step(f, events[0], size), events[1..], size);
      StorableAppend(first, Logged(events[1..]), size);
      assert Step(f, events[0], size).accepted == f.accepted + Storable(first, size) by {
        assert first != [] ==> first[1..] == [];
      }
      Regroup(f.accepted, Storable(first, size), Storable(Logged(events[1..]), size));
    }
  }

  /** The accepted lines from number n on. */
  function From(accepted: seq<string>, n: nat): seq<Line>
    requires n <= |accepted|
  {
    Everything(accepted)[n..]
  }

  /** Before the consumer's reach: exactly the lines from number `mark` on. */
  ghost predicate Parted(f: Flow, mark: nat) {
    mark <= |f.accepted| && Lines(f.queue) + f.current == From(f.accepted, mark)
  }

  function MarkAfter(f: Flow, e: Event, mark: nat): nat {
    if e.Swap? then |f.accepted| else mark
  }

  lemma AppendParted(f: Flow, text: string, size: nat, mark: nat)
    requires Parted(f, mark)
    ensures Parted(Step(f, Append(text), size), mark)
  {
    var g := Step(f, Append(text), size);
    var line := Line(|f.accepted|, text);
    EnqueueMoves(f);
    if |text| < size {
      assert Everything(g.accepted) == Everything(f.accepted) + [line];
      assert From(g.accepted, mark) == From(f.accepted, mark) + [line];
      Regroup(Lines(f.queue), f.current, [line]);
    } else {
      assert Lines(f.queue) + f.current + [] == Lines(f.queue) + f.current;
    }
  }

  lemma StepParted(f: Flow, e: Event, size: nat, mark: nat)
    requires Enabled(f, e) && Parted(f, mark)
    ensures Parted(Step(f, e, size), MarkAfter(f, e, mark))
  {
    if e.Append? {
      AppendParted(f, e.text, size, mark);
    }
  }

  /** How many lines had been accepted at the last swap. */
  function LastSwap(f: Flow, events: seq<Event>, size: nat, mark: nat): nat
    requires CanRun(f, events, size)
    decreases |events|
  {
    if events == [] then mark
    else LastSwap(Step(f, events[0], size), events[1..], size, MarkAfter(f, events[0], mark))
  }

  lemma {:induction false} RunParted(f: Flow, events: seq<Event>, size: nat, mark: nat)
    requires CanRun(f, events, size) && Parted(f, mark)
    ensures Parted(Run(f, events, size), LastSwap(f, events, size, mark))
    decreases |events|
  {
    if events != [] {
      StepParted(f, events[0], size, mark);
      RunParted(Step(f, events[0], size), events[1..], size, MarkAfter(f, events[0], mark));
    }
  }

  /** The first n accepted lines have reached the file, but for those dropped. */
  ghost predicate Flushed(f: Flow, n: nat) {
    n <= |f.accepted| &&
    forall k :: 0 <= k < n ==>
      (Line(k, f.accepted[k]) in WrittenLines(f.out)) != (Line(k, f.accepted[k]) in f.dropped)
  }

  lemma IdleFlushed(f: Flow, mark: nat)
    requires Accounted(f) && Parted(f, mark) && f.phase.Idle?
    ensures Flushed(f, mark)
  {
    Regroup(WrittenLines(f.out), Lines(f.queue), f.current);
    assert InTransit(f) == WrittenLines(f.out) + From(f.accepted, mark) by {
      assert Lines(Unwritten(f)) == [] && WrittenLines(f.out) + [] == WrittenLines(f.out);
    }
    forall k | 0 <= k < mark
      ensures (Line(k, f.accepted[k]) in WrittenLines(f.out)) != (Line(k, f.accepted[k]) in f.dropped)
    {
      var l := Line(k, f.accepted[k]);
      assert l !in From(f.accepted, mark);
      assert l in InTransit(f) <==> l in WrittenLines(f.out);
    }
  }

  /** Over every interleaving: when the consumer has finished a batch, all lines
      accepted before its swap are in the file or dropped, and exactly those
      accepted since wait. */
  lemma RunFlushes(events: seq<Event>, size: nat)
    requires CanRun(EMPTY, events, size) && Run(EMPTY, events, size).phase.Idle?
    ensures var f, mark := Run(EMPTY, events, size), LastSwap(EMPTY, events, size, 0);
            Flushed(f, mark) && Lines(f.queue) + f.current == From(f.accepted, mark)
  {
    StartAccounted();
    RunAccounted(EMPTY, events, size);
    assert Parted(EMPTY, 0);
    RunParted(EMPTY, events, size, 0);
    IdleFlushed(Run(EMPTY, events, size), LastSwap(EMPTY, events, size, 0));
  }

  // -------------------------------------------------------- how full buffers are

  /** No two neighbours would have fitted into one buffer. */
  ghost predicate Packed(buffers: seq<seq<Line>>, size: nat) {
    forall i :: 0 <= i < |buffers| - 1 ==> |Text(buffers[i])| + |Text(buffers[i + 1])| >= size
  }

  ghost predicate WellPacked(f: Flow, size: nat) {
    Packed(f.queue + [f.current], size) && (f.phase.Cutting? ==> Packed(f.batch, size))
  }

  lemma TextMore(lines: seq<Line>, line: Line)
    ensures Text(lines + [line]) == Text(lines) + line.text
  {
    assert (lines + [line])[..|lines|] == lines;
  }

  lemma PackedLast(buffers: seq<seq<Line>>, b: seq<Line>, c: seq<Line>, size: nat)
    requires Packed(buffers + [b], size)
    ensures |Text(c)| >= |Text(b)| ==> Packed(buffers + [c], size)
    ensures |Text(b)| + |Text(c)| >= size ==> Packed(buffers + [b] + [c], size)
  {
    var p, q, r := buffers + [b], buffers + [c], buffers + [b] + [c];
    assert forall i :: 0 <= i < |buffers| ==> p[i] == q[i] == r[i];
    forall i | 0 <= i < |q| - 1 && |Text(c)| >= |Text(b)| ensures |Text(q[i])| + |Text(q[i + 1])| >= size {
      assert |Text(p[i])| + |Text(p[i + 1])| >= size;
    }
    forall i | 0 <= i < |r| - 1 && |Text(b)| + |Text(c)| >= size ensures |Text(r[i])| + |Text(r[i + 1])| >= size {
      assert i < |p| - 1 ==> |Text(p[i])| + |Text(p[i + 1])| >= size && p[i + 1] == r[i + 1];
    }
  }

  lemma AppendPacked(f: Flow, text: string, size: nat)
    requires Packed(f.queue + [f.current], size) && |text| < size
    ensures var g := Step(f, Append(text), size); Packed(g.queue + [g.current], size)
  {
    var line := Line(|f.accepted|, text);
    TextMore(f.current, line);
    TextMore([], line);
    assert [] + [line] == [line];
    if |Text(f.current)| + |text| < size {
      PackedLast(f.queue, f.current, f.current + [line], size);
    } else {
      PackedLast(f.queue, f.current, [line], size);
    }
  }

  lemma StepPacked(f: Flow, e: Event, size: nat)
    requires Enabled(f, e) && WellPacked(f, size) && (e.Append? ==> |e.text| < size)
    ensures WellPacked(Step(f, e, size), size)
  {
    if e.Append? {
      AppendPacked(f, e.text, size);
    }
  }

  lemma {:induction false} RunPacked(f: Flow, events: seq<Event>, size: nat)
    requires CanRun(f, events, size) && WellPacked(f, size) && FitAll(Logged(events), size)
    ensures WellPacked(Run(f, events, size), size)
    decreases |events|
  {
    if events != [] {
      if events[0].Append? {
        assert Logged(events)[0] == events[0].text && Logged(events)[1..] == Logged(events[1..]);
      } else {
        assert Logged(events) == Logged(events[1..]);
      }
      StepPacked(f, events[0], size);
      RunPacked(Step(f, events[0], size), events[1..], size);
    }
  }

  /** Every line is shorter than a buffer. */
  predicate FitAll(lines: seq<string>, size: nat) {
    forall i :: 0 <= i < |lines| ==> |lines[i]| < size
  }

  function Volume(buffers: seq<seq<Line>>): nat {
    if buffers == [] then 0 else |Text(buffers[0])| + Volume(buffers[1..])
  }

  lemma PackedRest(buffers: seq<seq<Line>>, size: nat)
    requires Packed(buffers, size) && |buffers| >= 2
    ensures Packed(buffers[2..], size)
    ensures Volume(buffers) >= size + Volume(buffers[2..])
  {
    var rest := buffers[2..];
    assert buffers[1..][1..] == rest;
    assert |Text(buffers[0])| + |Text(buffers[0 + 1])| >= size;
    forall i | 0 <= i < |rest| - 1 ensures |Text(rest[i])| + |Text(rest[i + 1])| >= size {
      assert |Text(buffers[i + 2])| + |Text(buffers[i + 2 + 1])| >= size;
    }
  }

  lemma {:induction false} PackedVolume(buffers: seq<seq<Line>>, pairs: nat, size: nat)
    requires Packed(buffers, size) && |buffers| >= 2 * pairs
    ensures Volume(buffers) >= pairs * size
    decreases pairs
  {
    if pairs > 0 {
      PackedRest(buffers, size);
      PackedVolume(buffers[2..], pairs - 1, size);
      assert pairs * size == (pairs - 1) * size + size;
    }
  }

  /** No buffer is given up too early: if all lines fit into a buffer, a batch that
      is cut holds at least 13 buffers' worth of characters. */
  lemma OverloadIsVolume(events: seq<Event>, size: nat)
    requires CanRun(EMPTY, events, size) && FitAll(Logged(events), size)
    requires var f := Run(EMPTY, events, size); f.phase.Cutting? && |f.batch| > 25
    ensures Volume(Run(EMPTY, events, size).batch) >= 13 * size
  {
    RunPacked(EMPTY, events, size);
    PackedVolume(Run(EMPTY, events, size).batch, 13, size);
  }

  // ---------------------------------------------------------------- notices

  /** The notices among the items written. */
  function NoticesIn(items: seq<Item>): seq<string> {
    if items == [] then []
    else NoticesIn(items[..|items| - 1]) +
         var last := items[|items| - 1]; if last.Notice? then [last.text] else []
  }

  lemma {:induction false} NoticesAppend(p: seq<Item>, q: seq<Item>)
    ensures NoticesIn(p + q) == NoticesIn(p) + NoticesIn(q)
  {
    if q == [] {
      assert p + q == p;
    } else {
      var n := |q| - 1;
      NoticesAppend(p, q[..n]);
      assert (p + q)[..|p + q| - 1] == p + q[..n];
    }
  }

  lemma NoticesInLines(lines: seq<Line>)
    ensures NoticesIn(AsItems(lines)) == []
  {
    if lines != [] {
      var n := |lines| - 1;
      NoticesInLines(lines[..n]);
      assert AsItems(lines)[..n] == AsItems(lines[..n]);
    }
  }

  /** The notices of the cuts that meet an oversized batch. */
  function Notices(f: Flow, events: seq<Event>, size: nat): seq<string>
    requires CanRun(f, events, size)
    decreases |events|
  {
    if events == [] then []
    else (if events[0].Cut? && |f.batch| > 25 then [events[0].notice] else []) +
         Notices(Step(f, events[0], size), events[1..], size)
  }

  lemma StepNotices(f: Flow, e: Event, size: nat)
    requires Enabled(f, e)
    ensures NoticesIn(Step(f, e, size).out) ==
            NoticesIn(f.out) + if e.Cut? && |f.batch| > 25 then [e.notice] else []
  {
    if e.WriteNext? {
      NoticesAppend(f.out, AsItems(f.batch[f.phase.next]));
      NoticesInLines(f.batch[f.phase.next]);
    } else if e.Cut? && |f.batch| > 25 {
      NoticesAppend(f.out, [Notice(e.notice)]);
      assert [Notice(e.notice)][..0] == [];
    }
  }

  /** Over every run: a notice is written for every batch of more than 25 buffers,
      and for no other. */
  lemma {:induction false} RunNotices(f: Flow, events: seq<Event>, size: nat)
    requires CanRun(f, events, size)
    ensures NoticesIn(Run(f, events, size).out) == NoticesIn(f.out) + Notices(f, events, size)
    decreases |events|
  {
    if events != [] {
      var here := if events[0].Cut? && |f.batch| > 25 then [events[0].notice] else [];
      StepNotices(f, events[0], size);
      RunNotices(Step(f, events[0], size), events[1..], size);
      Regroup(NoticesIn(f.out), here, Notices(Step(f, events[0], size), events[1..], size));
    }
  }

  // ------------------------------------------------------------------ losses

  /** The lines beyond the second buffer of every batch of the run that is cut. */
  function Losses(f: Flow, events: seq<Event>, size: nat): seq<Line>
    requires CanRun(f, events, size)
    decreases |events|
  {
    if events == [] then []
    else (if events[0].Cut? then Excess(f) else []) + Losses(Step(f, events[0], size), events[1..], size)
  }

  /** Whenever a batch of the run is cut, there is no line beyond its second buffer. */
  predicate NeverLoses(f: Flow, events: seq<Event>, size: nat)
    requires CanRun(f, events, size)
    decreases |events|
  {
    events == [] ||
    ((events[0].Cut? ==> Excess(f) == []) && NeverLoses(Step(f, events[0], size), events[1..], size))
  }

  lemma {:induction false} RunLosses(f: Flow, events: seq<Event>, size: nat)
    requires CanRun(f, events, size)
    ensures Run(f, events, size).dropped == f.dropped + Losses(f, events, size)
    ensures Losses(f, events, size) == [] <==> NeverLoses(f, events, size)
    decreases |events|
  {
    if events != [] {
      var here := if events[0].Cut? then Excess(f) else [];
      RunLosses(Step(f, events[0], size), events[1..], size);
      Regroup(f.dropped, here, Losses(Step(f, events[0], size), events[1..], size));
    }
  }

  /** Over every interleaving: all accepted lines are in the file or on their way
      to it, in lock order, if and only if no cut meets a line beyond the second
      buffer of its batch; and those lines are what is missing. */
  lemma LosslessIff(events: seq<Event>, size: nat)
    requires CanRun(EMPTY, events, size)
    ensures var f := Run(EMPTY, events, size);
            && (InTransit(f) == Everything(f.accepted) <==> NeverLoses(EMPTY, events, size))
            && (forall n :: 0 <= n < |f.accepted| ==>
                  (Line(n, f.accepted[n]) !in InTransit(f) <==> Line(n, f.accepted[n]) in Losses(EMPTY, events, size)))
  {
    StartAccounted();
    RunAccounted(EMPTY, events, size);
    RunLosses(EMPTY, events, size);
    var f := Run(EMPTY, events, size);
    assert f.dropped == Losses(EMPTY, events, size);
    if f.dropped != [] {
      var l := f.dropped[0];
      assert l == Line(l.no, f.accepted[l.no]) && l in f.dropped && l !in InTransit(f);
      assert Everything(f.accepted)[l.no] == l;
    }
  }

  /** The flow after n lines of one character, with buffers that hold one. */
  function OneEach(n: nat): Flow {
    if n == 0 then EMPTY
    else EMPTY.(accepted := seq(n, _ => "x"),
                queue := seq(n - 1, i requires 0 <= i => [Line(i, "x")]),
                current := [Line(n - 1, "x")])
  }

  lemma {:induction false} FillOneEach(n: nat)
    ensures var events := seq(n, _ => Append("x"));
            CanRun(EMPTY, events, 2) && Run(EMPTY, events, 2) == OneEach(n)
  {
    if n > 0 {
      FillOneEach(n - 1);
      var events := seq(n - 1, _ => Append("x"));
      RunOneMore(EMPTY, events, Append("x"), 2);
      assert events + [Append("x")] == seq(n, _ => Append("x"));
      var f := OneEach(n - 1);
      assert n > 1 ==> Text(f.current) == "x" by {
        assert n > 1 ==> f.current[..0] == [];
      }
      assert Step(f, Append("x"), 2).accepted == OneEach(n).accepted;
      assert Step(f, Append("x"), 2).queue == OneEach(n).queue;
    }
  }

  lemma {:induction false} LinesOfOneEach(lo: nat, n: nat)
    requires lo <= n
    ensures Lines(seq(n - lo, i requires 0 <= i => [Line(lo + i, "x")])) ==
            seq(n - lo, i requires 0 <= i => Line(lo + i, "x"))
  {
    if lo < n {
      LinesOfOneEach(lo, n - 1);
      var b := seq(n - lo, i requires 0 <= i => [Line(lo + i, "x")]);
      assert b[..n - lo - 1] == seq(n - 1 - lo, i requires 0 <= i => [Line(lo + i, "x")]);
    }
  }

  lemma SwapOneEach(n: nat)
    requires n > 25
    ensures var f := Step(OneEach(n), Swap, 2);
            f.phase.Cutting? && |f.batch| == n && f.dropped == [] &&
            Excess(f) == seq(n - 2, i requires 0 <= i => Line(2 + i, "x"))
  {
    var f := Step(OneEach(n), Swap, 2);
    assert f.batch[2..] == seq(n - 2, i requires 0 <= i => [Line(2 + i, "x")]);
    LinesOfOneEach(2, n);
  }

  /** More than 25 full buffers in one batch: all lines but the first two are lost. */
  lemma OverloadLoses(n: nat)
    requires n > 25
    ensures var events := seq(n, _ => Append("x")) + [Swap] + [Cut("")];
            CanRun(EMPTY, events, 2) &&
            Run(EMPTY, events, 2).dropped == seq(n - 2, i requires 0 <= i => Line(2 + i, "x"))
  {
    var fill := seq(n, _ => Append("x"));
    FillOneEach(n);
    SwapOneEach(n);
    RunOneMore(EMPTY, fill, Swap, 2);
    RunOneMore(EMPTY, fill + [Swap], Cut(""), 2);
    var f := Step(OneEach(n), Swap, 2);
    assert f.dropped + Excess(f) == Excess(f);
  }

  /** No cut of the run meets a batch of more than MAX_BATCH buffers. */
  predicate NeverOverfull(f: Flow, events: seq<Event>, size: nat)
    requires CanRun(f, events, size)
    decreases |events|
  {
    events == [] ||
    (!(events[0].Cut? && |f.batch| > MAX_BATCH) && NeverOverfull(Step(f, events[0], size), events[1..], size))
  }

  lemma StartAccounted()
    ensures Accounted(EMPTY)
  {
    assert InTransit(EMPTY) == [];
  }

  lemma {:induction false} SmallBatchesLoseNothing(f: Flow, events: seq<Event>, size: nat)
    requires CanRun(f, events, size) && NeverOverfull(f, events, size)
    ensures NeverLoses(f, events, size)
    decreases |events|
  {
    if events != [] {
      SmallBatchesLoseNothing(Step(f, events[0], size), events[1..], size);
    }
  }

  /** Without overload the file holds a prefix of the accepted lines and nothing
      else, and the rest is still on its way. */
  lemma LogConserved(events: seq<Event>, size: nat)
    requires CanRun(EMPTY, events, size) && NeverOverfull(EMPTY, events, size)
    ensures var f := Run(EMPTY, events, size);
            && InTransit(f) == Everything(f.accepted)
            && WrittenLines(f.out) <= Everything(f.accepted)
            && f.out == AsItems(WrittenLines(f.out))
  {
    SmallBatchesLoseNothing(EMPTY, events, size);
    LosslessIff(events, size);
    OnlyLines(EMPTY, events, size);
  }

  lemma {:induction false} OnlyLines(f: Flow, events: seq<Event>, size: nat)
    requires CanRun(f, events, size) && NeverOverfull(f, events, size)
    requires f.out == AsItems(WrittenLines(f.out))
    ensures var g := Run(f, events, size); g.out == AsItems(WrittenLines(g.out))
    decreases |events|
  {
    if events != [] {
      var g := Step(f, events[0], size);
      if events[0].WriteNext? {
        WrittenAppend(f.out, AsItems(f.batch[f.phase.next]));
        WrittenAsItems(f.batch[f.phase.next]);
      }
      OnlyLines(g, events[1..], size);
    }
  }

  /** Even under overload, what the file holds between the notices is whole lines,
      unaltered, in lock order, and none twice. */
  lemma LogUnderOverload(events: seq<Event>, size: nat)
    requires CanRun(EMPTY, events, size)
    ensures var f := Run(EMPTY, events, size);
            Ascending(WrittenLines(f.out)) && AllGenuine(f.accepted, WrittenLines(f.out))
  {
    StartAccounted();
    RunAccounted(EMPTY, events, size);
    var f := Run(EMPTY, events, size);
    PrefixKeeps(f.accepted, WrittenLines(f.out), Lines(Unwritten(f)) + (Lines(f.queue) + f.current));
    Regroup(WrittenLines(f.out), Lines(Unwritten(f)), Lines(f.queue) + f.current);
    Regroup(WrittenLines(f.out) + Lines(Unwritten(f)), Lines(f.queue), f.current);
  }

  lemma PrefixKeeps(accepted: seq<string>, p: seq<Line>, q: seq<Line>)
    ensures Ascending(p + q) ==> Ascending(p)
    ensures AllGenuine(accepted, p + q) ==> AllGenuine(accepted, p)
  {
    assert forall i :: 0 <= i < |p| ==> (p + q)[i] == p[i];
  }

  /** What producers do to the flow between two steps of the consumer. */
  function AppendAll(f: Flow, lines: seq<string>, size: nat): Flow
    decreases |lines|
  {
    if lines == [] then f else AppendAll(Step(f, Append(lines[0]), size), lines[1..], size)
  }

  lemma {:induction false} AppendAllAccounted(f: Flow, lines: seq<string>, size: nat)
    requires Accounted(f)
    ensures var g := AppendAll(f, lines, size);
            && Accounted(g)
            && g.accepted == f.accepted + Storable(lines, size)
            && g.phase == f.phase && g.batch == f.batch && g.dropped == f.dropped
    decreases |lines|
  {
    if lines != [] {
      var g := Step(f, Append(lines[0]), size);
      var first := if |lines[0]| < size then [lines[0]] else [];
      AppendAccounted(f, lines[0], size);
      assert g.accepted == f.accepted + first && g.phase == f.phase && g.batch == f.batch && g.dropped == f.dropped;
      AppendAllAccounted(g, lines[1..], size);
      Regroup(f.accepted, first, Storable(lines[1..], size));
    }
  }

  // -------------------------------------------------------- reachable flows

  ghost predicate Reachable(f: Flow, size: nat) {
    exists events :: CanRun(EMPTY, events, size) && Run(EMPTY, events, size) == f
  }

  lemma StepReachable(f: Flow, e: Event, size: nat)
    requires Reachable(f, size) && Enabled(f, e)
    ensures Reachable(Step(f, e, size), size)
  {
    var events :| CanRun(EMPTY, events, size) && Run(EMPTY, events, size) == f;
    RunOneMore(EMPTY, events, e, size);
  }

  lemma {:induction false} AppendAllReachable(f: Flow, lines: seq<string>, size: nat)
    requires Reachable(f, size)
    ensures Reachable(AppendAll(f, lines, size), size)
    ensures AppendAll(f, lines, size).phase == f.phase && AppendAll(f, lines, size).batch == f.batch
    decreases |lines|
  {
    if lines != [] {
      StepReachable(f, Append(lines[0]), size);
      AppendAllReachable(Step(f, Append(lines[0]), size), lines[1..], size);
    }
  }

  /** The flow these events lead to. */
  ghost predicate LeadsTo(events: seq<Event>, f: Flow, size: nat) {
    CanRun(EMPTY, events, size) && Run(EMPTY, events, size) == f
  }

  lemma LeadsAccounted(events: seq<Event>, f: Flow, size: nat)
    requires LeadsTo(events, f, size)
    ensures Accounted(f) && f.accepted == Storable(Logged(events), size)
  {
    StartAccounted();
    RunAccounted(EMPTY, events, size);
    RunAccepts(EMPTY, events, size);
    assert EMPTY.accepted + Storable(Logged(events), size) == Storable(Logged(events), size);
  }

  lemma LeadsOn(events: seq<Event>, f: Flow, e: Event, size: nat)
    requires LeadsTo(events, f, size) && Enabled(f, e)
    ensures LeadsTo(events + [e], Step(f, e, size), size)
  {
    RunOneMore(EMPTY, events, e, size);
  }

  function Appends(lines: seq<string>): seq<Event> {
    seq(|lines|, i requires 0 <= i < |lines| => Append(lines[i]))
  }

  lemma {:induction false} AppendAllLeads(events: seq<Event>, f: Flow, lines: seq<string>, size: nat)
    requires LeadsTo(events, f, size)
    ensures var g := AppendAll(f, lines, size);
            LeadsTo(events + Appends(lines), g, size) && g.phase == f.phase && g.batch == f.batch
    decreases |lines|
  {
    if lines == [] {
      assert events + Appends(lines) == events;
    } else {
      var e := Append(lines[0]);
      LeadsOn(events, f, e, size);
      AppendAllLeads(events + [e], Step(f, e, size), lines[1..], size);
      assert events + [e] + Appends(lines[1..]) == events + Appends(lines);
    }
  }

  lemma {:induction false} LoggedAppend(p: seq<Event>, q: seq<Event>)
    ensures Logged(p + q) == Logged(p) + Logged(q)
  {
    if p == [] {
      assert p + q == q;
    } else {
      var first := if p[0].Append? then [p[0].text] else [];
      LoggedAppend(p[1..], q);
      assert (p + q)[1..] == p[1..] + q;
      Regroup(first, Logged(p[1..]), Logged(q));
    }
  }

  lemma {:induction false} LoggedAppends(lines: seq<string>)
    ensures Logged(Appends(lines)) == lines
  {
    if lines != [] {
      LoggedAppends(lines[1..]);
      assert Appends(lines)[1..] == Appends(lines[1..]);
    }
  }

  predicate NoSwap(events: seq<Event>) {
    forall i :: 0 <= i < |events| ==> !events[i].Swap?
  }

  lemma {:induction false} LastSwapStays(f: Flow, events: seq<Event>, size: nat, mark: nat)
    requires CanRun(f, events, size) && NoSwap(events)
    ensures LastSwap(f, events, size, mark) == mark
    decreases |events|
  {
    if events != [] {
      LastSwapStays(Step(f, events[0], size), events[1..], size, mark);
    }
  }

  lemma {:induction false} LastSwapIs(f: Flow, before: seq<Event>, after: seq<Event>, size: nat, mark: nat)
    requires CanRun(f, before + [Swap] + after, size) && NoSwap(after)
    ensures CanRun(f, before, size)
    ensures LastSwap(f, before + [Swap] + after, size, mark) == |Run(f, before, size).accepted|
    decreases |before|
  {
    var all := before + [Swap] + after;
    if before == [] {
      assert all[1..] == after;
      LastSwapStays(Step(f, Swap, size), after, size, |f.accepted|);
    } else {
      assert all[1..] == before[1..] + [Swap] + after && all[0] == before[0];
      LastSwapIs(Step(f, before[0], size), before[1..], after, size, MarkAfter(f, before[0], mark));
    }
  }

  /** When the consumer has finished a batch, all lines that were logged before its
      swap, and fit, are in the file or dropped. */
  lemma BatchFlushed(before: seq<Event>, after: seq<Event>, f: Flow, size: nat)
    requires LeadsTo(before + [Swap] + after, f, size) && NoSwap(after) && f.phase.Idle?
    ensures Flushed(f, |Storable(Logged(before), size)|)
  {
    RunFlushes(before + [Swap] + after, size);
    LastSwapIs(EMPTY, before, after, size, 0);
    RunAccepts(EMPTY, before, size);
    assert EMPTY.accepted + Storable(Logged(before), size) == Storable(Logged(before), size);
  }

  lemma ReachableAccounted(f: Flow, size: nat)
    requires Reachable(f, size)
    ensures Accounted(f)
  {
    var events :| CanRun(EMPTY, events, size) && Run(EMPTY, events, size) == f;
    StartAccounted();
    RunAccounted(EMPTY, events, size);
  }
}
