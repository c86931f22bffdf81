/** What the records of a run say to those outside: which callback each run of a
    task calls, until it is deleted, and in what order runs of one tick come. */
module Firings {
  import opened Wrappers
  import opened Agendas
  import opened Timeline

  // ------------------------------------------------------------- invariants

  predicate Muted(a: Agenda, t: nat, i: nat) {
    t in a.muted && a.muted[t] <= i
  }

  /** The entry calls its task's callback, unless the task was deleted. */
  predicate Speaks(a: Agenda, e: Entry) {
    && e.task < |a.births|
    && (e.fun == None <==> e.task in a.muted)
    && (e.fun.Some? ==> e.fun.value == a.births[e.task].fun)
  }

  /** Record i called the task's callback, unless the task had been deleted. */
  predicate Spoke(a: Agenda, i: nat)
    requires i < |a.trace|
  {
    var r := a.trace[i];
    r.Fired? ==> r.task < |a.births| && r.call == if Muted(a, r.task, i) then None else Some(a.births[r.task].fun.id)
  }

  ghost predicate Vocal(a: Agenda) {
    && (forall j :: 0 <= j < |a.queue| ==> Speaks(a, a.queue[j]))
    && (forall i :: 0 <= i < |a.trace| ==> Spoke(a, i))
    && (forall t :: t in a.muted ==> t < |a.births| && a.muted[t] <= |a.trace|)
  }

  /** A stay in the wheel, pending or over. */
  datatype Stay = Stay(seqno: nat, put: nat, task: nat, nth: nat)

  function StayOf(e: Entry): Stay {
    Stay(e.seqno, e.put, e.task, e.nth)
  }

  predicate Leaves(r: Record, x: Stay) {
    r.Fired? && x == Stay(r.seqno, r.put, r.task, r.nth)
  }

  ghost predicate InQueue(a: Agenda, x: Stay) {
    exists j :: 0 <= j < |a.queue| && StayOf(a.queue[j]) == x
  }

  ghost predicate InTrace(a: Agenda, x: Stay) {
    exists i :: 0 <= i < |a.trace| && Leaves(a.trace[i], x)
  }

  ghost predicate IsStay(a: Agenda, x: Stay) {
    InQueue(a, x) || InTrace(a, x)
  }

  /** The tick in which the kth run of a task is put in. */
  function PutTick(b: Birth, k: nat): nat {
    b.at + k * b.timeout
  }

  /** Record m is the run before the kth of task t; with `put` records, that run's
      callback had done all it did, and nothing else had happened. */
  predicate RearmedAfter(a: Agenda, m: nat, put: nat, t: nat, k: nat) {
    && m < put <= |a.trace| && t < |a.births| && k > 0 && Names(a.trace[m], t, k - 1)
    && (forall i :: m < i < put ==> !a.trace[i].Fired?)
    && (put < |a.trace| ==> Over(a, a.trace[put], t, k))
  }

  /** A record that is no part of the firing in which the kth run of task t was put
      in: another firing, or made in a later tick. */
  predicate Over(a: Agenda, r: Record, t: nat, k: nat)
    requires t < |a.births|
  {
    r.Fired? || PutTick(a.births[t], k) < r.tick
  }

  /** A stay begins when its task is added, or behind its previous run and what
      that run's callback did. */
  ghost predicate Grounded(a: Agenda, x: Stay) {
    && x.seqno < a.next && x.put <= |a.trace| && x.task < |a.births|
    && PutTick(a.births[x.task], x.nth) <= a.now
    && (x.nth == 0 ==> x.put == a.births[x.task].place)
    && (x.nth > 0 ==> exists m :: RearmedAfter(a, m, x.put, x.task, x.nth))
  }

  /** Of two stays, the one put in first has the smaller number. */
  predicate InOrder(a: Agenda, x: Stay, y: Stay) {
    x.seqno < y.seqno && x.task < |a.births| && y.task < |a.births| ==>
      || x.put < y.put
      || (&& x.put == y.put
          && (x.nth == 0 && y.nth == 0 ==> x.task < y.task)
          && (x.nth == 0 && y.nth > 0 ==> PutTick(a.births[x.task], 0) == PutTick(a.births[y.task], y.nth))
          && (x.nth > 0 && y.nth == 0 ==> PutTick(a.births[x.task], x.nth) < PutTick(a.births[y.task], 0)))
  }

  ghost predicate Lined(a: Agenda) {
    && (forall x :: IsStay(a, x) ==> Grounded(a, x))
    && (forall x, y :: IsStay(a, x) && IsStay(a, y) ==> InOrder(a, x, y))
  }

  /** No task was put in again since the last record of this tick. */
  ghost predicate Fresh(a: Agenda) {
    forall x :: IsStay(a, x) && x.nth > 0 && x.put == |a.trace| ==>
      x.task < |a.births| && PutTick(a.births[x.task], x.nth) < a.now
  }

  /** Every task added since the last record was so in this tick. */
  ghost predicate Recent(a: Agenda) {
    forall x :: IsStay(a, x) && x.nth == 0 && x.put == |a.trace| ==>
      x.task < |a.births| && PutTick(a.births[x.task], 0) == a.now
  }

  ghost predicate Kept(a: Agenda) {
    Vocal(a) && Lined(a)
  }

  // ----------------------------------------------------------- preservation

  lemma PushStays(a: Agenda, task: nat, nth: nat, timeout: nat, times: int, fun: Option<Callback>, x: Stay)
    ensures IsStay(Push(a, task, nth, timeout, times, fun), x) <==>
            IsStay(a, x) || x == StayOf(NewEntry(a, task, nth, timeout, times, fun))
  {
    var b := Push(a, task, nth, timeout, times, fun);
    assert b.queue[|a.queue|] == NewEntry(a, task, nth, timeout, times, fun);
    if InQueue(a, x) {
      var j :| 0 <= j < |a.queue| && StayOf(a.queue[j]) == x;
      assert StayOf(b.queue[j]) == x;
    }
  }

  /** One more record that is no firing. */
  lemma ImmediateStays(a: Agenda, id: int, x: Stay)
    ensures IsStay(a.(trace := a.trace + [Immediate(a.now, id)]), x) <==> IsStay(a, x)
  {
    var b := a.(trace := a.trace + [Immediate(a.now, id)]);
    if InTrace(a, x) {
      var i :| 0 <= i < |a.trace| && Leaves(a.trace[i], x);
      assert Leaves(b.trace[i], x);
    }
  }

  lemma TakenStays(a: Agenda, i: nat, x: Stay)
    requires i < |a.queue|
    ensures IsStay(Taken(a, i), x) <==> IsStay(a, x)
  {
    var b := Taken(a, i);
    assert Leaves(b.trace[|a.trace|], StayOf(a.queue[i]));
    if InTrace(a, x) {
      var m :| 0 <= m < |a.trace| && Leaves(a.trace[m], x);
      assert Leaves(b.trace[m], x);
    }
    if InQueue(a, x) {
      var j :| 0 <= j < |a.queue| && StayOf(a.queue[j]) == x;
      assert j != i ==> b.queue[if j < i then j else j - 1] == a.queue[j];
    }
    if InQueue(b, x) {
      var j :| 0 <= j < |b.queue| && StayOf(b.queue[j]) == x;
      WithoutAt(a.queue, i, j);
    }
  }

  lemma CancelStays(a: Agenda, k: nat, x: Stay)
    requires k < |a.queue|
    ensures IsStay(Cancel(a, k), x) <==> IsStay(a, x)
  {
    var b := Cancel(a, k);
    assert forall j :: 0 <= j < |a.queue| ==> StayOf(b.queue[j]) == StayOf(a.queue[j]);
  }

  /** The next record, if there is one, is not part of the firing that put x in. */
  predicate Closed(a: Agenda, b: Agenda, x: Stay) {
    x.nth > 0 && x.task < |b.births| && x.put == |a.trace| < |b.trace| ==> Over(b, b.trace[|a.trace|], x.task, x.nth)
  }

  /** A stay stays grounded while births and trace grow. */
  lemma GroundedStill(a: Agenda, b: Agenda, x: Stay)
    requires Grounded(a, x) && Closed(a, b, x)
    requires a.births <= b.births && a.trace <= b.trace && a.next <= b.next && a.now <= b.now
    ensures Grounded(b, x)
  {
    if x.nth > 0 {
      var m :| RearmedAfter(a, m, x.put, x.task, x.nth);
      assert RearmedAfter(b, m, x.put, x.task, x.nth);
    }
  }

  /** Nothing but births, trace and clock has changed. */
  lemma LinedStill(a: Agenda, b: Agenda)
    requires Lined(a) && a.births <= b.births && a.trace <= b.trace && a.next <= b.next && a.now <= b.now
    requires forall x :: IsStay(b, x) ==> IsStay(a, x) && Closed(a, b, x)
    ensures Lined(b)
  {
    forall x | IsStay(b, x) ensures Grounded(b, x) {
      GroundedStill(a, b, x);
    }
    forall x, y | IsStay(b, x) && IsStay(b, y) ensures InOrder(b, x, y) {
      assert InOrder(a, x, y) && Grounded(a, x) && Grounded(a, y);
    }
  }

  lemma ImmediateKept(a: Agenda, id: int)
    requires Kept(a) && Fresh(a)
    ensures var b := a.(trace := a.trace + [Immediate(a.now, id)]); Kept(b) && Fresh(b) && Recent(b)
  {
    var b := a.(trace := a.trace + [Immediate(a.now, id)]);
    forall x ensures IsStay(b, x) <==> IsStay(a, x) {
      ImmediateStays(a, id, x);
    }
    LinedStill(a, b);
    forall i | 0 <= i < |b.trace| ensures Spoke(b, i) {
      assert i < |a.trace| ==> Spoke(a, i);
    }
    forall j | 0 <= j < |b.queue| ensures Speaks(b, b.queue[j]) {
      assert Speaks(a, a.queue[j]);
    }
  }

  lemma BornVocal(a: Agenda, x: Request)
    requires x.timeout >= 0 && Vocal(a)
    ensures Vocal(Born(a, x))
  {
    var b := Born(a, x);
    forall i | 0 <= i < |b.trace| ensures Spoke(b, i) {
      assert Spoke(a, i);
    }
    forall j | 0 <= j < |b.queue| ensures Speaks(b, b.queue[j]) {
      assert j < |a.queue| ==> Speaks(a, a.queue[j]);
    }
  }

  lemma BornLined(a: Agenda, x: Request)
    requires x.timeout >= 0 && Lined(a) && Fresh(a)
    ensures Lined(Born(a, x)) && Fresh(Born(a, x)) && (Recent(a) ==> Recent(Born(a, x)))
  {
    var r, b := Registered(a, x), Born(a, x);
    var n := StayOf(NewEntry(r, |a.births|, 0, x.timeout, x.times, Some(x.fun)));
    forall y ensures IsStay(b, y) <==> IsStay(a, y) || y == n {
      PushStays(r, |a.births|, 0, x.timeout, x.times, Some(x.fun), y);
      assert IsStay(r, y) <==> IsStay(a, y);
    }
    forall y | IsStay(a, y) ensures Grounded(b, y) && InOrder(b, y, n) && InOrder(b, n, y) {
      assert Grounded(a, y);
      GroundedStill(a, b, y);
    }
    assert Grounded(b, n);
    forall y, z | IsStay(a, y) && IsStay(a, z) ensures InOrder(b, y, z) {
      assert InOrder(a, y, z) && Grounded(a, y) && Grounded(a, z);
    }
  }

  lemma AddKept(a: Agenda, x: Request)
    requires Kept(a) && Fresh(a)
    ensures Kept(Add(a, x)) && Fresh(Add(a, x)) && (Recent(a) ==> Recent(Add(a, x)))
    decreases x, 1
  {
    if x.timeout < 0 {
      ImmediateKept(a, x.fun.id);
      AddAllKept(a.(trace := a.trace + [Immediate(a.now, x.fun.id)]), x.fun.adds);
    } else {
      BornVocal(a, x);
      BornLined(a, x);
    }
  }

  lemma AddAllKept(a: Agenda, adds: seq<Request>)
    requires Kept(a) && Fresh(a)
    ensures Kept(AddAll(a, adds)) && Fresh(AddAll(a, adds)) && (Recent(a) ==> Recent(AddAll(a, adds)))
    decreases adds, 0
  {
    if adds != [] {
      AddKept(a, adds[0]);
      AddAllKept(Add(a, adds[0]), adds[1..]);
    }
  }

  lemma TakenVocal(a: Agenda, i: nat)
    requires Vocal(a) && i < |a.queue|
    ensures Vocal(Taken(a, i)) && Speaks(Taken(a, i), a.queue[i])
  {
    var b := Taken(a, i);
    assert Speaks(a, a.queue[i]);
    forall m | 0 <= m < |b.trace| ensures Spoke(b, m) {
      assert m < |a.trace| ==> Spoke(a, m);
    }
    forall j | 0 <= j < |b.queue| ensures Speaks(b, b.queue[j]) {
      WithoutAt(a.queue, i, j);
      assert Speaks(a, a.queue[if j < i then j else j + 1]);
    }
  }

  lemma TakenLined(a: Agenda, i: nat)
    requires Lined(a) && i < |a.queue|
    ensures Lined(Taken(a, i)) && Fresh(Taken(a, i)) && Recent(Taken(a, i))
  {
    var b := Taken(a, i);
    forall x ensures IsStay(b, x) <==> IsStay(a, x) {
      TakenStays(a, i, x);
    }
    LinedStill(a, b);
    forall x | IsStay(b, x) ensures x.put < |b.trace| {
      assert Grounded(a, x);
    }
  }

  lemma RearmVocal(a: Agenda, e: Entry)
    requires Vocal(a) && Speaks(a, e)
    ensures Vocal(Rearm(a, e))
  {
    var b := Rearm(a, e);
    forall i | 0 <= i < |b.trace| ensures Spoke(b, i) {
      assert Spoke(a, i);
    }
    forall j | 0 <= j < |b.queue| ensures Speaks(b, b.queue[j]) {
      assert j < |a.queue| ==> Speaks(a, a.queue[j]);
    }
  }

  /** Record m is the run that is being put in again. */
  lemma RearmLined(a: Agenda, e: Entry, m: nat)
    requires Lined(a) && Recent(a) && e.task < |a.births|
    requires PutTick(a.births[e.task], e.nth + 1) == a.now
    requires RearmedAfter(a, m, |a.trace|, e.task, e.nth + 1)
    ensures Lined(Rearm(a, e))
  {
    var b := Rearm(a, e);
    var n := StayOf(NewEntry(a, e.task, e.nth + 1, e.timeout, OneLess(e.times), e.fun));
    forall y ensures IsStay(b, y) <==> IsStay(a, y) || y == n {
      PushStays(a, e.task, e.nth + 1, e.timeout, OneLess(e.times), e.fun, y);
    }
    forall y | IsStay(a, y) ensures Grounded(b, y) && InOrder(b, y, n) && InOrder(b, n, y) {
      assert Grounded(a, y);
      GroundedStill(a, b, y);
    }
    assert RearmedAfter(b, m, n.put, n.task, n.nth);
    assert Grounded(b, n);
    forall y, z | IsStay(a, y) && IsStay(a, z) ensures InOrder(b, y, z) {
      assert InOrder(a, y, z);
    }
  }

  lemma FireKept(a: Agenda)
    requires AnyDue(a) && Sound(a) && Kept(a)
    ensures Kept(Fire(a))
  {
    var i := FirstDue(a.queue, a.now);
    var e := a.queue[i];
    var t := Taken(a, i);
    var b := AddAll(t, CallAdds(e.fun));
    assert Fits(a, e);
    TakenVocal(a, i);
    TakenLined(a, i);
    AddAllKept(t, CallAdds(e.fun));
    AddAllExtends(t, CallAdds(e.fun));
    if Rearms(e.times) {
      RearmVocal(b, e);
      assert b.births[e.task] == a.births[e.task];
      assert PutTick(b.births[e.task], e.nth + 1) == DueOf(b.births[e.task], e.nth);
      assert b.trace[|a.trace|] == t.trace[|a.trace|];
      RearmLined(b, e, |a.trace|);
    }
  }

  lemma DrainKept(a: Agenda)
    requires Tame(a) && Sound(a) && Complete(a) && Kept(a)
    ensures Kept(Drain(a))
    decreases Cost(a)
  {
    if AnyDue(a) {
      FireCosts(a);
      FireTame(a);
      FireSound(a);
      FireKept(a);
      DrainKept(Fire(a));
    }
  }

  lemma TickKept(a: Agenda)
    requires Tame(a) && Settled(a) && Kept(a)
    ensures Kept(Tick(a))
  {
    DrainKept(a);
    var d, b := Drain(a), Tick(a);
    assert forall x :: IsStay(b, x) <==> IsStay(d, x);
    LinedStill(d, b);
    forall i | 0 <= i < |b.trace| ensures Spoke(b, i) {
      assert Spoke(d, i);
    }
    forall j | 0 <= j < |b.queue| ensures Speaks(b, b.queue[j]) {
      assert Speaks(d, d.queue[j]);
    }
  }

  lemma PutEarlier(a: Agenda, x: Stay)
    requires Settled(a) && Grounded(a, x) && x.nth > 0
    ensures PutTick(a.births[x.task], x.nth) < a.now
  {
    var m: nat :| RearmedAfter(a, m, x.put, x.task, x.nth);
    assert m < |a.trace| && a.trace[m].Fired?;
    assert OnTime(a, a.trace[m]) && a.trace[m].tick < a.now;
    assert DueOf(a.births[x.task], x.nth - 1) == PutTick(a.births[x.task], x.nth);
  }

  /** Between ticks, every task put in again was so in an earlier tick. */
  lemma SettledFresh(a: Agenda)
    requires Settled(a) && Lined(a)
    ensures Fresh(a)
  {
    forall x | IsStay(a, x) && x.nth > 0
      ensures x.task < |a.births| && PutTick(a.births[x.task], x.nth) < a.now
    {
      assert Grounded(a, x);
      PutEarlier(a, x);
    }
  }

  lemma CancelKept(a: Agenda, k: nat)
    requires Settled(a) && Kept(a) && k < |a.queue|
    ensures Kept(Cancel(a, k))
  {
    var b := Cancel(a, k);
    forall x ensures IsStay(b, x) <==> IsStay(a, x) {
      CancelStays(a, k, x);
    }
    LinedStill(a, b);
    assert Speaks(a, a.queue[k]);
    forall j | 0 <= j < |b.queue| ensures Speaks(b, b.queue[j]) {
      assert Speaks(a, a.queue[j]);
      assert j < k ==> Later(a.queue[j], a.queue[k]);
      assert k < j ==> Later(a.queue[k], a.queue[j]);
    }
    forall i | 0 <= i < |b.trace| ensures Spoke(b, i) {
      assert Spoke(a, i);
    }
  }

  lemma DoKept(a: Agenda, op: Op)
    requires CanDo(a, op) && Settled(a) && Kept(a)
    ensures Kept(Do(a, op))
  {
    match op
    case DoAdd(x) =>
      SettledFresh(a);
      AddKept(a, x);
    case DoCancel(k) => if k < |a.queue| { CancelKept(a, k); }
    case DoTick => TickKept(a);
  }

  lemma {:induction false} RunKept(a: Agenda, ops: seq<Op>)
    requires CanRun(a, ops) && Settled(a) && Kept(a)
    ensures Kept(Run(a, ops))
    decreases |ops|
  {
    if ops != [] {
      DoSettled(a, ops[0]);
      DoKept(a, ops[0]);
      RunKept(Do(a, ops[0]), ops[1..]);
    }
  }

  // --------------------------------------------------------------- deletion

  /** Task t was deleted while the trace had at most i records. */
  predicate Deleted(a: Agenda, ops: seq<Op>, t: nat, i: nat)
    requires CanRun(a, ops)
    decreases |ops|
  {
    ops != [] && (Deletes(a, ops[0], t, i) || Deleted(Do(a, ops[0]), ops[1..], t, i))
  }

  predicate Deletes(a: Agenda, op: Op, t: nat, i: nat) {
    op.DoCancel? && op.k < |a.queue| && a.queue[op.k].task == t && |a.trace| <= i
  }

  lemma DrainMutes(a: Agenda)
    requires Tame(a)
    ensures Drain(a).muted == a.muted && |Drain(a).trace| >= |a.trace|
    decreases Cost(a)
  {
    if AnyDue(a) {
      FireCosts(a);
      FireTame(a);
      var i := FirstDue(a.queue, a.now);
      AddAllExtends(Taken(a, i), CallAdds(a.queue[i].fun));
      DrainMutes(Fire(a));
    }
  }

  lemma DoMutes(a: Agenda, op: Op, t: nat, i: nat)
    requires CanDo(a, op) && forall u :: u in a.muted ==> a.muted[u] <= |a.trace|
    ensures Muted(Do(a, op), t, i) <==> Muted(a, t, i) || Deletes(a, op, t, i)
    ensures var b := Do(a, op); forall u :: u in b.muted ==> b.muted[u] <= |b.trace|
  {
    match op
    case DoAdd(x) => AddExtends(a, x);
    case DoCancel(k) =>
    case DoTick => DrainMutes(a);
  }

  lemma {:induction false} RunMutes(a: Agenda, ops: seq<Op>, t: nat, i: nat)
    requires CanRun(a, ops) && forall u :: u in a.muted ==> a.muted[u] <= |a.trace|
    ensures Muted(Run(a, ops), t, i) <==> Muted(a, t, i) || Deleted(a, ops, t, i)
    decreases |ops|
  {
    if ops != [] {
      DoMutes(a, ops[0], t, i);
      RunMutes(Do(a, ops[0]), ops[1..], t, i);
    }
  }

  // ---------------------------------------------------------- main results

  /** Record i of a run is the kth run of task t: on its tick, and with a call of the
      task's callback, unless the task was deleted before. */
  predicate Made(a: Agenda, ops: seq<Op>, i: nat, t: nat, k: nat)
    requires CanRun(EMPTY, ops)
  {
    && i < |a.trace| && t < |a.births| && Names(a.trace[i], t, k)
    && a.trace[i].tick == DueOf(a.births[t], k)
    && a.trace[i].call == if Deleted(EMPTY, ops, t, i) then None else Some(a.births[t].fun.id)
  }

  /** Of two records of one tick, r was put in before s: after fewer records of the
      trace; or after the same number, and then in an earlier tick, added tasks in
      the order of addition, and a task that is put in again behind those added in
      the same tick. */
  predicate PutBefore(a: Agenda, r: Record, s: Record)
    requires r.Fired? && s.Fired? && r.task < |a.births| && s.task < |a.births|
  {
    var p, q := PutTick(a.births[r.task], r.nth), PutTick(a.births[s.task], s.nth);
    || r.put < s.put
    || (r.put == s.put &&
        if s.nth > 0 then r.nth == 0 && p <= q
        else if r.nth == 0 then r.task < s.task
        else p < q)
  }

  /** The order of the records, told from outside. */
  predicate Earlier(a: Agenda, r: Record, s: Record)
    requires r.Fired? && s.Fired? && r.task < |a.births| && s.task < |a.births|
  {
    r.tick < s.tick || (r.tick == s.tick && PutBefore(a, r, s))
  }

  /** The order leaves nothing open. */
  lemma EarlierOneWay(a: Agenda, r: Record, s: Record)
    requires r.Fired? && s.Fired? && r.task < |a.births| && s.task < |a.births|
    ensures !(Earlier(a, r, s) && Earlier(a, s, r))
  {
  }

  /** When a run was put in: a first run when its task was added; a later one right
      behind the run before it and all that run's callback did. */
  ghost predicate PutRightly(a: Agenda, r: Record)
    requires r.Fired? && r.task < |a.births|
  {
    if r.nth == 0 then r.put == a.births[r.task].place
    else exists m :: RearmedAfter(a, m, r.put, r.task, r.nth)
  }

  /** A firing puts in no more than one task again. */
  lemma OneRearmEach(a: Agenda, x: Stay, y: Stay)
    requires Grounded(a, x) && Grounded(a, y)
    ensures x.put == y.put && x.nth > 0 && y.nth > 0 ==> x.task == y.task && x.nth == y.nth
  {
    if x.put == y.put && x.nth > 0 && y.nth > 0 {
      var m :| RearmedAfter(a, m, x.put, x.task, x.nth);
      var n :| RearmedAfter(a, n, y.put, y.task, y.nth);
      assert m == n;
    }
  }

  lemma RecordsInOrder(a: Agenda, i: nat, j: nat)
    requires Sound(a) && Lined(a) && i < j < |a.trace| && a.trace[i].Fired? && a.trace[j].Fired?
    ensures OnTime(a, a.trace[i]) && OnTime(a, a.trace[j])
    ensures Earlier(a, a.trace[i], a.trace[j])
  {
    var r, s := a.trace[i], a.trace[j];
    var x, y := Stay(r.seqno, r.put, r.task, r.nth), Stay(s.seqno, s.put, s.task, s.nth);
    assert Before(r, s);
    assert Leaves(r, x) && Leaves(s, y);
    assert IsStay(a, x) && IsStay(a, y) && InOrder(a, x, y);
    OneRearmEach(a, x, y);
  }

  lemma RecordPutRightly(a: Agenda, i: nat)
    requires Sound(a) && Lined(a) && i < |a.trace| && a.trace[i].Fired?
    ensures OnTime(a, a.trace[i]) && PutRightly(a, a.trace[i])
  {
    var r := a.trace[i];
    var x := Stay(r.seqno, r.put, r.task, r.nth);
    assert Leaves(r, x);
    assert IsStay(a, x) && Grounded(a, x);
  }

  lemma StartKept()
    ensures Settled(EMPTY) && Kept(EMPTY)
  {
  }

  lemma RecordMade(ops: seq<Op>, i: nat, t: nat, k: nat)
    requires CanRun(EMPTY, ops)
    requires var a := Run(EMPTY, ops); i < |a.trace| && Names(a.trace[i], t, k)
    ensures Made(Run(EMPTY, ops), ops, i, t, k)
  {
    var a := Run(EMPTY, ops);
    StartKept();
    RunSettled(EMPTY, ops);
    RunKept(EMPTY, ops);
    RunMutes(EMPTY, ops, t, i);
    assert OnTime(a, a.trace[i]) && Spoke(a, i);
  }

  /** Over every run of additions, deletions and ticks: the kth run of task t is
      made, on its tick `at + (k + 1) * timeout` and with a call of the task's
      callback (unless the task was deleted before), if and only if the task is
      to run more than k times and that tick is over.  No run is made twice. */
  lemma RunTimeline(ops: seq<Op>, t: nat, k: nat)
    requires CanRun(EMPTY, ops) && t < |Run(EMPTY, ops).births|
    ensures var a := Run(EMPTY, ops);
            && ((exists i :: Made(a, ops, i, t, k)) <==> InRuns(a.births[t], k) && DueOf(a.births[t], k) < a.now)
            && (forall i, j ::
                  0 <= i < |a.trace| && 0 <= j < |a.trace| && Names(a.trace[i], t, k) && Names(a.trace[j], t, k) ==>
                  i == j)
  {
    var a := Run(EMPTY, ops);
    StartKept();
    RunSettled(EMPTY, ops);
    SettledExact(a, t, k);
    if HasFired(a, t, k) {
      var i :| 0 <= i < |a.trace| && Names(a.trace[i], t, k);
      RecordMade(ops, i, t, k);
    }
    forall i, j | 0 <= i < |a.trace| && 0 <= j < |a.trace| && Names(a.trace[i], t, k) && Names(a.trace[j], t, k)
      ensures i == j
    {
      assert i < j ==> Before(a.trace[i], a.trace[j]);
      assert j < i ==> Before(a.trace[j], a.trace[i]);
    }
  }

  /** Over every run: one run of a task comes before another if and only if its tick
      is earlier, or they share a tick and it was put in first. */
  lemma RunOrder(ops: seq<Op>)
    requires CanRun(EMPTY, ops)
    ensures var a := Run(EMPTY, ops);
            && (forall i :: 0 <= i < |a.trace| && a.trace[i].Fired? ==>
                  a.trace[i].task < |a.births| && PutRightly(a, a.trace[i]))
            && (forall i, j :: 0 <= i < |a.trace| && 0 <= j < |a.trace| && a.trace[i].Fired? && a.trace[j].Fired? ==>
                  (i < j <==> Earlier(a, a.trace[i], a.trace[j])))
  {
    var a := Run(EMPTY, ops);
    StartKept();
    RunSettled(EMPTY, ops);
    RunKept(EMPTY, ops);
    forall i | 0 <= i < |a.trace| && a.trace[i].Fired?
      ensures a.trace[i].task < |a.births| && PutRightly(a, a.trace[i])
    {
      RecordPutRightly(a, i);
    }
    forall i, j | 0 <= i < |a.trace| && 0 <= j < |a.trace| && a.trace[i].Fired? && a.trace[j].Fired?
      ensures i < j <==> Earlier(a, a.trace[i], a.trace[j])
    {
      EarlierOneWay(a, a.trace[i], a.trace[j]);
      if i < j {
        RecordsInOrder(a, i, j);
      } else if j < i {
        RecordsInOrder(a, j, i);
      }
    }
  }

  lemma {:induction false} TicksKept(a: Agenda, n: nat)
    requires Settled(a) && Kept(a) && CanTick(a, n)
    ensures Kept(Ticks(a, n)) && Ticks(a, n).muted == a.muted
    decreases n
  {
    if n > 0 {
      TickSettled(a);
      TickKept(a);
      DrainMutes(a);
      TicksKept(Tick(a), n - 1);
    }
  }

  /** A task added after a poll at time `start` with a timeout >= 0 has called its
      callback by a poll at `now` if and only if now >= start + timeout + 1. */
  lemma PollWindow(ops: seq<Op>, start: int, x: Request, now: int)
    requires CanRun(EMPTY, ops) && x.timeout >= 0
    requires CanTick(Add(Run(EMPTY, ops), x), Elapsed(start, now))
    ensures var a := Run(EMPTY, ops);
            var c := Poll(Clocked(Add(a, x), start), now).agenda;
            (exists i ::
               0 <= i < |c.trace| && Names(c.trace[i], |a.births|, 0) && c.trace[i].call == Some(x.fun.id)) <==>
            now >= start + x.timeout + 1
  {
    StartKept();
    RunSettled(EMPTY, ops);
    RunKept(EMPTY, ops);
    var a := Run(EMPTY, ops);
    var b := Add(a, x);
    DoSettled(a, DoAdd(x));
    DoKept(a, DoAdd(x));
    TicksKeep(b, Elapsed(start, now));
    TicksKept(b, Elapsed(start, now));
    TicksAdd(b, Elapsed(start, now), 0);
    var c := Ticks(b, Elapsed(start, now));
    assert c.births[|a.births|] == Birth(a.now, |a.trace|, x.timeout, x.times, x.fun);
    SettledExact(c, |a.births|, 0);
    if HasFired(c, |a.births|, 0) {
      var i :| 0 <= i < |c.trace| && Names(c.trace[i], |a.births|, 0);
      assert Spoke(c, i);
    }
  }
}
