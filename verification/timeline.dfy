/** What a whole run of an agenda looks like: every run of every task happens
    exactly once, exactly on its tick, and ties go to whoever was put in first. */
module Timeline {
  import opened Wrappers
  import opened Agendas

  datatype Op = DoAdd(x: Request) | DoCancel(k: nat) | DoTick

  predicate CanDo(a: Agenda, op: Op) {
    op.DoTick? ==> Tame(a)
  }

  /** A handle that no longer names an entry cancels nothing. */
  function Do(a: Agenda, op: Op): Agenda
    requires CanDo(a, op)
  {
    match op
    case DoAdd(x) => Add(a, x)
    case DoCancel(k) => if k < |a.queue| then Cancel(a, k) else a
    case DoTick => Tick(a)
  }

  predicate CanRun(a: Agenda, ops: seq<Op>)
    decreases |ops|
  {
    ops == [] || (CanDo(a, ops[0]) && CanRun(Do(a, ops[0]), ops[1..]))
  }

  function Run(a: Agenda, ops: seq<Op>): Agenda
    requires CanRun(a, ops)
    decreases |ops|
  {
    if ops == [] then a else Run(Do(a, ops[0]), ops[1..])
  }

  /** Task b is to run a kth time, counting from 0. */
  predicate InRuns(b: Birth, k: nat) {
    b.times == -1 || k < Repeats(b.times)
  }

  function DueOf(b: Birth, k: nat): nat {
    b.at + (k + 1) * b.timeout
  }

  // ------------------------------------------------------------- invariant

  predicate Fits(a: Agenda, e: Entry) {
    && e.seqno < a.next
    && e.task < |a.births|
    && var b := a.births[e.task];
    && InRuns(b, e.nth)
    && e.timeout == b.timeout
    && e.due == DueOf(b, e.nth)
    && e.due >= a.now
    && e.times == if b.times > 1 then b.times - e.nth else b.times
  }

  predicate OnTime(a: Agenda, r: Record) {
    r.Fired? ==>
      && r.seqno < a.next
      && r.task < |a.births|
      && InRuns(a.births[r.task], r.nth)
      && r.tick == DueOf(a.births[r.task], r.nth)
      && r.tick <= a.now
  }

  /** r comes before s in the order (tick, sequence number), and if both are
      runs of one task, in the order of its runs. */
  predicate Before(r: Record, s: Record) {
    r.Fired? && s.Fired? ==>
      && (r.tick < s.tick || (r.tick == s.tick && r.seqno < s.seqno))
      && (r.task == s.task ==> r.nth < s.nth)
  }

  /** A run already made precedes the pending entry e. */
  predicate Ahead(a: Agenda, r: Record, e: Entry) {
    r.Fired? ==>
      && (r.task == e.task ==> r.nth < e.nth)
      && (e.due == a.now && r.tick == a.now ==> r.seqno < e.seqno)
  }

  ghost predicate QueueSound(a: Agenda) {
    && (forall i :: 0 <= i < |a.queue| ==> Fits(a, a.queue[i]))
    && (forall i, j :: 0 <= i < j < |a.queue| ==> Later(a.queue[i], a.queue[j]))
  }

  predicate Later(e: Entry, f: Entry) {
    e.seqno < f.seqno && e.task != f.task
  }

  ghost predicate TraceSound(a: Agenda) {
    && (forall i :: 0 <= i < |a.trace| ==> OnTime(a, a.trace[i]))
    && (forall i, j :: 0 <= i < j < |a.trace| ==> Before(a.trace[i], a.trace[j]))
  }

  ghost predicate MutuallySound(a: Agenda) {
    forall i, j :: 0 <= i < |a.trace| && 0 <= j < |a.queue| ==> Ahead(a, a.trace[i], a.queue[j])
  }

  ghost predicate Sound(a: Agenda) {
    QueueSound(a) && TraceSound(a) && MutuallySound(a)
  }

  predicate Names(r: Record, t: nat, k: nat) {
    r.Fired? && r.task == t && r.nth == k
  }

  ghost predicate HasFired(a: Agenda, t: nat, k: nat) {
    exists i :: 0 <= i < |a.trace| && Names(a.trace[i], t, k)
  }

  ghost predicate Pending(a: Agenda, t: nat, k: nat) {
    exists j :: 0 <= j < |a.queue| && a.queue[j].task == t && a.queue[j].nth <= k
  }

  /** Every run of every task has been made or is still to come. */
  ghost predicate Complete(a: Agenda) {
    forall t: nat, k: nat :: t < |a.births| && InRuns(a.births[t], k) ==> HasFired(a, t, k) || Pending(a, t, k)
  }

  // A firing task is for a moment neither pending nor done: `e` is the entry
  // just taken out, whose later runs are still to be put in.

  ghost predicate CompleteBut(a: Agenda, e: Entry) {
    forall t: nat, k: nat :: t < |a.births| && InRuns(a.births[t], k) && !(t == e.task && k > e.nth) ==>
      HasFired(a, t, k) || Pending(a, t, k)
  }

  ghost predicate Firing(a: Agenda, e: Entry) {
    && Sound(a)
    && CompleteBut(a, e)
    && Fits(a, e) && e.due == a.now
    && (forall j :: 0 <= j < |a.queue| ==> a.queue[j].task != e.task)
    && (forall i :: 0 <= i < |a.trace| && a.trace[i].Fired? && a.trace[i].task == e.task ==> a.trace[i].nth <= e.nth)
  }

  // ----------------------------------------------------------- preservation

  lemma StillThere(a: Agenda, b: Agenda, t: nat, k: nat)
    requires Extends(a, b)
    ensures HasFired(a, t, k) ==> HasFired(b, t, k)
    ensures Pending(a, t, k) ==> Pending(b, t, k)
  {
    if HasFired(a, t, k) {
      var i :| 0 <= i < |a.trace| && Names(a.trace[i], t, k);
      assert Names(b.trace[i], t, k);
    }
    if Pending(a, t, k) {
      var j :| 0 <= j < |a.queue| && a.queue[j].task == t && a.queue[j].nth <= k;
      assert b.queue[j].task == t;
    }
  }

  /** A newly added task. */
  function Born(a: Agenda, x: Request): Agenda
    requires x.timeout >= 0
  {
    Push(Registered(a, x), |a.births|, 0, x.timeout, x.times, Some(x.fun))
  }

  lemma BornSound(a: Agenda, x: Request)
    requires x.timeout >= 0 && Sound(a)
    ensures Sound(Born(a, x))
  {
    var b := Born(a, x);
    assert forall e :: Fits(a, e) ==> Fits(b, e);
    assert forall r :: OnTime(a, r) ==> OnTime(b, r);
  }

  lemma BornComplete(a: Agenda, x: Request, t: nat, k: nat)
    requires x.timeout >= 0
    requires t < |a.births| ==> HasFired(a, t, k) || Pending(a, t, k)
    requires t <= |a.births|
    ensures HasFired(Born(a, x), t, k) || Pending(Born(a, x), t, k)
  {
    var b := Born(a, x);
    StillThere(a, b, t, k);
    assert b.queue[|a.queue|].task == |a.births|;
  }

  lemma AddSound(a: Agenda, x: Request)
    requires Sound(a)
    ensures Sound(Add(a, x))
    ensures Complete(a) ==> Complete(Add(a, x))
    ensures forall e :: Firing(a, e) ==> Firing(Add(a, x), e)
    decreases x, 1
  {
    if x.timeout < 0 {
      var b := a.(trace := a.trace + [Immediate(a.now, x.fun.id)]);
      ImmediateSound(a, x.fun.id);
      AddAllSound(b, x.fun.adds);
    } else {
      BornSound(a, x);
      forall t: nat, k: nat | t <= |a.births| && (t < |a.births| ==> HasFired(a, t, k) || Pending(a, t, k))
        ensures HasFired(Born(a, x), t, k) || Pending(Born(a, x), t, k)
      {
        BornComplete(a, x, t, k);
      }
      assert Born(a, x) == Add(a, x);
    }
  }

  lemma ImmediateSound(a: Agenda, id: int)
    requires Sound(a)
    ensures var b := a.(trace := a.trace + [Immediate(a.now, id)]);
            && Sound(b)
            && (Complete(a) ==> Complete(b))
            && forall e :: Firing(a, e) ==> Firing(b, e)
  {
    var b := a.(trace := a.trace + [Immediate(a.now, id)]);
    forall t: nat, k: nat
      ensures HasFired(a, t, k) || Pending(a, t, k) ==> HasFired(b, t, k) || Pending(b, t, k)
    {
      StillThere(a, b, t, k);
    }
  }

  lemma AddAllSound(a: Agenda, adds: seq<Request>)
    requires Sound(a)
    ensures Sound(AddAll(a, adds))
    ensures Complete(a) ==> Complete(AddAll(a, adds))
    ensures forall e :: Firing(a, e) ==> Firing(AddAll(a, adds), e)
    decreases adds, 0
  {
    if adds != [] {
      AddSound(a, adds[0]);
      AddAllSound(Add(a, adds[0]), adds[1..]);
    }
  }

  lemma WithoutAt<T>(s: seq<T>, i: nat, j: nat)
    requires i < |s| && j < |s| - 1
    ensures Without(s, i)[j] == s[if j < i then j else j + 1]
  {
  }

  lemma TakenSound(a: Agenda)
    requires AnyDue(a) && Sound(a) && Complete(a)
    ensures var i := FirstDue(a.queue, a.now); Firing(Taken(a, i), a.queue[i])
  {
    var i := FirstDue(a.queue, a.now);
    TakenQueueSound(a, i);
    TakenTraceSound(a, i);
    TakenMutuallySound(a, i);
    TakenCompleteBut(a, i);
    TakenAlone(a, i);
  }

  lemma TakenAlone(a: Agenda, i: nat)
    requires Sound(a) && i < |a.queue|
    ensures var e, b := a.queue[i], Taken(a, i);
            && (forall j :: 0 <= j < |b.queue| ==> b.queue[j].task != e.task)
            && (forall m :: 0 <= m < |b.trace| && b.trace[m].Fired? && b.trace[m].task == e.task ==>
                  b.trace[m].nth <= e.nth)
            && Fits(b, e)
  {
    var e, b := a.queue[i], Taken(a, i);
    assert Fits(a, e);
    forall j | 0 <= j < |b.queue| ensures b.queue[j].task != e.task {
      WithoutAt(a.queue, i, j);
      assert if j < i then Later(a.queue[j], e) else Later(e, a.queue[j + 1]);
    }
    forall m | 0 <= m < |b.trace| && b.trace[m].Fired? && b.trace[m].task == e.task ensures b.trace[m].nth <= e.nth {
      if m < |a.trace| {
        assert Ahead(a, a.trace[m], a.queue[i]);
      }
    }
  }

  lemma TakenQueueSound(a: Agenda, i: nat)
    requires Sound(a) && i < |a.queue|
    ensures QueueSound(Taken(a, i))
  {
    var b := Taken(a, i);
    forall j | 0 <= j < |b.queue| ensures Fits(b, b.queue[j]) {
      WithoutAt(a.queue, i, j);
      assert Fits(a, a.queue[if j < i then j else j + 1]);
    }
    forall j, k | 0 <= j < k < |b.queue| ensures Later(b.queue[j], b.queue[k]) {
      WithoutAt(a.queue, i, j);
      WithoutAt(a.queue, i, k);
      assert Later(a.queue[if j < i then j else j + 1], a.queue[if k < i then k else k + 1]);
    }
  }

  lemma TakenTraceSound(a: Agenda, i: nat)
    requires Sound(a) && AnyDue(a) && i == FirstDue(a.queue, a.now)
    ensures TraceSound(Taken(a, i))
  {
    var b := Taken(a, i);
    var n := |a.trace|;
    assert Fits(a, a.queue[i]);
    forall m | 0 <= m < |b.trace| ensures OnTime(b, b.trace[m]) {
      assert m < n ==> OnTime(a, a.trace[m]);
    }
    forall m, k | 0 <= m < k < |b.trace| ensures Before(b.trace[m], b.trace[k]) {
      assert OnTime(a, a.trace[m]) && Ahead(a, a.trace[m], a.queue[i]);
      assert k < n ==> Before(a.trace[m], a.trace[k]);
    }
  }

  lemma TakenMutuallySound(a: Agenda, i: nat)
    requires Sound(a) && AnyDue(a) && i == FirstDue(a.queue, a.now)
    ensures MutuallySound(Taken(a, i))
  {
    var b := Taken(a, i);
    forall m, j | 0 <= m < |b.trace| && 0 <= j < |b.queue| ensures Ahead(b, b.trace[m], b.queue[j]) {
      WithoutAt(a.queue, i, j);
      if m < |a.trace| {
        assert Ahead(a, a.trace[m], a.queue[if j < i then j else j + 1]);
      } else {
        assert j >= i ==> Later(a.queue[i], a.queue[j + 1]);
        assert j < i ==> a.queue[j].due != a.now && Later(a.queue[j], a.queue[i]);
      }
    }
  }

  lemma TakenCompleteBut(a: Agenda, i: nat)
    requires Complete(a) && i < |a.queue|
    ensures CompleteBut(Taken(a, i), a.queue[i])
  {
    var e, b := a.queue[i], Taken(a, i);
    forall t: nat, k: nat | t < |b.births| && InRuns(b.births[t], k) && !(t == e.task && k > e.nth)
      ensures HasFired(b, t, k) || Pending(b, t, k)
    {
      TakenComplete(a, i, t, k);
    }
  }

  lemma TakenComplete(a: Agenda, i: nat, t: nat, k: nat)
    requires i < |a.queue| && !(t == a.queue[i].task && k > a.queue[i].nth)
    requires HasFired(a, t, k) || Pending(a, t, k)
    ensures HasFired(Taken(a, i), t, k) || Pending(Taken(a, i), t, k)
  {
    var b := Taken(a, i);
    var e := a.queue[i];
    assert b.trace[..|a.trace|] == a.trace;
    if HasFired(a, t, k) {
      var m :| 0 <= m < |a.trace| && Names(a.trace[m], t, k);
      assert Names(b.trace[m], t, k);
    } else {
      var j :| 0 <= j < |a.queue| && a.queue[j].task == t && a.queue[j].nth <= k;
      if j == i {
        assert Names(b.trace[|a.trace|], t, k);
      } else {
        assert b.queue[if j < i then j else j - 1] == a.queue[j];
      }
    }
  }

  lemma RearmSound(a: Agenda, e: Entry)
    requires Firing(a, e) && Rearms(e.times)
    ensures Sound(Rearm(a, e)) && Complete(Rearm(a, e))
  {
    var b := Rearm(a, e);
    var f := b.queue[|a.queue|];
    RearmFits(a, e);
    forall j | 0 <= j < |b.queue| ensures Fits(b, b.queue[j]) && (j < |a.queue| ==> Later(b.queue[j], f)) {
      assert j < |a.queue| ==> Fits(a, a.queue[j]);
    }
    forall m | 0 <= m < |b.trace| ensures OnTime(b, b.trace[m]) && Ahead(b, b.trace[m], f) {
      assert OnTime(a, a.trace[m]);
    }
    forall t: nat, k: nat | t < |b.births| && InRuns(b.births[t], k)
      ensures HasFired(b, t, k) || Pending(b, t, k)
    {
      StillThere(a, b, t, k);
      assert f.task == e.task && f.nth == e.nth + 1;
    }
  }

  lemma RearmFits(a: Agenda, e: Entry)
    requires Firing(a, e) && Rearms(e.times)
    ensures Fits(Rearm(a, e), Rearm(a, e).queue[|a.queue|])
  {
    assert DueOf(a.births[e.task], e.nth + 1) == DueOf(a.births[e.task], e.nth) + e.timeout;
  }

  lemma LastRun(a: Agenda, e: Entry)
    requires Firing(a, e) && !Rearms(e.times)
    ensures Complete(a)
  {
  }

  lemma FireSound(a: Agenda)
    requires AnyDue(a) && Sound(a) && Complete(a)
    ensures Sound(Fire(a)) && Complete(Fire(a))
  {
    var i := FirstDue(a.queue, a.now);
    var e := a.queue[i];
    var t := Taken(a, i);
    TakenSound(a);
    AddAllSound(t, CallAdds(e.fun));
    var b := AddAll(t, CallAdds(e.fun));
    if Rearms(e.times) {
      RearmSound(b, e);
    } else {
      LastRun(b, e);
    }
  }

  lemma DrainSound(a: Agenda)
    requires Tame(a) && Sound(a) && Complete(a)
    ensures Sound(Drain(a)) && Complete(Drain(a))
    decreases Cost(a)
  {
    if AnyDue(a) {
      FireCosts(a);
      FireTame(a);
      FireSound(a);
      DrainSound(Fire(a));
    }
  }

  /** Between ticks nothing that has been run is due now. */
  ghost predicate Settled(a: Agenda) {
    && Sound(a)
    && Complete(a)
    && forall i :: 0 <= i < |a.trace| && a.trace[i].Fired? ==> a.trace[i].tick < a.now
  }

  lemma TickSettled(a: Agenda)
    requires Tame(a) && Settled(a)
    ensures Settled(Tick(a))
  {
    DrainSound(a);
    var d := Drain(a);
    var b := Tick(a);
    forall j | 0 <= j < |b.queue| ensures Fits(b, b.queue[j]) {
      assert Fits(d, d.queue[j]) && d.queue[j].due != d.now;
    }
    forall i | 0 <= i < |b.trace| ensures OnTime(b, b.trace[i]) {
      assert OnTime(d, d.trace[i]);
    }
    forall i, j | 0 <= i < |b.trace| && 0 <= j < |b.queue| ensures Ahead(b, b.trace[i], b.queue[j]) {
      assert Ahead(d, d.trace[i], d.queue[j]) && OnTime(d, d.trace[i]);
    }
    forall t: nat, k: nat | t < |b.births| && InRuns(b.births[t], k)
      ensures HasFired(b, t, k) || Pending(b, t, k)
    {
      assert HasFired(d, t, k) || Pending(d, t, k);
      assert HasFired(d, t, k) ==> HasFired(b, t, k);
      assert Pending(d, t, k) ==> Pending(b, t, k);
    }
  }

  lemma AddSettled(a: Agenda, x: Request)
    requires Settled(a)
    ensures Settled(Add(a, x))
  {
    AddSound(a, x);
    AddExtends(a, x);
  }

  lemma CancelQueueSound(a: Agenda, k: nat)
    requires QueueSound(a) && k < |a.queue|
    ensures QueueSound(Cancel(a, k))
  {
    var b := Cancel(a, k);
    forall j | 0 <= j < |b.queue| ensures Fits(b, b.queue[j]) {
      assert Fits(a, a.queue[j]);
    }
    forall i, j | 0 <= i < j < |b.queue| ensures Later(b.queue[i], b.queue[j]) {
      assert Later(a.queue[i], a.queue[j]);
    }
  }

  lemma CancelMutuallySound(a: Agenda, k: nat)
    requires TraceSound(a) && MutuallySound(a) && k < |a.queue|
    ensures TraceSound(Cancel(a, k)) && MutuallySound(Cancel(a, k))
  {
    var b := Cancel(a, k);
    forall i | 0 <= i < |b.trace| ensures OnTime(b, b.trace[i]) {
      assert OnTime(a, a.trace[i]);
    }
    forall i, j | 0 <= i < |b.trace| && 0 <= j < |b.queue| ensures Ahead(b, b.trace[i], b.queue[j]) {
      assert Ahead(a, a.trace[i], a.queue[j]);
    }
  }

  lemma CancelComplete(a: Agenda, k: nat)
    requires Complete(a) && k < |a.queue|
    ensures Complete(Cancel(a, k))
  {
    var b := Cancel(a, k);
    forall t: nat, n: nat | t < |b.births| && InRuns(b.births[t], n)
      ensures HasFired(b, t, n) || Pending(b, t, n)
    {
      assert HasFired(a, t, n) || Pending(a, t, n);
      assert HasFired(a, t, n) ==> HasFired(b, t, n);
      if Pending(a, t, n) {
        var j :| 0 <= j < |a.queue| && a.queue[j].task == t && a.queue[j].nth <= n;
        assert b.queue[j].task == t;
      }
    }
  }

  lemma CancelSettled(a: Agenda, k: nat)
    requires Settled(a) && k < |a.queue|
    ensures Settled(Cancel(a, k))
  {
    CancelQueueSound(a, k);
    CancelMutuallySound(a, k);
    CancelComplete(a, k);
  }

  lemma DoSettled(a: Agenda, op: Op)
    requires CanDo(a, op) && Settled(a)
    ensures Settled(Do(a, op))
  {
    match op
    case DoAdd(x) => AddSettled(a, x);
    case DoCancel(k) => if k < |a.queue| { CancelSettled(a, k); }
    case DoTick => TickSettled(a);
  }

  lemma RunSettled(a: Agenda, ops: seq<Op>)
    requires CanRun(a, ops) && Settled(a)
    ensures Settled(Run(a, ops))
    decreases |ops|
  {
    if ops != [] {
      DoSettled(a, ops[0]);
      RunSettled(Do(a, ops[0]), ops[1..]);
    }
  }

  // ---------------------------------------------------------- main results

  lemma SettledExact(a: Agenda, t: nat, k: nat)
    requires Settled(a) && t < |a.births|
    ensures HasFired(a, t, k) <==> InRuns(a.births[t], k) && DueOf(a.births[t], k) < a.now
  {
    var b := a.births[t];
    if HasFired(a, t, k) {
      var i :| 0 <= i < |a.trace| && Names(a.trace[i], t, k);
      assert OnTime(a, a.trace[i]);
    } else if InRuns(b, k) {
      assert Pending(a, t, k);
      var j :| 0 <= j < |a.queue| && a.queue[j].task == t && a.queue[j].nth <= k;
      assert Fits(a, a.queue[j]);
      DueMonotone(b, a.queue[j].nth, k);
    }
  }

  lemma DueMonotone(b: Birth, j: nat, k: nat)
    requires j <= k
    ensures DueOf(b, j) <= DueOf(b, k)
  {
  }

  // -------------------------------------------------------------- deletion

  /** From trace position n on, task t has called nothing, and it never will. */
  ghost predicate Silent(a: Agenda, t: nat, n: nat) {
    && t < |a.births| && n <= |a.trace|
    && (forall j :: 0 <= j < |a.queue| && a.queue[j].task == t ==> a.queue[j].fun == None)
    && (forall i :: n <= i < |a.trace| && a.trace[i].Fired? && a.trace[i].task == t ==> a.trace[i].call == None)
  }

  lemma AddSilent(a: Agenda, x: Request, t: nat, n: nat)
    requires Silent(a, t, n)
    ensures Silent(Add(a, x), t, n)
    decreases x, 1
  {
    if x.timeout < 0 {
      AddAllSilent(a.(trace := a.trace + [Immediate(a.now, x.fun.id)]), x.fun.adds, t, n);
    }
  }

  lemma AddAllSilent(a: Agenda, adds: seq<Request>, t: nat, n: nat)
    requires Silent(a, t, n)
    ensures Silent(AddAll(a, adds), t, n)
    decreases adds, 0
  {
    if adds != [] {
      AddSilent(a, adds[0], t, n);
      AddAllSilent(Add(a, adds[0]), adds[1..], t, n);
    }
  }

  lemma FireSilent(a: Agenda, t: nat, n: nat)
    requires AnyDue(a) && Silent(a, t, n)
    ensures Silent(Fire(a), t, n)
  {
    var i := FirstDue(a.queue, a.now);
    forall j | 0 <= j < |a.queue| - 1 && Taken(a, i).queue[j].task == t
      ensures Taken(a, i).queue[j].fun == None
    {
      WithoutAt(a.queue, i, j);
    }
    AddAllSilent(Taken(a, i), CallAdds(a.queue[i].fun), t, n);
  }

  lemma DrainSilent(a: Agenda, t: nat, n: nat)
    requires Tame(a) && Silent(a, t, n)
    ensures Silent(Drain(a), t, n)
    decreases Cost(a)
  {
    if AnyDue(a) {
      FireCosts(a);
      FireTame(a);
      FireSilent(a, t, n);
      DrainSilent(Fire(a), t, n);
    }
  }

  lemma RunSilent(a: Agenda, ops: seq<Op>, t: nat, n: nat)
    requires CanRun(a, ops) && Silent(a, t, n)
    ensures Silent(Run(a, ops), t, n)
    decreases |ops|
  {
    if ops != [] {
      match ops[0] {
        case DoAdd(x) => AddSilent(a, x, t, n);
        case DoCancel(k) =>
        case DoTick => DrainSilent(a, t, n);
      }
      RunSilent(Do(a, ops[0]), ops[1..], t, n);
    }
  }

  /** A deleted task keeps its place and its schedule but never calls again,
      whatever happens after the deletion. */
  lemma CancelledIsSilent(before: seq<Op>, k: nat, after: seq<Op>)
    requires CanRun(EMPTY, before) && k < |Run(EMPTY, before).queue|
    requires CanRun(Cancel(Run(EMPTY, before), k), after)
    ensures var a := Run(EMPTY, before);
            Silent(Run(Cancel(a, k), after), a.queue[k].task, |a.trace|)
  {
    RunSettled(EMPTY, before);
    var a := Run(EMPTY, before);
    assert Fits(a, a.queue[k]);
    forall j | 0 <= j < |a.queue| && a.queue[j].task == a.queue[k].task ensures j == k {
      assert j < k ==> Later(a.queue[j], a.queue[k]);
      assert k < j ==> Later(a.queue[k], a.queue[j]);
    }
    RunSilent(Cancel(a, k), after, a.queue[k].task, |a.trace|);
  }

  // ---------------------------------------------------------------- polling

  predicate CanTick(a: Agenda, n: nat)
    decreases n
  {
    n == 0 || (Tame(a) && CanTick(Tick(a), n - 1))
  }

  function Ticks(a: Agenda, n: nat): Agenda
    requires CanTick(a, n)
    decreases n
  {
    if n == 0 then a else Ticks(Tick(a), n - 1)
  }

  /** An agenda with the time it was last polled at. */
  datatype Clocked = Clocked(agenda: Agenda, start: int)

  function Elapsed(start: int, now: int): nat {
    if now > start then now - start else 0
  }

  /** One tick for every unit of time passed; a clock set back gives no tick. */
  function Poll(c: Clocked, now: int): Clocked
    requires CanTick(c.agenda, Elapsed(c.start, now))
  {
    Clocked(Ticks(c.agenda, Elapsed(c.start, now)), now)
  }

  lemma {:induction false} TicksAdd(a: Agenda, m: nat, n: nat)
    ensures CanTick(a, m + n) <==> CanTick(a, m) && CanTick(Ticks(a, m), n)
    ensures CanTick(a, m + n) ==> Ticks(a, m + n) == Ticks(Ticks(a, m), n)
    ensures CanTick(a, m) ==> Ticks(a, m).now == a.now + m
    decreases m
  {
    if m > 0 && Tame(a) {
      TicksAdd(Tick(a), m - 1, n);
    }
  }

  /** Polling twice comes to the same as polling once at the later time if and
      only if the time of the first poll lies between the other two. */
  lemma PollTwice(c: Clocked, mid: int, end: int)
    requires CanTick(c.agenda, Elapsed(c.start, mid))
    requires CanTick(Poll(c, mid).agenda, Elapsed(mid, end))
    requires CanTick(c.agenda, Elapsed(c.start, end))
    ensures Poll(Poll(c, mid), end) == Poll(c, end) <==> c.start <= mid <= end || end <= mid <= c.start
  {
    TicksAdd(c.agenda, Elapsed(c.start, mid), Elapsed(mid, end));
    TicksAdd(c.agenda, Elapsed(c.start, mid), 0);
    TicksAdd(Poll(c, mid).agenda, Elapsed(mid, end), 0);
    TicksAdd(c.agenda, Elapsed(c.start, end), 0);
  }

  lemma {:induction false} TicksKeep(a: Agenda, n: nat)
    requires Settled(a) && CanTick(a, n)
    ensures Settled(Ticks(a, n)) && a.births <= Ticks(a, n).births
    decreases n
  {
    if n > 0 {
      var b := Tick(a);
      TickSettled(a);
      assert a.births <= b.births by {
        DrainKeepsBirths(a);
      }
      TicksKeep(b, n - 1);
    }
  }

  lemma DrainKeepsBirths(a: Agenda)
    requires Tame(a)
    ensures a.births <= Drain(a).births
    decreases Cost(a)
  {
    if AnyDue(a) {
      FireCosts(a);
      FireTame(a);
      var i := FirstDue(a.queue, a.now);
      AddAllExtends(Taken(a, i), CallAdds(a.queue[i].fun));
      DrainKeepsBirths(Fire(a));
    }
  }

  // ------------------------------------------ when every tick is sure to end

  /** Nothing endless anywhere in a request, however deep. */
  predicate Gentle(x: Request)
    decreases x, 1
  {
    !(x.timeout == 0 && x.times == -1) && GentleAdds(x.fun.adds)
  }

  predicate GentleAdds(adds: seq<Request>)
    decreases adds, 0
  {
    adds == [] || (Gentle(adds[0]) && GentleAdds(adds[1..]))
  }

  predicate GentleQueue(a: Agenda) {
    forall i :: 0 <= i < |a.queue| ==> GentleEntry(a.queue[i])
  }

  predicate GentleEntry(e: Entry) {
    !(e.timeout == 0 && e.times == -1) && GentleAdds(CallAdds(e.fun))
  }

  lemma GentleNotEndless(x: Request)
    requires Gentle(x)
    ensures !EndlessRequest(x)
    decreases x, 1
  {
    GentleAddsNotEndless(x.fun.adds);
  }

  lemma GentleAddsNotEndless(adds: seq<Request>)
    requires GentleAdds(adds)
    ensures !EndlessAdds(adds)
    decreases adds, 0
  {
    if adds != [] {
      GentleNotEndless(adds[0]);
      GentleAddsNotEndless(adds[1..]);
    }
  }

  lemma GentleTame(a: Agenda)
    requires GentleQueue(a)
    ensures Tame(a)
  {
    forall i | 0 <= i < |a.queue| ensures !EndlessEntry(a.queue[i]) {
      GentleAddsNotEndless(CallAdds(a.queue[i].fun));
    }
  }

  lemma GentleAdd(a: Agenda, x: Request)
    requires GentleQueue(a) && Gentle(x)
    ensures GentleQueue(Add(a, x))
    decreases x, 1
  {
    if x.timeout < 0 {
      GentleAddAll(a.(trace := a.trace + [Immediate(a.now, x.fun.id)]), x.fun.adds);
    }
  }

  lemma GentleAddAll(a: Agenda, adds: seq<Request>)
    requires GentleQueue(a) && GentleAdds(adds)
    ensures GentleQueue(AddAll(a, adds))
    decreases adds, 0
  {
    if adds != [] {
      GentleAdd(a, adds[0]);
      GentleAddAll(Add(a, adds[0]), adds[1..]);
    }
  }

  lemma GentleDrain(a: Agenda)
    requires Tame(a) && GentleQueue(a)
    ensures GentleQueue(Drain(a))
    decreases Cost(a)
  {
    if AnyDue(a) {
      FireCosts(a);
      FireTame(a);
      var i := FirstDue(a.queue, a.now);
      assert GentleEntry(a.queue[i]);
      forall j | 0 <= j < |a.queue| - 1 ensures GentleEntry(Taken(a, i).queue[j]) {
        WithoutAt(a.queue, i, j);
      }
      GentleAddAll(Taken(a, i), CallAdds(a.queue[i].fun));
      GentleDrain(Fire(a));
    }
  }

  /** If no request ever made is endless, every run can be carried out. */
  lemma GentleCanRun(a: Agenda, ops: seq<Op>)
    requires GentleQueue(a)
    requires forall i :: 0 <= i < |ops| && ops[i].DoAdd? ==> Gentle(ops[i].x)
    ensures CanRun(a, ops)
    decreases |ops|
  {
    if ops != [] {
      GentleTame(a);
      match ops[0] {
        case DoAdd(x) => GentleAdd(a, x);
        case DoCancel(k) =>
        case DoTick => GentleDrain(a);
      }
      GentleCanRun(Do(a, ops[0]), ops[1..]);
    }
  }
}
