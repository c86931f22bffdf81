/** The meaning of the timing wheel, without the wheel.

    An agenda is a plain list of pending entries in the order they were put in,
    each carrying the absolute tick it is due at.  There are no slots and no
    rotations, and the wheel length does not occur.  Ticking fires, one by one,
    the first entry of the list that is due now, until none is. */
module Agendas {
  import opened Wrappers

  /** A callback leaves its id in the trace and then adds tasks to the wheel. */
  datatype Callback = Callback(id: int, adds: seq<Request>)

  datatype Request = Request(timeout: int, times: int, fun: Callback)

  /** One stay of a task in the wheel: its nth run, counted from 0.  `fun` is
      None once the task is deleted; `seqno` numbers the stays as they are put in,
      and `put` says how many records the trace had then. */
  datatype Entry = Entry(
    seqno: nat, put: nat, task: nat, nth: nat, due: nat, timeout: nat, times: int, fun: Option<Callback>)

  /** When a task was added, and with what, after how many records of the trace:
      `births[t]` belongs to task t. */
  datatype Birth = Birth(at: nat, place: nat, timeout: nat, times: int, fun: Callback)

  datatype Record =
    | Fired(tick: nat, seqno: nat, put: nat, task: nat, nth: nat, call: Option<int>)
    | Immediate(tick: nat, id: int)

  /** `now` counts the ticks completed so far; `muted` holds the deleted tasks, with
      the number of records at their deletion. */
  datatype Agenda = Agenda(
    now: nat, next: nat, queue: seq<Entry>, births: seq<Birth>, trace: seq<Record>, muted: map<nat, nat>)

  const EMPTY := Agenda(0, 0, [], [], [], map[])

  function NewEntry(a: Agenda, task: nat, nth: nat, timeout: nat, times: int, fun: Option<Callback>): Entry {
    Entry(a.next, |a.trace|, task, nth, a.now + timeout, timeout, times, fun)
  }

  function Push(a: Agenda, task: nat, nth: nat, timeout: nat, times: int, fun: Option<Callback>): Agenda {
    a.(queue := a.queue + [NewEntry(a, task, nth, timeout, times, fun)], next := a.next + 1)
  }

  function Registered(a: Agenda, x: Request): Agenda
    requires x.timeout >= 0
  {
    a.(births := a.births + [Birth(a.now, |a.trace|, x.timeout, x.times, x.fun)])
  }

  /** A negative timeout runs the callback on the spot and creates no task. */
  function Add(a: Agenda, x: Request): Agenda
    decreases x, 1
  {
    if x.timeout < 0 then
      AddAll(a.(trace := a.trace + [Immediate(a.now, x.fun.id)]), x.fun.adds)
    else
      Push(Registered(a, x), |a.births|, 0, x.timeout, x.times, Some(x.fun))
  }

  function AddAll(a: Agenda, adds: seq<Request>): Agenda
    decreases adds, 0
  {
    if adds == [] then a
    else AddAll(Add(a, adds[0]), adds[1..])
  }

  function Cancel(a: Agenda, k: nat): Agenda
    requires k < |a.queue|
  {
    var t := a.queue[k].task;
    a.(queue := a.queue[k := a.queue[k].(fun := None)],
       muted := if t in a.muted then a.muted else a.muted[t := |a.trace|])
  }

  // ---------------------------------------------------------------- firing

  function Without<T>(s: seq<T>, i: nat): seq<T>
    requires i < |s|
  {
    s[..i] + s[i + 1..]
  }

  /** The first entry due at `now`, or the length of the list. */
  function FirstDue(q: seq<Entry>, now: nat): (i: nat)
    ensures i <= |q| && (i < |q| ==> q[i].due == now)
    ensures forall j :: 0 <= j < i ==> q[j].due != now
  {
    if q == [] || q[0].due == now then 0 else 1 + FirstDue(q[1..], now)
  }

  predicate AnyDue(a: Agenda) {
    FirstDue(a.queue, a.now) < |a.queue|
  }

  predicate Rearms(times: int) {
    times > 1 || times == -1
  }

  function OneLess(times: int): int {
    if times > 1 then times - 1 else times
  }

  /** Take entry i out, run its callback, and put the task in again if it repeats. */
  function FireAt(a: Agenda, i: nat): Agenda
    requires i < |a.queue|
  {
    var e := a.queue[i];
    var called := AddAll(Taken(a, i), CallAdds(e.fun));
    if Rearms(e.times) then Rearm(called, e) else called
  }

  function Taken(a: Agenda, i: nat): Agenda
    requires i < |a.queue|
  {
    Recorded(a, a.queue[i]).(queue := Without(a.queue, i))
  }

  function Rearm(a: Agenda, e: Entry): Agenda {
    Push(a, e.task, e.nth + 1, e.timeout, OneLess(e.times), e.fun)
  }

  function Recorded(a: Agenda, e: Entry): Agenda {
    a.(trace := a.trace + [RecordOf(a, e)])
  }

  function RecordOf(a: Agenda, e: Entry): Record {
    Fired(a.now, e.seqno, e.put, e.task, e.nth, if e.fun.Some? then Some(e.fun.value.id) else None)
  }

  function CallAdds(fun: Option<Callback>): seq<Request> {
    if fun.Some? then fun.value.adds else []
  }

  function Fire(a: Agenda): Agenda
    requires AnyDue(a)
  {
    FireAt(a, FirstDue(a.queue, a.now))
  }

  // ------------------------------------------------------------ termination

  /** A task that is due again in the tick that runs it, for ever; or one
      whose callback puts such a task in at once. */
  predicate EndlessRequest(x: Request)
    decreases x, 1
  {
    || (x.timeout == 0 && x.times == -1)
    || (x.timeout <= 0 && EndlessAdds(x.fun.adds))
  }

  predicate EndlessAdds(adds: seq<Request>)
    decreases adds, 0
  {
    adds != [] && (EndlessRequest(adds[0]) || EndlessAdds(adds[1..]))
  }

  predicate EndlessEntry(e: Entry) {
    || (e.timeout == 0 && e.times == -1)
    || EndlessAdds(CallAdds(e.fun))
  }

  /** No entry due now is endless: the exact condition for a tick to return. */
  predicate Tame(a: Agenda) {
    forall i :: 0 <= i < |a.queue| && a.queue[i].due == a.now ==> !EndlessEntry(a.queue[i])
  }

  function Repeats(times: int): nat {
    if times > 1 then times else 1
  }

  /** How many firings a request causes within the current tick. */
  function RequestCost(x: Request): nat
    decreases x, 1
  {
    if x.timeout < 0 then AddsCost(x.fun.adds)
    else if x.timeout == 0 then Repeats(x.times) * (1 + AddsCost(x.fun.adds))
    else 0
  }

  function AddsCost(adds: seq<Request>): nat
    decreases adds, 0
  {
    if adds == [] then 0 else RequestCost(adds[0]) + AddsCost(adds[1..])
  }

  function EntryCost(e: Entry): nat {
    if e.timeout == 0 then Repeats(e.times) * (1 + AddsCost(CallAdds(e.fun)))
    else 1 + AddsCost(CallAdds(e.fun))
  }

  function QueueCost(q: seq<Entry>, now: nat): nat {
    if q == [] then 0
    else (if q[0].due == now then EntryCost(q[0]) else 0) + QueueCost(q[1..], now)
  }

  function Cost(a: Agenda): nat {
    QueueCost(a.queue, a.now)
  }

  lemma QueueCostAppend(p: seq<Entry>, q: seq<Entry>, now: nat)
    ensures QueueCost(p + q, now) == QueueCost(p, now) + QueueCost(q, now)
  {
    if p == [] {
      assert p + q == q;
    } else {
      assert (p + q)[1..] == p[1..] + q;
    }
  }

  /** Adding only appends to the queue, the births and the trace. */
  lemma AddExtends(a: Agenda, x: Request)
    ensures Extends(a, Add(a, x))
    decreases x, 1
  {
    if x.timeout < 0 {
      AddAllExtends(a.(trace := a.trace + [Immediate(a.now, x.fun.id)]), x.fun.adds);
    }
  }

  lemma AddAllExtends(a: Agenda, adds: seq<Request>)
    ensures Extends(a, AddAll(a, adds))
    decreases adds, 0
  {
    if adds != [] {
      AddExtends(a, adds[0]);
      AddAllExtends(Add(a, adds[0]), adds[1..]);
    }
  }

  predicate Extends(a: Agenda, b: Agenda) {
    && b.now == a.now && a.queue <= b.queue && a.births <= b.births && a.trace <= b.trace && a.next <= b.next
    && b.muted == a.muted
    && forall i :: |a.trace| <= i < |b.trace| ==> b.trace[i].Immediate?
  }

  /** What a list of requests leaves due now costs no more than `AddsCost`. */
  lemma AddCosts(a: Agenda, x: Request)
    ensures Cost(Add(a, x)) == Cost(a) + RequestCost(x)
    decreases x, 1
  {
    if x.timeout < 0 {
      AddAllCosts(a.(trace := a.trace + [Immediate(a.now, x.fun.id)]), x.fun.adds);
    } else {
      PushCosts(Registered(a, x), |a.births|, 0, x.timeout, x.times, Some(x.fun));
    }
  }

  lemma AddAllCosts(a: Agenda, adds: seq<Request>)
    ensures Cost(AddAll(a, adds)) == Cost(a) + AddsCost(adds)
    decreases adds, 0
  {
    if adds != [] {
      AddCosts(a, adds[0]);
      AddAllCosts(Add(a, adds[0]), adds[1..]);
    }
  }

  lemma PushCosts(a: Agenda, task: nat, nth: nat, timeout: nat, times: int, fun: Option<Callback>)
    ensures Cost(Push(a, task, nth, timeout, times, fun)) ==
            Cost(a) + if timeout == 0 then EntryCost(NewEntry(a, task, nth, 0, times, fun)) else 0
  {
    QueueCostAppend(a.queue, [NewEntry(a, task, nth, timeout, times, fun)], a.now);
  }

  lemma WithoutCosts(q: seq<Entry>, i: nat, now: nat)
    requires i < |q| && q[i].due == now
    ensures QueueCost(Without(q, i), now) + EntryCost(q[i]) == QueueCost(q, now)
  {
    assert q == q[..i] + ([q[i]] + q[i + 1..]);
    QueueCostAppend(q[..i], [q[i]] + q[i + 1..], now);
    QueueCostAppend([q[i]], q[i + 1..], now);
    QueueCostAppend(q[..i], q[i + 1..], now);
  }

  /** The re-armed entry of a firing task leaves room for what its callback added. */
  lemma RearmCost(times: int, k: nat)
    requires times > 1
    ensures Repeats(times) * k == k + Repeats(OneLess(times)) * k
  {
  }

  lemma FireCosts(a: Agenda)
    requires AnyDue(a) && Tame(a)
    ensures Cost(Fire(a)) < Cost(a)
  {
    var i := FirstDue(a.queue, a.now);
    var e := a.queue[i];
    var t := Taken(a, i);
    var b := AddAll(t, CallAdds(e.fun));
    WithoutCosts(a.queue, i, a.now);
    AddAllCosts(t, CallAdds(e.fun));
    AddAllExtends(t, CallAdds(e.fun));
    if Rearms(e.times) {
      PushCosts(b, e.task, e.nth + 1, e.timeout, OneLess(e.times), e.fun);
      if e.timeout == 0 {
        RearmCost(e.times, 1 + AddsCost(CallAdds(e.fun)));
      }
    }
  }

  // A tick returns exactly when no entry due now is endless.

  lemma AddTame(a: Agenda, x: Request)
    ensures Tame(Add(a, x)) <==> Tame(a) && !EndlessRequest(x)
    decreases x, 1
  {
    if x.timeout < 0 {
      AddAllTame(a.(trace := a.trace + [Immediate(a.now, x.fun.id)]), x.fun.adds);
    } else {
      PushTame(Registered(a, x), |a.births|, 0, x.timeout, x.times, Some(x.fun));
    }
  }

  lemma AddAllTame(a: Agenda, adds: seq<Request>)
    ensures Tame(AddAll(a, adds)) <==> Tame(a) && !EndlessAdds(adds)
    decreases adds, 0
  {
    if adds != [] {
      AddTame(a, adds[0]);
      AddAllTame(Add(a, adds[0]), adds[1..]);
    }
  }

  lemma PushTame(a: Agenda, task: nat, nth: nat, timeout: nat, times: int, fun: Option<Callback>)
    ensures Tame(Push(a, task, nth, timeout, times, fun)) <==>
            Tame(a) && !(timeout == 0 && (times == -1 || EndlessAdds(CallAdds(fun))))
  {
    var b := Push(a, task, nth, timeout, times, fun);
    var n := |a.queue|;
    assert b.queue[n].due == a.now + timeout;
    assert forall i :: 0 <= i < n ==> b.queue[i] == a.queue[i];
  }

  lemma FireTame(a: Agenda)
    requires AnyDue(a)
    ensures Tame(Fire(a)) <==> Tame(a)
  {
    var i := FirstDue(a.queue, a.now);
    var e := a.queue[i];
    WithoutTame(a, i);
    AddAllTame(Taken(a, i), CallAdds(e.fun));
    AddAllExtends(Taken(a, i), CallAdds(e.fun));
    PushTame(AddAll(Taken(a, i), CallAdds(e.fun)), e.task, e.nth + 1, e.timeout, OneLess(e.times), e.fun);
  }

  lemma WithoutTame(c: Agenda, i: nat)
    requires i < |c.queue| && c.queue[i].due == c.now
    ensures Tame(c) <==> Tame(c.(queue := Without(c.queue, i))) && !EndlessEntry(c.queue[i])
  {
    var q := Without(c.queue, i);
    assert forall j :: 0 <= j < i ==> q[j] == c.queue[j];
    assert forall j :: i < j < |c.queue| ==> q[j - 1] == c.queue[j];
  }

  lemma FireKeepsNow(a: Agenda)
    requires AnyDue(a)
    ensures Fire(a).now == a.now
  {
    var i := FirstDue(a.queue, a.now);
    AddAllExtends(Taken(a, i), CallAdds(a.queue[i].fun));
  }

  function Drain(a: Agenda): (b: Agenda)
    requires Tame(a)
    ensures b.now == a.now && !AnyDue(b)
    decreases Cost(a)
  {
    if AnyDue(a) then
      FireCosts(a);
      FireTame(a);
      FireKeepsNow(a);
      Drain(Fire(a))
    else a
  }

  function Tick(a: Agenda): Agenda
    requires Tame(a)
  {
    Drain(a).(now := a.now + 1)
  }

  function Steps(a: Agenda, n: nat): Agenda
    decreases n
  {
    if n == 0 || !AnyDue(a) then a else Steps(Fire(a), n - 1)
  }

  lemma StepsDrain(a: Agenda, n: nat)
    requires Tame(a) && n >= Cost(a)
    ensures Steps(a, n) == Drain(a)
    decreases n
  {
    if AnyDue(a) {
      FireCosts(a);
      FireTame(a);
      StepsDrain(Fire(a), n - 1);
    }
  }

  lemma EndlessSteps(a: Agenda, n: nat)
    requires !Tame(a)
    ensures AnyDue(Steps(a, n))
    decreases n
  {
    if n > 0 && AnyDue(a) {
      FireTame(a);
      EndlessSteps(Fire(a), n - 1);
    }
  }

  /** The walk over the due entries comes to an end if and only if no entry due
      now is endless, however many entries the running callbacks add. */
  lemma TickHalts(a: Agenda)
    ensures (exists n: nat :: !AnyDue(Steps(a, n))) <==> Tame(a)
  {
    if Tame(a) {
      StepsDrain(a, Cost(a));
    } else {
      forall n: nat ensures AnyDue(Steps(a, n)) {
        EndlessSteps(a, n);
      }
    }
  }
}
