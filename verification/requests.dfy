/** That every request for a timer is heard, whoever makes it: from outside the
    wheel or from a running callback, however deep. */
module Requests {
  import opened Wrappers
  import opened Agendas
  import opened Timeline
  import opened Firings

  /** What a request comes to: a callback called at once, or a task put in. */
  datatype Effect = Calls(id: int) | Registers(timeout: nat, times: int, fun: Callback)

  function EffectsOf(x: Request): seq<Effect>
    decreases x, 1
  {
    if x.timeout < 0 then [Calls(x.fun.id)] + Effects(x.fun.adds) else [Registers(x.timeout, x.times, x.fun)]
  }

  function Effects(adds: seq<Request>): seq<Effect>
    decreases adds, 0
  {
    if adds == [] then [] else EffectsOf(adds[0]) + Effects(adds[1..])
  }

  /** The records the effects leave in tick `now`. */
  function RecordsOf(fx: seq<Effect>, now: nat): seq<Record> {
    if fx == [] then []
    else (if fx[0].Calls? then [Immediate(now, fx[0].id)] else []) + RecordsOf(fx[1..], now)
  }

  /** The tasks the effects put in, in tick `now` and from `place` records on. */
  function BirthsOf(fx: seq<Effect>, now: nat, place: nat): seq<Birth> {
    if fx == [] then []
    else
      match fx[0]
      case Calls(_) => BirthsOf(fx[1..], now, place + 1)
      case Registers(timeout, times, fun) =>
        [Birth(now, place, timeout, times, fun)] + BirthsOf(fx[1..], now, place)
  }

  lemma {:induction false} EffectsAppend(fx: seq<Effect>, gx: seq<Effect>, now: nat, place: nat)
    ensures RecordsOf(fx + gx, now) == RecordsOf(fx, now) + RecordsOf(gx, now)
    ensures BirthsOf(fx + gx, now, place) ==
            BirthsOf(fx, now, place) + BirthsOf(gx, now, place + |RecordsOf(fx, now)|)
  {
    if fx == [] {
      assert fx + gx == gx;
    } else {
      var next := if fx[0].Calls? then place + 1 else place;
      EffectsAppend(fx[1..], gx, now, next);
      assert (fx + gx)[1..] == fx[1..] + gx;
    }
  }

  /** a has become b by these effects. */
  predicate Comes(a: Agenda, b: Agenda, fx: seq<Effect>) {
    && b.now == a.now
    && b.trace == a.trace + RecordsOf(fx, a.now)
    && b.births == a.births + BirthsOf(fx, a.now, |a.trace|)
  }

  lemma ComesOn(a: Agenda, b: Agenda, c: Agenda, fx: seq<Effect>, gx: seq<Effect>)
    requires Comes(a, b, fx) && Comes(b, c, gx)
    ensures Comes(a, c, fx + gx)
  {
    EffectsAppend(fx, gx, a.now, |a.trace|);
  }

  /** A request does all that is asked, in its order, and no more. */
  lemma AddComes(a: Agenda, x: Request)
    ensures Comes(a, Add(a, x), EffectsOf(x))
    decreases x, 1
  {
    if x.timeout < 0 {
      var b := a.(trace := a.trace + [Immediate(a.now, x.fun.id)]);
      AddAllComes(b, x.fun.adds);
      assert RecordsOf([Calls(x.fun.id)], a.now) == [Immediate(a.now, x.fun.id)];
      assert BirthsOf([Calls(x.fun.id)], a.now, |a.trace|) == [];
      ComesOn(a, b, Add(a, x), [Calls(x.fun.id)], Effects(x.fun.adds));
    } else {
      assert BirthsOf(EffectsOf(x), a.now, |a.trace|) == [Birth(a.now, |a.trace|, x.timeout, x.times, x.fun)];
      assert RecordsOf(EffectsOf(x), a.now) == [];
    }
  }

  lemma AddAllComes(a: Agenda, adds: seq<Request>)
    ensures Comes(a, AddAll(a, adds), Effects(adds))
    decreases adds, 0
  {
    if adds != [] {
      AddComes(a, adds[0]);
      AddAllComes(Add(a, adds[0]), adds[1..]);
      ComesOn(a, Add(a, adds[0]), AddAll(a, adds), EffectsOf(adds[0]), Effects(adds[1..]));
    }
  }

  // ------------------------------------------------------------- over runs

  /** The effects took place in tick `now`, with `place` records before them; the
      tasks begin at number p. */
  predicate HonouredAt(a: Agenda, fx: seq<Effect>, now: nat, place: nat, p: nat) {
    var rs, bs := RecordsOf(fx, now), BirthsOf(fx, now, place);
    && place + |rs| <= |a.trace| && a.trace[place..place + |rs|] == rs
    && p + |bs| <= |a.births| && a.births[p..p + |bs|] == bs
  }

  ghost predicate Honoured(a: Agenda, fx: seq<Effect>, now: nat, place: nat) {
    exists p :: HonouredAt(a, fx, now, place, p)
  }

  lemma HonouredStill(a: Agenda, b: Agenda, fx: seq<Effect>, now: nat, place: nat)
    requires Honoured(a, fx, now, place) && a.trace <= b.trace && a.births <= b.births
    ensures Honoured(b, fx, now, place)
  {
    var p: nat :| HonouredAt(a, fx, now, place, p);
    var rs, bs := RecordsOf(fx, now), BirthsOf(fx, now, place);
    assert b.trace[place..place + |rs|] == a.trace[place..place + |rs|];
    assert b.births[p..p + |bs|] == a.births[p..p + |bs|];
    assert HonouredAt(b, fx, now, place, p);
  }

  lemma ComesHonoured(a: Agenda, b: Agenda, fx: seq<Effect>)
    requires Comes(a, b, fx)
    ensures Honoured(b, fx, a.now, |a.trace|)
  {
    assert HonouredAt(b, fx, a.now, |a.trace|, |a.births|);
  }

  /** What record i made its callback ask for. */
  function AskedIn(a: Agenda, i: nat): seq<Effect>
    requires i < |a.trace|
  {
    var r := a.trace[i];
    if r.Fired? && r.call.Some? && r.task < |a.births| then Effects(a.births[r.task].fun.adds) else []
  }

  ghost predicate Answered(a: Agenda) {
    forall i :: 0 <= i < |a.trace| && a.trace[i].Fired? ==> Honoured(a, AskedIn(a, i), a.trace[i].tick, i + 1)
  }

  /** How many requests the calls among the first n records have made. */
  function AskedBefore(a: Agenda, n: nat): nat
    requires n <= |a.trace|
  {
    if n == 0 then 0 else AskedBefore(a, n - 1) + |AskedIn(a, n - 1)|
  }

  /** How many callbacks the first n records called at once. */
  function Immediates(trace: seq<Record>): nat {
    if trace == [] then 0 else Immediates(trace[..|trace| - 1]) + if trace[|trace| - 1].Immediate? then 1 else 0
  }

  lemma {:induction false} ImmediatesAppend(p: seq<Record>, q: seq<Record>)
    ensures Immediates(p + q) == Immediates(p) + Immediates(q)
  {
    if q == [] {
      assert p + q == p;
    } else {
      var n := |q| - 1;
      ImmediatesAppend(p, q[..n]);
      assert (p + q)[..|p + q| - 1] == p + q[..n];
    }
  }

  /** Each effect leaves one thing behind. */
  lemma {:induction false} EffectsCount(fx: seq<Effect>, now: nat, place: nat)
    ensures Immediates(RecordsOf(fx, now)) + |BirthsOf(fx, now, place)| == |fx|
  {
    if fx != [] {
      var first := if fx[0].Calls? then [Immediate(now, fx[0].id)] else [];
      EffectsCount(fx[1..], now, if fx[0].Calls? then place + 1 else place);
      ImmediatesAppend(first, RecordsOf(fx[1..], now));
      assert first != [] ==> first[..0] == [];
    }
  }

  lemma {:induction false} AskedBeforeStill(a: Agenda, b: Agenda, n: nat)
    requires n <= |a.trace| && a.trace <= b.trace && a.births <= b.births
    requires forall i :: 0 <= i < n && a.trace[i].Fired? ==> a.trace[i].task < |a.births|
    ensures AskedBefore(b, n) == AskedBefore(a, n)
  {
    if n > 0 {
      AskedBeforeStill(a, b, n - 1);
      assert a.trace[n - 1] == b.trace[n - 1];
    }
  }

  lemma {:induction false} AskedByNone(a: Agenda, m: nat, n: nat)
    requires m <= n <= |a.trace| && forall i :: m <= i < n ==> !a.trace[i].Fired?
    ensures AskedBefore(a, n) == AskedBefore(a, m)
  {
    if m < n {
      AskedByNone(a, m, n - 1);
    }
  }

  /** Tasks put in and callbacks called at once, all told. */
  function Heard(a: Agenda): nat {
    |a.births| + Immediates(a.trace)
  }

  /** All requests of callbacks are answered, and beside them only `outside`. */
  ghost predicate Balanced(a: Agenda, outside: nat) {
    && Answered(a)
    && (forall i :: 0 <= i < |a.trace| && a.trace[i].Fired? ==> a.trace[i].task < |a.births|)
    && Heard(a) == outside + AskedBefore(a, |a.trace|)
  }

  /** Effects asked for from outside. */
  lemma ComesBalanced(a: Agenda, b: Agenda, fx: seq<Effect>, outside: nat)
    requires Balanced(a, outside) && Comes(a, b, fx)
    ensures Balanced(b, outside + |fx|)
  {
    var n := |a.trace|;
    RecordsAreImmediate(fx, a.now);
    forall i | 0 <= i < |b.trace| && b.trace[i].Fired?
      ensures b.trace[i].task < |b.births| && Honoured(b, AskedIn(b, i), b.trace[i].tick, i + 1)
    {
      assert i < n && b.trace[i] == a.trace[i];
      HonouredStill(a, b, AskedIn(a, i), a.trace[i].tick, i + 1);
    }
    AskedBeforeStill(a, b, n);
    AskedByNone(b, n, |b.trace|);
    ImmediatesAppend(a.trace, RecordsOf(fx, a.now));
    EffectsCount(fx, a.now, n);
  }

  lemma RecordsAreImmediate(fx: seq<Effect>, now: nat)
    ensures forall i :: 0 <= i < |RecordsOf(fx, now)| ==> RecordsOf(fx, now)[i].Immediate?
  {
  }

  /** A record of a firing, and the effects of the call it stands for. */
  ghost predicate FiredComes(a: Agenda, t: Agenda, b: Agenda, r: Record) {
    && r.Fired? && r.task < |a.births| && r.tick == t.now
    && t.trace == a.trace + [r] && t.births == a.births
    && Comes(t, b, AskedIn(t, |a.trace|))
  }

  lemma FiredAnswered(a: Agenda, t: Agenda, b: Agenda, r: Record, outside: nat)
    requires Balanced(a, outside) && FiredComes(a, t, b, r)
    ensures Answered(b) && forall i :: 0 <= i < |b.trace| && b.trace[i].Fired? ==> b.trace[i].task < |b.births|
  {
    var n := |a.trace|;
    var fx := AskedIn(t, n);
    RecordsAreImmediate(fx, t.now);
    ComesHonoured(t, b, fx);
    assert AskedIn(b, n) == fx;
    forall i | 0 <= i < |b.trace| && b.trace[i].Fired?
      ensures b.trace[i].task < |b.births| && Honoured(b, AskedIn(b, i), b.trace[i].tick, i + 1)
    {
      assert i <= n && b.trace[i] == t.trace[i];
      if i < n {
        assert t.trace[i] == a.trace[i];
        HonouredStill(a, b, AskedIn(a, i), a.trace[i].tick, i + 1);
      }
    }
  }

  lemma FiredHeard(a: Agenda, t: Agenda, b: Agenda, r: Record)
    requires FiredComes(a, t, b, r)
    ensures Heard(b) == Heard(a) + |AskedIn(b, |a.trace|)|
  {
    var fx := AskedIn(t, |a.trace|);
    ImmediatesAppend(a.trace, [r]);
    ImmediatesAppend(t.trace, RecordsOf(fx, t.now));
    assert [r][..0] == [];
    EffectsCount(fx, t.now, |a.trace| + 1);
  }

  lemma FiredBalanced(a: Agenda, t: Agenda, b: Agenda, r: Record, outside: nat)
    requires Balanced(a, outside) && FiredComes(a, t, b, r)
    ensures Balanced(b, outside)
  {
    var n := |a.trace|;
    RecordsAreImmediate(AskedIn(t, n), t.now);
    FiredAnswered(a, t, b, r, outside);
    FiredHeard(a, t, b, r);
    assert a.trace <= b.trace;
    AskedBeforeStill(a, b, n);
    AskedByNone(b, n + 1, |b.trace|);
  }

  lemma FireBalanced(a: Agenda, outside: nat)
    requires AnyDue(a) && Sound(a) && Vocal(a) && Balanced(a, outside)
    ensures Balanced(Fire(a), outside)
  {
    var i := FirstDue(a.queue, a.now);
    var e := a.queue[i];
    var t := Taken(a, i);
    assert Fits(a, e) && Speaks(a, e);
    AddAllComes(t, CallAdds(e.fun));
    assert t.trace[|a.trace|] == RecordOf(a, e);
    assert AskedIn(t, |a.trace|) == Effects(CallAdds(e.fun));
    var b := AddAll(t, CallAdds(e.fun));
    FiredBalanced(a, t, b, RecordOf(a, e), outside);
    SameBalance(b, Fire(a), outside);
  }

  /** The balance is about trace and births alone. */
  lemma SameBalance(a: Agenda, b: Agenda, outside: nat)
    requires Balanced(a, outside) && b.trace == a.trace && b.births == a.births
    ensures Balanced(b, outside)
  {
    forall i | 0 <= i < |b.trace| && b.trace[i].Fired?
      ensures Honoured(b, AskedIn(b, i), b.trace[i].tick, i + 1)
    {
      HonouredStill(a, b, AskedIn(a, i), a.trace[i].tick, i + 1);
    }
    AskedBeforeStill(a, b, |a.trace|);
  }

  lemma DrainBalanced(a: Agenda, outside: nat)
    requires Tame(a) && Sound(a) && Complete(a) && Kept(a) && Balanced(a, outside)
    ensures Balanced(Drain(a), outside)
    decreases Cost(a)
  {
    if AnyDue(a) {
      FireCosts(a);
      FireTame(a);
      FireSound(a);
      FireKept(a);
      FireBalanced(a, outside);
      DrainBalanced(Fire(a), outside);
    }
  }

  /** The requests an operation makes from outside. */
  function AskedByOp(op: Op): nat {
    if op.DoAdd? then |EffectsOf(op.x)| else 0
  }

  function AskedByOps(ops: seq<Op>): nat {
    if ops == [] then 0 else AskedByOp(ops[0]) + AskedByOps(ops[1..])
  }

  lemma DoBalanced(a: Agenda, op: Op, outside: nat)
    requires CanDo(a, op) && Settled(a) && Kept(a) && Balanced(a, outside)
    ensures Balanced(Do(a, op), outside + AskedByOp(op))
  {
    match op
    case DoAdd(x) =>
      AddComes(a, x);
      ComesBalanced(a, Add(a, x), EffectsOf(x), outside);
    case DoCancel(k) =>
      SameBalance(a, Do(a, op), outside);
    case DoTick =>
      DrainBalanced(a, outside);
      SameBalance(Drain(a), Tick(a), outside);
  }

  lemma {:induction false} RunBalanced(a: Agenda, ops: seq<Op>, outside: nat)
    requires CanRun(a, ops) && Settled(a) && Kept(a) && Balanced(a, outside)
    ensures Balanced(Run(a, ops), outside + AskedByOps(ops))
    decreases |ops|
  {
    if ops != [] {
      DoSettled(a, ops[0]);
      DoKept(a, ops[0]);
      DoBalanced(a, ops[0], outside);
      RunBalanced(Do(a, ops[0]), ops[1..], outside + AskedByOp(ops[0]));
    }
  }

  // ---------------------------------------------------------- main results

  /** Over every run: right behind the record of each call stands, in order, all
      its callback asked to be called at once, and all tasks it asked for are put
      in, with that tick; and beside what callbacks ask for, there are as many
      tasks and immediate calls as the additions from outside come to. */
  lemma RunAnswered(ops: seq<Op>)
    requires CanRun(EMPTY, ops)
    ensures var a := Run(EMPTY, ops);
            && Answered(a)
            && |a.births| + Immediates(a.trace) == AskedByOps(ops) + AskedBefore(a, |a.trace|)
  {
    StartKept();
    RunBalanced(EMPTY, ops, 0);
  }

  lemma DrainGrows(a: Agenda)
    requires Tame(a)
    ensures a.trace <= Drain(a).trace && a.births <= Drain(a).births
    decreases Cost(a)
  {
    if AnyDue(a) {
      FireCosts(a);
      FireTame(a);
      var i := FirstDue(a.queue, a.now);
      AddAllExtends(Taken(a, i), CallAdds(a.queue[i].fun));
      DrainGrows(Fire(a));
    }
  }

  lemma {:induction false} RunGrows(a: Agenda, ops: seq<Op>)
    requires CanRun(a, ops)
    ensures a.trace <= Run(a, ops).trace && a.births <= Run(a, ops).births
    decreases |ops|
  {
    if ops != [] {
      match ops[0] {
        case DoAdd(x) => AddExtends(a, x);
        case DoCancel(k) =>
        case DoTick => DrainGrows(a);
      }
      RunGrows(Do(a, ops[0]), ops[1..]);
    }
  }

  /** An addition from outside does all that is asked, whatever follows. */
  lemma RequestHonoured(before: seq<Op>, x: Request, after: seq<Op>)
    requires CanRun(EMPTY, before) && CanRun(Add(Run(EMPTY, before), x), after)
    ensures var a := Run(EMPTY, before);
            Honoured(Run(Add(a, x), after), EffectsOf(x), a.now, |a.trace|)
  {
    var a := Run(EMPTY, before);
    AddComes(a, x);
    ComesHonoured(a, Add(a, x), EffectsOf(x));
    RunGrows(Add(a, x), after);
    HonouredStill(Add(a, x), Run(Add(a, x), after), EffectsOf(x), a.now, |a.trace|);
  }

  /** Task t is this one, and its first run is made, with a call unless it was
      deleted, if and only if its tick is over. */
  ghost predicate Punctual(ops: seq<Op>, t: nat, b: Birth)
    requires CanRun(EMPTY, ops)
  {
    var a := Run(EMPTY, ops);
    && t < |a.births| && a.births[t] == b
    && ((exists j :: Made(a, ops, j, t, 0)) <==> b.at + b.timeout < a.now)
  }

  lemma FirstRun(ops: seq<Op>, t: nat)
    requires CanRun(EMPTY, ops) && t < |Run(EMPTY, ops).births|
    ensures Punctual(ops, t, Run(EMPTY, ops).births[t])
  {
    RunTimeline(ops, t, 0);
    var b := Run(EMPTY, ops).births[t];
    assert InRuns(b, 0) && DueOf(b, 0) == b.at + b.timeout;
  }

  /** The call of record i asks for task b. */
  predicate Asks(a: Agenda, i: nat, b: Birth) {
    i < |a.trace| && a.trace[i].Fired? && b in BirthsOf(AskedIn(a, i), a.trace[i].tick, i + 1)
  }

  lemma AskedIsBorn(a: Agenda, i: nat, b: Birth) returns (t: nat)
    requires Answered(a) && Asks(a, i, b)
    ensures t < |a.births| && a.births[t] == b && b.at == a.trace[i].tick
  {
    var fx, now := AskedIn(a, i), a.trace[i].tick;
    var bs := BirthsOf(fx, now, i + 1);
    var p: nat :| HonouredAt(a, fx, now, i + 1, p);
    var k: nat :| k < |bs| && bs[k] == b;
    assert a.births[p..p + |bs|][k] == b;
    BirthsNow(fx, now, i + 1, k);
    t := p + k;
  }

  /** A timer that the call of record i asks for keeps to the tick of that record
      plus its timeout. */
  lemma TimerOfCallback(ops: seq<Op>, i: nat, b: Birth)
    requires CanRun(EMPTY, ops) && Asks(Run(EMPTY, ops), i, b)
    ensures b.at == Run(EMPTY, ops).trace[i].tick && exists t: nat :: Punctual(ops, t, b)
  {
    RunAnswered(ops);
    var t := AskedIsBorn(Run(EMPTY, ops), i, b);
    FirstRun(ops, t);
  }

  lemma {:induction false} BirthsNow(fx: seq<Effect>, now: nat, place: nat, k: nat)
    requires k < |BirthsOf(fx, now, place)|
    ensures BirthsOf(fx, now, place)[k].at == now
  {
    match fx[0]
    case Calls(_) => BirthsNow(fx[1..], now, place + 1, k);
    case Registers(_, _, _) => if k > 0 { BirthsNow(fx[1..], now, place, k - 1); }
  }
}
