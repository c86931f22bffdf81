/** The hashed timing wheel: tasks live in the list of one of `slotLen` slots
    and count the rotations left before they are due. */
module TimingWheel {
  import opened Wrappers
  import opened Agendas
  import opened Timeline

  class Task {
    var rotations: int
    var timeout: int
    var times: int
    var fun: Option<Callback>

    constructor (rotations: int, timeout: int, fun: Callback, times: int)
      ensures this.rotations == rotations && this.timeout == timeout
      ensures this.fun == Some(fun) && this.times == times
    {
      this.rotations, this.timeout, this.fun, this.times := rotations, timeout, Some(fun), times;
    }
  }

  // ---------------------------------------------------- distinct task objects

  ghost predicate NoDup(ts: seq<Task>) {
    ts == [] || (ts[0] !in ts[1..] && NoDup(ts[1..]))
  }

  lemma NoDupOther(ts: seq<Task>, i: nat, j: nat)
    requires NoDup(ts) && i < j < |ts|
    ensures ts[j] != ts[i]
  {
    if i > 0 {
      NoDupOther(ts[1..], i - 1, j - 1);
    } else {
      assert ts[j] == ts[1..][j - 1];
    }
  }

  lemma NoDupOthers(ts: seq<Task>, i: nat)
    requires NoDup(ts) && i < |ts|
    ensures forall j :: 0 <= j < |ts| && j != i ==> ts[j] != ts[i]
  {
    forall j | 0 <= j < |ts| && j != i ensures ts[j] != ts[i] {
      if i < j { NoDupOther(ts, i, j); } else { NoDupOther(ts, j, i); }
    }
  }

  lemma {:induction false} NoDupWithout(ts: seq<Task>, i: nat)
    requires NoDup(ts) && i < |ts|
    ensures NoDup(Without(ts, i))
  {
    if i == 0 {
      assert Without(ts, 0) == ts[1..];
    } else {
      var rest := Without(ts[1..], i - 1);
      NoDupWithout(ts[1..], i - 1);
      assert Without(ts, i) == [ts[0]] + rest;
      forall k | 0 <= k < |rest| ensures rest[k] in ts[1..] {
      }
      assert ([ts[0]] + rest)[1..] == rest;
    }
  }

  lemma NoDupApart(ts: seq<Task>, i: nat)
    requires NoDup(ts) && i < |ts|
    ensures ts[i] !in Without(ts, i) && NoDup(Without(ts, i))
  {
    NoDupWithout(ts, i);
    NoDupOthers(ts, i);
  }

  lemma NoDupPush(ts: seq<Task>, t: Task)
    requires NoDup(ts) && t !in ts
    ensures NoDup(ts + [t])
  {
    if ts != [] {
      assert (ts + [t])[1..] == ts[1..] + [t];
      NoDupPush(ts[1..], t);
    }
  }

  // ----------------------------------------------------- calls of an agenda

  function CallOf(r: Record): seq<int> {
    match r
    case Fired(_, _, _, _, _, call) => if call.Some? then [call.value] else []
    case Immediate(_, id) => [id]
  }

  /** The callbacks that have run, in order. */
  function CallsIn(trace: seq<Record>): seq<int> {
    if trace == [] then [] else CallsIn(trace[..|trace| - 1]) + CallOf(trace[|trace| - 1])
  }

  lemma CallsPush(trace: seq<Record>, r: Record)
    ensures CallsIn(trace + [r]) == CallsIn(trace) + CallOf(r)
  {
    assert (trace + [r])[..|trace|] == trace;
  }

  // ----------------------------------------------------- slots of an agenda

  /** The tasks of the entries whose due tick falls into slot s of L, in order. */
  ghost function InSlot(q: seq<Entry>, ts: seq<Task>, s: int, L: nat): seq<Task>
    requires |q| == |ts| && L > 0
  {
    if q == [] then []
    else (if q[0].due % L == s then [ts[0]] else []) + InSlot(q[1..], ts[1..], s, L)
  }

  lemma {:induction false} InSlotAppend(p: seq<Entry>, us: seq<Task>, q: seq<Entry>, vs: seq<Task>, s: int, L: nat)
    requires |p| == |us| && |q| == |vs| && L > 0
    ensures InSlot(p + q, us + vs, s, L) == InSlot(p, us, s, L) + InSlot(q, vs, s, L)
  {
    if p == [] {
      assert p + q == q && us + vs == vs;
    } else {
      InSlotAppend(p[1..], us[1..], q, vs, s, L);
      assert (p + q)[1..] == p[1..] + q && (us + vs)[1..] == us[1..] + vs;
    }
  }

  lemma InSlotSplit(q: seq<Entry>, ts: seq<Task>, i: nat, s: int, L: nat)
    requires |q| == |ts| && i <= |q| && L > 0
    ensures InSlot(q, ts, s, L) == InSlot(q[..i], ts[..i], s, L) + InSlot(q[i..], ts[i..], s, L)
  {
    assert q == q[..i] + q[i..] && ts == ts[..i] + ts[i..];
    InSlotAppend(q[..i], ts[..i], q[i..], ts[i..], s, L);
  }

  lemma InSlotPush(q: seq<Entry>, ts: seq<Task>, e: Entry, t: Task, s: int, L: nat)
    requires |q| == |ts| && L > 0
    ensures InSlot(q + [e], ts + [t], s, L) == InSlot(q, ts, s, L) + if e.due % L == s then [t] else []
  {
    InSlotAppend(q, ts, [e], [t], s, L);
  }

  lemma InSlotWithout(q: seq<Entry>, ts: seq<Task>, i: nat, s: int, L: nat)
    requires |q| == |ts| && i < |q| && L > 0
    ensures var k := |InSlot(q[..i], ts[..i], s, L)|;
            var was := InSlot(q, ts, s, L);
            if q[i].due % L == s
            then k < |was| && was[k] == ts[i] && InSlot(Without(q, i), Without(ts, i), s, L) == Without(was, k)
            else InSlot(Without(q, i), Without(ts, i), s, L) == was
  {
    InSlotSplit(q, ts, i, s, L);
    assert q[i..][1..] == q[i + 1..] && ts[i..][1..] == ts[i + 1..];
    InSlotAppend(q[..i], ts[..i], q[i + 1..], ts[i + 1..], s, L);
  }

  /** Where the kth task of a slot list stands in the queue, if the first `cut`
      entries account for the k tasks before it. */
  lemma Locate(q: seq<Entry>, ts: seq<Task>, cut: nat, s: int, L: nat) returns (i: nat)
    requires |q| == |ts| && cut <= |q| && L > 0
    requires |InSlot(q[..cut], ts[..cut], s, L)| < |InSlot(q, ts, s, L)|
    ensures cut <= i < |q| && q[i].due % L == s
    ensures forall j :: cut <= j < i ==> q[j].due % L != s
    ensures InSlot(q[..i], ts[..i], s, L) == InSlot(q[..cut], ts[..cut], s, L)
    decreases |q| - cut
  {
    assert q[..|q|] == q && ts[..|q|] == ts;
    if q[cut].due % L == s {
      i := cut;
    } else {
      assert q[..cut + 1] == q[..cut] + [q[cut]] && ts[..cut + 1] == ts[..cut] + [ts[cut]];
      InSlotPush(q[..cut], ts[..cut], q[cut], ts[cut], s, L);
      i := Locate(q, ts, cut + 1, s, L);
    }
  }

  /** Once a slot list is used up, no entry from `cut` on falls into the slot. */
  lemma NoneLeft(q: seq<Entry>, ts: seq<Task>, cut: nat, j: nat, s: int, L: nat)
    requires |q| == |ts| && cut <= j < |q| && L > 0
    requires |InSlot(q[..cut], ts[..cut], s, L)| == |InSlot(q, ts, s, L)|
    ensures q[j].due % L != s
  {
    InSlotSplit(q, ts, cut, s, L);
    InSlotSplit(q[cut..], ts[cut..], j - cut, s, L);
    assert q[cut..][j - cut..][0] == q[j];
  }

  /** The lists hold exactly the tasks of the queue, each slot in queue order. */
  ghost predicate Slotted(lists: seq<seq<Task>>, q: seq<Entry>, ts: seq<Task>) {
    |lists| > 0 && |q| == |ts| && forall s :: 0 <= s < |lists| ==> lists[s] == InSlot(q, ts, s, |lists|)
  }

  lemma SlottedPush(lists: seq<seq<Task>>, q: seq<Entry>, ts: seq<Task>, e: Entry, t: Task, slot: nat)
    requires Slotted(lists, q, ts) && slot == e.due % |lists|
    ensures Slotted(lists[slot := lists[slot] + [t]], q + [e], ts + [t])
  {
    forall s | 0 <= s < |lists|
      ensures lists[slot := lists[slot] + [t]][s] == InSlot(q + [e], ts + [t], s, |lists|)
    {
      InSlotPush(q, ts, e, t, s, |lists|);
    }
  }

  lemma SlottedWithout(lists: seq<seq<Task>>, q: seq<Entry>, ts: seq<Task>, i: nat, slot: nat, it: nat)
    requires Slotted(lists, q, ts) && i < |q| && slot == q[i].due % |lists|
    requires it == |InSlot(q[..i], ts[..i], slot, |lists|)|
    ensures it < |lists[slot]| && lists[slot][it] == ts[i]
    ensures Slotted(lists[slot := Without(lists[slot], it)], Without(q, i), Without(ts, i))
  {
    InSlotWithout(q, ts, i, slot, |lists|);
    forall s | 0 <= s < |lists|
      ensures lists[slot := Without(lists[slot], it)][s] == InSlot(Without(q, i), Without(ts, i), s, |lists|)
    {
      InSlotWithout(q, ts, i, s, |lists|);
    }
  }

  lemma SlottedCancel(lists: seq<seq<Task>>, q: seq<Entry>, ts: seq<Task>, k: nat)
    requires Slotted(lists, q, ts) && k < |q|
    ensures Slotted(lists, q[k := q[k].(fun := None)], ts)
  {
    forall s | 0 <= s < |lists| ensures lists[s] == InSlot(q[k := q[k].(fun := None)], ts, s, |lists|) {
      InSlotSameDue(q, q[k := q[k].(fun := None)], ts, s, |lists|);
    }
  }

  lemma InSlotSameDue(p: seq<Entry>, q: seq<Entry>, ts: seq<Task>, s: int, L: nat)
    requires |p| == |q| == |ts| && L > 0 && forall i :: 0 <= i < |p| ==> p[i].due == q[i].due
    ensures InSlot(p, ts, s, L) == InSlot(q, ts, s, L)
  {
  }

  // ------------------------------------------------------------- arithmetic

  /** A number is determined by its quotient and its remainder. */
  lemma DivUnique(x: int, q: int, r: int, L: int)
    requires L > 0 && x == q * L + r && 0 <= r < L
    ensures x / L == q && x % L == r
  {
    var d := x / L - q;
    assert d * L == r - x % L;
    assert d >= 1 ==> d * L >= L;
    assert d <= -1 ==> d * L <= -L;
  }

  lemma SlotOfSum(now: nat, t: nat, L: nat)
    requires L > 0
    ensures (now % L + t % L) % L == (now + t) % L
  {
    var x := now % L + t % L;
    var q := now / L + t / L + x / L;
    assert q * L == now / L * L + t / L * L + x / L * L;
    DivUnique(now + t, q, x % L, L);
  }

  lemma NextSlot(now: nat, L: nat)
    requires L > 0
    ensures (now % L + 1) % L == (now + 1) % L
  {
    DivUnique(now % L, 0, now % L, L);
    SlotOfSum(now % L, 1, L);
    SlotOfSum(now, 1, L);
  }

  /** Rotations left at time `clock` of an entry due at `due`: the full turns
      the wheel still makes. */
  function Rounds(due: nat, clock: nat, L: nat): nat
    requires L > 0 && due >= clock
  {
    if due - clock < L then 0 else 1 + Rounds(due - L, clock, L)
  }

  lemma RoundsIsQuotient(due: nat, clock: nat, L: nat)
    requires L > 0 && due >= clock
    ensures Rounds(due, clock, L) == (due - clock) / L
  {
    if due - clock < L {
      DivUnique(due - clock, 0, due - clock, L);
    } else {
      RoundsIsQuotient(due - L, clock, L);
      var d := due - L - clock;
      DivUnique(d + L, d / L + 1, d % L, L);
    }
  }

  lemma RoundsOther(due: nat, now: nat, L: nat)
    requires L > 0 && due >= now && due % L != now % L
    ensures due >= now + 1 && Rounds(due, now + 1, L) == Rounds(due, now, L)
  {
    var d := due - now;
    RoundsIsQuotient(due, now, L);
    SlotOfSum(now, d, L);
    SlotOfSum(now, 0, L);
    assert d % L != 0;
    assert d == d / L * L + d % L;
    DivUnique(d - 1, d / L, d % L - 1, L);
    RoundsIsQuotient(due, now + 1, L);
  }

  lemma RoundsSame(due: nat, now: nat, L: nat)
    requires L > 0 && due >= now && due % L == now % L
    ensures Rounds(due, now, L) == 0 <==> due == now
    ensures due > now ==> Rounds(due, now + 1, L) == Rounds(due, now, L) - 1
  {
    var d := due - now;
    RoundsIsQuotient(due, now, L);
    SlotOfSum(now, d, L);
    var m := now % L + d % L;
    assert m % L == now % L;
    if d % L != 0 {
      if m < L { DivUnique(m, 0, m, L); } else { DivUnique(m, 1, m - L, L); }
      assert false;
    }
    assert d == d / L * L;
    if d > 0 {
      DivUnique(d - 1, d / L - 1, L - 1, L);
      RoundsIsQuotient(due, now + 1, L);
    }
  }

  // ------------------------------------------------------------- the wheel

  /** The callback of a firing task sees the task's entry still in the queue;
      taking the entry out before or after makes no difference. */
  lemma AddWithout(a: Agenda, x: Request, i: nat)
    requires i < |a.queue|
    ensures a.queue <= Add(a, x).queue
    ensures Add(a.(queue := Without(a.queue, i)), x) == Add(a, x).(queue := Without(Add(a, x).queue, i))
    decreases x, 1
  {
    if x.timeout < 0 {
      AddAllWithout(a.(trace := a.trace + [Immediate(a.now, x.fun.id)]), x.fun.adds, i);
    } else {
      var e := Add(a, x).queue[|a.queue|];
      assert Without(a.queue + [e], i) == Without(a.queue, i) + [e];
    }
  }

  lemma AddAllWithout(a: Agenda, adds: seq<Request>, i: nat)
    requires i < |a.queue|
    ensures a.queue <= AddAll(a, adds).queue
    ensures AddAll(a.(queue := Without(a.queue, i)), adds) ==
            AddAll(a, adds).(queue := Without(AddAll(a, adds).queue, i))
    decreases adds, 0
  {
    if adds != [] {
      AddWithout(a, adds[0], i);
      AddAllWithout(Add(a, adds[0]), adds[1..], i);
    }
  }

  lemma WithoutPush<T>(s: seq<T>, x: T, i: nat)
    requires i < |s|
    ensures Without(s + [x], i) == Without(s, i) + [x]
  {
  }

  lemma SamePrefix<S, T>(p: seq<S>, q: seq<S>, us: seq<T>, vs: seq<T>, k: nat)
    requires p <= q && us <= vs && k <= |p| == |us|
    ensures p[..k] == q[..k] && us[..k] == vs[..k]
  {
  }

  /** The wheel erases a fired entry only after its callback and its re-arming. */
  lemma FireLate(a: Agenda, i: nat)
    requires AnyDue(a) && i == FirstDue(a.queue, a.now)
    ensures var e := a.queue[i];
            var b := AddAll(Recorded(a, e), CallAdds(e.fun));
            var c := if Rearms(e.times) then Rearm(b, e) else b;
            i < |c.queue| && Fire(a) == c.(queue := Without(c.queue, i))
  {
    var e := a.queue[i];
    var b := AddAll(Recorded(a, e), CallAdds(e.fun));
    AddAllWithout(Recorded(a, e), CallAdds(e.fun), i);
    if Rearms(e.times) {
      WithoutPush(b.queue, Rearm(b, e).queue[|b.queue|], i);
    }
  }

  class TimeWheel {
    const slotLen: nat
    var currentSlot: nat
    var starttime: int
    const slots: array<seq<Task>>
    // What the callbacks run so far have left behind, in the order they ran.
    var calls: seq<int>

    // The agenda the wheel stands for, and the task object of each entry.
    ghost var agenda: Agenda
    ghost var order: seq<Task>
    // In the middle of a tick, the entries before `cut` have been passed by the
    // iterator or lie in other slots: for them the clock already shows now + 1.
    ghost var cut: nat

    ghost predicate Valid()
      reads `agenda, `order, `cut, `calls, `currentSlot, slots, order
    {
      && slotLen > 0 && slots.Length == slotLen
      && cut <= |order| == |agenda.queue|
      && currentSlot == agenda.now % slotLen
      && calls == CallsIn(agenda.trace)
      && NoDup(order)
      && (forall i :: 0 <= i < |order| ==> Carries(order[i], agenda.queue[i], Clock(i)))
      && Slotted(slots[..], agenda.queue, order)
    }

    /** Valid, but for entry i, whose task is about to leave this place and may
        have been put in again already. */
    ghost predicate ValidBut(i: nat)
      reads `agenda, `order, `cut, `calls, `currentSlot, slots, order
    {
      && slotLen > 0 && slots.Length == slotLen
      && cut <= i < |order| == |agenda.queue|
      && currentSlot == agenda.now % slotLen == agenda.queue[i].due % slotLen
      && calls == CallsIn(agenda.trace)
      && NoDup(Without(order, i))
      && (forall j :: 0 <= j < |order| && j != i ==> Carries(order[j], agenda.queue[j], Clock(j)))
      && Slotted(slots[..], agenda.queue, order)
    }

    ghost function Tasks(): set<Task>
      reads this
    {
      set t | t in order
    }

    ghost function Clock(i: int): nat
      reads `agenda, `cut
    {
      agenda.now + if i < cut then 1 else 0
    }

    ghost predicate Carries(t: Task, e: Entry, clock: nat)
      requires slotLen > 0
      reads t
    {
      && t.timeout == e.timeout && t.times == e.times && t.fun == e.fun
      && e.due >= clock
      && t.rotations == Rounds(e.due, clock, slotLen)
    }

    constructor (msLen: nat, now: int)
      requires msLen > 0
      ensures Valid() && cut == 0 && agenda == EMPTY
      ensures slotLen == msLen && starttime == now && fresh(slots)
    {
      slotLen := msLen;
      currentSlot := 0;
      starttime := now;
      slots := new seq<Task>[msLen](_ => []);
      calls := [];
      agenda, order, cut := EMPTY, [], 0;
    }

    /** Append a task to the list of the slot its timeout leads to, counted from
        the current one. */
    method PushBack(task: Task, ghost e: Entry)
      requires slotLen > 0 && slots.Length == slotLen && currentSlot == agenda.now % slotLen
      requires Slotted(slots[..], agenda.queue, order)
      requires task.timeout >= 0 && e.due == agenda.now + task.timeout
      modifies slots
      ensures Slotted(slots[..], agenda.queue + [e], order + [task])
    {
      var slot := (currentSlot + task.timeout % slotLen) % slotLen;
      SlotOfSum(agenda.now, task.timeout, slotLen);
      SlottedPush(slots[..], agenda.queue, order, e, task, slot);
      slots[slot] := slots[slot] + [task];
      assert slots[..] == old(slots[..])[slot := old(slots[slot]) + [task]];
    }

    /** The handle returned is None if the callback was run on the spot. */
    method AddTask(x: Request) returns (handle: Option<Task>)
      requires Valid()
      modifies this`agenda, this`order, this`calls, slots
      ensures Valid()
      ensures agenda == Add(old(agenda), x)
      ensures old(order) <= order && forall t :: t in order && t !in old(order) ==> fresh(t)
      ensures x.timeout < 0 ==> handle == None
      ensures x.timeout >= 0 ==> handle.Some? && order == old(order) + [handle.value]
      decreases x, 1
    {
      if x.timeout < 0 {
        Call(x.fun, Immediate(agenda.now, x.fun.id));
        handle := None;
      } else {
        var task := new Task(x.timeout / slotLen, x.timeout, x.fun, x.times);
        Enter(task, x);
        handle := Some(task);
      }
    }

    method Enter(task: Task, ghost x: Request)
      requires Valid() && task !in order && x.timeout >= 0
      requires task.timeout == x.timeout && task.times == x.times && task.fun == Some(x.fun)
      requires task.rotations == x.timeout / slotLen
      modifies this`agenda, this`order, slots
      ensures Valid()
      ensures agenda == Add(old(agenda), x) && order == old(order) + [task]
    {
      RoundsIsQuotient(agenda.now + x.timeout, agenda.now, slotLen);
      NoDupPush(order, task);
      PushBack(task, Add(agenda, x).queue[|agenda.queue|]);
      agenda := Add(agenda, x);
      order := order + [task];
    }

    /** A callback leaves its id behind and then adds its tasks; `r` is the
        record the agenda keeps of the call. */
    method Call(fun: Callback, ghost r: Record)
      requires Valid() && CallOf(r) == [fun.id]
      modifies this`agenda, this`order, this`calls, slots
      ensures Valid()
      ensures agenda == AddAll(old(agenda).(trace := old(agenda).trace + [r]), fun.adds)
      ensures old(order) <= order && forall t :: t in order && t !in old(order) ==> fresh(t)
      decreases fun
    {
      calls := calls + [fun.id];
      CallsPush(agenda.trace, r);
      agenda := agenda.(trace := agenda.trace + [r]);
      AddTasks(fun.adds);
    }

    method AddTasks(adds: seq<Request>)
      requires Valid()
      modifies this`agenda, this`order, this`calls, slots
      ensures Valid()
      ensures agenda == AddAll(old(agenda), adds)
      ensures old(order) <= order && forall t :: t in order && t !in old(order) ==> fresh(t)
      decreases adds, 0
    {
      if adds != [] {
        var _ := AddTask(adds[0]);
        AddTasks(adds[1..]);
      }
    }

    /** How many of the first k entries lie in the current slot. */
    ghost function Passed(k: nat): nat
      requires slotLen > 0 && k <= |order| == |agenda.queue|
      reads `agenda, `order, `currentSlot
    {
      |InSlot(agenda.queue[..k], order[..k], currentSlot, slotLen)|
    }

    /** Where the iterator stands in the list of the current slot. */
    ghost predicate At(it: nat)
      requires Valid()
      reads `agenda, `order, `cut, `calls, `currentSlot, slots, order
    {
      it == Passed(cut)
    }

    lemma AtFirstDue(it: nat) returns (i: nat)
      requires Valid() && At(it) && it < |slots[currentSlot]|
      ensures cut <= i < |order| && slots[currentSlot][it] == order[i]
      ensures agenda.queue[i].due % slotLen == currentSlot
      ensures it == Passed(i)
      ensures forall j :: cut <= j < i ==> agenda.queue[j].due % slotLen != currentSlot
      ensures order[i].rotations <= 0 ==> AnyDue(agenda) && i == FirstDue(agenda.queue, agenda.now)
    {
      i := Locate(agenda.queue, order, cut, currentSlot, slotLen);
      InSlotWithout(agenda.queue, order, i, currentSlot, slotLen);
      assert Carries(order[i], agenda.queue[i], Clock(i));
      RoundsSame(agenda.queue[i].due, agenda.now, slotLen);
      forall j | 0 <= j < i ensures agenda.queue[j].due != agenda.now {
        assert Carries(order[j], agenda.queue[j], Clock(j));
      }
    }

    /** Passing entry i moves the clock on for all entries up to it: those in
        other slots do not notice, and entry i has one rotation less to go. */
    lemma ClockMovesOn(it: nat, i: nat)
      requires Valid() && cut <= i < |order| && it == Passed(i) && order[i].rotations > 0
      requires agenda.queue[i].due % slotLen == currentSlot
      requires forall j :: cut <= j < i ==> agenda.queue[j].due % slotLen != currentSlot
      ensures forall j :: 0 <= j < |order| && j != i ==>
                Carries(order[j], agenda.queue[j], agenda.now + if j < i then 1 else 0) && order[j] != order[i]
      ensures agenda.queue[i].due > agenda.now
      ensures order[i].rotations - 1 == Rounds(agenda.queue[i].due, agenda.now + 1, slotLen)
      ensures it + 1 == Passed(i + 1)
    {
      assert Carries(order[i], agenda.queue[i], Clock(i));
      RoundsSame(agenda.queue[i].due, agenda.now, slotLen);
      NoDupOthers(order, i);
      forall j | 0 <= j < |order| && j != i
        ensures Carries(order[j], agenda.queue[j], agenda.now + if j < i then 1 else 0)
      {
        assert Carries(order[j], agenda.queue[j], Clock(j));
        if cut <= j < i {
          RoundsOther(agenda.queue[j].due, agenda.now, slotLen);
        }
      }
      assert agenda.queue[..i + 1] == agenda.queue[..i] + [agenda.queue[i]];
      assert order[..i + 1] == order[..i] + [order[i]];
      InSlotPush(agenda.queue[..i], order[..i], agenda.queue[i], order[i], currentSlot, slotLen);
    }

    /** The branch of the tick's loop that leaves a task for a later round. */
    method Skip(it: nat)
      requires Valid() && At(it) && it < |slots[currentSlot]|
      requires slots[currentSlot][it].rotations > 0
      modifies this`cut, slots[currentSlot][it]
      ensures Valid() && At(it + 1)
    {
      ghost var i := AtFirstDue(it);
      ClockMovesOn(it, i);
      assert Carries(order[i], agenda.queue[i], Clock(i));
      var task := slots[currentSlot][it];
      task.rotations := task.rotations - 1;
      cut := i + 1;
    }

    lemma WithoutCarries(i: nat)
      requires ValidBut(i)
      ensures var q, us := Without(agenda.queue, i), Without(order, i);
              forall j :: 0 <= j < |us| ==> Carries(us[j], q[j], Clock(j))
    {
      var q, us := Without(agenda.queue, i), Without(order, i);
      forall j | 0 <= j < |us| ensures Carries(us[j], q[j], Clock(j)) {
        var k := if j < i then j else j + 1;
        assert Carries(order[k], agenda.queue[k], Clock(k));
      }
    }

    method Erase(it: nat, ghost i: nat)
      requires ValidBut(i)
      requires it == Passed(i) == Passed(cut)
      modifies this`agenda, this`order, slots
      ensures Valid() && At(it)
      ensures agenda == old(agenda).(queue := Without(old(agenda).queue, i))
      ensures order == Without(old(order), i) && forall t :: t in order ==> t in old(order)
    {
      WithoutCarries(i);
      SlottedWithout(slots[..], agenda.queue, order, i, currentSlot, it);
      assert Without(agenda.queue, i)[..cut] == agenda.queue[..cut] && Without(order, i)[..cut] == order[..cut];
      slots[currentSlot] := slots[currentSlot][..it] + slots[currentSlot][it + 1..];
      assert slots[..] == old(slots[..])[currentSlot := Without(old(slots[currentSlot]), it)];
      agenda := agenda.(queue := Without(agenda.queue, i));
      order := Without(order, i);
    }

    /** Count one run less, and the rotations of a whole timeout again. */
    method Rewind(task: Task, ghost i: nat)
      requires Valid() && cut <= i < |order| && order[i] == task
      requires agenda.queue[i].due == agenda.now && Rearms(task.times)
      modifies task
      ensures ValidBut(i) && task !in Without(order, i)
      ensures Carries(task, Rearm(agenda, agenda.queue[i]).queue[|agenda.queue|], agenda.now)
    {
      ghost var e := agenda.queue[i];
      assert Carries(task, e, Clock(i));
      NoDupApart(order, i);
      NoDupOthers(order, i);
      RoundsIsQuotient(agenda.now + task.timeout, agenda.now, slotLen);
      if task.times > 1 {
        task.times := task.times - 1;
      }
      task.rotations := task.timeout / slotLen;
    }

    /** Put a task that repeats in again, behind the place it still holds at i. */
    method PutAgain(task: Task, ghost i: nat)
      requires ValidBut(i) && order[i] == task && task !in Without(order, i)
      requires Carries(task, Rearm(agenda, agenda.queue[i]).queue[|agenda.queue|], agenda.now)
      modifies this`agenda, this`order, slots
      ensures ValidBut(i)
      ensures agenda == Rearm(old(agenda), old(agenda).queue[i])
      ensures order == old(order) + [task]
      ensures Passed(i) == old(Passed(i)) && Passed(cut) == old(Passed(cut))
    {
      ghost var q, ts := agenda.queue, order;
      WithoutPush(ts, task, i);
      NoDupPush(Without(ts, i), task);
      PushBack(task, Rearm(agenda, q[i]).queue[|q|]);
      agenda := Rearm(agenda, q[i]);
      order := order + [task];
      SamePrefix(q, agenda.queue, ts, order, i);
      SamePrefix(q, agenda.queue, ts, order, cut);
    }

    /** Run the callback of the task at i, unless it was deleted. */
    method Exec(task: Task, ghost i: nat)
      requires Valid() && cut <= i < |order| && order[i] == task
      modifies this`agenda, this`order, this`calls, slots
      ensures Valid() && i < |order| && order[i] == task
      ensures agenda == AddAll(Recorded(old(agenda), old(agenda).queue[i]), CallAdds(old(agenda).queue[i].fun))
      ensures agenda.now == old(agenda).now && i < |old(agenda).queue| && agenda.queue[i] == old(agenda).queue[i]
      ensures Passed(i) == old(Passed(i)) && Passed(cut) == old(Passed(cut))
      ensures forall t :: t in order && t !in old(order) ==> fresh(t)
    {
      ghost var q, ts := agenda.queue, order;
      assert Carries(task, q[i], Clock(i));
      AddAllExtends(Recorded(agenda, q[i]), CallAdds(q[i].fun));
      ghost var r := RecordOf(agenda, q[i]);
      if task.fun.Some? {
        Call(task.fun.value, r);
      } else {
        CallsPush(agenda.trace, r);
        agenda := Recorded(agenda, q[i]);
      }
      SamePrefix(q, agenda.queue, ts, order, i);
      SamePrefix(q, agenda.queue, ts, order, cut);
    }

    /** The other branch: run the task, put it in again if it repeats, erase it here. */
    method Fire(it: nat)
      requires Valid() && At(it) && it < |slots[currentSlot]|
      requires slots[currentSlot][it].rotations <= 0
      modifies this`agenda, this`order, this`calls, slots, slots[currentSlot][it]
      ensures Valid() && At(it)
      ensures AnyDue(old(agenda)) && agenda == Agendas.Fire(old(agenda))
      ensures forall t :: t in order && t !in old(order) ==> fresh(t)
    {
      ghost var i := AtFirstDue(it);
      var task := slots[currentSlot][it];
      Exec(task, i);
      assert Carries(task, agenda.queue[i], Clock(i));
      var times := task.times;
      if times > 1 || times == -1 {
        Rewind(task, i);
        PutAgain(task, i);
      } else {
        NoDupApart(order, i);
      }
      FireLate(old(agenda), i);
      Erase(it, i);
    }

    /** When the walk over the current slot is over, no entry is left due. */
    lemma WalkOver(it: nat)
      requires Valid() && At(it) && it >= |slots[currentSlot]|
      ensures !AnyDue(agenda)
      ensures forall j :: 0 <= j < |order| ==> Carries(order[j], agenda.queue[j], agenda.now + 1)
    {
      forall j | 0 <= j < |order| ensures Carries(order[j], agenda.queue[j], agenda.now + 1) {
        PassedOrElsewhere(it, j);
      }
    }

    lemma PassedOrElsewhere(it: nat, j: nat)
      requires Valid() && At(it) && it >= |slots[currentSlot]| && j < |order|
      ensures Carries(order[j], agenda.queue[j], agenda.now + 1)
    {
      assert Carries(order[j], agenda.queue[j], Clock(j));
      if j >= cut {
        InSlotSplit(agenda.queue, order, cut, currentSlot, slotLen);
        NoneLeft(agenda.queue, order, cut, j, currentSlot, slotLen);
        RoundsOther(agenda.queue[j].due, agenda.now, slotLen);
      }
    }

    /** Walk the list of the current slot, which running tasks may extend, and
        move on to the next slot. */
    method Tick()
      requires Valid() && cut == 0 && Tame(agenda)
      modifies this`agenda, this`order, this`calls, this`cut, this`currentSlot, slots, Tasks()
      ensures Valid() && cut == 0
      ensures agenda == Agendas.Tick(old(agenda))
      ensures forall t :: t in order && t !in old(order) ==> fresh(t)
    {
      var it := 0;
      while it < |slots[currentSlot]|
        invariant Valid() && At(it) && currentSlot == old(currentSlot)
        invariant Tame(agenda) && Drain(agenda) == Drain(old(agenda))
        invariant forall t :: t in order && t !in old(order) ==> fresh(t)
        decreases Cost(agenda), |slots[currentSlot]| - it
      {
        assert slots[currentSlot][it] in order by {
          ghost var i := AtFirstDue(it);
        }
        if slots[currentSlot][it].rotations > 0 {
          Skip(it);
          it := it + 1;
        } else {
          ghost var a := agenda;
          Fire(it);
          FireCosts(a);
          FireTame(a);
        }
      }
      MoveOn(it);
    }

    method MoveOn(ghost it: nat)
      requires Valid() && At(it) && it >= |slots[currentSlot]|
      modifies this`agenda, this`cut, this`currentSlot
      ensures Valid() && cut == 0 && !AnyDue(old(agenda))
      ensures agenda == old(agenda).(now := old(agenda).now + 1)
    {
      WalkOver(it);
      NextSlot(agenda.now, slotLen);
      currentSlot := (currentSlot + 1) % slotLen;
      agenda := agenda.(now := agenda.now + 1);
      cut := 0;
    }

    /** A handle whose task is gone is null.  This may come in the middle of a tick. */
    method DelTask(task: Task?)
      requires Valid()
      requires task != null ==> task in order
      modifies this`agenda, Tasks()
      ensures Valid() && cut == old(cut) && order == old(order)
      ensures task == null ==> agenda == old(agenda)
      ensures task != null ==> exists k :: 0 <= k < |order| && order[k] == task && agenda == Cancel(old(agenda), k)
    {
      if task != null {
        ghost var k :| 0 <= k < |order| && order[k] == task;
        NoDupOthers(order, k);
        task.fun := None;
        agenda := Cancel(agenda, k);
        forall j | 0 <= j < |order| ensures Carries(order[j], agenda.queue[j], Clock(j)) {
          assert old(Carries(order[j], agenda.queue[j], Clock(j)));
        }
        SlottedCancel(slots[..], old(agenda).queue, order, k);
      }
    }

    /** The loop over the units of time passed. */
    method TickTimes(cnt: int)
      requires Valid() && cut == 0
      requires CanTick(agenda, Elapsed(0, cnt))
      modifies this`agenda, this`order, this`calls, this`cut, this`currentSlot, slots, Tasks()
      ensures Valid() && cut == 0
      ensures agenda == Ticks(old(agenda), Elapsed(0, cnt))
    {
      ghost var goal := Ticks(agenda, Elapsed(0, cnt));
      var i := 0;
      while i < cnt
        invariant Valid() && cut == 0 && 0 <= i
        invariant CanTick(agenda, Elapsed(i, cnt)) && Ticks(agenda, Elapsed(i, cnt)) == goal
        invariant forall t :: t in order && t !in old(order) ==> fresh(t)
      {
        Tick();
        i := i + 1;
      }
    }

    /** One tick for every unit of time since the last call. */
    method TakeAllTimeout(now: int)
      requires Valid() && cut == 0
      requires CanTick(agenda, Elapsed(starttime, now))
      modifies this`agenda, this`order, this`calls, this`cut, this`currentSlot, this`starttime, slots, Tasks()
      ensures Valid() && cut == 0
      ensures Clocked(agenda, starttime) == Poll(Clocked(old(agenda), old(starttime)), now)
    {
      TickTimes(now - starttime);
      starttime := now;
    }
  }
}
