/**
  The coroutine scheduler: a FIFO run queue threaded through the coroutine table, and
  the life cycle of each slot.  A coroutine's turn on the processor is any sequence of
  scheduler calls followed by one of the three ways to give the processor back.
  */
module Coroutine {
  import opened Handles

  const MAX: nat := 12
  const NIL: nat := 12

  datatype State = Runnable | Running | Blocked | Faulted

  datatype Co = Co(state: State, wake: bool, created: bool)

  /** queue is the abstract run queue; current is None while the bootstrap context runs. */
  datatype Sched = Sched(cos: seq<Co>, queue: seq<nat>, current: Option<nat>, count: nat)

  /** A coroutine pointer as a caller may pass it. */
  datatype Ref = Null | Bootstrap | Handle(i: nat) | Wild

  const INIT: Sched := Sched(seq(MAX, _ => Co(Blocked, false, false)), [], None, 1)

  ghost predicate Ok(s: Sched) {
    && |s.cos| == MAX && 1 <= s.count <= MAX
    && (forall n :: 0 <= n < |s.queue| ==> s.queue[n] < MAX && s.cos[s.queue[n]].state == Runnable)
    && (forall n, m :: 0 <= n < m < |s.queue| ==> s.queue[n] != s.queue[m])
    && (forall i :: 0 <= i < MAX && s.cos[i].state == Running ==> s.current == Some(i))
    && (s.current.Some? ==> s.current.value < MAX && s.cos[s.current.value].created)
    && (forall i :: 0 <= i < MAX ==> (s.cos[i].created <==> i < s.count - 1))
    && (forall i :: 0 <= i < MAX && !s.cos[i].created ==> s.cos[i].state == Blocked)
  }

  /** r is a coroutine that a create call returned. */
  predicate Known(s: Sched, r: Ref)
    requires |s.cos| == MAX
  {
    r.Handle? && r.i < MAX && s.cos[r.i].created
  }

  // ---------------------------------------------------------------- transitions

  function SetCo(s: Sched, i: nat, v: Co): Sched
    requires i < |s.cos|
  {
    s.(cos := s.cos[i := v])
  }

  /** q without its first occurrence of x. */
  function Drop(q: seq<nat>, x: nat): seq<nat> {
    if q == [] then [] else if q[0] == x then q[1..] else [q[0]] + Drop(q[1..], x)
  }

  const STACK_MIN: nat := 1024
  const STACK_SIZE: nat := 10240

  /**
    What a create call is given: an entry point, a stack buffer (address 0 is a null pointer) and its size, whether the
    coroutine may use a small stack of its partition's own, and whether the buffer is private to the manager.
    */
  datatype Request = Request(entry: bool, stack: nat, size: nat, partition: bool, private: bool)

  predicate Admissible(q: Request) {
    && q.entry && q.stack != 0 && q.stack % 8 == 0
    && q.size >= STACK_MIN && (!q.partition ==> q.size >= STACK_SIZE && q.private)
  }

  function Create(s: Sched, q: Request, runnable: bool): Sched
    requires |s.cos| == MAX && s.count >= 1
  {
    if !Admissible(q) || s.count >= MAX then s
    else
      var i := s.count - 1;
      var s1 := SetCo(s, i, s.cos[i].(state := if runnable then Runnable else Blocked, created := true)).(count := s.count + 1);
      if runnable then s1.(queue := s1.queue + [i]) else s1
  }

  function Wake(s: Sched, r: Ref): Sched
    requires |s.cos| == MAX
  {
    if !Known(s, r) then s
    else
      var co := s.cos[r.i];
      match co.state
      case Faulted => s
      case Blocked => SetCo(s, r.i, co.(wake := false, state := Runnable)).(queue := s.queue + [r.i])
      case _ => SetCo(s, r.i, co.(wake := true))
  }

  function OffCpu(s: Sched, i: nat): Sched {
    if s.current == Some(i) then s.(current := None) else s
  }

  function MarkFaulted(s: Sched, r: Ref): Sched
    requires |s.cos| == MAX
  {
    if !Known(s, r) then s
    else OffCpu(SetCo(s, r.i, s.cos[r.i].(state := Faulted)).(queue := Drop(s.queue, r.i)), r.i)
  }

  /** A restart reclaims the slot in place. */
  function Reinit(s: Sched, r: Ref): Sched
    requires |s.cos| == MAX
  {
    if !Known(s, r) then s
    else OffCpu(SetCo(s, r.i, s.cos[r.i].(state := Blocked, wake := false)).(queue := Drop(s.queue, r.i)), r.i)
  }

  datatype Api = DoCreate(q: Request, runnable: bool) | DoWake(r: Ref) | DoFault(r: Ref) | DoReinit(r: Ref)

  datatype Ending = Blocks | Preempted | Faults

  datatype Turn = Turn(calls: seq<Api>, end: Ending)

  function Apply(s: Sched, call: Api): (r: Sched)
    requires |s.cos| == MAX && s.count >= 1
    ensures |r.cos| == MAX && r.count >= 1
  {
    match call
    case DoCreate(q, runnable) => Create(s, q, runnable)
    case DoWake(r) => Wake(s, r)
    case DoFault(r) => MarkFaulted(s, r)
    case DoReinit(r) => Reinit(s, r)
  }

  function ApplyAll(s: Sched, calls: seq<Api>): (r: Sched)
    requires |s.cos| == MAX && s.count >= 1
    ensures |r.cos| == MAX && r.count >= 1
    decreases |calls|
  {
    if calls == [] then s else ApplyAll(Apply(s, calls[0]), calls[1..])
  }

  /** The current coroutine gives the processor back; the switch makes the bootstrap context current. */
  function End(s: Sched, end: Ending): Sched
    requires |s.cos| == MAX
  {
    if s.current.None? || s.current.value >= MAX then s.(current := None)
    else
      var i := s.current.value;
      var s1 :=
        match end
        case Blocks => SetCo(s, i, s.cos[i].(state := Blocked))
        case Preempted => if s.cos[i].state == Running then SetCo(s, i, s.cos[i].(state := Runnable)) else s
        case Faults => MarkFaulted(s, Handle(i));
      s1.(current := None)
  }

  /** Coroutine i gets the processor, makes its calls and gives it back. */
  function Switch(s: Sched, i: nat, turn: Turn): Sched
    requires |s.cos| == MAX && s.count >= 1 && i < MAX
  {
    End(ApplyAll(SetCo(s, i, s.cos[i].(state := Running)).(current := Some(i)), turn.calls), turn.end)
  }

  // ---------------------------------------------------------------- bootstrap steps

  /** wt_co_run: only from the bootstrap context, only a runnable coroutine, queued or not. */
  function RunOne(s: Sched, r: Ref, turn: Turn): Sched
    requires |s.cos| == MAX && s.count >= 1
  {
    if s.current.Some? || !Known(s, r) || s.cos[r.i].state != Runnable then s
    else Switch(s.(queue := Drop(s.queue, r.i)), r.i, turn)
  }

  const IDLE_TURN: Turn := Turn([], Blocks)

  /** wt_co_tick: up to budget switches, each to the head of the queue. */
  function Tick(s: Sched, budget: nat, turns: seq<Turn>): Sched
    requires |s.cos| == MAX && s.count >= 1
    decreases budget
  {
    if s.current.Some? || budget == 0 || s.queue == [] || s.queue[0] >= MAX then s
    else
      var turn := if turns == [] then IDLE_TURN else turns[0];
      Tick(Switch(s.(queue := s.queue[1..]), s.queue[0], turn), budget - 1, if turns == [] then [] else turns[1..])
  }

  datatype Step = Call(call: Api) | RunStep(r: Ref, turn: Turn) | TickStep(budget: nat, turns: seq<Turn>)

  function Do(s: Sched, step: Step): (r: Sched)
    requires |s.cos| == MAX && s.count >= 1
    ensures |r.cos| == MAX && r.count >= 1
  {
    match step
    case Call(call) => Apply(s, call)
    case RunStep(r, turn) => RunOne(s, r, turn)
    case TickStep(budget, turns) =>
      TickShape(s, budget, turns);
      Tick(s, budget, turns)
  }

  lemma {:induction false} TickShape(s: Sched, budget: nat, turns: seq<Turn>)
    requires |s.cos| == MAX && s.count >= 1
    ensures |Tick(s, budget, turns).cos| == MAX && Tick(s, budget, turns).count >= 1
    decreases budget
  {
    if !(s.current.Some? || budget == 0 || s.queue == [] || s.queue[0] >= MAX) {
      var turn := if turns == [] then IDLE_TURN else turns[0];
      TickShape(Switch(s.(queue := s.queue[1..]), s.queue[0], turn), budget - 1, if turns == [] then [] else turns[1..]);
    }
  }

  function Run(s: Sched, run: seq<Step>): (r: Sched)
    requires |s.cos| == MAX && s.count >= 1
    ensures |r.cos| == MAX && r.count >= 1
    decreases |run|
  {
    if run == [] then s else Run(Do(s, run[0]), run[1..])
  }

  // ---------------------------------------------------------------- the invariant

  lemma {:induction false} DropFacts(q: seq<nat>, x: nat)
    requires forall n, m :: 0 <= n < m < |q| ==> q[n] != q[m]
    ensures x !in Drop(q, x)
    ensures forall y :: y in Drop(q, x) <==> y in q && y != x
    ensures forall n, m :: 0 <= n < m < |Drop(q, x)| ==> Drop(q, x)[n] != Drop(q, x)[m]
  {
    if q != [] {
      assert forall y :: y in q <==> y == q[0] || y in q[1..];
      if q[0] != x {
        DropFacts(q[1..], x);
        assert q[0] !in q[1..];
      }
    }
  }

  lemma CreateOk(s: Sched, q: Request, runnable: bool)
    requires Ok(s)
    ensures Ok(Create(s, q, runnable))
  {
  }

  lemma WakeOk(s: Sched, r: Ref)
    requires Ok(s)
    ensures Ok(Wake(s, r))
  {
  }

  /** What stays in the queue is runnable and is not the coroutine that left. */
  lemma DropKeeps(s: Sched, i: nat)
    requires Ok(s)
    ensures var q := Drop(s.queue, i);
            && (forall n :: 0 <= n < |q| ==> q[n] < MAX && s.cos[q[n]].state == Runnable && q[n] != i)
            && (forall n, m :: 0 <= n < m < |q| ==> q[n] != q[m])
  {
    DropFacts(s.queue, i);
    var q := Drop(s.queue, i);
    hide Drop;
    forall n | 0 <= n < |q| ensures q[n] < MAX && s.cos[q[n]].state == Runnable && q[n] != i {
      assert q[n] in q;
      var m :| 0 <= m < |s.queue| && s.queue[m] == q[n];
    }
  }

  lemma DequeueOk(s: Sched, i: nat)
    requires Ok(s)
    ensures Ok(s.(queue := Drop(s.queue, i))) && i !in Drop(s.queue, i)
  {
    DropKeeps(s, i);
    hide Drop;
  }

  lemma LeaveOk(s: Sched, i: nat, v: Co)
    requires Ok(s) && i < MAX && s.cos[i].created && v.created && v.state in {Blocked, Faulted}
    ensures Ok(OffCpu(SetCo(s, i, v).(queue := Drop(s.queue, i)), i))
  {
    DropKeeps(s, i);
    hide Drop;
  }

  lemma DetachOk(s: Sched, r: Ref)
    requires Ok(s)
    ensures Ok(MarkFaulted(s, r)) && Ok(Reinit(s, r))
  {
    if Known(s, r) {
      LeaveOk(s, r.i, s.cos[r.i].(state := Faulted));
      LeaveOk(s, r.i, s.cos[r.i].(state := Blocked, wake := false));
    }
    hide Drop;
    hide Ok;
  }

  lemma ApplyOk(s: Sched, call: Api)
    requires Ok(s)
    ensures Ok(Apply(s, call))
  {
    match call
    case DoCreate(q, runnable) => CreateOk(s, q, runnable);
    case DoWake(r) => WakeOk(s, r);
    case DoFault(r) => DetachOk(s, r);
    case DoReinit(r) => DetachOk(s, r);
  }

  lemma {:induction false} ApplyAllOk(s: Sched, calls: seq<Api>)
    requires Ok(s)
    ensures Ok(ApplyAll(s, calls))
    decreases |calls|
  {
    if calls != [] {
      ApplyOk(s, calls[0]);
      ApplyAllOk(Apply(s, calls[0]), calls[1..]);
    }
  }

  /** While a coroutine is current it is either running or already off the processor. */
  ghost predicate OnCpu(s: Sched) {
    |s.cos| == MAX && (s.current.Some? ==> s.current.value < MAX && s.cos[s.current.value].state == Running)
  }

  lemma ApplyOnCpu(s: Sched, call: Api)
    requires Ok(s) && OnCpu(s)
    ensures OnCpu(Apply(s, call))
  {
  }

  lemma {:induction false} ApplyAllOnCpu(s: Sched, calls: seq<Api>)
    requires Ok(s) && OnCpu(s)
    ensures OnCpu(ApplyAll(s, calls))
    decreases |calls|
  {
    if calls != [] {
      ApplyOk(s, calls[0]);
      ApplyOnCpu(s, calls[0]);
      ApplyAllOnCpu(Apply(s, calls[0]), calls[1..]);
    }
  }

  lemma EndOk(s: Sched, end: Ending)
    requires Ok(s) && OnCpu(s)
    ensures Ok(End(s, end)) && End(s, end).current == None
  {
    if s.current.Some? {
      DetachOk(s, Handle(s.current.value));
    }
  }

  lemma SwitchOk(s: Sched, i: nat, turn: Turn)
    requires Ok(s) && s.current.None? && i < MAX && s.cos[i].created && i !in s.queue
    ensures Ok(Switch(s, i, turn)) && Switch(s, i, turn).current == None
  {
    var s1 := SetCo(s, i, s.cos[i].(state := Running)).(current := Some(i));
    assert Ok(s1);
    ApplyAllOk(s1, turn.calls);
    ApplyAllOnCpu(s1, turn.calls);
    EndOk(ApplyAll(s1, turn.calls), turn.end);
  }

  lemma RunOneOk(s: Sched, r: Ref, turn: Turn)
    requires Ok(s) && s.current.None?
    ensures Ok(RunOne(s, r, turn)) && RunOne(s, r, turn).current == None
  {
    if Known(s, r) && s.cos[r.i].state == Runnable {
      DequeueOk(s, r.i);
      SwitchOk(s.(queue := Drop(s.queue, r.i)), r.i, turn);
    }
  }

  lemma {:induction false} TickOk(s: Sched, budget: nat, turns: seq<Turn>)
    requires Ok(s) && s.current.None?
    ensures Ok(Tick(s, budget, turns)) && Tick(s, budget, turns).current == None
    decreases budget
  {
    if budget > 0 && s.queue != [] {
      var turn := if turns == [] then IDLE_TURN else turns[0];
      var s1 := s.(queue := s.queue[1..]);
      assert s.queue[0] !in s1.queue;
      SwitchOk(s1, s.queue[0], turn);
      TickOk(Switch(s1, s.queue[0], turn), budget - 1, if turns == [] then [] else turns[1..]);
    }
  }

  lemma CallKeepsBootstrap(s: Sched, call: Api)
    requires |s.cos| == MAX && s.count >= 1 && s.current.None?
    ensures Apply(s, call).current == None
  {
  }

  lemma DoOk(s: Sched, step: Step)
    requires Ok(s) && s.current.None?
    ensures Ok(Do(s, step)) && Do(s, step).current == None
  {
    match step
    case Call(call) => ApplyOk(s, call); CallKeepsBootstrap(s, call);
    case RunStep(r, turn) => RunOneOk(s, r, turn);
    case TickStep(budget, turns) => TickOk(s, budget, turns);
  }

  /** In every run the queue has no duplicates, holds only runnable coroutines, and at most the current one runs. */
  lemma {:induction false} RunOk(s: Sched, run: seq<Step>)
    requires Ok(s) && s.current.None?
    ensures Ok(Run(s, run)) && Run(s, run).current == None
    decreases |run|
  {
    if run != [] {
      DoOk(s, run[0]);
      RunOk(Do(s, run[0]), run[1..]);
    }
  }

  lemma InitOk()
    ensures Ok(INIT) && OnCpu(INIT) && forall i :: 0 <= i < MAX ==> INIT.cos[i].state != Runnable
  {
  }

  // ---------------------------------------------------------------- a run as a trace of events

  /**
    What happens in the scheduler, one event at a time: a call, a coroutine getting the processor (aimed if a
    targeted run picked it, otherwise a tick took it from the head of the queue), and its giving it back.
    */
  datatype Event = Called(call: Api) | Entered(i: nat, aimed: bool) | Left(end: Ending)

  function Play(s: Sched, e: Event): (r: Sched)
    requires |s.cos| == MAX && s.count >= 1
    ensures |r.cos| == MAX && r.count >= 1
  {
    match e
    case Called(call) => Apply(s, call)
    case Entered(i, _) =>
      if i >= MAX then s
      else SetCo(s, i, s.cos[i].(state := Running)).(queue := Drop(s.queue, i), current := Some(i))
    case Left(end) => End(s, end)
  }

  function PlayAll(s: Sched, es: seq<Event>): (r: Sched)
    requires |s.cos| == MAX && s.count >= 1
    ensures |r.cos| == MAX && r.count >= 1
    decreases |es|
  {
    if es == [] then s else PlayAll(Play(s, es[0]), es[1..])
  }

  /** Only a runnable coroutine gets the processor, and only while the bootstrap context has it. */
  predicate Legal(s: Sched, e: Event)
    requires |s.cos| == MAX
  {
    e.Entered? ==>
      && s.current.None? && e.i < MAX && s.cos[e.i].created && s.cos[e.i].state == Runnable
      && (e.aimed || (s.queue != [] && s.queue[0] == e.i))
  }

  predicate LegalAll(s: Sched, es: seq<Event>)
    requires |s.cos| == MAX && s.count >= 1
    decreases |es|
  {
    es == [] || (Legal(s, es[0]) && LegalAll(Play(s, es[0]), es[1..]))
  }

  function Calls(calls: seq<Api>): (es: seq<Event>)
    ensures |es| == |calls| && forall n :: 0 <= n < |calls| ==> es[n] == Called(calls[n])
  {
    seq(|calls|, n requires 0 <= n < |calls| => Called(calls[n]))
  }

  function TurnEvents(i: nat, aimed: bool, turn: Turn): seq<Event> {
    [Entered(i, aimed)] + Calls(turn.calls) + [Left(turn.end)]
  }

  function TickEvents(s: Sched, budget: nat, turns: seq<Turn>): seq<Event>
    requires |s.cos| == MAX && s.count >= 1
    decreases budget
  {
    if s.current.Some? || budget == 0 || s.queue == [] || s.queue[0] >= MAX then []
    else
      var turn := if turns == [] then IDLE_TURN else turns[0];
      TurnEvents(s.queue[0], false, turn) +
      TickEvents(Switch(s.(queue := s.queue[1..]), s.queue[0], turn), budget - 1, if turns == [] then [] else turns[1..])
  }

  function StepEvents(s: Sched, step: Step): seq<Event>
    requires |s.cos| == MAX && s.count >= 1
  {
    match step
    case Call(call) => [Called(call)]
    case RunStep(r, turn) =>
      if s.current.Some? || !Known(s, r) || s.cos[r.i].state != Runnable then [] else TurnEvents(r.i, true, turn)
    case TickStep(budget, turns) => TickEvents(s, budget, turns)
  }

  /** The events of a run, in order. */
  function Trace(s: Sched, run: seq<Step>): seq<Event>
    requires |s.cos| == MAX && s.count >= 1
    decreases |run|
  {
    if run == [] then [] else StepEvents(s, run[0]) + Trace(Do(s, run[0]), run[1..])
  }

  /** es takes s to r, and every event of it is legal where it happens. */
  ghost predicate Takes(s: Sched, es: seq<Event>, r: Sched) {
    |s.cos| == MAX && s.count >= 1 && LegalAll(s, es) && PlayAll(s, es) == r
  }

  lemma {:induction false} TakesThen(s: Sched, a: seq<Event>, r: Sched, b: seq<Event>, t: Sched)
    requires Takes(s, a, r) && Takes(r, b, t)
    ensures Takes(s, a + b, t)
    decreases |a|
  {
    if a == [] {
      assert a + b == b;
    } else {
      TakesThen(Play(s, a[0]), a[1..], r, b, t);
      assert (a + b)[1..] == a[1..] + b;
    }
  }

  lemma {:induction false} TakesSplit(s: Sched, a: seq<Event>, b: seq<Event>)
    requires |s.cos| == MAX && s.count >= 1 && LegalAll(s, a + b)
    ensures Takes(s, a, PlayAll(s, a)) && Takes(PlayAll(s, a), b, PlayAll(s, a + b))
    decreases |a|
  {
    if a == [] {
      assert a + b == b;
    } else {
      assert (a + b)[1..] == a[1..] + b;
      TakesSplit(Play(s, a[0]), a[1..], b);
    }
  }

  lemma TakesOne(s: Sched, e: Event)
    requires |s.cos| == MAX && s.count >= 1 && Legal(s, e)
    ensures Takes(s, [e], Play(s, e))
  {
    assert [e][1..] == [];
    assert PlayAll(Play(s, e), []) == Play(s, e);
  }

  lemma {:induction false} CallsTake(s: Sched, calls: seq<Api>)
    requires |s.cos| == MAX && s.count >= 1
    ensures Takes(s, Calls(calls), ApplyAll(s, calls))
    decreases |calls|
  {
    if calls != [] {
      CallsTake(Apply(s, calls[0]), calls[1..]);
      assert Calls(calls)[1..] == Calls(calls[1..]);
    }
  }

  lemma TurnTakes(s: Sched, i: nat, aimed: bool, turn: Turn)
    requires |s.cos| == MAX && s.count >= 1 && Legal(s, Entered(i, aimed))
    ensures Takes(s, TurnEvents(i, aimed, turn), Switch(s.(queue := Drop(s.queue, i)), i, turn))
  {
    var s1 := Play(s, Entered(i, aimed));
    var s2 := ApplyAll(s1, turn.calls);
    TakesOne(s, Entered(i, aimed));
    CallsTake(s1, turn.calls);
    TakesOne(s2, Left(turn.end));
    TakesThen(s, [Entered(i, aimed)], s1, Calls(turn.calls), s2);
    TakesThen(s, [Entered(i, aimed)] + Calls(turn.calls), s2, [Left(turn.end)], End(s2, turn.end));
  }

  lemma {:induction false} TickTakes(s: Sched, budget: nat, turns: seq<Turn>)
    requires Ok(s) && s.current.None?
    ensures Takes(s, TickEvents(s, budget, turns), Tick(s, budget, turns))
    decreases budget
  {
    hide Switch;
    hide TurnEvents;
    hide Takes;
    HeadRuns(s);
    hide Ok;
    if budget > 0 && s.queue != [] {
      var turn := if turns == [] then IDLE_TURN else turns[0];
      var s1 := s.(queue := s.queue[1..]);
      SwitchOk(s1, s.queue[0], turn);
      TurnTakes(s, s.queue[0], false, turn);
      var r := Switch(s1, s.queue[0], turn);
      var rest := if turns == [] then [] else turns[1..];
      TickTakes(r, budget - 1, rest);
      TakesThen(s, TurnEvents(s.queue[0], false, turn), r, TickEvents(r, budget - 1, rest), Tick(r, budget - 1, rest));
    }
  }

  /** The head of the queue may run, and taking it leaves a consistent queue without it. */
  lemma HeadRuns(s: Sched)
    requires Ok(s) && s.current.None?
    ensures |s.cos| == MAX && s.count >= 1 && Takes(s, [], s)
    ensures s.queue != [] ==>
              && s.queue[0] < MAX && Legal(s, Entered(s.queue[0], false)) && Drop(s.queue, s.queue[0]) == s.queue[1..]
              && Ok(s.(queue := s.queue[1..])) && s.cos[s.queue[0]].created && s.queue[0] !in s.queue[1..]
  {
  }

  lemma StepTakes(s: Sched, step: Step)
    requires Ok(s) && s.current.None?
    ensures Takes(s, StepEvents(s, step), Do(s, step))
  {
    match step
    case Call(call) => TakesOne(s, Called(call));
    case RunStep(r, turn) =>
      if Known(s, r) && s.cos[r.i].state == Runnable {
        TurnTakes(s, r.i, true, turn);
      }
    case TickStep(budget, turns) => TickTakes(s, budget, turns);
  }

  /** A run is its trace: the same state, and every event legal where it happens. */
  lemma {:induction false} RunTakes(s: Sched, run: seq<Step>)
    requires Ok(s) && s.current.None?
    ensures Takes(s, Trace(s, run), Run(s, run))
    decreases |run|
  {
    if run != [] {
      DoOk(s, run[0]);
      StepTakes(s, run[0]);
      hide Ok;
      hide Do;
      var r := Do(s, run[0]);
      RunTakes(r, run[1..]);
      TakesThen(s, StepEvents(s, run[0]), r, Trace(r, run[1..]), Run(r, run[1..]));
    }
  }

  /** Between any two events the table is consistent and the current coroutine is running. */
  lemma PlayOk(s: Sched, e: Event)
    requires Ok(s) && OnCpu(s) && Legal(s, e)
    ensures Ok(Play(s, e)) && OnCpu(Play(s, e))
  {
    match e
    case Called(call) => ApplyOk(s, call); ApplyOnCpu(s, call);
    case Entered(i, _) => DequeueOk(s, i); hide Drop;
    case Left(end) => EndOk(s, end);
  }

  // ---------------------------------------------------------------- faulted coroutines

  predicate Restart(e: Event, i: nat) {
    e == Called(DoReinit(Handle(i)))
  }

  ghost predicate Dead(s: Sched, i: nat) {
    Ok(s) && i < MAX && s.cos[i].created && s.cos[i].state == Faulted
  }

  lemma PlayKeepsDead(s: Sched, e: Event, i: nat)
    requires Dead(s, i) && OnCpu(s) && Legal(s, e) && !Restart(e, i)
    ensures Dead(Play(s, e), i) && OnCpu(Play(s, e)) && !(e.Entered? && e.i == i)
  {
    PlayOk(s, e);
    hide Drop;
  }

  /** From any moment on, a faulted coroutine stays faulted and never enters the processor, unless it is restarted. */
  lemma {:induction false} DeadNeverEnters(s: Sched, es: seq<Event>, r: Sched, i: nat)
    requires Dead(s, i) && OnCpu(s) && Takes(s, es, r) && forall n :: 0 <= n < |es| ==> !Restart(es[n], i)
    ensures Dead(r, i) && forall n :: 0 <= n < |es| ==> !(es[n].Entered? && es[n].i == i)
    decreases |es|
  {
    if es != [] {
      PlayKeepsDead(s, es[0], i);
      hide Play;
      hide Legal;
      hide Dead;
      DeadNeverEnters(Play(s, es[0]), es[1..], r, i);
    }
  }

  /** A faulted coroutine never gets the processor again until it is restarted, whatever the run does. */
  lemma FaultedStaysDown(s: Sched, run: seq<Step>, i: nat)
    requires Dead(s, i) && s.current.None?
    requires forall n :: 0 <= n < |Trace(s, run)| ==> !Restart(Trace(s, run)[n], i)
    ensures Dead(Run(s, run), i)
    ensures forall n :: 0 <= n < |Trace(s, run)| ==> !(Trace(s, run)[n].Entered? && Trace(s, run)[n].i == i)
  {
    RunTakes(s, run);
    DeadNeverEnters(s, Trace(s, run), Run(s, run), i);
  }

  /** A faulted coroutine is in no position to be picked: not queued, not current, and neither wake nor run reaches it. */
  lemma DeadIsUnreachable(s: Sched, i: nat, turn: Turn)
    requires Dead(s, i) && OnCpu(s)
    ensures i !in s.queue && s.current != Some(i)
    ensures Wake(s, Handle(i)) == s && RunOne(s, Handle(i), turn) == s
  {
  }

  /** A restart takes no new slot and leaves the coroutine parked. */
  lemma ReinitReusesSlot(s: Sched, i: nat)
    requires Ok(s) && i < MAX && s.cos[i].created
    ensures var s' := Reinit(s, Handle(i));
            && s'.count == s.count && s'.cos[i] == Co(Blocked, false, true) && i !in s'.queue && s'.current != Some(i)
            && (forall j :: 0 <= j < MAX && j != i ==> s'.cos[j] == s.cos[j])
            && (forall j :: j != i ==> (j in s'.queue <==> j in s.queue))
  {
    DropFacts(s.queue, i);
    hide Drop;
  }

  // ---------------------------------------------------------------- latched wakes

  /** A wake of coroutine i is pending. */
  ghost predicate Latched(s: Sched, i: nat) {
    Ok(s) && i < MAX && s.cos[i].created && s.cos[i].wake
  }

  /** The event uses the pending wake up: a restart, or a further wake once the coroutine has blocked. */
  predicate Consumes(s: Sched, e: Event, i: nat)
    requires |s.cos| == MAX && i < MAX
  {
    Restart(e, i) || (e == Called(DoWake(Handle(i))) && s.cos[i].state == Blocked)
  }

  /** No event along es uses the pending wake of i up. */
  predicate Unconsumed(s: Sched, es: seq<Event>, i: nat)
    requires |s.cos| == MAX && s.count >= 1 && i < MAX
    decreases |es|
  {
    es == [] || (!Consumes(s, es[0], i) && Unconsumed(Play(s, es[0]), es[1..], i))
  }

  /** A pending wake is cleared by the events that consume it and by no others. */
  lemma PlayKeepsLatch(s: Sched, e: Event, i: nat)
    requires Latched(s, i) && OnCpu(s) && Legal(s, e)
    ensures Latched(Play(s, e), i) <==> !Consumes(s, e, i)
    ensures OnCpu(Play(s, e))
  {
    PlayOk(s, e);
    OkShape(s);
    if e.Called? {
      CallKeepsLatch(s, e.call, i);
    } else {
      TurnKeepsLatch(s, e, i);
    }
    hide Play;
    hide Ok;
    hide OnCpu;
    hide Consumes;
  }

  lemma CallKeepsLatch(s: Sched, call: Api, i: nat)
    requires |s.cos| == MAX && s.count >= 1 && i < MAX && s.cos[i].created && s.cos[i].wake && i < s.count - 1
    ensures Apply(s, call).cos[i].created
    ensures Apply(s, call).cos[i].wake <==> !Consumes(s, Called(call), i)
  {
    hide Drop;
  }

  lemma TurnKeepsLatch(s: Sched, e: Event, i: nat)
    requires |s.cos| == MAX && s.count >= 1 && i < MAX && s.cos[i].created && s.cos[i].wake && !e.Called?
    ensures Play(s, e).cos[i].created && Play(s, e).cos[i].wake && !Consumes(s, e, i)
  {
    hide Drop;
  }

  lemma OkShape(s: Sched)
    requires Ok(s)
    ensures |s.cos| == MAX && 1 <= s.count <= MAX
    ensures forall i :: 0 <= i < MAX ==> (s.cos[i].created <==> i < s.count - 1)
  {
  }

  lemma {:induction false} LatchOutlives(s: Sched, es: seq<Event>, r: Sched, i: nat)
    requires Latched(s, i) && OnCpu(s) && Takes(s, es, r) && Unconsumed(s, es, i)
    ensures Latched(r, i) && OnCpu(r)
    decreases |es|
  {
    if es != [] {
      PlayKeepsLatch(s, es[0], i);
      hide Play;
      hide Legal;
      hide Latched;
      hide OnCpu;
      LatchOutlives(Play(s, es[0]), es[1..], r, i);
    }
  }

  /** A pending wake outlives every run in which nothing consumes it, through any number of turns and blocks. */
  lemma LatchOutlivesRun(s: Sched, run: seq<Step>, i: nat)
    requires Latched(s, i) && s.current.None? && Unconsumed(s, Trace(s, run), i)
    ensures Latched(Run(s, run), i)
  {
    RunTakes(s, run);
    LatchOutlives(s, Trace(s, run), Run(s, run), i);
  }

  /** A wake of an active coroutine, queued, parked or running, is latched and moves nothing else. */
  lemma WakeLatches(s: Sched, i: nat)
    requires Ok(s) && i < MAX && s.cos[i].created && s.cos[i].state in {Runnable, Running}
    ensures Wake(s, Handle(i)) == SetCo(s, i, s.cos[i].(wake := true)) && Latched(Wake(s, Handle(i)), i)
  {
    WakeOk(s, Handle(i));
  }

  /**
    A wake that lands anywhere in a run, in the coroutine's own turn, in another's or between turns, while the
    coroutine is active, is still pending at the end of the run if nothing consumed it; in particular it is
    pending when the coroutine has blocked in the meantime.
    */
  lemma WakeOutlivesBlock(s: Sched, run: seq<Step>, n: nat, i: nat)
    requires Ok(s) && s.current.None? && i < MAX && n < |Trace(s, run)| && Trace(s, run)[n] == Called(DoWake(Handle(i)))
    requires var at := PlayAll(s, Trace(s, run)[..n]);
             && at.cos[i].created && at.cos[i].state in {Runnable, Running}
             && Unconsumed(Wake(at, Handle(i)), Trace(s, run)[n + 1..], i)
    ensures Latched(Run(s, run), i)
    ensures Run(s, run).cos[i].state == Blocked ==> Run(s, run).cos[i] == Co(Blocked, true, true)
  {
    var es := Trace(s, run);
    RunTakes(s, run);
    assert es == es[..n] + es[n..];
    TakesSplit(s, es[..n], es[n..]);
    var at := PlayAll(s, es[..n]);
    TakesOk(s, es[..n], at);
    WakeLatches(at, i);
    PlayOk(at, es[n]);
    assert es[n..][0] == es[n] && es[n..][1..] == es[n + 1..];
    hide Ok;
    hide Play;
    LatchOutlives(Wake(at, Handle(i)), es[n + 1..], Run(s, run), i);
  }

  lemma {:induction false} TakesOk(s: Sched, es: seq<Event>, r: Sched)
    requires Ok(s) && OnCpu(s) && Takes(s, es, r)
    ensures Ok(r) && OnCpu(r)
    decreases |es|
  {
    if es != [] {
      PlayOk(s, es[0]);
      hide Ok;
      hide OnCpu;
      hide Play;
      hide Legal;
      TakesOk(Play(s, es[0]), es[1..], r);
    }
  }

  // ---------------------------------------------------------------- parked coroutines

  /** Every runnable coroutine waits in the queue, so a tick reaches it. */
  ghost predicate AllQueued(s: Sched) {
    Ok(s) && OnCpu(s) && forall i :: 0 <= i < MAX && s.cos[i].state == Runnable ==> i in s.queue
  }

  /** Coroutine i is runnable but not queued. */
  ghost predicate Parked(s: Sched, i: nat) {
    Ok(s) && OnCpu(s) && i < MAX && s.cos[i].created && s.cos[i].state == Runnable && i !in s.queue
  }

  /** A preemption of a coroutine that has the processor. */
  predicate Preempts(s: Sched, e: Event) {
    e == Left(Preempted) && s.current.Some?
  }

  /** The preemption of a running coroutine is the one event that leaves a runnable coroutine outside the queue. */
  lemma PlayKeepsQueued(s: Sched, e: Event)
    requires AllQueued(s) && Legal(s, e)
    ensures AllQueued(Play(s, e)) <==> !Preempts(s, e)
    ensures Preempts(s, e) ==> Parked(Play(s, e), s.current.value)
  {
    hide Drop;
    PlayOk(s, e);
    if e.Entered? {
      DropFacts(s.queue, e.i);
    } else if e.Called? && (e.call.DoFault? || e.call.DoReinit?) && Known(s, e.call.r) {
      DropFacts(s.queue, e.call.r.i);
    } else if e == Left(Faults) && s.current.Some? {
      DropFacts(s.queue, s.current.value);
    }
    hide Ok;
  }

  lemma {:induction false} QueuedThrough(s: Sched, es: seq<Event>, r: Sched)
    requires AllQueued(s) && Takes(s, es, r) && forall n :: 0 <= n < |es| ==> es[n] != Left(Preempted)
    ensures AllQueued(r)
    decreases |es|
  {
    if es != [] {
      PlayKeepsQueued(s, es[0]);
      hide AllQueued;
      hide Play;
      hide Legal;
      QueuedThrough(Play(s, es[0]), es[1..], r);
    }
  }

  /** As long as no turn ends in a preemption, every runnable coroutine stays within reach of a tick. */
  lemma QueuedWithoutPreemption(s: Sched, run: seq<Step>)
    requires AllQueued(s) && s.current.None?
    requires forall n :: 0 <= n < |Trace(s, run)| ==> Trace(s, run)[n] != Left(Preempted)
    ensures AllQueued(Run(s, run))
  {
    RunTakes(s, run);
    QueuedThrough(s, Trace(s, run), Run(s, run));
  }

  /** A targeted run of i, or its fault or restart. */
  predicate Unparks(e: Event, i: nat) {
    e == Entered(i, true) || e == Called(DoFault(Handle(i))) || Restart(e, i)
  }

  /** Nothing else takes a parked coroutine out of its place: a wake only latches, and the queue never holds it. */
  lemma PlayKeepsParked(s: Sched, e: Event, i: nat)
    requires Parked(s, i) && Legal(s, e)
    ensures Parked(Play(s, e), i) <==> !Unparks(e, i)
    ensures e != Entered(i, false)
  {
    hide Drop;
    OkShape(s);
    PlayOk(s, e);
    if e.Entered? {
      DropFacts(s.queue, e.i);
    } else if e.Called? && (e.call.DoFault? || e.call.DoReinit?) && Known(s, e.call.r) {
      DropFacts(s.queue, e.call.r.i);
    } else if e == Left(Faults) && s.current.Some? {
      DropFacts(s.queue, s.current.value);
    }
    hide Ok;
  }

  lemma {:induction false} ParkedThrough(s: Sched, es: seq<Event>, r: Sched, i: nat)
    requires Parked(s, i) && Takes(s, es, r) && forall n :: 0 <= n < |es| ==> !Unparks(es[n], i)
    ensures Parked(r, i) && forall n :: 0 <= n < |es| ==> !(es[n].Entered? && es[n].i == i)
    decreases |es|
  {
    if es != [] {
      PlayKeepsParked(s, es[0], i);
      hide Parked;
      hide Play;
      hide Legal;
      ParkedThrough(Play(s, es[0]), es[1..], r, i);
    }
  }

  /** No tick resumes a parked coroutine: it stays parked until a targeted run, a fault or a restart. */
  lemma ParkedStays(s: Sched, run: seq<Step>, i: nat)
    requires Parked(s, i) && s.current.None?
    requires forall n :: 0 <= n < |Trace(s, run)| ==> !Unparks(Trace(s, run)[n], i)
    ensures Parked(Run(s, run), i)
    ensures forall n :: 0 <= n < |Trace(s, run)| ==> !(Trace(s, run)[n].Entered? && Trace(s, run)[n].i == i)
  {
    RunTakes(s, run);
    ParkedThrough(s, Trace(s, run), Run(s, run), i);
  }

  /** A targeted run does resume it. */
  lemma TargetedRunResumes(s: Sched, i: nat, turn: Turn)
    requires Parked(s, i) && s.current.None?
    ensures Trace(s, [RunStep(Handle(i), turn)])[..1] == [Entered(i, true)]
  {
  }
}
