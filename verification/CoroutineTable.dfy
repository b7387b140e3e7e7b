/**
  The scheduler as it is stored: a table of coroutines, links between them, and the
  head and tail of the run queue.  Every operation refines the transition of Coroutine.
  */
module CoroutineTable {
  import opened Handles
  import opened Coroutine

  // ---------------------------------------------------------------- linked queues

  /** The links from head spell out q and end at tail. */
  ghost predicate Spells(next: seq<nat>, head: nat, tail: nat, q: seq<nat>) {
    && |next| == MAX
    && (forall n :: 0 <= n < |q| ==> q[n] < MAX)
    && (forall n, m :: 0 <= n < m < |q| ==> q[n] != q[m])
    && (forall n :: 0 <= n < |q| - 1 ==> next[q[n]] == q[n + 1])
    && if q == [] then head == NIL && tail == NIL
       else head == q[0] && tail == q[|q| - 1] && next[q[|q| - 1]] == NIL
  }

  lemma PushSpells(next: seq<nat>, head: nat, tail: nat, q: seq<nat>, i: nat)
    requires Spells(next, head, tail, q) && i < MAX && i !in q
    ensures var next1 := next[i := NIL];
            Spells(if tail == NIL then next1 else next1[tail := i], if tail == NIL then i else head, i, q + [i])
  {
  }

  lemma PopSpells(next: seq<nat>, head: nat, tail: nat, q: seq<nat>)
    requires Spells(next, head, tail, q) && q != []
    ensures head == q[0] && next[head] == (if |q| == 1 then NIL else q[1]) && (|q| > 1 ==> q[1] != NIL)
    ensures Spells(next[head := NIL], next[head], if |q| == 1 then NIL else tail, q[1..])
  {
  }

  function Cut(q: seq<nat>, n: nat): seq<nat>
    requires n < |q|
  {
    q[..n] + q[n + 1..]
  }

  lemma {:induction false} DropIsCut(q: seq<nat>, n: nat)
    requires n < |q| && forall k :: 0 <= k < n ==> q[k] != q[n]
    ensures Drop(q, q[n]) == Cut(q, n)
  {
    if n > 0 {
      DropIsCut(q[1..], n - 1);
      assert [q[0]] + Cut(q[1..], n - 1) == Cut(q, n);
    } else {
      assert Cut(q, 0) == q[1..];
    }
  }

  lemma {:induction false} DropAbsent(q: seq<nat>, x: nat)
    requires x !in q
    ensures Drop(q, x) == q
  {
    if q != [] {
      DropAbsent(q[1..], x);
    }
  }

  /** After splicing out entry n, the links spell the rest of the queue up to the right tail. */
  lemma CutSpells(next: seq<nat>, head: nat, tail: nat, q: seq<nat>, n: nat, next1: seq<nat>, head1: nat)
    requires Spells(next, head, tail, q) && n < |q|
    requires next1 == if n == 0 then next else next[q[n - 1] := next[q[n]]]
    requires head1 == if n == 0 then next[q[n]] else head
    ensures var r := Cut(q, n);
            var tail1 := if n < |q| - 1 then tail else if n == 0 then NIL else q[n - 1];
            && Spells(next1, head1, tail1, r) && Spells(next1[q[n] := NIL], head1, tail1, r)
            && (n == |q| - 1 <==> tail == q[n])
  {
    var r := Cut(q, n);
    forall k | 0 <= k < |r| ensures r[k] == q[if k < n then k else k + 1] {
    }
    if n > 0 {
      assert next1[q[n - 1]] == next[q[n]];
    }
  }

  lemma SpelledNext(next: seq<nat>, head: nat, tail: nat, q: seq<nat>, n: nat)
    requires Spells(next, head, tail, q) && n < |q|
    ensures q[n] < MAX && next[q[n]] == if n + 1 < |q| then q[n + 1] else NIL
    ensures forall k :: 0 <= k < n ==> q[k] != q[n]
  {
  }

  lemma HeadTells(next: seq<nat>, head: nat, tail: nat, q: seq<nat>)
    requires Spells(next, head, tail, q)
    ensures (head == NIL <==> q == []) && (tail == NIL <==> q == []) && (q != [] ==> head == q[0] && head < MAX)
    ensures q != [] ==> tail == q[|q| - 1] && tail < MAX
  {
  }

  class RunTable {
    const cos: array<Co>
    const next: array<nat>
    var head: nat
    var tail: nat
    var current: nat
    var count: nat
    ghost var queue: seq<nat>

    ghost function Abs(): Sched
      reads this, cos
    {
      Sched(cos[..], queue, if current == NIL then None else Some(current), count)
    }

    /** The representation: sizes and links. */
    ghost predicate Sound()
      reads this, cos, next
    {
      cos.Length == MAX && next.Length == MAX && count >= 1 && Spells(next[..], head, tail, queue)
    }

    ghost predicate Valid()
      reads this, cos, next
    {
      Sound() && Ok(Abs())
    }

    constructor ()
      ensures Valid() && Abs() == INIT && fresh(cos) && fresh(next)
    {
      cos := new Co[MAX](_ => Co(Blocked, false, false));
      next := new nat[MAX](_ => NIL);
      head, tail, current, count := NIL, NIL, NIL, 1;
      queue := [];
      new;
      assert cos[..] == INIT.cos;
    }

    method Enqueue(i: nat)
      requires Sound() && i < MAX && i !in queue
      modifies this`head, this`tail, this`queue, next
      ensures Sound() && queue == old(queue) + [i]
    {
      PushSpells(next[..], head, tail, queue, i);
      HeadTells(next[..], head, tail, queue);
      hide Spells;
      next[i] := NIL;
      if tail != NIL {
        next[tail] := i;
      } else {
        head := i;
      }
      tail := i;
      queue := queue + [i];
    }

    method Dequeue() returns (i: nat)
      requires Sound()
      modifies this`head, this`tail, this`queue, next
      ensures Sound()
      ensures if old(queue) == [] then i == NIL && queue == [] else i == old(queue[0]) && queue == old(queue[1..])
    {
      HeadTells(next[..], head, tail, queue);
      i := head;
      if i != NIL {
        PopSpells(next[..], head, tail, queue);
        hide Spells;
        head := next[i];
        if head == NIL {
          tail := NIL;
        }
        next[i] := NIL;
        queue := queue[1..];
      }
    }

    /** Walks the links from head to the last coroutine. */
    method FindTail(ghost q: seq<nat>, ghost t: nat) returns (last: nat)
      requires next.Length == MAX && Spells(next[..], head, t, q) && q != []
      ensures last == t
    {
      HeadTells(next[..], head, t, q);
      last := head;
      ghost var n := 0;
      SpelledNext(next[..], head, t, q, 0);
      while next[last] != NIL
        invariant 0 <= n < |q| && last == q[n] && last < MAX
        decreases |q| - n
      {
        SpelledNext(next[..], head, t, q, n);
        n := n + 1;
        last := next[last];
        SpelledNext(next[..], head, t, q, n);
      }
      SpelledNext(next[..], head, t, q, n);
    }

    /** Takes coroutine i out of the run queue if it is there. */
    method Unlink(i: nat)
      requires Sound() && i < MAX
      modifies this`head, this`tail, this`queue, next
      ensures Sound() && queue == Drop(old(queue), i)
    {
      ghost var q, links, first, last := queue, next[..], head, tail;
      ghost var n := 0;
      HeadTells(links, head, tail, q);
      hide Spells;
      hide Drop;
      var node, previous := head, NIL;
      while node != NIL && node != i
        invariant 0 <= n <= |q| && node == (if n < |q| then q[n] else NIL)
        invariant previous == (if n == 0 then NIL else q[n - 1]) && i !in q[..n]
        invariant next[..] == links && head == first && tail == last && queue == q
        decreases |q| - n
      {
        SpelledNext(links, first, last, q, n);
        assert q[..n + 1] == q[..n] + [node];
        previous := node;
        node := next[node];
        n := n + 1;
      }
      if node == NIL {
        assert q[..n] == q;
        DropAbsent(q, i);
        return;
      }
      SpelledNext(links, first, last, q, n);
      if n > 0 {
        SpelledNext(links, first, last, q, n - 1);
      }
      DropIsCut(q, n);
      Splice(node, previous, n);
    }

    method Splice(node: nat, previous: nat, ghost n: nat)
      requires Sound() && n < |queue| && node == queue[n] < MAX
      requires previous == if n == 0 then NIL else queue[n - 1]
      requires n > 0 ==> previous < MAX
      modifies this`head, this`tail, this`queue, next
      ensures Sound() && queue == Cut(old(queue), n)
    {
      ghost var q, links, first, last := queue, next[..], head, tail;
      var after := next[node];
      if previous == NIL {
        head := after;
      } else {
        next[previous] := after;
      }
      CutSpells(links, first, last, q, n, next[..], head);
      HeadTells(next[..], head, if n < |q| - 1 then last else if n == 0 then NIL else q[n - 1], Cut(q, n));
      hide Spells;
      if tail == node {
        if head == NIL {
          tail := NIL;
        } else {
          tail := FindTail(Cut(q, n), if n == 0 then NIL else q[n - 1]);
        }
      }
      next[node] := NIL;
      queue := Cut(q, n);
    }

    // -------------------------------------------------------------- operations

    method CreateSlot(q: Request, runnable: bool) returns (r: Ref)
      requires Valid()
      modifies this, cos, next
      ensures Valid() && Abs() == Create(old(Abs()), q, runnable)
      ensures r == if Admissible(q) && old(count) < MAX then Handle(old(count) - 1) else Null
    {
      hide Ok;
      hide Spells;
      CreateOk(Abs(), q, runnable);
      if !q.entry || q.stack == 0 {
        return Null;
      }
      var minimum := if q.partition then STACK_MIN else STACK_SIZE;
      if q.size < minimum || q.size < STACK_MIN || q.stack % 8 != 0 || count >= MAX || (!q.partition && !q.private) {
        return Null;
      }
      var i := count - 1;
      NotYetQueued(Abs());
      count := count + 1;
      cos[i] := cos[i].(state := if runnable then Runnable else Blocked, created := true);
      if runnable {
        Enqueue(i);
      }
      r := Handle(i);
    }

    method WakeCo(r: Ref) returns (panic: bool)
      requires Valid()
      modifies this, cos, next
      ensures Valid() && Abs() == Wake(old(Abs()), r)
      ensures panic <==> r != Null && !Known(old(Abs()), r)
    {
      WakeOk(Abs(), r);
      hide Spells;
      panic := false;
      if r.Null? {
        return;
      }
      if !r.Handle? || r.i >= MAX || !cos[r.i].created {
        return true;
      }
      var i := r.i;
      if cos[i].state == Runnable || cos[i].state == Running {
        cos[i] := cos[i].(wake := true);
        return;
      }
      if cos[i].state == Faulted {
        return;
      }
      assert i !in queue;
      hide Ok;
      cos[i] := cos[i].(wake := false, state := Runnable);
      Enqueue(i);
    }

    method FaultCo(r: Ref)
      requires Valid()
      modifies this, cos, next
      ensures Valid() && Abs() == MarkFaulted(old(Abs()), r)
    {
      hide Spells;
      hide Ok;
      hide Drop;
      DetachOk(Abs(), r);
      if !r.Handle? || r.i >= MAX || !cos[r.i].created {
        return;
      }
      Unlink(r.i);
      cos[r.i] := cos[r.i].(state := Faulted);
      if current == r.i {
        current := NIL;
      }
    }

    method RestartCo(r: Ref) returns (ret: int)
      requires Valid()
      modifies this, cos, next
      ensures Valid() && Abs() == Reinit(old(Abs()), r)
      ensures ret == if Known(old(Abs()), r) then 0 else -1
    {
      hide Spells;
      hide Ok;
      hide Drop;
      DetachOk(Abs(), r);
      if !r.Handle? || r.i >= MAX || !cos[r.i].created {
        return -1;
      }
      Unlink(r.i);
      if current == r.i {
        current := NIL;
      }
      cos[r.i] := cos[r.i].(state := Blocked, wake := false);
      ret := 0;
    }

    method Perform(call: Api)
      requires Valid()
      modifies this, cos, next
      ensures Valid() && Abs() == Apply(old(Abs()), call)
    {
      hide Sound;
      hide Ok;
      match call
      case DoCreate(q, runnable) => var _ := CreateSlot(q, runnable);
      case DoWake(r) => var _ := WakeCo(r);
      case DoFault(r) => FaultCo(r);
      case DoReinit(r) => var _ := RestartCo(r);
    }

    method PerformAll(calls: seq<Api>)
      requires Valid()
      modifies this, cos, next
      ensures Valid() && Abs() == ApplyAll(old(Abs()), calls)
    {
      SoundSizes();
      hide Sound;
      hide Ok;
      hide Apply;
      ghost var s := Abs();
      var n := 0;
      assert calls[0..] == calls;
      while n < |calls|
        invariant 0 <= n <= |calls| && Valid() && cos.Length == MAX && count >= 1
        invariant ApplyAll(s, calls) == ApplyAll(Abs(), calls[n..])
      {
        assert calls[n..][0] == calls[n] && calls[n..][1..] == calls[n + 1..];
        Perform(calls[n]);
        SoundSizes();
        n := n + 1;
      }
    }

    lemma SoundSizes()
      requires Sound()
      ensures cos.Length == MAX && next.Length == MAX && count >= 1
    {
    }

    /** The three ways a turn ends, and the switch back to the bootstrap context. */
    method EndTurn(end: Ending)
      requires Valid() && OnCpu(Abs())
      modifies this, cos, next
      ensures Valid() && Abs() == End(old(Abs()), end)
    {
      hide Spells;
      hide Ok;
      hide Drop;
      EndOk(Abs(), end);
      if current != NIL {
        var i := current;
        match end {
          case Blocks => cos[i] := cos[i].(state := Blocked);
          case Preempted =>
            if cos[i].state == Running {
              cos[i] := cos[i].(state := Runnable);
            }
          case Faults => FaultCo(Handle(i));
        }
      }
      current := NIL;
    }

    /** Gives coroutine i the processor for one turn. */
    method SwitchTo(i: nat, turn: Turn)
      requires Sound() && Ok(Abs()) && current == NIL && i < MAX && cos[i].created && i !in queue
      modifies this, cos, next
      ensures Valid() && current == NIL && Abs() == Switch(old(Abs()), i, turn)
    {
      ghost var s := Abs();
      SwitchOk(s, i, turn);
      hide Spells;
      current := i;
      cos[i] := cos[i].(state := Running);
      ghost var s1 := SetCo(s, i, s.cos[i].(state := Running)).(current := Some(i));
      assert Abs() == s1;
      assert Ok(s1);
      ApplyAllOnCpu(s1, turn.calls);
      hide Ok;
      hide Sound;
      hide ApplyAll;
      PerformAll(turn.calls);
      EndTurn(turn.end);
    }

    method RunCo(r: Ref, turn: Turn) returns (ran: bool, panic: bool)
      requires Valid()
      modifies this, cos, next
      ensures Valid() && Abs() == RunOne(old(Abs()), r, turn)
      ensures ran <==> old(current) == NIL && Known(old(Abs()), r) && old(Abs()).cos[r.i].state == Runnable
      ensures panic <==> old(current) == NIL && r != Null && !Known(old(Abs()), r)
    {
      ran, panic := false, false;
      if r.Null? || current != NIL {
        return;
      }
      if !r.Handle? || r.i >= MAX || !cos[r.i].created {
        return false, true;
      }
      if cos[r.i].state != Runnable {
        return;
      }
      DequeueOk(Abs(), r.i);
      hide Spells;
      hide Drop;
      hide Switch;
      Unlink(r.i);
      SwitchTo(r.i, turn);
      ran := true;
    }

    /** One switch of a tick: the head of the queue gets its turn. */
    method TickOnce(turn: Turn) returns (ran: bool)
      requires Valid() && current == NIL
      modifies this, cos, next
      ensures Valid() && current == NIL && cos.Length == MAX && count >= 1
      ensures ran == (old(queue) != [])
      ensures if old(queue) == [] then Abs() == old(Abs())
              else old(queue[0]) < MAX && Abs() == Switch(old(Abs()).(queue := old(queue[1..])), old(queue[0]), turn)
    {
      hide Ok;
      hide Spells;
      hide Switch;
      ghost var before := Abs();
      if queue != [] {
        HeadLeaves(before);
      }
      var i := Dequeue();
      ran := i != NIL;
      if ran {
        assert Abs() == before.(queue := before.queue[1..]);
        SwitchTo(i, turn);
      }
    }

    method TickLoop(budget: nat, turns: seq<Turn>) returns (switches: nat)
      requires Valid() && current == NIL && cos.Length == MAX && count >= 1
      modifies this, cos, next
      ensures Valid() && Abs() == Tick(old(Abs()), budget, turns)
      ensures switches <= budget && (switches < budget ==> queue == [])
    {
      hide Sound;
      hide Ok;
      hide Switch;
      hide Tick;
      ghost var s := Abs();
      switches := 0;
      var rest, ran := turns, true;
      while switches < budget && ran
        invariant switches <= budget && Valid() && current == NIL && cos.Length == MAX && count >= 1
        invariant Tick(s, budget, turns) == Tick(Abs(), budget - switches, rest)
        invariant !ran ==> queue == []
        decreases budget - switches, ran
      {
        TickNext(Abs(), budget - switches, rest);
        ran := TickOnce(if rest == [] then IDLE_TURN else rest[0]);
        if ran {
          rest := if rest == [] then [] else rest[1..];
          switches := switches + 1;
        }
      }
      TickNext(Abs(), budget - switches, rest);
    }

    method TickAll(budget: nat, turns: seq<Turn>) returns (switches: nat)
      requires Valid()
      modifies this, cos, next
      ensures Valid() && Abs() == Tick(old(Abs()), budget, turns)
      ensures switches <= budget && (old(current) == NIL && switches < budget ==> queue == [])
      ensures old(current) != NIL ==> switches == 0
    {
      switches := 0;
      if current == NIL {
        switches := TickLoop(budget, turns);
      }
    }

    /** Any run of the scheduler, carried out on the stored table. */
    method RunSteps(run: seq<Step>)
      requires Valid() && current == NIL
      modifies this, cos, next
      ensures Valid() && current == NIL && Abs() == Run(old(Abs()), run)
    {
      SoundSizes();
      hide Sound;
      hide Ok;
      hide Do;
      ghost var s := Abs();
      var n := 0;
      assert run[0..] == run;
      while n < |run|
        invariant 0 <= n <= |run| && Valid() && current == NIL && cos.Length == MAX && count >= 1
        invariant Run(s, run) == Run(Abs(), run[n..])
      {
        assert run[n..][0] == run[n] && run[n..][1..] == run[n + 1..];
        StepOnce(run[n]);
        SoundSizes();
        n := n + 1;
      }
    }

    method StepOnce(step: Step)
      requires Valid() && current == NIL && cos.Length == MAX && count >= 1
      modifies this, cos, next
      ensures Valid() && current == NIL && Abs() == Do(old(Abs()), step)
    {
      hide Sound;
      hide Ok;
      DoOk(Abs(), step);
      match step {
        case Call(call) => Perform(call);
        case RunStep(r, turn) => var _, _ := RunCo(r, turn);
        case TickStep(budget, turns) => var _ := TickAll(budget, turns);
      }
    }
  }

  lemma HeadLeaves(s: Sched)
    requires Ok(s) && s.queue != []
    ensures Ok(s.(queue := s.queue[1..])) && s.queue[0] !in s.queue[1..] && s.queue[0] < MAX && s.cos[s.queue[0]].created
  {
  }

  lemma NotYetQueued(s: Sched)
    requires Ok(s) && s.count < MAX
    ensures s.count - 1 !in s.queue
  {
  }

  lemma TickNext(s: Sched, budget: nat, turns: seq<Turn>)
    requires |s.cos| == MAX && s.count >= 1 && Ok(s) && s.current.None?
    ensures budget == 0 || s.queue == [] ==> Tick(s, budget, turns) == s
    ensures budget > 0 && s.queue != [] ==>
              && s.queue[0] < MAX
              && Tick(s, budget, turns) ==
                   Tick(Switch(s.(queue := s.queue[1..]), s.queue[0], if turns == [] then IDLE_TURN else turns[0]),
                        budget - 1, if turns == [] then [] else turns[1..])
  {
  }
}
