/**
  The IPC runtime as it is stored: fixed arrays of connections, messages, service
  queues and partitions, updated in place.  Every operation is proved to take the
  abstract state where the state machine of IpcModel takes it.
  */
module RuntimeStore {
  import opened Bits
  import opened Handles
  import opened IpcModel
  import opened IpcInvariant
  import opened IpcPreserve
  import opened IpcFaults
  import opened IpcRuns
  import opened IpcTraces
  import opened IpcSync
  import opened RuntimeRep
  import opened Buffers

  lemma InvFacts(c: Config, st: Ipc)
    requires Inv(c, st)
    ensures Shape(c, st) && Linked(st) && QueueRange(st)
  {
    InvGives(c, st);
  }

  /** A message that is not waiting for delivery is in no queue. */
  lemma OnlyQueuedIsQueued(c: Config, st: Ipc, i: nat)
    requires Inv(c, st) && i < |st.msgs| && st.msgs[i].phase != Queued
    ensures forall s :: 0 <= s < |st.queues| ==> i !in st.queues[s]
  {
    forall s | 0 <= s < |st.queues| ensures i !in st.queues[s] {
      assert !ServedBy(c, s, 0) && QueueOk(c, st, s);
    }
  }

  /** Opening a connection is one connection update and one submission. */
  lemma OpenIsPlace(c: Config, st: Ipc, k: nat, i: nat, caller: int, s: nat, handle: int)
    requires Shape(c, st) && k < |st.conns| && i < |st.msgs| && s < |c.services|
    ensures var conn := Conn(PendingConnect, caller, st.conns[k].gen, CallerInstance(c, st, caller),
                             st.conns[k].rhandle, s, false);
            var m := Msg(Queued, caller, 0, st.msgs[i].gen, k, s, IPC_CONNECT, [], [], Kept);
            OpenConnection(c, st, k, i, caller, s, handle) == Placed(c, SetConn(st, k, conn), i, m, handle)
  {
    var conn := Conn(PendingConnect, caller, st.conns[k].gen, CallerInstance(c, st, caller),
                     st.conns[k].rhandle, s, false);
    assert st.conns[k := conn][k := conn] == st.conns[k := conn];
  }

  /** Message m fills slot i, joins its service's queue, and its caller waits for it. */
  ghost function Placed(c: Config, st: Ipc, i: nat, m: Msg, handle: int): Ipc
    requires ConfigOk(c) && i < |st.msgs| && m.service < |c.services| == |st.queues|
    requires |st.signals| == |c.partitions|
  {
    var e := Enqueue(c, SetMsg(st, i, m), m.service, i);
    e.(pending := e.pending[m.caller := Pend(i, handle)])
  }

  /** No partition has id 0, so failing it fails nothing. */
  lemma {:induction false} FailNone(c: Config, st: Ipc, status: int, n: nat)
    requires Shape(c, st) && n <= |st.msgs|
    ensures FailMsgs(c, st, 0, status, n) == st
  {
    if n > 0 {
      FailNone(c, st, status, n - 1);
    }
  }

  lemma {:induction false} DrainNone(c: Config, st: Ipc, n: nat)
    requires Shape(c, st) && n <= |c.services|
    ensures DrainQueues(c, st, 0, n) == st
  {
    if n > 0 {
      DrainNone(c, st, n - 1);
    }
  }

  lemma {:induction false} DropNone(c: Config, st: Ipc, n: nat)
    requires Shape(c, st) && n <= |st.conns|
    ensures FailConns(c, st, 0, n) == st
  {
    if n > 0 {
      DropNone(c, st, n - 1);
    }
  }

  lemma FailNext(c: Config, st: Ipc, pid: int, status: int, n: nat)
    requires Shape(c, st) && n < |st.msgs|
    ensures FailMsgs(c, st, pid, status, 0) == st
    ensures FailMsgs(c, st, pid, status, n + 1) == FailMsg(c, FailMsgs(c, st, pid, status, n), pid, status, n)
    ensures FailMsgs(c, st, pid, status, n).msgs[n] == st.msgs[n]
  {
    FailMsgsEffect(c, st, pid, status, n);
  }

  lemma CountNext(c: Config, st: Ipc, pid: int, n: nat)
    requires Shape(c, st) && n < |st.msgs|
    ensures ConfigOk(c) && forall i :: 0 <= i < |st.msgs| && st.msgs[i].phase != Unused ==> st.msgs[i].service < |c.services|
    ensures FailedCount(c, st.msgs, pid, 0) == 0
    ensures FailedCount(c, st.msgs, pid, n + 1) ==
              FailedCount(c, st.msgs, pid, n) + if InFlight(st.msgs[n]) && ServedBy(c, st.msgs[n].service, pid) then 1 else 0
  {
  }

  lemma DrainStart(c: Config, st: Ipc, pid: int)
    requires Shape(c, st)
    ensures DrainQueues(c, st, pid, 0) == st
  {
  }

  lemma DrainNext(c: Config, st: Ipc, pid: int, n: nat)
    requires Shape(c, st) && n < |c.services|
    ensures DrainQueues(c, st, pid, n + 1) ==
              var r := DrainQueues(c, st, pid, n);
              if ServedBy(c, n, pid) then SetQueue(c, r, n, []) else r
  {
  }

  lemma DropNext(c: Config, st: Ipc, caller: int, n: nat)
    requires Shape(c, st) && n < |st.msgs|
    ensures DropMsgs(c, st, caller, n + 1) == DropMsg(c, DropMsgs(c, st, caller, n), caller, n)
  {
  }

  /** While a client's requests are dropped, the queues keep holding only undelivered requests. */
  lemma DroppedQueuesExact(c: Config, st: Ipc, caller: int, n: nat)
    requires Shape(c, st) && InvExcept(c, st, 0, caller) && caller !in st.pending && n < |st.msgs|
    ensures var r := DropMsgs(c, st, caller, n);
            |r.queues| == |c.services| && (r.msgs[n].phase != Queued ==> forall s :: 0 <= s < |r.queues| ==> n !in r.queues[s])
  {
    DropMsgsInv(c, st, caller, n);
    var r := DropMsgs(c, st, caller, n);
    hide DropMsgs;
    if r.msgs[n].phase != Queued {
      forall s | 0 <= s < |r.queues| ensures n !in r.queues[s] {
        assert !ServedBy(c, s, 0) && QueueOk(c, r, s);
      }
    }
  }

  lemma FailKeepsInv(c: Config, st: Ipc, pid: int, status: int)
    requires Shape(c, st) && Inv(c, st)
    ensures Inv(c, FailPartition(c, st, pid, status))
  {
    if pid != 0 {
      FailPartitionInv(c, st, pid, status);
    } else {
      FailNone(c, st, status, |st.msgs|);
      DrainNone(c, st, |c.services|);
      DropNone(c, st, |st.conns|);
    }
  }

  lemma RestartFacts(c: Config, st: Ipc, pid: int, status: int)
    requires Inv(c, st)
    ensures Shape(c, st) && Inv(c, Restarted(c, st, pid, status))
  {
    RestartedInv(c, st, pid, status);
  }

  lemma NotFoundStays(c: Config, st: Ipc, pid: int, status: int)
    requires Inv(c, st) && FindPartition(c, pid).None?
    ensures Shape(c, st) && Restarted(c, st, pid, status) == st
  {
  }

  lemma NotifyInv(c: Config, st: Ipc, pid: int)
    requires Inv(c, st)
    ensures Shape(c, st) && Inv(c, Notify(c, st, pid).st)
  {
    InvFacts(c, st);
    SignalStepInv(c, st, DoNotify(pid));
  }

  lemma ClearInv(c: Config, st: Ipc, pid: int)
    requires Inv(c, st)
    ensures Shape(c, st) && Inv(c, ClearDoorbell(c, st, pid).st)
  {
    InvFacts(c, st);
    SignalStepInv(c, st, DoClear(pid));
  }

  lemma EoiInv(c: Config, st: Ipc, pid: int, signal: Word)
    requires Inv(c, st)
    ensures Shape(c, st) && Inv(c, EndOfInterrupt(c, st, pid, signal).st)
  {
    InvFacts(c, st);
    SignalStepInv(c, st, DoEndOfInterrupt(pid, signal));
  }

  lemma RaiseInv(c: Config, st: Ipc, pid: int, signal: Word)
    requires Inv(c, st)
    ensures Shape(c, st) && Inv(c, AssertIrq(c, st, pid, signal).st)
  {
    InvFacts(c, st);
    SignalStepInv(c, st, DoAssertIrq(pid, signal));
  }

  /** A request whose dispatch is over names a connection, and is in no queue once delivered. */
  lemma FinishFacts(c: Config, st: Ipc, i: nat)
    requires Inv(c, st) && Awaited(st, i)
    ensures Shape(c, st) && st.msgs[i].conn < |st.conns| && st.msgs[i].service < |c.services|
    ensures st.msgs[i].phase != Queued ==> forall s :: 0 <= s < |st.queues| ==> i !in st.queues[s]
  {
    if st.msgs[i].phase != Queued {
      OnlyQueuedIsQueued(c, st, i);
    }
  }

  lemma FailedReturn(c: Config, st: Ipc, i: nat, ret: int)
    requires Shape(c, st) && i < |st.msgs| && st.msgs[i].phase != Unused && ret != SUCCESS
    ensures CallReturn(c, st, i, ret).ret == GENERIC_ERROR && CallReturn(c, st, i, ret).lens == []
  {
  }

  /** What a waiting client may assume when its step is enabled. */
  lemma WaitFacts(c: Config, st: Ipc, x: int)
    requires Inv(c, st) && x in st.pending
    ensures Awaited(st, st.pending[x].msg)
  {
    WaitedIsAwaited(c, st, x);
  }

  lemma SignalApplies(c: Config, st: Ipc, step: Step)
    requires Takes(c, st, step)
    ensures match step
            case DoNotify(p) => Apply(c, st, step) == Notify(c, st, p).st
            case DoClear(p) => Apply(c, st, step) == ClearDoorbell(c, st, p).st
            case DoEndOfInterrupt(p, signal) => Apply(c, st, step) == EndOfInterrupt(c, st, p, signal).st
            case DoAssertIrq(p, signal) => Apply(c, st, step) == AssertIrq(c, st, p, signal).st
            case DoEnvironment(e) => Apply(c, st, step) == st.(env := e)
            case _ => true
  {
    hide Notify;
    hide ClearDoorbell;
    hide EndOfInterrupt;
    hide AssertIrq;
  }

  /** What the dispatcher reports after the partition returned result. */
  function DispatchResult(complete: bool, result: int): int {
    if result != SUCCESS then result else if !complete then FFM_NOT_READY else SUCCESS
  }

  class Runtime {
    const c: Config
    const conns: array<Conn>
    const msgs: array<Message>
    const heads: array<Queue>
    const parts: array<Part>
    var env: Env
    ghost var queues: seq<seq<nat>>
    var pending: map<int, Pend>

    ghost function Abs(): Ipc
      reads this, conns, msgs, parts
    {
      AbsOf(conns[..], msgs[..], queues, parts[..], env, pending)
    }

    ghost predicate Sizes()
    {
      && ConfigOk(c) && c.transferLimit > 0
      && 0 < conns.Length <= MAX_SLOTS && 0 < msgs.Length <= MAX_SLOTS
      && heads.Length == |c.services| && parts.Length == |c.partitions|
    }

    /** The representation: slots are well formed and links spell the queues, partition skip exempt. */
    ghost predicate Sound(skip: int)
      reads this`queues, msgs, heads
    {
      && Sizes()
      && (forall i :: 0 <= i < msgs.Length ==> SlotOk(msgs[i], c.transferLimit))
      && AllSpell(c, msgs[..], heads[..], queues, skip)
    }

    ghost predicate Valid()
      reads this, conns, msgs, heads, parts
    {
      Sound(0) && Inv(c, Abs())
    }

    /** Message i is in no queue that must be spelled. */
    ghost predicate Loose(i: nat, skip: int)
      requires Sizes() && i < msgs.Length
      reads this, msgs
    {
      var s := msgs[i].service;
      s < |queues| && s < |c.services| && !ServedBy(c, s, skip) ==> i !in queues[s]
    }

    constructor (config: Config, connSlots: nat, msgSlots: nat, memory: Env)
      requires ConfigOk(config) && config.transferLimit > 0
      requires 0 < connSlots <= MAX_SLOTS && 0 < msgSlots <= MAX_SLOTS
      ensures Valid() && c == config && Abs() == InitState(config, connSlots, msgSlots, memory)
      ensures fresh(conns) && fresh(msgs) && fresh(heads) && fresh(parts)
    {
      c := config;
      env := memory;
      conns := new Conn[connSlots](_ => FreeConn(1));
      msgs := new Message[msgSlots](_ => Blank(1, config.transferLimit));
      heads := new Queue[|config.services|](_ => Queue(NONE, NONE));
      parts := new Part[|config.partitions|](_ => Part({}, 0));
      queues := seq(|config.services|, _ => []);
      pending := map[];
      new;
      BlankIsFree(1, config.transferLimit);
      InitInv(config, connSlots, msgSlots, memory);
      assert Abs() == InitState(config, connSlots, msgSlots, memory);
    }

    // -------------------------------------------------------------- slots

    /** A slot is well formed and stands for its abstract message. */
    lemma SlotFacts(i: nat)
      requires Sound(0)
      ensures Sizes() && |queues| == |c.services|
      ensures i < msgs.Length ==> SlotOk(msgs[i], c.transferLimit) && Abs().msgs[i] == AbsMsg(msgs[i])
    {
    }

    method PutConn(k: nat, v: Conn)
      requires Sizes() && k < conns.Length
      modifies conns
      ensures conns[..] == old(conns[..])[k := v]
      ensures Abs() == SetConn(old(Abs()), k, v)
    {
      conns[k] := v;
    }

    method PutMsg(i: nat, v: Message, ghost skip: int)
      requires Sound(skip) && i < msgs.Length && SlotOk(v, c.transferLimit)
      requires (v.next == msgs[i].next && v.service == msgs[i].service && v.used == msgs[i].used) || Loose(i, skip)
      modifies msgs
      ensures Sound(skip) && msgs[..] == old(msgs[..])[i := v]
      ensures Abs() == SetMsg(old(Abs()), i, AbsMsg(v))
    {
      ghost var ms := msgs[..];
      msgs[i] := v;
      assert msgs[..] == ms[i := v];
      forall s | 0 <= s < |c.services| && !ServedBy(c, s, skip) ensures Spells(msgs[..], heads[s], queues[s], s) {
        assert Spells(ms, heads[s], queues[s], s);
        ElsewhereSpells(ms, msgs[..], heads[s], queues[s], s);
      }
    }

    /** Takes the first free message slot. */
    method FindFreeMessage() returns (i: nat)
      requires Sizes()
      ensures i == FreeMsgFrom(Abs().msgs, 0)
    {
      i := 0;
      while i < msgs.Length && msgs[i].used
        invariant 0 <= i <= msgs.Length
        invariant FreeMsgFrom(Abs().msgs, 0) == FreeMsgFrom(Abs().msgs, i)
      {
        i := i + 1;
      }
    }

    method FindFreeConnection() returns (k: nat)
      requires Sizes()
      ensures k == FreeConnFrom(Abs().conns, 0)
    {
      k := 0;
      while k < conns.Length && conns[k].state != Free
        invariant 0 <= k <= conns.Length
        invariant FreeConnFrom(Abs().conns, 0) == FreeConnFrom(Abs().conns, k)
      {
        k := k + 1;
      }
    }

    method ReleaseMessage(i: nat, ghost skip: int)
      requires Sound(skip) && i < msgs.Length && Loose(i, skip)
      modifies msgs
      ensures Sound(skip) && msgs[..] == old(msgs[..])[i := Blank(NextGeneration(old(msgs[i].gen)), c.transferLimit)]
      ensures Abs() == ReleaseMsg(old(Abs()), i)
    {
      var gen := NextGeneration(msgs[i].gen);
      BlankIsFree(gen, c.transferLimit);
      PutMsg(i, Blank(gen, c.transferLimit), skip);
    }

    method ReleaseConnection(k: nat)
      requires Sizes() && k < conns.Length
      modifies conns
      ensures conns[..] == old(conns[..])[k := FreeConn(NextGeneration(old(conns[k].gen)))]
      ensures Abs() == ReleaseConn(old(Abs()), k)
    {
      PutConn(k, FreeConn(NextGeneration(conns[k].gen)));
    }

    // -------------------------------------------------------------- queues

    method UpdateSignal(s: nat)
      requires Sizes() && s < heads.Length
      modifies parts
      ensures var p, st := c.services[s].partition, old(Abs());
              Abs() == st.(signals := st.signals[p := Assign(st.signals[p], c.services[s].signal, heads[s].head != NONE)])
    {
      var p := c.services[s].partition;
      if heads[s].head == NONE {
        parts[p] := parts[p].(signals := parts[p].signals - c.services[s].signal);
      } else {
        parts[p] := parts[p].(signals := parts[p].signals + c.services[s].signal);
      }
    }

    /** Puts message i at the end of queue s, links and ghost queue alike. */
    method Link(s: nat, i: nat)
      requires Sound(0) && s < heads.Length && i < msgs.Length && i !in queues[s]
      requires msgs[i].used && msgs[i].service == s && msgs[i].next == NONE
      modifies this`queues, msgs, heads
      ensures Sound(0) && Abs() == old(Abs()).(queues := queues) && heads[s].head != NONE
      ensures queues == old(queues)[s := old(queues[s]) + [i]]
    {
      ghost var ms, hs, q := msgs[..], heads[..], queues[s];
      assert !ServedBy(c, s, 0) && Spells(ms, heads[s], q, s);
      hide AllSpell;
      hide Spells;
      hide SlotOk;
      LinkTail(s, i);
      OthersSpell(c, ms, hs, queues, s, msgs[..], heads[s], q + [i], 0);
      RelinkedKeeps(ms, msgs[..], s, c.transferLimit);
      queues := queues[s := q + [i]];
    }

    method Append(s: nat, i: nat)
      requires Sound(0) && s < heads.Length && i < msgs.Length && i !in queues[s]
      requires msgs[i].used && msgs[i].service == s && msgs[i].next == NONE
      modifies this`queues, msgs, heads, parts
      ensures Sound(0) && Abs() == Enqueue(c, old(Abs()), s, i)
    {
      hide Sound;
      SlotFacts(i);
      Link(s, i);
      UpdateSignal(s);
    }

    /** The pointer updates of an enqueue. */
    method LinkTail(s: nat, i: nat)
      requires Sizes() && s < heads.Length && i < msgs.Length && s < |queues| && i !in queues[s]
      requires Spells(msgs[..], heads[s], queues[s], s)
      requires msgs[i].used && msgs[i].service == s && msgs[i].next == NONE
      modifies msgs, heads
      ensures Spells(msgs[..], heads[s], queues[s] + [i], s) && heads[s].head != NONE
      ensures heads[..] == old(heads[..])[s := heads[s]]
      ensures Relinked(old(msgs[..]), msgs[..], s)
    {
      ghost var ms, h := msgs[..], heads[s];
      if heads[s].tail == NONE {
        heads[s] := heads[s].(head := i);
      } else {
        msgs[heads[s].tail] := msgs[heads[s].tail].(next := i);
      }
      heads[s] := heads[s].(tail := i);
      PushSpells(ms, h, queues[s], s, i, msgs[..]);
    }

    /** Unlinks entry n of queue s, which previous points at. */
    method CutAt(s: nat, current: nat, previous: nat, ghost n: nat)
      requires Sizes() && s < heads.Length && s < |queues| && n < |queues[s]|
      requires Spells(msgs[..], heads[s], queues[s], s)
      requires current == queues[s][n] && previous == if n == 0 then NONE else queues[s][n - 1]
      modifies msgs, heads
      ensures Spells(msgs[..], heads[s], Cut(queues[s], n), s)
      ensures heads[..] == old(heads[..])[s := heads[s]]
      ensures Relinked(old(msgs[..]), msgs[..], s)
    {
      ghost var q, ms, h := queues[s], msgs[..], heads[s];
      CutFacts(ms, h, q, s, n);
      hide Spells;
      hide Relinked;
      var next := msgs[current].next;
      var head, tail := heads[s].head, heads[s].tail;
      if previous == NONE {
        head := next;
      } else {
        msgs[previous] := msgs[previous].(next := next);
      }
      if tail == current {
        tail := previous;
      }
      heads[s] := Queue(head, tail);
      ghost var ms1 := msgs[..];
      assert ms1 == if n == 0 then ms else ms[q[n - 1] := ms[q[n - 1]].(next := ms[q[n]].next)];
      msgs[current] := msgs[current].(next := NONE);
      CutSpells(ms, h, q, s, n, ms1, msgs[..]);
    }

    /** Walks queue s to message i and unlinks it; an absent message changes nothing. */
    method Splice(s: nat, i: nat)
      requires Sizes() && s < heads.Length && i < NONE && s < |queues|
      requires Spells(msgs[..], heads[s], queues[s], s)
      modifies msgs, heads
      ensures Spells(msgs[..], heads[s], Without(queues[s], i), s)
      ensures heads[..] == old(heads[..])[s := heads[s]]
      ensures Relinked(old(msgs[..]), msgs[..], s)
    {
      ghost var q, ms, hs := queues[s], msgs[..], heads[..];
      ghost var n := 0;
      HeadTellsEmpty(ms, heads[s], q, s);
      NothingRelinked(ms, s);
      hide Spells;
      hide Relinked;
      hide Without;
      var current, previous := heads[s].head, NONE;
      while current != NONE && current != i
        invariant 0 <= n <= |q|
        invariant current == if n < |q| then q[n] else NONE
        invariant previous == if n == 0 then NONE else q[n - 1]
        invariant i !in q[..n]
        invariant msgs[..] == ms && heads[..] == hs
        decreases |q| - n
      {
        SpelledNext(ms, hs[s], q, s, n);
        assert q[..n + 1] == q[..n] + [current];
        previous := current;
        current := msgs[current].next;
        n := n + 1;
      }
      if current != NONE {
        SpelledNext(ms, hs[s], q, s, n);
        WithoutIsCut(q, n);
        CutAt(s, current, previous, n);
      } else {
        assert q[..n] == q;
        WithoutAbsent(q, i);
      }
    }

    /** Takes message i out of queue s, links and ghost queue alike. */
    method Unlink(s: nat, i: nat)
      requires Sound(0) && s < heads.Length && i < msgs.Length
      modifies this`queues, msgs, heads
      ensures Sound(0) && Abs() == old(Abs()).(queues := queues)
      ensures queues == old(queues)[s := Without(old(queues[s]), i)]
    {
      hide Spells;
      hide Without;
      hide SlotOk;
      ghost var ms, hs, q := msgs[..], heads[..], queues[s];
      assert !ServedBy(c, s, 0) && Spells(ms, heads[s], q, s);
      hide AllSpell;
      Splice(s, i);
      OthersSpell(c, ms, hs, queues, s, msgs[..], heads[s], Without(q, i), 0);
      RelinkedKeeps(ms, msgs[..], s, c.transferLimit);
      queues := queues[s := Without(q, i)];
    }

    method Remove(s: nat, i: nat)
      requires Sound(0) && s < heads.Length && i < msgs.Length
      modifies this`queues, msgs, heads, parts
      ensures Sound(0) && Abs() == Unqueue(c, old(Abs()), s, i) && i !in queues[s]
    {
      assert !ServedBy(c, s, 0);
      WithoutLeaves(queues[s], i);
      Unlink(s, i);
      HeadTellsEmpty(msgs[..], heads[s], queues[s], s);
      hide AllSpell;
      hide Spells;
      hide Without;
      hide SlotOk;
      UpdateSignal(s);
    }

    /** Fills a free slot with a request and queues it. */
    method Place(i: nat, v: Message, handle: int)
      requires Sound(0) && i < msgs.Length && Loose(i, 0) && SlotOk(v, c.transferLimit)
      requires v.used && v.next == NONE && v.service < heads.Length && i !in queues[v.service]
      modifies this`queues, this`pending, msgs, heads, parts
      ensures Sound(0) && Abs() == Placed(c, old(Abs()), i, AbsMsg(v), handle)
    {
      PutMsg(i, v, 0);
      hide AllSpell;
      hide SlotOk;
      Append(v.service, i);
      pending := pending[v.caller := Pend(i, handle)];
    }

    // -------------------------------------------------------------- lookups

    method LookupPartition(id: int) returns (r: Option<nat>)
      ensures r == FindPartition(c, id)
    {
      if id <= 0 {
        return None;
      }
      var i := 0;
      while i < |c.partitions|
        invariant 0 <= i <= |c.partitions|
        invariant PartitionFrom(c.partitions, id, 0) == PartitionFrom(c.partitions, id, i)
      {
        if c.partitions[i].id == id {
          return Some(i);
        }
        i := i + 1;
      }
      r := None;
    }

    method LookupService(sid: nat) returns (r: Option<nat>)
      ensures r == FindService(c, sid)
    {
      if sid == 0 {
        return None;
      }
      var i := 0;
      while i < |c.services|
        invariant 0 <= i <= |c.services|
        invariant ServiceFrom(c.services, sid, 0) == ServiceFrom(c.services, sid, i)
      {
        if c.services[i].sid == sid {
          return Some(i);
        }
        i := i + 1;
      }
      r := None;
    }

    method InstanceOfCaller(caller: int) returns (r: nat)
      requires Sizes()
      ensures r == CallerInstance(c, Abs(), caller)
    {
      var p := LookupPartition(caller);
      if p.None? {
        return 0;
      }
      r := parts[p.value].instance;
    }

    method CountClient(caller: int) returns (n: nat)
      ensures n == ClientCount(Abs().conns, caller)
    {
      n := 0;
      var i := 0;
      while i < conns.Length
        invariant 0 <= i <= conns.Length && n == ClientCount(conns[..i], caller)
      {
        assert conns[..i + 1][..i] == conns[..i];
        if conns[i].state != Free && conns[i].caller == caller {
          n := n + 1;
        }
        i := i + 1;
      }
      assert conns[..i] == conns[..];
    }

    method CountNonsecure() returns (n: nat)
      ensures n == NonsecureCount(Abs().conns)
    {
      n := 0;
      var i := 0;
      while i < conns.Length
        invariant 0 <= i <= conns.Length && n == NonsecureCount(conns[..i])
      {
        assert conns[..i + 1][..i] == conns[..i];
        if conns[i].state != Free && conns[i].caller < 0 {
          n := n + 1;
        }
        i := i + 1;
      }
      assert conns[..i] == conns[..];
    }

    method ConnectionFromHandle(caller: int, handle: int) returns (r: Found)
      requires Sizes()
      ensures r == ResolveConn(c, Abs(), caller, handle)
    {
      var slot := Decode(handle, CONNECTION, conns.Length);
      if slot.None? {
        return Refused(FFM_HANDLE);
      }
      var k := slot.value.index;
      if conns[k].state == Free || conns[k].gen != slot.value.gen {
        return Refused(FFM_HANDLE);
      }
      if conns[k].caller != caller {
        return Refused(FFM_POLICY);
      }
      var instance := InstanceOfCaller(caller);
      if conns[k].instance != instance {
        return Refused(FFM_HANDLE);
      }
      r := Found(k);
    }

    method MessageFromHandle(pid: int, handle: int) returns (r: Found)
      requires Sound(0) && Shape(c, Abs())
      ensures r == ResolveMsg(c, Abs(), pid, handle)
      ensures r.Found? ==> msgs[r.index].used && msgs[r.index].active && !msgs[r.index].complete
    {
      hide AllSpell;
      var slot := Decode(handle, MESSAGE, msgs.Length);
      if slot.None? {
        return Refused(FFM_HANDLE);
      }
      var m := msgs[slot.value.index];
      assert SlotOk(m, c.transferLimit) && Abs().msgs[slot.value.index] == AbsMsg(m);
      if !m.used || !m.active || m.gen != slot.value.gen {
        return Refused(FFM_HANDLE);
      }
      if c.partitions[c.services[m.service].partition].id != pid {
        return Refused(FFM_POLICY);
      }
      r := Found(slot.value.index);
    }

    // -------------------------------------------------------------- client: begin

    method BeginConnect(caller: int, sid: nat, version: nat) returns (ret: int, msg: Option<nat>)
      requires Valid() && caller !in pending
      modifies this`queues, this`pending, conns, msgs, heads, parts
      ensures Valid()
      ensures ClientRes(Abs(), ret, msg) == ConnectBegin(c, old(Abs()), caller, sid, version)
    {
      hide Shape;
      hide Inv;
      hide Sound;
      hide OpenConnection;
      hide ReleaseConn;
      ghost var st := Abs();
      SlotFacts(0);
      InvFacts(c, st);
      ConnectBeginInv(c, st, caller, sid, version);
      msg := None;
      if caller == 0 {
        return INVALID_ARGUMENT, msg;
      }
      var s := LookupService(sid);
      if s.None? || !CallerAllowed(c, caller, s.value) || !VersionAllowed(c.services[s.value], version) {
        return CONNECTION_REFUSED, msg;
      }
      if !c.services[s.value].connectionBased {
        return NOT_SUPPORTED, msg;
      }
      var own := CountClient(caller);
      if own >= c.perClient {
        return CONNECTION_BUSY, msg;
      }
      var nonsecure := CountNonsecure();
      if caller < 0 && nonsecure >= c.nonsecureLimit {
        return CONNECTION_BUSY, msg;
      }
      ret, msg := OpenSlots(caller, s.value);
    }

    /** The part of a connect that changes state: a connection slot, then a message slot, then the queue. */
    method OpenSlots(caller: int, s: nat) returns (ret: int, msg: Option<nat>)
      requires Sound(0) && Inv(c, Abs()) && Shape(c, Abs()) && s < |c.services|
      modifies this`queues, this`pending, conns, msgs, heads, parts
      ensures Sound(0)
      ensures var st := old(Abs());
              var k, i := FreeConnFrom(st.conns, 0), FreeMsgFrom(st.msgs, 0);
              if k == |st.conns| then Abs() == st && ret == CONNECTION_BUSY && msg == None
              else if i == |st.msgs| then Abs() == ReleaseConn(st, k) && ret == CONNECTION_BUSY && msg == None
              else
                && ret == Make(CONNECTION, k, st.conns[k].gen) && msg == Some(i)
                && Abs() == OpenConnection(c, st, k, i, caller, s, ret)
    {
      hide Inv;
      hide Sound;
      hide NextGeneration;
      hide OpenConnection;
      ghost var st := Abs();
      SlotFacts(0);
      msg := None;
      var k := FindFreeConnection();
      if k == conns.Length {
        return CONNECTION_BUSY, msg;
      }
      var i := FindFreeMessage();
      if i == msgs.Length {
        ReleaseConnection(k);
        return CONNECTION_BUSY, msg;
      }
      ret := Make(CONNECTION, k, conns[k].gen);
      FillConnect(k, i, caller, s, ret);
      msg := Some(i);
    }

    /** Records the new connection and queues its connect request. */
    method FillConnect(k: nat, i: nat, caller: int, s: nat, handle: int)
      requires Sound(0) && Inv(c, Abs()) && Shape(c, Abs()) && s < |c.services| && k < conns.Length
      requires i < msgs.Length && !msgs[i].used
      modifies this`queues, this`pending, conns, msgs, heads, parts
      ensures Sound(0) && Abs() == OpenConnection(c, old(Abs()), k, i, caller, s, handle)
    {
      hide Inv;
      hide Sound;
      hide OpenConnection;
      ghost var st := Abs();
      SlotFacts(i);
      OnlyQueuedIsQueued(c, st, i);
      OpenIsPlace(c, st, k, i, caller, s, handle);
      var instance := InstanceOfCaller(caller);
      PutConn(k, Conn(PendingConnect, caller, conns[k].gen, instance, conns[k].rhandle, s, false));
      Place(i, msgs[i].(used := true, next := NONE, caller := caller, conn := k, service := s, kind := IPC_CONNECT), handle);
    }

    /** A programmer error on a connection: idle drops it now, busy latches it. */
    method Record(k: nat)
      requires Sizes() && k < conns.Length
      modifies conns
      ensures Abs() == RecordError(old(Abs()), k)
    {
      if conns[k].state == Idle {
        PutConn(k, conns[k].(state := Error));
      } else {
        PutConn(k, conns[k].(latch := true));
      }
    }

    method BeginCall(caller: int, handle: int, kind: int, ins: VecArg, outs: VecArg) returns (ret: int, msg: Option<nat>)
      requires Valid() && caller !in pending
      modifies this`queues, this`pending, conns, msgs, heads, parts
      ensures Valid()
      ensures ClientRes(Abs(), ret, msg) == CallBegin(c, old(Abs()), caller, handle, kind, ins, outs)
    {
      hide Inv;
      hide Sound;
      hide Shape;
      hide CallOn;
      ghost var st := Abs();
      SlotFacts(0);
      InvFacts(c, st);
      CallBeginInv(c, st, caller, handle, kind, ins, outs);
      msg := None;
      if caller == 0 {
        return INVALID_ARGUMENT, msg;
      }
      var r := ConnectionFromHandle(caller, handle);
      if r.Refused? {
        return PROGRAMMER_ERROR, msg;
      }
      ret, msg := BeginCallOn(r.index, caller, handle, kind, ins, outs);
    }

    method BeginCallOn(k: nat, caller: int, handle: int, kind: int, ins: VecArg, outs: VecArg)
      returns (ret: int, msg: Option<nat>)
      requires Sound(0) && Inv(c, Abs()) && Shape(c, Abs()) && k < conns.Length && conns[k].state != Free
      modifies this`queues, this`pending, conns, msgs, heads, parts
      ensures Sound(0)
      ensures ClientRes(Abs(), ret, msg) == CallOn(c, old(Abs()), k, caller, handle, kind, ins, outs)
    {
      hide Inv;
      hide Sound;
      hide Shape;
      hide VectorError;
      hide Submit;
      hide NextGeneration;
      SlotFacts(0);
      msg := None;
      if kind < 0 || |ins.vecs| > MAX_IOVEC || |outs.vecs| > MAX_IOVEC || |ins.vecs| + |outs.vecs| > MAX_IOVEC {
        Record(k);
        return PROGRAMMER_ERROR, msg;
      }
      if conns[k].state != Idle {
        PutConn(k, conns[k].(latch := true));
        return PROGRAMMER_ERROR, msg;
      }
      var i := FindFreeMessage();
      if i == msgs.Length {
        return INSUFFICIENT_MEMORY, msg;
      }
      ret := PlaceCall(k, i, caller, handle, kind, ins, outs);
      if ret == SUCCESS {
        msg := Some(i);
      }
    }

    /** Judges the vectors of a call and queues it, or gives the slot back. */
    method PlaceCall(k: nat, i: nat, caller: int, handle: int, kind: int, ins: VecArg, outs: VecArg) returns (ret: int)
      requires Sound(0) && Inv(c, Abs()) && Shape(c, Abs()) && k < conns.Length && conns[k].state == Idle
      requires i < msgs.Length && !msgs[i].used && |ins.vecs| + |outs.vecs| <= MAX_IOVEC
      modifies this`queues, this`pending, conns, msgs, heads, parts
      ensures Sound(0)
      ensures var st := old(Abs());
              var error := VectorError(c, env, caller, ins, outs);
              if error == FFM_BUFFER then Abs() == ReleaseMsg(st, i) && ret == INVALID_ARGUMENT
              else if error != SUCCESS then
                Abs() == SetConn(ReleaseMsg(st, i), k, st.conns[k].(state := Error)) && ret == PROGRAMMER_ERROR
              else
                && Abs() == Submit(c, st, k, i, caller, kind, Capture(env.memory, ins.vecs), Prepare(outs.vecs),
                                   PendingRequest, handle)
                && ret == SUCCESS
    {
      hide Inv;
      hide VectorError;
      hide Sound;
      hide NextGeneration;
      ghost var st := Abs();
      SlotFacts(i);
      OnlyQueuedIsQueued(c, st, i);
      var error, m := PrepareVectors(c, env, caller, msgs[i], ins, outs);
      if error != SUCCESS {
        ReleaseMessage(i, 0);
        if error != FFM_BUFFER {
          PutConn(k, conns[k].(state := Error));
        }
        return if error == FFM_BUFFER then INVALID_ARGUMENT else PROGRAMMER_ERROR;
      }
      PutConn(k, conns[k].(state := PendingRequest));
      Place(i, m.(used := true, next := NONE, caller := caller, conn := k, service := conns[k].service, kind := kind), handle);
      ret := SUCCESS;
    }

    method RefuseCall(caller: int, handle: int)
      requires Valid()
      modifies conns
      ensures Valid() && Abs() == CallRefuse(c, old(Abs()), caller, handle)
    {
      ghost var st := Abs();
      InvFacts(c, st);
      CallRefuseInv(c, st, caller, handle);
      hide Inv;
      if caller == 0 {
        return;
      }
      var r := ConnectionFromHandle(caller, handle);
      if r.Found? {
        Record(r.index);
      }
    }

    method FindAbandoned(k: nat) returns (r: Option<nat>)
      requires Sizes()
      ensures r == AbandonedOn(Abs().msgs, k, 0)
    {
      var i := 0;
      while i < msgs.Length
        invariant 0 <= i <= msgs.Length && AbandonedOn(Abs().msgs, k, 0) == AbandonedOn(Abs().msgs, k, i)
      {
        if msgs[i].used && msgs[i].abandon != Kept && msgs[i].conn == k {
          return Some(i);
        }
        i := i + 1;
      }
      r := None;
    }

    /** Closes a connection whose request was abandoned: its reply will disconnect it. */
    method CloseAbandoned(k: nat) returns (done: bool)
      requires Sound(0) && k < conns.Length
      modifies conns, msgs
      ensures Sound(0)
      ensures var j := AbandonedOn(old(Abs()).msgs, k, 0);
              && done == j.Some?
              && Abs() == if done then SetConn(SetMsg(old(Abs()), j.value, old(Abs()).msgs[j.value].(abandon := AwaitClose)),
                                               k, old(conns[k]).(state := Disconnecting))
                          else old(Abs())
    {
      var j := FindAbandoned(k);
      done := j.Some?;
      if done {
        PutMsg(j.value, msgs[j.value].(abandon := AwaitClose), 0);
        PutConn(k, conns[k].(state := Disconnecting));
      }
    }

    method BeginClose(caller: int, handle: int) returns (ret: int, msg: Option<nat>)
      requires Valid() && caller !in pending
      modifies this`queues, this`pending, conns, msgs, heads, parts
      ensures Valid()
      ensures ClientRes(Abs(), ret, msg) == CloseBegin(c, old(Abs()), caller, handle)
    {
      ghost var st := Abs();
      InvFacts(c, st);
      CloseBeginInv(c, st, caller, handle);
      hide Inv;
      hide AllSpell;
      hide SlotOk;
      hide Submit;
      msg := None;
      if handle == 0 {
        return SUCCESS, msg;
      }
      if caller == 0 {
        return FFM_ARGUMENT, msg;
      }
      var r := ConnectionFromHandle(caller, handle);
      if r.Refused? {
        return r.error, msg;
      }
      var k := r.index;
      if conns[k].state != Idle && conns[k].state != Error {
        return FFM_STATE, msg;
      }
      ret, msg := Disconnect(k, caller, handle);
    }

    /** Hands the close to the abandoned request, or queues a disconnect for it. */
    method Disconnect(k: nat, caller: int, handle: int) returns (ret: int, msg: Option<nat>)
      requires Sound(0) && Inv(c, Abs()) && Shape(c, Abs()) && k < conns.Length && conns[k].state != Free
      modifies this`queues, this`pending, conns, msgs, heads, parts
      ensures Sound(0)
      ensures var st := old(Abs());
              var j, i := AbandonedOn(st.msgs, k, 0), FreeMsgFrom(st.msgs, 0);
              if j.Some? then
                && ret == SUCCESS && msg == None
                && Abs() == SetConn(SetMsg(st, j.value, st.msgs[j.value].(abandon := AwaitClose)), k,
                                    st.conns[k].(state := Disconnecting))
              else if i == |st.msgs| then ret == FFM_RESOURCE && msg == None && Abs() == st
              else
                && ret == SUCCESS && msg == Some(i)
                && Abs() == Submit(c, st, k, i, caller, IPC_DISCONNECT, [], [], Disconnecting, handle)
    {
      hide Inv;
      hide AllSpell;
      hide SlotOk;
      hide Submit;
      msg := None;
      var done := CloseAbandoned(k);
      if done {
        return SUCCESS, msg;
      }
      var i := FindFreeMessage();
      if i == msgs.Length {
        return FFM_RESOURCE, msg;
      }
      PlaceDisconnect(k, i, caller, handle);
      return SUCCESS, Some(i);
    }

    method PlaceDisconnect(k: nat, i: nat, caller: int, handle: int)
      requires Sound(0) && Inv(c, Abs()) && Shape(c, Abs()) && k < conns.Length && conns[k].state != Free
      requires i < msgs.Length && !msgs[i].used
      modifies this`queues, this`pending, conns, msgs, heads, parts
      ensures Sound(0)
      ensures Abs() == Submit(c, old(Abs()), k, i, caller, IPC_DISCONNECT, [], [], Disconnecting, handle)
    {
      assert SlotOk(msgs[i], c.transferLimit);
      OnlyQueuedIsQueued(c, Abs(), i);
      hide Inv;
      PutConn(k, conns[k].(state := Disconnecting));
      Place(i, msgs[i].(used := true, next := NONE, caller := caller, conn := k, service := conns[k].service,
                        kind := IPC_DISCONNECT), handle);
    }

    // -------------------------------------------------------------- client: finish

    ghost predicate Complete(i: nat)
      reads this, conns, msgs, parts
    {
      Awaited(Abs(), i) && Abs().msgs[i].phase == Phase.Complete
    }

    /** Ends the client's wait for message i and gives its slot back. */
    method Retire(i: nat)
      requires Sound(0) && i < msgs.Length && Loose(i, 0)
      modifies this`pending, msgs
      ensures Sound(0) && Abs() == ReleaseMsg(Unpend(old(Abs()), old(msgs[i].caller)), i)
    {
      pending := pending - {msgs[i].caller};
      ReleaseMessage(i, 0);
    }

    method FinishConnect(i: nat) returns (ret: int)
      requires Valid() && Complete(i)
      modifies this`pending, conns, msgs
      ensures Valid() && ClientRes(Abs(), ret, None) == ConnectFinish(c, old(Abs()), i)
    {
      hide Inv;
      hide Sound;
      hide Shape;
      hide SlotOk;
      hide NextGeneration;
      ghost var st := Abs();
      SlotFacts(i);
      FinishFacts(c, st, i);
      ConnectFinishInv(c, st, i);
      var k, status := msgs[i].conn, msgs[i].status;
      Retire(i);
      if status != SUCCESS {
        ReleaseConnection(k);
        return status;
      }
      ret := Make(CONNECTION, k, conns[k].gen);
    }

    method FinishClose(i: nat) returns (ret: int)
      requires Valid() && Complete(i)
      modifies this`pending, conns, msgs
      ensures Valid() && ClientRes(Abs(), ret, None) == CloseFinish(c, old(Abs()), i)
    {
      hide Inv;
      hide Sound;
      hide Shape;
      hide SlotOk;
      hide NextGeneration;
      ghost var st := Abs();
      SlotFacts(i);
      FinishFacts(c, st, i);
      CloseFinishInv(c, st, i);
      var k := msgs[i].conn;
      Retire(i);
      ReleaseConnection(k);
      ret := SUCCESS;
    }

    /** Every destination with data is still writable. */
    method CheckOutputs(i: nat) returns (ok: bool)
      requires i < msgs.Length && SlotOk(msgs[i], c.transferLimit)
      ensures ok <==> Revalidates(env, msgs[i].caller, Abs().msgs[i].outs)
    {
      var m := msgs[i];
      assert Abs().msgs[i] == AbsMsg(m);
      var j := 0;
      while j < |m.outs|
        invariant 0 <= j <= |m.outs|
        invariant forall v :: 0 <= v < j ==> MayWrite(env, m.caller, m.outs[v].client, m.outs[v].position)
      {
        if m.outs[j].position != 0 && Access(m.caller, m.outs[j].client, m.outs[j].position) !in env.writable {
          assert !MayWrite(env, m.caller, AbsMsg(m).outs[j].base, |AbsMsg(m).outs[j].data|);
          return false;
        }
        j := j + 1;
      }
      ok := true;
    }

    /** Copies the outputs of a finished call and stores the lengths its caller's array has room for. */
    method Publish(i: nat, room: Option<nat>) returns (lens: seq<nat>)
      requires i < msgs.Length && SlotOk(msgs[i], c.transferLimit)
      modifies this`env
      ensures var outs := old(Abs()).msgs[i].outs;
              && env == old(env).(memory := PublishFirst(old(env.memory), outs, |outs|))
              && lens == StoredLengths(outs, room, |outs|)
    {
      assert Abs().msgs[i] == AbsMsg(msgs[i]);
      var memory, stored := PublishInto(env.memory, msgs[i].outs, msgs[i].output, room);
      env := env.(memory := memory);
      lens := stored;
    }

    method FinishCall(i: nat, room: Option<nat>) returns (ret: int, lens: seq<nat>)
      requires Valid() && Complete(i)
      modifies this`pending, this`env, conns, msgs
      ensures Valid() && CallRes(Abs(), ret, lens) == CallFinish(c, old(Abs()), i, room)
    {
      hide Inv;
      hide Sound;
      hide Shape;
      hide SlotOk;
      hide NextGeneration;
      hide PublishFirst;
      hide Revalidates;
      hide StoredLengths;
      ghost var st := Abs();
      SlotFacts(i);
      FinishFacts(c, st, i);
      CallFinishInv(c, st, i, room);
      var k, status := msgs[i].conn, msgs[i].status;
      var ok := CheckOutputs(i);
      if !ok {
        PutConn(k, conns[k].(state := Error));
        Retire(i);
        return PROGRAMMER_ERROR, [];
      }
      lens := Publish(i, room);
      Retire(i);
      ret := status;
    }

    // -------------------------------------------------------------- client: return from a synchronous dispatch

    /** Message i is awaited, and the dispatch reported success only if it is complete. */
    ghost predicate Dispatched(i: nat, ret: int)
      reads this, conns, msgs, parts
    {
      Awaited(Abs(), i) && DispatchReturns(Abs().msgs[i], ret)
    }

    /** The client gives up on a request that its server still holds. */
    method Abandon(i: nat, how: Abandon)
      requires Sound(0) && i < msgs.Length && msgs[i].used
      modifies this`pending, msgs
      ensures Sound(0)
      ensures var st := old(Abs());
              Abs() == SetMsg(Unpend(st, st.msgs[i].caller), i, st.msgs[i].(abandon := how))
    {
      pending := pending - {msgs[i].caller};
      PutMsg(i, msgs[i].(abandon := how), 0);
    }

    /** Withdraws a request whose dispatch was refused, or collects one that completed. */
    method Withdraw(i: nat, ret: int)
      requires Sound(0) && Inv(c, Abs()) && Shape(c, Abs()) && Dispatched(i, ret)
      modifies this`queues, this`pending, msgs, heads, parts
      ensures Sound(0)
      ensures var st0 := Unpend(old(Abs()), old(msgs[i].caller));
              Abs() == ReleaseMsg(if ret != SUCCESS then Unqueue(c, st0, old(msgs[i].service), i) else st0, i)
    {
      hide AllSpell;
      hide SlotOk;
      assert Abs().msgs[i] == AbsMsg(msgs[i]);
      if ret != SUCCESS {
        Remove(msgs[i].service, i);
        assert Abs().msgs[i] == AbsMsg(msgs[i]);
      } else {
        OnlyQueuedIsQueued(c, Abs(), i);
      }
      hide Inv;
      hide Without;
      Retire(i);
    }

    method ReturnConnect(i: nat, handle: int, ret: int) returns (r: int)
      requires Valid() && Dispatched(i, ret) && msgs[i].kind == IPC_CONNECT
      modifies this`queues, this`pending, conns, msgs, heads, parts
      ensures Valid() && ClientRes(Abs(), r, None) == ConnectReturn(c, old(Abs()), i, handle, ret)
    {
      hide Inv;
      hide Sound;
      hide Shape;
      hide Without;
      hide NextGeneration;
      ghost var st := Abs();
      SlotFacts(i);
      FinishFacts(c, st, i);
      ConnectReturnInv(c, st, i, handle, ret);
      var k, status := msgs[i].conn, msgs[i].status;
      if ret != SUCCESS && msgs[i].active {
        Abandon(i, AwaitClose);
        return if ret == FFM_RESOURCE then CONNECTION_BUSY else GENERIC_ERROR;
      }
      Withdraw(i, ret);
      if ret != SUCCESS || status != SUCCESS {
        ReleaseConnection(k);
        return if ret == FFM_RESOURCE then CONNECTION_BUSY else if status == SUCCESS then GENERIC_ERROR else status;
      }
      r := handle;
    }

    method ReturnClose(i: nat, ret: int) returns (r: int)
      requires Valid() && Dispatched(i, ret) && msgs[i].kind == IPC_DISCONNECT
      modifies this`queues, this`pending, conns, msgs, heads, parts
      ensures Valid() && ClientRes(Abs(), r, None) == CloseReturn(c, old(Abs()), i, ret)
    {
      hide Inv;
      hide Sound;
      hide Shape;
      hide Without;
      hide NextGeneration;
      ghost var st := Abs();
      SlotFacts(i);
      FinishFacts(c, st, i);
      CloseReturnInv(c, st, i, ret);
      var k := msgs[i].conn;
      if ret != SUCCESS && msgs[i].active {
        Abandon(i, AwaitClose);
        return ret;
      }
      Withdraw(i, ret);
      if ret == SUCCESS {
        ReleaseConnection(k);
      }
      r := ret;
    }

    method ReturnCall(i: nat, ret: int) returns (r: int, lens: seq<nat>)
      requires Valid() && Dispatched(i, ret) && msgs[i].kind >= 0
      modifies this`queues, this`pending, this`env, conns, msgs, heads, parts
      ensures Valid() && CallRes(Abs(), r, lens) == CallReturn(c, old(Abs()), i, ret)
    {
      ghost var st := Abs();
      InvFacts(c, st);
      CallReturnInv(c, st, i, ret);
      hide Inv;
      hide Sound;
      hide CallReturn;
      if ret != SUCCESS {
        AbandonCall(i, ret);
        FailedReturn(c, st, i, ret);
        r, lens := GENERIC_ERROR, [];
      } else {
        r, lens := ReturnOutputs(i);
      }
    }

    /** The tail of a synchronous call that succeeded: judge every destination, then write them all and all lengths. */
    method ReturnOutputs(i: nat) returns (r: int, lens: seq<nat>)
      requires Sound(0) && Inv(c, Abs()) && Shape(c, Abs()) && Dispatched(i, SUCCESS)
      modifies this`pending, this`env, conns, msgs
      ensures Sound(0) && CallRes(Abs(), r, lens) == CallReturn(c, old(Abs()), i, SUCCESS)
    {
      hide Inv;
      hide Sound;
      hide NextGeneration;
      hide PublishFirst;
      hide Lengths;
      hide SlotOk;
      ghost var st := Abs();
      SlotFacts(i);
      FinishFacts(c, st, i);
      var k, status := msgs[i].conn, msgs[i].status;
      var v := FirstUnwritable(i);
      if v < |msgs[i].outs| {
        PutConn(k, conns[k].(state := Error));
        Retire(i);
        return PROGRAMMER_ERROR, [];
      }
      var memory, all := PublishOutputs(i);
      env := env.(memory := memory);
      Retire(i);
      return status, all;
    }

    /** The first destination with data that its caller may no longer write, or the number of outputs. */
    method FirstUnwritable(i: nat) returns (v: nat)
      requires i < msgs.Length && SlotOk(msgs[i], c.transferLimit)
      ensures var m := Abs().msgs[i];
              && |m.outs| == |msgs[i].outs| && v <= |m.outs|
              && (v < |m.outs| ==> !MayWrite(env, m.caller, m.outs[v].base, |m.outs[v].data|))
              && (forall j :: 0 <= j < v ==> MayWrite(env, m.caller, m.outs[j].base, |m.outs[j].data|))
    {
      ghost var m := Abs().msgs[i];
      assert m == AbsMsg(msgs[i]);
      var outs := msgs[i].outs;
      v := 0;
      while v < |outs|
        invariant v <= |outs| && forall j :: 0 <= j < v ==> MayWrite(env, m.caller, m.outs[j].base, |m.outs[j].data|)
      {
        if outs[v].position != 0 && Access(msgs[i].caller, outs[v].client, outs[v].position) !in env.writable {
          return;
        }
        v := v + 1;
      }
    }

    method PublishOutputs(i: nat) returns (memory: map<nat, Byte>, lens: seq<nat>)
      requires i < msgs.Length && SlotOk(msgs[i], c.transferLimit)
      ensures var outs := Abs().msgs[i].outs;
              memory == PublishFirst(env.memory, outs, |outs|) && lens == Lengths(outs)
    {
      assert Abs().msgs[i] == AbsMsg(msgs[i]);
      memory, lens := PublishSegments(env.memory, msgs[i].outs, msgs[i].output);
    }

    /** A call whose dispatch failed: the connection errors, and a delivered request is left to its server. */
    method AbandonCall(i: nat, ret: int)
      requires Sound(0) && Inv(c, Abs()) && Shape(c, Abs()) && Dispatched(i, ret) && ret != SUCCESS
      modifies this`queues, this`pending, this`env, conns, msgs, heads, parts
      ensures Sound(0) && Abs() == CallReturn(c, old(Abs()), i, ret).st
    {
      ghost var st := Abs();
      hide Inv;
      hide AllSpell;
      hide Without;
      var m := msgs[i];
      assert SlotOk(m, c.transferLimit) && st.msgs[i] == AbsMsg(m);
      if m.active {
        PutConn(m.conn, conns[m.conn].(state := Error, latch := true));
        pending := pending - {m.caller};
        ForgetSegments(m.outs, m.output);
        PutMsg(i, m.(abandon := AwaitReply, outs := ForgetClients(m.outs)), 0);
      } else {
        hide SlotOk;
        PutConn(m.conn, conns[m.conn].(state := Error));
        Remove(m.service, i);
        assert Abs().msgs[i] == AbsMsg(msgs[i]);
        Retire(i);
      }
    }

    // -------------------------------------------------------------- server

    method LookupSignal(p: nat, signal: Word) returns (r: Option<nat>)
      ensures r == SignalFrom(c.services, p, signal, 0)
    {
      var i := 0;
      while i < |c.services|
        invariant 0 <= i <= |c.services|
        invariant SignalFrom(c.services, p, signal, 0) == SignalFrom(c.services, p, signal, i)
      {
        if c.services[i].partition == p && c.services[i].signal == signal {
          return Some(i);
        }
        i := i + 1;
      }
      r := None;
    }

    /** The pointer updates of a delivery: the head of queue s leaves it and becomes active. */
    method UnlinkHead(s: nat) returns (i: nat)
      requires Sizes() && s < heads.Length && s < |queues| && queues[s] != []
      requires Spells(msgs[..], heads[s], queues[s], s)
      modifies msgs, heads
      ensures i == queues[s][0] < msgs.Length
      ensures msgs[..] == old(msgs[..])[i := old(msgs[i]).(next := NONE, active := true)]
      ensures heads[..] == old(heads[..])[s := heads[s]]
      ensures Spells(msgs[..], heads[s], queues[s][1..], s)
    {
      ghost var ms, h, q := msgs[..], heads[s], queues[s];
      HeadTellsEmpty(ms, h, q, s);
      i := heads[s].head;
      PopSpells(ms, h, q, s, msgs[i].(next := NONE, active := true));
      hide Spells;
      var next := msgs[i].next;
      heads[s] := if next == NONE then Queue(NONE, NONE) else heads[s].(head := next);
      msgs[i] := msgs[i].(next := NONE, active := true);
      assert msgs[..] == ms[i := ms[i].(next := NONE, active := true)];
      PopHead(ms, h, q, s);
    }

    method PopQueue(s: nat) returns (i: nat)
      requires Sound(0) && s < heads.Length && queues[s] != []
      requires QueueRange(Abs())
      modifies this`queues, msgs, heads
      ensures Sound(0) && i == old(queues[s][0]) < msgs.Length
      ensures var st := old(Abs());
              Abs() == st.(queues := st.queues[s := st.queues[s][1..]], msgs := st.msgs[i := st.msgs[i].(phase := Delivered)])
      ensures heads[s].head == NONE <==> queues[s] == []
    {
      hide Spells;
      ghost var ms, hs, q := msgs[..], heads[..], queues[s];
      assert !ServedBy(c, s, 0) && Spells(ms, heads[s], q, s);
      assert Abs().msgs[q[0]] == AbsMsg(msgs[q[0]]) && SlotOk(msgs[q[0]], c.transferLimit);
      HeadTellsEmpty(ms, heads[s], q, s);
      hide AllSpell;
      i := UnlinkHead(s);
      queues := queues[s := q[1..]];
      PoppedSpells(c, ms, hs, old(queues), s, msgs[..], heads[s], i);
      HeadTellsEmpty(msgs[..], heads[s], q[1..], s);
    }

    method Get(pid: int, signal: Word) returns (ret: int, delivery: Option<Delivery>)
      requires Valid()
      modifies this`queues, conns, msgs, heads, parts
      ensures Valid() && QueueRange(old(Abs()))
      ensures GetRes(Abs(), ret, delivery) == GetMsg(c, old(Abs()), pid, signal)
    {
      ghost var st := Abs();
      InvFacts(c, st);
      GetMsgInv(c, st, pid, signal);
      hide Inv;
      delivery := None;
      if signal == {} {
        return PROGRAMMER_ERROR, delivery;
      }
      var p := LookupPartition(pid);
      if p.None? {
        return PROGRAMMER_ERROR, delivery;
      }
      var s := LookupSignal(p.value, signal);
      if s.None? {
        return DOES_NOT_EXIST, delivery;
      }
      assert !ServedBy(c, s.value, 0);
      HeadTellsEmpty(msgs[..], heads[s.value], queues[s.value], s.value);
      if heads[s.value].head == NONE {
        return DOES_NOT_EXIST, delivery;
      }
      var d := DeliverHead(s.value);
      return SUCCESS, Some(d);
    }

    method DeliverHead(s: nat) returns (d: Delivery)
      requires Sound(0) && Shape(c, Abs()) && QueueRange(Abs()) && s < heads.Length && queues[s] != []
      modifies this`queues, conns, msgs, heads, parts
      ensures Sound(0) && Abs() == Deliver(c, old(Abs()), s)
      ensures var st := old(Abs());
              var i := st.queues[s][0];
              var m := st.msgs[i];
              d == Delivery(Make(MESSAGE, i, m.gen), m.kind, m.caller, st.conns[m.conn].rhandle, SizesOf(m).0, SizesOf(m).1)
    {
      ghost var st := Abs();
      hide AllSpell;
      var i := PopQueue(s);
      var m := msgs[i];
      assert Abs().msgs[i] == AbsMsg(m);
      SizesMatch(m, c.transferLimit);
      assert SizesOf(st.msgs[i]) == SizesOf(AbsMsg(m));
      UpdateSignal(s);
      hide SlotOk;
      hide SizesOf;
      if m.kind == IPC_CONNECT {
        PutConn(m.conn, conns[m.conn].(state := Connecting));
      } else if m.kind >= 0 {
        PutConn(m.conn, conns[m.conn].(state := Active));
      } else {
        assert conns[..][m.conn := conns[m.conn].(state := conns[m.conn].state)] == conns[..];
      }
      d := Delivery(Make(MESSAGE, i, m.gen), m.kind, m.caller, conns[m.conn].rhandle,
                    SegmentSizes(m.ins), SegmentSizes(m.outs));
    }

    method SetReverse(pid: int, handle: int, value: nat) returns (ret: int)
      requires Valid()
      modifies conns
      ensures Valid() && ServerRes(Abs(), ret) == SetRhandle(c, old(Abs()), pid, handle, value)
    {
      ghost var st := Abs();
      InvFacts(c, st);
      SetRhandleInv(c, st, pid, handle, value);
      hide Inv;
      var r := MessageFromHandle(pid, handle);
      if r.Refused? {
        return FFM_HANDLE;
      }
      var m := msgs[r.index];
      assert st.msgs[r.index] == AbsMsg(m);
      hide SlotOk;
      hide AllSpell;
      if m.kind != IPC_DISCONNECT {
        PutConn(m.conn, conns[m.conn].(rhandle := value));
      }
      ret := SUCCESS;
    }

    /** Moves the read position of input vector vec past up to num bytes, which it also hands out. */
    method Advance(i: nat, vec: nat, num: nat) returns (bytes: seq<Byte>)
      requires Sound(0) && i < msgs.Length && msgs[i].used && vec < |msgs[i].ins|
      modifies msgs
      ensures Sound(0)
      ensures var m := old(Abs()).msgs[i];
              var v := m.ins[vec];
              var len := Min(num, |v.rest|);
              && bytes == v.rest[..len]
              && Abs() == SetMsg(old(Abs()), i, m.(ins := m.ins[vec := InVec(v.seen + bytes, v.rest[len..])]))
    {
      hide Sound;
      hide InVecOf;
      SlotFacts(i);
      var m := msgs[i];
      var g := m.ins[vec];
      var length := if num < g.size - g.position then num else g.size - g.position;
      ReadAdvances(m.ins, m.input, vec, length);
      bytes := m.input[g.offset + g.position..g.offset + g.position + length];
      PutMsg(i, m.(ins := m.ins[vec := g.(position := g.position + length)]), 0);
    }

    /** Copies out up to num unread bytes of an input vector. */
    method Read(pid: int, handle: int, vec: nat, num: nat) returns (bytes: seq<Byte>)
      requires Valid()
      modifies msgs
      ensures Valid() && ReadRes(Abs(), bytes) == ReadMsg(c, old(Abs()), pid, handle, vec, num)
    {
      ghost var st := Abs();
      InvFacts(c, st);
      ReadMsgInv(c, st, pid, handle, vec, num);
      hide Inv;
      hide AllSpell;
      hide SlotOk;
      hide InVecOf;
      bytes := [];
      if vec >= MAX_IOVEC {
        return;
      }
      var r := MessageFromHandle(pid, handle);
      if r.Found? {
        assert st.msgs[r.index] == AbsMsg(msgs[r.index]);
        if msgs[r.index].kind >= 0 && vec < |msgs[r.index].ins| {
          bytes := Advance(r.index, vec, num);
        }
      }
    }

    /** Passes over up to num unread bytes: the state moves exactly as a read would move it. */
    method Skip(pid: int, handle: int, vec: nat, num: nat) returns (length: nat)
      requires Valid()
      modifies msgs
      ensures Valid() && Abs() == ReadMsg(c, old(Abs()), pid, handle, vec, num).st
      ensures length == |ReadMsg(c, old(Abs()), pid, handle, vec, num).bytes|
    {
      var bytes := Read(pid, handle, vec, num);
      length := |bytes|;
    }

    /** Appends data to output vector vec of message i. */
    method Fill(i: nat, vec: nat, data: seq<Byte>)
      requires Sound(0) && i < msgs.Length && msgs[i].used && vec < |msgs[i].outs|
      requires |data| <= msgs[i].outs[vec].size - msgs[i].outs[vec].position
      modifies msgs
      ensures Sound(0)
      ensures var m := old(Abs()).msgs[i];
              Abs() == SetMsg(old(Abs()), i, m.(outs := m.outs[vec := m.outs[vec].(data := m.outs[vec].data + data)]))
    {
      hide Sound;
      hide OutVecOf;
      SlotFacts(i);
      var m := msgs[i];
      var g := m.outs[vec];
      WriteAppends(m.outs, m.output, vec, data);
      PutMsg(i, m.(outs := m.outs[vec := g.(position := g.position + |data|)],
                   output := Splat(m.output, g.offset + g.position, data)), 0);
    }

    method Write(pid: int, handle: int, vec: nat, data: seq<Byte>) returns (ret: int)
      requires Valid()
      modifies msgs
      ensures Valid() && ServerRes(Abs(), ret) == WriteMsg(c, old(Abs()), pid, handle, vec, data)
    {
      ghost var st := Abs();
      InvFacts(c, st);
      WriteMsgInv(c, st, pid, handle, vec, data);
      hide Inv;
      hide AllSpell;
      hide SlotOk;
      hide OutVecOf;
      if vec >= MAX_IOVEC {
        return FFM_ARGUMENT;
      }
      var r := MessageFromHandle(pid, handle);
      if r.Refused? {
        return FFM_ARGUMENT;
      }
      var i := r.index;
      assert st.msgs[i] == AbsMsg(msgs[i]);
      if msgs[i].kind < 0 {
        return FFM_STATE;
      }
      if vec >= |msgs[i].outs| {
        return if |data| == 0 then SUCCESS else FFM_BUFFER;
      }
      Written(msgs[i], c.transferLimit, vec);
      if |data| > msgs[i].outs[vec].size - msgs[i].outs[vec].position {
        return FFM_BUFFER;
      }
      Fill(i, vec, data);
      ret := SUCCESS;
    }

    /** Reuses the answered slot i for the disconnect its client is no longer there to request. */
    method Reuse(i: nat)
      requires Sound(0) && Shape(c, Abs()) && i < msgs.Length && msgs[i].used && Loose(i, 0)
      requires msgs[i].conn < conns.Length && conns[msgs[i].conn].state != Free
      requires i !in queues[conns[msgs[i].conn].service]
      modifies this`queues, conns, msgs, heads, parts
      ensures Sound(0)
      ensures var st := old(Abs());
              var m := st.msgs[i];
              var conn := st.conns[m.conn];
              var m' := Msg(Queued, conn.caller, 0, NextGeneration(m.gen), m.conn, conn.service, IPC_DISCONNECT, [], [], AwaitClose);
              Abs() == Enqueue(c, SetConn(SetMsg(st, i, m'), m.conn, conn.(state := Disconnecting)), conn.service, i)
    {
      ghost var st := Abs();
      var k, gen := msgs[i].conn, NextGeneration(msgs[i].gen);
      var conn := conns[k];
      var v := Blank(gen, c.transferLimit).(used := true, abandon := AwaitClose, caller := conn.caller, conn := k,
        service := conn.service, kind := IPC_DISCONNECT);
      BlankIsFree(gen, c.transferLimit);
      hide AllSpell;
      ReleaseMessage(i, 0);
      assert SlotOk(v, c.transferLimit);
      assert st.msgs[i := FreeMsg(gen)][i := AbsMsg(v)] == st.msgs[i := AbsMsg(v)];
      hide SlotOk;
      hide NextGeneration;
      PutMsg(i, v, 0);
      PutConn(k, conn.(state := Disconnecting));
      Append(conn.service, i);
    }

    method EndAbandoned(i: nat, status: int)
      requires Sound(0) && Shape(c, Abs()) && i < msgs.Length && msgs[i].used && Loose(i, 0)
      requires conns[Abs().msgs[i].conn].state != Free && i !in queues[conns[msgs[i].conn].service]
      modifies this`queues, conns, msgs, heads, parts
      ensures Sound(0) && Abs() == FinishAbandoned(c, old(Abs()), i, status)
    {
      hide AllSpell;
      hide SlotOk;
      hide NextGeneration;
      var m := msgs[i];
      assert Abs().msgs[i] == AbsMsg(m);
      if (m.kind == IPC_CONNECT && status == SUCCESS) || (m.kind >= 0 && m.abandon == AwaitClose) {
        Reuse(i);
      } else {
        if m.kind < 0 {
          ReleaseConnection(m.conn);
        }
        ReleaseMessage(i, 0);
      }
    }

    method Answer(pid: int, handle: int, status: int) returns (ret: int)
      requires Valid()
      modifies this`queues, conns, msgs, heads, parts
      ensures Valid() && Linked(old(Abs())) && ServerRes(Abs(), ret) == Reply(c, old(Abs()), pid, handle, status)
    {
      hide Inv;
      hide Sound;
      hide Shape;
      hide Settled;
      ghost var st := Abs();
      SlotFacts(0);
      InvFacts(c, st);
      ReplyInv(c, st, pid, handle, status);
      var r := MessageFromHandle(pid, handle);
      if r.Refused? {
        return FFM_HANDLE;
      }
      var i := r.index;
      OnlyQueuedIsQueued(c, st, i);
      SlotFacts(i);
      var m := msgs[i];
      if m.kind < IPC_DISCONNECT {
        return FFM_STATE;
      }
      if !ReplyAllowed(m.kind, status) {
        return FFM_ARGUMENT;
      }
      Settle(i, status);
      ret := SUCCESS;
    }

    /** The state change of a reply: the connection moves on, and the request completes or is cleaned up. */
    method Settle(i: nat, status: int)
      requires Sound(0) && Shape(c, Abs()) && Linked(Abs()) && i < msgs.Length && msgs[i].used
      requires forall s :: 0 <= s < |queues| ==> i !in queues[s]
      modifies this`queues, conns, msgs, heads, parts
      ensures Sound(0) && Abs() == Settled(c, old(Abs()), i, status)
    {
      hide Sound;
      hide FinishAbandoned;
      ghost var st := Abs();
      SlotFacts(i);
      var m := msgs[i];
      var k := m.conn;
      var state := conns[k].state;
      if m.kind == IPC_CONNECT {
        state := if status == SUCCESS then Idle else Error;
      } else if m.kind == IPC_DISCONNECT {
        state := Terminal;
      } else {
        state := if status == PROGRAMMER_ERROR || conns[k].latch then Error else Idle;
      }
      PutConn(k, conns[k].(state := state));
      assert Shape(c, Abs());
      hide Shape;
      if m.abandon == Kept {
        PutMsg(i, m.(status := status, active := false, complete := true), 0);
      } else {
        hide SlotOk;
        EndAbandoned(i, status);
      }
    }

    // -------------------------------------------------------------- faults

    /** Fails message i if partition pid serves it and it is in flight. */
    method FailMessage(i: nat, pid: int, status: int) returns (hit: bool)
      requires Sound(pid) && Shape(c, Abs()) && i < msgs.Length
      modifies conns, msgs
      ensures Sound(pid) && Abs() == FailMsg(c, old(Abs()), pid, status, i)
      ensures var m := old(Abs()).msgs[i];
              hit <==> InFlight(m) && ServedBy(c, m.service, pid)
    {
      hide AllSpell;
      ghost var st := Abs();
      var m := msgs[i];
      assert st.msgs[i] == AbsMsg(m) && SlotOk(m, c.transferLimit);
      hide NextGeneration;
      if !m.used || m.complete || c.partitions[c.services[m.service].partition].id != pid {
        return false;
      }
      hit := true;
      PutConn(m.conn, conns[m.conn].(state := Error));
      if m.abandon == Kept {
        PutMsg(i, m.(status := status, active := false, complete := true), pid);
      } else {
        if m.abandon == AwaitClose {
          assert st.conns[m.conn := conns[m.conn]][m.conn := FreeConn(NextGeneration(st.conns[m.conn].gen))] ==
                 st.conns[m.conn := FreeConn(NextGeneration(st.conns[m.conn].gen))];
          ReleaseConnection(m.conn);
        }
        ReleaseMessage(i, pid);
      }
    }

    /** The representation once the first n services of a failed partition are drained. */
    ghost predicate Drained(pid: int, n: nat)
      reads this, msgs, heads
    {
      && Sizes() && |queues| == |c.services|
      && (forall i :: 0 <= i < msgs.Length ==> SlotOk(msgs[i], c.transferLimit))
      && forall s :: 0 <= s < |c.services| && (s < n || !ServedBy(c, s, pid)) ==> Spells(msgs[..], heads[s], queues[s], s)
    }

    method DrainService(s: nat, ghost pid: int)
      requires Drained(pid, s) && s < |c.services| && ServedBy(c, s, pid)
      modifies this`queues, heads, parts
      ensures Drained(pid, s + 1) && Abs() == SetQueue(c, old(Abs()), s, [])
    {
      ghost var ms, hs, qs := msgs[..], heads[..], queues;
      heads[s] := Queue(NONE, NONE);
      queues := queues[s := []];
      assert Drained(pid, s + 1) by {
        forall t | 0 <= t < |c.services| && (t < s + 1 || !ServedBy(c, t, pid)) ensures Spells(msgs[..], heads[t], queues[t], t) {
          assert t != s ==> Spells(ms, hs[t], qs[t], t);
        }
      }
      hide Spells;
      hide SlotOk;
      UpdateSignal(s);
    }

    lemma SoundLess(pid: int)
      requires Sound(0)
      ensures Sound(pid) && msgs.Length > 0
    {
      SpellLess(c, msgs[..], heads[..], queues, pid);
    }

    lemma DrainedSkip(pid: int, s: nat)
      requires Drained(pid, s) && s < |c.services| && !ServedBy(c, s, pid)
      ensures Drained(pid, s + 1)
    {
    }

    lemma DrainedEnds(pid: int)
      requires ConfigOk(c)
      ensures Sound(pid) ==> Drained(pid, 0)
      ensures Drained(pid, |c.services|) ==> Sound(0)
      ensures forall s :: 0 <= s < |c.services| ==> c.services[s].partition < |c.partitions|
    {
    }

    method FailMessages(pid: int, status: int) returns (failed: nat)
      requires Sound(0) && Shape(c, Abs())
      modifies conns, msgs
      ensures Sound(pid) && Abs() == FailMsgs(c, old(Abs()), pid, status, |old(Abs()).msgs|)
      ensures failed == FailedCount(c, old(Abs()).msgs, pid, |old(Abs()).msgs|)
    {
      hide Sound;
      hide FailMsg;
      hide FailMsgs;
      hide Shape;
      ghost var st := Abs();
      SoundLess(pid);
      FailNext(c, st, pid, status, 0);
      CountNext(c, st, pid, 0);
      hide FailedCount;
      failed := 0;
      var i := 0;
      while i < msgs.Length
        invariant 0 <= i <= msgs.Length && Sound(pid)
        invariant Abs() == FailMsgs(c, st, pid, status, i) && failed == FailedCount(c, st.msgs, pid, i)
      {
        FailNext(c, st, pid, status, i);
        CountNext(c, st, pid, i);
        var hit := FailMessage(i, pid, status);
        if hit {
          failed := failed + 1;
        }
        i := i + 1;
      }
    }

    method DrainServices(pid: int)
      requires ConfigOk(c) && Sound(pid) && Shape(c, Abs())
      modifies this`queues, heads, parts
      ensures Sound(0) && Abs() == DrainQueues(c, old(Abs()), pid, |c.services|)
    {
      hide Sound;
      hide Drained;
      hide Shape;
      hide ConfigOk;
      hide DrainQueues;
      hide SetQueue;
      ghost var st := Abs();
      DrainedEnds(pid);
      DrainStart(c, st, pid);
      var s := 0;
      while s < |c.services|
        invariant 0 <= s <= |c.services| && Drained(pid, s) && Abs() == DrainQueues(c, st, pid, s)
      {
        DrainNext(c, st, pid, s);
        if c.partitions[c.services[s].partition].id == pid {
          DrainService(s, pid);
        } else {
          DrainedSkip(pid, s);
        }
        s := s + 1;
      }
      DrainedEnds(pid);
    }

    method FailConnections(pid: int)
      requires Sound(0) && Shape(c, Abs())
      modifies conns
      ensures Sound(0) && Abs() == FailConns(c, old(Abs()), pid, |old(Abs()).conns|)
    {
      ghost var st := Abs();
      hide SlotOk;
      hide AllSpell;
      var k := 0;
      while k < conns.Length
        invariant 0 <= k <= conns.Length && Sound(0) && Abs() == FailConns(c, st, pid, k)
      {
        if conns[k].state != Free && conns[k].state != Terminal
           && c.partitions[c.services[conns[k].service].partition].id == pid {
          PutConn(k, conns[k].(state := Error, rhandle := 0));
        }
        k := k + 1;
      }
    }

    /** How many requests a failure of partition pid ends. */
    ghost function InFlightAt(pid: int): nat
      requires Valid()
      reads this, conns, msgs, heads, parts
    {
      FailedCount(c, Abs().msgs, pid, |Abs().msgs|)
    }

    method FailServer(pid: int, status: int) returns (failed: nat)
      requires Valid()
      modifies this`queues, conns, msgs, heads, parts
      ensures Valid() && Abs() == FailPartition(c, old(Abs()), pid, status) && failed == old(InFlightAt(pid))
    {
      InvFacts(c, Abs());
      FailKeepsInv(c, Abs(), pid, status);
      hide Inv;
      hide AllSpell;
      hide SlotOk;
      hide Shape;
      hide FailMsgs;
      hide DrainQueues;
      hide FailConns;
      hide FailedCount;
      failed := FailMessages(pid, status);
      DrainServices(pid);
      FailConnections(pid);
    }

    /** Drops message i if it belongs to the failed client. */
    method DropMessage(i: nat, caller: int)
      requires Sound(0) && Shape(c, Abs()) && i < msgs.Length
      requires msgs[i].used && msgs[i].caller == caller && PhaseOf(msgs[i]) != Queued ==> Loose(i, 0)
      modifies this`queues, msgs, heads, parts
      ensures Sound(0) && Abs() == DropMsg(c, old(Abs()), caller, i)
    {
      hide AllSpell;
      hide Without;
      hide NextGeneration;
      var m := msgs[i];
      assert Abs().msgs[i] == AbsMsg(m) && SlotOk(m, c.transferLimit);
      if !m.used || m.caller != caller {
        return;
      }
      hide SlotOk;
      if !m.complete && !m.active {
        Remove(m.service, i);
        assert Abs().msgs[i] == AbsMsg(msgs[i]);
      }
      ReleaseMessage(i, 0);
    }

    method DropMessages(caller: int)
      requires Sound(0) && Shape(c, Abs()) && InvExcept(c, Abs(), 0, caller) && caller !in pending
      modifies this`queues, msgs, heads, parts
      ensures Sound(0) && Abs() == DropMsgs(c, old(Abs()), caller, |old(Abs()).msgs|)
    {
      hide Sound;
      hide InvExcept;
      hide DropMsg;
      hide Shape;
      ghost var st := Abs();
      assert DropMsgs(c, st, caller, 0) == st;
      hide DropMsgs;
      var i := 0;
      while i < msgs.Length
        invariant 0 <= i <= msgs.Length && Sound(0)
        invariant Abs() == DropMsgs(c, st, caller, i)
      {
        DropNext(c, st, caller, i);
        assert Abs().msgs[i] == AbsMsg(msgs[i]);
        DroppedQueuesExact(c, st, caller, i);
        DropMessage(i, caller);
        i := i + 1;
      }
    }

    method DropConnections(caller: int) returns (freed: nat)
      requires Sizes()
      modifies conns
      ensures Abs() == DropConns(c, old(Abs()), caller, |old(Abs()).conns|)
      ensures freed == ClientCount(old(Abs()).conns, caller)
    {
      ghost var st := Abs();
      var k := 0;
      freed := 0;
      while k < conns.Length
        invariant 0 <= k <= conns.Length && Abs() == DropConns(c, st, caller, k)
        invariant conns[k..] == st.conns[k..] && freed == ClientCount(st.conns[..k], caller)
      {
        assert conns[k] == conns[k..][0] == st.conns[k] && st.conns[..k + 1][..k] == st.conns[..k];
        if conns[k].state != Free && conns[k].caller == caller {
          ReleaseConnection(k);
          freed := freed + 1;
        }
        k := k + 1;
      }
      assert st.conns[..k] == st.conns;
    }

    method FailCaller(caller: int) returns (freed: nat)
      requires Valid()
      modifies this`queues, this`pending, conns, msgs, heads, parts
      ensures Valid() && Abs() == FailClient(c, old(Abs()), caller)
      ensures freed == ClientCount(old(Abs()).conns, caller)
    {
      InvFacts(c, Abs());
      FailClientInv(c, Abs(), caller);
      UnpendInv(c, Abs(), caller);
      hide Inv;
      hide InvExcept;
      hide DropMsgs;
      hide DropConns;
      pending := pending - {caller};
      assert Shape(c, Abs());
      hide Shape;
      DropMessages(caller);
      assert Sizes();
      hide AllSpell;
      hide SlotOk;
      freed := DropConnections(caller);
    }

    method RestartPartition(pid: int, status: int) returns (ret: int)
      requires Valid()
      modifies this`queues, this`pending, conns, msgs, heads, parts
      ensures Valid() && Abs() == Restarted(c, old(Abs()), pid, status)
      ensures ret == if FindPartition(c, pid).None? then FFM_POLICY else old(InFlightAt(pid))
    {
      ghost var st := Abs();
      hide Inv;
      hide Sound;
      hide Shape;
      hide CleanRestart;
      hide FailPartition;
      hide FailClient;
      var p := LookupPartition(pid);
      if p.None? {
        NotFoundStays(c, st, pid, status);
        return FFM_POLICY;
      }
      RestartFacts(c, st, pid, status);
      hide InFlightAt;
      ret := FailServer(pid, status);
      var _ := FailCaller(pid);
      SoundSizes();
      ResetPart(p.value);
    }

    lemma SoundSizes()
      requires Sound(0)
      ensures Sizes()
    {
    }

    method ResetPart(p: nat)
      requires Sizes() && p < parts.Length
      modifies parts
      ensures var st := old(Abs());
              Abs() == st.(signals := st.signals[p := {}], instances := st.instances[p := (st.instances[p] + 1) % 0x1_0000_0000])
    {
      parts[p] := Part({}, (parts[p].instance + 1) % 0x1_0000_0000);
    }

    // -------------------------------------------------------------- doorbell and interrupt signals

    method PutSignals(p: nat, word: Word)
      requires Sizes() && p < parts.Length
      modifies parts
      ensures Abs() == old(Abs()).(signals := old(Abs()).signals[p := word])
    {
      parts[p] := parts[p].(signals := word);
    }

    method Ring(pid: int) returns (ret: int)
      requires Valid()
      modifies parts
      ensures Valid() && ServerRes(Abs(), ret) == Notify(c, old(Abs()), pid)
    {
      hide Inv;
      hide Sound;
      hide Shape;
      SoundSizes();
      NotifyInv(c, Abs(), pid);
      var p := LookupPartition(pid);
      if p.None? {
        return FFM_POLICY;
      }
      PutSignals(p.value, parts[p.value].signals + DOORBELL);
      ret := SUCCESS;
    }

    method Silence(pid: int) returns (ret: int)
      requires Valid()
      modifies parts
      ensures Valid() && ServerRes(Abs(), ret) == ClearDoorbell(c, old(Abs()), pid)
    {
      hide Inv;
      hide Sound;
      hide Shape;
      SoundSizes();
      ClearInv(c, Abs(), pid);
      var p := LookupPartition(pid);
      if p.None? {
        return FFM_POLICY;
      }
      if !Asserted(parts[p.value].signals, DOORBELL) {
        return FFM_STATE;
      }
      PutSignals(p.value, parts[p.value].signals - DOORBELL);
      ret := SUCCESS;
    }

    method MaskOfInterrupts(p: nat) returns (mask: Word)
      requires p < |c.partitions|
      ensures mask == IrqMask(c.partitions[p].irqs)
    {
      var irqs := c.partitions[p].irqs;
      mask := {};
      var i := 0;
      while i < |irqs|
        invariant 0 <= i <= |irqs| && mask == IrqMask(irqs[..i])
      {
        assert irqs[..i + 1][..i] == irqs[..i];
        mask := mask + irqs[i].signal;
        i := i + 1;
      }
      assert irqs[..i] == irqs;
    }

    method EndInterrupt(pid: int, signal: Word) returns (ret: int)
      requires Valid()
      modifies parts
      ensures Valid() && ServerRes(Abs(), ret) == EndOfInterrupt(c, old(Abs()), pid, signal)
    {
      hide Inv;
      hide Sound;
      hide Shape;
      SoundSizes();
      EoiInv(c, Abs(), pid, signal);
      var p := LookupPartition(pid);
      if p.None? {
        return FFM_POLICY;
      }
      if |signal| != 1 {
        return FFM_ARGUMENT;
      }
      var mask := MaskOfInterrupts(p.value);
      if !Asserted(mask, signal) {
        return FFM_POLICY;
      }
      if !Asserted(parts[p.value].signals, signal) {
        return FFM_STATE;
      }
      PutSignals(p.value, parts[p.value].signals - signal);
      ret := SUCCESS;
    }

    method RaiseInterrupt(pid: int, signal: Word) returns (ret: int)
      requires Valid()
      modifies parts
      ensures Valid() && ServerRes(Abs(), ret) == AssertIrq(c, old(Abs()), pid, signal)
    {
      hide Inv;
      hide Sound;
      hide Shape;
      SoundSizes();
      RaiseInv(c, Abs(), pid, signal);
      var p := LookupPartition(pid);
      if p.None? {
        return FFM_POLICY;
      }
      if |signal| != 1 {
        return FFM_ARGUMENT;
      }
      var irqs := c.partitions[p.value].irqs;
      var i := 0;
      while i < |irqs| && irqs[i].signal != signal
        invariant 0 <= i <= |irqs| && forall k :: 0 <= k < i ==> irqs[k].signal != signal
        decreases |irqs| - i
      {
        i := i + 1;
      }
      if i == |irqs| {
        return FFM_POLICY;
      }
      PutSignals(p.value, parts[p.value].signals + signal);
      ret := SUCCESS;
    }

    method ChangeEnvironment(e: Env)
      requires Valid()
      modifies this`env
      ensures Valid() && Abs() == old(Abs()).(env := e)
    {
      EnvChange(c, Abs(), e);
      hide Inv;
      env := e;
    }

    // -------------------------------------------------------------- any step, any run, synchronous operations

    method PerformClient(step: Step)
      requires Valid() && Takes(c, Abs(), step)
      requires step.DoConnect? || step.DoCall? || step.DoClose? || step.DoRefuse?
      modifies this, conns, msgs, heads, parts
      ensures Valid() && Abs() == Apply(c, old(Abs()), step)
    {
      hide Inv;
      hide Sound;
      hide Shape;
      hide ConnectBegin;
      hide CallBegin;
      hide CloseBegin;
      hide CallRefuse;
      match step
      case DoConnect(x, sid, version) => var _, _ := BeginConnect(x, sid, version);
      case DoCall(x, h, kind, ins, outs) => var _, _ := BeginCall(x, h, kind, ins, outs);
      case DoClose(x, h) => var _, _ := BeginClose(x, h);
      case DoRefuse(x, h) => RefuseCall(x, h);
    }

    method PerformEnd(step: Step)
      requires Valid() && Takes(c, Abs(), step)
      requires step.DoConnectFinish? || step.DoCallFinish? || step.DoCloseFinish? || step.DoConnectReturn? ||
               step.DoCallReturn? || step.DoCloseReturn?
      modifies this, conns, msgs, heads, parts
      ensures Valid() && Abs() == Apply(c, old(Abs()), step)
    {
      hide Inv;
      hide Sound;
      hide Shape;
      hide ConnectFinish;
      hide CallFinish;
      hide CloseFinish;
      hide ConnectReturn;
      hide CallReturn;
      hide CloseReturn;
      WaitFacts(c, Abs(), step.caller);
      var i := pending[step.caller].msg;
      assert Abs().msgs[i] == AbsMsg(msgs[i]);
      match step
      case DoConnectFinish(_) => var _ := FinishConnect(i);
      case DoCallFinish(_, room) => var _, _ := FinishCall(i, room);
      case DoCloseFinish(_) => var _ := FinishClose(i);
      case DoConnectReturn(x, ret) => var _ := ReturnConnect(i, pending[x].handle, ret);
      case DoCallReturn(_, ret) => var _, _ := ReturnCall(i, ret);
      case DoCloseReturn(_, ret) => var _ := ReturnClose(i, ret);
    }

    method PerformServer(step: Step)
      requires Valid() && Takes(c, Abs(), step)
      requires step.DoGet? || step.DoSetRhandle? || step.DoRead? || step.DoWrite? || step.DoReply?
      modifies this, conns, msgs, heads, parts
      ensures Valid() && Abs() == Apply(c, old(Abs()), step)
    {
      hide Inv;
      hide Sound;
      hide Shape;
      hide GetMsg;
      hide SetRhandle;
      hide ReadMsg;
      hide WriteMsg;
      hide Reply;
      match step
      case DoGet(p, signal) => var _, _ := Get(p, signal);
      case DoSetRhandle(p, h, value) => var _ := SetReverse(p, h, value);
      case DoRead(p, h, v, n) => var _ := Read(p, h, v, n);
      case DoWrite(p, h, v, data) => var _ := Write(p, h, v, data);
      case DoReply(p, h, status) => var _ := Answer(p, h, status);
    }

    method PerformFault(step: Step)
      requires Valid() && Takes(c, Abs(), step)
      requires step.DoFailPartition? || step.DoFailClient? || step.DoRestart?
      modifies this, conns, msgs, heads, parts
      ensures Valid() && Abs() == Apply(c, old(Abs()), step)
    {
      hide Inv;
      hide Sound;
      hide Shape;
      hide FailPartition;
      hide FailClient;
      hide Restarted;
      match step
      case DoFailPartition(p, status) => if p != 0 { var _ := FailServer(p, status); }
      case DoFailClient(x) => var _ := FailCaller(x);
      case DoRestart(p, status) => var _ := RestartPartition(p, status);
    }

    method PerformSignal(step: Step)
      requires Valid() && Takes(c, Abs(), step)
      requires step.DoNotify? || step.DoClear? || step.DoEndOfInterrupt? || step.DoAssertIrq? || step.DoEnvironment?
      modifies this, conns, msgs, heads, parts
      ensures Valid() && Abs() == Apply(c, old(Abs()), step)
    {
      hide Inv;
      hide Sound;
      hide Shape;
      hide Notify;
      hide ClearDoorbell;
      hide EndOfInterrupt;
      hide AssertIrq;
      hide Apply;
      hide Takes;
      SignalApplies(c, Abs(), step);
      match step
      case DoNotify(p) => var _ := Ring(p);
      case DoClear(p) => var _ := Silence(p);
      case DoEndOfInterrupt(p, signal) => var _ := EndInterrupt(p, signal);
      case DoAssertIrq(p, signal) => var _ := RaiseInterrupt(p, signal);
      case DoEnvironment(e) => ChangeEnvironment(e);
    }

    /** Any step of the state machine, carried out on the stored runtime. */
    method Perform(step: Step)
      requires Valid() && Takes(c, Abs(), step)
      modifies this, conns, msgs, heads, parts
      ensures Valid() && Abs() == Apply(c, old(Abs()), step)
    {
      hide Inv;
      hide Sound;
      hide Shape;
      hide Apply;
      hide Takes;
      if step.DoConnect? || step.DoCall? || step.DoClose? || step.DoRefuse? {
        PerformClient(step);
      } else if step.DoGet? || step.DoSetRhandle? || step.DoRead? || step.DoWrite? || step.DoReply? {
        PerformServer(step);
      } else if step.DoFailPartition? || step.DoFailClient? || step.DoRestart? {
        PerformFault(step);
      } else if step.DoNotify? || step.DoClear? || step.DoEndOfInterrupt? || step.DoAssertIrq? || step.DoEnvironment? {
        PerformSignal(step);
      } else {
        PerformEnd(step);
      }
    }

    /** Any run of the state machine, carried out on the stored runtime. */
    method RunSteps(steps: seq<Step>, ghost final: Ipc)
      requires Valid() && Runs(c, Abs(), steps, final)
      modifies this, conns, msgs, heads, parts
      ensures Valid() && Abs() == final
    {
      hide Inv;
      hide Sound;
      hide Shape;
      hide Apply;
      var n := 0;
      while n < |steps|
        invariant 0 <= n <= |steps| && Valid() && Runs(c, Abs(), steps[n..], final)
      {
        assert steps[n..][0] == steps[n] && steps[n..][1..] == steps[n + 1..];
        Perform(steps[n]);
        n := n + 1;
      }
    }

    /** A synchronous connect up to its dispatch; a queued request is its msg. */
    method StartConnect(caller: int, sid: nat, version: nat) returns (ret: int, msg: Option<nat>)
      requires Valid() && caller !in pending
      modifies this`queues, this`pending, conns, msgs, heads, parts
      ensures Valid()
      ensures ClientRes(Abs(), ret, msg) == ConnectBegin(c, old(Abs()), caller, sid, version)
    {
      hide Shape;
      hide Inv;
      hide Sound;
      hide OpenConnection;
      hide NextGeneration;
      hide ClientCount;
      hide NonsecureCount;
      hide CallerAllowed;
      hide VersionAllowed;
      ghost var st := Abs();
      SlotFacts(0);
      InvFacts(c, st);
      ConnectBeginInv(c, st, caller, sid, version);
      if caller == 0 {
        return INVALID_ARGUMENT, None;
      }
      var found := LookupService(sid);
      if found.None? {
        return CONNECTION_REFUSED, None;
      }
      var s := found.value;
      if !CallerAllowed(c, caller, s) || !VersionAllowed(c.services[s], version) {
        return CONNECTION_REFUSED, None;
      }
      if !c.services[s].connectionBased {
        return NOT_SUPPORTED, None;
      }
      var held := CountClient(caller);
      if held >= c.perClient {
        return CONNECTION_BUSY, None;
      }
      if caller < 0 {
        var shared := CountNonsecure();
        if shared >= c.nonsecureLimit {
          return CONNECTION_BUSY, None;
        }
      }
      ret, msg := AllocateConnect(caller, s);
    }

    /** Allocates both slots of a synchronous connect. */
    method AllocateConnect(caller: int, s: nat) returns (ret: int, msg: Option<nat>)
      requires Sound(0) && Inv(c, Abs()) && Shape(c, Abs()) && s < |c.services|
      modifies this`queues, this`pending, conns, msgs, heads, parts
      ensures Sound(0)
      ensures var st := old(Abs());
              var k, i := FreeConnFrom(st.conns, 0), FreeMsgFrom(st.msgs, 0);
              if k == |st.conns| then Abs() == st && ret == CONNECTION_BUSY && msg == None
              else if i == |st.msgs| then Abs() == ReleaseConn(st, k) && ret == CONNECTION_BUSY && msg == None
              else
                && ret == Make(CONNECTION, k, st.conns[k].gen) && msg == Some(i)
                && Abs() == OpenConnection(c, st, k, i, caller, s, ret)
    {
      hide Inv;
      hide Sound;
      hide OpenConnection;
      hide NextGeneration;
      SlotFacts(0);
      var k := FindFreeConnection();
      if k == conns.Length {
        return CONNECTION_BUSY, None;
      }
      var i := FindFreeMessage();
      if i == msgs.Length {
        ReleaseConnection(k);
        return CONNECTION_BUSY, None;
      }
      ret := SendConnect(caller, s, k, i);
      msg := Some(i);
    }

    /** Fills both slots of a synchronous connect and queues the request. */
    method SendConnect(caller: int, s: nat, k: nat, i: nat) returns (handle: int)
      requires Sound(0) && Inv(c, Abs()) && Shape(c, Abs()) && s < |c.services| && k < conns.Length
      requires i < msgs.Length && !msgs[i].used
      modifies this`queues, this`pending, conns, msgs, heads, parts
      ensures Sound(0) && handle == Make(CONNECTION, k, old(conns[k].gen))
      ensures Abs() == OpenConnection(c, old(Abs()), k, i, caller, s, handle)
    {
      hide Inv;
      hide Sound;
      hide OpenConnection;
      ghost var st := Abs();
      SlotFacts(i);
      OnlyQueuedIsQueued(c, st, i);
      var instance := InstanceOfCaller(caller);
      var conn := conns[k].(caller := caller, instance := instance, service := s, state := PendingConnect, latch := false);
      handle := Make(CONNECTION, k, conn.gen);
      OpenIsPlace(c, st, k, i, caller, s, handle);
      PutConn(k, conn);
      var m := msgs[i].(used := true, caller := caller, conn := k, service := s, kind := IPC_CONNECT, next := NONE);
      Place(i, m, handle);
    }

    /** A synchronous call up to its dispatch. */
    method StartCall(caller: int, h: int, kind: int, ins: VecArg, outs: VecArg) returns (ret: int, msg: Option<nat>)
      requires Valid() && caller !in pending
      modifies this`queues, this`pending, conns, msgs, heads, parts
      ensures Valid()
      ensures ClientRes(Abs(), ret, msg) == CallBegin(c, old(Abs()), caller, h, kind, ins, outs)
    {
      hide Inv;
      hide Sound;
      hide Shape;
      hide CallOn;
      ghost var st := Abs();
      SlotFacts(0);
      InvFacts(c, st);
      CallBeginInv(c, st, caller, h, kind, ins, outs);
      if caller == 0 {
        return INVALID_ARGUMENT, None;
      }
      var found := ConnectionFromHandle(caller, h);
      if found.Refused? {
        return PROGRAMMER_ERROR, None;
      }
      ret, msg := StartCallOn(found.index, caller, h, kind, ins, outs);
    }

    method StartCallOn(k: nat, caller: int, h: int, kind: int, ins: VecArg, outs: VecArg) returns (ret: int, msg: Option<nat>)
      requires Sound(0) && Inv(c, Abs()) && Shape(c, Abs()) && k < conns.Length && conns[k].state != Free
      modifies this`queues, this`pending, conns, msgs, heads, parts
      ensures Sound(0)
      ensures ClientRes(Abs(), ret, msg) == CallOn(c, old(Abs()), k, caller, h, kind, ins, outs)
    {
      hide Inv;
      hide Sound;
      hide Shape;
      hide VectorError;
      hide Submit;
      hide NextGeneration;
      SlotFacts(0);
      if kind < 0 || |ins.vecs| > MAX_IOVEC || |outs.vecs| > MAX_IOVEC || |ins.vecs| + |outs.vecs| > MAX_IOVEC {
        if conns[k].state == Idle {
          PutConn(k, conns[k].(state := Error));
        } else {
          PutConn(k, conns[k].(latch := true));
        }
        return PROGRAMMER_ERROR, None;
      }
      if conns[k].state != Idle {
        PutConn(k, conns[k].(latch := true));
        return PROGRAMMER_ERROR, None;
      }
      var i := FindFreeMessage();
      if i == msgs.Length {
        return INSUFFICIENT_MEMORY, None;
      }
      ret := SendCall(k, i, caller, h, kind, ins, outs);
      msg := if ret == SUCCESS then Some(i) else None;
    }

    /** Captures the vectors of a synchronous call and queues it, or gives the slot back. */
    method SendCall(k: nat, i: nat, caller: int, h: int, kind: int, ins: VecArg, outs: VecArg) returns (ret: int)
      requires Sound(0) && Inv(c, Abs()) && Shape(c, Abs()) && k < conns.Length && conns[k].state == Idle
      requires i < msgs.Length && !msgs[i].used && |ins.vecs| + |outs.vecs| <= MAX_IOVEC
      modifies this`queues, this`pending, conns, msgs, heads, parts
      ensures Sound(0)
      ensures var st := old(Abs());
              var error := VectorError(c, env, caller, ins, outs);
              if error == FFM_BUFFER then Abs() == ReleaseMsg(st, i) && ret == INVALID_ARGUMENT
              else if error != SUCCESS then
                Abs() == SetConn(ReleaseMsg(st, i), k, st.conns[k].(state := Error)) && ret == PROGRAMMER_ERROR
              else
                && Abs() == Submit(c, st, k, i, caller, kind, Capture(env.memory, ins.vecs), Prepare(outs.vecs),
                                   PendingRequest, h)
                && ret == SUCCESS
    {
      hide Inv;
      hide VectorError;
      hide Sound;
      hide NextGeneration;
      ghost var st := Abs();
      SlotFacts(i);
      OnlyQueuedIsQueued(c, st, i);
      var error, m := PrepareVectors(c, env, caller, msgs[i], ins, outs);
      if error == SUCCESS {
        PutConn(k, conns[k].(state := PendingRequest));
        m := m.(used := true, caller := caller, conn := k, service := conns[k].service, kind := kind, next := NONE);
        Place(i, m, h);
        return SUCCESS;
      }
      ReleaseMessage(i, 0);
      if error == FFM_BUFFER {
        return INVALID_ARGUMENT;
      }
      PutConn(k, conns[k].(state := Error));
      ret := PROGRAMMER_ERROR;
    }

    /** A synchronous close up to its dispatch. */
    method StartClose(caller: int, h: int) returns (ret: int, msg: Option<nat>)
      requires Valid() && caller !in pending
      modifies this`queues, this`pending, conns, msgs, heads, parts
      ensures Valid()
      ensures ClientRes(Abs(), ret, msg) == CloseBegin(c, old(Abs()), caller, h)
    {
      hide Shape;
      hide Inv;
      hide Sound;
      hide Submit;
      ghost var st := Abs();
      SlotFacts(0);
      InvFacts(c, st);
      CloseBeginInv(c, st, caller, h);
      if h == 0 {
        return SUCCESS, None;
      }
      if caller == 0 {
        return FFM_ARGUMENT, None;
      }
      var found := ConnectionFromHandle(caller, h);
      if found.Refused? {
        return found.error, None;
      }
      var k := found.index;
      if conns[k].state != Idle && conns[k].state != Error {
        return FFM_STATE, None;
      }
      ret, msg := StartDisconnect(k, caller, h);
    }

    /** A synchronous close of an open connection: an abandoned request takes it over, or a disconnect is queued. */
    method StartDisconnect(k: nat, caller: int, h: int) returns (ret: int, msg: Option<nat>)
      requires Sound(0) && Inv(c, Abs()) && Shape(c, Abs()) && k < conns.Length && conns[k].state != Free
      modifies this`queues, this`pending, conns, msgs, heads, parts
      ensures Sound(0)
      ensures var st := old(Abs());
              var j, i := AbandonedOn(st.msgs, k, 0), FreeMsgFrom(st.msgs, 0);
              if j.Some? then
                && ret == SUCCESS && msg == None
                && Abs() == SetConn(SetMsg(st, j.value, st.msgs[j.value].(abandon := AwaitClose)), k,
                                    st.conns[k].(state := Disconnecting))
              else if i == |st.msgs| then ret == FFM_RESOURCE && msg == None && Abs() == st
              else
                && ret == SUCCESS && msg == Some(i)
                && Abs() == Submit(c, st, k, i, caller, IPC_DISCONNECT, [], [], Disconnecting, h)
    {
      hide Inv;
      hide Sound;
      hide Shape;
      hide Submit;
      SlotFacts(0);
      var handed := CloseAbandoned(k);
      if handed {
        return SUCCESS, None;
      }
      var i := FindFreeMessage();
      if i == msgs.Length {
        return FFM_RESOURCE, None;
      }
      SendClose(k, i, caller, h);
      return SUCCESS, Some(i);
    }

    /** Queues the disconnect of a synchronous close. */
    method SendClose(k: nat, i: nat, caller: int, h: int)
      requires Sound(0) && Inv(c, Abs()) && Shape(c, Abs()) && k < conns.Length && conns[k].state != Free
      requires i < msgs.Length && !msgs[i].used
      modifies this`queues, this`pending, conns, msgs, heads, parts
      ensures Sound(0)
      ensures Abs() == Submit(c, old(Abs()), k, i, caller, IPC_DISCONNECT, [], [], Disconnecting, h)
    {
      hide Inv;
      hide Sound;
      ghost var st := Abs();
      SlotFacts(i);
      OnlyQueuedIsQueued(c, st, i);
      PutConn(k, conns[k].(state := Disconnecting));
      var s := conns[k].service;
      Place(i, msgs[i].(used := true, kind := IPC_DISCONNECT, caller := caller, conn := k, service := s, next := NONE), h);
    }

    /**
      A synchronous connect: begin, whatever the dispatch runs (steps, ending in the
      state final and reporting result), and the return.  When the dispatch completes
      the request this is the split form: begin, the same steps, finish.
      */
    method Connect(caller: int, sid: nat, version: nat, steps: seq<Step>, result: int, ghost final: Ipc) returns (handle: int)
      requires Valid() && caller !in pending
      requires var b := ConnectBegin(c, Abs(), caller, sid, version);
               b.msg.Some? ==> Runs(c, b.st, steps, final) && ForeignRun(steps, caller)
      modifies this, conns, msgs, heads, parts
      ensures Valid()
      ensures var b := ConnectBegin(c, old(Abs()), caller, sid, version);
              if b.msg.None? then Abs() == b.st && handle == b.ret
              else
                var i := b.msg.value;
                && Shape(c, final) && i < |final.msgs| && final.msgs[i].phase != Unused
                && var ret := DispatchResult(final.msgs[i].phase == Phase.Complete, result);
                   && ClientRes(Abs(), handle, None) == ConnectReturn(c, final, i, b.ret, ret)
                   && (ret == SUCCESS ==> ClientRes(Abs(), handle, None) == ConnectFinish(c, final, i))
    {
      ghost var st := Abs();
      hide Inv;
      hide Sound;
      hide Shape;
      hide ConnectBegin;
      hide ConnectReturn;
      hide ConnectFinish;
      hide Runs;
      InvFacts(c, st);
      var ret, msg := StartConnect(caller, sid, version);
      if msg.None? {
        return ret;
      }
      RunSteps(steps, final);
      ConnectSplitIsSync(c, st, caller, sid, version, steps, final);
      WaitFacts(c, final, caller);
      assert Abs().msgs[msg.value] == AbsMsg(msgs[msg.value]);
      var r := DispatchResult(msgs[msg.value].used && msgs[msg.value].complete, result);
      handle := ReturnConnect(msg.value, ret, r);
    }

    method Call(caller: int, h: int, kind: int, ins: VecArg, outs: VecArg, steps: seq<Step>, result: int, ghost final: Ipc)
      returns (status: int, lens: seq<nat>)
      requires Valid() && caller !in pending
      requires var b := CallBegin(c, Abs(), caller, h, kind, ins, outs);
               b.msg.Some? ==> Runs(c, b.st, steps, final) && ForeignRun(steps, caller)
      modifies this, conns, msgs, heads, parts
      ensures Valid()
      ensures var b := CallBegin(c, old(Abs()), caller, h, kind, ins, outs);
              if b.msg.None? then Abs() == b.st && status == b.ret && lens == []
              else
                var i := b.msg.value;
                && Shape(c, final) && i < |final.msgs| && final.msgs[i].phase != Unused
                && var ret := DispatchResult(final.msgs[i].phase == Phase.Complete, result);
                   && CallRes(Abs(), status, lens) == CallReturn(c, final, i, ret)
                   && (ret == SUCCESS ==> CallRes(Abs(), status, lens) == CallFinish(c, final, i, Some(|outs.vecs|)))
    {
      ghost var st := Abs();
      hide Inv;
      hide Sound;
      hide Shape;
      hide CallBegin;
      hide CallReturn;
      hide CallFinish;
      hide Runs;
      InvFacts(c, st);
      var ret, msg := StartCall(caller, h, kind, ins, outs);
      if msg.None? {
        return ret, [];
      }
      RunSteps(steps, final);
      CallSplitIsSync(c, st, caller, h, kind, ins, outs, steps, final, Some(|outs.vecs|));
      WaitFacts(c, final, caller);
      assert Abs().msgs[msg.value] == AbsMsg(msgs[msg.value]);
      var r := DispatchResult(msgs[msg.value].used && msgs[msg.value].complete, result);
      status, lens := ReturnCall(msg.value, r);
    }

    method Close(caller: int, h: int, steps: seq<Step>, result: int, ghost final: Ipc) returns (ret: int)
      requires Valid() && caller !in pending
      requires var b := CloseBegin(c, Abs(), caller, h);
               b.msg.Some? ==> Runs(c, b.st, steps, final) && ForeignRun(steps, caller)
      modifies this, conns, msgs, heads, parts
      ensures Valid()
      ensures var b := CloseBegin(c, old(Abs()), caller, h);
              if b.msg.None? then Abs() == b.st && ret == b.ret
              else
                var i := b.msg.value;
                && Shape(c, final) && i < |final.msgs| && final.msgs[i].phase != Unused
                && var r := DispatchResult(final.msgs[i].phase == Phase.Complete, result);
                   && ClientRes(Abs(), ret, None) == CloseReturn(c, final, i, r)
                   && (r == SUCCESS ==> ClientRes(Abs(), ret, None) == CloseFinish(c, final, i))
    {
      ghost var st := Abs();
      hide Inv;
      hide Sound;
      hide Shape;
      hide CloseBegin;
      hide CloseReturn;
      hide CloseFinish;
      hide Runs;
      InvFacts(c, st);
      var begun, msg := StartClose(caller, h);
      if msg.None? {
        return begun;
      }
      RunSteps(steps, final);
      CloseSplitIsSync(c, st, caller, h, steps, final);
      WaitFacts(c, final, caller);
      assert Abs().msgs[msg.value] == AbsMsg(msgs[msg.value]);
      var r := DispatchResult(msgs[msg.value].used && msgs[msg.value].complete, result);
      ret := ReturnClose(msg.value, r);
    }

    /** In a valid runtime every service's links spell out a FIFO that holds exactly its undelivered requests. */
    lemma LinksAreExact(s: nat)
      requires Valid() && s < |c.services|
      ensures Sizes() && |queues| == |c.services| && Spells(msgs[..], heads[s], queues[s], s)
      ensures forall i :: 0 <= i < msgs.Length ==>
                (i in queues[s] <==> msgs[i].used && !msgs[i].active && !msgs[i].complete && msgs[i].service == s)
      ensures Asserted(parts[c.services[s].partition].signals, c.services[s].signal) <==> heads[s].head != NONE
    {
      assert !ServedBy(c, s, 0) && QueueOk(c, Abs(), s);
      HeadTellsEmpty(msgs[..], heads[s], queues[s], s);
      forall i | 0 <= i < msgs.Length
        ensures i in queues[s] <==> msgs[i].used && !msgs[i].active && !msgs[i].complete && msgs[i].service == s
      {
        assert Abs().msgs[i] == AbsMsg(msgs[i]) && SlotOk(msgs[i], c.transferLimit);
      }
    }
  }
}
