/**
  Fault cleanup: what a failed partition, a failed client and a restart leave behind.
  */
module IpcFaults {
  import opened Handles
  import opened IpcModel
  import opened IpcInvariant
  import opened IpcPreserve

  /** The invariant with the queues of partition pid and the waiting state of client caller exempt. */
  ghost predicate InvExcept(c: Config, st: Ipc, pid: int, caller: int) {
    Shape(c, st) && CoreOk(c, st) && QueuesOk(c, st, pid) && SignalsOk(c, st) && PendsOk(st, caller)
  }

  // ---------------------------------------------------------------- failing a partition's requests

  lemma FailMsgInv(c: Config, st: Ipc, pid: int, status: int, i: nat)
    requires InvExcept(c, st, pid, 0) && i < |st.msgs|
    ensures InvExcept(c, FailMsg(c, st, pid, status, i), pid, 0)
  {
    var m := st.msgs[i];
    if InFlight(m) && ServedBy(c, m.service, pid) {
      FailMsgCore(c, st, pid, status, i);
      FailMsgQueues(c, st, pid, status, i);
      FailMsgPends(c, st, pid, status, i);
      FailMsgEffect(c, st, pid, status, i);
      hide FailMsg;
      hide CoreOk;
      hide QueuesOk;
      hide PendsOk;
    }
  }

  lemma FailMsgCore(c: Config, st: Ipc, pid: int, status: int, i: nat)
    requires Shape(c, st) && CoreOk(c, st) && i < |st.msgs| && InFlight(st.msgs[i]) && ServedBy(c, st.msgs[i].service, pid)
    ensures CoreOk(c, FailMsg(c, st, pid, status, i))
  {
    var k := st.msgs[i].conn;
    var st' := FailMsg(c, st, pid, status, i);
    assert MsgOk(st, i) && ConnOk(c, st, k);
    hide Shape;
    LocalCore(c, st, st', k, i);
  }

  lemma FailMsgQueues(c: Config, st: Ipc, pid: int, status: int, i: nat)
    requires Shape(c, st) && QueuesOk(c, st, pid) && i < |st.msgs|
    requires InFlight(st.msgs[i]) && ServedBy(c, st.msgs[i].service, pid)
    ensures QueuesOk(c, FailMsg(c, st, pid, status, i), pid)
  {
    FailMsgEffect(c, st, pid, status, i);
    var st' := FailMsg(c, st, pid, status, i);
    hide FailMsg;
    forall s | 0 <= s < |c.services| && !ServedBy(c, s, pid) ensures QueueOk(c, st', s) {
      assert QueueOk(c, st, s);
    }
  }

  lemma FailMsgPends(c: Config, st: Ipc, pid: int, status: int, i: nat)
    requires Shape(c, st) && PendsOk(st, 0) && CoreOk(c, st) && i < |st.msgs|
    requires InFlight(st.msgs[i]) && ServedBy(c, st.msgs[i].service, pid)
    ensures PendsOk(FailMsg(c, st, pid, status, i), 0)
  {
    var st' := FailMsg(c, st, pid, status, i);
    forall x | x in st'.pending ensures PendOk(st', x) {
      assert PendOk(st, x);
    }
  }

  /** What failing slot i does to it. */
  function FailedMsg(c: Config, m: Msg, pid: int, status: int): Msg
    requires ConfigOk(c) && (m.phase != Unused ==> m.service < |c.services|)
  {
    if !InFlight(m) || !ServedBy(c, m.service, pid) then m
    else if m.abandon == Kept then m.(phase := Complete, status := status)
    else FreeMsg(NextGeneration(m.gen))
  }

  /** The first n slots are failed, the others are as they were. */
  ghost predicate FailedFirst(c: Config, st: Ipc, r: Ipc, pid: int, status: int, n: nat)
    requires Shape(c, st)
  {
    && |r.msgs| == |st.msgs|
    && forall i :: 0 <= i < |st.msgs| ==> r.msgs[i] == if i < n then FailedMsg(c, st.msgs[i], pid, status) else st.msgs[i]
  }

  ghost predicate SameRest(st: Ipc, r: Ipc) {
    r.queues == st.queues && r.signals == st.signals && r.instances == st.instances && r.env == st.env &&
    r.pending == st.pending
  }

  lemma FailMsgEffect(c: Config, st: Ipc, pid: int, status: int, i: nat)
    requires Shape(c, st) && i < |st.msgs|
    ensures var r := FailMsg(c, st, pid, status, i);
            SameRest(st, r) && r.msgs == st.msgs[i := FailedMsg(c, st.msgs[i], pid, status)]
  {
  }

  lemma FailedFirstNext(c: Config, st: Ipc, r: Ipc, r': Ipc, pid: int, status: int, n: nat)
    requires Shape(c, st) && Shape(c, r) && n < |st.msgs| && FailedFirst(c, st, r, pid, status, n)
    requires r'.msgs == r.msgs[n := FailedMsg(c, r.msgs[n], pid, status)]
    ensures FailedFirst(c, st, r', pid, status, n + 1)
  {
  }

  lemma NoneFailed(c: Config, st: Ipc, pid: int, status: int)
    requires Shape(c, st)
    ensures FailedFirst(c, st, st, pid, status, 0) && SameRest(st, st)
  {
  }

  lemma {:induction false} FailMsgsEffect(c: Config, st: Ipc, pid: int, status: int, n: nat)
    requires Shape(c, st) && n <= |st.msgs|
    ensures FailedFirst(c, st, FailMsgs(c, st, pid, status, n), pid, status, n)
    ensures SameRest(st, FailMsgs(c, st, pid, status, n))
  {
    hide Shape;
    hide FailMsg;
    hide FailedFirst;
    hide FailedMsg;
    if n == 0 {
      NoneFailed(c, st, pid, status);
    } else {
      var r := FailMsgs(c, st, pid, status, n - 1);
      FailMsgsEffect(c, st, pid, status, n - 1);
      FailMsgEffect(c, r, pid, status, n - 1);
      FailedFirstNext(c, st, r, FailMsg(c, r, pid, status, n - 1), pid, status, n - 1);
    }
  }

  lemma {:induction false} FailMsgsInv(c: Config, st: Ipc, pid: int, status: int, n: nat)
    requires Shape(c, st) && InvExcept(c, st, pid, 0) && n <= |st.msgs|
    ensures InvExcept(c, FailMsgs(c, st, pid, status, n), pid, 0)
  {
    hide Shape;
    hide InvExcept;
    hide FailMsg;
    if n > 0 {
      FailMsgsInv(c, st, pid, status, n - 1);
      FailMsgInv(c, FailMsgs(c, st, pid, status, n - 1), pid, status, n - 1);
    }
  }

  lemma InvGivesExcept(c: Config, st: Ipc, pid: int)
    requires Inv(c, st) && pid != 0
    ensures InvExcept(c, st, pid, 0)
  {
    forall s | 0 <= s < |c.services| && !ServedBy(c, s, pid) ensures QueueOk(c, st, s) {
      assert !ServedBy(c, s, 0);
    }
    forall i | 0 <= i < |st.msgs| && st.msgs[i].phase == Queued ensures i in st.queues[st.msgs[i].service] {
      assert !ServedBy(c, st.msgs[i].service, 0);
    }
  }

  ghost predicate DrainedFirst(c: Config, st: Ipc, r: Ipc, pid: int, n: nat)
    requires Shape(c, st)
  {
    && |r.queues| == |st.queues|
    && forall s :: 0 <= s < |c.services| ==> r.queues[s] == if s < n && ServedBy(c, s, pid) then [] else st.queues[s]
  }

  lemma {:induction false} DrainQueuesEffect(c: Config, st: Ipc, pid: int, n: nat)
    requires Shape(c, st) && n <= |c.services|
    ensures DrainedFirst(c, st, DrainQueues(c, st, pid, n), pid, n)
  {
    if n > 0 {
      DrainQueuesEffect(c, st, pid, n - 1);
    }
  }

  lemma {:induction false} DrainQueuesSignals(c: Config, st: Ipc, pid: int, n: nat)
    requires Shape(c, st) && SignalsOk(c, st) && n <= |c.services|
    ensures SignalsOk(c, DrainQueues(c, st, pid, n))
  {
    if n > 0 {
      DrainQueuesSignals(c, st, pid, n - 1);
      SetQueueSignals(c, DrainQueues(c, st, pid, n - 1), n - 1, []);
    }
  }

  ghost predicate NoneInFlightAt(c: Config, st: Ipc, pid: int)
    requires Shape(c, st)
  {
    forall i :: 0 <= i < |st.msgs| ==> !(InFlight(st.msgs[i]) && ServedBy(c, st.msgs[i].service, pid))
  }

  /** Emptying the queues of pid restores the invariant once no request of pid is in flight. */
  lemma DrainRestores(c: Config, st: Ipc, r: Ipc, pid: int)
    requires InvExcept(c, st, pid, 0) && pid != 0 && NoneInFlightAt(c, st, pid)
    requires Shape(c, r) && r == st.(queues := r.queues, signals := r.signals)
    requires DrainedFirst(c, st, r, pid, |c.services|) && SignalsOk(c, r)
    ensures Inv(c, r)
  {
    assert CoreOk(c, r) by {
      forall j | 0 <= j < |r.conns| ensures ConnOk(c, r, j) { assert ConnOk(c, st, j); }
      forall j | 0 <= j < |r.msgs| ensures MsgOk(r, j) { assert MsgOk(st, j); }
    }
    assert QueuesOk(c, r, 0) by {
      forall s | 0 <= s < |c.services| ensures QueueOk(c, r, s) {
        if !ServedBy(c, s, pid) {
          assert QueueOk(c, st, s);
        }
      }
    }
    assert PendsOk(r, 0) by {
      forall x | x in r.pending ensures PendOk(r, x) { assert PendOk(st, x); }
    }
  }

  function FailedConn(c: Config, conn: Conn, pid: int): Conn
    requires ConfigOk(c) && (conn.state != Free ==> conn.service < |c.services|)
  {
    if conn.state == Free || conn.state == Terminal || !ServedBy(c, conn.service, pid) then conn
    else conn.(state := Error, rhandle := 0)
  }

  ghost predicate ConnsFailedFirst(c: Config, st: Ipc, r: Ipc, pid: int, n: nat)
    requires Shape(c, st)
  {
    && |r.conns| == |st.conns|
    && forall k :: 0 <= k < |st.conns| ==> r.conns[k] == if k < n then FailedConn(c, st.conns[k], pid) else st.conns[k]
  }

  lemma {:induction false} FailConnsEffect(c: Config, st: Ipc, pid: int, n: nat)
    requires Shape(c, st) && n <= |st.conns|
    ensures ConnsFailedFirst(c, st, FailConns(c, st, pid, n), pid, n)
  {
    if n > 0 {
      FailConnsEffect(c, st, pid, n - 1);
    }
  }

  lemma FailConnInv(c: Config, st: Ipc, pid: int, k: nat)
    requires Inv(c, st) && k < |st.conns| && NoneInFlightAt(c, st, pid)
    ensures Inv(c, FailConn(c, st, pid, k))
  {
    var conn := st.conns[k];
    if conn.state != Free && conn.state != Terminal && ServedBy(c, conn.service, pid) {
      forall j | 0 <= j < |st.msgs| && st.msgs[j].phase != Unused && st.msgs[j].conn == k
        ensures Compatible(conn.(state := Error, rhandle := 0), st.msgs[j])
      {
        assert MsgOk(st, j);
      }
      ConnChange(c, st, k, conn.(state := Error, rhandle := 0));
    }
  }

  lemma {:induction false} FailConnsInv(c: Config, st: Ipc, pid: int, n: nat)
    requires Inv(c, st) && n <= |st.conns| && NoneInFlightAt(c, st, pid)
    ensures Inv(c, FailConns(c, st, pid, n))
  {
    InvShape(c, st);
    hide Inv;
    hide Shape;
    hide FailConn;
    if n > 0 {
      FailConnsInv(c, st, pid, n - 1);
      FailConnInv(c, FailConns(c, st, pid, n - 1), pid, n - 1);
    }
  }

  /** Failing a partition completes what it served, empties its queues and drops its connections. */
  ghost predicate PartitionFailed(c: Config, st: Ipc, r: Ipc, pid: int, status: int)
    requires Shape(c, st)
  {
    && FailedFirst(c, st, r, pid, status, |st.msgs|)
    && DrainedFirst(c, st, r, pid, |c.services|)
    && r.pending == st.pending && r.instances == st.instances && r.env == st.env
    && (forall k :: 0 <= k < |r.conns| && r.conns[k].state !in {Free, Terminal} && r.conns[k].service < |c.services| ==>
          ServedBy(c, r.conns[k].service, pid) ==> r.conns[k].state == Error && r.conns[k].rhandle == 0)
  }

  /** The first two loops: every request of the partition has failed and its queues are empty. */
  lemma FailRequestsInv(c: Config, st: Ipc, pid: int, status: int)
    requires Inv(c, st) && pid != 0
    ensures var r := DrainQueues(c, FailMsgs(c, st, pid, status, |st.msgs|), pid, |c.services|);
            && Inv(c, r) && FailedFirst(c, st, r, pid, status, |st.msgs|) && DrainedFirst(c, st, r, pid, |c.services|)
            && r.pending == st.pending && r.instances == st.instances && r.env == st.env && |r.conns| == |st.conns|
  {
    InvGivesExcept(c, st, pid);
    InvShape(c, st);
    hide Inv;
    hide Shape;
    hide FailMsgs;
    hide DrainQueues;
    var r1 := FailMsgs(c, st, pid, status, |st.msgs|);
    FailMsgsEffect(c, st, pid, status, |st.msgs|);
    FailMsgsInv(c, st, pid, status, |st.msgs|);
    NoneLeft(c, st, r1, pid, status);
    hide NoneInFlightAt;
    hide CoreOk;
    hide QueuesOk;
    hide PendsOk;
    hide FailedMsg;
    var r2 := DrainQueues(c, r1, pid, |c.services|);
    DrainQueuesEffect(c, r1, pid, |c.services|);
    DrainQueuesSignals(c, r1, pid, |c.services|);
    DrainRestores(c, r1, r2, pid);
  }

  lemma FailPartitionInv(c: Config, st: Ipc, pid: int, status: int)
    requires Inv(c, st) && pid != 0
    ensures Inv(c, FailPartition(c, st, pid, status))
    ensures PartitionFailed(c, st, FailPartition(c, st, pid, status), pid, status)
  {
    FailRequestsInv(c, st, pid, status);
    InvShape(c, st);
    hide Inv;
    var r := DrainQueues(c, FailMsgs(c, st, pid, status, |st.msgs|), pid, |c.services|);
    hide DrainQueues;
    hide FailMsgs;
    hide Shape;
    hide FailedFirst;
    hide DrainedFirst;
    NoneLeft(c, st, r, pid, status);
    FailConnsEffect(c, r, pid, |st.conns|);
    FailConnsInv(c, r, pid, |st.conns|);
    FailedFrom(c, st, r, FailConns(c, r, pid, |st.conns|), pid, status);
    hide FailConns;
  }

  lemma NoneLeft(c: Config, st: Ipc, r: Ipc, pid: int, status: int)
    requires Shape(c, st) && Shape(c, r) && FailedFirst(c, st, r, pid, status, |st.msgs|)
    ensures NoneInFlightAt(c, r, pid)
  {
    forall i | 0 <= i < |r.msgs| ensures !(InFlight(r.msgs[i]) && ServedBy(c, r.msgs[i].service, pid)) {
      assert r.msgs[i] == FailedMsg(c, st.msgs[i], pid, status);
    }
  }

  lemma FailedFrom(c: Config, st: Ipc, r: Ipc, r': Ipc, pid: int, status: int)
    requires Shape(c, st) && Shape(c, r)
    requires FailedFirst(c, st, r, pid, status, |st.msgs|) && DrainedFirst(c, st, r, pid, |c.services|)
    requires r.pending == st.pending && r.instances == st.instances && r.env == st.env
    requires r' == r.(conns := r'.conns) && ConnsFailedFirst(c, r, r', pid, |r.conns|)
    ensures PartitionFailed(c, st, r', pid, status)
  {
    forall k | 0 <= k < |r'.conns| ensures r'.conns[k] == FailedConn(c, r.conns[k], pid) {
    }
  }

  // ---------------------------------------------------------------- failing a client

  lemma DropMsgInv(c: Config, st: Ipc, caller: int, i: nat)
    requires InvExcept(c, st, 0, caller) && caller !in st.pending && i < |st.msgs|
    ensures InvExcept(c, DropMsg(c, st, caller, i), 0, caller)
  {
    var m := st.msgs[i];
    if m.phase != Unused && m.caller == caller {
      DropMsgCore(c, st, caller, i);
      DropMsgQueues(c, st, caller, i);
      DropMsgPends(c, st, caller, i);
    }
    hide DropMsg;
    hide CoreOk;
    hide QueuesOk;
    hide SignalsOk;
    hide PendsOk;
  }

  lemma DropMsgCore(c: Config, st: Ipc, caller: int, i: nat)
    requires Shape(c, st) && CoreOk(c, st) && i < |st.msgs| && st.msgs[i].phase != Unused && st.msgs[i].caller == caller
    ensures CoreOk(c, DropMsg(c, st, caller, i))
  {
    hide Without;
    var k := st.msgs[i].conn;
    assert MsgOk(st, i) && ConnOk(c, st, k);
    LocalCore(c, st, DropMsg(c, st, caller, i), k, i);
  }

  lemma DropMsgQueues(c: Config, st: Ipc, caller: int, i: nat)
    requires Shape(c, st) && QueuesOk(c, st, 0) && SignalsOk(c, st) && i < |st.msgs|
    requires st.msgs[i].phase != Unused && st.msgs[i].caller == caller
    ensures QueuesOk(c, DropMsg(c, st, caller, i), 0) && SignalsOk(c, DropMsg(c, st, caller, i))
  {
    var s := st.msgs[i].service;
    var st' := DropMsg(c, st, caller, i);
    assert QueueOk(c, st, s);
    WithoutFacts(st.queues[s], i);
    hide Without;
    if st.msgs[i].phase == Queued {
      SetQueueSignals(c, st, s, Without(st.queues[s], i));
      LeaveQueue(c, st, st', s, Without(st.queues[s], i), i);
    } else {
      SameQueues(c, st, st', 0);
    }
  }

  lemma DropMsgPends(c: Config, st: Ipc, caller: int, i: nat)
    requires Shape(c, st) && PendsOk(st, caller) && caller !in st.pending && i < |st.msgs|
    requires st.msgs[i].phase != Unused && st.msgs[i].caller == caller
    ensures PendsOk(DropMsg(c, st, caller, i), caller)
  {
    hide Without;
    var st' := DropMsg(c, st, caller, i);
    forall x | x in st'.pending ensures PendOk(st', x) {
      assert PendOk(st, x);
    }
  }

  /** The first n slots hold no request of caller, and no other slot changed. */
  ghost predicate DroppedFirst(st: Ipc, r: Ipc, caller: int, n: nat) {
    && |r.msgs| == |st.msgs|
    && forall i :: 0 <= i < |st.msgs| ==>
         r.msgs[i] == if i < n && st.msgs[i].phase != Unused && st.msgs[i].caller == caller
                      then FreeMsg(NextGeneration(st.msgs[i].gen)) else st.msgs[i]
  }

  lemma DropMsgEffect(c: Config, st: Ipc, caller: int, i: nat)
    requires Shape(c, st) && i < |st.msgs|
    ensures DropMsg(c, st, caller, i).msgs ==
              st.msgs[i := if st.msgs[i].phase != Unused && st.msgs[i].caller == caller
                           then FreeMsg(NextGeneration(st.msgs[i].gen)) else st.msgs[i]]
  {
  }

  lemma {:induction false} DropMsgsEffect(c: Config, st: Ipc, caller: int, n: nat)
    requires Shape(c, st) && n <= |st.msgs|
    ensures DroppedFirst(st, DropMsgs(c, st, caller, n), caller, n)
  {
    hide Shape;
    hide DropMsg;
    hide NextGeneration;
    if n > 0 {
      DropMsgsEffect(c, st, caller, n - 1);
      DropMsgEffect(c, DropMsgs(c, st, caller, n - 1), caller, n - 1);
    }
  }

  lemma {:induction false} DropMsgsInv(c: Config, st: Ipc, caller: int, n: nat)
    requires Shape(c, st) && InvExcept(c, st, 0, caller) && caller !in st.pending && n <= |st.msgs|
    ensures InvExcept(c, DropMsgs(c, st, caller, n), 0, caller)
  {
    hide Shape;
    hide InvExcept;
    hide DropMsg;
    if n > 0 {
      DropMsgsInv(c, st, caller, n - 1);
      DropMsgInv(c, DropMsgs(c, st, caller, n - 1), caller, n - 1);
    }
  }

  ghost predicate ConnsDroppedFirst(st: Ipc, r: Ipc, caller: int, n: nat) {
    && |r.conns| == |st.conns|
    && forall k :: 0 <= k < |st.conns| ==>
         r.conns[k] == if k < n && st.conns[k].state != Free && st.conns[k].caller == caller
                       then FreeConn(NextGeneration(st.conns[k].gen)) else st.conns[k]
  }

  lemma {:induction false} DropConnsEffect(c: Config, st: Ipc, caller: int, n: nat)
    requires n <= |st.conns|
    ensures ConnsDroppedFirst(st, DropConns(c, st, caller, n), caller, n)
  {
    if n > 0 {
      DropConnsEffect(c, st, caller, n - 1);
    }
  }

  ghost predicate NoRequestOf(st: Ipc, caller: int) {
    forall i :: 0 <= i < |st.msgs| && st.msgs[i].phase != Unused ==> st.msgs[i].caller != caller
  }

  lemma {:induction false} DropConnsInv(c: Config, st: Ipc, caller: int, n: nat)
    requires Inv(c, st) && NoRequestOf(st, caller) && n <= |st.conns|
    ensures Inv(c, DropConns(c, st, caller, n))
  {
    if n > 0 {
      DropConnsInv(c, st, caller, n - 1);
      var r := DropConns(c, st, caller, n - 1);
      if r.conns[n - 1].state != Free && r.conns[n - 1].caller == caller {
        forall j | 0 <= j < |r.msgs| && r.msgs[j].phase != Unused ensures r.msgs[j].conn != n - 1 {
          assert MsgOk(r, j);
        }
        FreeSlot(c, r, n - 1);
      }
    }
  }

  /** Failing a client frees exactly its requests and its connections. */
  ghost predicate ClientFailed(st: Ipc, r: Ipc, caller: int) {
    && DroppedFirst(st, r, caller, |st.msgs|)
    && ConnsDroppedFirst(st, r, caller, |st.conns|)
    && r.instances == st.instances && r.env == st.env && r.pending == st.pending - {caller}
  }

  lemma FailClientInv(c: Config, st: Ipc, caller: int)
    requires Inv(c, st)
    ensures Inv(c, FailClient(c, st, caller))
    ensures ClientFailed(st, FailClient(c, st, caller), caller)
  {
    var st0 := Unpend(st, caller);
    UnpendInv(c, st, caller);
    var st1 := DropMsgs(c, st0, caller, |st.msgs|);
    DropMsgsInv(c, st0, caller, |st.msgs|);
    DropMsgsEffect(c, st0, caller, |st.msgs|);
    assert Inv(c, st1);
    DropConnsInv(c, st1, caller, |st.conns|);
    DropConnsEffect(c, st1, caller, |st.conns|);
  }

  lemma UnpendInv(c: Config, st: Ipc, caller: int)
    requires Inv(c, st)
    ensures InvExcept(c, Unpend(st, caller), 0, caller)
  {
    var st' := Unpend(st, caller);
    assert CoreOk(c, st') by {
      forall j | 0 <= j < |st'.conns| ensures ConnOk(c, st', j) { assert ConnOk(c, st, j); }
      forall j | 0 <= j < |st'.msgs| ensures MsgOk(st', j) {
        assert MsgOk(st, j);
      }
    }
    SameQueues(c, st, st', 0);
    assert PendsOk(st', caller) by {
      forall x | x in st'.pending ensures PendOk(st', x) { assert PendOk(st, x); }
      forall i | 0 <= i < |st.msgs| && st.msgs[i].phase != Unused ensures st.msgs[i].caller != 0 {
        assert MsgOk(st, i) && ConnOk(c, st, st.msgs[i].conn);
      }
    }
  }

  // ---------------------------------------------------------------- restarting a partition

  /** What wt_ffm_partition_restarted promises: the new instance starts from nothing. */
  ghost predicate CleanRestart(c: Config, st: Ipc, r: Ipc, pid: int, status: int, p: nat)
    requires Shape(c, st) && Shape(c, r) && p < |c.partitions| && |r.msgs| == |st.msgs|
  {
    && (forall s :: 0 <= s < |c.services| && c.services[s].partition == p ==> r.queues[s] == [])
    && r.signals[p] == {}
    && (forall i :: 0 <= i < |st.msgs| && InFlight(st.msgs[i]) && ServedBy(c, st.msgs[i].service, pid)
          ==> r.msgs[i] == if st.msgs[i].abandon == Kept then st.msgs[i].(phase := Complete, status := status)
                           else FreeMsg(NextGeneration(st.msgs[i].gen)))
    && (forall i :: 0 <= i < |st.msgs| && st.msgs[i].phase != Unused && st.msgs[i].caller != pid
                    && !(InFlight(st.msgs[i]) && ServedBy(c, st.msgs[i].service, pid))
          ==> r.msgs[i] == st.msgs[i])
    && (forall k :: 0 <= k < |r.conns| && r.conns[k].state != Free ==> r.conns[k].caller != pid)
    && (forall i :: 0 <= i < |r.msgs| && r.msgs[i].phase != Unused ==> r.msgs[i].caller != pid)
    && (forall k :: 0 <= k < |r.conns| && r.conns[k].state !in {Free, Terminal} && ServedBy(c, r.conns[k].service, pid)
          ==> r.conns[k].state == Error && r.conns[k].rhandle == 0)
    && pid !in r.pending
  }

  lemma RestartedInv(c: Config, st: Ipc, pid: int, status: int)
    requires Inv(c, st)
    ensures Inv(c, Restarted(c, st, pid, status))
    ensures |Restarted(c, st, pid, status).msgs| == |st.msgs|
    ensures FindPartition(c, pid).Some? ==>
              CleanRestart(c, st, Restarted(c, st, pid, status), pid, status, FindPartition(c, pid).value)
  {
    hide Inv;
    hide Shape;
    hide CleanRestart;
    hide PartitionFailed;
    hide FailPartition;
    InvShape(c, st);
    if FindPartition(c, pid).Some? {
      FailPartitionInv(c, st, pid, status);
      RestartTail(c, st, FailPartition(c, st, pid, status), pid, status, FindPartition(c, pid).value);
    }
  }

  lemma RestartTail(c: Config, st: Ipc, r1: Ipc, pid: int, status: int, p: nat)
    requires Shape(c, st) && Shape(c, r1) && Inv(c, st) && Inv(c, r1) && PartitionFailed(c, st, r1, pid, status)
    requires p < |c.partitions| && c.partitions[p].id == pid
    ensures var r2 := FailClient(c, r1, pid);
            var r := r2.(signals := r2.signals[p := {}],
                         instances := r2.instances[p := (r2.instances[p] + 1) % 0x1_0000_0000]);
            Inv(c, r) && |r.msgs| == |st.msgs| && CleanRestart(c, st, r, pid, status, p)
  {
    hide Inv;
    hide FailClient;
    hide CleanRestart;
    var r2 := FailClient(c, r1, pid);
    FailClientInv(c, r1, pid);
    DrainedQueues(c, st, r1, pid, status, p);
    FailClientQueues(c, r1, r2, p, pid);
    ResetInv(c, r2, p, pid);
    var r := r2.(signals := r2.signals[p := {}], instances := r2.instances[p := (r2.instances[p] + 1) % 0x1_0000_0000]);
    InvShape(c, r2);
    InvShape(c, r);
    RestartEffect(c, st, r1, r2, r, pid, status, p);
  }

  lemma InvShape(c: Config, st: Ipc)
    requires Inv(c, st)
    ensures Shape(c, st)
  {
  }

  lemma DrainedQueues(c: Config, st: Ipc, r1: Ipc, pid: int, status: int, p: nat)
    requires Shape(c, st) && PartitionFailed(c, st, r1, pid, status) && p < |c.partitions| && c.partitions[p].id == pid
    ensures |r1.queues| == |c.services|
    ensures forall s :: 0 <= s < |c.services| && c.services[s].partition == p ==> r1.queues[s] == []
  {
  }

  /** Dropping a client only ever shortens a queue. */
  lemma QueuesShrink(c: Config, r1: Ipc, r2: Ipc, pid: int, s: nat)
    requires Inv(c, r1) && Inv(c, r2) && ClientFailed(r1, r2, pid) && s < |c.services| && r2.queues[s] != []
    ensures r1.queues[s] != []
  {
    assert QueueOk(c, r2, s);
    var i := r2.queues[s][0];
    assert r1.msgs[i].phase == Queued && r1.msgs[i].service == s;
  }

  lemma FailClientQueues(c: Config, r1: Ipc, r2: Ipc, p: nat, pid: int)
    requires Inv(c, r1) && Inv(c, r2) && ClientFailed(r1, r2, pid) && p < |c.partitions|
    requires forall s :: 0 <= s < |c.services| && c.services[s].partition == p ==> r1.queues[s] == []
    ensures forall s :: 0 <= s < |c.services| && c.services[s].partition == p ==> r2.queues[s] == []
  {
    forall s | 0 <= s < |c.services| && c.services[s].partition == p ensures r2.queues[s] == [] {
      if r2.queues[s] != [] {
        QueuesShrink(c, r1, r2, pid, s);
      }
    }
  }

  /** Clearing the signals and advancing the instance of an idle partition keeps the invariant. */
  lemma ResetInv(c: Config, st: Ipc, p: nat, pid: int)
    requires Inv(c, st) && p < |c.partitions| && c.partitions[p].id == pid
    requires forall s :: 0 <= s < |c.services| && c.services[s].partition == p ==> st.queues[s] == []
    requires forall k :: 0 <= k < |st.conns| && st.conns[k].state != Free ==> st.conns[k].caller != pid
    ensures Inv(c, st.(signals := st.signals[p := {}],
                       instances := st.instances[p := (st.instances[p] + 1) % 0x1_0000_0000]))
  {
    var st' := st.(signals := st.signals[p := {}], instances := st.instances[p := (st.instances[p] + 1) % 0x1_0000_0000]);
    assert Shape(c, st');
    assert CoreOk(c, st') by {
      forall j | 0 <= j < |st'.conns| ensures ConnOk(c, st', j) { assert ConnOk(c, st, j); }
      forall j | 0 <= j < |st'.msgs| ensures MsgOk(st', j) { assert MsgOk(st, j); }
    }
    SameQueues(c, st, st', 0);
    assert PendsOk(st', 0) by {
      forall x | x in st'.pending ensures PendOk(st', x) { assert PendOk(st, x); }
    }
  }

  lemma RestartEffect(c: Config, st: Ipc, r1: Ipc, r2: Ipc, r: Ipc, pid: int, status: int, p: nat)
    requires Inv(c, st) && Shape(c, r1) && Shape(c, r2) && Shape(c, r) && p < |c.partitions| && c.partitions[p].id == pid
    requires PartitionFailed(c, st, r1, pid, status) && ClientFailed(r1, r2, pid)
    requires r == r2.(signals := r2.signals[p := {}], instances := r.instances)
    requires forall s :: 0 <= s < |c.services| && c.services[s].partition == p ==> r2.queues[s] == []
    ensures CleanRestart(c, st, r, pid, status, p)
  {
    forall i | 0 <= i < |st.msgs| && InFlight(st.msgs[i]) && ServedBy(c, st.msgs[i].service, pid)
      ensures st.msgs[i].caller != pid
    {
      assert MsgOk(st, i) && ConnOk(c, st, st.msgs[i].conn);
      assert c.services[st.msgs[i].service].partition == p;
    }
  }
}
