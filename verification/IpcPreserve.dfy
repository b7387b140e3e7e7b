/**
  Every operation of the IPC runtime preserves the invariant.
  */
module IpcPreserve {
  import opened Bits
  import opened Handles
  import opened IpcModel
  import opened IpcInvariant

  ghost predicate NoRequest(st: Ipc, k: nat) {
    forall j :: 0 <= j < |st.msgs| && st.msgs[j].phase != Unused ==> st.msgs[j].conn != k
  }

  lemma FreeHasNoRequest(c: Config, st: Ipc, k: nat)
    requires Inv(c, st) && k < |st.conns| && st.conns[k].state == Free
    ensures NoRequest(st, k)
  {
    forall j | 0 <= j < |st.msgs| && st.msgs[j].phase != Unused ensures st.msgs[j].conn != k {
      assert MsgOk(st, j);
    }
  }

  /** A connection record may change in any way its request, if it has one, is compatible with. */
  lemma ConnChange(c: Config, st: Ipc, k: nat, v: Conn)
    requires Inv(c, st) && k < |st.conns| && st.conns[k].state != Free
    requires v.state != Free && v.gen == st.conns[k].gen && v.caller == st.conns[k].caller
    requires v.service == st.conns[k].service && v.instance == st.conns[k].instance
    requires forall j :: 0 <= j < |st.msgs| && st.msgs[j].phase != Unused && st.msgs[j].conn == k ==>
               Compatible(v, st.msgs[j])
    ensures Inv(c, SetConn(st, k, v))
  {
    var st' := SetConn(st, k, v);
    assert Shape(c, st');
    assert CoreOk(c, st') by {
      forall j | 0 <= j < |st'.conns| ensures ConnOk(c, st', j) {
        assert ConnOk(c, st, j);
      }
      forall j | 0 <= j < |st'.msgs| ensures MsgOk(st', j) {
        assert MsgOk(st, j);
      }
    }
    SameQueues(c, st, st', 0);
    assert PendsOk(st', 0) by {
      forall x | x in st'.pending ensures PendOk(st', x) {
        assert PendOk(st, x);
      }
    }
  }

  /** A connection slot without a request may be opened for an allowed caller, or freed. */
  lemma ConnOpen(c: Config, st: Ipc, k: nat, v: Conn)
    requires Inv(c, st) && k < |st.conns| && NoRequest(st, k)
    requires Generation(v.gen) && (v.service < |c.services| || (|c.services| == 0 && v.state == Free))
    requires ConnOk(c, SetConn(st, k, v), k)
    ensures Inv(c, SetConn(st, k, v))
  {
    var st' := SetConn(st, k, v);
    assert Shape(c, st');
    assert CoreOk(c, st') by {
      forall j | 0 <= j < |st'.conns| ensures ConnOk(c, st', j) {
        assert ConnOk(c, st, j);
      }
      forall j | 0 <= j < |st'.msgs| ensures MsgOk(st', j) {
        assert MsgOk(st, j);
      }
    }
    SameQueues(c, st, st', 0);
    assert PendsOk(st', 0) by {
      forall x | x in st'.pending ensures PendOk(st', x) {
        assert PendOk(st, x);
      }
    }
  }

  lemma FreeSlot(c: Config, st: Ipc, k: nat)
    requires Inv(c, st) && k < |st.conns| && NoRequest(st, k)
    ensures Inv(c, ReleaseConn(st, k))
  {
    ConnOpen(c, st, k, FreeConn(NextGeneration(st.conns[k].gen)));
  }

  /** A request of a waiting client is queued on a connection that has none. */
  lemma SubmitInv(c: Config, st: Ipc, k: nat, i: nat, caller: int, kind: int,
                  ins: seq<InVec>, outs: seq<OutVec>, state: ConnState, handle: int)
    requires Inv(c, st) && k < |st.conns| && i < |st.msgs| && st.conns[k].state != Free && NoRequest(st, k)
    requires st.msgs[i].phase == Unused && caller == st.conns[k].caller && caller != 0 && caller !in st.pending
    requires (state == PendingConnect && kind == IPC_CONNECT && handle == Make(CONNECTION, k, st.conns[k].gen))
          || (state == PendingRequest && kind >= 0)
          || (state == Disconnecting && kind == IPC_DISCONNECT)
    ensures Inv(c, Submit(c, st, k, i, caller, kind, ins, outs, state, handle))
  {
    var s := st.conns[k].service;
    var st' := Submit(c, st, k, i, caller, kind, ins, outs, state, handle);
    assert Shape(c, st');
    assert ConnOk(c, st, k);
    LocalCore(c, st, st', k, i);
    JoinQueue(c, st, st', s, i);
    SetQueueSignals(c, SetMsg(SetConn(st, k, st.conns[k].(state := state)), i, st'.msgs[i]), s, st.queues[s] + [i]);
    SubmitPends(c, st, st', k, i, caller, handle);
  }

  lemma SubmitPends(c: Config, st: Ipc, st': Ipc, k: nat, i: nat, caller: int, handle: int)
    requires Inv(c, st) && Shape(c, st') && Local(st, st', k, i) && caller != 0 && caller !in st.pending
    requires st.msgs[i].phase == Unused && st'.conns[k].gen == st.conns[k].gen
    requires st'.pending == st.pending[caller := Pend(i, handle)]
    requires st'.msgs[i].phase != Unused && st'.msgs[i].abandon == Kept && st'.msgs[i].caller == caller
    requires st'.msgs[i].kind == IPC_CONNECT ==> handle == Make(CONNECTION, k, st.conns[k].gen)
    ensures PendsOk(st', 0)
  {
    forall x | x in st'.pending ensures PendOk(st', x) {
      if x != caller {
        assert PendOk(st, x);
      }
    }
    forall j | 0 <= j < |st'.msgs| && st'.msgs[j].phase != Unused && st'.msgs[j].abandon == Kept
      ensures st'.msgs[j].caller in st'.pending && st'.pending[st'.msgs[j].caller].msg == j
    {
      assert j != i ==> st.msgs[j].caller != 0 by {
        if j != i { assert MsgOk(st, j) && ConnOk(c, st, st.msgs[j].conn); }
      }
    }
  }

  lemma ConnectBeginInv(c: Config, st: Ipc, caller: int, sid: nat, version: nat)
    requires Inv(c, st) && caller !in st.pending
    ensures Inv(c, ConnectBegin(c, st, caller, sid, version).st)
  {
    var r := ConnectBegin(c, st, caller, sid, version);
    if r.st != st {
      var s := FindService(c, sid).value;
      var k := FreeConnFrom(st.conns, 0);
      FreeHasNoRequest(c, st, k);
      if r.msg.None? {
        FreeSlot(c, st, k);
      } else {
        var conn := st.conns[k].(state := PendingConnect, caller := caller,
          instance := CallerInstance(c, st, caller), service := s, latch := false);
        ConnOpen(c, st, k, conn);
        SubmitInv(c, SetConn(st, k, conn), k, r.msg.value, caller, IPC_CONNECT, [], [], PendingConnect, r.ret);
      }
    }
  }

  /** A free message slot may have its generation advanced. */
  lemma BumpSlot(c: Config, st: Ipc, i: nat)
    requires Inv(c, st) && i < |st.msgs| && st.msgs[i].phase == Unused
    ensures Inv(c, ReleaseMsg(st, i))
  {
    var st' := ReleaseMsg(st, i);
    assert Shape(c, st');
    assert CoreOk(c, st') by {
      forall j | 0 <= j < |st'.conns| ensures ConnOk(c, st', j) {
        assert ConnOk(c, st, j);
      }
      forall j | 0 <= j < |st'.msgs| ensures MsgOk(st', j) {
        assert MsgOk(st, j);
      }
    }
    SameQueues(c, st, st', 0);
    assert PendsOk(st', 0) by {
      forall x | x in st'.pending ensures PendOk(st', x) {
        assert PendOk(st, x);
      }
    }
  }

  lemma RecordErrorInv(c: Config, st: Ipc, k: nat)
    requires Inv(c, st) && k < |st.conns| && st.conns[k].state != Free
    ensures Inv(c, RecordError(st, k))
  {
    var v := if st.conns[k].state == Idle then st.conns[k].(state := Error) else st.conns[k].(latch := true);
    forall j | 0 <= j < |st.msgs| && st.msgs[j].phase != Unused && st.msgs[j].conn == k
      ensures Compatible(v, st.msgs[j])
    {
      assert MsgOk(st, j);
    }
    ConnChange(c, st, k, v);
  }

  /** A client that waits for nothing has at most an abandoned request on a quiet connection. */
  lemma QuietHasNoRequest(c: Config, st: Ipc, k: nat)
    requires Inv(c, st) && k < |st.conns| && st.conns[k].caller !in st.pending
    requires st.conns[k].state == Idle || (st.conns[k].state == Error && AbandonedOn(st.msgs, k, 0).None?)
    ensures NoRequest(st, k)
  {
    assert ConnOk(c, st, k);
    forall j | 0 <= j < |st.msgs| && st.msgs[j].phase != Unused ensures st.msgs[j].conn != k {
      assert MsgOk(st, j);
    }
  }

  lemma CallBeginInv(c: Config, st: Ipc, caller: int, handle: int, kind: int, ins: VecArg, outs: VecArg)
    requires Inv(c, st) && caller !in st.pending
    ensures Inv(c, CallBegin(c, st, caller, handle, kind, ins, outs).st)
  {
    if caller != 0 && ResolveConn(c, st, caller, handle).Found? {
      var k := ResolveConn(c, st, caller, handle).index;
      if !CountsOk(kind, ins, outs) || st.conns[k].state != Idle {
        RecordErrorInv(c, st, k);
      } else {
        var i := FreeMsgFrom(st.msgs, 0);
        if i < |st.msgs| {
          var error := VectorError(c, st.env, caller, ins, outs);
          QuietHasNoRequest(c, st, k);
          if error == SUCCESS {
            SubmitInv(c, st, k, i, caller, kind, Capture(st.env.memory, ins.vecs), Prepare(outs.vecs),
                      PendingRequest, handle);
          } else {
            BumpSlot(c, st, i);
            if error != FFM_BUFFER {
              ConnChange(c, ReleaseMsg(st, i), k, st.conns[k].(state := Error));
            }
          }
        }
      }
    }
  }

  lemma CallRefuseInv(c: Config, st: Ipc, caller: int, handle: int)
    requires Inv(c, st)
    ensures Inv(c, CallRefuse(c, st, caller, handle))
  {
    if caller != 0 && ResolveConn(c, st, caller, handle).Found? {
      RecordErrorInv(c, st, ResolveConn(c, st, caller, handle).index);
    }
  }

  /** A request slot and its connection change together; the queues and the waiting clients are as before. */
  lemma PairChange(c: Config, st: Ipc, i: nat, m: Msg, v: Conn)
    requires Inv(c, st) && i < |st.msgs| && st.msgs[i].phase != Unused
    requires m.phase != Unused && m.gen == st.msgs[i].gen && m.caller == st.msgs[i].caller
    requires m.conn == st.msgs[i].conn && m.service == st.msgs[i].service && m.kind == st.msgs[i].kind
    requires m.phase == Queued <==> st.msgs[i].phase == Queued
    requires m.abandon == Kept <==> st.msgs[i].abandon == Kept
    requires var o := st.conns[m.conn];
             v.state != Free && v.gen == o.gen && v.caller == o.caller && v.service == o.service && v.instance == o.instance
    requires Compatible(v, m)
    ensures Inv(c, SetMsg(SetConn(st, m.conn, v), i, m))
  {
    var st' := SetMsg(SetConn(st, m.conn, v), i, m);
    assert MsgOk(st, i) && ConnOk(c, st, m.conn);
    assert Shape(c, st');
    LocalCore(c, st, st', m.conn, i);
    SameQueues(c, st, st', 0);
    assert PendsOk(st', 0) by {
      forall x | x in st'.pending ensures PendOk(st', x) {
        assert PendOk(st, x);
      }
    }
  }

  lemma CloseBeginInv(c: Config, st: Ipc, caller: int, handle: int)
    requires Inv(c, st) && caller !in st.pending
    ensures Inv(c, CloseBegin(c, st, caller, handle).st)
  {
    var r := CloseBegin(c, st, caller, handle);
    if r.st != st {
      var k := ResolveConn(c, st, caller, handle).index;
      match AbandonedOn(st.msgs, k, 0)
      case Some(j) =>
        assert MsgOk(st, j);
        var m, v := st.msgs[j].(abandon := AwaitClose), st.conns[k].(state := Disconnecting);
        PairChange(c, st, j, m, v);
        assert r.st == SetMsg(SetConn(st, k, v), j, m);
      case None =>
        QuietHasNoRequest(c, st, k);
        SubmitInv(c, st, k, r.msg.value, caller, IPC_DISCONNECT, [], [], Disconnecting, handle);
    }
  }

  // ---------------------------------------------------------------- leaving a slot

  /** Request i, which no queue holds, leaves its slot; its connection gets the record v. */
  lemma LeaveSlot(c: Config, st: Ipc, i: nat, v: Conn)
    requires Inv(c, st) && i < |st.msgs| && st.msgs[i].phase != Unused && st.msgs[i].phase != Queued
    requires v == FreeConn(NextGeneration(st.conns[st.msgs[i].conn].gen)) || KeepsOwner(st.conns[st.msgs[i].conn], v)
    ensures Inv(c, SetConn(ReleaseMsg(if st.msgs[i].abandon == Kept then Unpend(st, st.msgs[i].caller) else st, i),
                           st.msgs[i].conn, v))
  {
    var m := st.msgs[i];
    var st' := SetConn(ReleaseMsg(if m.abandon == Kept then Unpend(st, m.caller) else st, i), m.conn, v);
    hide CoreOk;
    hide QueuesOk;
    hide PendsOk;
    hide NextGeneration;
    WithdrawCore(c, st, st', i, v);
    SameQueues(c, st, st', 0);
    LeavePends(c, st, st', i);
  }

  ghost predicate KeepsOwner(o: Conn, v: Conn) {
    v.state != Free && v.gen == o.gen && v.caller == o.caller && v.service == o.service && v.instance == o.instance
  }

  /** Freeing request i keeps the others' waiting clients, once its own caller no longer waits. */
  lemma LeavePends(c: Config, st: Ipc, st': Ipc, i: nat)
    requires Inv(c, st) && Shape(c, st') && i < |st.msgs| && st.msgs[i].phase != Unused
    requires Local(st, st', st.msgs[i].conn, i) && (st'.msgs[i].phase == Unused || st'.msgs[i].abandon != Kept)
    requires st'.pending == if st.msgs[i].abandon == Kept then st.pending - {st.msgs[i].caller} else st.pending
    ensures PendsOk(st', 0)
  {
    assert MsgOk(st, i) && ConnOk(c, st, st.msgs[i].conn);
    forall x | x in st'.pending ensures PendOk(st', x) {
      assert PendOk(st, x);
    }
  }

  /** Withdraws request i from its queue if it is there; the rest of the invariant does not notice. */
  lemma WithdrawInv(c: Config, st: Ipc, i: nat)
    requires Inv(c, st) && i < |st.msgs| && st.msgs[i].phase != Unused && st.msgs[i].phase != Queued
    ensures Unqueue(c, st, st.msgs[i].service, i).queues == st.queues
    ensures Inv(c, Unqueue(c, st, st.msgs[i].service, i))
  {
    var s := st.msgs[i].service;
    assert QueueOk(c, st, s);
    WithoutFacts(st.queues[s], i);
    var st' := Unqueue(c, st, s, i);
    assert st'.queues == st.queues;
    SetQueueSignals(c, st, s, st.queues[s]);
    assert Shape(c, st');
    assert CoreOk(c, st') by {
      forall j | 0 <= j < |st'.conns| ensures ConnOk(c, st', j) { assert ConnOk(c, st, j); }
      forall j | 0 <= j < |st'.msgs| ensures MsgOk(st', j) { assert MsgOk(st, j); }
    }
    SameQueues(c, st, st', 0);
    assert PendsOk(st', 0) by {
      forall x | x in st'.pending ensures PendOk(st', x) { assert PendOk(st, x); }
    }
  }

  /** A queued request is withdrawn and leaves its slot; its connection gets the record v. */
  lemma WithdrawSlot(c: Config, st: Ipc, i: nat, v: Conn)
    requires Inv(c, st) && i < |st.msgs| && st.msgs[i].phase == Queued
    requires v == FreeConn(NextGeneration(st.conns[st.msgs[i].conn].gen)) || KeepsOwner(st.conns[st.msgs[i].conn], v)
    ensures var m := st.msgs[i];
            Inv(c, SetConn(ReleaseMsg(Unqueue(c, if m.abandon == Kept then Unpend(st, m.caller) else st, m.service, i), i),
                           m.conn, v))
  {
    var m := st.msgs[i];
    var st0 := if m.abandon == Kept then Unpend(st, m.caller) else st;
    var st1 := Unqueue(c, st0, m.service, i);
    var st' := SetConn(ReleaseMsg(st1, i), m.conn, v);
    hide Without;
    hide CoreOk;
    hide QueuesOk;
    hide SignalsOk;
    hide PendsOk;
    hide NextGeneration;
    WithdrawCore(c, st, st', i, v);
    LeavePends(c, st, st', i);
    WithdrawQueue(c, st, st0, st', i);
  }

  lemma WithdrawQueue(c: Config, st: Ipc, st0: Ipc, st': Ipc, i: nat)
    requires Inv(c, st) && Shape(c, st') && i < |st.msgs| && st.msgs[i].phase == Queued
    requires st0 == st.(pending := st0.pending)
    requires st'.msgs == st.msgs[i := FreeMsg(NextGeneration(st.msgs[i].gen))]
    requires var st1 := Unqueue(c, st0, st.msgs[i].service, i);
             st'.queues == st1.queues && st'.signals == st1.signals
    ensures QueuesOk(c, st', 0) && SignalsOk(c, st')
  {
    var s := st.msgs[i].service;
    assert QueueOk(c, st, s);
    WithoutFacts(st.queues[s], i);
    hide Without;
    SetQueueSignals(c, st0, s, Without(st.queues[s], i));
    LeaveQueue(c, st, st', s, Without(st.queues[s], i), i);
  }

  /** Request i left its slot and its connection got the record v: the slots stay consistent. */
  lemma WithdrawCore(c: Config, st: Ipc, st': Ipc, i: nat, v: Conn)
    requires Inv(c, st) && i < |st.msgs| && st.msgs[i].phase != Unused
    requires v == FreeConn(NextGeneration(st.conns[st.msgs[i].conn].gen)) || KeepsOwner(st.conns[st.msgs[i].conn], v)
    requires st'.msgs == st.msgs[i := FreeMsg(NextGeneration(st.msgs[i].gen))] && st'.conns == st.conns[st.msgs[i].conn := v]
    requires st'.instances == st.instances && |st'.queues| == |st.queues| && |st'.signals| == |st.signals|
    ensures Shape(c, st') && CoreOk(c, st') && Local(st, st', st.msgs[i].conn, i)
  {
    var k := st.msgs[i].conn;
    assert MsgOk(st, i) && ConnOk(c, st, k);
    assert Shape(c, st');
    LocalCore(c, st, st', k, i);
  }

  // ---------------------------------------------------------------- finish and return

  /** Request i is the one its caller waits for. */
  ghost predicate Awaited(st: Ipc, i: nat) {
    i < |st.msgs| && st.msgs[i].phase != Unused && st.msgs[i].abandon == Kept
  }

  lemma ConnectFinishInv(c: Config, st: Ipc, i: nat)
    requires Inv(c, st) && Awaited(st, i) && st.msgs[i].phase == Complete
    ensures Inv(c, ConnectFinish(c, st, i).st)
  {
    var m := st.msgs[i];
    assert MsgOk(st, i);
    var v := if m.status != SUCCESS then FreeConn(NextGeneration(st.conns[m.conn].gen)) else st.conns[m.conn];
    LeaveSlot(c, st, i, v);
    var st1 := ReleaseMsg(Unpend(st, m.caller), i);
    assert st1.conns[m.conn := st.conns[m.conn]] == st1.conns;
  }

  lemma CallFinishInv(c: Config, st: Ipc, i: nat, room: Option<nat>)
    requires Inv(c, st) && Awaited(st, i) && st.msgs[i].phase == Complete
    ensures Inv(c, CallFinish(c, st, i, room).st)
  {
    var m := st.msgs[i];
    assert MsgOk(st, i);
    var v := if Revalidates(st.env, m.caller, m.outs) then st.conns[m.conn] else st.conns[m.conn].(state := Error);
    LeaveSlot(c, st, i, v);
    var st1 := ReleaseMsg(Unpend(st, m.caller), i);
    assert st1.conns[m.conn := st.conns[m.conn]] == st1.conns;
    EnvChange(c, SetConn(st1, m.conn, v), CallFinish(c, st, i, room).st.env);
  }

  /** A finish stores the lengths of as many outputs as it has room for. */
  lemma {:induction false} StoredIsPrefix(outs: seq<OutVec>, room: Option<nat>, n: nat)
    requires n <= |outs|
    ensures StoredLengths(outs, room, n) == Lengths(outs)[..if room.None? then 0 else Min(room.value, n)]
  {
    if n > 0 {
      StoredIsPrefix(outs, room, n - 1);
    }
  }

  /**
    The two ways a completed call ends.  State, status and published bytes are the same; the finish reports the
    lengths its caller has room for, the synchronous return all of them.
    */
  lemma CallTails(c: Config, st: Ipc, i: nat, room: Option<nat>)
    requires Shape(c, st) && i < |st.msgs| && st.msgs[i].phase != Unused
    ensures var r, f := CallReturn(c, st, i, SUCCESS), CallFinish(c, st, i, room);
            && f.st == r.st && f.ret == r.ret
            && f.lens == r.lens[..if room.None? then 0 else Min(room.value, |r.lens|)]
            && (r.lens == if Revalidates(st.env, st.msgs[i].caller, st.msgs[i].outs) then Lengths(st.msgs[i].outs) else [])
  {
    StoredIsPrefix(st.msgs[i].outs, room, |st.msgs[i].outs|);
  }

  lemma EnvChange(c: Config, st: Ipc, env: Env)
    requires Inv(c, st)
    ensures Inv(c, st.(env := env))
  {
    var st' := st.(env := env);
    assert CoreOk(c, st') by {
      forall j | 0 <= j < |st'.conns| ensures ConnOk(c, st', j) { assert ConnOk(c, st, j); }
      forall j | 0 <= j < |st'.msgs| ensures MsgOk(st', j) { assert MsgOk(st, j); }
    }
    SameQueues(c, st, st', 0);
    assert PendsOk(st', 0) by {
      forall x | x in st'.pending ensures PendOk(st', x) { assert PendOk(st, x); }
    }
  }

  lemma CloseFinishInv(c: Config, st: Ipc, i: nat)
    requires Inv(c, st) && Awaited(st, i) && st.msgs[i].phase == Complete
    ensures Inv(c, CloseFinish(c, st, i).st)
  {
    assert MsgOk(st, i);
    LeaveSlot(c, st, i, FreeConn(NextGeneration(st.conns[st.msgs[i].conn].gen)));
  }

  /** The caller gives up on a delivered request; the slot stays until the server answers. */
  lemma AbandonInv(c: Config, st: Ipc, i: nat, m: Msg, v: Conn)
    requires Inv(c, st) && Awaited(st, i) && st.msgs[i].phase == Delivered
    requires m == st.msgs[i].(abandon := m.abandon, outs := m.outs) && m.abandon != Kept
    requires KeepsOwner(st.conns[m.conn], v) && Compatible(v, m)
    ensures Inv(c, SetMsg(SetConn(Unpend(st, m.caller), m.conn, v), i, m))
  {
    var st' := SetMsg(SetConn(Unpend(st, m.caller), m.conn, v), i, m);
    assert MsgOk(st, i) && ConnOk(c, st, m.conn);
    assert Shape(c, st');
    LocalCore(c, st, st', m.conn, i);
    SameQueues(c, st, st', 0);
    LeavePends(c, st, st', i);
  }

  /** A dispatch that returns success has completed the request. */
  ghost predicate DispatchReturns(m: Msg, ret: int) {
    ret == SUCCESS ==> m.phase == Complete
  }

  lemma ConnectReturnInv(c: Config, st: Ipc, i: nat, handle: int, ret: int)
    requires Inv(c, st) && Awaited(st, i) && st.msgs[i].kind == IPC_CONNECT && DispatchReturns(st.msgs[i], ret)
    ensures Inv(c, ConnectReturn(c, st, i, handle, ret).st)
  {
    var m := st.msgs[i];
    assert MsgOk(st, i);
    var o := st.conns[m.conn];
    var freed := FreeConn(NextGeneration(o.gen));
    if ret == SUCCESS {
      ConnectFinishInv(c, st, i);
    } else if m.phase == Delivered {
      AbandonInv(c, st, i, m.(abandon := AwaitClose), o);
      assert st.conns[m.conn := o] == st.conns;
    } else if m.phase == Queued {
      WithdrawSlot(c, st, i, freed);
    } else {
      WithdrawInv(c, st, i);
      LeaveSlot(c, Unqueue(c, st, m.service, i), i, freed);
      assert Unpend(Unqueue(c, st, m.service, i), m.caller) == Unqueue(c, Unpend(st, m.caller), m.service, i);
    }
  }

  lemma CallReturnInv(c: Config, st: Ipc, i: nat, ret: int)
    requires Inv(c, st) && Awaited(st, i) && st.msgs[i].kind >= 0 && DispatchReturns(st.msgs[i], ret)
    ensures Inv(c, CallReturn(c, st, i, ret).st)
  {
    var m := st.msgs[i];
    assert MsgOk(st, i);
    var v := st.conns[m.conn].(state := Error);
    if ret == SUCCESS {
      CallTails(c, st, i, None);
      CallFinishInv(c, st, i, None);
    } else if m.phase == Delivered {
      AbandonInv(c, st, i, m.(abandon := AwaitReply, outs := Forget(m.outs)), v.(latch := true));
    } else if m.phase == Queued {
      WithdrawSlot(c, st, i, v);
    } else {
      WithdrawInv(c, st, i);
      LeaveSlot(c, Unqueue(c, st, m.service, i), i, v);
    }
  }

  lemma CloseReturnInv(c: Config, st: Ipc, i: nat, ret: int)
    requires Inv(c, st) && Awaited(st, i) && st.msgs[i].kind == IPC_DISCONNECT && DispatchReturns(st.msgs[i], ret)
    ensures Inv(c, CloseReturn(c, st, i, ret).st)
  {
    var m := st.msgs[i];
    assert MsgOk(st, i);
    var o := st.conns[m.conn];
    assert st.conns[m.conn := o] == st.conns;
    if ret == SUCCESS {
      CloseFinishInv(c, st, i);
    } else if m.phase == Delivered {
      AbandonInv(c, st, i, m.(abandon := AwaitClose), o);
    } else if m.phase == Queued {
      WithdrawSlot(c, st, i, o);
    } else {
      WithdrawInv(c, st, i);
      LeaveSlot(c, Unqueue(c, st, m.service, i), i, o);
    }
  }

  // ---------------------------------------------------------------- server

  lemma GetMsgInv(c: Config, st: Ipc, pid: int, signal: Word)
    requires Inv(c, st) && QueueRange(st)
    ensures Inv(c, GetMsg(c, st, pid, signal).st)
  {
    var r := GetMsg(c, st, pid, signal);
    if r.delivery.Some? {
      var s := SignalFrom(c.services, FindPartition(c, pid).value, signal, 0).value;
      DeliverInv(c, st, s);
    }
  }

  lemma DeliverInv(c: Config, st: Ipc, s: nat)
    requires Inv(c, st) && QueueRange(st) && s < |c.services| && st.queues[s] != []
    ensures Inv(c, Deliver(c, st, s))
  {
    var q := st.queues[s];
    var i := q[0];
    var m := st.msgs[i];
    var st' := Deliver(c, st, s);
    DeliverCore(c, st, s);
    DeliverPends(c, st, s);
    assert QueueOk(c, st, s);
    hide CoreOk;
    hide PendsOk;
    assert q == [i] + q[1..];
    LeaveQueue(c, st, st', s, q[1..], i);
    SetQueueSignals(c, st, s, q[1..]);
  }

  lemma DeliverCore(c: Config, st: Ipc, s: nat)
    requires Inv(c, st) && QueueRange(st) && s < |c.services| && st.queues[s] != []
    ensures Shape(c, Deliver(c, st, s)) && CoreOk(c, Deliver(c, st, s))
  {
    hide QueuesOk;
    hide SignalsOk;
    hide PendsOk;
    var i := st.queues[s][0];
    var k := st.msgs[i].conn;
    var st' := Deliver(c, st, s);
    assert MsgOk(st, i) && ConnOk(c, st, k);
    assert Shape(c, st');
    LocalCore(c, st, st', k, i);
  }

  lemma DeliverPends(c: Config, st: Ipc, s: nat)
    requires Inv(c, st) && QueueRange(st) && s < |c.services| && st.queues[s] != []
    ensures PendsOk(Deliver(c, st, s), 0)
  {
    hide QueuesOk;
    hide SignalsOk;
    hide CoreOk;
    var st' := Deliver(c, st, s);
    forall x | x in st'.pending ensures PendOk(st', x) {
      assert PendOk(st, x);
    }
  }

  lemma SetRhandleInv(c: Config, st: Ipc, pid: int, handle: int, value: nat)
    requires Inv(c, st)
    ensures Inv(c, SetRhandle(c, st, pid, handle, value).st)
  {
    if ResolveMsg(c, st, pid, handle).Found? {
      var i := ResolveMsg(c, st, pid, handle).index;
      var k := st.msgs[i].conn;
      assert MsgOk(st, i);
      forall j | 0 <= j < |st.msgs| && st.msgs[j].phase != Unused && st.msgs[j].conn == k
        ensures Compatible(st.conns[k].(rhandle := value), st.msgs[j])
      {
        assert MsgOk(st, j);
      }
      ConnChange(c, st, k, st.conns[k].(rhandle := value));
    }
  }

  /** Moving bytes in or out of a request's vectors concerns nothing else. */
  lemma VectorsChange(c: Config, st: Ipc, i: nat, ins: seq<InVec>, outs: seq<OutVec>)
    requires Inv(c, st) && i < |st.msgs| && st.msgs[i].phase != Unused
    ensures Inv(c, SetMsg(st, i, st.msgs[i].(ins := ins, outs := outs)))
  {
    var m := st.msgs[i];
    assert MsgOk(st, i);
    PairChange(c, st, i, m.(ins := ins, outs := outs), st.conns[m.conn]);
    assert st.conns[m.conn := st.conns[m.conn]] == st.conns;
  }

  lemma ReadMsgInv(c: Config, st: Ipc, pid: int, handle: int, v: nat, n: nat)
    requires Inv(c, st)
    ensures Inv(c, ReadMsg(c, st, pid, handle, v, n).st)
  {
    var r := ReadMsg(c, st, pid, handle, v, n);
    if r.st != st {
      var i := ResolveMsg(c, st, pid, handle).index;
      VectorsChange(c, st, i, r.st.msgs[i].ins, st.msgs[i].outs);
    }
  }

  lemma WriteMsgInv(c: Config, st: Ipc, pid: int, handle: int, v: nat, data: seq<Byte>)
    requires Inv(c, st)
    ensures Inv(c, WriteMsg(c, st, pid, handle, v, data).st)
  {
    var r := WriteMsg(c, st, pid, handle, v, data);
    if r.st != st {
      var i := ResolveMsg(c, st, pid, handle).index;
      VectorsChange(c, st, i, st.msgs[i].ins, r.st.msgs[i].outs);
    }
  }

  /** The replied slot of an abandoned request is reused to disconnect what it opened. */
  lemma ReuseInv(c: Config, st: Ipc, i: nat, v: Conn)
    requires Inv(c, st) && i < |st.msgs| && st.msgs[i].phase == Delivered && st.msgs[i].abandon != Kept
    requires KeepsOwner(st.conns[st.msgs[i].conn], v) && v.state == Disconnecting
    ensures var m := st.msgs[i];
            Inv(c, Enqueue(c, SetConn(SetMsg(st, i, Msg(Queued, v.caller, 0, NextGeneration(m.gen), m.conn, v.service,
                                                        IPC_DISCONNECT, [], [], AwaitClose)), m.conn, v), v.service, i))
  {
    var m := st.msgs[i];
    assert MsgOk(st, i) && ConnOk(c, st, m.conn);
    var m' := Msg(Queued, v.caller, 0, NextGeneration(m.gen), m.conn, v.service, IPC_DISCONNECT, [], [], AwaitClose);
    var st1 := SetConn(SetMsg(st, i, m'), m.conn, v);
    var st' := Enqueue(c, st1, v.service, i);
    assert Shape(c, st');
    LocalCore(c, st, st', m.conn, i);
    JoinQueue(c, st, st', v.service, i);
    SetQueueSignals(c, st1, v.service, st.queues[v.service] + [i]);
    LeavePends(c, st, st', i);
  }

  lemma ReplyInv(c: Config, st: Ipc, pid: int, handle: int, status: int)
    requires Inv(c, st) && Linked(st)
    ensures Inv(c, Reply(c, st, pid, handle, status).st)
  {
    var r := Reply(c, st, pid, handle, status);
    if r.ret == SUCCESS {
      var i := ResolveMsg(c, st, pid, handle).index;
      var m := st.msgs[i];
      var o := st.conns[m.conn];
      assert MsgOk(st, i);
      var v := o.(state := AfterReply(m.kind, status, o.latch));
      if m.abandon == Kept {
        PairChange(c, st, i, m.(phase := Complete, status := status), v);
      } else {
        AbandonedReplyInv(c, st, i, status, v);
      }
    }
  }

  lemma AbandonedReplyInv(c: Config, st: Ipc, i: nat, status: int, v: Conn)
    requires Inv(c, st) && Linked(st) && i < |st.msgs| && st.msgs[i].phase == Delivered && st.msgs[i].abandon != Kept
    requires v == st.conns[st.msgs[i].conn].(state := v.state) && v.state != Free
    ensures Inv(c, FinishAbandoned(c, SetConn(st, st.msgs[i].conn, v), i, status))
  {
    var m := st.msgs[i];
    var r := FinishAbandoned(c, SetConn(st, m.conn, v), i, status);
    assert MsgOk(st, i);
    if (m.kind == IPC_CONNECT && status == SUCCESS) || (m.kind >= 0 && m.abandon == AwaitClose) {
      ReuseInv(c, st, i, v.(state := Disconnecting));
      assert st.conns[m.conn := v][m.conn := v.(state := Disconnecting)] == st.conns[m.conn := v.(state := Disconnecting)];
    } else if m.kind < 0 {
      LeaveSlot(c, st, i, FreeConn(NextGeneration(v.gen)));
      assert st.conns[m.conn := v][m.conn := FreeConn(NextGeneration(v.gen))] == st.conns[m.conn := FreeConn(NextGeneration(v.gen))];
    } else {
      LeaveSlot(c, st, i, v);
    }
  }
}
