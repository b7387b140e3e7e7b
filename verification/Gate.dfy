/**
  The Secure Partition gate: the resumable CONNECT, CALL and CLOSE requests a
  partition issues through a call block in its own memory.  The block carries the
  index of the pending message, so the gate must not trust it.
  */
module Gate {
  import opened Handles
  import opened IpcModel
  import opened IpcInvariant
  import opened IpcPreserve
  import opened RuntimeRep
  import opened RuntimeStore
  import SecureDomains

  datatype Op = Connect | Call | Close

  datatype Block = Block(op: Op, pid: int, sid: nat, version: nat, handle: int, kind: int,
                         ins: seq<Vec>, outs: seq<Vec>, pendingMsg: nat, pendingValid: bool,
                         retInt: int, retStatus: int, retHandle: int, retSize: nat, mustPanic: bool)

  /** What every request starts from: the results of the previous one are gone. */
  function Reset(b: Block): Block {
    b.(retStatus := PROGRAMMER_ERROR, retSize := 0, retInt := FFM_ARGUMENT, mustPanic := false)
  }

  /** The block's output vectors once a finish stored lens in them. */
  function Lengthened(outs: seq<Vec>, lens: seq<nat>): (r: seq<Vec>)
    ensures |r| == |outs|
  {
    seq(|outs|, v requires 0 <= v < |outs| => if v < |lens| then outs[v].(len := lens[v]) else outs[v])
  }

  // ---------------------------------------------------------------- buffers in the caller's domain

  /** The access lies in one region of the domain; no domain means no check. */
  ghost predicate InDomain(domain: Option<SecureDomains.Table>, addr: nat, len: nat, write: bool) {
    || domain.None? || len == 0
    || (&& addr != 0 && SecureDomains.Ranged(addr, len)
        && exists i :: 0 <= i < |domain.value.regions| && SecureDomains.Allows(domain.value.regions[i], write)
             && SecureDomains.Within(SecureDomains.Region(addr, len, domain.value.regions[i].attributes), domain.value.regions[i]))
  }

  method CheckBuffer(domain: Option<SecureDomains.Table>, addr: nat, len: nat, write: bool) returns (ret: int)
    ensures ret == SUCCESS <==> InDomain(domain, addr, len, write)
  {
    if domain.None? || len == 0 {
      return SUCCESS;
    }
    if addr == 0 {
      return FFM_BUFFER;
    }
    var ok := SecureDomains.Contains(domain.value, addr, len, write);
    ret := if ok then SUCCESS else FFM_BUFFER;
  }

  ghost predicate AllInDomain(domain: Option<SecureDomains.Table>, vs: seq<Vec>, write: bool) {
    forall i :: 0 <= i < |vs| ==> InDomain(domain, vs[i].base, vs[i].len, write)
  }

  method CheckList(domain: Option<SecureDomains.Table>, vs: seq<Vec>, write: bool) returns (ret: int)
    ensures ret == SUCCESS <==> AllInDomain(domain, vs, write)
  {
    var i := 0;
    while i < |vs|
      invariant 0 <= i <= |vs| && forall k :: 0 <= k < i ==> InDomain(domain, vs[k].base, vs[k].len, write)
    {
      ret := CheckBuffer(domain, vs[i].base, vs[i].len, write);
      if ret != SUCCESS {
        return;
      }
      i := i + 1;
    }
    ret := SUCCESS;
  }

  /** Accepts exactly the blocks whose vectors all lie in the acting partition's own memory. */
  method CheckVectors(domain: Option<SecureDomains.Table>, b: Block) returns (ret: int)
    ensures ret == SUCCESS <==>
              |b.ins| <= MAX_IOVEC && |b.outs| <= MAX_IOVEC && AllInDomain(domain, b.ins, false) && AllInDomain(domain, b.outs, true)
  {
    if |b.ins| > MAX_IOVEC || |b.outs| > MAX_IOVEC {
      return FFM_ARGUMENT;
    }
    ret := CheckList(domain, b.ins, false);
    if ret != SUCCESS {
      return;
    }
    ret := CheckList(domain, b.outs, true);
  }

  // ---------------------------------------------------------------- what a request may touch

  /** Every message, connection and wait of the other callers is as it was. */
  ghost predicate OthersUntouched(st: Ipc, st': Ipc, pid: int) {
    && |st'.msgs| == |st.msgs| && |st'.conns| == |st.conns|
    && (forall i :: 0 <= i < |st.msgs| && st.msgs[i].phase != Unused && st.msgs[i].caller != pid ==>
          st'.msgs[i] == st.msgs[i])
    && (forall k :: 0 <= k < |st.conns| && st.conns[k].state != Free && st.conns[k].caller != pid ==>
          st'.conns[k] == st.conns[k])
    && (forall x :: x in st.pending && x != pid ==> x in st'.pending && st'.pending[x] == st.pending[x])
  }

  lemma SubmitTouches(c: Config, st: Ipc, k: nat, i: nat, pid: int, kind: int, ins: seq<InVec>, outs: seq<OutVec>,
                      state: ConnState, h: int)
    requires Shape(c, st) && k < |st.conns| && i < |st.msgs| && st.conns[k].state != Free
    requires st.conns[k].caller == pid && st.msgs[i].phase == Unused
    ensures OthersUntouched(st, Submit(c, st, k, i, pid, kind, ins, outs, state, h), pid)
  {
  }

  lemma ConnectTouches(c: Config, st: Ipc, pid: int, sid: nat, version: nat)
    requires Shape(c, st)
    ensures OthersUntouched(st, ConnectBegin(c, st, pid, sid, version).st, pid)
  {
  }

  lemma CallTouches(c: Config, st: Ipc, pid: int, h: int, kind: int, ins: VecArg, outs: VecArg)
    requires Shape(c, st)
    ensures OthersUntouched(st, CallBegin(c, st, pid, h, kind, ins, outs).st, pid)
  {
    if pid != 0 && ResolveConn(c, st, pid, h).Found? {
      var k, i := ResolveConn(c, st, pid, h).index, FreeMsgFrom(st.msgs, 0);
      if i < |st.msgs| {
        SubmitTouches(c, st, k, i, pid, kind, Capture(st.env.memory, ins.vecs), Prepare(outs.vecs), PendingRequest, h);
      }
      hide Submit;
    }
  }

  lemma CloseTouches(c: Config, st: Ipc, pid: int, h: int)
    requires Inv(c, st)
    ensures OthersUntouched(st, CloseBegin(c, st, pid, h).st, pid)
  {
    var r := CloseBegin(c, st, pid, h);
    if h != 0 && pid != 0 && ResolveConn(c, st, pid, h).Found? {
      var k := ResolveConn(c, st, pid, h).index;
      var j := AbandonedOn(st.msgs, k, 0);
      if j.Some? {
        assert MsgOk(st, j.value);
      }
    }
  }

  lemma FinishTouches(c: Config, st: Ipc, i: nat, pid: int, room: Option<nat>)
    requires Inv(c, st) && Awaited(st, i) && st.msgs[i].caller == pid
    ensures OthersUntouched(st, ConnectFinish(c, st, i).st, pid)
    ensures OthersUntouched(st, CallFinish(c, st, i, room).st, pid)
    ensures OthersUntouched(st, CloseFinish(c, st, i).st, pid)
  {
    assert MsgOk(st, i);
  }

  // ---------------------------------------------------------------- the resume protocol

  /** The ownership test on the index the block supplies. */
  predicate Owned(st: Ipc, b: Block) {
    b.pendingMsg < |st.msgs| && st.msgs[b.pendingMsg].phase != Unused && st.msgs[b.pendingMsg].caller == b.pid
  }

  predicate Harvestable(st: Ipc, b: Block) {
    Owned(st, b) && st.msgs[b.pendingMsg].phase == Complete
  }

  /** Whatever index the block supplies, one that passes the tests is the request the partition waits for. */
  lemma HarvestIsOwnWait(c: Config, st: Ipc, b: Block)
    requires Inv(c, st) && Harvestable(st, b)
    ensures Awaited(st, b.pendingMsg)
    ensures b.pid in st.pending && st.pending[b.pid].msg == b.pendingMsg
  {
    assert MsgOk(st, b.pendingMsg) && ConnOk(c, st, st.msgs[b.pendingMsg].conn);
  }

  /** The block agrees with the runtime about what is pending. */
  ghost predicate Coherent(st: Ipc, b: Block) {
    && (b.pendingValid <==> b.pid in st.pending)
    && (b.pendingValid ==> st.pending[b.pid].msg == b.pendingMsg)
  }

  method Ready(rt: Runtime, b: Block) returns (owned: bool, complete: bool)
    requires rt.Valid()
    ensures owned == Owned(rt.Abs(), b) && (owned ==> complete == Harvestable(rt.Abs(), b))
  {
    owned := b.pendingMsg < rt.msgs.Length && rt.msgs[b.pendingMsg].used && rt.msgs[b.pendingMsg].caller == b.pid;
    complete := false;
    if owned {
      complete := rt.msgs[b.pendingMsg].complete;
    }
  }

  /** The block of a resumed request that cannot be harvested. */
  function Unharvested(st: Ipc, b: Block): Block {
    Reset(b).(retInt := if Owned(st, b) then FFM_NOT_READY else FFM_ARGUMENT)
  }

  method GateConnect(rt: Runtime, b: Block) returns (r: Block)
    requires rt.Valid() && (!b.pendingValid ==> b.pid !in rt.pending)
    modifies rt, rt.conns, rt.msgs, rt.heads, rt.parts
    ensures rt.Valid() && OthersUntouched(old(rt.Abs()), rt.Abs(), b.pid)
    ensures Coherent(old(rt.Abs()), b) ==> Coherent(rt.Abs(), r)
    ensures var st := old(rt.Abs());
            if !b.pendingValid then
              var begun := ConnectBegin(rt.c, st, b.pid, b.sid, b.version);
              && rt.Abs() == begun.st
              && r == if begun.msg.Some? then
                        Reset(b).(pendingMsg := begun.msg.value, pendingValid := true, retInt := FFM_NOT_READY)
                      else
                        Reset(b).(retHandle := begun.ret, retInt := SUCCESS,
                                  mustPanic := begun.ret in {CONNECTION_REFUSED, NOT_SUPPORTED})
            else if Harvestable(st, b) then
              var done := ConnectFinish(rt.c, st, b.pendingMsg);
              rt.Abs() == done.st && r == Reset(b).(retHandle := done.ret, pendingValid := false, retInt := SUCCESS)
            else rt.Abs() == st && r == Unharvested(st, b)
  {
    ghost var st := rt.Abs();
    InvFacts(rt.c, st);
    ConnectTouches(rt.c, st, b.pid, b.sid, b.version);
    r := Reset(b);
    if !b.pendingValid {
      BeginResult(rt.c, st, b.pid, b.sid, b.version);
      hide Inv;
      hide OthersUntouched;
      var handle, msg := rt.BeginConnect(b.pid, b.sid, b.version);
      if handle <= 0 {
        r := r.(retHandle := handle, retInt := SUCCESS);
        if handle == CONNECTION_REFUSED || handle == NOT_SUPPORTED {
          r := r.(mustPanic := true);
        }
      } else {
        r := r.(pendingMsg := msg.value, pendingValid := true, retInt := FFM_NOT_READY);
      }
      return;
    }
    var owned, complete := Ready(rt, b);
    if !owned {
      r := r.(retInt := FFM_ARGUMENT);
    } else if !complete {
      r := r.(retInt := FFM_NOT_READY);
    } else {
      HarvestIsOwnWait(rt.c, st, b);
      FinishTouches(rt.c, st, b.pendingMsg, b.pid, None);
      hide Inv;
      hide OthersUntouched;
      var handle := rt.FinishConnect(b.pendingMsg);
      r := r.(retHandle := handle, pendingValid := false, retInt := SUCCESS);
    }
  }

  /** A begin returns a positive handle exactly when it queued a request, and then the caller waits for it. */
  lemma BeginResult(c: Config, st: Ipc, pid: int, sid: nat, version: nat)
    requires Shape(c, st) && pid !in st.pending
    ensures var b := ConnectBegin(c, st, pid, sid, version);
            && (b.ret > 0 <==> b.msg.Some?)
            && (b.msg.Some? ==> pid in b.st.pending && b.st.pending[pid].msg == b.msg.value)
            && (b.msg.None? ==> b.st.pending == st.pending)
  {
    var k := FreeConnFrom(st.conns, 0);
    if k < |st.conns| {
      RoundTrip(CONNECTION, k, st.conns[k].gen, |st.conns|);
    }
  }

  lemma CallResult(c: Config, st: Ipc, pid: int, h: int, kind: int, ins: VecArg, outs: VecArg)
    requires Shape(c, st) && pid !in st.pending
    ensures var b := CallBegin(c, st, pid, h, kind, ins, outs);
            && (b.ret == SUCCESS <==> b.msg.Some?)
            && (b.msg.Some? ==> pid in b.st.pending && b.st.pending[pid].msg == b.msg.value)
            && (b.msg.None? ==> b.st.pending == st.pending)
  {
  }

  lemma CloseResult(c: Config, st: Ipc, pid: int, h: int)
    requires Shape(c, st) && pid !in st.pending
    ensures var b := CloseBegin(c, st, pid, h);
            && (b.ret != SUCCESS ==> b.msg.None?)
            && (b.msg.Some? ==> pid in b.st.pending && b.st.pending[pid].msg == b.msg.value)
            && (b.msg.None? ==> b.st.pending == st.pending)
  {
  }

  /** A harvest stores in output vector v what the server wrote to it, as far as both lists go. */
  lemma HarvestedOuts(outs: seq<OutVec>, vs: seq<Vec>)
    ensures var r := Lengthened(vs, StoredLengths(outs, Some(|vs|), |outs|));
            && |r| == |vs|
            && forall v :: 0 <= v < |vs| ==> r[v] == if v < |outs| then vs[v].(len := |outs[v].data|) else vs[v]
  {
    StoredIsPrefix(outs, Some(|vs|), |outs|);
  }

  /**
    Vectors outside the caller's domain never reach the runtime, and a harvest reports in the block's own output
    vectors how much was written to each.
    */
  method GateCall(rt: Runtime, domain: Option<SecureDomains.Table>, b: Block) returns (r: Block)
    requires rt.Valid() && (!b.pendingValid ==> b.pid !in rt.pending)
    modifies rt, rt.conns, rt.msgs, rt.heads, rt.parts
    ensures rt.Valid() && OthersUntouched(old(rt.Abs()), rt.Abs(), b.pid)
    ensures Coherent(old(rt.Abs()), b) ==> Coherent(rt.Abs(), r)
    ensures var st := old(rt.Abs());
            if !b.pendingValid then
              if |b.ins| <= MAX_IOVEC && |b.outs| <= MAX_IOVEC && AllInDomain(domain, b.ins, false) && AllInDomain(domain, b.outs, true)
              then
                var begun := CallBegin(rt.c, st, b.pid, b.handle, b.kind, VecArg(false, b.ins), VecArg(false, b.outs));
                && rt.Abs() == begun.st
                && r == if begun.msg.Some? then
                          Reset(b).(retStatus := SUCCESS, pendingMsg := begun.msg.value, pendingValid := true,
                                    retInt := FFM_NOT_READY)
                        else
                          Reset(b).(retStatus := begun.ret, retInt := SUCCESS, mustPanic := begun.ret == PROGRAMMER_ERROR)
              else rt.Abs() == st && r == Reset(b).(retInt := SUCCESS, mustPanic := true)
            else if Harvestable(st, b) then
              var m := st.msgs[b.pendingMsg];
              var done := CallFinish(rt.c, st, b.pendingMsg, Some(|b.outs|));
              && rt.Abs() == done.st
              && r == Reset(b).(outs := r.outs, retStatus := done.ret, pendingValid := false, retInt := SUCCESS,
                                mustPanic := done.ret == PROGRAMMER_ERROR)
              && |r.outs| == |b.outs|
              && (forall v :: 0 <= v < |b.outs| ==>
                    r.outs[v] == if v < |m.outs| && Revalidates(st.env, b.pid, m.outs)
                                 then b.outs[v].(len := |m.outs[v].data|) else b.outs[v])
            else rt.Abs() == st && r == Unharvested(st, b)
  {
    hide Inv;
    hide Shape;
    hide AllInDomain;
    hide Revalidates;
    hide PublishFirst;
    hide StoredLengths;
    ghost var st := rt.Abs();
    InvFacts(rt.c, st);
    var ins, outs := VecArg(false, b.ins), VecArg(false, b.outs);
    r := Reset(b);
    if !b.pendingValid {
      CallTouches(rt.c, st, b.pid, b.handle, b.kind, ins, outs);
      CallResult(rt.c, st, b.pid, b.handle, b.kind, ins, outs);
      var ret := CheckVectors(domain, b);
      if ret != SUCCESS {
        r := r.(retStatus := PROGRAMMER_ERROR, retInt := SUCCESS, mustPanic := true);
        return;
      }
      hide OthersUntouched;
      hide CallBegin;
      var status, msg := rt.BeginCall(b.pid, b.handle, b.kind, ins, outs);
      r := r.(retStatus := status);
      if status != SUCCESS {
        r := r.(retInt := SUCCESS, mustPanic := status == PROGRAMMER_ERROR);
      } else {
        r := r.(pendingMsg := msg.value, pendingValid := true, retInt := FFM_NOT_READY);
      }
      return;
    }
    var owned, complete := Ready(rt, b);
    if !owned {
      r := r.(retInt := FFM_ARGUMENT);
    } else if !complete {
      r := r.(retInt := FFM_NOT_READY);
    } else {
      HarvestIsOwnWait(rt.c, st, b);
      FinishTouches(rt.c, st, b.pendingMsg, b.pid, Some(|b.outs|));
      hide OthersUntouched;
      HarvestedOuts(st.msgs[b.pendingMsg].outs, b.outs);
      var status, lens := rt.FinishCall(b.pendingMsg, Some(|b.outs|));
      r := r.(outs := Lengthened(r.outs, lens), retStatus := status, pendingValid := false, retInt := SUCCESS);
      if status == PROGRAMMER_ERROR {
        r := r.(mustPanic := true);
      }
    }
  }

  method GateClose(rt: Runtime, b: Block) returns (r: Block)
    requires rt.Valid() && (!b.pendingValid ==> b.pid !in rt.pending)
    modifies rt, rt.conns, rt.msgs, rt.heads, rt.parts
    ensures rt.Valid() && OthersUntouched(old(rt.Abs()), rt.Abs(), b.pid)
    ensures Coherent(old(rt.Abs()), b) ==> Coherent(rt.Abs(), r)
    ensures var st := old(rt.Abs());
            if !b.pendingValid then
              var begun := CloseBegin(rt.c, st, b.pid, b.handle);
              && rt.Abs() == begun.st
              && r == if begun.msg.Some? then
                        Reset(b).(pendingMsg := begun.msg.value, pendingValid := true, retInt := FFM_NOT_READY)
                      else if begun.ret == SUCCESS then Reset(b).(pendingMsg := NONE, retInt := SUCCESS)
                      else Reset(b).(retInt := begun.ret, mustPanic := true)
            else if Harvestable(st, b) then
              && rt.Abs() == CloseFinish(rt.c, st, b.pendingMsg).st
              && r == Reset(b).(pendingValid := false, retInt := SUCCESS)
            else rt.Abs() == st && r == Unharvested(st, b)
  {
    ghost var st := rt.Abs();
    InvFacts(rt.c, st);
    r := Reset(b);
    if !b.pendingValid {
      CloseTouches(rt.c, st, b.pid, b.handle);
      CloseResult(rt.c, st, b.pid, b.handle);
      hide Inv;
      hide OthersUntouched;
      hide CloseBegin;
      var ret, msg := rt.BeginClose(b.pid, b.handle);
      if ret != SUCCESS {
        r := r.(retInt := ret, mustPanic := true);
      } else if msg.None? {
        r := r.(pendingMsg := NONE, retInt := SUCCESS);
      } else {
        r := r.(pendingMsg := msg.value, pendingValid := true, retInt := FFM_NOT_READY);
      }
      return;
    }
    var owned, complete := Ready(rt, b);
    if !owned {
      r := r.(retInt := FFM_ARGUMENT);
    } else if !complete {
      r := r.(retInt := FFM_NOT_READY);
    } else {
      HarvestIsOwnWait(rt.c, st, b);
      FinishTouches(rt.c, st, b.pendingMsg, b.pid, None);
      hide Inv;
      hide OthersUntouched;
      var ret := rt.FinishClose(b.pendingMsg);
      r := r.(retInt := ret, pendingValid := false);
    }
  }
}
