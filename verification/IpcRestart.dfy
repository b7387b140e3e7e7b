/**
  A restarted partition never sees a reverse handle that an earlier instance set.
  */
module IpcRestart {
  import opened Bits
  import opened IpcModel
  import opened IpcInvariant
  import opened IpcFaults
  import opened IpcRuns
  import opened IpcHistory
  import opened IpcTraces

  /** Every connection that pid may still receive a request on has no reverse handle, or one of values. */
  ghost predicate RhandlesFrom(c: Config, st: Ipc, pid: int, values: set<nat>)
    requires Shape(c, st)
  {
    forall k :: 0 <= k < |st.conns| ==> RhandleFrom(c, st.conns[k], pid, values)
  }

  ghost predicate RhandleFrom(c: Config, conn: Conn, pid: int, values: set<nat>)
    requires ConfigOk(c) && (conn.state != Free ==> conn.service < |c.services|)
  {
    conn.state !in {Free, Terminal} && ServedBy(c, conn.service, pid) ==> conn.rhandle == 0 || conn.rhandle in values
  }

  /** pid sets no reverse handle outside values in this step. */
  predicate SetsOnly(step: Step, pid: int, values: set<nat>) {
    step.DoSetRhandle? && step.pid == pid ==> step.value in values
  }

  /** Another partition's reverse handles live on its own connections. */
  lemma SetRhandleForeign(c: Config, st: Ipc, p: int, h: int, value: nat, pid: int, k: nat)
    requires Inv(c, st) && p != pid && k < |st.conns| && st.conns[k].state != Free && ServedBy(c, st.conns[k].service, pid)
    ensures SetRhandle(c, st, p, h, value).st.conns[k] == st.conns[k]
  {
    if ResolveMsg(c, st, p, h).Found? {
      assert MsgOk(st, ResolveMsg(c, st, p, h).index);
    }
  }

  lemma FreeHasNoRhandle(c: Config, st: Ipc, k: nat)
    requires Inv(c, st) && k < |st.conns| && st.conns[k].state == Free
    ensures st.conns[k].rhandle == 0
  {
    assert ConnOk(c, st, k);
  }

  lemma RhandleStep(c: Config, st: Ipc, step: Step, pid: int, values: set<nat>, k: nat)
    requires Shape(c, st) && Inv(c, st) && Takes(c, st, step) && SetsOnly(step, pid, values) && k < |st.conns|
    requires RhandleFrom(c, st.conns[k], pid, values)
    ensures Shape(c, Apply(c, st, step)) && k < |Apply(c, st, step).conns|
    ensures RhandleFrom(c, Apply(c, st, step).conns[k], pid, values)
  {
    hide Inv;
    StepFacts(c, st, step);
    var v := Apply(c, st, step).conns[k];
    assert Evolves(st.conns[k], v, RhandleOf(step), step.DoConnect?);
    if st.conns[k].state == Free {
      FreeHasNoRhandle(c, st, k);
    } else if step.DoSetRhandle? && step.pid != pid && ServedBy(c, st.conns[k].service, pid) {
      SetRhandleForeign(c, st, step.pid, step.handle, step.value, pid, k);
      assert v == st.conns[k];
    } else {
      hide Apply;
    }
  }

  lemma {:induction false} RhandlesAlong(c: Config, st: Ipc, run: seq<Step>, st': Ipc, pid: int, values: set<nat>)
    requires Shape(c, st) && Inv(c, st) && Runs(c, st, run, st') && RhandlesFrom(c, st, pid, values)
    requires forall n :: 0 <= n < |run| ==> SetsOnly(run[n], pid, values)
    ensures Shape(c, st') && Inv(c, st') && RhandlesFrom(c, st', pid, values)
    decreases |run|
  {
    hide Inv;
    hide Shape;
    hide Apply;
    hide RhandleFrom;
    if run != [] {
      var mid := Apply(c, st, run[0]);
      StepFacts(c, st, run[0]);
      forall k | 0 <= k < |mid.conns| ensures RhandleFrom(c, mid.conns[k], pid, values) {
        RhandleStep(c, st, run[0], pid, values, k);
      }
      RhandlesAlong(c, mid, run[1..], st', pid, values);
    }
  }

  lemma DeliveredRhandle(c: Config, st: Ipc, pid: int, signal: Word, values: set<nat>)
    requires Inv(c, st) && QueueRange(st) && RhandlesFrom(c, st, pid, values)
    requires GetMsg(c, st, pid, signal).delivery.Some?
    ensures GetMsg(c, st, pid, signal).delivery.value.rhandle in values + {0}
  {
    var p := FindPartition(c, pid).value;
    var s := SignalFrom(c.services, p, signal, 0).value;
    var i := st.queues[s][0];
    assert !ServedBy(c, s, 0) && QueueOk(c, st, s);
    assert MsgOk(st, i);
    assert RhandleFrom(c, st.conns[st.msgs[i].conn], pid, values);
  }

  /**
    After a restart of pid, in any run, whatever message pid gets carries no reverse
    handle or one that pid itself set since the restart.
    */
  lemma RestartForgetsRhandles(c: Config, st: Ipc, pid: int, status: int, run: seq<Step>, st': Ipc, signal: Word,
                               values: set<nat>)
    requires Inv(c, st) && FindPartition(c, pid).Some?
    requires Runs(c, Restarted(c, st, pid, status), run, st') && QueueRange(st')
    requires forall n :: 0 <= n < |run| ==> SetsOnly(run[n], pid, values)
    ensures Shape(c, st')
    ensures GetMsg(c, st', pid, signal).delivery.Some? ==>
              GetMsg(c, st', pid, signal).delivery.value.rhandle in values + {0}
  {
    var r := Restarted(c, st, pid, status);
    RestartedInv(c, st, pid, status);
    assert RhandlesFrom(c, r, pid, values);
    RhandlesAlong(c, r, run, st', pid, values);
    if GetMsg(c, st', pid, signal).delivery.Some? {
      DeliveredRhandle(c, st', pid, signal, values);
    }
  }
}
