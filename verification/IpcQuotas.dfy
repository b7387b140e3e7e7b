/**
  Connection quotas hold in every reachable state: no client owns more connections
  than its share, and the Non-secure clients together leave the reserved slots free.
  */
module IpcQuotas {
  import opened Handles
  import opened IpcModel
  import opened IpcInvariant
  import opened IpcRuns
  import opened IpcHistory
  import opened IpcTraces
  import opened IpcSafety

  ghost predicate QuotasOk(c: Config, st: Ipc) {
    (forall x: int :: ClientCount(st.conns, x) <= c.perClient) && NonsecureCount(st.conns) <= c.nonsecureLimit
  }

  /** Every occupied slot was occupied by the same caller before. */
  predicate Shrinks(cs: seq<Conn>, cs': seq<Conn>) {
    |cs'| == |cs| && forall k :: 0 <= k < |cs| && cs'[k].state != Free ==> cs[k].state != Free && cs'[k].caller == cs[k].caller
  }

  lemma {:induction false} ShrinksCounts(cs: seq<Conn>, cs': seq<Conn>, x: int)
    requires Shrinks(cs, cs')
    ensures ClientCount(cs', x) <= ClientCount(cs, x) && NonsecureCount(cs') <= NonsecureCount(cs)
    decreases |cs|
  {
    if cs != [] {
      var n := |cs| - 1;
      assert Shrinks(cs[..n], cs'[..n]) by {
        assert forall k :: 0 <= k < n ==> cs[..n][k] == cs[k] && cs'[..n][k] == cs'[k];
      }
      ShrinksCounts(cs[..n], cs'[..n], x);
    }
  }

  /** Filling one slot adds at most one to its caller's count and nothing to the others'. */
  lemma {:induction false} FillCounts(cs: seq<Conn>, k: nat, v: Conn, x: int)
    requires k < |cs|
    ensures ClientCount(cs[k := v], x) <= ClientCount(cs, x) + if v.caller == x then 1 else 0
    ensures NonsecureCount(cs[k := v]) <= NonsecureCount(cs) + if v.caller < 0 then 1 else 0
    decreases |cs|
  {
    var n := |cs| - 1;
    if k < n {
      FillCounts(cs[..n], k, v, x);
      assert cs[k := v][..n] == cs[..n][k := v];
    } else {
      assert cs[k := v][..n] == cs[..n];
    }
  }

  /** A connect fills at most one slot, for a caller that is below its quota. */
  lemma ConnectQuotas(c: Config, st: Ipc, x: int, sid: nat, version: nat)
    requires Shape(c, st) && QuotasOk(c, st)
    ensures QuotasOk(c, ConnectBegin(c, st, x, sid, version).st)
  {
    var st' := ConnectBegin(c, st, x, sid, version).st;
    var k := FreeConnFrom(st.conns, 0);
    if ConnectBegin(c, st, x, sid, version).msg.Some? {
      var v := st'.conns[k];
      assert st'.conns == st.conns[k := v] && v.caller == x;
      forall y: int ensures ClientCount(st'.conns, y) <= c.perClient {
        FillCounts(st.conns, k, v, y);
      }
      FillCounts(st.conns, k, v, x);
    } else {
      forall y: int ensures ClientCount(st'.conns, y) <= c.perClient && NonsecureCount(st'.conns) <= c.nonsecureLimit {
        ShrinksCounts(st.conns, st'.conns, y);
      }
    }
  }

  /** Every other step only ever frees connections. */
  lemma OtherStepsShrink(c: Config, st: Ipc, step: Step)
    requires Shape(c, st) && Inv(c, st) && Takes(c, st, step) && !step.DoConnect?
    ensures Shrinks(st.conns, Apply(c, st, step).conns)
  {
    hide Inv;
    hide Apply;
    StepFacts(c, st, step);
    var st' := Apply(c, st, step);
    forall k | 0 <= k < |st.conns| && st'.conns[k].state != Free
      ensures st.conns[k].state != Free && st'.conns[k].caller == st.conns[k].caller
    {
      assert Evolves(st.conns[k], st'.conns[k], RhandleOf(step), false);
    }
  }

  lemma StepQuotas(c: Config, st: Ipc, step: Step)
    requires Shape(c, st) && Inv(c, st) && Takes(c, st, step) && QuotasOk(c, st)
    ensures QuotasOk(c, Apply(c, st, step))
  {
    if step.DoConnect? {
      ConnectQuotas(c, st, step.caller, step.sid, step.version);
    } else {
      OtherStepsShrink(c, st, step);
      hide Inv;
      hide Apply;
      forall y: int
        ensures ClientCount(Apply(c, st, step).conns, y) <= c.perClient && NonsecureCount(Apply(c, st, step).conns) <= c.nonsecureLimit
      {
        ShrinksCounts(st.conns, Apply(c, st, step).conns, y);
      }
    }
  }

  lemma {:induction false} RunQuotas(c: Config, st: Ipc, run: seq<Step>, st': Ipc)
    requires Shape(c, st) && Inv(c, st) && QuotasOk(c, st) && Runs(c, st, run, st')
    ensures QuotasOk(c, st')
    decreases |run|
  {
    hide Inv;
    hide Apply;
    hide Shape;
    hide QuotasOk;
    if run != [] {
      StepFacts(c, st, run[0]);
      StepQuotas(c, st, run[0]);
      RunQuotas(c, Apply(c, st, run[0]), run[1..], st');
    }
  }

  lemma {:induction false} EmptyCounts(cs: seq<Conn>, x: int)
    requires forall k :: 0 <= k < |cs| ==> cs[k].state == Free
    ensures ClientCount(cs, x) == 0 && NonsecureCount(cs) == 0
    decreases |cs|
  {
    if cs != [] {
      EmptyCounts(cs[..|cs| - 1], x);
    }
  }

  lemma NoneOwned(c: Config, st: Ipc)
    requires forall k :: 0 <= k < |st.conns| ==> st.conns[k].state == Free
    ensures QuotasOk(c, st)
  {
    EmptyCounts(st.conns, 0);
    forall x: int ensures ClientCount(st.conns, x) <= c.perClient {
      EmptyCounts(st.conns, x);
    }
  }

  /** No client ever owns more than its share, and Non-secure clients together never take the reserved slots. */
  lemma QuotasHold(c: Config, st: Ipc)
    requires ConfigOk(c) && Reachable(c, st)
    ensures forall x: int :: ClientCount(st.conns, x) <= c.perClient
    ensures NonsecureCount(st.conns) <= c.nonsecureLimit
  {
    var connSlots: nat, msgSlots: nat, env: Env, run: seq<Step> :|
      && 0 < connSlots <= MAX_SLOTS && 0 < msgSlots <= MAX_SLOTS
      && Runs(c, InitState(c, connSlots, msgSlots, env), run, st);
    var st0 := InitState(c, connSlots, msgSlots, env);
    InitInv(c, connSlots, msgSlots, env);
    NoneOwned(c, st0);
    RunQuotas(c, st0, run, st);
  }
}
