/**
  What holds in every state that a run of the IPC runtime can reach.
  */
module IpcSafety {
  import opened Bits
  import opened Handles
  import opened IpcModel
  import opened IpcInvariant
  import opened IpcRuns
  import Manifest
  import ManifestChecks
  import Dependencies

  /** st is reached by some run from the initial state. */
  ghost predicate Reachable(c: Config, st: Ipc) {
    exists connSlots: nat, msgSlots: nat, env: Env, run: seq<Step> ::
      && 0 < connSlots <= MAX_SLOTS && 0 < msgSlots <= MAX_SLOTS
      && Runs(c, InitState(c, connSlots, msgSlots, env), run, st)
  }

  lemma ReachableInv(c: Config, st: Ipc)
    requires ConfigOk(c) && Reachable(c, st)
    ensures Inv(c, st)
  {
    var connSlots: nat, msgSlots: nat, env: Env, run: seq<Step> :|
      && 0 < connSlots <= MAX_SLOTS && 0 < msgSlots <= MAX_SLOTS
      && Runs(c, InitState(c, connSlots, msgSlots, env), run, st);
    InitInv(c, connSlots, msgSlots, env);
    RunInv(c, InitState(c, connSlots, msgSlots, env), run, st);
  }

  /** The in-flight request i belongs to an open connection of the same caller and service, in a matching state. */
  ghost predicate OwnsConnection(st: Ipc, i: nat)
    requires i < |st.msgs|
  {
    var m := st.msgs[i];
    && m.conn < |st.conns|
    && var conn := st.conns[m.conn];
       && conn.state !in {Free, Idle, Terminal}
       && conn.caller == m.caller && conn.service == m.service
       && (conn.state == Error ==> m.phase == Delivered && m.abandon == AwaitReply)
  }

  /** At most one request is in flight on a connection, an idle one has none, and a failed one has only an abandoned request. */
  lemma OneRequestPerConnection(c: Config, st: Ipc)
    requires ConfigOk(c) && Reachable(c, st)
    ensures forall i, j :: 0 <= i < j < |st.msgs| && InFlight(st.msgs[i]) && InFlight(st.msgs[j]) ==>
              st.msgs[i].conn != st.msgs[j].conn
    ensures forall i :: 0 <= i < |st.msgs| && InFlight(st.msgs[i]) ==> OwnsConnection(st, i)
  {
    ReachableInv(c, st);
    forall i | 0 <= i < |st.msgs| && InFlight(st.msgs[i]) ensures OwnsConnection(st, i) {
      assert MsgOk(st, i);
    }
  }

  /** Queue s lists undelivered requests of service s, each once, and its signal says whether there is one. */
  ghost predicate QueueExact(c: Config, st: Ipc, s: nat)
    requires s < |c.services| == |st.queues| && c.services[s].partition < |st.signals|
  {
    var q := st.queues[s];
    && (forall n :: 0 <= n < |q| ==> q[n] < |st.msgs| && st.msgs[q[n]].phase == Queued && st.msgs[q[n]].service == s)
    && (forall n, m :: 0 <= n < m < |q| ==> q[n] != q[m])
    && (forall i :: 0 <= i < |st.msgs| && st.msgs[i].phase == Queued && st.msgs[i].service == s ==> i in q)
    && (Asserted(st.signals[c.services[s].partition], c.services[s].signal) <==> q != [])
  }

  /** The queues hold exactly the undelivered requests, each once and at its own service, and drive the signals. */
  lemma QueuesAreExact(c: Config, st: Ipc)
    requires ConfigOk(c) && Reachable(c, st)
    ensures |st.queues| == |c.services| && |st.signals| == |c.partitions|
    ensures forall s :: 0 <= s < |c.services| ==> QueueExact(c, st, s)
    ensures forall i :: 0 <= i < |st.msgs| && st.msgs[i].phase == Queued ==> st.msgs[i].service < |c.services|
  {
    ReachableInv(c, st);
    forall s | 0 <= s < |c.services| ensures QueueExact(c, st, s) {
      assert !ServedBy(c, s, 0) && QueueOk(c, st, s);
    }
  }

  // ---------------------------------------------------------------- waiting

  /** Partition p has a request in flight to a service of partition q. */
  ghost predicate WaitsOn(c: Config, st: Ipc, p: nat, q: nat) {
    p < |c.partitions| && exists i :: 0 <= i < |st.msgs| && RequestFrom(c, st.msgs[i], p, q)
  }

  ghost predicate RequestFrom(c: Config, m: Msg, p: nat, q: nat)
    requires p < |c.partitions|
  {
    InFlight(m) && m.caller == c.partitions[p].id && m.service < |c.services| && c.services[m.service].partition == q
  }

  ghost predicate WaitCycle(c: Config, st: Ipc, w: seq<nat>) {
    |w| >= 2 && w[0] == w[|w| - 1] && forall n :: 0 <= n < |w| - 1 ==> WaitsOn(c, st, w[n], w[n + 1])
  }

  /** The manifest checks the runtime was started from. */
  ghost predicate Accepted(ps: seq<Manifest.PartitionDesc>, rank: seq<nat>) {
    && ManifestChecks.PartitionsDistinct(ps) && ManifestChecks.IpcManifest(ps) && ManifestChecks.ServicesDistinct(ps)
    && Dependencies.Resolves(ps) && Dependencies.Ranks(ps, rank)
  }

  /** With distinct service ids, the owner of a flattened service's id is its partition. */
  lemma OwnerOfFlat(ps: seq<Manifest.PartitionDesc>, s: nat)
    requires ManifestChecks.ServicesDistinct(ps) && s < |ManifestChecks.FlatServices(ps, |ps|)|
    ensures var f := ManifestChecks.FlatServices(ps, |ps|)[s];
            Manifest.Owner(ps, f.sid) == Some(f.partition)
  {
    var f := ManifestChecks.FlatServices(ps, |ps|)[s];
    var j := ManifestChecks.FlatSource(ps, |ps|, s);
    assert Manifest.Provides(ps[f.partition], f.sid);
    var o := Manifest.Owner(ps, f.sid);
    if o != Some(f.partition) {
      var y :| 0 <= y < |ps[o.value].services| && ps[o.value].services[y].sid == f.sid;
      assert ManifestChecks.Fresh(ps, f.partition, j);
      assert ManifestChecks.Earlier(o.value, y, f.partition, j);
      assert ManifestChecks.Clash(ps[f.partition].services[j], ps[o.value].services[y]);
    }
  }

  /** A partition only ever waits along a declared dependency. */
  lemma WaitsAlongDependency(ps: seq<Manifest.PartitionDesc>, c: Config, st: Ipc, p: nat, q: nat)
    requires ManifestChecks.ServicesDistinct(ps)
    requires c == ManifestChecks.Configure(ps, c.perClient, c.nonsecureLimit, c.transferLimit)
    requires Inv(c, st) && WaitsOn(c, st, p, q)
    ensures p < |ps| && q < |ps| && Dependencies.Edge(ps, p, q)
  {
    var i :| 0 <= i < |st.msgs| && RequestFrom(c, st.msgs[i], p, q);
    var m := st.msgs[i];
    assert MsgOk(st, i) && ConnOk(c, st, m.conn);
    OwnerOfFlat(ps, m.service);
    var sid := c.services[m.service].sid;
    assert sid in c.partitions[p].dependencies;
    var d :| 0 <= d < |ps[p].dependencies| && ps[p].dependencies[d] == sid;
  }

  lemma CycleAlongDependencies(ps: seq<Manifest.PartitionDesc>, c: Config, st: Ipc, w: seq<nat>)
    requires ManifestChecks.ServicesDistinct(ps)
    requires c == ManifestChecks.Configure(ps, c.perClient, c.nonsecureLimit, c.transferLimit)
    requires Inv(c, st) && WaitCycle(c, st, w)
    ensures Dependencies.Cycle(ps, w)
  {
    hide Inv;
    forall n | 0 <= n < |w| ensures w[n] < |ps| {
      var k := if n < |w| - 1 then n else 0;
      assert WaitsOn(c, st, w[k], w[k + 1]);
      WaitsAlongDependency(ps, c, st, w[k], w[k + 1]);
    }
    forall n | 0 <= n < |w| - 1 ensures Dependencies.Edge(ps, w[n], w[n + 1]) {
      assert WaitsOn(c, st, w[n], w[n + 1]);
      WaitsAlongDependency(ps, c, st, w[n], w[n + 1]);
    }
  }

  /** With an accepted manifest no run ever leaves partitions waiting on each other in a circle. */
  lemma NoWaitCycle(ps: seq<Manifest.PartitionDesc>, rank: seq<nat>, c: Config, st: Ipc, w: seq<nat>)
    requires Accepted(ps, rank)
    requires c == ManifestChecks.Configure(ps, c.perClient, c.nonsecureLimit, c.transferLimit)
    requires Reachable(c, st)
    ensures !WaitCycle(c, st, w)
  {
    ManifestChecks.ConfigureOk(ps, c.perClient, c.nonsecureLimit, c.transferLimit);
    ReachableInv(c, st);
    if WaitCycle(c, st, w) {
      CycleAlongDependencies(ps, c, st, w);
      Dependencies.RankExcludesCycle(ps, rank, w);
    }
  }
}
