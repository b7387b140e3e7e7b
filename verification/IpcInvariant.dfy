/**
  The invariant of the IPC runtime and its preservation by every operation.
  */
module IpcInvariant {
  import opened Bits
  import opened Handles
  import opened IpcModel

  /** What a connection in each state may hold: the only request slot it can own. */
  ghost predicate Compatible(conn: Conn, m: Msg) {
    && conn.caller == m.caller && conn.service == m.service
    && (m.abandon == Kept || m.phase == Queued || m.phase == Delivered)
    && (m.kind < 0 ==> m.abandon != AwaitReply)
    && match conn.state
       case Free => false
       case PendingConnect => m.kind == IPC_CONNECT && m.phase == Queued && m.abandon == Kept
       case Connecting => m.kind == IPC_CONNECT && m.phase == Delivered
       case Idle => m.phase == Complete && (m.kind == IPC_CONNECT || m.kind >= 0)
       case PendingRequest => m.kind >= 0 && m.phase == Queued && m.abandon == Kept
       case Active => m.kind >= 0 && m.phase == Delivered && m.abandon == Kept
       case Disconnecting =>
         || (m.kind == IPC_DISCONNECT && InFlight(m))
         || (m.kind >= 0 && m.phase == Delivered && m.abandon == AwaitClose && conn.latch)
       case Error =>
         || (m.phase == Complete && m.kind >= IPC_DISCONNECT)
         || (m.kind >= 0 && m.phase == Delivered && m.abandon == AwaitReply && conn.latch)
       case Terminal => m.kind == IPC_DISCONNECT && m.phase == Complete
  }

  ghost predicate MsgOk(st: Ipc, i: nat)
    requires i < |st.msgs|
  {
    var m := st.msgs[i];
    if m.phase == Unused then m == FreeMsg(m.gen)
    else m.conn < |st.conns| && Compatible(st.conns[m.conn], m)
  }

  ghost predicate ConnOk(c: Config, st: Ipc, k: nat)
    requires Shape(c, st) && k < |st.conns|
  {
    var conn := st.conns[k];
    if conn.state == Free then conn == FreeConn(conn.gen)
    else CallerAllowed(c, conn.caller, conn.service) && conn.instance == CallerInstance(c, st, conn.caller)
  }

  /** Every slot is consistent, and no two occupied message slots share a connection. */
  ghost predicate CoreOk(c: Config, st: Ipc)
    requires Shape(c, st)
  {
    && (forall k :: 0 <= k < |st.conns| ==> ConnOk(c, st, k))
    && (forall i :: 0 <= i < |st.msgs| ==> MsgOk(st, i))
    && (forall i, j :: 0 <= i < j < |st.msgs| && st.msgs[i].phase != Unused && st.msgs[j].phase != Unused
          ==> st.msgs[i].conn != st.msgs[j].conn)
  }

  ghost predicate QueueOk(c: Config, st: Ipc, s: nat)
    requires s < |st.queues|
  {
    var q := st.queues[s];
    && (forall n :: 0 <= n < |q| ==> q[n] < |st.msgs| && st.msgs[q[n]].phase == Queued && st.msgs[q[n]].service == s)
    && (forall n, n' :: 0 <= n < n' < |q| ==> q[n] != q[n'])
  }

  /** The queues hold exactly the undelivered requests, each once and at its own service; partition skip is exempt. */
  ghost predicate QueuesOk(c: Config, st: Ipc, skip: int)
    requires Shape(c, st)
  {
    && (forall s :: 0 <= s < |c.services| && !ServedBy(c, s, skip) ==> QueueOk(c, st, s))
    && (forall i :: 0 <= i < |st.msgs| && st.msgs[i].phase == Queued && !ServedBy(c, st.msgs[i].service, skip) ==>
          i in st.queues[st.msgs[i].service])
  }

  /** A service's signal is asserted exactly while its queue is non-empty. */
  ghost predicate SignalsOk(c: Config, st: Ipc)
    requires Shape(c, st)
  {
    forall s :: 0 <= s < |c.services| ==>
      (Asserted(st.signals[c.services[s].partition], c.services[s].signal) <==> st.queues[s] != [])
  }

  ghost predicate PendOk(st: Ipc, caller: int)
    requires caller in st.pending
  {
    var p := st.pending[caller];
    && caller != 0 && p.msg < |st.msgs|
    && st.msgs[p.msg].phase != Unused && st.msgs[p.msg].abandon == Kept && st.msgs[p.msg].caller == caller
    && st.msgs[p.msg].conn < |st.conns| <= MAX_SLOTS
    && (st.msgs[p.msg].kind == IPC_CONNECT ==>
          p.handle == Make(CONNECTION, st.msgs[p.msg].conn, st.conns[st.msgs[p.msg].conn].gen))
  }

  /** A request that is not abandoned is the one its caller waits for; client skip is exempt. */
  ghost predicate PendsOk(st: Ipc, skip: int) {
    && (forall x :: x in st.pending ==> PendOk(st, x))
    && (forall i :: 0 <= i < |st.msgs| && st.msgs[i].phase != Unused && st.msgs[i].abandon == Kept ==>
          || st.msgs[i].caller == skip
          || (st.msgs[i].caller in st.pending && st.pending[st.msgs[i].caller].msg == i))
  }

  ghost predicate Inv(c: Config, st: Ipc) {
    Shape(c, st) && CoreOk(c, st) && QueuesOk(c, st, 0) && SignalsOk(c, st) && PendsOk(st, 0)
  }

  lemma InvGives(c: Config, st: Ipc)
    requires Inv(c, st)
    ensures Linked(st) && QueueRange(st)
  {
    forall i | 0 <= i < |st.msgs| && st.msgs[i].phase != Unused
      ensures st.conns[st.msgs[i].conn].state != Free
    {
      assert MsgOk(st, i);
    }
    forall s, n | 0 <= s < |st.queues| && 0 <= n < |st.queues[s]|
      ensures st.queues[s][n] < |st.msgs| && st.msgs[st.queues[s][n]].phase == Queued
    {
      assert QueueOk(c, st, s);
    }
  }

  // ---------------------------------------------------------------- framing

  /** Nothing but connection k and message i changed, and i is the only request that may name k. */
  ghost predicate Local(st: Ipc, st': Ipc, k: nat, i: nat) {
    && |st'.conns| == |st.conns| && |st'.msgs| == |st.msgs| && st'.instances == st.instances
    && k < |st.conns| && i < |st.msgs|
    && (forall j :: 0 <= j < |st.conns| && j != k ==> st'.conns[j] == st.conns[j])
    && (forall j :: 0 <= j < |st.msgs| && j != i ==> st'.msgs[j] == st.msgs[j])
    && (forall j :: 0 <= j < |st.msgs| && j != i && st.msgs[j].phase != Unused ==> st.msgs[j].conn != k)
    && (st'.msgs[i].phase != Unused ==> st'.msgs[i].conn == k)
  }

  lemma LocalCore(c: Config, st: Ipc, st': Ipc, k: nat, i: nat)
    requires Shape(c, st) && CoreOk(c, st) && Shape(c, st') && Local(st, st', k, i)
    requires ConnOk(c, st', k) && MsgOk(st', i)
    ensures CoreOk(c, st')
  {
    forall j | 0 <= j < |st'.conns| ensures ConnOk(c, st', j) {
      assert ConnOk(c, st, j);
    }
    forall j | 0 <= j < |st'.msgs| ensures MsgOk(st', j) {
      assert MsgOk(st, j);
    }
  }

  /** Two services of one partition never share a signal bit. */
  lemma SignalsDisjoint(c: Config, s: nat, t: nat)
    requires ConfigOk(c) && s < |c.services| && t < |c.services| && s != t
    requires c.services[s].partition == c.services[t].partition
    ensures c.services[s].signal !! c.services[t].signal
  {
  }

  lemma SetQueueSignals(c: Config, st: Ipc, s: nat, q: seq<nat>)
    requires Shape(c, st) && SignalsOk(c, st) && s < |c.services|
    ensures SignalsOk(c, SetQueue(c, st, s, q))
  {
    var st' := SetQueue(c, st, s, q);
    var p := c.services[s].partition;
    forall t | 0 <= t < |c.services|
      ensures Asserted(st'.signals[c.services[t].partition], c.services[t].signal) <==> st'.queues[t] != []
    {
      if t == s {
        AssignOwn(st.signals[p], c.services[s].signal, q != []);
      } else if c.services[t].partition == p {
        SignalsDisjoint(c, s, t);
        AssignOther(st.signals[p], c.services[s].signal, c.services[t].signal, q != []);
      }
    }
  }

  lemma {:induction false} WithoutFacts(q: seq<nat>, x: nat)
    requires forall n, n' :: 0 <= n < n' < |q| ==> q[n] != q[n']
    ensures forall y :: y in Without(q, x) <==> y in q && y != x
    ensures forall n, n' :: 0 <= n < n' < |Without(q, x)| ==> Without(q, x)[n] != Without(q, x)[n']
    ensures x !in q ==> Without(q, x) == q
  {
    if q != [] {
      assert q == [q[0]] + q[1..];
      if q[0] != x {
        WithoutFacts(q[1..], x);
        var w := Without(q[1..], x);
        forall n, n' | 0 <= n < n' < |Without(q, x)| ensures Without(q, x)[n] != Without(q, x)[n'] {
          assert w[n' - 1] in w;
        }
      }
    }
  }

  /** Message i leaves the queue of its service, by delivery, withdrawal or cleanup. */
  lemma LeaveQueue(c: Config, st: Ipc, st': Ipc, s: nat, q: seq<nat>, i: nat)
    requires Shape(c, st) && QueuesOk(c, st, 0) && Shape(c, st')
    requires s < |c.services| && i < |st.msgs| == |st'.msgs|
    requires st'.queues == st.queues[s := q]
    requires forall j :: 0 <= j < |st.msgs| && j != i ==> st'.msgs[j] == st.msgs[j]
    requires st'.msgs[i].phase != Queued
    requires st.msgs[i].phase == Queued ==> st.msgs[i].service == s
    requires forall y :: y in q <==> y in st.queues[s] && y != i
    requires forall n, n' :: 0 <= n < n' < |q| ==> q[n] != q[n']
    ensures QueuesOk(c, st', 0)
  {
    forall t | 0 <= t < |c.services| ensures QueueOk(c, st', t) {
      assert QueueOk(c, st, t) && QueueOk(c, st, s);
      if t == s {
        forall n | 0 <= n < |q| ensures q[n] < |st'.msgs| && st'.msgs[q[n]].phase == Queued && st'.msgs[q[n]].service == s {
          assert q[n] in q;
        }
      }
    }
  }

  /** A fresh request i joins the tail of its service's queue. */
  lemma JoinQueue(c: Config, st: Ipc, st': Ipc, s: nat, i: nat)
    requires Shape(c, st) && QueuesOk(c, st, 0) && Shape(c, st')
    requires s < |c.services| && i < |st.msgs| == |st'.msgs|
    requires st'.queues == st.queues[s := st.queues[s] + [i]]
    requires forall j :: 0 <= j < |st.msgs| && j != i ==> st'.msgs[j] == st.msgs[j]
    requires st.msgs[i].phase != Queued
    requires st'.msgs[i].phase == Queued && st'.msgs[i].service == s
    ensures QueuesOk(c, st', 0)
  {
    forall t | 0 <= t < |c.services| ensures QueueOk(c, st', t) {
      assert QueueOk(c, st, t);
      if i in st.queues[t] {
        assert false;
      }
    }
    forall j | 0 <= j < |st'.msgs| && st'.msgs[j].phase == Queued ensures j in st'.queues[st'.msgs[j].service] {
      if j != i {
        assert j in st.queues[st.msgs[j].service];
      }
    }
  }

  /** The queues do not care about a change that leaves every phase and service alone. */
  lemma SameQueues(c: Config, st: Ipc, st': Ipc, skip: int)
    requires Shape(c, st) && QueuesOk(c, st, skip) && Shape(c, st')
    requires st'.queues == st.queues && |st'.msgs| == |st.msgs|
    requires forall j :: 0 <= j < |st.msgs| ==>
      (st'.msgs[j].phase == Queued <==> st.msgs[j].phase == Queued) &&
      (st.msgs[j].phase == Queued ==> st'.msgs[j].service == st.msgs[j].service)
    ensures QueuesOk(c, st', skip)
  {
    forall t | 0 <= t < |c.services| && !ServedBy(c, t, skip) ensures QueueOk(c, st', t) {
      assert QueueOk(c, st, t);
    }
  }
}
