/**
  What bytes a call moves: the server's reads are consecutive slices of the input as
  it was when the call was made, and the client's output buffers receive exactly what
  the server wrote, or nothing.
  */
module IpcTransfers {
  import opened Handles
  import opened IpcModel
  import opened IpcInvariant
  import opened IpcPreserve
  import opened IpcRuns
  import opened IpcHistory
  import opened IpcTraces
  import opened IpcSync

  // ---------------------------------------------------------------- what one step moves

  /** The bytes of input vector v of message i that the step hands to the server (or skips). */
  ghost function ReadBy(c: Config, st: Ipc, step: Step, i: nat, v: nat): seq<Byte>
    requires Shape(c, st)
  {
    if step.DoRead? && step.vec == v && ResolveMsg(c, st, step.pid, step.handle) == Found(i)
    then ReadMsg(c, st, step.pid, step.handle, v, step.len).bytes else []
  }

  /** The bytes the step appends to output vector v of message i. */
  ghost function WrittenBy(c: Config, st: Ipc, step: Step, i: nat, v: nat): seq<Byte>
    requires Shape(c, st)
  {
    if step.DoWrite? && step.vec == v && ResolveMsg(c, st, step.pid, step.handle) == Found(i)
       && WriteMsg(c, st, step.pid, step.handle, v, step.data).ret == SUCCESS
    then step.data else []
  }

  predicate InMoves(o: InVec, n: InVec, bytes: seq<Byte>) {
    n.seen == o.seen + bytes && o.rest == bytes + n.rest
  }

  predicate OutMoves(o: OutVec, n: OutVec, bytes: seq<Byte>) {
    && n.base == o.base && n.capacity == o.capacity && n.data == o.data + bytes
    && (|o.data| <= o.capacity ==> |n.data| <= n.capacity)
  }

  /** Message o of slot i became n, moving exactly the bytes the step names. */
  ghost predicate Moves(c: Config, st: Ipc, step: Step, i: nat, o: Msg, n: Msg)
    requires Shape(c, st)
  {
    && |n.ins| == |o.ins| && |n.outs| == |o.outs|
    && (forall v :: 0 <= v < |o.ins| ==> InMoves(o.ins[v], n.ins[v], ReadBy(c, st, step, i, v)))
    && (forall v :: 0 <= v < |o.outs| ==> OutMoves(o.outs[v], n.outs[v], WrittenBy(c, st, step, i, v)))
  }

  lemma ReadMoves(c: Config, st: Ipc, p: int, h: int, vec: nat, len: nat)
    requires Shape(c, st) && ResolveMsg(c, st, p, h).Found? && Linked(st) && QueueRange(st)
    ensures var i := ResolveMsg(c, st, p, h).index;
            Moves(c, st, DoRead(p, h, vec, len), i, st.msgs[i], ReadMsg(c, st, p, h, vec, len).st.msgs[i])
  {
    var step := DoRead(p, h, vec, len);
    var i := ResolveMsg(c, st, p, h).index;
    var o, n := st.msgs[i], ReadMsg(c, st, p, h, vec, len).st.msgs[i];
    forall v | 0 <= v < |o.ins| ensures InMoves(o.ins[v], n.ins[v], ReadBy(c, st, step, i, v)) {
    }
  }

  lemma WriteMoves(c: Config, st: Ipc, p: int, h: int, vec: nat, data: seq<Byte>)
    requires Shape(c, st) && ResolveMsg(c, st, p, h).Found?
    ensures var i := ResolveMsg(c, st, p, h).index;
            Moves(c, st, DoWrite(p, h, vec, data), i, st.msgs[i], WriteMsg(c, st, p, h, vec, data).st.msgs[i])
  {
    var step := DoWrite(p, h, vec, data);
    var i := ResolveMsg(c, st, p, h).index;
    var o, n := st.msgs[i], WriteMsg(c, st, p, h, vec, data).st.msgs[i];
    forall v | 0 <= v < |o.outs| ensures OutMoves(o.outs[v], n.outs[v], WrittenBy(c, st, step, i, v)) {
    }
  }

  lemma QuietMoves(c: Config, st: Ipc, step: Step, i: nat, o: Msg, n: Msg)
    requires Shape(c, st) && i !in MovedBy(c, st, step) && n.ins == o.ins && n.outs == o.outs
    ensures Moves(c, st, step, i, o, n)
  {
  }

  lemma StepMoves(c: Config, st: Ipc, step: Step, x: int)
    requires Shape(c, st) && Inv(c, st) && Takes(c, st, step) && x in st.pending && Foreign(step, x)
    ensures SameWait(st, Apply(c, st, step), x)
    ensures var i := st.pending[x].msg;
            Moves(c, st, step, i, st.msgs[i], Apply(c, st, step).msgs[i])
  {
    hide Inv;
    StepFacts(c, st, step);
    StepKeepsWait(c, st, step, x);
    var i := st.pending[x].msg;
    var n := Apply(c, st, step).msgs[i];
    assert MsgEvolves(st, st.msgs[i], n, i !in MovedBy(c, st, step));
    if i !in MovedBy(c, st, step) {
      hide Apply;
      QuietMoves(c, st, step, i, st.msgs[i], n);
    } else {
      match step
      case DoRead(p, h, vec, len) => ReadMoves(c, st, p, h, vec, len);
      case DoWrite(p, h, vec, data) => WriteMoves(c, st, p, h, vec, data);
    }
  }

  // ---------------------------------------------------------------- what a run moves

  /** Everything the run reads or skips of input vector v of message i, in order. */
  ghost function Reads(c: Config, st: Ipc, run: seq<Step>, i: nat, v: nat): seq<Byte>
    decreases |run|
  {
    if run == [] || !Takes(c, st, run[0]) then []
    else ReadBy(c, st, run[0], i, v) + Reads(c, Apply(c, st, run[0]), run[1..], i, v)
  }

  /** Everything the run writes to output vector v of message i, in order. */
  ghost function Writes(c: Config, st: Ipc, run: seq<Step>, i: nat, v: nat): seq<Byte>
    decreases |run|
  {
    if run == [] || !Takes(c, st, run[0]) then []
    else WrittenBy(c, st, run[0], i, v) + Writes(c, Apply(c, st, run[0]), run[1..], i, v)
  }

  lemma InTrans(a: InVec, b: InVec, d: InVec, p: seq<Byte>, q: seq<Byte>)
    requires InMoves(a, b, p) && InMoves(b, d, q)
    ensures InMoves(a, d, p + q)
  {
  }

  lemma OutTrans(a: OutVec, b: OutVec, d: OutVec, p: seq<Byte>, q: seq<Byte>)
    requires OutMoves(a, b, p) && OutMoves(b, d, q)
    ensures OutMoves(a, d, p + q)
  {
  }

  /** Along any run of the other parties, the request's bytes move exactly as the reads and writes say. */
  lemma {:induction false} RunMoves(c: Config, st: Ipc, run: seq<Step>, st': Ipc, x: int)
    requires Shape(c, st) && Inv(c, st) && Runs(c, st, run, st') && x in st.pending && ForeignRun(run, x)
    ensures SameWait(st, st', x)
    ensures var i := st.pending[x].msg;
            && (forall v :: 0 <= v < |st.msgs[i].ins| ==>
                  InMoves(st.msgs[i].ins[v], st'.msgs[i].ins[v], Reads(c, st, run, i, v)))
            && (forall v :: 0 <= v < |st.msgs[i].outs| ==>
                  OutMoves(st.msgs[i].outs[v], st'.msgs[i].outs[v], Writes(c, st, run, i, v)))
    decreases |run|
  {
    hide Inv;
    hide Apply;
    hide Shape;
    hide ReadBy;
    hide WrittenBy;
    hide InMoves;
    hide OutMoves;
    RunKeepsWait(c, st, run, st', x);
    var i := st.pending[x].msg;
    if run == [] {
      NoneMoved(st.msgs[i]);
    } else {
      var mid := Apply(c, st, run[0]);
      StepFacts(c, st, run[0]);
      StepMoves(c, st, run[0], x);
      RunMoves(c, mid, run[1..], st', x);
      forall v | 0 <= v < |st.msgs[i].ins|
        ensures InMoves(st.msgs[i].ins[v], st'.msgs[i].ins[v], Reads(c, st, run, i, v))
      {
        InTrans(st.msgs[i].ins[v], mid.msgs[i].ins[v], st'.msgs[i].ins[v], ReadBy(c, st, run[0], i, v),
                Reads(c, mid, run[1..], i, v));
      }
      forall v | 0 <= v < |st.msgs[i].outs|
        ensures OutMoves(st.msgs[i].outs[v], st'.msgs[i].outs[v], Writes(c, st, run, i, v))
      {
        OutTrans(st.msgs[i].outs[v], mid.msgs[i].outs[v], st'.msgs[i].outs[v], WrittenBy(c, st, run[0], i, v),
                 Writes(c, mid, run[1..], i, v));
      }
    }
  }

  lemma NoneMoved(m: Msg)
    ensures forall v :: 0 <= v < |m.ins| ==> InMoves(m.ins[v], m.ins[v], [])
    ensures forall v :: 0 <= v < |m.outs| ==> OutMoves(m.outs[v], m.outs[v], [])
  {
  }

  // ---------------------------------------------------------------- publication

  lemma {:induction false} StoreAt(memory: map<nat, Byte>, base: nat, data: seq<Byte>, a: nat)
    ensures a in Store(memory, base, data) <==> a in memory || base <= a < base + |data|
    ensures base <= a < base + |data| ==> Store(memory, base, data)[a] == data[a - base]
    ensures a in memory && !(base <= a < base + |data|) ==> Store(memory, base, data)[a] == memory[a]
  {
    if data != [] {
      StoreAt(memory, base, data[..|data| - 1], a);
    }
  }

  predicate Holds(o: OutVec, a: nat) {
    o.base <= a < o.base + |o.data|
  }

  predicate Disjoint(outs: seq<OutVec>) {
    forall v, w :: 0 <= v < w < |outs| ==>
      outs[v].base + |outs[v].data| <= outs[w].base || outs[w].base + |outs[w].data| <= outs[v].base
  }

  /** An address in no output vector keeps its byte. */
  lemma {:induction false} PublishElsewhere(memory: map<nat, Byte>, outs: seq<OutVec>, n: nat, a: nat)
    requires n <= |outs| && forall v :: 0 <= v < n ==> !Holds(outs[v], a)
    ensures a in PublishFirst(memory, outs, n) <==> a in memory
    ensures a in memory ==> PublishFirst(memory, outs, n)[a] == memory[a]
  {
    if n > 0 {
      PublishElsewhere(memory, outs, n - 1, a);
      StoreAt(PublishFirst(memory, outs, n - 1), outs[n - 1].base, outs[n - 1].data, a);
    }
  }

  /** With disjoint destinations, each one holds its own data once published. */
  lemma {:induction false} PublishHere(memory: map<nat, Byte>, outs: seq<OutVec>, n: nat, v: nat, a: nat)
    requires v < n <= |outs| && Disjoint(outs) && Holds(outs[v], a)
    ensures a in PublishFirst(memory, outs, n) && PublishFirst(memory, outs, n)[a] == outs[v].data[a - outs[v].base]
  {
    StoreAt(PublishFirst(memory, outs, n - 1), outs[n - 1].base, outs[n - 1].data, a);
    if v < n - 1 {
      PublishHere(memory, outs, n - 1, v, a);
    }
  }

  // ---------------------------------------------------------------- one whole call

  /** The destinations of a call's writes. */
  ghost predicate Separate(outs: seq<Vec>, written: seq<seq<Byte>>)
    requires |written| == |outs|
  {
    forall v, w :: 0 <= v < w < |outs| ==>
      outs[v].base + |written[v]| <= outs[w].base || outs[w].base + |written[w]| <= outs[v].base
  }

  /** The client's memory after a call: each destination holds its data, and no other byte changed. */
  ghost predicate Received(before: map<nat, Byte>, after: map<nat, Byte>, outs: seq<Vec>, written: seq<seq<Byte>>)
    requires |written| == |outs|
  {
    && (forall v, a :: 0 <= v < |outs| && outs[v].base <= a < outs[v].base + |written[v]| ==>
          a in after && after[a] == written[v][a - outs[v].base])
    && (forall a: nat ::
          (forall v :: 0 <= v < |outs| ==> !(outs[v].base <= a < outs[v].base + |written[v]|)) ==>
          (a in after <==> a in before) && (a in after ==> after[a] == before[a]))
  }

  ghost function AllWrites(c: Config, st: Ipc, run: seq<Step>, i: nat, n: nat): (r: seq<seq<Byte>>)
    ensures |r| == n && forall v :: 0 <= v < n ==> r[v] == Writes(c, st, run, i, v)
  {
    seq(n, v requires 0 <= v < n => Writes(c, st, run, i, v))
  }

  lemma Publishes(before: map<nat, Byte>, outs: seq<OutVec>, vecs: seq<Vec>, written: seq<seq<Byte>>)
    requires |outs| == |vecs| == |written| && Separate(vecs, written)
    requires forall v :: 0 <= v < |vecs| ==> outs[v].base == vecs[v].base && outs[v].data == written[v]
    ensures Received(before, PublishFirst(before, outs, |outs|), vecs, written)
  {
    var after := PublishFirst(before, outs, |outs|);
    forall v, a | 0 <= v < |vecs| && vecs[v].base <= a < vecs[v].base + |written[v]|
      ensures a in after && after[a] == written[v][a - vecs[v].base]
    {
      PublishHere(before, outs, |outs|, v, a);
    }
    forall a: nat | forall v :: 0 <= v < |vecs| ==> !(vecs[v].base <= a < vecs[v].base + |written[v]|)
      ensures (a in after <==> a in before) && (a in after ==> after[a] == before[a])
    {
      PublishElsewhere(before, outs, |outs|, a);
    }
  }

  /**
    One call from begin to finish, with the other parties running in between.  The
    server's reads are a prefix of the input captured at the call; the finish either
    refuses and leaves memory alone, or stores every output's writes, and the lengths its
    caller has room for.
    */
  lemma CallTransfers(c: Config, st0: Ipc, x: int, h: int, kind: int, ins: VecArg, outs: VecArg,
                      run: seq<Step>, st: Ipc, room: Option<nat>)
    requires Shape(c, st0) && Inv(c, st0) && x !in st0.pending && CallBegin(c, st0, x, h, kind, ins, outs).msg.Some?
    requires Runs(c, CallBegin(c, st0, x, h, kind, ins, outs).st, run, st) && ForeignRun(run, x)
    ensures var b := CallBegin(c, st0, x, h, kind, ins, outs);
            var i := b.msg.value;
            var written := AllWrites(c, b.st, run, i, |outs.vecs|);
            && Shape(c, st) && i < |st.msgs| && st.msgs[i].phase != Unused
            && (forall v :: 0 <= v < |ins.vecs| ==>
                  Reads(c, b.st, run, i, v) <= Fetch(st0.env.memory, ins.vecs[v].base, ins.vecs[v].len))
            && (forall v :: 0 <= v < |outs.vecs| ==> |written[v]| <= outs.vecs[v].len)
            && var f := CallFinish(c, st, i, room);
               if Revalidates(st.env, x, st.msgs[i].outs) then
                 && f.ret == st.msgs[i].status && |f.lens| == (if room.None? then 0 else Min(room.value, |outs.vecs|))
                 && (forall v :: 0 <= v < |f.lens| ==> f.lens[v] == |written[v]|)
                 && (Separate(outs.vecs, written) ==>
                       Received(st.env.memory, f.st.env.memory, outs.vecs, written))
               else f.ret == PROGRAMMER_ERROR && f.lens == [] && f.st.env == st.env
  {
    hide Inv;
    hide CallBegin;
    hide Runs;
    hide Shape;
    hide Reads;
    hide Writes;
    hide Separate;
    hide Received;
    hide PublishFirst;
    hide StoredLengths;
    hide Revalidates;
    hide Fetch;
    var b := CallBegin(c, st0, x, h, kind, ins, outs);
    var i := b.msg.value;
    CallBegun(c, st0, x, h, kind, ins, outs);
    var written := AllWrites(c, b.st, run, i, |outs.vecs|);
    var m0 := b.st.msgs[i];
    RunMoves(c, b.st, run, st, x);
    RunKeepsWait(c, b.st, run, st, x);
    var m := st.msgs[i];
    assert m.caller == x;
    assert |m.outs| == |outs.vecs|;
    forall v | 0 <= v < |ins.vecs|
      ensures Reads(c, b.st, run, i, v) <= Fetch(st0.env.memory, ins.vecs[v].base, ins.vecs[v].len)
    {
      assert InMoves(m0.ins[v], m.ins[v], Reads(c, b.st, run, i, v));
    }
    forall v | 0 <= v < |outs.vecs|
      ensures m.outs[v].base == outs.vecs[v].base && m.outs[v].data == written[v] && |written[v]| <= outs.vecs[v].len
    {
      assert OutMoves(m0.outs[v], m.outs[v], Writes(c, b.st, run, i, v));
    }
    StoredIsPrefix(m.outs, room, |m.outs|);
    if Separate(outs.vecs, written) {
      Publishes(st.env.memory, m.outs, outs.vecs, written);
    }
  }
}
