/**
  The transfer buffers of a message: input vectors are copied side by side into one
  flat buffer when the call is made, and output vectors get disjoint parts of another.
  */
module Buffers {
  import opened IpcModel
  import opened RuntimeRep
  import opened Handles
  import Vectors

  /** Overwrites part of a buffer. */
  function Splat(buffer: seq<Byte>, at: nat, data: seq<Byte>): (r: seq<Byte>)
    requires at + |data| <= |buffer|
    ensures |r| == |buffer|
  {
    buffer[..at] + data + buffer[at + |data|..]
  }

  lemma SplatSlice(buffer: seq<Byte>, at: nat, data: seq<Byte>, from: nat, to: nat)
    requires at + |data| <= |buffer| && from <= to <= |buffer|
    ensures to <= at || at + |data| <= from ==> Slice(Splat(buffer, at, data), from, to) == Slice(buffer, from, to)
    ensures Slice(Splat(buffer, at, data), at, at + |data|) == data
  {
    var r := Splat(buffer, at, data);
    assert r[at..at + |data|] == data;
    if to <= at || at + |data| <= from {
      assert r[from..to] == buffer[from..to];
    }
  }

  /** The first |gs| input vectors lie side by side in the first offset bytes of the buffer. */
  ghost predicate Laid(memory: map<nat, Byte>, vs: seq<Vec>, gs: seq<Segment>, buffer: seq<Byte>, offset: nat) {
    && |gs| <= |vs| && offset == TotalLength(vs[..|gs|]) <= |buffer| && Layout(gs, |buffer|)
    && (forall j :: 0 <= j < |gs| ==> gs[j].offset + gs[j].size <= offset)
    && (forall j :: 0 <= j < |gs| ==> InVecOf(gs[j], buffer) == InVec([], Fetch(memory, vs[j].base, vs[j].len)))
  }

  /** Writing behind the laid segments leaves their bytes alone. */
  lemma LaidStays(gs: seq<Segment>, buffer: seq<Byte>, offset: nat, data: seq<Byte>, j: nat)
    requires Layout(gs, |buffer|) && j < |gs| && gs[j].offset + gs[j].size <= offset && offset + |data| <= |buffer|
    ensures InVecOf(gs[j], Splat(buffer, offset, data)) == InVecOf(gs[j], buffer)
  {
    SplatSlice(buffer, offset, data, gs[j].offset, gs[j].offset + gs[j].position);
    SplatSlice(buffer, offset, data, gs[j].offset + gs[j].position, gs[j].offset + gs[j].size);
  }

  lemma NewSegment(buffer: seq<Byte>, offset: nat, data: seq<Byte>)
    requires offset + |data| <= |buffer|
    ensures InVecOf(Segment(offset, |data|, 0, 0), Splat(buffer, offset, data)) == InVec([], data)
  {
    SplatSlice(buffer, offset, data, offset, offset);
  }

  lemma LayoutNext(gs: seq<Segment>, limit: nat, offset: nat, g: Segment)
    requires Layout(gs, limit) && g.offset == offset && g.offset + g.size <= limit && g.position <= g.size
    requires forall j :: 0 <= j < |gs| ==> gs[j].offset + gs[j].size <= offset
    ensures Layout(gs + [g], limit)
    ensures forall j :: 0 <= j < |gs| + 1 ==> (gs + [g])[j].offset + (gs + [g])[j].size <= offset + g.size
  {
  }

  lemma LaidNext(memory: map<nat, Byte>, vs: seq<Vec>, gs: seq<Segment>, buffer: seq<Byte>, offset: nat)
    requires Laid(memory, vs, gs, buffer, offset) && |gs| < |vs| && offset + vs[|gs|].len <= |buffer|
    ensures var v := vs[|gs|];
            Laid(memory, vs, gs + [Segment(offset, v.len, 0, 0)], Splat(buffer, offset, Fetch(memory, v.base, v.len)),
                 offset + v.len)
  {
    hide Layout;
    hide Splat;
    hide InVecOf;
    hide Fetch;
    hide TotalLength;
    var v := vs[|gs|];
    var data := Fetch(memory, v.base, v.len);
    var g := Segment(offset, v.len, 0, 0);
    Vectors.PrefixTotal(vs, |gs|);
    LayoutNext(gs, |buffer|, offset, g);
    NewSegment(buffer, offset, data);
    forall j | 0 <= j < |gs| ensures InVecOf(gs[j], Splat(buffer, offset, data)) == InVecOf(gs[j], buffer) {
      LaidStays(gs, buffer, offset, data, j);
    }
  }

  lemma LaidAll(memory: map<nat, Byte>, vs: seq<Vec>, gs: seq<Segment>, buffer: seq<Byte>, offset: nat)
    requires Laid(memory, vs, gs, buffer, offset) && |gs| == |vs|
    ensures Layout(gs, |buffer|) && InVecs(gs, buffer) == Capture(memory, vs)
  {
  }

  /** Copies the input vectors into the buffer, one after the other. */
  method LayInputs(memory: map<nat, Byte>, vs: seq<Vec>, buffer: seq<Byte>) returns (gs: seq<Segment>, r: seq<Byte>)
    requires TotalLength(vs) <= |buffer|
    ensures |r| == |buffer| && Layout(gs, |buffer|) && InVecs(gs, r) == Capture(memory, vs)
  {
    gs, r := [], buffer;
    var offset: nat, i: nat := 0, 0;
    assert vs[..0] == [];
    assert Laid(memory, vs, gs, r, offset);
    while i < |vs|
      invariant 0 <= i <= |vs| && |gs| == i && |r| == |buffer| && Laid(memory, vs, gs, r, offset)
    {
      LaidRoom(memory, vs, gs, r, offset);
      LaidNext(memory, vs, gs, r, offset);
      hide Laid;
      r := Splat(r, offset, Fetch(memory, vs[i].base, vs[i].len));
      gs := gs + [Segment(offset, vs[i].len, 0, 0)];
      offset := offset + vs[i].len;
      i := i + 1;
    }
    LaidAll(memory, vs, gs, r, offset);
  }

  lemma LaidRoom(memory: map<nat, Byte>, vs: seq<Vec>, gs: seq<Segment>, buffer: seq<Byte>, offset: nat)
    requires Laid(memory, vs, gs, buffer, offset) && |gs| < |vs| && TotalLength(vs) <= |buffer|
    ensures offset + vs[|gs|].len <= |buffer|
  {
    Vectors.PrefixTotal(vs, |gs|);
    Vectors.PrefixBelow(vs, |gs| + 1);
  }

  /** The first |gs| output vectors have their parts, side by side in the first offset bytes. */
  ghost predicate Parted(vs: seq<Vec>, gs: seq<Segment>, limit: nat, offset: nat) {
    && |gs| <= |vs| && offset == TotalLength(vs[..|gs|]) <= limit && Layout(gs, limit)
    && (forall j :: 0 <= j < |gs| ==> gs[j].offset + gs[j].size <= offset)
    && (forall j :: 0 <= j < |gs| ==> gs[j].position == 0 && gs[j].size == vs[j].len && gs[j].client == vs[j].base)
  }

  lemma PartedNext(vs: seq<Vec>, gs: seq<Segment>, limit: nat, offset: nat)
    requires Parted(vs, gs, limit, offset) && |gs| < |vs| && TotalLength(vs) <= limit
    ensures var v := vs[|gs|];
            Parted(vs, gs + [Segment(offset, v.len, 0, v.base)], limit, offset + v.len)
  {
    hide Layout;
    hide TotalLength;
    var v := vs[|gs|];
    var g := Segment(offset, v.len, 0, v.base);
    Vectors.PrefixTotal(vs, |gs|);
    Vectors.PrefixBelow(vs, |gs| + 1);
    LayoutNext(gs, limit, offset, g);
  }

  lemma PartedAll(vs: seq<Vec>, gs: seq<Segment>, buffer: seq<Byte>, offset: nat)
    requires Parted(vs, gs, |buffer|, offset) && |gs| == |vs|
    ensures Layout(gs, |buffer|) && OutVecs(gs, buffer) == Prepare(vs)
  {
    forall j | 0 <= j < |gs| ensures OutVecs(gs, buffer)[j] == Prepare(vs)[j] {
      assert OutVecs(gs, buffer)[j] == OutVecOf(gs[j], buffer);
    }
  }

  /** Gives each output vector its own part of the buffer. */
  method LayOutputs(vs: seq<Vec>, buffer: seq<Byte>) returns (gs: seq<Segment>)
    requires TotalLength(vs) <= |buffer|
    ensures Layout(gs, |buffer|) && OutVecs(gs, buffer) == Prepare(vs)
  {
    gs := [];
    var offset: nat, i: nat := 0, 0;
    assert vs[..0] == [];
    assert Parted(vs, gs, |buffer|, offset);
    while i < |vs|
      invariant 0 <= i <= |vs| && |gs| == i && Parted(vs, gs, |buffer|, offset)
    {
      PartedNext(vs, gs, |buffer|, offset);
      hide Parted;
      gs := gs + [Segment(offset, vs[i].len, 0, vs[i].base)];
      offset := offset + vs[i].len;
      i := i + 1;
    }
    PartedAll(vs, gs, buffer, offset);
  }

  method CheckReads(env: Env, caller: int, vs: seq<Vec>) returns (ok: bool)
    ensures ok <==> forall j :: 0 <= j < |vs| ==> MayRead(env, caller, vs[j])
  {
    var i := 0;
    while i < |vs|
      invariant 0 <= i <= |vs| && forall j :: 0 <= j < i ==> MayRead(env, caller, vs[j])
    {
      if vs[i].len != 0 && Access(caller, vs[i].base, vs[i].len) !in env.readable {
        return false;
      }
      i := i + 1;
    }
    ok := true;
  }

  method CheckWrites(env: Env, caller: int, vs: seq<Vec>) returns (ok: bool)
    ensures ok <==> forall j :: 0 <= j < |vs| ==> MayWrite(env, caller, vs[j].base, vs[j].len)
  {
    var i := 0;
    while i < |vs|
      invariant 0 <= i <= |vs| && forall j :: 0 <= j < i ==> MayWrite(env, caller, vs[j].base, vs[j].len)
    {
      if vs[i].len != 0 && Access(caller, vs[i].base, vs[i].len) !in env.writable {
        return false;
      }
      i := i + 1;
    }
    ok := true;
  }

  /** Judges a call's vectors and, if they pass, captures the input and lays out both buffers. */
  method PrepareVectors(c: Config, env: Env, caller: int, m: Message, ins: VecArg, outs: VecArg)
    returns (ret: int, r: Message)
    requires c.transferLimit > 0 && SlotOk(m, c.transferLimit) && |ins.vecs| + |outs.vecs| <= MAX_IOVEC
    ensures ret == VectorError(c, env, caller, ins, outs)
    ensures r == m.(ins := r.ins, outs := r.outs, input := r.input) && |r.input| == c.transferLimit
    ensures ret == SUCCESS ==>
              && Layout(r.ins, c.transferLimit) && Layout(r.outs, c.transferLimit)
              && InVecs(r.ins, r.input) == Capture(env.memory, ins.vecs) && OutVecs(r.outs, r.output) == Prepare(outs.vecs)
  {
    r := m;
    if (|ins.vecs| != 0 && ins.isNull) || (|outs.vecs| != 0 && outs.isNull) {
      return FFM_ARGUMENT, r;
    }
    var readable := CheckReads(env, caller, ins.vecs);
    if !readable {
      return FFM_POLICY, r;
    }
    var writable := CheckWrites(env, caller, outs.vecs);
    if !writable {
      return FFM_POLICY, r;
    }
    var valid, total := Vectors.ValidateVectors(ins.vecs, outs.vecs, c.transferLimit);
    if valid != Vectors.VALID {
      return FFM_BUFFER, r;
    }
    var gs, input := LayInputs(env.memory, ins.vecs, m.input);
    var hs := LayOutputs(outs.vecs, m.output);
    r := m.(ins := gs, outs := hs, input := input);
    ret := SUCCESS;
  }

  /** Hands out the next bytes of an input segment: its own vector advances and no other one changes. */
  lemma ReadAdvances(gs: seq<Segment>, buffer: seq<Byte>, v: nat, len: nat)
    requires Layout(gs, |buffer|) && v < |gs| && gs[v].position + len <= gs[v].size
    ensures var was := InVecOf(gs[v], buffer);
            var gs' := gs[v := gs[v].(position := gs[v].position + len)];
            && |was.rest| == gs[v].size - gs[v].position
            && Slice(buffer, gs[v].offset + gs[v].position, gs[v].offset + gs[v].position + len) == was.rest[..len]
            && Layout(gs', |buffer|)
            && InVecs(gs', buffer) == InVecs(gs, buffer)[v := InVec(was.seen + was.rest[..len], was.rest[len..])]
  {
    var g := gs[v];
    var at := g.offset + g.position;
    assert buffer[g.offset..at] + buffer[at..at + len] == buffer[g.offset..at + len];
    assert buffer[at..g.offset + g.size][..len] == buffer[at..at + len];
    assert buffer[at..g.offset + g.size][len..] == buffer[at + len..g.offset + g.size];
  }

  /** Appends to an output segment: its own vector grows by the data and no other one changes. */
  lemma WriteAppends(gs: seq<Segment>, buffer: seq<Byte>, v: nat, data: seq<Byte>)
    requires Layout(gs, |buffer|) && v < |gs| && gs[v].position + |data| <= gs[v].size
    ensures var gs' := gs[v := gs[v].(position := gs[v].position + |data|)];
            var buffer' := Splat(buffer, gs[v].offset + gs[v].position, data);
            && Layout(gs', |buffer'|) && |OutVecOf(gs[v], buffer).data| == gs[v].position
            && OutVecs(gs', buffer') ==
                 OutVecs(gs, buffer)[v := OutVecOf(gs[v], buffer).(data := OutVecOf(gs[v], buffer).data + data)]
  {
    var g := gs[v];
    var at := g.offset + g.position;
    var gs' := gs[v := g.(position := g.position + |data|)];
    var buffer' := Splat(buffer, at, data);
    assert buffer'[g.offset..at + |data|] == buffer[g.offset..at] + data;
    forall j | 0 <= j < |gs| && j != v ensures OutVecOf(gs[j], buffer') == OutVecOf(gs[j], buffer) {
      assert j < v ==> gs[j].offset + gs[j].size <= g.offset;
      assert v < j ==> g.offset + g.size <= gs[j].offset;
      SplatSlice(buffer, at, data, gs[j].offset, gs[j].offset + gs[j].position);
    }
  }

  lemma PublishNext(memory: map<nat, Byte>, outs: seq<OutVec>, j: nat)
    requires j < |outs|
    ensures PublishFirst(memory, outs, j + 1) == Store(PublishFirst(memory, outs, j), outs[j].base, outs[j].data)
  {
  }

  lemma PublishNone(memory: map<nat, Byte>, outs: seq<OutVec>)
    ensures PublishFirst(memory, outs, 0) == memory
  {
  }

  lemma SegmentData(gs: seq<Segment>, buffer: seq<Byte>, j: nat)
    requires Layout(gs, |buffer|) && j < |gs|
    ensures gs[j].offset + gs[j].position <= |buffer|
    ensures OutVecs(gs, buffer)[j] ==
              OutVec(gs[j].client, gs[j].size, buffer[gs[j].offset..gs[j].offset + gs[j].position])
  {
  }

  /** The publication of a synchronous call: every output segment goes to its client address and reports its length. */
  method PublishSegments(memory: map<nat, Byte>, gs: seq<Segment>, buffer: seq<Byte>)
    returns (r: map<nat, Byte>, lens: seq<nat>)
    requires Layout(gs, |buffer|)
    ensures r == PublishFirst(memory, OutVecs(gs, buffer), |gs|) && lens == Lengths(OutVecs(gs, buffer))
  {
    hide Store;
    hide PublishFirst;
    hide Layout;
    ghost var outs := OutVecs(gs, buffer);
    r, lens := memory, [];
    var j := 0;
    PublishNone(memory, outs);
    while j < |gs|
      invariant 0 <= j <= |gs| && |lens| == j && r == PublishFirst(memory, outs, j)
      invariant forall v :: 0 <= v < j ==> lens[v] == |outs[v].data|
    {
      SegmentData(gs, buffer, j);
      PublishNext(memory, outs, j);
      r := Store(r, gs[j].client, buffer[gs[j].offset..gs[j].offset + gs[j].position]);
      lens := lens + [gs[j].position];
      j := j + 1;
    }
  }

  lemma StoredNext(outs: seq<OutVec>, room: Option<nat>, j: nat)
    requires j < |outs|
    ensures StoredLengths(outs, room, 0) == []
    ensures StoredLengths(outs, room, j + 1) ==
              StoredLengths(outs, room, j) + if room.Some? && j < room.value then [|outs[j].data|] else []
  {
  }

  /** The publication of a finish: every segment is copied, but a length is stored only where the caller's array has room. */
  method PublishInto(memory: map<nat, Byte>, gs: seq<Segment>, buffer: seq<Byte>, room: Option<nat>)
    returns (r: map<nat, Byte>, lens: seq<nat>)
    requires Layout(gs, |buffer|)
    ensures r == PublishFirst(memory, OutVecs(gs, buffer), |gs|) && lens == StoredLengths(OutVecs(gs, buffer), room, |gs|)
  {
    ghost var outs := OutVecs(gs, buffer);
    assert StoredLengths(outs, room, 0) == [];
    hide Store;
    hide PublishFirst;
    hide StoredLengths;
    hide Layout;
    r, lens := memory, [];
    var j := 0;
    PublishNone(memory, outs);
    while j < |gs|
      invariant 0 <= j <= |gs| && r == PublishFirst(memory, outs, j) && lens == StoredLengths(outs, room, j)
    {
      SegmentData(gs, buffer, j);
      PublishNext(memory, outs, j);
      StoredNext(outs, room, j);
      r := Store(r, gs[j].client, buffer[gs[j].offset..gs[j].offset + gs[j].position]);
      if room.Some? && j < room.value {
        lens := lens + [gs[j].position];
      }
      j := j + 1;
    }
  }

  function ForgetClients(gs: seq<Segment>): (r: seq<Segment>)
    ensures |r| == |gs| && forall j :: 0 <= j < |gs| ==> r[j] == gs[j].(client := 0)
  {
    seq(|gs|, j requires 0 <= j < |gs| => gs[j].(client := 0))
  }

  /** Clearing the client addresses is the abstract forgetting. */
  lemma ForgetSegments(gs: seq<Segment>, buffer: seq<Byte>)
    requires Layout(gs, |buffer|)
    ensures Layout(ForgetClients(gs), |buffer|)
    ensures OutVecs(ForgetClients(gs), buffer) == Forget(OutVecs(gs, buffer))
  {
  }

  function SegmentSizes(gs: seq<Segment>): (r: seq<nat>)
    ensures |r| == MAX_IOVEC
  {
    seq(MAX_IOVEC, j requires 0 <= j < MAX_IOVEC => if j < |gs| then gs[j].size else 0)
  }

  /** The sizes a server is told are those of the client's vectors. */
  lemma SizesMatch(m: Message, limit: nat)
    requires SlotOk(m, limit)
    ensures SizesOf(AbsMsg(m)) == (SegmentSizes(m.ins), SegmentSizes(m.outs))
  {
    forall j | 0 <= j < |m.ins| ensures |InVecOf(m.ins[j], m.input).seen| + |InVecOf(m.ins[j], m.input).rest| == m.ins[j].size {
    }
    assert SizesOf(AbsMsg(m)).0 == SegmentSizes(m.ins);
    assert SizesOf(AbsMsg(m)).1 == SegmentSizes(m.outs);
  }

  lemma Written(m: Message, limit: nat, v: nat)
    requires SlotOk(m, limit) && v < |m.outs|
    ensures AbsMsg(m).outs[v].capacity == m.outs[v].size && |AbsMsg(m).outs[v].data| == m.outs[v].position
  {
    assert AbsMsg(m).outs[v] == OutVecOf(m.outs[v], m.output);
  }
}
