/**
  How the runtime stores its messages: slots with bits, intrusive links and flat
  transfer buffers, and the abstract request each slot stands for.
  */
module RuntimeRep {
  import opened Bits
  import opened IpcModel

  const NONE: nat := 0xFFFF

  /** A vector's part of a transfer buffer, how much of it is used, and (for output) the client's address. */
  datatype Segment = Segment(offset: nat, size: nat, position: nat, client: nat)

  datatype Message = Message(caller: int, status: int, gen: nat, conn: nat, service: nat, next: nat, kind: int,
                             ins: seq<Segment>, outs: seq<Segment>, input: seq<Byte>, output: seq<Byte>,
                             used: bool, active: bool, complete: bool, abandon: Abandon)

  datatype Queue = Queue(head: nat, tail: nat)

  datatype Part = Part(signals: Word, instance: nat)

  function Zeros(n: nat): (r: seq<Byte>)
    ensures |r| == n
  {
    seq(n, _ => 0)
  }

  /** A released slot: cleared but for its generation. */
  function Blank(gen: nat, limit: nat): Message {
    Message(0, 0, gen, 0, 0, NONE, 0, [], [], Zeros(limit), Zeros(limit), false, false, false, Kept)
  }

  // ---------------------------------------------------------------- abstraction

  function Slice(buffer: seq<Byte>, from: int, to: int): seq<Byte> {
    if 0 <= from <= to <= |buffer| then buffer[from..to] else []
  }

  function InVecOf(g: Segment, buffer: seq<Byte>): InVec {
    InVec(Slice(buffer, g.offset, g.offset + g.position), Slice(buffer, g.offset + g.position, g.offset + g.size))
  }

  function OutVecOf(g: Segment, buffer: seq<Byte>): OutVec {
    OutVec(g.client, g.size, Slice(buffer, g.offset, g.offset + g.position))
  }

  function InVecs(gs: seq<Segment>, buffer: seq<Byte>): (r: seq<InVec>)
    ensures |r| == |gs| && forall j :: 0 <= j < |gs| ==> r[j] == InVecOf(gs[j], buffer)
  {
    seq(|gs|, j requires 0 <= j < |gs| => InVecOf(gs[j], buffer))
  }

  function OutVecs(gs: seq<Segment>, buffer: seq<Byte>): (r: seq<OutVec>)
    ensures |r| == |gs| && forall j :: 0 <= j < |gs| ==> r[j] == OutVecOf(gs[j], buffer)
  {
    seq(|gs|, j requires 0 <= j < |gs| => OutVecOf(gs[j], buffer))
  }

  function PhaseOf(m: Message): Phase {
    if !m.used then Unused else if m.complete then Complete else if m.active then Delivered else Queued
  }

  function AbsMsg(m: Message): Msg {
    Msg(PhaseOf(m), m.caller, m.status, m.gen, m.conn, m.service, m.kind,
        InVecs(m.ins, m.input), OutVecs(m.outs, m.output), m.abandon)
  }

  function AbsMsgs(ms: seq<Message>): (r: seq<Msg>)
    ensures |r| == |ms| && forall i :: 0 <= i < |ms| ==> r[i] == AbsMsg(ms[i])
  {
    seq(|ms|, i requires 0 <= i < |ms| => AbsMsg(ms[i]))
  }

  function SignalsOf(ps: seq<Part>): (r: seq<Word>)
    ensures |r| == |ps| && forall i :: 0 <= i < |ps| ==> r[i] == ps[i].signals
  {
    seq(|ps|, i requires 0 <= i < |ps| => ps[i].signals)
  }

  function InstancesOf(ps: seq<Part>): (r: seq<nat>)
    ensures |r| == |ps| && forall i :: 0 <= i < |ps| ==> r[i] == ps[i].instance
  {
    seq(|ps|, i requires 0 <= i < |ps| => ps[i].instance)
  }

  ghost function AbsOf(cs: seq<Conn>, ms: seq<Message>, qs: seq<seq<nat>>, ps: seq<Part>, env: Env,
                       pending: map<int, Pend>): Ipc
  {
    Ipc(cs, AbsMsgs(ms), qs, SignalsOf(ps), InstancesOf(ps), env, pending)
  }

  // ---------------------------------------------------------------- well-formed slots

  /** Segments lie in a buffer of limit bytes, do not overlap, and are used from the front. */
  predicate Layout(gs: seq<Segment>, limit: nat) {
    && (forall j :: 0 <= j < |gs| ==> gs[j].offset + gs[j].size <= limit && gs[j].position <= gs[j].size)
    && (forall j, k :: 0 <= j < k < |gs| ==> gs[j].offset + gs[j].size <= gs[k].offset)
  }

  ghost predicate SlotOk(m: Message, limit: nat) {
    && |m.input| == limit && |m.output| == limit
    && Layout(m.ins, limit) && Layout(m.outs, limit)
    && (m.complete ==> !m.active)
    && (!m.used ==> m == Blank(m.gen, limit))
  }

  lemma BlankIsFree(gen: nat, limit: nat)
    ensures AbsMsg(Blank(gen, limit)) == FreeMsg(gen) && SlotOk(Blank(gen, limit), limit)
  {
  }

  // ---------------------------------------------------------------- linked queues

  /** The links from q's head spell out the abstract queue of service s and end at its tail. */
  ghost predicate Spells(ms: seq<Message>, h: Queue, q: seq<nat>, s: nat) {
    && (forall n :: 0 <= n < |q| ==> q[n] < |ms| && q[n] < NONE && ms[q[n]].service == s && ms[q[n]].used)
    && (forall n, n' :: 0 <= n < n' < |q| ==> q[n] != q[n'])
    && (forall n :: 0 <= n < |q| - 1 ==> ms[q[n]].next == q[n + 1])
    && if q == [] then h == Queue(NONE, NONE)
       else h.head == q[0] && h.tail == q[|q| - 1] && ms[q[|q| - 1]].next == NONE
  }

  /** Every service's links spell its queue; those of partition skip are exempt. */
  ghost predicate AllSpell(c: Config, ms: seq<Message>, hs: seq<Queue>, qs: seq<seq<nat>>, skip: int) {
    && ConfigOk(c) && |hs| == |qs| == |c.services|
    && forall s :: 0 <= s < |c.services| && !ServedBy(c, s, skip) ==> Spells(ms, hs[s], qs[s], s)
  }

  lemma PushSpells(ms: seq<Message>, h: Queue, q: seq<nat>, s: nat, i: nat, ms': seq<Message>)
    requires Spells(ms, h, q, s) && i < |ms| && i < NONE && i !in q
    requires ms[i].service == s && ms[i].used && ms[i].next == NONE
    requires ms' == if q == [] then ms else ms[h.tail := ms[h.tail].(next := i)]
    ensures Spells(ms', Queue(if q == [] then i else h.head, i), q + [i], s)
  {
  }

  lemma PopSpells(ms: seq<Message>, h: Queue, q: seq<nat>, s: nat, m': Message)
    requires Spells(ms, h, q, s) && q != []
    ensures ms[q[0]].next == if |q| == 1 then NONE else q[1]
    ensures Spells(ms[q[0] := m'], if |q| == 1 then Queue(NONE, NONE) else h.(head := q[1]), q[1..], s)
  {
    var ms' := ms[q[0] := m'];
    forall n | 0 <= n < |q[1..]| ensures ms'[q[1..][n]] == ms[q[n + 1]] {
    }
  }

  /** The queue with its n-th entry left out. */
  function Cut(q: seq<nat>, n: nat): seq<nat>
    requires n < |q|
  {
    q[..n] + q[n + 1..]
  }

  lemma {:induction false} WithoutIsCut(q: seq<nat>, n: nat)
    requires n < |q| && forall k :: 0 <= k < n ==> q[k] != q[n]
    ensures Without(q, q[n]) == Cut(q, n)
  {
    if n > 0 {
      WithoutIsCut(q[1..], n - 1);
      assert [q[0]] + Cut(q[1..], n - 1) == Cut(q, n);
    } else {
      assert Cut(q, 0) == q[1..];
    }
  }

  lemma {:induction false} WithoutAbsent(q: seq<nat>, x: nat)
    requires x !in q
    ensures Without(q, x) == q
  {
    if q != [] {
      WithoutAbsent(q[1..], x);
    }
  }

  function CutHead(h: Queue, q: seq<nat>, n: nat): Queue
    requires n < |q|
  {
    Queue(if n == 0 then (if |q| == 1 then NONE else q[1]) else h.head,
          if n == |q| - 1 then (if n == 0 then NONE else q[n - 1]) else h.tail)
  }

  /** Splicing out entry n: its predecessor takes over its link and it is left unlinked. */
  lemma CutSpells(ms: seq<Message>, h: Queue, q: seq<nat>, s: nat, n: nat, ms1: seq<Message>, ms2: seq<Message>)
    requires Spells(ms, h, q, s) && n < |q|
    requires ms1 == if n == 0 then ms else ms[q[n - 1] := ms[q[n - 1]].(next := ms[q[n]].next)]
    requires ms2 == ms1[q[n] := ms1[q[n]].(next := NONE)]
    ensures Spells(ms2, CutHead(h, q, n), Cut(q, n), s)
    ensures Relinked(ms, ms2, s)
  {
    hide CutHead;
    CutEntries(q, n);
    CutMembers(ms, h, q, s, n, ms1, ms2);
    CutLinks(ms, h, q, s, n, ms1, ms2);
    CutEnds(ms, h, q, s, n, ms1, ms2);
    CutRelinks(ms, h, q, s, n, ms1, ms2);
    hide Cut;
  }

  lemma CutEntries(q: seq<nat>, n: nat)
    requires n < |q| && forall k, k' :: 0 <= k < k' < |q| ==> q[k] != q[k']
    ensures |Cut(q, n)| == |q| - 1
    ensures forall k :: 0 <= k < |q| - 1 ==> Cut(q, n)[k] == q[if k < n then k else k + 1]
    ensures forall k :: 0 <= k < |q| - 1 ==> Cut(q, n)[k] != q[n]
    ensures forall k, k' :: 0 <= k < k' < |q| - 1 ==> Cut(q, n)[k] != Cut(q, n)[k']
  {
  }

  /** What the splice left in ms2: entry n is unlinked and its predecessor points past it. */
  ghost predicate Spliced(ms: seq<Message>, q: seq<nat>, n: nat, ms2: seq<Message>) {
    && |ms2| == |ms| && n < |q| && (forall k :: 0 <= k < |q| ==> q[k] < |ms|)
    && forall i :: 0 <= i < |ms| ==>
         ms2[i] == if i == q[n] then ms[i].(next := NONE)
                   else if n > 0 && i == q[n - 1] then ms[i].(next := ms[q[n]].next) else ms[i]
  }

  lemma SplicedIs(ms: seq<Message>, h: Queue, q: seq<nat>, s: nat, n: nat, ms1: seq<Message>, ms2: seq<Message>)
    requires Spells(ms, h, q, s) && n < |q|
    requires ms1 == if n == 0 then ms else ms[q[n - 1] := ms[q[n - 1]].(next := ms[q[n]].next)]
    requires ms2 == ms1[q[n] := ms1[q[n]].(next := NONE)]
    ensures Spliced(ms, q, n, ms2)
  {
  }

  lemma CutMembers(ms: seq<Message>, h: Queue, q: seq<nat>, s: nat, n: nat, ms1: seq<Message>, ms2: seq<Message>)
    requires Spells(ms, h, q, s) && n < |q|
    requires ms1 == if n == 0 then ms else ms[q[n - 1] := ms[q[n - 1]].(next := ms[q[n]].next)]
    requires ms2 == ms1[q[n] := ms1[q[n]].(next := NONE)]
    ensures |Cut(q, n)| == |q| - 1
    ensures forall k :: 0 <= k < |q| - 1 ==>
              var e := Cut(q, n)[k];
              e < |ms2| && e < NONE && ms2[e].service == s && ms2[e].used
  {
    SplicedIs(ms, h, q, s, n, ms1, ms2);
    CutEntries(q, n);
    hide Cut;
  }

  lemma CutLinks(ms: seq<Message>, h: Queue, q: seq<nat>, s: nat, n: nat, ms1: seq<Message>, ms2: seq<Message>)
    requires Spells(ms, h, q, s) && n < |q|
    requires ms1 == if n == 0 then ms else ms[q[n - 1] := ms[q[n - 1]].(next := ms[q[n]].next)]
    requires ms2 == ms1[q[n] := ms1[q[n]].(next := NONE)]
    ensures |Cut(q, n)| == |q| - 1
    ensures forall k :: 0 <= k < |q| - 2 ==> Cut(q, n)[k] < |ms2| && ms2[Cut(q, n)[k]].next == Cut(q, n)[k + 1]
  {
    SplicedIs(ms, h, q, s, n, ms1, ms2);
    CutEntries(q, n);
    hide Cut;
    forall k | 0 <= k < |q| - 2 ensures Cut(q, n)[k] < |ms2| && ms2[Cut(q, n)[k]].next == Cut(q, n)[k + 1] {
      var j := if k < n then k else k + 1;
      assert ms[q[j]].next == q[j + 1];
      assert k == n - 1 ==> ms[q[n]].next == q[n + 1];
    }
  }

  lemma CutEnds(ms: seq<Message>, h: Queue, q: seq<nat>, s: nat, n: nat, ms1: seq<Message>, ms2: seq<Message>)
    requires Spells(ms, h, q, s) && n < |q|
    requires ms1 == if n == 0 then ms else ms[q[n - 1] := ms[q[n - 1]].(next := ms[q[n]].next)]
    requires ms2 == ms1[q[n] := ms1[q[n]].(next := NONE)]
    ensures |Cut(q, n)| == |q| - 1
    ensures var r := Cut(q, n);
            if r == [] then CutHead(h, q, n) == Queue(NONE, NONE)
            else
              && CutHead(h, q, n) == Queue(r[0], r[|r| - 1])
              && r[|r| - 1] < |ms2| && ms2[r[|r| - 1]].next == NONE
  {
    SplicedIs(ms, h, q, s, n, ms1, ms2);
    CutEntries(q, n);
    hide Cut;
  }

  lemma CutRelinks(ms: seq<Message>, h: Queue, q: seq<nat>, s: nat, n: nat, ms1: seq<Message>, ms2: seq<Message>)
    requires Spells(ms, h, q, s) && n < |q|
    requires ms1 == if n == 0 then ms else ms[q[n - 1] := ms[q[n - 1]].(next := ms[q[n]].next)]
    requires ms2 == ms1[q[n] := ms1[q[n]].(next := NONE)]
    ensures Relinked(ms, ms2, s)
  {
    SplicedIs(ms, h, q, s, n, ms1, ms2);
  }

  /** A change elsewhere leaves a queue spelled. */
  lemma ElsewhereSpells(ms: seq<Message>, ms': seq<Message>, h: Queue, q: seq<nat>, s: nat)
    requires Spells(ms, h, q, s) && |ms'| == |ms|
    requires forall n :: 0 <= n < |q| ==> ms'[q[n]].next == ms[q[n]].next && ms'[q[n]].service == s && ms'[q[n]].used
    ensures Spells(ms', h, q, s)
  {
  }

  /** Only links of messages of service s changed. */
  ghost predicate Relinked(ms: seq<Message>, ms': seq<Message>, s: nat) {
    && |ms'| == |ms|
    && (forall i :: 0 <= i < |ms| ==> ms'[i] == ms[i].(next := ms'[i].next))
    && (forall i :: 0 <= i < |ms| ==> ms'[i] == ms[i] || (ms[i].service == s && ms[i].used))
  }

  /** Links are not part of what a slot stands for. */
  lemma RelinkedKeeps(ms: seq<Message>, ms': seq<Message>, s: nat, limit: nat)
    requires Relinked(ms, ms', s) && forall i :: 0 <= i < |ms| ==> SlotOk(ms[i], limit)
    ensures AbsMsgs(ms') == AbsMsgs(ms)
    ensures forall i :: 0 <= i < |ms'| ==> SlotOk(ms'[i], limit)
  {
  }

  /** One queue was relinked; every other one is as it was. */
  lemma OthersSpell(c: Config, ms: seq<Message>, hs: seq<Queue>, qs: seq<seq<nat>>, s: nat,
                    ms': seq<Message>, h: Queue, q: seq<nat>, skip: int)
    requires AllSpell(c, ms, hs, qs, skip) && s < |c.services| && !ServedBy(c, s, skip)
    requires Relinked(ms, ms', s) && Spells(ms', h, q, s)
    ensures AllSpell(c, ms', hs[s := h], qs[s := q], skip)
  {
    forall t | 0 <= t < |c.services| && t != s && !ServedBy(c, t, skip) ensures Spells(ms', hs[t], qs[t], t) {
      ElsewhereSpells(ms, ms', hs[t], qs[t], t);
    }
  }

  lemma HeadTellsEmpty(ms: seq<Message>, h: Queue, q: seq<nat>, s: nat)
    requires Spells(ms, h, q, s)
    ensures h.head == NONE <==> q == []
    ensures q != [] ==> h.head == q[0] && q[0] < |ms| && ms[q[0]].service == s && ms[q[0]].used
  {
  }

  lemma SpelledNext(ms: seq<Message>, h: Queue, q: seq<nat>, s: nat, n: nat)
    requires Spells(ms, h, q, s) && n < |q|
    ensures q[n] < |ms| && q[n] < NONE && ms[q[n]].next == if n + 1 < |q| then q[n + 1] else NONE
    ensures forall k :: 0 <= k < n ==> q[k] != q[n]
  {
  }

  lemma CutFacts(ms: seq<Message>, h: Queue, q: seq<nat>, s: nat, n: nat)
    requires Spells(ms, h, q, s) && n < |q|
    ensures q[n] < |ms| && q[n] < NONE && (n > 0 ==> q[n - 1] < |ms| && q[n - 1] < NONE)
    ensures ms[q[n]].next == if n + 1 < |q| then q[n + 1] else NONE
    ensures h.tail == q[n] <==> n == |q| - 1
  {
  }

  lemma NothingRelinked(ms: seq<Message>, s: nat)
    ensures Relinked(ms, ms, s)
  {
  }

  lemma {:induction false} WithoutLeaves(q: seq<nat>, x: nat)
    requires forall n, n' :: 0 <= n < n' < |q| ==> q[n] != q[n']
    ensures x !in Without(q, x)
    ensures forall y :: y in Without(q, x) ==> y in q
  {
    if q != [] && q[0] != x {
      WithoutLeaves(q[1..], x);
    }
  }

  lemma PopHead(ms: seq<Message>, h: Queue, q: seq<nat>, s: nat)
    requires Spells(ms, h, q, s) && q != []
    ensures q[0] < |ms| && ms[q[0]].next == (if |q| == 1 then NONE else q[1]) && (|q| > 1 ==> q[1] < NONE)
  {
  }

  /** The head of queue s left it; every other queue is as it was. */
  lemma PoppedSpells(c: Config, ms: seq<Message>, hs: seq<Queue>, qs: seq<seq<nat>>, s: nat, ms': seq<Message>,
                     h: Queue, i: nat)
    requires AllSpell(c, ms, hs, qs, 0) && s < |c.services| && i < |ms| && ms[i].service == s
    requires |ms'| == |ms| && forall j :: 0 <= j < |ms| && j != i ==> ms'[j] == ms[j]
    requires qs[s] != [] && Spells(ms', h, qs[s][1..], s)
    ensures AllSpell(c, ms', hs[s := h], qs[s := qs[s][1..]], 0)
  {
    forall t | 0 <= t < |c.services| && t != s && !ServedBy(c, t, 0) ensures Spells(ms', hs[t], qs[t], t) {
      ElsewhereSpells(ms, ms', hs[t], qs[t], t);
    }
  }

  lemma SpellLess(c: Config, ms: seq<Message>, hs: seq<Queue>, qs: seq<seq<nat>>, skip: int)
    requires AllSpell(c, ms, hs, qs, 0)
    ensures AllSpell(c, ms, hs, qs, skip)
  {
    forall s | 0 <= s < |c.services| ensures Spells(ms, hs[s], qs[s], s) {
      assert !ServedBy(c, s, 0);
    }
  }
}
