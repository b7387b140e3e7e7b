/**
  The guest-RAM curtain.  Before a guest is dispatched the whole shared RAM extent is
  marked Secure, block by block, and then only the blocks of the guest's own accepted
  writable windows are opened.  A register word is the set of its one bits.
  */
module Curtain {
  import opened Bits
  import opened Domains

  const BLOCK: nat := 512
  const REGISTERS: nat := 16
  const EXTENT_BASE: nat := 0x2000_0000
  const EXTENT_END: nat := 0x2002_0000
  const BLOCKS: nat := 256
  const WORDS: nat := 8
  const WRAP: nat := 0x1_0000_0000

  function AllBits(n: nat): (r: Word)
    ensures forall b :: b in r <==> 0 <= b < n
  {
    if n == 0 then {} else AllBits(n - 1) + {n - 1}
  }

  /** The end of a window as 32-bit arithmetic computes it. */
  function EndOf(m: Memory): nat {
    (m.base + m.size) % WRAP
  }

  /** A writable, non-empty, non-wrapping window inside the extent. */
  predicate Accepted(m: Memory) {
    m.attributes.write && EndOf(m) > m.base && EXTENT_BASE <= m.base && EndOf(m) <= EXTENT_END
  }

  function First(base: nat): nat
    requires base >= EXTENT_BASE
  {
    (base - EXTENT_BASE) / BLOCK
  }

  function Last(base: nat, size: nat): nat
    requires base >= EXTENT_BASE
  {
    (base + size - EXTENT_BASE + BLOCK - 1) / BLOCK
  }

  function BlockStart(b: nat): nat {
    EXTENT_BASE + b * BLOCK
  }

  /** Block b and the window have a byte in common. */
  predicate Meets(b: nat, m: Memory) {
    BlockStart(b) < m.base + m.size && m.base < BlockStart(b) + BLOCK
  }

  /** The blocks a window opens are those it meets. */
  lemma OpenedIsMet(m: Memory, b: nat)
    requires Accepted(m) && m.base < WRAP && m.size < WRAP
    ensures EndOf(m) == m.base + m.size && Last(m.base, m.size) <= BLOCKS
    ensures First(m.base) <= b < Last(m.base, m.size) <==> Meets(b, m)
  {
    assert EndOf(m) == m.base + m.size;
  }

  predicate Sized(m: Memory) {
    m.base < WRAP && m.size < WRAP
  }

  /** Some accepted window meets block b. */
  predicate OpenedBy(ms: seq<Memory>, b: nat) {
    exists w :: 0 <= w < |ms| && Accepted(ms[w]) && Meets(b, ms[w])
  }

  class Fabric {
    const words: array<Word>

    constructor ()
      ensures fresh(words) && words.Length == REGISTERS
    {
      words := new Word[REGISTERS](_ => {});
    }

    ghost predicate Open(b: nat)
      requires words.Length == REGISTERS && b < BLOCKS
      reads words
    {
      b % 32 !in words[b / 32]
    }

    method CloseAll()
      requires words.Length == REGISTERS
      modifies words
      ensures forall b :: 0 <= b < BLOCKS ==> !Open(b)
      ensures forall i :: WORDS <= i < REGISTERS ==> words[i] == old(words[i])
    {
      var nsWords := (EXTENT_END - EXTENT_BASE) / (BLOCK * 32);
      assert nsWords == WORDS;
      var i := 0;
      while i < nsWords && i < 16
        invariant 0 <= i <= nsWords
        invariant forall k :: 0 <= k < i ==> words[k] == AllBits(32)
        invariant forall k :: i <= k < REGISTERS ==> words[k] == old(words[k])
        decreases nsWords - i
      {
        words[i] := AllBits(32);
        i := i + 1;
      }
    }

    method OpenWindow(base: nat, size: nat)
      requires words.Length == REGISTERS && base >= EXTENT_BASE && Last(base, size) <= BLOCKS
      modifies words
      ensures forall b :: 0 <= b < BLOCKS ==> (Open(b) <==> old(Open(b)) || First(base) <= b < Last(base, size))
      ensures forall i :: WORDS <= i < REGISTERS ==> words[i] == old(words[i])
    {
      var first, last := First(base), Last(base, size);
      var block := first;
      while block < last
        invariant first <= block && (block <= last || first > last)
        invariant forall b :: 0 <= b < BLOCKS ==> (Open(b) <==> old(Open(b)) || first <= b < block)
        invariant forall i :: WORDS <= i < REGISTERS ==> words[i] == old(words[i])
      {
        ghost var before := words[..];
        words[block / 32] := words[block / 32] - {block % 32};
        forall b | 0 <= b < BLOCKS ensures Open(b) <==> (b % 32 !in before[b / 32] || b == block) {
          OneBlock(b, block);
        }
        block := block + 1;
      }
    }

    /** After programming, a block of the extent is Non-secure exactly when it meets an accepted writable window. */
    method ApplyWindows(ms: seq<Memory>)
      requires words.Length == REGISTERS && forall w :: 0 <= w < |ms| ==> Sized(ms[w])
      modifies words
      ensures forall b :: 0 <= b < BLOCKS ==> (Open(b) <==> OpenedBy(ms, b))
      ensures forall i :: WORDS <= i < REGISTERS ==> words[i] == old(words[i])
    {
      CloseAll();
      var w := 0;
      while w < |ms|
        invariant 0 <= w <= |ms|
        invariant forall b :: 0 <= b < BLOCKS ==> (Open(b) <==> OpenedBy(ms[..w], b))
        invariant forall i :: WORDS <= i < REGISTERS ==> words[i] == old(words[i])
      {
        forall b | 0 <= b < BLOCKS
          ensures OpenedBy(ms[..w + 1], b) <==> OpenedBy(ms[..w], b) || (Accepted(ms[w]) && Meets(b, ms[w]))
        {
          OpenedByNext(ms, w, b);
        }
        if Accepted(ms[w]) {
          forall b | 0 <= b < BLOCKS
            ensures First(ms[w].base) <= b < Last(ms[w].base, ms[w].size) <==> Meets(b, ms[w])
          {
            OpenedIsMet(ms[w], b);
          }
          OpenedIsMet(ms[w], 0);
          OpenWindow(ms[w].base, ms[w].size);
        }
        w := w + 1;
      }
      assert ms[..w] == ms;
    }
  }

  /** A block is one bit of one register. */
  lemma OneBlock(b: nat, c: nat)
    requires b < BLOCKS && c < BLOCKS
    ensures b / 32 == c / 32 && b % 32 == c % 32 ==> b == c
    ensures b / 32 < WORDS
  {
  }

  lemma OpenedByNext(ms: seq<Memory>, w: nat, b: nat)
    requires w < |ms|
    ensures OpenedBy(ms[..w + 1], b) <==> OpenedBy(ms[..w], b) || (Accepted(ms[w]) && Meets(b, ms[w]))
  {
    if OpenedBy(ms[..w], b) {
      var k :| 0 <= k < w && Accepted(ms[..w][k]) && Meets(b, ms[..w][k]);
      assert ms[..w + 1][k] == ms[k];
    }
    if Accepted(ms[w]) && Meets(b, ms[w]) {
      assert ms[..w + 1][w] == ms[w];
    }
  }

  // ---------------------------------------------------------------- peers

  /** Writable windows own whole blocks. */
  predicate Aligned(m: Memory) {
    m.attributes.write ==> m.base % BLOCK == 0 && (m.base + m.size) % BLOCK == 0
  }

  lemma AlignedDiv(x: nat, b: nat)
    requires x % BLOCK == 0
    ensures x < b * BLOCK + BLOCK ==> x <= b * BLOCK
    ensures b * BLOCK < x ==> b * BLOCK + BLOCK <= x
  {
    assert x == (x / BLOCK) * BLOCK;
  }

  /** An aligned window that meets a block contains all of it. */
  lemma MetIsOwned(m: Memory, b: nat, a: nat)
    requires Accepted(m) && Sized(m) && Aligned(m) && Meets(b, m) && BlockStart(b) <= a < BlockStart(b) + BLOCK
    ensures Maps(m, a)
  {
    OpenedIsMet(m, b);
    var x, y := m.base - EXTENT_BASE, m.base + m.size - EXTENT_BASE;
    assert EXTENT_BASE % BLOCK == 0;
    assert x % BLOCK == 0 && y % BLOCK == 0;
    AlignedDiv(x, b);
    AlignedDiv(y, b);
  }

  /**
    With guest i's windows programmed, a byte of another domain is reachable only
    where both domains declare the identical shared resource.
    */
  lemma PeerBytesStayClosed(ds: seq<Domain>, profile: nat, caps: Capabilities, i: nat, ms: seq<Memory>,
                            j: nat, y: nat, a: nat, b: nat)
    requires SetOk(ds, profile, caps) && i < |ds| && j < |ds| && i != j
    requires forall w :: 0 <= w < |ms| ==> ms[w] in ds[i].memory && Sized(ms[w]) && Aligned(ms[w])
    requires y < |ds[j].memory| && Maps(ds[j].memory[y], a)
    requires BlockStart(b) <= a < BlockStart(b) + BLOCK && OpenedBy(ms, b)
    ensures exists x :: 0 <= x < |ds[i].memory| && ds[i].memory[x] == ds[j].memory[y] && SharedAlike(ds[i].memory[x], ds[j].memory[y])
  {
    var w :| 0 <= w < |ms| && Accepted(ms[w]) && Meets(b, ms[w]);
    MetIsOwned(ms[w], b, a);
    var x :| 0 <= x < |ds[i].memory| && ds[i].memory[x] == ms[w];
    SameByte(ds, profile, caps, i, j, x, y, a);
  }

  /** A guest's stack bytes are never open to another guest. */
  lemma PeerStackStaysClosed(ds: seq<Domain>, profile: nat, caps: Capabilities, i: nat, ms: seq<Memory>,
                             j: nat, a: nat, b: nat)
    requires SetOk(ds, profile, caps) && i < |ds| && j < |ds| && i != j
    requires forall w :: 0 <= w < |ms| ==> ms[w] in ds[i].memory && Sized(ms[w]) && Aligned(ms[w])
    requires ds[j].stackBase <= a < ds[j].stackBase + ds[j].stackSize
    requires BlockStart(b) <= a < BlockStart(b) + BLOCK
    ensures !OpenedBy(ms, b)
  {
    assert DomainOk(ds[j], caps);
    var y :| 0 <= y < |ds[j].memory| && StackIn(ds[j], ds[j].memory[y]);
    if OpenedBy(ms, b) {
      PeerBytesStayClosed(ds, profile, caps, i, ms, j, y, a, b);
    }
  }
}
