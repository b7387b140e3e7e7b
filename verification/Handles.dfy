/**
  Generation-tagged handles: a positive 32-bit word that packs a slot index, the
  handle type and the slot's generation, so that releasing a slot makes every
  handle issued for it stale.
  */
module Handles {

  datatype Option<+T> = None | Some(value: T)

  const GEN_LIMIT: nat := 0x100_0000
  const MAX_SLOTS: nat := 31
  const CONNECTION: nat := 1
  const MESSAGE: nat := 2

  predicate Generation(g: nat) {
    1 <= g < GEN_LIMIT
  }

  function NextGeneration(g: nat): nat {
    var n := (g + 1) % GEN_LIMIT;
    if n == 0 then 1 else n
  }

  /** The three fields never overlap while index is a slot number, so the word is their sum. */
  function Make(kind: nat, index: nat, gen: nat): int
    requires index < MAX_SLOTS
  {
    (gen % GEN_LIMIT) * 128 + (kind % 4) * 32 + index + 1
  }

  datatype Slot = Slot(index: nat, gen: nat)

  function Decode(handle: int, kind: nat, limit: nat): Option<Slot> {
    if handle <= 0 then None
    else
      var field := handle % 32;
      var gen := handle / 128;
      if (handle / 32) % 4 != kind || field == 0 || field > limit || gen == 0 then None
      else Some(Slot(field - 1, gen))
  }

  /** Decoding is the exact inverse of making, and a made handle is a positive int32. */
  lemma RoundTrip(kind: nat, index: nat, gen: nat, limit: nat)
    requires kind < 4 && index < limit <= MAX_SLOTS && Generation(gen)
    ensures 0 < Make(kind, index, gen) < 0x8000_0000
    ensures Decode(Make(kind, index, gen), kind, limit) == Some(Slot(index, gen))
    ensures forall k: nat :: k != kind ==> Decode(Make(kind, index, gen), k, limit) == None
  {
    var h := Make(kind, index, gen);
    assert h == gen * 128 + (kind * 32 + index + 1);
    assert h / 128 == gen;
    assert h == (gen * 4 + kind) * 32 + (index + 1);
    assert h / 32 == gen * 4 + kind;
  }

  /** A handle that decodes at all is the one handle made for that slot and generation. */
  lemma DecodeExact(handle: int, kind: nat, limit: nat)
    requires kind < 4 && limit <= MAX_SLOTS && handle < 0x8000_0000
    requires Decode(handle, kind, limit).Some?
    ensures var s := Decode(handle, kind, limit).value;
            && s.index < limit && Generation(s.gen)
            && handle == Make(kind, s.index, s.gen)
  {
    var s := Decode(handle, kind, limit).value;
    assert handle / 128 == (handle / 32) / 4;
  }

  /** Distinct type, slot or generation gives a distinct handle. */
  lemma Injective(k1: nat, i1: nat, g1: nat, k2: nat, i2: nat, g2: nat)
    requires k1 < 4 && k2 < 4 && i1 < MAX_SLOTS && i2 < MAX_SLOTS
    requires Generation(g1) && Generation(g2)
    requires Make(k1, i1, g1) == Make(k2, i2, g2)
    ensures k1 == k2 && i1 == i2 && g1 == g2
  {
    RoundTrip(k1, i1, g1, MAX_SLOTS);
    RoundTrip(k2, i2, g2, MAX_SLOTS);
  }

  /** The generation after k releases. */
  function After(g: nat, k: nat): nat {
    if k == 0 then g else NextGeneration(After(g, k - 1))
  }

  /** Releases walk the generations 1 .. 2^24 - 1 as a cycle. */
  lemma {:induction false} AfterClosedForm(g: nat, k: nat)
    requires Generation(g)
    ensures After(g, k) == 1 + (g - 1 + k) % (GEN_LIMIT - 1)
    ensures Generation(After(g, k))
  {
    if k > 0 {
      AfterClosedForm(g, k - 1);
      CycleStep(g - 1 + (k - 1));
    }
  }

  lemma CycleStep(x: nat)
    ensures NextGeneration(1 + x % (GEN_LIMIT - 1)) == 1 + (x + 1) % (GEN_LIMIT - 1)
  {
    var m := GEN_LIMIT - 1;
    var q, r := x / m, x % m;
    assert x == q * m + r;
    if r == m - 1 {
      assert x + 1 == (q + 1) * m + 0;
      assert (x + 1) % m == 0;
    } else {
      assert x + 1 == q * m + (r + 1);
      assert (x + 1) % m == r + 1;
    }
  }

  /** The cycle length is exactly 2^24 - 1: no shorter count of releases revives a generation. */
  lemma GenerationCycle(g: nat, k: nat)
    requires Generation(g)
    ensures After(g, k) == g <==> k % (GEN_LIMIT - 1) == 0
  {
    AfterClosedForm(g, k);
    var m := GEN_LIMIT - 1;
    var q, r := k / m, k % m;
    assert k == q * m + r;
    var x := g - 1;
    if x + r < m {
      assert x + k == q * m + (x + r);
      assert (x + k) % m == x + r;
    } else {
      assert x + k == (q + 1) * m + (x + r - m);
      assert (x + k) % m == x + r - m;
    }
  }
}
