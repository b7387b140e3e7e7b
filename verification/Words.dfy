/**
  Machine words as numbers, with the bitwise operators defined bit by bit.  The sets of
  bit numbers that stand for signal words, and the sums that stand for handles, are
  exactly what the operators compute.
  */
module Words {
  import opened Bits
  import opened Handles

  predicate Bit(w: nat, k: nat) {
    if k == 0 then w % 2 == 1 else Bit(w / 2, k - 1)
  }

  function Or(a: nat, b: nat): nat
    decreases a + b
  {
    if a == 0 && b == 0 then 0 else 2 * Or(a / 2, b / 2) + if a % 2 == 1 || b % 2 == 1 then 1 else 0
  }

  function And(a: nat, b: nat): nat {
    if a == 0 then 0 else 2 * And(a / 2, b / 2) + if a % 2 == 1 && b % 2 == 1 then 1 else 0
  }

  /** a with the bits of b cleared. */
  function Clear(a: nat, b: nat): nat {
    if a == 0 then 0 else 2 * Clear(a / 2, b / 2) + if a % 2 == 1 && b % 2 == 0 then 1 else 0
  }

  function Pow2(n: nat): (r: nat)
    ensures r > 0
  {
    if n == 0 then 1 else 2 * Pow2(n - 1)
  }

  lemma {:induction false} ZeroHasNoBit(k: nat)
    ensures !Bit(0, k)
  {
    if k > 0 {
      ZeroHasNoBit(k - 1);
    }
  }

  /** What each operator does to the halves and the lowest bits. */
  lemma Halves(a: nat, b: nat)
    ensures Or(a, b) / 2 == Or(a / 2, b / 2) && (Or(a, b) % 2 == 1 <==> a % 2 == 1 || b % 2 == 1)
    ensures And(a, b) / 2 == And(a / 2, b / 2) && (And(a, b) % 2 == 1 <==> a % 2 == 1 && b % 2 == 1)
    ensures Clear(a, b) / 2 == Clear(a / 2, b / 2) && (Clear(a, b) % 2 == 1 <==> a % 2 == 1 && b % 2 == 0)
  {
  }

  /** Each operator acts on each bit by itself. */
  lemma {:induction false} OperatorsByBit(a: nat, b: nat, k: nat)
    ensures Bit(Or(a, b), k) <==> Bit(a, k) || Bit(b, k)
    ensures Bit(And(a, b), k) <==> Bit(a, k) && Bit(b, k)
    ensures Bit(Clear(a, b), k) <==> Bit(a, k) && !Bit(b, k)
    decreases k
  {
    hide Or;
    hide And;
    hide Clear;
    Halves(a, b);
    if k > 0 {
      OperatorsByBit(a / 2, b / 2, k - 1);
    }
  }

  // ---------------------------------------------------------------- signal words

  /** The bit numbers of w. */
  function BitsOf(w: nat): (r: Word)
    ensures forall k: nat :: k in r <==> Bit(w, k)
  {
    if w == 0 then
      assert forall k: nat :: !Bit(0, k) by { forall k: nat { ZeroHasNoBit(k); } }
      {}
    else
      var low := BitsOf(w / 2);
      var rest := set k | k in low :: k + 1;
      assert forall k: nat :: k in rest <==> k > 0 && Bit(w / 2, k - 1) by { ShiftedBits(w / 2, low, rest); }
      if w % 2 == 1 then rest + {0} else rest
  }

  lemma ShiftedBits(v: nat, low: Word, rest: Word)
    requires (forall k: nat :: k in low <==> Bit(v, k)) && rest == set k | k in low :: k + 1
    ensures forall k: nat :: k in rest <==> k > 0 && Bit(v, k - 1)
  {
    forall k: nat ensures k in rest <==> k > 0 && Bit(v, k - 1) {
      if k > 0 && Bit(v, k - 1) {
        assert k - 1 in low;
      }
    }
  }

  /** Different numbers have different bits. */
  lemma {:induction false} SameBitsSameWord(a: nat, b: nat)
    requires forall k: nat :: Bit(a, k) == Bit(b, k)
    ensures a == b
    decreases a + b
  {
    assert Bit(a, 0) == Bit(b, 0);
    if a != 0 || b != 0 {
      forall k: nat ensures Bit(a / 2, k) == Bit(b / 2, k) {
        assert Bit(a, k + 1) == Bit(b, k + 1);
      }
      SameBitsSameWord(a / 2, b / 2);
    }
  }

  /** Setting and clearing a signal in the word is setting and clearing it in the set. */
  lemma SignalUpdate(word: nat, signal: nat, on: bool)
    ensures BitsOf(if on then Or(word, signal) else Clear(word, signal)) == Assign(BitsOf(word), BitsOf(signal), on)
  {
    var r := if on then Or(word, signal) else Clear(word, signal);
    forall k: nat ensures k in BitsOf(r) <==> k in Assign(BitsOf(word), BitsOf(signal), on) {
      OperatorsByBit(word, signal, k);
    }
  }

  /** Masking a word with a signal is non-zero exactly if the sets meet. */
  lemma SignalTest(word: nat, signal: nat)
    ensures And(word, signal) != 0 <==> Asserted(BitsOf(word), BitsOf(signal))
  {
    var m := And(word, signal);
    forall k: nat ensures Bit(m, k) <==> k in BitsOf(word) * BitsOf(signal) {
      OperatorsByBit(word, signal, k);
    }
    if m != 0 && !Asserted(BitsOf(word), BitsOf(signal)) {
      forall k: nat ensures Bit(m, k) == Bit(0, k) {
        ZeroHasNoBit(k);
      }
      SameBitsSameWord(m, 0);
    }
    if Asserted(BitsOf(word), BitsOf(signal)) {
      var k :| k in BitsOf(word) * BitsOf(signal);
      ZeroHasNoBit(k);
    }
  }

  lemma {:induction false} AndSelf(w: nat)
    ensures And(w, w) == w
  {
    if w > 0 {
      AndSelf(w / 2);
    }
  }

  lemma AndZero(w: nat)
    ensures And(w, 0) == 0
  {
  }

  ghost predicate Power(w: nat) {
    exists n: nat :: Pow2(n) == w
  }

  lemma HalfPower(w: nat)
    requires w != 0 && w % 2 == 0
    ensures Power(w) <==> Power(w / 2)
  {
    if Power(w) {
      var n: nat :| Pow2(n) == w;
      assert Pow2(n - 1) == w / 2;
    }
    if Power(w / 2) {
      var n: nat :| Pow2(n) == w / 2;
      assert Pow2(n + 1) == w;
    }
  }

  /** Clearing the lowest bit leaves nothing exactly for a power of two. */
  lemma {:induction false} LowestCleared(w: nat)
    requires w != 0
    ensures And(w, w - 1) == 0 <==> Power(w)
  {
    if w % 2 == 1 {
      AndSelf(w / 2);
      assert (w - 1) / 2 == w / 2 && (w - 1) % 2 == 0;
      if w == 1 {
        assert Pow2(0) == w;
      } else {
        forall n: nat ensures Pow2(n) != w {
          assert n > 0 ==> Pow2(n) % 2 == 0;
        }
      }
    } else {
      LowestCleared(w / 2);
      assert (w - 1) / 2 == w / 2 - 1 && (w - 1) % 2 == 1;
      assert And(w, w - 1) == 2 * And(w / 2, w / 2 - 1);
      HalfPower(w);
    }
  }

  lemma {:induction false} Pow2Bits(n: nat, k: nat)
    ensures Bit(Pow2(n), k) <==> k == n
    decreases n
  {
    if k > 0 {
      if n == 0 {
        ZeroHasNoBit(k - 1);
      } else {
        Pow2Bits(n - 1, k - 1);
        assert Pow2(n) / 2 == Pow2(n - 1);
      }
    }
  }

  /** The source's one-bit test on the word is cardinality one on the set. */
  lemma SingleBit(w: nat)
    ensures w != 0 && And(w, w - 1) == 0 <==> |BitsOf(w)| == 1
  {
    if w != 0 {
      LowestCleared(w);
    }
    if Power(w) {
      var n: nat :| Pow2(n) == w;
      forall k: nat ensures k in BitsOf(w) <==> k in {n} {
        Pow2Bits(n, k);
      }
      assert BitsOf(w) == {n};
    }
    if |BitsOf(w)| == 1 {
      var n :| n in BitsOf(w);
      assert BitsOf(w) - {n} == {} by { assert |BitsOf(w) - {n}| == 0; }
      forall k: nat ensures Bit(w, k) == Bit(Pow2(n), k) {
        Pow2Bits(n, k);
        assert k in BitsOf(w) <==> k == n;
      }
      SameBitsSameWord(w, Pow2(n));
    }
  }

  // ---------------------------------------------------------------- handles

  lemma HalfMod(w: nat, m: nat)
    requires m > 0
    ensures w % (2 * m) == 2 * ((w / 2) % m) + w % 2
  {
    var q, r := (w / 2) / m, (w / 2) % m;
    assert w / 2 == q * m + r;
    assert w == q * (2 * m) + (2 * r + w % 2);
    assert 2 * r + w % 2 < 2 * m;
    ModIs(w, q, 2 * m, 2 * r + w % 2);
  }

  lemma ModIs(w: nat, q: nat, m: nat, r: nat)
    requires w == q * m + r && r < m
    ensures w % m == r
  {
    var d := w / m - q;
    assert w == (w / m) * m + w % m;
    assert d * m == r - w % m;
  }

  /** Masking with n low ones keeps the remainder modulo 2^n. */
  lemma {:induction false} MaskIsMod(w: nat, n: nat)
    ensures And(w, Pow2(n) - 1) == w % Pow2(n)
    decreases n
  {
    if n == 0 {
      AndZero(w);
    } else {
      var m := Pow2(n - 1);
      MaskIsMod(w / 2, n - 1);
      HalfMod(w, m);
      Halves(w, 2 * m - 1);
      assert Pow2(n) == 2 * m && (2 * m - 1) / 2 == m - 1;
      hide And;
      hide Pow2;
    }
  }

  lemma {:induction false} OrZero(a: nat)
    ensures Or(a, 0) == a
  {
    if a > 0 {
      OrZero(a / 2);
    }
  }

  /** A field above bit n and one below it combine to their sum. */
  lemma {:induction false} OrIsSum(a: nat, b: nat, n: nat)
    requires b < Pow2(n)
    ensures Or(a * Pow2(n), b) == a * Pow2(n) + b
    decreases n
  {
    if n == 0 {
      OrZero(a);
    } else {
      var h := a * Pow2(n - 1);
      assert a * Pow2(n) == 2 * h;
      OrIsSum(a, b / 2, n - 1);
      assert Or(2 * h, b) == if 2 * h == 0 && b == 0 then 0 else 2 * Or(h, b / 2) + b % 2;
    }
  }

  lemma Powers()
    ensures Pow2(2) == 4 && Pow2(5) == 32 && Pow2(7) == 128 && Pow2(24) == GEN_LIMIT
  {
    assert Pow2(2) == 4;
    assert Pow2(4) == 16;
    assert Pow2(6) == 64;
    assert Pow2(8) == 256 && Pow2(10) == 1024 && Pow2(12) == 4096;
    assert Pow2(14) == 0x4000 && Pow2(16) == 0x1_0000 && Pow2(18) == 0x4_0000;
    assert Pow2(20) == 0x10_0000 && Pow2(22) == 0x40_0000;
  }

  /** A handle as it is packed: masked fields, shifted into place and combined. */
  function Packed(kind: nat, index: nat, gen: nat): nat {
    Or(Or(And(gen, 0xFF_FFFF) * 128, And(kind, 3) * 32), index + 1)
  }

  /** The packed word is the handle, for every type and generation, and it is a positive 32-bit integer. */
  lemma PackedIsMade(kind: nat, index: nat, gen: nat)
    requires index < MAX_SLOTS
    ensures Packed(kind, index, gen) == Make(kind, index, gen)
    ensures 0 < Packed(kind, index, gen) < 0x8000_0000
  {
    Powers();
    MaskIsMod(gen, 24);
    MaskIsMod(kind, 2);
    var g, k := gen % GEN_LIMIT, kind % 4;
    OrIsSum(g, k * 32, 7);
    assert g * 128 + k * 32 == (4 * g + k) * 32;
    OrIsSum(4 * g + k, index + 1, 5);
  }

  /** The shifts and masks of the decoder are the divisions and remainders of Decode. */
  lemma FieldsAreDecoded(v: nat)
    ensures And(v, 0x1F) == v % 32 && And(v / 32, 3) == (v / 32) % 4
  {
    Powers();
    MaskIsMod(v, 5);
    MaskIsMod(v / 32, 2);
  }

  /** Advancing a generation by masking is the remainder of NextGeneration. */
  lemma MaskedGeneration(g: nat)
    ensures And(g + 1, 0xFF_FFFF) == (g + 1) % GEN_LIMIT
  {
    Powers();
    MaskIsMod(g + 1, 24);
  }
}
