/**
  Signal words.  A 32-bit mask is the set of its bit numbers, so that setting,
  clearing and testing a signal are union, difference and intersection.
  */
module Bits {

  type Word = set<nat>

  predicate Asserted(word: Word, signal: Word) {
    word * signal != {}
  }

  function Assign(word: Word, signal: Word, on: bool): Word {
    if on then word + signal else word - signal
  }

  lemma AssignOwn(word: Word, signal: Word, on: bool)
    requires signal != {}
    ensures Asserted(Assign(word, signal, on), signal) <==> on
  {
    assert (word + signal) * signal == signal;
  }

  lemma AssignOther(word: Word, signal: Word, other: Word, on: bool)
    requires signal !! other
    ensures Asserted(Assign(word, signal, on), other) == Asserted(word, other)
  {
    assert (word + signal) * other == word * other;
    assert (word - signal) * other == word * other;
  }
}
