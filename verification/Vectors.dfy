/**
  Validation of a call's vectors: every range is addressable and the sum of all
  lengths is bounded, so one message's transfer buffers can hold them.
  */
module Vectors {
  import opened IpcModel

  const VALID: int := 0
  const ERROR_COUNT: int := -305
  const ERROR_ADDRESS: int := -306
  const ERROR_OVERFLOW: int := -307
  const ERROR_LIMIT: int := -308

  predicate AllOk(vs: seq<Vec>, n: nat)
    requires n <= |vs|
  {
    forall j :: 0 <= j < n ==> VecOk(vs[j])
  }

  lemma {:induction false} PrefixTotal(vs: seq<Vec>, n: nat)
    requires n < |vs|
    ensures TotalLength(vs[..n + 1]) == TotalLength(vs[..n]) + vs[n].len
  {
    assert vs[..n + 1][..n] == vs[..n];
  }

  lemma {:induction false} PrefixBelow(vs: seq<Vec>, n: nat)
    requires n <= |vs|
    ensures TotalLength(vs[..n]) <= TotalLength(vs)
    decreases |vs| - n
  {
    if n < |vs| {
      PrefixTotal(vs, n);
      PrefixBelow(vs, n + 1);
    } else {
      assert vs[..n] == vs;
    }
  }

  /** Adds the lengths of vs to start, refusing the first vector that is not addressable or overflows the sum. */
  method ValidateList(vs: seq<Vec>, start: nat) returns (ret: int, total: nat)
    requires start <= ADDRESS_MAX
    ensures ret == VALID <==> AllOk(vs, |vs|) && start + TotalLength(vs) <= ADDRESS_MAX
    ensures ret in {VALID, ERROR_ADDRESS, ERROR_OVERFLOW}
    ensures ret == VALID ==> total == start + TotalLength(vs)
    ensures ret == ERROR_ADDRESS ==> exists j :: 0 <= j < |vs| && vs[j].len != 0 && vs[j].base == 0
  {
    total := start;
    var i := 0;
    while i < |vs|
      invariant 0 <= i <= |vs| && AllOk(vs, i)
      invariant total == start + TotalLength(vs[..i]) <= ADDRESS_MAX
    {
      PrefixTotal(vs, i);
      PrefixBelow(vs, i + 1);
      if vs[i].len != 0 && vs[i].base == 0 {
        return ERROR_ADDRESS, total;
      }
      if vs[i].len > ADDRESS_MAX - vs[i].base {
        return ERROR_OVERFLOW, total;
      }
      if vs[i].len > ADDRESS_MAX - total {
        return ERROR_OVERFLOW, total;
      }
      total := total + vs[i].len;
      i := i + 1;
    }
    assert vs[..i] == vs;
    ret := VALID;
  }

  /** Accepts exactly the vectors whose ranges are addressable and whose total fits the limit (0 means none). */
  method ValidateVectors(ins: seq<Vec>, outs: seq<Vec>, limit: nat) returns (ret: int, total: nat)
    ensures var sum := TotalLength(ins) + TotalLength(outs);
            && (ret == VALID <==>
                  && |ins| + |outs| <= MAX_IOVEC && AllOk(ins, |ins|) && AllOk(outs, |outs|)
                  && sum <= ADDRESS_MAX && (limit == 0 || sum <= limit))
            && (ret == VALID ==> total == sum)
            && (ret == ERROR_COUNT <==> |ins| + |outs| > MAX_IOVEC)
            && (ret == ERROR_LIMIT ==> limit != 0 && sum > limit)
  {
    total := 0;
    if |ins| > MAX_IOVEC || |outs| > MAX_IOVEC || |ins| > MAX_IOVEC - |outs| {
      return ERROR_COUNT, total;
    }
    var result, inTotal := ValidateList(ins, 0);
    if result != VALID {
      return result, total;
    }
    var result', sum := ValidateList(outs, inTotal);
    if result' != VALID {
      return result', total;
    }
    if limit != 0 && sum > limit {
      return ERROR_LIMIT, total;
    }
    return VALID, sum;
  }
}
