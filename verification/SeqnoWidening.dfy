/** Reading a 64-bit semaphore value from hardware that stores only its low half.
    The driver keeps the largest submitted value in a separate 64-bit word and
    rebuilds the high half from it. */
module SeqnoWidening {

  const W32: nat := 0x1_0000_0000
  const W64: nat := 0x1_0000_0000_0000_0000

  /** `sem32 | (m & 0xffffffff00000000)`: the two halves have no bit in common, so
      the disjunction is a sum. The subtraction is the 64-bit one and wraps. */
  function Widen(maxSubmitted: nat, sem32: nat): (semVal: nat)
    requires maxSubmitted < W64 && sem32 < W32
    ensures semVal % W32 == sem32
  {
    var m := if maxSubmitted % W32 < sem32 then (maxSubmitted - W32) % W64 else maxSubmitted;
    m / W32 * W32 + sem32
  }

  /** Widening gives back the true payload exactly when the payload is one of the
      2^32 values that end, modulo 2^64, at the largest submitted one. */
  lemma WidenExact(maxSubmitted: nat, payload: nat)
    requires maxSubmitted < W64 && payload < W64
    ensures Widen(maxSubmitted, payload % W32) == payload <==> (maxSubmitted - payload) % W64 < W32
  {
    var lo := payload % W32;
    var hi := payload / W32;
    var mlo := maxSubmitted % W32;
    var mhi := maxSubmitted / W32;
    assert payload == hi * W32 + lo && maxSubmitted == mhi * W32 + mlo;
    assert hi < W32 && mhi < W32;
    if mlo < lo {
      var m := (maxSubmitted - W32) % W64;
      if mhi == 0 {
        assert m == maxSubmitted - W32 + W64;
        assert m / W32 == W32 - 1;
      } else {
        assert m == maxSubmitted - W32;
        assert m / W32 == mhi - 1;
      }
    }
  }

  /** The case the driver promises: nothing beyond the largest submitted value has
      been released and fewer than 2^32 values are outstanding.  The correction
      then never wraps below zero. */
  lemma WidenInWindow(maxSubmitted: nat, payload: nat)
    requires payload <= maxSubmitted < W64 && maxSubmitted - payload < W32
    ensures Widen(maxSubmitted, payload % W32) == payload
    ensures maxSubmitted % W32 < payload % W32 ==> maxSubmitted >= W32
  {
    WidenExact(maxSubmitted, payload);
    assert (maxSubmitted - payload) % W64 == maxSubmitted - payload;
    if maxSubmitted < W32 {
      assert maxSubmitted % W32 == maxSubmitted && payload % W32 == payload;
    }
  }

  /** Two readings of a payload that only grows come out in the same order, also
      when the stored low half has wrapped between them. */
  lemma WidenMonotone(max0: nat, payload0: nat, max1: nat, payload1: nat)
    requires payload0 <= payload1
    requires payload0 <= max0 < W64 && max0 - payload0 < W32
    requires payload1 <= max1 < W64 && max1 - payload1 < W32
    ensures Widen(max0, payload0 % W32) <= Widen(max1, payload1 % W32)
  {
    WidenInWindow(max0, payload0);
    WidenInWindow(max1, payload1);
  }
}
