// Replay protection, constant-time comparison and the zeroizing buffer of
// crates/core/src/security.rs.

module Security {
  import opened Wrappers

  /** A `u128` seen as its 128 bits; index i is the bit of weight 2^i. */
  type Word128 = w: seq<bool> | |w| == 128 witness seq(128, i => false)

  /** The value 0. */
  function Zero(): (r: Word128)
    ensures forall i | 0 <= i < 128 :: !r[i]
  {
    seq(128, i => false)
  }

  /** `w << d` for d < 128: bits move up by d, the d low bits become 0 and
      the bits pushed past bit 127 are lost. */
  function ShiftLeft(w: Word128, d: nat): (r: Word128)
    requires d < 128
    ensures forall i | 0 <= i < 128 :: r[i] <==> (d <= i && w[i - d])
  {
    seq(128, i requires 0 <= i < 128 => if i < d then false else w[i - d])
  }

  /** `w | (1 << j)`: bit j set, every other bit kept. */
  function SetBit(w: Word128, j: nat): (r: Word128)
    requires j < 128
    ensures r[j] && forall i | 0 <= i < 128 && i != j :: r[i] == w[i]
  {
    w[j := true]
  }

  /** The sliding-window replay filter. `accepted` is the history of the
      nonces for which `Check` has returned true; it only exists in the proof. */
  class ReplayWindow {
    var window: Word128
    var lastNonce: u64
    ghost var accepted: set<int>

    /** Every accepted nonce is positive and at most `lastNonce`, and bit i
        of the window records whether nonce `lastNonce - i` was accepted. */
    ghost predicate Valid()
      reads this
    {
      (forall n | n in accepted :: 1 <= n <= lastNonce) &&
      (forall i | 0 <= i < 128 :: window[i] <==> (lastNonce - i) in accepted)
    }

    constructor ()
      ensures Valid()
      ensures window == Zero() && lastNonce == 0 && accepted == {}
    {
      window := Zero();
      lastNonce := 0;
      accepted := {};
    }

    /** Accepts a nonce exactly when it is inside the window and has not
        been accepted before. */
    method Check(nonce: u64) returns (ok: bool)
      requires Valid()
      modifies this
      ensures Valid()
      ensures ok <==> nonce > SaturatingSub(old(lastNonce), 128) && nonce !in old(accepted)
      ensures accepted == if ok then old(accepted) + {nonce} else old(accepted)
      ensures lastNonce == if nonce > old(lastNonce) then nonce else old(lastNonce)
      ensures nonce <= SaturatingSub(old(lastNonce), 128) ==> window == old(window)
      ensures nonce > old(lastNonce) ==>
        window == SetBit(if nonce - old(lastNonce) < 128
                         then ShiftLeft(old(window), nonce - old(lastNonce))
                         else Zero(), 0)
      ensures SaturatingSub(old(lastNonce), 128) < nonce <= old(lastNonce) ==>
        window == if ok then SetBit(old(window), old(lastNonce) - nonce) else old(window)
    {
      if nonce <= SaturatingSub(lastNonce, 128) {
        return false;
      }
      if nonce > lastNonce {
        var diff := nonce - lastNonce;
        if diff < 128 {
          window := ShiftLeft(window, diff);
        } else {
          window := Zero();
        }
        lastNonce := nonce;
        assert forall i | 0 <= i < 128 :: window[i] <==> (lastNonce - i) in accepted;
      }
      // on this path lastNonce - nonce is below 128, so the mask is exact
      assert lastNonce - nonce < 128;
      var bit := (lastNonce - nonce) % 128;
      assert bit == lastNonce - nonce;
      if window[bit] {
        return false;
      }
      window := SetBit(window, bit);
      accepted := accepted + {nonce};
      ok := true;
    }
  }

  /** The unit test's sequence: 10 is accepted, repeated 10 is refused, and
      11 is accepted. */
  method DuplicateNonceScenario() returns (first: bool, again: bool, next: bool)
    ensures first && !again && next
  {
    var rw := new ReplayWindow();
    first := rw.Check(10);
    again := rw.Check(10);
    next := rw.Check(11);
  }

  /** A nonce below the newest one but inside the window is accepted once. */
  method OutOfOrderScenario() returns (newer: bool, older: bool, olderAgain: bool)
    ensures newer && older && !olderAgain
  {
    var rw := new ReplayWindow();
    newer := rw.Check(10);
    older := rw.Check(9);
    olderAgain := rw.Check(9);
  }

  /** A fresh window refuses nonce 0, and a nonce 128 or more below the
      newest one is refused even if it was never seen. */
  method StaleNonceScenario() returns (zero: bool, stale: bool)
    ensures !zero && !stale
  {
    var rw := new ReplayWindow();
    zero := rw.Check(0);
    var _ := rw.Check(200);
    stale := rw.Check(72);
  }

  /** Bitwise XOR of two naturals, one bit at a time from the lowest. */
  function Xor(a: nat, b: nat): nat
    decreases a + b
  {
    if a == 0 && b == 0 then 0 else 2 * Xor(a / 2, b / 2) + (if a % 2 == b % 2 then 0 else 1)
  }

  /** Bitwise OR of two naturals, one bit at a time from the lowest. */
  function Or(a: nat, b: nat): nat
    decreases a + b
  {
    if a == 0 && b == 0 then 0 else 2 * Or(a / 2, b / 2) + (if a % 2 == 1 || b % 2 == 1 then 1 else 0)
  }

  /** The XOR of two values is zero exactly when they are equal. */
  lemma {:induction false} XorZero(a: nat, b: nat)
    ensures Xor(a, b) == 0 <==> a == b
    decreases a + b
  {
    if a != 0 || b != 0 {
      XorZero(a / 2, b / 2);
    }
  }

  /** The OR of two values is zero exactly when both are. */
  lemma {:induction false} OrZero(a: nat, b: nat)
    ensures Or(a, b) == 0 <==> a == 0 && b == 0
    decreases a + b
  {
    if a != 0 || b != 0 {
      OrZero(a / 2, b / 2);
    }
  }

  /** The OR and the XOR of two bytes are bytes. */
  lemma {:induction false} BitwiseBounded(a: nat, b: nat, n: nat)
    requires a < Pow2(n) && b < Pow2(n)
    ensures Xor(a, b) < Pow2(n) && Or(a, b) < Pow2(n)
    decreases n
  {
    if n > 0 && (a != 0 || b != 0) {
      BitwiseBounded(a / 2, b / 2, n - 1);
    }
  }

  function Pow2(n: nat): (r: nat)
    ensures r > 0
  {
    if n == 0 then 1 else 2 * Pow2(n - 1)
  }

  /** Equality of two byte strings that ORs the XOR of every byte pair into
      one accumulator instead of stopping at the first difference. */
  method ConstantTimeEq(a: seq<byte>, b: seq<byte>) returns (eq: bool)
    ensures eq <==> a == b
  {
    if |a| != |b| {
      return false;
    }
    var result: byte := 0;
    var i := 0;
    while i < |a|
      invariant 0 <= i <= |a|
      invariant result == 0 <==> a[..i] == b[..i]
    {
      XorZero(a[i], b[i]);
      BitwiseBounded(a[i], b[i], 8);
      OrZero(result, Xor(a[i], b[i]));
      BitwiseBounded(result, Xor(a[i], b[i]), 8);
      assert a[..i + 1] == a[..i] + [a[i]];
      assert b[..i + 1] == b[..i] + [b[i]];
      result := Or(result, Xor(a[i], b[i]));
      i := i + 1;
    }
    assert a[..i] == a && b[..i] == b;
    eq := result == 0;
  }

  /** The test's examples: "hello" equals itself and differs from "world". */
  method ConstantTimeEqExamples() returns (same: bool, different: bool)
    ensures same && !different
  {
    same := ConstantTimeEq([0x68, 0x65, 0x6C, 0x6C, 0x6F], [0x68, 0x65, 0x6C, 0x6C, 0x6F]);
    different := ConstantTimeEq([0x68, 0x65, 0x6C, 0x6C, 0x6F], [0x77, 0x6F, 0x72, 0x6C, 0x64]);
  }

  /** An owned byte vector that is overwritten with zeros when dropped.
      `storage` is the vector's allocation and `len` its length. */
  class SecureBuffer {
    const storage: array<byte>
    var len: nat

    ghost predicate Valid()
      reads this
    {
      len <= storage.Length
    }

    constructor (data: seq<byte>)
      ensures Valid() && fresh(storage)
      ensures AsSlice() == data
    {
      storage := new byte[|data|](i requires 0 <= i < |data| => data[i]);
      len := |data|;
      new;
      assert storage[..] == data;
    }

    /** The bytes the buffer currently holds. */
    function AsSlice(): (r: seq<byte>)
      requires Valid()
      reads this, storage
      ensures |r| == len
    {
      storage[..len]
    }

    /** The explicit form of the zeroizing drop: every byte of the
        allocation becomes 0 and the vector is left empty. */
    method Drop()
      requires Valid()
      modifies this, storage
      ensures Valid()
      ensures forall i | 0 <= i < storage.Length :: storage[i] == 0
      ensures AsSlice() == []
    {
      var i := 0;
      while i < storage.Length
        invariant 0 <= i <= storage.Length
        invariant forall k | 0 <= k < i :: storage[k] == 0
      {
        storage[i] := 0;
        i := i + 1;
      }
      len := 0;
    }
  }

  /** The unit test: the buffer built from [1, 2, 3, 4, 5] returns those bytes. */
  method SecureBufferScenario() returns (before: seq<byte>, after: seq<byte>)
    ensures before == [1, 2, 3, 4, 5]
    ensures after == []
  {
    var buf := new SecureBuffer([1, 2, 3, 4, 5]);
    before := buf.AsSlice();
    buf.Drop();
    after := buf.AsSlice();
  }
}
