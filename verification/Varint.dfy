/** Base-128 variable-length integers, as every generated protobuf file of the repository writes them. */
module Varint {
  import opened RaftTypes

  const TWO_64: nat := 0x1_0000_0000_0000_0000

  function BitLen(x: nat): nat {
    if x == 0 then 0 else 1 + BitLen(x / 2)
  }

  /** The generated size formula: seven bits to a byte, at least one byte. */
  function Sov(x: nat): nat {
    (BitLen(if x % 2 == 0 then x + 1 else x) + 6) / 7
  }

  function EncodeVarint(x: nat): seq<Byte> {
    if x < 128 then [x] else [x % 128 + 128] + EncodeVarint(x / 128)
  }

  lemma BitLenShift(x: nat)
    requires x >= 128
    ensures BitLen(x) == 7 + BitLen(x / 128)
  {
    calc {
      BitLen(x);
      1 + BitLen(x / 2);
      2 + BitLen(x / 2 / 2);
      { assert x / 2 / 2 == x / 4; }
      3 + BitLen(x / 4 / 2);
      { assert x / 4 / 2 == x / 8; }
      4 + BitLen(x / 8 / 2);
      { assert x / 8 / 2 == x / 16; }
      5 + BitLen(x / 16 / 2);
      { assert x / 16 / 2 == x / 32; }
      6 + BitLen(x / 32 / 2);
      { assert x / 32 / 2 == x / 64; }
      7 + BitLen(x / 64 / 2);
      { assert x / 64 / 2 == x / 128; }
      7 + BitLen(x / 128);
    }
  }

  lemma {:induction false} BitLenSmall(x: nat, k: nat, bound: nat)
    requires x < bound && bound == Pow2(k)
    ensures BitLen(x) <= k
    decreases k
  {
    if x > 0 {
      BitLenSmall(x / 2, k - 1, Pow2(k - 1));
    }
  }

  function Pow2(k: nat): nat {
    if k == 0 then 1 else 2 * Pow2(k - 1)
  }

  /** sov is the number of bytes the writer emits. */
  lemma {:induction false} SovIsLength(x: nat)
    ensures Sov(x) == |EncodeVarint(x)|
    decreases x
  {
    var y := if x % 2 == 0 then x + 1 else x;
    if x < 128 {
      assert Pow2(7) == 128;
      BitLenSmall(y, 7, 128);
    } else {
      hide BitLen;
      BitLenShift(y);
      SameHigh(x);
      SovIsLength(x / 128);
      BitLenOdd(x / 128);
    }
  }

  lemma SameHigh(x: nat)
    ensures (if x % 2 == 0 then x + 1 else x) / 128 == x / 128
  {
  }

  lemma BitLenOdd(x: nat)
    requires x > 0
    ensures BitLen(if x % 2 == 0 then x + 1 else x) == BitLen(x)
  {
  }
}
