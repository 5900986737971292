/** Decimal numbers as bytes, the way strconv writes and reads 64-bit integers. */
module Decimal {
  import opened RaftTypes

  const MINUS: Byte := 45
  const PLUS: Byte := 43
  const ZERO: Byte := 48

  function Digits(n: nat): (s: Bytes)
    ensures s != []
  {
    if n < 10 then [ZERO + n] else Digits(n / 10) + [ZERO + n % 10]
  }

  function Negated(x: int): int {
    -x
  }

  function FormatInt(x: Int64): (s: Bytes)
    ensures s != []
  {
    if x < 0 then [MINUS] + Digits(Negated(x)) else Digits(x)
  }

  predicate AllDigits(s: Bytes) {
    forall i :: 0 <= i < |s| ==> ZERO <= s[i] <= ZERO + 9
  }

  function Magnitude(s: Bytes): nat
    requires AllDigits(s)
  {
    if s == [] then 0 else Magnitude(s[..|s| - 1]) * 10 + (s[|s| - 1] - ZERO)
  }

  /** An optional sign and at least one digit, within 64 bits. */
  function ParseInt(s: Bytes): Option<Int64> {
    var negative := s != [] && s[0] == MINUS;
    var digits := if s != [] && (s[0] == MINUS || s[0] == PLUS) then s[1..] else s;
    if digits == [] || !AllDigits(digits) then None
    else if negative then if Magnitude(digits) <= TWO_63 then Some(Negated(Magnitude(digits))) else None
    else if Magnitude(digits) < TWO_63 then Some(Magnitude(digits)) else None
  }

  lemma {:induction false} DigitsRoundTrip(n: nat)
    ensures AllDigits(Digits(n)) && Magnitude(Digits(n)) == n
  {
    if n < 10 {
      assert Digits(n)[..0] == [];
    } else {
      DigitsRoundTrip(n / 10);
      var s := Digits(n);
      assert s[..|s| - 1] == Digits(n / 10);
    }
  }

  lemma IntRoundTrip(x: Int64)
    ensures ParseInt(FormatInt(x)) == Some(x)
    ensures forall b :: b in FormatInt(x) ==> b == MINUS || ZERO <= b <= ZERO + 9
  {
    if x < 0 {
      DigitsRoundTrip(Negated(x));
      assert FormatInt(x)[1..] == Digits(Negated(x));
    } else {
      DigitsRoundTrip(x);
    }
  }
}
