/** Octets as bounded integers, with the few operations the QR payload needs. */
module Bytes {

  type byte = b: int | 0 <= b < 256

  /** Bitwise exclusive or of two naturals, one binary digit at a time. */
  function XorNat(a: nat, b: nat): (r: nat)
    decreases a + b
  {
    if a == 0 && b == 0 then 0
    else (if a % 2 == b % 2 then 0 else 1) + 2 * XorNat(a / 2, b / 2)
  }

  function Pow2(n: nat): (r: nat)
    ensures r >= 1
  {
    if n == 0 then 1 else 2 * Pow2(n - 1)
  }

  /** Exclusive or never needs more binary digits than its operands. */
  lemma {:induction false} XorNatBound(a: nat, b: nat, n: nat)
    requires a < Pow2(n) && b < Pow2(n)
    ensures XorNat(a, b) < Pow2(n)
    decreases n
  {
    if a == 0 && b == 0 {
    } else {
      assert n > 0;
      XorNatBound(a / 2, b / 2, n - 1);
    }
  }

  /** Bitwise exclusive or of two octets. */
  function Xor(a: byte, b: byte): byte {
    assert Pow2(8) == 256;
    XorNatBound(a, b, 8);
    XorNat(a, b)
  }

  lemma {:induction false} XorNatCancel(a: nat, b: nat)
    ensures XorNat(XorNat(a, b), b) == a
    decreases a + b
  {
    if a == 0 && b == 0 {
    } else {
      var x := XorNat(a, b);
      XorNatCancel(a / 2, b / 2);
      assert x / 2 == XorNat(a / 2, b / 2) && x % 2 == (if a % 2 == b % 2 then 0 else 1);
    }
  }

  /** Exclusive or with the same octet twice gives back the original octet. */
  lemma XorCancel(a: byte, b: byte)
    ensures Xor(Xor(a, b), b) == a
  {
    XorNatCancel(a, b);
  }

  /** Element-wise exclusive or of two equally long octet strings. */
  function XorAll(a: seq<byte>, b: seq<byte>): (r: seq<byte>)
    requires |a| == |b|
    ensures |r| == |a|
    ensures forall i :: 0 <= i < |r| ==> r[i] == Xor(a[i], b[i])
  {
    seq(|a|, i requires 0 <= i < |a| => Xor(a[i], b[i]))
  }

  /** Exclusive or with the same string twice gives back the original string. */
  lemma XorAllCancel(a: seq<byte>, b: seq<byte>)
    requires |a| == |b|
    ensures XorAll(XorAll(a, b), b) == a
  {
    var r := XorAll(XorAll(a, b), b);
    forall i | 0 <= i < |a| ensures r[i] == a[i] {
      XorCancel(a[i], b[i]);
    }
  }

  /** `n` zero octets. */
  function Zeros(n: nat): (r: seq<byte>)
    ensures |r| == n
    ensures forall i :: 0 <= i < n ==> r[i] == 0
  {
    seq(n, _ => 0)
  }
}
