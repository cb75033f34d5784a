/** Bytes, their bits, and big-endian numbers. */
module Bytes {
  type byte = n: nat | n < 256

  type bytes = seq<byte>

  // ----- Bits, most significant first -----

  function Binary(n: nat, width: nat): (bits: seq<bool>)
    ensures |bits| == width
  {
    if width == 0 then [] else Binary(n / 2, width - 1) + [n % 2 == 1]
  }

  function Power2(n: nat): (p: nat)
    ensures p > 0
  {
    if n == 0 then 1 else 2 * Power2(n - 1)
  }

  function Value(bits: seq<bool>): (n: nat)
    ensures n < Power2(|bits|)
  {
    if bits == [] then 0 else 2 * Value(bits[..|bits| - 1]) + (if bits[|bits| - 1] then 1 else 0)
  }

  lemma {:induction false} BinaryOfValue(bits: seq<bool>)
    ensures Binary(Value(bits), |bits|) == bits
  {
    if bits != [] {
      BinaryOfValue(bits[..|bits| - 1]);
      assert bits == bits[..|bits| - 1] + [bits[|bits| - 1]];
    }
  }

  lemma {:induction false} ValueOfBinary(n: nat, width: nat)
    requires n < Power2(width)
    ensures Value(Binary(n, width)) == n
  {
    if width > 0 {
      ValueOfBinary(n / 2, width - 1);
      assert Binary(n, width)[..width - 1] == Binary(n / 2, width - 1);
    }
  }

  function Bits(data: bytes): (bits: seq<bool>)
    ensures |bits| == 8 * |data|
  {
    if data == [] then [] else Binary(data[0], 8) + Bits(data[1..])
  }

  lemma {:induction false} BitsConcat(a: bytes, b: bytes)
    ensures Bits(a + b) == Bits(a) + Bits(b)
  {
    if a == [] {
      assert a + b == b;
    } else {
      assert (a + b)[1..] == a[1..] + b;
      BitsConcat(a[1..], b);
    }
  }

  // ----- Big-endian numbers -----

  function Be(n: nat, width: nat): (b: bytes)
    ensures |b| == width
  {
    if width == 0 then [] else Be(n / 256, width - 1) + [n % 256]
  }

  function FromBe(b: bytes): nat {
    if b == [] then 0 else 256 * FromBe(b[..|b| - 1]) + b[|b| - 1]
  }

  function Power256(n: nat): (p: nat)
    ensures p > 0
  {
    if n == 0 then 1 else 256 * Power256(n - 1)
  }

  lemma {:induction false} FromBeOfBe(n: nat, width: nat)
    requires n < Power256(width)
    ensures FromBe(Be(n, width)) == n
  {
    if width > 0 {
      FromBeOfBe(n / 256, width - 1);
      assert Be(n, width)[..width - 1] == Be(n / 256, width - 1);
    }
  }

  lemma {:induction false} BeOfFromBe(b: bytes)
    ensures FromBe(b) < Power256(|b|) && Be(FromBe(b), |b|) == b
  {
    if b != [] {
      BeOfFromBe(b[..|b| - 1]);
      assert b == b[..|b| - 1] + [b[|b| - 1]];
    }
  }

  // ----- Digits -----

  lemma Grows(p: int, d: int)
    requires p > 0 && d > 0
    ensures p * d >= p
  {
  }

  lemma QuotientOf(p: int, q: int, r: int)
    requires p > 0 && 0 <= r < p
    ensures (p * q + r) / p == q
  {
    var n := p * q + r;
    var d := n / p - q;
    assert p * d == r - n % p;
    if d > 0 {
      Grows(p, d);
    } else if d < 0 {
      Grows(p, -d);
    }
  }

  lemma Products(d: nat, p: nat, q: nat)
    requires d > 0 && p > 0
    ensures d * p > 0 && d * p * q == d * (p * q)
  {
  }

  lemma Nested(n: nat, d: nat, p: nat, m: nat, q: nat, r: nat, e: nat)
    requires n == d * m + e && m == p * q + r
    ensures n == d * p * q + (d * r + e)
  {
    assert d * m == d * (p * q) + d * r;
  }

  lemma NestedDivision(n: nat, d: nat, p: nat)
    requires d > 0 && p > 0
    ensures d * p > 0 && n / d / p == n / (d * p)
  {
    var m, e := n / d, n % d;
    var q, r := m / p, m % p;
    Products(d, p, q);
    Nested(n, d, p, m, q, r, e);
    Remainder(d, p, r, e);
    QuotientOf(d * p, q, d * r + e);
  }

  lemma Remainder(d: nat, p: nat, r: nat, e: nat)
    requires r < p && e < d
    ensures 0 <= d * r + e < d * p
  {
    assert d * (r + 1) <= d * p;
  }

  /** The byte at position i is the digit with as many digits after it as there are bytes. */
  lemma {:induction false} DigitOf(b: bytes, i: nat)
    requires i < |b|
    ensures FromBe(b) / Power256(|b| - 1 - i) % 256 == b[i]
    decreases |b|
  {
    var front := b[..|b| - 1];
    if i < |front| {
      DigitOf(front, i);
      NestedDivision(FromBe(b), 256, Power256(|front| - 1 - i));
      assert FromBe(b) / 256 == FromBe(front);
    } else {
      assert Power256(0) == 1;
    }
  }
}
