/** The packet checksum as a remainder: polynomials over the two-element field, and the division by the generator. */
module CrcDivision {
  import opened Bytes
  import opened Crc
  import opened Checksum

  /** Coefficients, that of x^0 first. */
  type Poly = seq<bool>

  function Coefficient(p: Poly, k: int): bool {
    0 <= k < |p| && p[k]
  }

  /** The same polynomial, whatever zeros lead it. */
  ghost predicate Same(p: Poly, q: Poly) {
    forall k :: Coefficient(p, k) == Coefficient(q, k)
  }

  function Plus(p: Poly, q: Poly): Poly {
    seq(if |p| < |q| then |q| else |p|, k requires 0 <= k => Coefficient(p, k) != Coefficient(q, k))
  }

  /** One x more. */
  function Raised(p: Poly): Poly {
    [false] + p
  }

  function Times(p: Poly, q: Poly): Poly {
    if p == [] then [] else Plus(if p[0] then q else [], Raised(Times(p[1..], q)))
  }

  /** x^n. */
  function Power(n: nat): Poly {
    if n == 0 then [true] else Raised(Power(n - 1))
  }

  /** A stream of bits as a polynomial: the bit sent first has the highest power. */
  function Stream(bits: seq<bool>): Poly {
    if bits == [] then [] else [bits[|bits| - 1]] + Stream(bits[..|bits| - 1])
  }

  // ----- Coefficients -----

  lemma PlusAt(p: Poly, q: Poly, k: int)
    ensures Coefficient(Plus(p, q), k) == (Coefficient(p, k) != Coefficient(q, k))
  {
  }

  lemma RaisedAt(p: Poly, k: int)
    ensures Coefficient(Raised(p), k) == Coefficient(p, k - 1)
  {
  }

  lemma TimesAt(p: Poly, q: Poly, k: int)
    requires p != []
    ensures Coefficient(Times(p, q), k) == ((p[0] && Coefficient(q, k)) != Coefficient(Times(p[1..], q), k - 1))
  {
    PlusAt(if p[0] then q else [], Raised(Times(p[1..], q)), k);
    RaisedAt(Times(p[1..], q), k);
  }

  lemma {:induction false} PowerAt(n: nat, k: int)
    ensures |Power(n)| == n + 1 && Coefficient(Power(n), k) == (k == n)
  {
    if n > 0 {
      PowerAt(n - 1, k - 1);
      RaisedAt(Power(n - 1), k);
    }
  }

  lemma {:induction false} StreamAt(bits: seq<bool>, k: int)
    ensures |Stream(bits)| == |bits|
    ensures Coefficient(Stream(bits), k) == (0 <= k < |bits| && bits[|bits| - 1 - k])
    decreases |bits|
  {
    if bits != [] {
      StreamAt(bits[..|bits| - 1], k - 1);
    }
  }

  // ----- A stream is divided bit by bit -----

  /** x^16 + x^12 + x^5 + 1. */
  function Divisor(): Poly {
    Plus(Plus(Power(16), Power(12)), Plus(Power(5), Power(0)))
  }

  lemma {:induction false} DivisorAt(k: int)
    ensures |Divisor()| == 17 && Coefficient(Divisor(), k) == (k == 16 || k == 12 || k == 5 || k == 0)
  {
    PowerAt(16, k);
    PowerAt(12, k);
    PowerAt(5, k);
    PowerAt(0, k);
    PlusAt(Power(16), Power(12), k);
    PlusAt(Power(5), Power(0), k);
    PlusAt(Plus(Power(16), Power(12)), Plus(Power(5), Power(0)), k);
  }

  lemma {:induction false} GeneratorAt(k: nat)
    requires k < WIDTH
    ensures GENERATOR[WIDTH - 1 - k] == Coefficient(Divisor(), k)
  {
    DivisorAt(k);
  }

  /** One bit more: what leaves the register at the top is one more term of the quotient. */
  lemma {:induction false} ShiftDivides(r: Reg, b: bool, next: Reg, k: int)
    requires |r| == WIDTH && next == Shift(Xor(r, Align([b])))
    ensures ((b && k == 16) != Coefficient(Raised(Stream(r)), k)) ==
            (((r[0] != b) && Coefficient(Divisor(), k)) != Coefficient(Stream(next), k))
  {
    StreamAt(r, k - 1);
    RaisedAt(Stream(r), k);
    StreamAt(next, k);
    DivisorAt(k);
    if 0 <= k < WIDTH {
      GeneratorAt(k);
      assert next[WIDTH - 1 - k] == ((k > 0 && r[WIDTH - k]) != ((r[0] != b) && GENERATOR[WIDTH - 1 - k]));
    }
  }

  /** What is divided: the stream times x^16, and the seed in front of it. */
  function Dividend(seed: Reg, bits: seq<bool>): Poly {
    Plus(Times(Stream(bits), Power(16)), Times(Power(|bits|), Stream(seed)))
  }

  lemma {:induction false} DividendAt(seed: Reg, bits: seq<bool>, k: int)
    requires bits != []
    ensures var last := |bits| - 1;
            Coefficient(Dividend(seed, bits), k) ==
            ((bits[last] && k == 16) != Coefficient(Dividend(seed, bits[..last]), k - 1))
  {
    var last := |bits| - 1;
    assert Stream(bits)[1..] == Stream(bits[..last]);
    assert Power(|bits|)[1..] == Power(last);
    TimesAt(Stream(bits), Power(16), k);
    TimesAt(Power(|bits|), Stream(seed), k);
    PowerAt(16, k);
    PlusAt(Times(Stream(bits), Power(16)), Times(Power(|bits|), Stream(seed)), k);
    PlusAt(Times(Stream(bits[..last]), Power(16)), Times(Power(last), Stream(seed)), k - 1);
  }

  lemma {:induction false} FeedOne(r: Reg, b: bool)
    requires |r| == WIDTH
    ensures Feed(r, [b]) == Shift(Xor(r, Align([b])))
  {
    var one := [b];
    assert one[..1] == one && one[1..] == [];
  }

  lemma {:induction false} FeedLast(seed: Reg, front: seq<bool>, b: bool)
    requires |seed| == WIDTH
    ensures Feed(seed, front + [b]) == Shift(Xor(Feed(seed, front), Align([b])))
  {
    FeedConcat(seed, front, [b]);
    FeedOne(Feed(seed, front), b);
  }

  lemma {:induction false} SeedAlone(seed: Reg, k: int)
    ensures Coefficient(Dividend(seed, []), k) == Coefficient(Stream(seed), k)
  {
    var one := Power(0);
    assert one[1..] == [];
    TimesAt(one, Stream(seed), k);
    PlusAt(Times(Stream([]), Power(16)), Times(one, Stream(seed)), k);
  }

  /** The register is a remainder, and the bits that left it are the quotient. */
  lemma {:induction false} Quotient(seed: Reg, bits: seq<bool>) returns (q: Poly)
    requires |seed| == WIDTH
    ensures Same(Dividend(seed, bits), Plus(Times(q, Divisor()), Stream(Feed(seed, bits))))
    decreases |bits|
  {
    if bits == [] {
      q := [];
      forall k
        ensures Coefficient(Dividend(seed, bits), k) ==
                Coefficient(Plus(Times(q, Divisor()), Stream(Feed(seed, bits))), k)
      {
        SeedAlone(seed, k);
        PlusAt(Times(q, Divisor()), Stream(seed), k);
      }
    } else {
      var last := |bits| - 1;
      var r := Feed(seed, bits[..last]);
      var front := Quotient(seed, bits[..last]);
      assert bits == bits[..last] + [bits[last]];
      FeedLast(seed, bits[..last], bits[last]);
      q := [r[0] != bits[last]] + front;
      forall k
        ensures Coefficient(Dividend(seed, bits), k) ==
                Coefficient(Plus(Times(q, Divisor()), Stream(Feed(seed, bits))), k)
      {
        QuotientStep(seed, bits, front, q, k);
      }
    }
  }

  lemma {:induction false} QuotientStep(seed: Reg, bits: seq<bool>, front: Poly, q: Poly, k: int)
    requires |seed| == WIDTH && bits != []
    requires var last := |bits| - 1;
             var r := Feed(seed, bits[..last]);
             && q == [r[0] != bits[last]] + front
             && Feed(seed, bits) == Shift(Xor(r, Align([bits[last]])))
             && Same(Dividend(seed, bits[..last]), Plus(Times(front, Divisor()), Stream(r)))
    ensures Coefficient(Dividend(seed, bits), k) ==
            Coefficient(Plus(Times(q, Divisor()), Stream(Feed(seed, bits))), k)
  {
    var last := |bits| - 1;
    var r := Feed(seed, bits[..last]);
    DividendAt(seed, bits, k);
    PlusAt(Times(front, Divisor()), Stream(r), k - 1);
    assert q[1..] == front;
    TimesAt(q, Divisor(), k);
    PlusAt(Times(q, Divisor()), Stream(Feed(seed, bits)), k);
    ShiftDivides(r, bits[last], Feed(seed, bits), k);
    RaisedAt(Stream(r), k);
  }

  // ----- There is only one remainder -----

  lemma {:induction false} Distributes(p: Poly, q: Poly, g: Poly, k: int)
    ensures Coefficient(Times(Plus(p, q), g), k) == (Coefficient(Times(p, g), k) != Coefficient(Times(q, g), k))
    decreases |p| + |q|
  {
    if p == [] {
      assert Plus(p, q) == q;
    } else if q == [] {
      assert Plus(p, q) == p;
    } else {
      assert Plus(p, q)[1..] == Plus(p[1..], q[1..]);
      TimesAt(p, g, k);
      TimesAt(q, g, k);
      TimesAt(Plus(p, q), g, k);
      Distributes(p[1..], q[1..], g, k - 1);
    }
  }

  lemma {:induction false} ZeroTimes(p: Poly, g: Poly, k: int)
    requires forall j :: !Coefficient(p, j)
    ensures !Coefficient(Times(p, g), k)
  {
    if p != [] {
      TimesAt(p, g, k);
      assert !Coefficient(p, 0);
      forall j
        ensures !Coefficient(p[1..], j)
      {
        assert !Coefficient(p, j + 1);
      }
      ZeroTimes(p[1..], g, k - 1);
    }
  }

  /** A nonzero multiple of the divisor has a term of x^16 or above. */
  lemma {:induction false} TopTerm(p: Poly, m: nat)
    requires Coefficient(p, m) && forall j :: j > m ==> !Coefficient(p, j)
    ensures Coefficient(Times(p, Divisor()), m + 16)
    decreases m
  {
    DivisorAt(m + 16);
    TimesAt(p, Divisor(), m + 16);
    if m == 0 {
      forall j
        ensures !Coefficient(p[1..], j)
      {
        assert j >= 0 ==> !Coefficient(p, j + 1);
      }
      ZeroTimes(p[1..], Divisor(), 15);
    } else {
      assert Coefficient(p[1..], m - 1);
      forall j | j > m - 1
        ensures !Coefficient(p[1..], j)
      {
        assert !Coefficient(p, j + 1);
      }
      TopTerm(p[1..], m - 1);
    }
  }

  lemma {:induction false} HighestTerm(p: Poly, n: nat) returns (m: nat)
    requires exists j :: Coefficient(p, j)
    requires forall j :: j >= n ==> !Coefficient(p, j)
    ensures Coefficient(p, m) && forall j :: j > m ==> !Coefficient(p, j)
    decreases n
  {
    var j :| Coefficient(p, j);
    assert j < n;
    if Coefficient(p, n - 1) {
      m := n - 1;
    } else {
      m := HighestTerm(p, n - 1);
    }
  }

  lemma {:induction false} MultipleIsLong(p: Poly, d: Poly)
    requires Same(Times(p, Divisor()), d) && forall k :: k >= 16 ==> !Coefficient(d, k)
    ensures forall k :: !Coefficient(d, k)
  {
    NoTerm(p, d);
    forall k
      ensures !Coefficient(d, k)
    {
      ZeroTimes(p, Divisor(), k);
      assert Coefficient(Times(p, Divisor()), k) == Coefficient(d, k);
    }
  }

  lemma {:induction false} NoTerm(p: Poly, d: Poly)
    requires Same(Times(p, Divisor()), d) && forall k :: k >= 16 ==> !Coefficient(d, k)
    ensures forall j :: !Coefficient(p, j)
  {
    if exists j :: Coefficient(p, j) {
      assert forall j :: j >= |p| ==> !Coefficient(p, j);
      var m := HighestTerm(p, |p|);
      assert Coefficient(Times(p, Divisor()), m + 16) == Coefficient(d, m + 16);
      TopTerm(p, m);
      assert false;
    }
  }

  lemma {:induction false} OneRemainder(m: Poly, p: Poly, q: Poly, r: Reg, s: Reg)
    requires |r| == WIDTH && |s| == WIDTH
    requires Same(m, Plus(Times(p, Divisor()), Stream(r))) && Same(m, Plus(Times(q, Divisor()), Stream(s)))
    ensures r == s
  {
    var d := Plus(Stream(r), Stream(s));
    forall k
      ensures Coefficient(Times(Plus(p, q), Divisor()), k) == Coefficient(d, k)
    {
      Distributes(p, q, Divisor(), k);
      PlusAt(Times(p, Divisor()), Stream(r), k);
      PlusAt(Times(q, Divisor()), Stream(s), k);
      PlusAt(Stream(r), Stream(s), k);
      assert Coefficient(m, k) == Coefficient(Plus(Times(p, Divisor()), Stream(r)), k);
      assert Coefficient(m, k) == Coefficient(Plus(Times(q, Divisor()), Stream(s)), k);
    }
    forall k | k >= 16
      ensures !Coefficient(d, k)
    {
      StreamAt(r, k);
      StreamAt(s, k);
      PlusAt(Stream(r), Stream(s), k);
    }
    MultipleIsLong(Plus(p, q), d);
    forall i | 0 <= i < WIDTH
      ensures r[i] == s[i]
    {
      StreamAt(r, WIDTH - 1 - i);
      StreamAt(s, WIDTH - 1 - i);
      PlusAt(Stream(r), Stream(s), WIDTH - 1 - i);
      assert !Coefficient(d, WIDTH - 1 - i);
    }
  }

  // ----- The checksum -----

  /** What is left of m on division by g, which has degree 16. */
  ghost predicate IsRemainder(m: Poly, g: Poly, r: Reg) {
    exists q :: Same(m, Plus(Times(q, g), Stream(r)))
  }

  lemma {:induction false} DivisionIff(m: Poly, g: Poly, q: Poly, rest: Reg, r: Reg)
    requires |rest| == WIDTH && |r| == WIDTH && g == Divisor() && Same(m, Plus(Times(q, g), Stream(rest)))
    ensures rest == r <==> IsRemainder(m, g, r)
  {
    if IsRemainder(m, g, r) {
      var p :| Same(m, Plus(Times(p, g), Stream(r)));
      OneRemainder(m, p, q, r, rest);
    }
  }

  /**
   * The register after a stream is the remainder of the stream times x^16, with the seed in front of it, on division
   * by x^16 + x^12 + x^5 + 1: it satisfies the equation of division for some quotient, and nothing else does.
   */
  lemma {:induction false} RemainderIff(seed: Reg, bits: seq<bool>, r: Reg)
    requires |seed| == WIDTH && |r| == WIDTH
    ensures Feed(seed, bits) == r <==>
            IsRemainder(Plus(Times(Stream(bits), Power(16)), Times(Power(|bits|), Stream(seed))),
                        Plus(Plus(Power(16), Power(12)), Plus(Power(5), Power(0))), r)
  {
    var q := Quotient(seed, bits);
    DivisionIff(Dividend(seed, bits), Divisor(), q, Feed(seed, bits), r);
  }

  /** Bit k of a packet counts from the lowest bit of its last byte. */
  lemma {:induction false} PacketAt(data: bytes, k: nat)
    requires k < 8 * |data|
    ensures Coefficient(Stream(Bits(data)), k) == (data[|data| - 1 - k / 8] / Power2(k % 8) % 2 == 1)
  {
    StreamAt(Bits(data), k);
    FromTheEnd(|data|, k);
    BitOfBytes(data, |data| - 1 - k / 8, 7 - k % 8);
  }

  lemma FromTheEnd(n: nat, k: nat)
    requires k < 8 * n
    ensures 0 <= n - 1 - k / 8 && 8 * n - 1 - k == 8 * (n - 1 - k / 8) + (7 - k % 8)
  {
  }

  lemma {:induction false} BitOfBytes(data: bytes, i: nat, j: nat)
    requires i < |data| && j < 8
    ensures Bits(data)[8 * i + j] == (data[i] / Power2(7 - j) % 2 == 1)
    decreases i
  {
    if i == 0 {
      BitOf(data[0], 8, j);
    } else {
      BitOfBytes(data[1..], i - 1, j);
    }
  }

  lemma {:induction false} BitOf(n: nat, width: nat, i: nat)
    requires i < width
    ensures Binary(n, width)[i] == (n / Power2(width - 1 - i) % 2 == 1)
  {
    if i < width - 1 {
      BitOf(n / 2, width - 1, i);
      NestedDivision(n, 2, Power2(width - 2 - i));
    } else {
      assert Power2(0) == 1;
    }
  }

  /** The checksum of a packet is its remainder. */
  lemma SumIsRemainder(data: bytes, r: Reg)
    requires |r| == WIDTH
    ensures Sum(data) == r <==>
            IsRemainder(Times(Stream(Bits(data)), Power(16)),
                        Plus(Plus(Power(16), Power(12)), Plus(Power(5), Power(0))), r)
  {
    forall k
      ensures Coefficient(Dividend(Zero(), Bits(data)), k) == Coefficient(Times(Stream(Bits(data)), Power(16)), k)
    {
      ZeroSeed(|Bits(data)|, k);
      PlusAt(Times(Stream(Bits(data)), Power(16)), Times(Power(|Bits(data)|), Stream(Zero())), k);
    }
    RemainderIff(Zero(), Bits(data), r);
    SameDividend(Dividend(Zero(), Bits(data)), Times(Stream(Bits(data)), Power(16)), Divisor(), r);
  }

  lemma {:induction false} ZeroSeed(n: nat, k: int)
    ensures !Coefficient(Times(Power(n), Stream(Zero())), k)
  {
    StreamAt(Zero(), k);
    TimesAt(Power(n), Stream(Zero()), k);
    if n > 0 {
      assert Power(n)[1..] == Power(n - 1);
      ZeroSeed(n - 1, k - 1);
    } else {
      assert Power(n)[1..] == [];
    }
  }

  lemma SameDividend(m: Poly, n: Poly, g: Poly, r: Reg)
    requires Same(m, n)
    ensures IsRemainder(m, g, r) <==> IsRemainder(n, g, r)
  {
    if IsRemainder(m, g, r) {
      var q :| Same(m, Plus(Times(q, g), Stream(r)));
      Transfer(m, n, Plus(Times(q, g), Stream(r)));
    }
    if IsRemainder(n, g, r) {
      var q :| Same(n, Plus(Times(q, g), Stream(r)));
      Transfer(n, m, Plus(Times(q, g), Stream(r)));
    }
  }

  lemma Transfer(m: Poly, n: Poly, p: Poly)
    requires (Same(m, n) || Same(n, m)) && Same(m, p)
    ensures Same(n, p)
  {
    forall k
      ensures Coefficient(n, k) == Coefficient(p, k)
    {
      assert Coefficient(m, k) == Coefficient(p, k);
      assert Coefficient(m, k) == Coefficient(n, k);
    }
  }
}
