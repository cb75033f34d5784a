/**
 * The packet checksum of tools/usb_rpc_smoke.py as a shift register over bit sequences (most significant bit
 * first), and the transmission errors it cannot miss.
 */
module Crc {
  type Reg = seq<bool>

  const WIDTH: nat := 16

  /** x^12 + x^5 + 1, what a bit shifted out of the register adds to it: 0x1021. */
  const GENERATOR: Reg :=
    [false, false, false, true, false, false, false, false, false, false, true, false, false, false, false, true]

  function Zero(): Reg {
    seq(WIDTH, _ => false)
  }

  function Xor(a: seq<bool>, b: seq<bool>): seq<bool>
    requires |a| == |b|
  {
    seq(|a|, i requires 0 <= i < |a| => a[i] != b[i])
  }

  function Shift(r: Reg): Reg
    requires |r| == WIDTH
  {
    seq(WIDTH, i requires 0 <= i < WIDTH => (i + 1 < WIDTH && r[i + 1]) != (r[0] && GENERATOR[i]))
  }

  function Shifts(r: Reg, n: nat): (s: Reg)
    requires |r| == WIDTH
    ensures |s| == WIDTH
    decreases n
  {
    if n == 0 then r else Shifts(Shift(r), n - 1)
  }

  /** Bits left-aligned in a register. */
  function Align(bits: seq<bool>): Reg
    requires |bits| <= WIDTH
  {
    seq(WIDTH, i requires 0 <= i < WIDTH => i < |bits| && bits[i])
  }

  /** The register after a stream of bits, each added at the top and followed by one step. */
  function Feed(r: Reg, bits: seq<bool>): (s: Reg)
    requires |r| == WIDTH
    ensures |s| == WIDTH
    decreases |bits|
  {
    if bits == [] then r else Feed(Shift(Xor(r, Align(bits[..1]))), bits[1..])
  }

  // ----- Feeding a stream in pieces -----

  lemma {:induction false} FeedConcat(r: Reg, a: seq<bool>, b: seq<bool>)
    requires |r| == WIDTH
    ensures Feed(r, a + b) == Feed(Feed(r, a), b)
    decreases |a|
  {
    if a == [] {
      assert a + b == b;
    } else {
      assert (a + b)[..1] == a[..1] && (a + b)[1..] == a[1..] + b;
      FeedConcat(Shift(Xor(r, Align(a[..1]))), a[1..], b);
    }
  }

  lemma ShiftLinear(a: Reg, b: Reg)
    requires |a| == WIDTH && |b| == WIDTH
    ensures Shift(Xor(a, b)) == Xor(Shift(a), Shift(b))
  {
  }

  /** Feeding up to sixteen bits is adding them, left-aligned, and stepping once for each. */
  lemma {:induction false} FeedIsShifts(r: Reg, bits: seq<bool>)
    requires |r| == WIDTH && |bits| <= WIDTH
    ensures Feed(r, bits) == Shifts(Xor(r, Align(bits)), |bits|)
    decreases |bits|
  {
    if bits == [] {
      assert Xor(r, Align(bits)) == r;
    } else {
      var first, rest := Align(bits[..1]), Align(bits[1..]);
      var below := seq(WIDTH, i requires 0 <= i < WIDTH => i > 0 && rest[i - 1]);
      assert Xor(r, Align(bits)) == Xor(Xor(r, first), below);
      ShiftLinear(Xor(r, first), below);
      assert Shift(below) == rest;
      FeedIsShifts(Shift(Xor(r, first)), bits[1..]);
    }
  }

  // ----- Linearity -----

  /** The register after a bitwise sum of two streams is the sum of the registers. */
  lemma {:induction false} FeedLinear(r: Reg, s: Reg, a: seq<bool>, b: seq<bool>)
    requires |r| == WIDTH && |s| == WIDTH && |a| == |b|
    ensures Feed(Xor(r, s), Xor(a, b)) == Xor(Feed(r, a), Feed(s, b))
    decreases |a|
  {
    if a == [] {
    } else {
      var p, q := Xor(r, Align(a[..1])), Xor(s, Align(b[..1]));
      assert Xor(Xor(r, s), Align(Xor(a, b)[..1])) == Xor(p, q);
      assert Xor(a, b)[1..] == Xor(a[1..], b[1..]);
      ShiftLinear(p, q);
      FeedLinear(Shift(p), Shift(q), a[1..], b[1..]);
    }
  }

  // ----- The step is a bijection -----

  function Unshift(r: Reg): Reg
    requires |r| == WIDTH
  {
    seq(WIDTH, i requires 0 <= i < WIDTH => if i == 0 then r[15] else r[i - 1] != (r[15] && GENERATOR[i - 1]))
  }

  /** The one-bit step is a bijection on the registers. */
  lemma ShiftBijective(r: Reg)
    requires |r| == WIDTH
    ensures Unshift(Shift(r)) == r && Shift(Unshift(r)) == r
  {
    var s, u := Shift(r), Unshift(r);
    assert s[15] == r[0];
    assert forall i :: 1 <= i < WIDTH ==> s[i - 1] == (r[i] != (r[0] && GENERATOR[i - 1]));
    assert forall i :: 0 <= i < WIDTH - 1 ==> u[i + 1] == (r[i] != (r[15] && GENERATOR[i]));
  }

  lemma {:induction false} ShiftsZero(r: Reg, n: nat)
    requires |r| == WIDTH
    ensures Shifts(r, n) == Zero() <==> r == Zero()
    decreases n
  {
    if n > 0 {
      ShiftBijective(r);
      assert Shift(Zero()) == Zero();
      ShiftsZero(Shift(r), n - 1);
    }
  }

  // ----- The check value -----

  /** A stream followed by sixteen more bits leaves the register at zero exactly when they are its checksum. */
  lemma CheckValue(bits: seq<bool>, sum: seq<bool>)
    requires |sum| == WIDTH
    ensures Feed(Zero(), bits + sum) == Zero() <==> sum == Feed(Zero(), bits)
  {
    var r := Feed(Zero(), bits);
    FeedConcat(Zero(), bits, sum);
    FeedIsShifts(r, sum);
    assert Align(sum) == sum;
    ShiftsZero(Xor(r, sum), WIDTH);
    if Xor(r, sum) == Zero() {
      forall i | 0 <= i < WIDTH
        ensures sum[i] == r[i]
      {
        assert !Xor(r, sum)[i];
      }
      assert sum == r;
    }
  }

  // ----- Detected errors -----

  /** All set bits of an error lie in the sixteen positions from k on. */
  predicate Within(error: seq<bool>, k: nat) {
    forall i :: 0 <= i < |error| && error[i] ==> k <= i < k + WIDTH
  }

  lemma {:induction false} FeedZeros(r: Reg, bits: seq<bool>)
    requires |r| == WIDTH && forall i :: 0 <= i < |bits| ==> !bits[i]
    ensures Feed(r, bits) == Zero() <==> r == Zero()
    decreases |bits|
  {
    if bits != [] {
      assert Xor(r, Align(bits[..1])) == r;
      ShiftsZero(r, 1);
      assert Shifts(r, 1) == Shift(r);
      FeedZeros(Shift(r), bits[1..]);
    }
  }

  lemma AlignNonzero(bits: seq<bool>, j: nat)
    requires |bits| <= WIDTH && j < |bits| && bits[j]
    ensures Xor(Zero(), Align(bits)) != Zero()
  {
    assert Xor(Zero(), Align(bits))[j] && !Zero()[j];
  }

  lemma ShortNonzero(bits: seq<bool>, j: nat)
    requires |bits| <= WIDTH && j < |bits| && bits[j]
    ensures Feed(Zero(), bits) != Zero()
  {
    FeedIsShifts(Zero(), bits);
    AlignNonzero(bits, j);
    ShiftsZero(Xor(Zero(), Align(bits)), |bits|);
  }

  lemma ShortAmongZeros(before: seq<bool>, burst: seq<bool>, after: seq<bool>, j: nat)
    requires |burst| <= WIDTH && j < |burst| && burst[j]
    requires forall i :: 0 <= i < |before| ==> !before[i]
    requires forall i :: 0 <= i < |after| ==> !after[i]
    ensures Feed(Zero(), before + (burst + after)) != Zero()
  {
    FeedConcat(Zero(), before, burst + after);
    FeedZeros(Zero(), before);
    FeedConcat(Zero(), burst, after);
    ShortNonzero(burst, j);
    FeedZeros(Feed(Zero(), burst), after);
  }

  /** A nonzero burst, alone, leaves the register away from zero, whatever surrounds it. */
  lemma BurstDetected(error: seq<bool>, k: nat, j: nat)
    requires Within(error, k) && j < |error| && error[j]
    ensures Feed(Zero(), error) != Zero()
  {
    var end := if k + WIDTH <= |error| then k + WIDTH else |error|;
    assert error == error[..k] + (error[k..end] + error[end..]);
    ShortAmongZeros(error[..k], error[k..end], error[end..], j - k);
  }

  // ----- Parity -----

  function Odd(bits: seq<bool>): bool {
    if bits == [] then false else bits[0] != Odd(bits[1..])
  }

  lemma {:induction false} OddXor(a: seq<bool>, b: seq<bool>)
    requires |a| == |b|
    ensures Odd(Xor(a, b)) == (Odd(a) != Odd(b))
  {
    if a != [] {
      assert Xor(a, b)[1..] == Xor(a[1..], b[1..]);
      OddXor(a[1..], b[1..]);
    }
  }

  lemma {:induction false} OddConcat(a: seq<bool>, b: seq<bool>)
    ensures Odd(a + b) == (Odd(a) != Odd(b))
  {
    if a == [] {
      assert a + b == b;
    } else {
      assert (a + b)[1..] == a[1..] + b;
      OddConcat(a[1..], b);
    }
  }

  lemma {:induction false} OddFalses(bits: seq<bool>)
    requires forall i :: 0 <= i < |bits| ==> !bits[i]
    ensures !Odd(bits)
  {
    if bits != [] {
      OddFalses(bits[1..]);
    }
  }

  lemma OddFrom(bits: seq<bool>, i: nat)
    requires i < |bits|
    ensures Odd(bits[i..]) == (bits[i] != Odd(bits[i + 1..]))
  {
    assert bits[i..][1..] == bits[i + 1..];
  }

  lemma OddGenerator()
    ensures Odd(GENERATOR)
  {
    var g := GENERATOR;
    assert !Odd(g[16..]);
    OddFrom(g, 15); OddFrom(g, 14); OddFrom(g, 13); OddFrom(g, 12);
    OddFrom(g, 11); OddFrom(g, 10); OddFrom(g, 9); OddFrom(g, 8);
    OddFrom(g, 7); OddFrom(g, 6); OddFrom(g, 5); OddFrom(g, 4);
    OddFrom(g, 3); OddFrom(g, 2); OddFrom(g, 1); OddFrom(g, 0);
    assert g[0..] == g;
  }

  lemma ShiftIsXor(r: Reg)
    requires |r| == WIDTH
    ensures Shift(r) == if r[0] then Xor(r[1..] + [false], GENERATOR) else r[1..] + [false]
  {
  }

  lemma DropFirst(r: Reg)
    requires |r| == WIDTH
    ensures Odd(r[1..] + [false]) == (Odd(r) != r[0])
  {
    OddConcat(r[1..], [false]);
    assert [false][1..] == [];
  }

  /** The generator has an even number of terms, so a step keeps the parity of the register. */
  lemma ShiftParity(r: Reg)
    requires |r| == WIDTH
    ensures Odd(Shift(r)) == Odd(r)
  {
    ShiftIsXor(r);
    DropFirst(r);
    if r[0] {
      OddXor(r[1..] + [false], GENERATOR);
      OddGenerator();
    }
  }

  lemma {:induction false} FeedParity(r: Reg, bits: seq<bool>)
    requires |r| == WIDTH
    ensures Odd(Feed(r, bits)) == (Odd(r) != Odd(bits))
    decreases |bits|
  {
    if bits != [] {
      var first := Align(bits[..1]);
      assert first == bits[..1] + seq(WIDTH - 1, _ => false);
      OddConcat(bits[..1], seq(WIDTH - 1, _ => false));
      OddFalses(seq(WIDTH - 1, _ => false));
      OddXor(r, first);
      ShiftParity(Xor(r, first));
      FeedParity(Shift(Xor(r, first)), bits[1..]);
    }
  }

  /** An error in an odd number of bits leaves the register away from zero. */
  lemma OddErrorDetected(error: seq<bool>)
    requires Odd(error)
    ensures Feed(Zero(), error) != Zero()
  {
    FeedParity(Zero(), error);
    OddFalses(Zero());
  }
}
