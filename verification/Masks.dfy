/** Eight-bit masks as the firmware keeps them, and the sets of bit numbers they stand for. */
module Masks {
  function Bit(i: nat): bv8
    requires i < 8
  {
    if i == 0 then 1 else if i == 1 then 2 else if i == 2 then 4 else if i == 3 then 8
    else if i == 4 then 16 else if i == 5 then 32 else if i == 6 then 64 else 128
  }

  predicate TestBit(m: bv8, i: nat)
    requires i < 8
  {
    m & Bit(i) != 0
  }

  const WIDTH: nat := 8

  function ChannelsBelow(m: bv8, n: nat): set<nat>
    requires n <= WIDTH
  {
    if n == 0 then {} else ChannelsBelow(m, n - 1) + if TestBit(m, n - 1) then {n - 1} else {}
  }

  function Channels(m: bv8): set<nat> {
    ChannelsBelow(m, WIDTH)
  }

  lemma {:induction false} MembersBelow(m: bv8, n: nat)
    requires n <= WIDTH
    ensures forall i: nat :: i in ChannelsBelow(m, n) <==> i < n && TestBit(m, i)
  {
    if n > 0 {
      MembersBelow(m, n - 1);
    }
  }

  lemma Members(m: bv8)
    ensures forall i: nat :: i in Channels(m) <==> i < WIDTH && TestBit(m, i)
  {
    MembersBelow(m, WIDTH);
  }

  lemma Member(m: bv8, i: nat)
    requires i < WIDTH
    ensures i in Channels(m) <==> TestBit(m, i)
  {
    Members(m);
  }

  lemma OneBit(i: nat, j: nat)
    requires i < 8 && j < 8
    ensures TestBit(Bit(i), j) <==> i == j
    ensures Channels(Bit(i)) == {i}
  {
    Members(Bit(i));
    assert forall k: nat :: k < 8 ==> (TestBit(Bit(i), k) <==> i == k);
  }

  lemma OrAt(m: bv8, n: bv8, b: bv8)
    ensures (m | n) & b != 0 <==> m & b != 0 || n & b != 0
  {
  }

  lemma {:induction false} Union(m: bv8, n: bv8)
    ensures Channels(m | n) == Channels(m) + Channels(n)
  {
    Members(m);
    Members(n);
    Members(m | n);
    forall i: nat | i < 8
      ensures TestBit(m | n, i) <==> TestBit(m, i) || TestBit(n, i)
    {
      OrAt(m, n, Bit(i));
    }
  }

  lemma AndNotAt(m: bv8, n: bv8, b: bv8)
    requires n & b == 0 || n & b == b
    ensures (m & !n) & b != 0 <==> m & b != 0 && n & b == 0
  {
  }

  lemma {:induction false} DifferenceAt(m: bv8, n: bv8, i: nat)
    requires i < 8
    ensures TestBit(m & !n, i) <==> TestBit(m, i) && !TestBit(n, i)
  {
    SingleBit(n, i);
    AndNotAt(m, n, Bit(i));
  }

  lemma {:induction false} Difference(m: bv8, n: bv8)
    ensures Channels(m & !n) == Channels(m) - Channels(n)
  {
    Members(m);
    Members(n);
    Members(m & !n);
    forall i: nat | i < 8
      ensures TestBit(m & !n, i) <==> TestBit(m, i) && !TestBit(n, i)
    {
      DifferenceAt(m, n, i);
    }
  }

  lemma {:induction false} SingleBit(n: bv8, i: nat)
    requires i < 8
    ensures n & Bit(i) == 0 || n & Bit(i) == Bit(i)
  {
  }

  lemma AndAt(m: bv8, n: bv8, b: bv8)
    requires n & b == 0 || n & b == b
    ensures (m & n) & b != 0 <==> m & b != 0 && n & b != 0
  {
  }

  lemma {:induction false} IntersectionAt(m: bv8, n: bv8, i: nat)
    requires i < 8
    ensures TestBit(m & n, i) <==> TestBit(m, i) && TestBit(n, i)
  {
    SingleBit(n, i);
    AndAt(m, n, Bit(i));
  }

  lemma {:induction false} Intersection(m: bv8, n: bv8)
    ensures Channels(m & n) == Channels(m) * Channels(n)
  {
    Members(m);
    Members(n);
    Members(m & n);
    forall i: nat | i < 8
      ensures TestBit(m & n, i) <==> TestBit(m, i) && TestBit(n, i)
    {
      IntersectionAt(m, n, i);
    }
  }

  lemma ZeroMask(m: bv8)
    ensures m == 0 <==> Channels(m) == {}
  {
    Members(m);
    if m != 0 {
      assert TestBit(m, 0) || TestBit(m, 1) || TestBit(m, 2) || TestBit(m, 3)
          || TestBit(m, 4) || TestBit(m, 5) || TestBit(m, 6) || TestBit(m, 7);
      var i: nat :| i < 8 && TestBit(m, i);
      assert i in Channels(m);
    }
  }

  /** BIT_MASK(6): the six relay channels. */
  const ALL_CHANNELS: bv8 := 0x3f

  lemma AllChannels()
    ensures Channels(ALL_CHANNELS) == {0, 1, 2, 3, 4, 5}
  {
    Members(ALL_CHANNELS);
    assert forall i: nat :: i < 8 ==> (TestBit(ALL_CHANNELS, i) <==> i < 6);
  }

  /** mask |= BIT(i) */
  function With(m: bv8, i: nat): (r: bv8)
    requires i < 8
    ensures Channels(r) == Channels(m) + {i}
  {
    OneBit(i, i);
    Union(m, Bit(i));
    m | Bit(i)
  }

  /** mask &= ~BIT(i) */
  function Without(m: bv8, i: nat): (r: bv8)
    requires i < 8
    ensures Channels(r) == Channels(m) - {i}
  {
    OneBit(i, i);
    Difference(m, Bit(i));
    m & !Bit(i)
  }

  function Or(m: bv8, n: bv8): (r: bv8)
    ensures Channels(r) == Channels(m) + Channels(n)
  {
    Union(m, n);
    m | n
  }

  function And(m: bv8, n: bv8): (r: bv8)
    ensures Channels(r) == Channels(m) * Channels(n)
  {
    Intersection(m, n);
    m & n
  }

  function AndNot(m: bv8, n: bv8): (r: bv8)
    ensures Channels(r) == Channels(m) - Channels(n)
  {
    Difference(m, n);
    m & !n
  }
}
