/**
 * crc16_itu_t of tools/usb_rpc_smoke.py, its sixteen-bit word kept as its bits: the nested loops compute the
 * register of module Crc, and the two check bytes of a packet reject the errors that module names.
 */
module Checksum {
  import opened Bytes
  import opened Crc

  /** crc << 1, cut to sixteen bits. */
  function ShiftLeft(crc: Reg): Reg
    requires |crc| == WIDTH
  {
    crc[1..] + [false]
  }

  function Turn(crc: Reg): (r: Reg)
    requires |crc| == WIDTH
    ensures |r| == WIDTH
  {
    if crc[0] then Xor(ShiftLeft(crc), GENERATOR) else ShiftLeft(crc)
  }

  lemma TurnShifts(crc: Reg, n: nat)
    requires |crc| == WIDTH && n > 0
    ensures Shifts(Turn(crc), n - 1) == Shifts(crc, n)
  {
    assert Turn(crc) == Shift(crc);
  }

  lemma ByteFed(r: Reg, b: byte, rest: seq<bool>)
    requires |r| == WIDTH
    ensures Feed(Shifts(Xor(r, Align(Binary(b, 8))), 8), rest) == Feed(r, Binary(b, 8) + rest)
  {
    FeedIsShifts(r, Binary(b, 8));
    FeedConcat(r, Binary(b, 8), rest);
  }

  method Crc16ItuT(data: bytes, seed: Reg) returns (crc: Reg)
    requires |seed| == WIDTH
    ensures crc == Feed(seed, Bits(data))
  {
    crc := seed;
    for i := 0 to |data|
      invariant |crc| == WIDTH && Feed(crc, Bits(data[i..])) == Feed(seed, Bits(data))
    {
      ghost var before := crc;
      var bits := Binary(data[i], 8);
      crc := Xor(crc, Align(bits));
      ghost var target := Shifts(crc, 8);
      for j := 0 to 8
        invariant |crc| == WIDTH && Shifts(crc, 8 - j) == target
      {
        TurnShifts(crc, 8 - j);
        if crc[0] {
          crc := Xor(ShiftLeft(crc), GENERATOR);
        } else {
          crc := ShiftLeft(crc);
        }
      }
      assert data[i..][1..] == data[i + 1..];
      ByteFed(before, data[i], Bits(data[i + 1..]));
    }
  }

  function Sum(data: bytes): (r: Reg)
    ensures |r| == WIDTH
  {
    Feed(Zero(), Bits(data))
  }

  /** struct.pack(">H", crc). */
  function SumBytes(r: Reg): bytes
    requires |r| == WIDTH
  {
    [Value(r[..8]), Value(r[8..])]
  }

  lemma SumBytesBits(r: Reg)
    requires |r| == WIDTH
    ensures Bits(SumBytes(r)) == r
  {
    BinaryOfValue(r[..8]);
    BinaryOfValue(r[8..]);
    assert SumBytes(r)[1..] == [Value(r[8..])];
    assert [Value(r[8..])][1..] == [];
    assert r == r[..8] + r[8..];
  }

  lemma TwoBytesBits(a: bytes, b: bytes)
    requires |a| == 2 && |b| == 2 && Bits(a) == Bits(b)
    ensures a == b
  {
    assert Bits(a) == Binary(a[0], 8) + (Binary(a[1], 8) + Bits(a[2..])) by { assert a[1..][1..] == a[2..]; }
    assert Bits(b) == Binary(b[0], 8) + (Binary(b[1], 8) + Bits(b[2..])) by { assert b[1..][1..] == b[2..]; }
    assert Bits(a)[..8] == Binary(a[0], 8) && Bits(a)[8..16] == Binary(a[1], 8);
    assert Bits(b)[..8] == Binary(b[0], 8) && Bits(b)[8..16] == Binary(b[1], 8);
    assert Power2(8) == 256;
    ValueOfBinary(a[0], 8); ValueOfBinary(a[1], 8); ValueOfBinary(b[0], 8); ValueOfBinary(b[1], 8);
  }

  /** A packet followed by two bytes passes the check exactly when they are its checksum, high byte first. */
  lemma FramePasses(packet: bytes, check: bytes)
    requires |check| == 2
    ensures Sum(packet + check) == Zero() <==> check == SumBytes(Sum(packet))
  {
    BitsConcat(packet, check);
    CheckValue(Bits(packet), Bits(check));
    SumBytesBits(Sum(packet));
    if Bits(check) == Sum(packet) {
      TwoBytesBits(check, SumBytes(Sum(packet)));
    }
  }

  /** The received frame differs from the sent one exactly in the bits set in the error. */
  predicate Differs(sent: bytes, received: bytes, error: seq<bool>) {
    |sent| == |received| && |error| == 8 * |sent| && Bits(received) == Xor(Bits(sent), error)
  }

  /**
   * A frame that passes the check no longer passes it after an error whose set bits lie within sixteen consecutive
   * bits of packet and check value, or after an error in an odd number of bits, at any length.
   */
  lemma ErrorsRejected(sent: bytes, received: bytes, error: seq<bool>)
    requires Sum(sent) == Zero() && Differs(sent, received, error)
    requires Odd(error) || exists k: nat, j: nat :: Within(error, k) && j < |error| && error[j]
    ensures Sum(received) != Zero()
  {
    FeedLinear(Zero(), Zero(), Bits(sent), error);
    assert Xor(Zero(), Zero()) == Zero();
    if Odd(error) {
      OddErrorDetected(error);
    } else {
      var k: nat, j: nat :| Within(error, k) && j < |error| && error[j];
      BurstDetected(error, k, j);
    }
    assert Sum(received) == Xor(Zero(), Feed(Zero(), error));
    assert Xor(Zero(), Feed(Zero(), error)) == Feed(Zero(), error);
  }
}
