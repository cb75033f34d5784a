/** Well-formed UTF-8 (RFC 3629 section 4), which Python's strict codec reads and writes. */
module Utf8 {
  import opened Bytes
  import opened Common

  /** Code points other than surrogates. */
  predicate Scalar(n: nat) {
    n < 0x110000 && !(0xd800 <= n < 0xe000)
  }

  function Units(n: nat): (b: bytes)
    requires Scalar(n)
    ensures 1 <= |b| <= 4
  {
    if n < 0x80 then [n]
    else if n < 0x800 then [0xc0 + n / 64, 0x80 + n % 64]
    else if n < 0x10000 then [0xe0 + n / 4096, 0x80 + n / 64 % 64, 0x80 + n % 64]
    else [0xf0 + n / 262144, 0x80 + n / 4096 % 64, 0x80 + n / 64 % 64, 0x80 + n % 64]
  }

  predicate IsTail(b: byte) {
    0x80 <= b < 0xc0
  }

  /** How many bytes the well-formed sequence at the front takes; 0 when there is none. */
  function Lead(b: bytes): (k: nat)
    ensures k <= |b|
  {
    if b == [] then 0
    else if b[0] < 0x80 then 1
    else if |b| < 2 || !IsTail(b[1]) then 0
    else if 0xc2 <= b[0] < 0xe0 then 2
    else if |b| < 3 || !IsTail(b[2]) then 0
    else if 0xe0 <= b[0] < 0xf0 then
      if (b[0] == 0xe0 && b[1] < 0xa0) || (b[0] == 0xed && b[1] >= 0xa0) then 0 else 3
    else if |b| < 4 || !IsTail(b[3]) then 0
    else if 0xf0 <= b[0] < 0xf5 then
      if (b[0] == 0xf0 && b[1] < 0x90) || (b[0] == 0xf4 && b[1] >= 0x90) then 0 else 4
    else 0
  }

  predicate WellFormed(b: bytes)
    decreases |b|
  {
    b == [] || (Lead(b) > 0 && WellFormed(b[Lead(b)..]))
  }

  lemma LeadOfThree(n: nat, rest: bytes)
    requires Scalar(n) && 0x800 <= n < 0x10000
    ensures Lead(Units(n) + rest) == 3
  {
    var b := Units(n) + rest;
    assert b[0] == 0xe0 + n / 4096 && b[1] == 0x80 + n / 64 % 64 && b[2] == 0x80 + n % 64;
  }

  lemma LeadOfFour(n: nat, rest: bytes)
    requires Scalar(n) && 0x10000 <= n
    ensures Lead(Units(n) + rest) == 4
  {
    var b := Units(n) + rest;
    assert b[0] == 0xf0 + n / 262144 && b[1] == 0x80 + n / 4096 % 64;
    assert b[2] == 0x80 + n / 64 % 64 && b[3] == 0x80 + n % 64;
  }

  lemma LeadOfUnits(n: nat, rest: bytes)
    requires Scalar(n)
    ensures var b := Units(n) + rest; Lead(b) == |Units(n)| && b[Lead(b)..] == rest
  {
    var b := Units(n) + rest;
    if n < 0x80 {
      assert b[0] == n;
    } else if n < 0x800 {
      assert b[0] == 0xc0 + n / 64 && b[1] == 0x80 + n % 64;
    } else if n < 0x10000 {
      LeadOfThree(n, rest);
    } else {
      LeadOfFour(n, rest);
    }
  }

  lemma ThreeUnits(lead: byte, x: byte, y: byte) returns (n: nat)
    requires Lead([lead, x, y]) == 3
    ensures Scalar(n) && Units(n) == [lead, x, y]
  {
    var h: int, m: int, l: int := lead - 0xe0, x - 0x80, y - 0x80;
    n := h * 4096 + m * 64 + l;
    assert n / 64 == h * 64 + m && n % 64 == l;
    assert n / 4096 == h && n / 64 % 64 == m;
  }

  lemma FourUnits(lead: byte, x: byte, y: byte, z: byte) returns (n: nat)
    requires Lead([lead, x, y, z]) == 4
    ensures Scalar(n) && Units(n) == [lead, x, y, z]
  {
    var h: int, i: int, m: int, l: int := lead - 0xf0, x - 0x80, y - 0x80, z - 0x80;
    n := h * 262144 + i * 4096 + m * 64 + l;
    assert n / 64 == h * 4096 + i * 64 + m && n % 64 == l;
    assert n / 4096 == h * 64 + i && n / 64 % 64 == m;
    assert n / 262144 == h && n / 4096 % 64 == i;
  }

  lemma UnitsOfLead(b: bytes) returns (n: nat)
    requires Lead(b) > 0
    ensures Scalar(n) && b == Units(n) + b[Lead(b)..]
  {
    var k := Lead(b);
    if k == 1 {
      n := b[0];
    } else if k == 2 {
      var h: int, l: int := b[0] - 0xc0, b[1] - 0x80;
      n := h * 64 + l;
    } else if k == 3 {
      n := ThreeUnits(b[0], b[1], b[2]);
    } else {
      n := FourUnits(b[0], b[1], b[2], b[3]);
    }
    assert b[..k] == Units(n);
  }

  function Encoded(code: seq<nat>): bytes
    requires forall i :: 0 <= i < |code| ==> Scalar(code[i])
  {
    if code == [] then [] else Units(code[0]) + Encoded(code[1..])
  }

  ghost predicate IsEncoded(b: bytes) {
    exists code: seq<nat> :: (forall i :: 0 <= i < |code| ==> Scalar(code[i])) && b == Encoded(code)
  }

  lemma {:induction false} EncodedWellFormed(code: seq<nat>)
    requires forall i :: 0 <= i < |code| ==> Scalar(code[i])
    ensures WellFormed(Encoded(code))
  {
    if code != [] {
      LeadOfUnits(code[0], Encoded(code[1..]));
      EncodedWellFormed(code[1..]);
    }
  }

  lemma {:induction false} Decoded(b: bytes) returns (code: seq<nat>)
    requires WellFormed(b)
    ensures (forall i :: 0 <= i < |code| ==> Scalar(code[i])) && b == Encoded(code)
    decreases |b|
  {
    if b == [] {
      code := [];
    } else {
      var n := UnitsOfLead(b);
      var more := Decoded(b[Lead(b)..]);
      code := [n] + more;
      AfterFirst(n, more);
    }
  }

  /** The bytes accepted are exactly the encodings of sequences of scalar values. */
  lemma WellFormedIff(b: bytes)
    ensures WellFormed(b) <==> IsEncoded(b)
  {
    if WellFormed(b) {
      var code := Decoded(b);
    }
    if IsEncoded(b) {
      var code: seq<nat> :| (forall i :: 0 <= i < |code| ==> Scalar(code[i])) && b == Encoded(code);
      EncodedWellFormed(code);
    }
  }

  predicate Between(b: bytes, i: nat, low: nat, high: nat) {
    i < |b| && low <= b[i] <= high
  }

  /** The bytes start with a character of the grammar in RFC 3629 section 4, k bytes long. */
  predicate Starts(b: bytes, k: nat) {
    || (k == 1 && Between(b, 0, 0x00, 0x7f))
    || (k == 2 && Between(b, 0, 0xc2, 0xdf) && Between(b, 1, 0x80, 0xbf))
    || (k == 3 && Between(b, 2, 0x80, 0xbf) &&
        (|| (Between(b, 0, 0xe0, 0xe0) && Between(b, 1, 0xa0, 0xbf))
         || (Between(b, 0, 0xe1, 0xec) && Between(b, 1, 0x80, 0xbf))
         || (Between(b, 0, 0xed, 0xed) && Between(b, 1, 0x80, 0x9f))
         || (Between(b, 0, 0xee, 0xef) && Between(b, 1, 0x80, 0xbf))))
    || (k == 4 && Between(b, 2, 0x80, 0xbf) && Between(b, 3, 0x80, 0xbf) &&
        (|| (Between(b, 0, 0xf0, 0xf0) && Between(b, 1, 0x90, 0xbf))
         || (Between(b, 0, 0xf1, 0xf3) && Between(b, 1, 0x80, 0xbf))
         || (Between(b, 0, 0xf4, 0xf4) && Between(b, 1, 0x80, 0x8f))))
  }

  /** The codec reads a character of k bytes exactly where the grammar has one. */
  lemma LeadIff(b: bytes, k: nat)
    ensures k > 0 ==> (Lead(b) == k <==> Starts(b, k))
  {
  }
}
