/** What the lenient base64 decoder makes of any text at all. */
module Base64Decoding {
  import opened Bytes
  import opened Common
  import opened Base64

  /** The characters of the alphabet stand for their places in it, and the equals sign for padding. */
  lemma {:induction false} MeaningIff(c: byte, k: sextet)
    ensures Meaning(c) == Six(k) <==> c == Alphabet(k)
    ensures Meaning(c) == Pad <==> c == '=' as int
  {
  }

  /** The values of the characters that have one. */
  function Digits(t: seq<Symbol>): seq<sextet> {
    if t == [] then []
    else
      var last := t[|t| - 1];
      Digits(t[..|t| - 1]) + if last.Six? then [last.v] else []
  }

  /** Bits 2 * r to 2 * r + 7 of two groups of six. */
  function Octet(high: nat, low: nat, r: nat): byte {
    (64 * high + low) / (if r == 0 then 16 else if r == 1 then 4 else 1) % 256
  }

  /** The whole bytes in groups of six bits: bit 8 * j is bit 2 * (j % 3) of group j + j / 3. */
  function Octets(v: seq<sextet>): bytes {
    seq(3 * |v| / 4, j requires 0 <= j < 3 * |v| / 4 => Octet(v[j + j / 3], v[j + j / 3 + 1], j % 3))
  }

  /** A padding, and no character of the alphabet since. */
  predicate Padded(t: seq<Symbol>, n: nat)
    requires n <= |t|
  {
    exists j :: 0 <= j < n && t[j].Pad? && Digits(t[..j]) == Digits(t[..n])
  }

  /**
   * Padding ends the text where it completes a group of four: after three characters of it, or after two and a padding
   * since.
   */
  predicate Ends(t: seq<Symbol>, i: nat)
    requires i < |t|
  {
    && t[i].Pad?
    && var read := |Digits(t[..i])|;
       read % 4 == 3 || (read % 4 == 2 && Padded(t, i))
  }

  // ----- Reading on -----

  /** What becomes of the rest of a text after some digits, with a padding since the last of them or none. */
  function Rest(v: seq<sextet>, padded: bool, rest: seq<Symbol>): Option<bytes>
    decreases |rest|
  {
    if rest == [] then if |v| % 4 == 0 then Some(Octets(v)) else None
    else
      match rest[0]
      case Other => Rest(v, padded, rest[1..])
      case Pad =>
        if |v| % 4 == 3 || (|v| % 4 == 2 && padded) then Some(Octets(v)) else Rest(v, true, rest[1..])
      case Six(d) => Rest(v + [d], false, rest[1..])
  }

  /** The bits of the digits beyond the last whole byte. */
  function Over(v: seq<sextet>): nat {
    if |v| % 4 == 0 then 0 else Low(v[|v| - 1], |v| % 4)
  }

  /** The bits of a group that no byte has ended in, the r-th of a quadruple. */
  function Low(last: sextet, r: nat): nat {
    if r == 1 then last else if r == 2 then last % 16 else last % 4
  }

  predicate Follows(s: Scan, v: seq<sextet>, padded: bool) {
    Valid(s) && s.quad == |v| % 4 && s.left == Over(v) && (s.quad == 2 ==> (s.pads > 0 <==> padded))
  }

  lemma Wholes(m: nat, r: nat)
    requires r < 4
    ensures 3 * (4 * m + r) / 4 == 3 * m + (if r < 2 then 0 else r - 1)
    ensures r < 3 ==> 3 * m + r + (3 * m + r) / 3 == 4 * m + r && (3 * m + r) % 3 == r
  {
  }

  /** No byte ends in the first group of a quadruple, one in each of the others. */
  lemma {:induction false} OctetsGrow(v: seq<sextet>, d: sextet, m: nat, r: nat)
    requires |v| == 4 * m + r && r < 4
    ensures Octets(v + [d]) == if r == 0 then Octets(v) else Octets(v) + [Octet(v[|v| - 1], d, r - 1)]
  {
    Wholes(m, r);
    if r == 0 {
      Wholes(m, 1);
    } else {
      Wholes(m, r - 1);
      if r == 3 {
        Wholes(m + 1, 0);
      } else {
        Wholes(m, r + 1);
      }
    }
  }

  /** What is left over of the bits goes on as the scan says. */
  lemma {:induction false} OverGrows(v: seq<sextet>, d: sextet, w: seq<sextet>)
    requires w == v + [d]
    ensures var s := Scan(|v| % 4, Over(v), 0);
            Valid(s) && Take(s, d).0.left == Over(w) && Take(s, d).0.quad == |w| % 4
  {
    assert w[|w| - 1] == d && |w| == |v| + 1;
  }

  lemma {:induction false} OneMoreDigit(v: seq<sextet>, d: sextet, w: seq<sextet>)
    requires w == v + [d]
    ensures var s := Scan(|v| % 4, Over(v), 0); Valid(s) && Octets(w) == Octets(v) + Take(s, d).1
  {
    OverGrows(v, d, w);
    OctetsGrow(v, d, |v| / 4, |v| % 4);
    if |v| % 4 != 0 {
      LastOctet(v[|v| - 1], d, |v| % 4);
    } else {
      Neutral(Octets(v));
    }
  }

  lemma SecondOfFour(last: nat, d: nat, high: nat, low: nat)
    requires d == 16 * high + low && last < 64 && high < 4 && low < 16
    ensures Octet(last, d, 0) == 4 * last + high
  {
  }

  lemma ThirdOfFour(last: nat, d: nat, top: nat, rest: nat, high: nat, low: nat)
    requires last == 16 * top + rest && d == 4 * high + low && rest < 16 && high < 16 && low < 4
    ensures Octet(last, d, 1) == 16 * rest + high
  {
    Quarter(64 * last + d, 256 * top + (16 * rest + high), low);
    LowByte(256 * top + (16 * rest + high), top, 16 * rest + high);
  }

  lemma Quarter(n: nat, q: nat, low: nat)
    requires n == 4 * q + low && low < 4
    ensures n / 4 == q
  {
  }

  lemma LowByte(n: nat, top: nat, low: nat)
    requires n == 256 * top + low && low < 256
    ensures n % 256 == low
  {
  }

  lemma LastOfFour(last: nat, d: nat, top: nat, rest: nat)
    requires last == 4 * top + rest && rest < 4 && d < 64
    ensures Octet(last, d, 2) == 64 * rest + d
  {
    LowByte(64 * last + d, top, 64 * rest + d);
  }

  lemma InParts(n: nat)
    ensures n == 16 * (n / 16) + n % 16 && n % 16 < 16 && n == 4 * (n / 4) + n % 4 && n % 4 < 4
    ensures n < 64 ==> n / 16 < 4 && n / 4 < 16
  {
  }

  /** The byte that one more group completes is the one the decoder writes. */
  lemma {:induction false} LastOctet(last: sextet, d: sextet, r: nat)
    requires 1 <= r < 4
    ensures var s := Scan(r, Low(last, r), 0); Valid(s) && Take(s, d).1 == [Octet(last, d, r - 1)]
  {
    InParts(last);
    InParts(d);
    if r == 1 {
      SecondOfFour(last, d, d / 16, d % 16);
    } else if r == 2 {
      ThirdOfFour(last, d, last / 16, last % 16, d / 4, d % 4);
    } else {
      LastOfFour(last, d, last / 4, last % 4);
    }
  }

  lemma {:induction false} DecodeIsRest(v: seq<sextet>, padded: bool, rest: seq<Symbol>, s: Scan)
    requires Follows(s, v, padded)
    ensures Prepend(Octets(v), Decode(rest, s)) == Rest(v, padded, rest)
    decreases |rest|
  {
    if rest == [] {
      Neutral(Octets(v));
    } else {
      match rest[0]
      case Other => DecodeIsRest(v, padded, rest[1..], s);
      case Pad =>
        if s.quad == 3 || (s.quad == 2 && padded) {
          Neutral(Octets(v));
        } else {
          DecodeIsRest(v, true, rest[1..], if s.quad >= 2 then s.(pads := s.pads + 1) else s);
        }
      case Six(d) =>
        OverGrows(v, d, v + [d]);
        OneMoreDigit(v, d, v + [d]);
        var (next, out) := Take(s, d);
        DecodeIsRest(v + [d], false, rest[1..], next);
        PrependTwice(Octets(v), out, Decode(rest[1..], next));
    }
  }

  // ----- Where it ends -----

  lemma {:induction false} DigitsNext(t: seq<Symbol>, n: nat)
    requires n < |t|
    ensures Digits(t[..n + 1]) == Digits(t[..n]) + if t[n].Six? then [t[n].v] else []
  {
    assert t[..n + 1][..n] == t[..n];
  }

  lemma {:induction false} DigitsGrow(t: seq<Symbol>, m: nat, n: nat)
    requires m <= n <= |t|
    ensures |Digits(t[..m])| <= |Digits(t[..n])|
    decreases n - m
  {
    if m < n {
      DigitsNext(t, n - 1);
      DigitsGrow(t, m, n - 1);
    }
  }

  lemma {:induction false} PaddedNext(t: seq<Symbol>, n: nat)
    requires n < |t|
    ensures Padded(t, n + 1) <==> t[n].Pad? || (t[n].Other? && Padded(t, n))
  {
    DigitsNext(t, n);
    if t[n].Six? {
      forall j | 0 <= j <= n
        ensures Digits(t[..j]) != Digits(t[..n + 1])
      {
        DigitsGrow(t, j, n);
      }
    }
  }

  /** Up to a place before which no padding ends the text, what is read is what the rest of it comes to. */
  lemma {:induction false} ReadOn(t: seq<Symbol>, n: nat)
    requires n <= |t| && forall j :: 0 <= j < n ==> !Ends(t, j)
    ensures Rest([], false, t) == Rest(Digits(t[..n]), Padded(t, n), t[n..])
    decreases n
  {
    if n == 0 {
      assert t[0..] == t && t[..0] == [];
    } else {
      ReadOn(t, n - 1);
      DigitsNext(t, n - 1);
      PaddedNext(t, n - 1);
      assert t[n - 1..][0] == t[n - 1] && t[n - 1..][1..] == t[n..];
      assert !Ends(t, n - 1);
      Neutral(Digits(t[..n - 1]));
    }
  }

  /**
   * The decoder passes over everything but the alphabet and the padding. It gives the whole bytes of the characters
   * before the first padding that ends the text; without one, of all characters, if these are a multiple of four.
   */
  lemma {:induction false} DecodedIs(text: bytes)
    ensures var t := Symbols(text);
            && (forall i :: 0 <= i < |t| && Ends(t, i) && (forall j :: 0 <= j < i ==> !Ends(t, j)) ==>
                  B64Decode(text) == Some(Octets(Digits(t[..i]))))
            && ((forall i :: 0 <= i < |t| ==> !Ends(t, i)) ==>
                  B64Decode(text) == if |Digits(t)| % 4 == 0 then Some(Octets(Digits(t))) else None)
  {
    var t := Symbols(text);
    DecodeIsRest([], false, t, Scan(0, 0, 0));
    NothingBefore(Decode(t, Scan(0, 0, 0)));
    forall i | 0 <= i < |t| && Ends(t, i) && (forall j :: 0 <= j < i ==> !Ends(t, j))
      ensures B64Decode(text) == Some(Octets(Digits(t[..i])))
    {
      ReadOn(t, i);
    }
    if forall i :: 0 <= i < |t| ==> !Ends(t, i) {
      ReadOn(t, |t|);
      assert t[..|t|] == t;
    }
  }

  lemma NothingBefore(r: Option<bytes>)
    ensures Prepend(Octets([]), r) == r
  {
    assert Octets([]) == [];
    if r.Some? {
      Neutral(r.value);
    }
  }
}
