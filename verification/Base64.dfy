/** Base64 text (RFC 4648, section 4) as bytes, with a decoder that skips characters outside the alphabet. */
module Base64 {
  import opened Bytes
  import opened Common

  type sextet = n: nat | n < 64

  /** What one character of the text means. */
  datatype Symbol = Six(v: sextet) | Pad | Other

  function Letter(s: Symbol): (c: byte)
    requires !s.Other?
    ensures 43 <= c < 123
  {
    match s
    case Pad => 61
    case Six(v) =>
      if v < 26 then 65 + v else if v < 52 then 71 + v else if v < 62 then v - 4 else if v == 62 then 43 else 47
  }

  function Meaning(c: byte): Symbol {
    if 65 <= c <= 90 then Six(c - 65)
    else if 97 <= c <= 122 then Six(c - 71)
    else if 48 <= c <= 57 then Six(c + 4)
    else if c == 43 then Six(62)
    else if c == 47 then Six(63)
    else if c == 61 then Pad
    else Other
  }

  function Symbols(text: bytes): seq<Symbol> {
    seq(|text|, i requires 0 <= i < |text| => Meaning(text[i]))
  }

  // ----- Encoding -----

  function OneGroup(a: byte): seq<Symbol> {
    [Six(a / 4)] + ([Six(a % 4 * 16)] + ([Pad] + [Pad]))
  }

  function TwoGroups(a: byte, b: byte): seq<Symbol> {
    [Six(a / 4)] + ([Six(a % 4 * 16 + b / 16)] + ([Six(b % 16 * 4)] + [Pad]))
  }

  /** The four groups of three bytes, in front of more. */
  function ThreeGroups(a: byte, b: byte, c: byte, rest: seq<Symbol>): seq<Symbol> {
    [Six(a / 4)] + ([Six(a % 4 * 16 + b / 16)] + ([Six(b % 16 * 4 + c / 64)] + ([Six(c % 64)] + rest)))
  }

  /** The six-bit groups of the data, padded to a multiple of four. */
  function Groups(d: bytes): (symbols: seq<Symbol>)
    ensures forall i :: 0 <= i < |symbols| ==> !symbols[i].Other?
    ensures |symbols| == 4 * ((|d| + 2) / 3)
  {
    if d == [] then []
    else if |d| == 1 then OneGroup(d[0])
    else if |d| == 2 then TwoGroups(d[0], d[1])
    else ThreeGroups(d[0], d[1], d[2], Groups(d[3..]))
  }

  function Encode(d: bytes): bytes {
    var symbols := Groups(d);
    seq(|symbols|, i requires 0 <= i < |symbols| => Letter(symbols[i]))
  }

  lemma LetterMeaning(s: Symbol)
    requires !s.Other?
    ensures Meaning(Letter(s)) == s
  {
  }

  lemma EncodedSymbols(d: bytes)
    ensures Symbols(Encode(d)) == Groups(d)
  {
    forall i | 0 <= i < |Groups(d)|
      ensures Symbols(Encode(d))[i] == Groups(d)[i]
    {
      LetterMeaning(Groups(d)[i]);
    }
  }

  // ----- Decoding -----

  /** Position in the group of four, the bits of it not yet written out, and the padding seen in it. */
  datatype Scan = Scan(quad: nat, left: nat, pads: nat)

  predicate Valid(s: Scan) {
    s.quad < 4 && s.left < (if s.quad == 1 then 64 else if s.quad == 2 then 16 else if s.quad == 3 then 4 else 1)
  }

  /** The scan after a group of value v, and the byte it completes. */
  function Take(s: Scan, v: sextet): (r: (Scan, bytes))
    requires Valid(s)
    ensures Valid(r.0)
  {
    if s.quad == 0 then (Scan(1, v, 0), [])
    else if s.quad == 1 then (Scan(2, v % 16, 0), [s.left * 4 + v / 16])
    else if s.quad == 2 then (Scan(3, v % 4, 0), [s.left * 16 + v / 4])
    else (Scan(0, 0, 0), [s.left * 64 + v])
  }

  function Prepend(out: bytes, rest: Option<bytes>): Option<bytes> {
    match rest case None => None case Some(r) => Some(out + r)
  }

  /** The decoded data, or None for an incomplete last group. */
  function Decode(symbols: seq<Symbol>, s: Scan): Option<bytes>
    requires Valid(s)
    decreases |symbols|
  {
    if symbols == [] then if s.quad == 0 then Some([]) else None
    else
      match symbols[0]
      case Other => Decode(symbols[1..], s)
      case Pad =>
        if s.quad >= 2 && s.quad + s.pads + 1 >= 4 then Some([])
        else Decode(symbols[1..], if s.quad >= 2 then s.(pads := s.pads + 1) else s)
      case Six(v) =>
        var (next, out) := Take(s, v);
        Prepend(out, Decode(symbols[1..], next))
  }

  function B64Decode(text: bytes): Option<bytes> {
    Decode(Symbols(text), Scan(0, 0, 0))
  }

  // ----- Round trip -----

  lemma DecodeStep(symbol: Symbol, rest: seq<Symbol>, s: Scan)
    requires Valid(s)
    ensures symbol.Six? ==>
              Decode([symbol] + rest, s) == Prepend(Take(s, symbol.v).1, Decode(rest, Take(s, symbol.v).0))
    ensures symbol.Pad? ==>
              Decode([symbol] + rest, s) ==
              if s.quad >= 2 && s.quad + s.pads + 1 >= 4 then Some([])
              else Decode(rest, if s.quad >= 2 then s.(pads := s.pads + 1) else s)
  {
    assert ([symbol] + rest)[1..] == rest;
  }

  /** The second six-bit group holds the low bits of one byte and the high bits of the next. */
  lemma Split2(a: byte, b: byte)
    ensures var v := a % 4 * 16 + b / 16;
            v < 64 && v / 16 == a % 4 && v % 16 == b / 16 && a / 4 * 4 + v / 16 == a
  {
    var q, r := a % 4, b / 16;
    assert r < 16;
    assert (q * 16 + r) / 16 == q;
    assert (q * 16 + r) % 16 == r;
    assert a / 4 * 4 + q == a;
  }

  lemma Split3(b: byte, c: byte)
    ensures var w := b % 16 * 4 + c / 64;
            w < 64 && w / 4 == b % 16 && w % 4 == c / 64 && b / 16 * 16 + w / 4 == b && c / 64 * 64 + c % 64 == c
  {
    var q, r := b % 16, c / 64;
    assert r < 4;
    assert (q * 4 + r) / 4 == q;
    assert (q * 4 + r) % 4 == r;
    assert b / 16 * 16 + q == b;
  }

  lemma {:induction false} DecodeOne(a: byte)
    ensures Decode(OneGroup(a), Scan(0, 0, 0)) == Some([a])
  {
    Split2(a, 0);
    var w := a % 4 * 16;
    DecodeStep(Six(a / 4), [Six(w)] + ([Pad] + [Pad]), Scan(0, 0, 0));
    DecodeStep(Six(w), [Pad] + [Pad], Scan(1, a / 4, 0));
    DecodeStep(Pad, [Pad], Scan(2, w % 16, 0));
    DecodeStep(Pad, [], Scan(2, w % 16, 1));
    assert [Pad] + [] == [Pad];
    assert [] + ([a] + []) == [a];
  }

  /** The first two groups of a longer piece. */
  lemma {:induction false} DecodeFirst(a: byte, b: byte, rest: seq<Symbol>)
    ensures Decode([Six(a / 4)] + ([Six(a % 4 * 16 + b / 16)] + rest), Scan(0, 0, 0))
            == Prepend([a], Decode(rest, Scan(2, b / 16, 0)))
  {
    Split2(a, b);
    var v := a % 4 * 16 + b / 16;
    DecodeStep(Six(a / 4), [Six(v)] + rest, Scan(0, 0, 0));
    DecodeStep(Six(v), rest, Scan(1, a / 4, 0));
    if Decode(rest, Scan(2, b / 16, 0)).Some? {
      assert [] + ([a] + Decode(rest, Scan(2, b / 16, 0)).value) == [a] + Decode(rest, Scan(2, b / 16, 0)).value;
    }
  }

  /** The third group, which completes the second byte. */
  lemma {:induction false} DecodeNext(b: byte, c: byte, rest: seq<Symbol>)
    ensures Decode([Six(b % 16 * 4 + c / 64)] + rest, Scan(2, b / 16, 0))
            == Prepend([b], Decode(rest, Scan(3, c / 64, 0)))
  {
    Split3(b, c);
    DecodeStep(Six(b % 16 * 4 + c / 64), rest, Scan(2, b / 16, 0));
  }

  /** The fourth, which completes the third. */
  lemma {:induction false} DecodeLast(c: byte, rest: seq<Symbol>)
    ensures Decode([Six(c % 64)] + rest, Scan(3, c / 64, 0)) == Prepend([c], Decode(rest, Scan(0, 0, 0)))
  {
    DecodeStep(Six(c % 64), rest, Scan(3, c / 64, 0));
  }

  lemma {:induction false} PrependTwice(a: bytes, b: bytes, r: Option<bytes>)
    ensures Prepend(a, Prepend(b, r)) == Prepend(a + b, r)
  {
    if r.Some? {
      assert a + (b + r.value) == (a + b) + r.value;
    }
  }

  lemma {:induction false} DecodePad()
    ensures Decode([Pad], Scan(3, 0, 0)) == Some([])
  {
  }

  lemma {:induction false} DecodeSecond(b: byte)
    ensures Decode([Six(b % 16 * 4)] + [Pad], Scan(2, b / 16, 0)) == Some([b])
  {
    DecodeNext(b, 0, [Pad]);
    DecodePad();
    Neutral([b]);
  }

  lemma {:induction false} DecodeTwo(a: byte, b: byte)
    ensures Decode(TwoGroups(a, b), Scan(0, 0, 0)) == Prepend([a], Some([b]))
  {
    DecodeFirst(a, b, [Six(b % 16 * 4)] + [Pad]);
    DecodeSecond(b);
  }

  lemma {:induction false} DecodeThree(a: byte, b: byte, c: byte, rest: seq<Symbol>)
    ensures Decode(ThreeGroups(a, b, c, rest), Scan(0, 0, 0))
            == Prepend([a] + ([b] + [c]), Decode(rest, Scan(0, 0, 0)))
  {
    var last := [Six(c % 64)] + rest;
    DecodeFirst(a, b, [Six(b % 16 * 4 + c / 64)] + last);
    DecodeNext(b, c, last);
    DecodeLast(c, rest);
    PrependTwice([b], [c], Decode(rest, Scan(0, 0, 0)));
    PrependTwice([a], [b] + [c], Decode(rest, Scan(0, 0, 0)));
  }

  lemma ThreeAndRest(d: bytes)
    requires |d| > 2
    ensures ([d[0]] + ([d[1]] + [d[2]])) + d[3..] == d
  {
  }

  lemma Singles(d: bytes)
    ensures |d| == 1 ==> [d[0]] == d
    ensures |d| == 2 ==> [d[0]] + [d[1]] == d
  {
  }

  lemma {:induction false} DecodeGroups(d: bytes)
    ensures Decode(Groups(d), Scan(0, 0, 0)) == Some(d)
  {
    Singles(d);
    if |d| == 1 {
      DecodeOne(d[0]);
    } else if |d| == 2 {
      DecodeTwo(d[0], d[1]);
    } else if |d| > 2 {
      DecodeGroups(d[3..]);
      DecodeThree(d[0], d[1], d[2], Groups(d[3..]));
      ThreeAndRest(d);
    }
  }

  /** Decoding encoded data gives it back. */
  lemma RoundTrip(d: bytes)
    ensures B64Decode(Encode(d)) == Some(d)
  {
    EncodedSymbols(d);
    DecodeGroups(d);
  }

  // ----- The text, character by character -----

  /** A byte of the data, or zero past its end. */
  function ByteAt(d: bytes, i: nat): byte {
    if i < |d| then d[i] else 0
  }

  /** Six bits of the data, from bit 6 * j on; they lie in two bytes. */
  function SixBits(d: bytes, j: nat): (v: sextet) {
    var i := 3 * (j / 4) + (if j % 4 == 0 then 0 else j % 4 - 1);
    var word := 256 * ByteAt(d, i) + ByteAt(d, i + 1);
    word / (if j % 4 == 0 then 1024 else if j % 4 == 1 then 16 else if j % 4 == 2 then 64 else 256) % 64
  }

  /** The alphabet of RFC 4648 section 4, table 1. */
  function Alphabet(v: sextet): byte {
    if v < 26 then 'A' as int + v
    else if v < 52 then 'a' as int + (v - 26)
    else if v < 62 then '0' as int + (v - 52)
    else if v == 62 then '+' as int
    else '/' as int
  }

  /**
   * Of the text of n bytes, a multiple of four long, the characters that any bit of the data falls into stand for
   * their six bits, and the others are padding.
   */
  lemma {:induction false} EncodedAt(d: bytes, j: nat)
    ensures |Encode(d)| == 4 * ((|d| + 2) / 3)
    ensures j < |Encode(d)| ==> Encode(d)[j] == if 6 * j < 8 * |d| then Alphabet(SixBits(d, j)) else '=' as int
  {
    if j < |Encode(d)| {
      GroupsAt(d, j);
    }
  }

  /** Four symbols in front of others. */
  lemma FourthAndMore(w: Symbol, x: Symbol, y: Symbol, z: Symbol, rest: seq<Symbol>)
    ensures var all := [w] + ([x] + ([y] + ([z] + rest)));
            && |all| == 4 + |rest| && all[0] == w && all[1] == x && all[2] == y && all[3] == z
            && forall k :: 0 <= k < |rest| ==> all[k + 4] == rest[k]
  {
  }

  lemma HighSix(a: byte, b: byte)
    ensures (256 * a + b) / 1024 % 64 == a / 4
  {
    assert (256 * a + b) / 1024 == a / 4;
  }

  lemma MiddleSix(a: byte, b: byte)
    ensures (256 * a + b) / 16 % 64 == a % 4 * 16 + b / 16
  {
    assert (256 * a + b) / 16 == 16 * a + b / 16;
  }

  lemma NextSix(a: byte, b: byte)
    ensures (256 * a + b) / 64 % 64 == a % 16 * 4 + b / 64
  {
    assert (256 * a + b) / 64 == 4 * a + b / 64;
  }

  lemma LowSix(a: byte, b: byte)
    ensures (256 * a + b) / 256 % 64 == a % 64
  {
    assert (256 * a + b) / 256 == a;
  }

  lemma FirstFour(d: bytes)
    ensures SixBits(d, 0) == ByteAt(d, 0) / 4
    ensures SixBits(d, 1) == ByteAt(d, 0) % 4 * 16 + ByteAt(d, 1) / 16
    ensures SixBits(d, 2) == ByteAt(d, 1) % 16 * 4 + ByteAt(d, 2) / 64
    ensures SixBits(d, 3) == ByteAt(d, 2) % 64
  {
    HighSix(ByteAt(d, 0), ByteAt(d, 1));
    MiddleSix(ByteAt(d, 0), ByteAt(d, 1));
    NextSix(ByteAt(d, 1), ByteAt(d, 2));
    LowSix(ByteAt(d, 2), ByteAt(d, 3));
  }

  lemma Later(d: bytes, j: nat)
    requires |d| >= 3 && j >= 4
    ensures SixBits(d, j) == SixBits(d[3..], j - 4)
  {
    assert (j - 4) / 4 == j / 4 - 1 && (j - 4) % 4 == j % 4;
  }

  /** The first four symbols, from the six bits they stand for. */
  lemma {:induction false} FrontAt(d: bytes, j: nat)
    requires d != [] && j < 4
    ensures |Groups(d)| >= 4
    ensures Groups(d)[j] == if 6 * j < 8 * |d| then Six(SixBits(d, j)) else Pad
  {
    FirstFour(d);
    if |d| == 1 {
      FourthAndMore(Six(d[0] / 4), Six(d[0] % 4 * 16), Pad, Pad, []);
      Neutral([Pad]);
    } else if |d| == 2 {
      FourthAndMore(Six(d[0] / 4), Six(d[0] % 4 * 16 + d[1] / 16), Six(d[1] % 16 * 4), Pad, []);
      Neutral([Pad]);
    } else {
      FourthAndMore(Six(d[0] / 4), Six(d[0] % 4 * 16 + d[1] / 16), Six(d[1] % 16 * 4 + d[2] / 64), Six(d[2] % 64),
                    Groups(d[3..]));
    }
  }

  /** The symbols after the first four are those of the rest. */
  lemma {:induction false} BackAt(d: bytes, symbols: seq<Symbol>, rest: seq<Symbol>)
    requires |d| >= 3 && symbols == Groups(d) && rest == Groups(d[3..])
    ensures |symbols| == 4 + |rest| && forall k :: 0 <= k < |rest| ==> symbols[k + 4] == rest[k]
  {
    FourthAndMore(Six(d[0] / 4), Six(d[0] % 4 * 16 + d[1] / 16), Six(d[1] % 16 * 4 + d[2] / 64), Six(d[2] % 64),
                  rest);
  }

  lemma {:induction false} GroupsAt(d: bytes, j: nat)
    requires j < |Groups(d)|
    ensures Groups(d)[j] == if 6 * j < 8 * |d| then Six(SixBits(d, j)) else Pad
    decreases |d|
  {
    if j < 4 {
      FrontAt(d, j);
    } else {
      BackAt(d, Groups(d), Groups(d[3..]));
      GroupsAt(d[3..], j - 4);
      Later(d, j);
      Moved(Groups(d), Groups(d[3..]), j);
    }
  }

  lemma Moved(symbols: seq<Symbol>, rest: seq<Symbol>, j: nat)
    requires 4 <= j < |symbols| == 4 + |rest| && forall k :: 0 <= k < |rest| ==> symbols[k + 4] == rest[k]
    ensures symbols[j] == rest[j - 4]
  {
    assert symbols[j - 4 + 4] == rest[j - 4];
  }
}
