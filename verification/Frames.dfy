/**
 * SMP serial framing of tools/usb_rpc_smoke.py: a packet travels as base64 lines, one start line and any number of
 * continuation lines, and the reader reassembles it among other lines.
 */
module Frames {
  import opened Bytes
  import opened Common
  import Base64
  import Crc
  import opened Checksum

  const START_MARK: bytes := [0x06, 0x09]
  const FRAG_MARK: bytes := [0x04, 0x14]
  const NEWLINE: bytes := [10]

  datatype Error = Timeout | MissingLength | BadBase64 | TooLong | BadCrc | LengthField

  // ----- Lines -----

  predicate IsSpace(c: byte) {
    9 <= c <= 13 || c == 32
  }

  function StripLeft(s: bytes): bytes {
    if s != [] && IsSpace(s[0]) then StripLeft(s[1..]) else s
  }

  function StripRight(s: bytes): bytes {
    if s != [] && IsSpace(s[|s| - 1]) then StripRight(s[..|s| - 1]) else s
  }

  function Strip(s: bytes): bytes {
    StripRight(StripLeft(s))
  }

  /** The line that carries a piece of a frame under a marker. */
  function Line(mark: bytes, piece: bytes): bytes {
    mark + Base64.Encode(piece) + NEWLINE
  }

  function Frame(packet: bytes): bytes {
    Be(|packet| + 2, 2) + packet + SumBytes(Sum(packet))
  }

  method SerialFrame(packet: bytes) returns (r: Result<bytes, Error>)
    ensures r == if |packet| + 2 < 65536 then Ok(Line(START_MARK, Frame(packet))) else Err(LengthField)
    ensures |packet| + 2 < 65536 ==>
              r == Ok([6, 9] + Base64.Encode(Be(|packet| + 2, 2) + packet + SumBytes(Sum(packet))) + [10])
  {
    var crc := Crc16ItuT(packet, Crc.Zero());
    if |packet| + 2 >= 65536 {
      return Err(LengthField);
    }
    var raw := Be(|packet| + 2, 2) + packet + SumBytes(crc);
    return Ok(START_MARK + Base64.Encode(raw) + NEWLINE);
  }

  // ----- The reader -----

  /** packet_len and decoded. */
  datatype Reader = Reader(length: Option<nat>, decoded: bytes)

  const FRESH: Reader := Reader(None, [])

  datatype Outcome = Continue(reader: Reader) | Return(packet: bytes) | Raise(error: Error)

  /** What follows once a line has been taken in. */
  function Check(r: Reader): Outcome {
    if r.length == None || |r.decoded| < r.length.value then Continue(r)
    else if |r.decoded| != r.length.value then Raise(TooLong)
    else if Sum(r.decoded) != Crc.Zero() then Raise(BadCrc)
    else Return(if |r.decoded| >= 2 then r.decoded[..|r.decoded| - 2] else [])
  }

  function Take(r: Reader, line: bytes): Outcome {
    if line == [] then Raise(Timeout)
    else
      var s := Strip(line);
      if |s| < 2 || (s[..2] != START_MARK && s[..2] != FRAG_MARK) then Continue(r)
      else
        match Base64.B64Decode(s[2..])
        case None => Raise(BadBase64)
        case Some(fragment) =>
          if s[..2] == START_MARK then
            if |fragment| < 2 then Raise(MissingLength)
            else Check(Reader(Some(FromBe(fragment[..2])), fragment[2..]))
          else Check(r.(decoded := r.decoded + fragment))
  }

  function Read(r: Reader, lines: seq<bytes>): Result<bytes, Error>
    decreases |lines|
  {
    if lines == [] then Err(Timeout)
    else
      match Take(r, lines[0])
      case Continue(next) => Read(next, lines[1..])
      case Return(packet) => Ok(packet)
      case Raise(error) => Err(error)
  }

  method DecodedFrames(lines: seq<bytes>) returns (r: Result<bytes, Error>)
    ensures r == Read(FRESH, lines)
  {
    var packetLen: Option<nat> := None;
    var decoded: bytes := [];
    for i := 0 to |lines|
      invariant Read(Reader(packetLen, decoded), lines[i..]) == Read(FRESH, lines)
    {
      assert lines[i..][1..] == lines[i + 1..];
      if lines[i] == [] {
        return Err(Timeout);
      }
      var line := Strip(lines[i]);
      if |line| < 2 {
        continue;
      }
      var marker := line[..2];
      if marker != START_MARK && marker != FRAG_MARK {
        continue;
      }
      var decodedText := Base64.B64Decode(line[2..]);
      if decodedText.None? {
        return Err(BadBase64);
      }
      var fragment := decodedText.value;
      if marker == START_MARK {
        if |fragment| < 2 {
          return Err(MissingLength);
        }
        packetLen := Some(FromBe(fragment[..2]));
        decoded := fragment[2..];
      } else {
        decoded := decoded + fragment;
      }
      if packetLen.Some? && |decoded| >= packetLen.value {
        if |decoded| != packetLen.value {
          return Err(TooLong);
        }
        var crc := Crc16ItuT(decoded, Crc.Zero());
        if crc != Crc.Zero() {
          return Err(BadCrc);
        }
        return Ok(if |decoded| >= 2 then decoded[..|decoded| - 2] else []);
      }
    }
    return Err(Timeout);
  }

  /** A packet is returned exactly when the announced length is there and ends in the packet's check value. */
  lemma ReturnedIffChecked(r: Reader, packet: bytes)
    ensures Check(r) == Return(packet) <==>
            && r.length == Some(|r.decoded|)
            && if |r.decoded| >= 2 then r.decoded == packet + SumBytes(Sum(packet))
               else packet == [] && Sum(r.decoded) == Crc.Zero()
  {
    var n := |r.decoded|;
    if n >= 2 {
      assert r.decoded == r.decoded[..n - 2] + r.decoded[n - 2..];
      FramePasses(r.decoded[..n - 2], r.decoded[n - 2..]);
      if r.decoded == packet + SumBytes(Sum(packet)) {
        assert r.decoded[..n - 2] == packet && r.decoded[n - 2..] == SumBytes(Sum(packet));
      }
    }
  }

  /** What else becomes of the bytes taken in so far. */
  lemma CheckIs(r: Reader)
    ensures Check(r).Continue? <==> r.length == None || |r.decoded| < r.length.value
    ensures Check(r).Continue? ==> Check(r).reader == r
    ensures Check(r) == Raise(TooLong) <==> r.length != None && |r.decoded| > r.length.value
    ensures Check(r) == Raise(BadCrc) <==> r.length == Some(|r.decoded|) && Sum(r.decoded) != Crc.Zero()
    ensures Check(r).Raise? ==> Check(r).error == TooLong || Check(r).error == BadCrc
  {
  }

  predicate Spaces(s: bytes) {
    forall i :: 0 <= i < |s| ==> s[i] == 32 || 9 <= s[i] <= 13
  }

  lemma SpacesConcat(a: bytes, b: bytes)
    requires Spaces(a) && Spaces(b)
    ensures Spaces(a + b)
  {
  }

  lemma {:induction false} LeftStripped(s: bytes) returns (before: bytes)
    ensures Spaces(before) && s == before + StripLeft(s)
    ensures StripLeft(s) != [] ==> !(StripLeft(s)[0] == 32 || 9 <= StripLeft(s)[0] <= 13)
  {
    if s != [] && IsSpace(s[0]) {
      var more := LeftStripped(s[1..]);
      before := [s[0]] + more;
      SpacesConcat([s[0]], more);
      HeadAndRest(s);
      Associate([s[0]], more, StripLeft(s[1..]));
    } else {
      before := [];
      Neutral(s);
    }
  }

  lemma LastAndRest(s: bytes)
    requires s != []
    ensures s == s[..|s| - 1] + [s[|s| - 1]]
  {
  }

  lemma {:induction false} RightStripped(s: bytes) returns (after: bytes)
    ensures Spaces(after) && s == StripRight(s) + after
    ensures var t := StripRight(s); t != [] ==> !(t[|t| - 1] == 32 || 9 <= t[|t| - 1] <= 13)
    decreases |s|
  {
    if s != [] && IsSpace(s[|s| - 1]) {
      var front, last := s[..|s| - 1], [s[|s| - 1]];
      var more := RightStripped(front);
      after := more + last;
      SpacesConcat(more, last);
      LastAndRest(s);
      Associate(StripRight(front), more, last);
    } else {
      after := [];
      Neutral(s);
    }
  }

  /** A stripped line is the line without the spaces around it, and has none at either end. */
  lemma {:induction false} StripIs(s: bytes) returns (before: bytes, after: bytes)
    ensures Spaces(before) && Spaces(after) && s == before + Strip(s) + after
    ensures var t := Strip(s);
            t != [] ==> !(t[0] == 32 || 9 <= t[0] <= 13) && !(t[|t| - 1] == 32 || 9 <= t[|t| - 1] <= 13)
  {
    before := LeftStripped(s);
    after := RightStripped(StripLeft(s));
    SameFirst(StripLeft(s), Strip(s), after);
    Associate(before, Strip(s), after);
  }

  lemma SameFirst(s: bytes, t: bytes, after: bytes)
    requires s == t + after
    ensures t != [] ==> s != [] && s[0] == t[0]
  {
  }

  /** What the reader does with any line whatever. */
  lemma TakeIs(r: Reader, line: bytes)
    ensures var s := Strip(line);
            var text := if |s| >= 2 then Base64.B64Decode(s[2..]) else None;
            Take(r, line) ==
            if line == [] then Raise(Timeout)
            else if |s| >= 2 && s[0] == 6 && s[1] == 9 then
              match text
              case None => Raise(BadBase64)
              case Some(b) =>
                if |b| < 2 then Raise(MissingLength) else Check(Reader(Some(FromBe(b[..2])), b[2..]))
            else if |s| >= 2 && s[0] == 4 && s[1] == 20 then
              match text case None => Raise(BadBase64) case Some(b) => Check(r.(decoded := r.decoded + b))
            else Continue(r)
  {
    var s := Strip(line);
    if |s| >= 2 {
      assert s[..2] == [s[0], s[1]];
    }
  }

  // ----- What a line means to the reader -----

  lemma StripMarked(mark: bytes, text: bytes)
    requires |mark| == 2 && !IsSpace(mark[0]) && (text == [] ==> !IsSpace(mark[1]))
    requires forall i :: 0 <= i < |text| ==> !IsSpace(text[i])
    ensures Strip(mark + text + NEWLINE) == mark + text
  {
    var s := mark + text + NEWLINE;
    assert StripLeft(s) == s;
    assert s[..|s| - 1] == mark + text;
    assert s[|s| - 1] == 10;
    var t := mark + text;
    assert !IsSpace(t[|t| - 1]) by {
      if text != [] {
        assert t[|t| - 1] == text[|text| - 1];
      }
    }
    assert StripRight(s) == StripRight(t) == t;
  }

  /** The line written for a piece under either marker; a start marker without text loses its second byte. */
  lemma Stripped(mark: bytes, piece: bytes)
    requires mark == START_MARK || mark == FRAG_MARK
    ensures Strip(Line(mark, piece)) == if mark == START_MARK && piece == [] then [0x06]
                                        else mark + Base64.Encode(piece)
  {
    var text := Base64.Encode(piece);
    assert |text| == |Base64.Groups(piece)|;
    if mark == START_MARK && piece == [] {
      StrippedEmptyStart();
    } else {
      StripMarked(mark, text);
    }
  }

  lemma StrippedEmptyStart()
    ensures Strip(Line(START_MARK, [])) == [0x06]
  {
    var s := Line(START_MARK, []);
    assert s == [0x06, 0x09, 10];
    assert s[..2] == [0x06, 0x09];
    assert s[..2][..1] == [0x06];
    assert StripRight([0x06]) == [0x06];
    assert StripRight([0x06, 0x09]) == [0x06] by { assert [0x06, 0x09][..1] == [0x06]; }
  }

  /** What every line that is written for a piece does to every reader. */
  lemma TakeLine(r: Reader, mark: bytes, piece: bytes)
    requires mark == [6, 9] || mark == [4, 20]
    ensures Take(r, mark + Base64.Encode(piece) + [10]) ==
            if mark == [4, 20] then Check(r.(decoded := r.decoded + piece))
            else if piece == [] then Continue(r)
            else if |piece| == 1 then Raise(MissingLength)
            else Check(Reader(Some(FromBe(piece[..2])), piece[2..]))
  {
    Stripped(mark, piece);
    Base64.RoundTrip(piece);
    if mark == FRAG_MARK || piece != [] {
      var s := Strip(Line(mark, piece));
      assert s[..2] == mark && s[2..] == Base64.Encode(piece);
    }
  }

  /** Of the start lines too short for a length, the one without any text is skipped and no other. */
  lemma ShortStartReportedIff(r: Reader, piece: bytes)
    requires |piece| < 2
    ensures Take(r, Line(START_MARK, piece)) == Raise(MissingLength) <==> piece != []
    ensures Take(r, Line(START_MARK, piece)) == Continue(r) <==> piece == []
  {
    TakeLine(r, START_MARK, piece);
  }

  // ----- Reassembly -----

  /** A line that the reader passes over. */
  predicate Noise(line: bytes) {
    line != [] &&
    var s := Strip(line);
    |s| < 2 || (s[..2] != START_MARK && s[..2] != FRAG_MARK)
  }

  /** The lines carry the pieces as continuations, in order, with noise in between. */
  predicate Carries(lines: seq<bytes>, pieces: seq<bytes>) {
    if lines == [] then pieces == []
    else
      || (Noise(lines[0]) && Carries(lines[1..], pieces))
      || (pieces != [] && lines[0] == Line(FRAG_MARK, pieces[0]) && Carries(lines[1..], pieces[1..]))
  }

  function Join(pieces: seq<bytes>): bytes {
    if pieces == [] then [] else pieces[0] + Join(pieces[1..])
  }

  /** What the reader makes of the bytes after the length, once they are all there. */
  function Judge(body: bytes): Result<bytes, Error>
    requires |body| >= 2
  {
    if Sum(body) == Crc.Zero() then Ok(body[..|body| - 2]) else Err(BadCrc)
  }

  /** A reader that still misses the bytes the lines carry, and no more, ends up with the whole body. */
  lemma {:induction false} Reassemble(r: Reader, lines: seq<bytes>, pieces: seq<bytes>, body: bytes)
    requires Carries(lines, pieces) && r.length == Some(|body|) && r.decoded + Join(pieces) == body
    requires |r.decoded| < |body| && |body| >= 2
    ensures Read(r, lines) == Judge(body)
    decreases |lines|
  {
    assert |r.decoded| + |Join(pieces)| == |body|;
    if lines == [] {
    } else if Noise(lines[0]) && Carries(lines[1..], pieces) {
      Reassemble(r, lines[1..], pieces, body);
    } else {
      TakeLine(r, FRAG_MARK, pieces[0]);
      var next := r.(decoded := r.decoded + pieces[0]);
      assert next.decoded + Join(pieces[1..]) == r.decoded + Join(pieces);
      if |next.decoded| < |body| {
        Reassemble(next, lines[1..], pieces[1..], body);
      } else {
        assert Join(pieces[1..]) == [];
        assert next.decoded == body;
      }
    }
  }

  /** A line the reader survives without having started a frame: noise, or a continuation that decodes. */
  predicate Orphan(line: bytes) {
    Noise(line) ||
    (line != [] && var s := Strip(line); |s| >= 2 && s[..2] == FRAG_MARK && Base64.B64Decode(s[2..]).Some?)
  }

  lemma {:induction false} SkipOrphans(r: Reader, before: seq<bytes>, rest: seq<bytes>) returns (next: Reader)
    requires r.length == None && forall i :: 0 <= i < |before| ==> Orphan(before[i])
    ensures next.length == None && Read(r, before + rest) == Read(next, rest)
    decreases |before|
  {
    if before == [] {
      assert before + rest == rest;
      next := r;
    } else {
      assert Take(r, before[0]).Continue? && Take(r, before[0]).reader.length == None;
      assert (before + rest)[1..] == before[1..] + rest;
      next := SkipOrphans(Take(r, before[0]).reader, before[1..], rest);
    }
  }

  lemma FrameParts(packet: bytes)
    requires |packet| + 2 < 65536
    ensures var body := packet + SumBytes(Sum(packet));
            && |body| == |packet| + 2 && body[..|packet|] == packet
            && Frame(packet)[2..] == body && FromBe(Frame(packet)[..2]) == |body|
            && Sum(body) == Crc.Zero()
  {
    var body := packet + SumBytes(Sum(packet));
    assert Frame(packet) == Be(|packet| + 2, 2) + body;
    assert Frame(packet)[..2] == Be(|packet| + 2, 2);
    assert Power256(2) == 65536;
    FromBeOfBe(|packet| + 2, 2);
    FramePasses(packet, SumBytes(Sum(packet)));
  }

  /** A body that starts on the first line is judged as a whole, from any state of the reader. */
  lemma {:induction false} BodyRead(r: Reader, body: bytes, pieces: seq<bytes>, tail: seq<bytes>)
    requires 2 <= |body| < 65536 && pieces != [] && |pieces[0]| >= 2 && Join(pieces) == Be(|body|, 2) + body
    requires Carries(tail, pieces[1..])
    ensures Read(r, [Line(START_MARK, pieces[0])] + tail) == Judge(body)
  {
    var first, more := pieces[0], Join(pieces[1..]);
    LengthFirst(body, first, more);
    TakeLine(r, START_MARK, first);
    var next := Reader(Some(|body|), first[2..]);
    assert Take(r, Line(START_MARK, first)) == Check(next);
    assert ([Line(START_MARK, first)] + tail)[1..] == tail;
    FinishFrame(next, tail, pieces[1..], body);
  }

  lemma LengthFirst(body: bytes, first: bytes, more: bytes)
    requires 2 <= |body| < 65536 && |first| >= 2 && first + more == Be(|body|, 2) + body
    ensures FromBe(first[..2]) == |body| && first[2..] + more == body
  {
    assert (first + more)[..2] == first[..2] && (first + more)[2..] == first[2..] + more;
    assert Power256(2) == 65536;
    FromBeOfBe(|body|, 2);
  }

  lemma {:induction false} FinishFrame(next: Reader, tail: seq<bytes>, pieces: seq<bytes>, body: bytes)
    requires Carries(tail, pieces) && next.length == Some(|body|) && next.decoded + Join(pieces) == body
    requires |body| >= 2
    ensures Check(next).Continue? ==> Read(Check(next).reader, tail) == Judge(body)
    ensures Check(next).Return? ==> Judge(body) == Ok(Check(next).packet)
    ensures Check(next).Raise? ==> Judge(body) == Err(Check(next).error)
  {
    assert |next.decoded| + |Join(pieces)| == |body|;
    if |next.decoded| < |body| {
      Reassemble(next, tail, pieces, body);
    } else {
      assert next.decoded == body;
    }
  }

  /**
   * Fragment reassembly: whatever way a frame is cut into a start line of at least two bytes and continuation
   * lines, with other lines in between and decodable orphan continuations before, the reader returns the packet.
   */
  lemma Reassembly(packet: bytes, pieces: seq<bytes>, before: seq<bytes>, tail: seq<bytes>)
    requires |packet| + 2 < 65536 && pieces != [] && |pieces[0]| >= 2 && Join(pieces) == Frame(packet)
    requires forall i :: 0 <= i < |before| ==> Orphan(before[i])
    requires Carries(tail, pieces[1..])
    ensures Read(FRESH, before + ([Line(START_MARK, pieces[0])] + tail)) == Ok(packet)
  {
    var next := SkipOrphans(FRESH, before, [Line(START_MARK, pieces[0])] + tail);
    var body := packet + SumBytes(Sum(packet));
    FrameParts(packet);
    assert Frame(packet) == Be(|body|, 2) + body;
    BodyRead(next, body, pieces, tail);
  }

  /** The one-piece case: what SerialFrame sends is read back. */
  lemma SerialFrameReadBack(packet: bytes)
    requires |packet| + 2 < 65536
    ensures Read(FRESH, [Line(START_MARK, Frame(packet))]) == Ok(packet)
  {
    assert Join([Frame(packet)]) == Frame(packet) by { assert [Frame(packet)][1..] == []; }
    Reassembly(packet, [Frame(packet)], [], []);
    assert [] + ([Line(START_MARK, Frame(packet))] + []) == [Line(START_MARK, Frame(packet))];
  }

  /**
   * A frame whose packet and check value are hit by a burst within sixteen bits, or in an odd number of bits, is
   * reported as damaged, however it is cut into lines and whatever other lines come before and in between.
   */
  lemma DamagedFrameRejected(packet: bytes, received: bytes, error: seq<bool>, pieces: seq<bytes>,
                             before: seq<bytes>, tail: seq<bytes>)
    requires |packet| + 2 < 65536
    requires Differs(packet + SumBytes(Sum(packet)), received, error)
    requires Crc.Odd(error) || exists k: nat, j: nat :: Crc.Within(error, k) && j < |error| && error[j]
    requires pieces != [] && |pieces[0]| >= 2 && Join(pieces) == Be(|packet| + 2, 2) + received
    requires forall i :: 0 <= i < |before| ==> Orphan(before[i])
    requires Carries(tail, pieces[1..])
    ensures Read(FRESH, before + ([Line(START_MARK, pieces[0])] + tail)) == Err(BadCrc)
  {
    FramePasses(packet, SumBytes(Sum(packet)));
    ErrorsRejected(packet + SumBytes(Sum(packet)), received, error);
    var next := SkipOrphans(FRESH, before, [Line(START_MARK, pieces[0])] + tail);
    BodyRead(next, received, pieces, tail);
  }
}
