/** The request and response packets of tools/usb_rpc_smoke.py, and a whole call over the serial line. */
module Smp {
  import opened Bytes
  import opened Common
  import opened Cbor
  import CborReader
  import CborRoundTrip
  import Frames

  const GROUP_RELAY: nat := 64
  const SEQUENCE: nat := 1

  datatype Op = Read | Write

  function Code(op: Op): nat {
    match op case Read => 0 case Write => 2
  }

  function ResponseCode(op: Op): nat {
    match op case Read => 1 case Write => 3
  }

  /** op | 8. */
  function Versioned(op: nat): nat {
    if op / 8 % 2 == 1 then op else op + 8
  }

  /** The eight header bytes and the payload, or None when a field does not fit. */
  function EncodeSmp(op: nat, group: nat, command: nat, sequence: nat, payload: bytes): Option<bytes> {
    if Versioned(op) < 256 && |payload| < 65536 && group < 65536 && sequence < 256 && command < 256 then
      Some([Versioned(op), 0] + Be(|payload|, 2) + Be(group, 2) + [sequence, command] + payload)
    else None
  }

  datatype Error = Header | Short | Version | ResponseOp | Length | Mismatch | Line(e: Frames.Error) | Payload

  /** The payload of a packet that answers a request, or what is wrong with it. */
  function Body(response: bytes, op: Op, command: nat): Result<bytes, Error> {
    if |response| < 8 then Err(Short)
    else
      var first, body := response[0], response[8..];
      if first / 8 % 4 != 1 then Err(Version)
      else if first % 8 != ResponseCode(op) then Err(ResponseOp)
      else if FromBe(response[2..4]) != |body| then Err(Length)
      else if FromBe(response[4..6]) != GROUP_RELAY || response[6] != SEQUENCE || response[7] != command then
        Err(Mismatch)
      else Ok(body)
  }

  /** What the caller gets for the lines that arrive. */
  function Answer(lines: seq<bytes>, op: Op, command: nat): Result<Entries, Error> {
    match Frames.Read(Frames.FRESH, lines)
    case Err(e) => Err(Line(e))
    case Ok(response) =>
      match Body(response, op, command)
      case Err(e) => Err(e)
      case Ok(body) => match DecodeMap(body) case None => Err(Payload) case Some(m) => Ok(m)
  }

  /** The line that is written for a request. */
  function Request(op: Op, command: nat, payload: Entries): Result<bytes, Error> {
    match Encode(Map(payload))
    case None => Err(Payload)
    case Some(body) =>
      match EncodeSmp(Code(op), GROUP_RELAY, command, SEQUENCE, body)
      case None => Err(Header)
      case Some(packet) =>
        if |packet| + 2 < 65536 then Ok(Frames.Line(Frames.START_MARK, Frames.Frame(packet)))
        else Err(Line(Frames.LengthField))
  }

  /** One request written, then lines read until an answer; `lines` is what the port gives before a timeout. */
  method Call(op: Op, command: nat, payload: Entries, lines: seq<bytes>)
    returns (written: Option<bytes>, answer: Result<Entries, Error>)
    ensures match Request(op, command, payload)
            case Err(e) => written == None && answer == Err(e)
            case Ok(line) => written == Some(line) && answer == Answer(lines, op, command)
  {
    written := None;
    var body := CborReader.EncodeMap(payload);
    if body.None? {
      return None, Err(Payload);
    }
    var request := EncodeSmp(Code(op), GROUP_RELAY, command, SEQUENCE, body.value);
    if request.None? {
      return None, Err(Header);
    }
    var frame := Frames.SerialFrame(request.value);
    if frame.Err? {
      return None, Err(Line(frame.error));
    }
    written := Some(frame.value);
    var response := Frames.DecodedFrames(lines);
    if response.Err? {
      return written, Err(Line(response.error));
    }
    var checked := Body(response.value, op, command);
    if checked.Err? {
      return written, Err(checked.error);
    }
    var result := CborReader.ReadWholeMap(checked.value);
    answer := match result case None => Err(Payload) case Some(m) => Ok(m);
  }

  // ----- Headers -----

  /** What a receiver finds in the header fields. */
  lemma HeaderFields(op: nat, group: nat, command: nat, sequence: nat, payload: bytes)
    requires EncodeSmp(op, group, command, sequence, payload).Some?
    ensures var p := EncodeSmp(op, group, command, sequence, payload).value;
            && |p| == 8 + |payload| && p[8..] == payload && p[0] == Versioned(op) && p[1] == 0
            && FromBe(p[2..4]) == |payload| && FromBe(p[4..6]) == group && p[6] == sequence && p[7] == command
  {
    assert Power256(2) == 65536;
    FromBeOfBe(|payload|, 2);
    FromBeOfBe(group, 2);
    var p := EncodeSmp(op, group, command, sequence, payload).value;
    assert p[2..4] == Be(|payload|, 2) && p[4..6] == Be(group, 2);
  }

  lemma FirstByte(first: byte, code: nat)
    requires code < 8
    ensures first / 8 % 4 == 1 && first % 8 == code <==> first % 32 == Versioned(code)
  {
    var high, mid, low := first / 32, first / 8 % 4, first % 8;
    assert first == 32 * high + 8 * mid + low;
    assert first % 32 == 8 * mid + low;
  }

  lemma HeaderBytes(response: bytes)
    requires |response| >= 8
    ensures response[2..] == response[2..4] + response[4..6] + [response[6], response[7]] + response[8..]
  {
  }

  lemma TailParts(s: bytes)
    requires |s| >= 8
    ensures var t := s[2..];
            s[2..4] == t[..2] && s[4..6] == t[2..4] && s[6] == t[4] && s[7] == t[5] && s[8..] == t[6..]
  {
  }

  lemma SameTail(p: bytes, q: bytes)
    requires |p| >= 8 && |q| >= 8 && p[2..] == q[2..]
    ensures p[2..4] == q[2..4] && p[4..6] == q[4..6] && p[6] == q[6] && p[7] == q[7] && p[8..] == q[8..]
  {
    TailParts(p);
    TailParts(q);
  }

  lemma BodyEncodes(response: bytes, op: Op, command: nat, body: bytes)
    requires Body(response, op, command) == Ok(body)
    ensures EncodeSmp(ResponseCode(op), GROUP_RELAY, command, SEQUENCE, body)
            == Some([response[0] % 32, 0] + response[2..])
  {
    FirstByte(response[0], ResponseCode(op));
    HeaderBytes(response);
    assert Power256(2) == 65536;
    BeOfFromBe(response[2..4]);
    BeOfFromBe(response[4..6]);
    var encoded := EncodeSmp(ResponseCode(op), GROUP_RELAY, command, SEQUENCE, body);
    assert encoded.value == [response[0] % 32, 0] + response[2..];
  }

  /**
   * A packet answers a request exactly when, its flags and its three reserved bits aside, it is the encoding of its
   * payload under the response's header.
   */
  lemma AnswersExactly(response: bytes, op: Op, command: nat, body: bytes)
    ensures Body(response, op, command) == Ok(body) <==>
            && |response| >= 8
            && EncodeSmp(ResponseCode(op), GROUP_RELAY, command, SEQUENCE, body)
               == Some([response[0] % 32, 0] + response[2..])
  {
    var encoded := EncodeSmp(ResponseCode(op), GROUP_RELAY, command, SEQUENCE, body);
    if Body(response, op, command) == Ok(body) {
      BodyEncodes(response, op, command, body);
    } else if |response| >= 8 && encoded == Some([response[0] % 32, 0] + response[2..]) {
      HeaderFields(ResponseCode(op), GROUP_RELAY, command, SEQUENCE, body);
      FirstByte(response[0], ResponseCode(op));
      assert encoded.value[2..] == response[2..];
      SameTail(encoded.value, response);
      assert false;
    }
  }

  // ----- Byte by byte -----

  /** The packet of a request: version two, group 64, sequence number 1. */
  lemma RequestIs(op: Op, command: nat, body: bytes)
    ensures var packet := EncodeSmp(Code(op), GROUP_RELAY, command, SEQUENCE, body);
            && (packet.Some? <==> |body| < 65536 && command < 256)
            && (packet.Some? ==> packet.value == [if op.Read? then 8 else 10, 0, |body| / 256, |body| % 256, 0, 64, 1,
                                                  command] + body)
  {
    if |body| < 65536 && command < 256 {
      TwoBytes(|body|);
      TwoBytes(64);
    }
  }

  lemma {:induction false} TwoBytes(n: nat)
    requires n < 65536
    ensures Be(n, 2) == [n / 256, n % 256]
  {
    assert Be(n / 256, 1) == Be(n / 256 / 256, 0) + [n / 256 % 256];
    assert Be(n / 256 / 256, 0) == [];
  }

  function Joined(high: nat, low: nat): nat {
    256 * high + low
  }

  lemma {:induction false} FromTwoBytes(b: bytes)
    requires |b| == 2
    ensures FromBe(b) == Joined(b[0], b[1])
  {
    var n := Joined(b[0], b[1]);
    assert Power256(2) == 65536;
    TwoBytes(n);
    assert b == [n / 256, n % 256];
    FromBeOfBe(n, 2);
  }

  /** What the checks of a response look at, in their order. */
  lemma {:induction false} BodyIs(response: bytes, op: Op, command: nat)
    ensures Body(response, op, command) ==
            if |response| < 8 then Err(Short)
            else if response[0] / 8 % 4 != 1 then Err(Version)
            else if response[0] % 8 != (if op.Read? then 1 else 3) then Err(ResponseOp)
            else if Joined(response[2], response[3]) != |response| - 8 then Err(Length)
            else if response[4] != 0 || response[5] != 64 || response[6] != 1 || response[7] != command then
              Err(Mismatch)
            else Ok(response[8..])
  {
    if |response| >= 8 {
      FromTwoBytes(response[2..4]);
      FromTwoBytes(response[4..6]);
    }
  }

  // ----- A whole call -----

  /** The packet that answers with a dictionary. */
  function ResponseFor(op: Op, command: nat, m: Entries): Option<bytes> {
    match Encode(Map(m))
    case None => None
    case Some(body) => EncodeSmp(ResponseCode(op), GROUP_RELAY, command, SEQUENCE, body)
  }

  lemma ResponseRead(op: Op, command: nat, m: Entries)
    requires DistinctKeys(m) && ResponseFor(op, command, m).Some?
    ensures Body(ResponseFor(op, command, m).value, op, command) == Ok(Encode(Map(m)).value)
    ensures DecodeMap(Encode(Map(m)).value) == Some(m)
  {
    AnswerBody(op, command, Encode(Map(m)).value, ResponseFor(op, command, m).value);
    CborRoundTrip.MapRoundTrip(m);
  }

  lemma AnswerBody(op: Op, command: nat, body: bytes, packet: bytes)
    requires EncodeSmp(ResponseCode(op), GROUP_RELAY, command, SEQUENCE, body) == Some(packet)
    ensures Body(packet, op, command) == Ok(body)
  {
    HeaderFields(ResponseCode(op), GROUP_RELAY, command, SEQUENCE, body);
  }

  /** A dictionary answered under the request's header comes back, whatever the frame's pieces and the other lines. */
  lemma AnswerRoundTrip(op: Op, command: nat, m: Entries, packet: bytes, pieces: seq<bytes>, before: seq<bytes>,
                        tail: seq<bytes>)
    requires DistinctKeys(m) && ResponseFor(op, command, m) == Some(packet) && |packet| + 2 < 65536
    requires pieces != [] && |pieces[0]| >= 2 && Frames.Join(pieces) == Frames.Frame(packet)
    requires forall i :: 0 <= i < |before| ==> Frames.Orphan(before[i])
    requires Frames.Carries(tail, pieces[1..])
    ensures Answer(before + ([Frames.Line(Frames.START_MARK, pieces[0])] + tail), op, command) == Ok(m)
  {
    ResponseRead(op, command, m);
    Frames.Reassembly(packet, pieces, before, tail);
  }

  /** A client's own request is never taken for an answer to one. */
  lemma RequestIsNoAnswer(op: Op, command: nat, payload: bytes, op': Op, command': nat)
    requires EncodeSmp(Code(op), GROUP_RELAY, command, SEQUENCE, payload).Some?
    ensures Body(EncodeSmp(Code(op), GROUP_RELAY, command, SEQUENCE, payload).value, op', command')
            == Err(ResponseOp)
  {
    HeaderFields(Code(op), GROUP_RELAY, command, SEQUENCE, payload);
  }
}
