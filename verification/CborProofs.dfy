/** The decoder accepts exactly the rendered forms, and the encoder writes one of them. */
module CborProofs {
  import opened Bytes
  import opened Common
  import opened Cbor
  import Utf8

  // ----- Heads -----

  function Additional(n: nat, w: Width): nat {
    match w case W0 => n case W1 => 24 case W2 => 25 case W4 => 26 case W8 => 27
  }

  function Argument(n: nat, w: Width): bytes {
    match w case W0 => [] case W1 => Be(n, 1) case W2 => Be(n, 2) case W4 => Be(n, 4) case W8 => Be(n, 8)
  }

  lemma HeadShape(major: nat, n: nat, w: Width, rest: bytes)
    requires major < 8 && Fits(n, w)
    ensures var s := RenderHead(major, n, w) + rest;
            && |s| > 0 && s[0] / 32 == major && s[0] % 32 == Additional(n, w) < 28
            && s[1..] == Argument(n, w) + rest
  {
    assert RenderHead(major, n, w) == [major * 32 + Additional(n, w)] + Argument(n, w);
  }

  lemma TakeBe(n: nat, width: nat, rest: bytes)
    requires n < Power256(width)
    ensures TakeNumber(Be(n, width) + rest, width) == Got(n, rest)
  {
    FromBeOfBe(n, width);
    var s := Be(n, width) + rest;
    assert s[..width] == Be(n, width) && s[width..] == rest;
  }

  lemma LenOfArgument(n: nat, w: Width, rest: bytes)
    requires Fits(n, w)
    ensures ParseLen(Additional(n, w), Argument(n, w) + rest) == Got(n, rest)
  {
    match w
    case W0 => assert [] + rest == rest;
    case W1 => TakeBe(n, 1, rest);
    case W2 => TakeBe(n, 2, rest);
    case W4 => TakeBe(n, 4, rest);
    case W8 => TakeBe(n, 8, rest);
  }

  lemma TextOfChunk(c: Chunk, rest: bytes)
    requires Fits(|c.text|, c.w)
    ensures var s := RenderChunk(c) + rest;
            && |s| > 0 && s[0] / 32 == 3 && s[0] % 32 < 28 && ParseText(s[0] % 32, s[1..]) == Got(c.text, rest)
  {
    assert RenderChunk(c) + rest == RenderHead(3, |c.text|, c.w) + (c.text + rest);
    HeadShape(3, |c.text|, c.w, c.text + rest);
    LenOfArgument(|c.text|, c.w, c.text + rest);
    assert (c.text + rest)[..|c.text|] == c.text && (c.text + rest)[|c.text|..] == rest;
  }

  lemma Regroup(a: bytes, b: bytes, c: bytes, d: bytes)
    ensures a + (b + (c + d)) == a + (b + c) + d
  {
    assert a + (b + (c + d)) == a + (b + c) + d;
  }

  // ----- Every form is accepted, with its meaning -----

  lemma {:induction false} ChunksEnd(sofar: bytes, rest: bytes)
    ensures ParseChunks([0xff] + rest, sofar) == Got(sofar, rest)
  {
    AfterFirst(0xff, rest);
  }

  lemma {:induction false} ChunkParsed(c: Chunk, more: bytes, sofar: bytes)
    requires Fits(|c.text|, c.w)
    ensures ParseChunks(RenderChunk(c) + more, sofar) == ParseChunks(more, sofar + c.text)
  {
    TextOfChunk(c, more);
  }

  lemma {:induction false} ChunksAccepted(cs: seq<Chunk>, sofar: bytes, rest: bytes)
    requires SoundChunks(cs)
    ensures ParseChunks(RenderChunks(cs) + ([0xff] + rest), sofar) == Got(sofar + JoinChunks(cs), rest)
  {
    if cs == [] {
      Neutral([0xff] + rest);
      Neutral(sofar);
      ChunksEnd(sofar, rest);
    } else {
      var more := RenderChunks(cs[1..]);
      Associate(RenderChunk(cs[0]), more, [0xff] + rest);
      ChunkParsed(cs[0], more + ([0xff] + rest), sofar);
      ChunksAccepted(cs[1..], sofar + cs[0].text, rest);
      Associate(sofar, cs[0].text, JoinChunks(cs[1..]));
    }
  }

  lemma UintAccepted(n: nat, w: Width, rest: bytes)
    requires Fits(n, w)
    ensures Parse(RenderHead(0, n, w) + rest) == Got(Int(n), rest)
  {
    HeadShape(0, n, w, rest);
    LenOfArgument(n, w, rest);
  }

  lemma TextAccepted(c: Chunk, rest: bytes)
    requires Fits(|c.text|, c.w) && Utf8.WellFormed(c.text)
    ensures Parse(RenderChunk(c) + rest) == Got(Text(c.text), rest)
  {
    TextOfChunk(c, rest);
  }

  lemma OpenTextAccepted(cs: seq<Chunk>, rest: bytes)
    requires SoundChunks(cs) && Utf8.WellFormed(JoinChunks(cs))
    ensures Parse([0x7f] + (RenderChunks(cs) + [0xff]) + rest) == Got(Text(JoinChunks(cs)), rest)
  {
    var body := RenderChunks(cs) + ([0xff] + rest);
    Regroup([0x7f], RenderChunks(cs), [0xff], rest);
    ChunksAccepted(cs, [], rest);
    Neutral(JoinChunks(cs));
    OpenTextParsed(body);
  }

  lemma OpenTextParsed(body: bytes)
    ensures Parse([0x7f] + body) == AsText(ParseChunks(body, []))
  {
    AfterFirst(0x7f, body);
  }

  lemma MapAccepted(body: bytes, n: nat, w: Width, m: Entries, rest: bytes)
    requires Fits(n, w) && ParseEntries(body + rest, n, Nil) == Got(m, rest)
    ensures Parse(RenderHead(5, n, w) + body + rest) == Got(Map(m), rest)
  {
    Associate(RenderHead(5, n, w), body, rest);
    HeadShape(5, n, w, body + rest);
    LenOfArgument(n, w, body + rest);
  }

  lemma OpenMapAccepted(body: bytes, m: Entries, rest: bytes)
    requires ParseOpenEntries(body + ([0xff] + rest), Nil) == Got(m, rest)
    ensures Parse([0xbf] + (body + [0xff]) + rest) == Got(Map(m), rest)
  {
    Regroup([0xbf], body, [0xff], rest);
    OpenMapParsed(body + ([0xff] + rest));
  }

  lemma OpenMapParsed(body: bytes)
    ensures Parse([0xbf] + body) ==
            match ParseOpenEntries(body, Nil) case Fail => Fail case Got(m, r) => Got(Map(m), r)
  {
    AfterFirst(0xbf, body);
  }

  lemma {:induction false} Accepted(f: Form, rest: bytes)
    requires Sound(f)
    ensures Parse(Render(f) + rest) == Got(Meaning(f), rest)
    decreases f, 0
  {
    match f
    case FBool(on) =>
      assert (Render(f) + rest)[1..] == rest;
    case FUint(n, w) =>
      UintAccepted(n, w, rest);
    case FText(c) =>
      TextAccepted(c, rest);
    case FOpenText(cs) =>
      OpenTextAccepted(cs, rest);
    case FMap(m, w) =>
      EntriesAccepted(m, Nil, rest);
      MapAccepted(RenderEntries(m), FormCount(m), w, MeaningEntries(m, Nil), rest);
    case FOpenMap(m) =>
      OpenEntriesAccepted(m, Nil, rest);
      OpenMapAccepted(RenderEntries(m), MeaningEntries(m, Nil), rest);
  }

  lemma {:induction false} EntryAccepted(k: Form, v: Form, sofar: Entries, rest: bytes)
    requires (k.FText? || k.FOpenText?) && Sound(k) && Sound(v)
    requires Parse(Render(k) + (Render(v) + rest)) == Got(Meaning(k), Render(v) + rest)
    requires Parse(Render(v) + rest) == Got(Meaning(v), rest)
    ensures var s := Render(k) + (Render(v) + rest);
            ParseEntry(s, sofar) == Got(Put(sofar, TextOf(k), Meaning(v)), rest) && !AtBreak(s)
  {
    if k.FText? {
      TextOfChunk(k.chunk, Render(v) + rest);
    }
  }

  lemma {:induction false} EntriesAccepted(m: Forms, sofar: Entries, rest: bytes)
    requires SoundEntries(m)
    ensures ParseEntries(RenderEntries(m) + rest, FormCount(m), sofar) == Got(MeaningEntries(m, sofar), rest)
    decreases m, 1
  {
    match m
    case FNil => Neutral(rest);
    case FCons(k, v, more) =>
      var tail := RenderEntries(more) + rest;
      Regroup(Render(k), Render(v), RenderEntries(more), rest);
      Accepted(k, Render(v) + tail);
      Accepted(v, tail);
      EntryAccepted(k, v, sofar, tail);
      EntriesAccepted(more, Put(sofar, TextOf(k), Meaning(v)), rest);
  }

  lemma {:induction false} OpenEntriesAccepted(m: Forms, sofar: Entries, rest: bytes)
    requires SoundEntries(m)
    ensures ParseOpenEntries(RenderEntries(m) + ([0xff] + rest), sofar) == Got(MeaningEntries(m, sofar), rest)
    decreases m, 1
  {
    match m
    case FNil =>
      Neutral([0xff] + rest);
      AfterFirst(0xff, rest);
    case FCons(k, v, more) =>
      var tail := RenderEntries(more) + ([0xff] + rest);
      Regroup(Render(k), Render(v), RenderEntries(more), [0xff] + rest);
      Accepted(k, Render(v) + tail);
      Accepted(v, tail);
      EntryAccepted(k, v, sofar, tail);
      OpenEntriesAccepted(more, Put(sofar, TextOf(k), Meaning(v)), rest);
  }

  // ----- Nothing else is accepted -----

  lemma HeadOf(s: bytes) returns (w: Width, n: nat)
    requires s != [] && ParseLen(s[0] % 32, s[1..]).Got?
    ensures Fits(n, w) && ParseLen(s[0] % 32, s[1..]).value == n
    ensures s == RenderHead(s[0] / 32, n, w) + ParseLen(s[0] % 32, s[1..]).rest
  {
    var additional, p := s[0] % 32, ParseLen(s[0] % 32, s[1..]);
    n := p.value;
    if additional < 24 {
      w := W0;
    } else {
      var k := if additional == 24 then 1 else if additional == 25 then 2 else if additional == 26 then 4 else 8;
      w := if additional == 24 then W1 else if additional == 25 then W2 else if additional == 26 then W4 else W8;
      BeOfFromBe(s[1..][..k]);
      assert s[1..] == s[1..][..k] + p.rest;
    }
    assert s == [s[0]] + s[1..];
  }

  lemma ChunkOf(s: bytes) returns (c: Chunk)
    requires s != [] && s[0] / 32 == 3 && ParseText(s[0] % 32, s[1..]).Got?
    ensures Fits(|c.text|, c.w) && c.text == ParseText(s[0] % 32, s[1..]).value
    ensures s == RenderChunk(c) + ParseText(s[0] % 32, s[1..]).rest
  {
    var w, n := HeadOf(s);
    c := Chunk(ParseText(s[0] % 32, s[1..]).value, w);
  }

  lemma FirstChunk(c: Chunk, more: seq<Chunk>, sofar: bytes, tail: bytes)
    requires Fits(|c.text|, c.w) && SoundChunks(more)
    ensures RenderChunks([c] + more) + tail == RenderChunk(c) + (RenderChunks(more) + tail)
    ensures sofar + JoinChunks([c] + more) == (sofar + c.text) + JoinChunks(more)
  {
    assert ([c] + more)[1..] == more;
    assert RenderChunk(c) + (RenderChunks(more) + tail) == RenderChunk(c) + RenderChunks(more) + tail;
  }

  lemma {:induction false} ChunksOf(s: bytes, sofar: bytes) returns (cs: seq<Chunk>)
    requires ParseChunks(s, sofar).Got?
    ensures SoundChunks(cs)
    ensures s == RenderChunks(cs) + ([0xff] + ParseChunks(s, sofar).rest)
    ensures ParseChunks(s, sofar).value == sofar + JoinChunks(cs)
    decreases |s|
  {
    if AtBreak(s) {
      cs := [];
      HeadAndRest(s);
      Neutral(s);
      Neutral(sofar);
    } else {
      var p := ParseText(s[0] % 32, s[1..]);
      var c := ChunkOf(s);
      var more := ChunksOf(p.rest, sofar + p.value);
      cs := [c] + more;
      FirstChunk(c, more, sofar, [0xff] + ParseChunks(p.rest, sofar + p.value).rest);
    }
  }

  lemma OpenTextForm(s: bytes, cs: seq<Chunk>) returns (f: Form)
    requires Parse(s).Got? && s[0] / 32 == 3 && s[0] % 32 == 31
    requires SoundChunks(cs)
    requires s[1..] == RenderChunks(cs) + ([0xff] + ParseChunks(s[1..], []).rest)
    requires ParseChunks(s[1..], []).value == [] + JoinChunks(cs)
    ensures Sound(f) && s == Render(f) + Parse(s).rest && Meaning(f) == Parse(s).value
  {
    f := FOpenText(cs);
    HeadAndRest(s);
    Neutral(JoinChunks(cs));
    Regroup([s[0]], RenderChunks(cs), [0xff], Parse(s).rest);
  }

  lemma TextForm(s: bytes) returns (f: Form)
    requires Parse(s).Got? && s[0] / 32 == 3
    ensures Sound(f) && s == Render(f) + Parse(s).rest && Meaning(f) == Parse(s).value
  {
    if s[0] % 32 == 31 {
      var cs := ChunksOf(s[1..], []);
      f := OpenTextForm(s, cs);
    } else {
      var c := ChunkOf(s);
      f := FText(c);
    }
  }

  lemma OpenMapForm(s: bytes, m: Forms) returns (f: Form)
    requires Parse(s).Got? && s[0] / 32 == 5 && s[0] % 32 == 31 && SoundEntries(m)
    requires s[1..] == RenderEntries(m) + ([0xff] + ParseOpenEntries(s[1..], Nil).rest)
    requires MeaningEntries(m, Nil) == ParseOpenEntries(s[1..], Nil).value
    ensures Sound(f) && s == Render(f) + Parse(s).rest && Meaning(f) == Parse(s).value
  {
    HeadAndRest(s);
    f := FOpenMap(m);
    Regroup([s[0]], RenderEntries(m), [0xff], Parse(s).rest);
  }

  lemma MapForm(s: bytes, m: Forms) returns (f: Form)
    requires Parse(s).Got? && s[0] / 32 == 5 && s[0] % 32 != 31 && SoundEntries(m)
    requires var p := ParseLen(s[0] % 32, s[1..]);
             && FormCount(m) == p.value && p.rest == RenderEntries(m) + ParseEntries(p.rest, p.value, Nil).rest
             && MeaningEntries(m, Nil) == ParseEntries(p.rest, p.value, Nil).value
    ensures Sound(f) && s == Render(f) + Parse(s).rest && Meaning(f) == Parse(s).value
  {
    var w, n := HeadOf(s);
    f := FMap(m, w);
    Associate(RenderHead(5, n, w), RenderEntries(m), Parse(s).rest);
  }

  lemma {:induction false} FormOf(s: bytes) returns (f: Form)
    requires Parse(s).Got?
    ensures Sound(f) && s == Render(f) + Parse(s).rest && Meaning(f) == Parse(s).value
    decreases |s|, 0
  {
    var major, additional, rest := s[0] / 32, s[0] % 32, s[1..];
    if major == 0 {
      var w, n := HeadOf(s);
      f := FUint(n, w);
    } else if major == 3 {
      f := TextForm(s);
    } else if major == 5 {
      if additional == 31 {
        var m := OpenEntriesOf(rest, Nil);
        f := OpenMapForm(s, m);
      } else {
        var m := EntriesOf(ParseLen(additional, rest).rest, ParseLen(additional, rest).value, Nil);
        f := MapForm(s, m);
      }
    } else {
      HeadAndRest(s);
      f := FBool(additional == 21);
    }
  }

  lemma {:induction false} EntriesOf(s: bytes, n: nat, sofar: Entries) returns (m: Forms)
    requires ParseEntries(s, n, sofar).Got?
    ensures SoundEntries(m) && FormCount(m) == n && s == RenderEntries(m) + ParseEntries(s, n, sofar).rest
    ensures MeaningEntries(m, sofar) == ParseEntries(s, n, sofar).value
    decreases |s|, 2
  {
    if n == 0 {
      m := FNil;
      Neutral(s);
    } else {
      var k := FormOf(s);
      var v := FormOf(Parse(s).rest);
      var e := ParseEntry(s, sofar);
      var more := EntriesOf(e.rest, n - 1, e.value);
      m := FCons(k, v, more);
      var r := ParseEntries(s, n, sofar).rest;
      assert r == ParseEntries(e.rest, n - 1, e.value).rest;
      Regroup(Render(k), Render(v), RenderEntries(more), r);
    }
  }

  lemma {:induction false} OpenEntriesOf(s: bytes, sofar: Entries) returns (m: Forms)
    requires ParseOpenEntries(s, sofar).Got?
    ensures SoundEntries(m) && s == RenderEntries(m) + ([0xff] + ParseOpenEntries(s, sofar).rest)
    ensures MeaningEntries(m, sofar) == ParseOpenEntries(s, sofar).value
    decreases |s|, 2
  {
    if AtBreak(s) {
      m := FNil;
      HeadAndRest(s);
      Neutral(s);
    } else {
      var k := FormOf(s);
      var v := FormOf(Parse(s).rest);
      var e := ParseEntry(s, sofar);
      var more := OpenEntriesOf(e.rest, e.value);
      m := FCons(k, v, more);
      Regroup(Render(k), Render(v), RenderEntries(more), [0xff] + ParseOpenEntries(e.rest, e.value).rest);
    }
  }

  /** The decoder reads a value off the front of a byte string exactly when some form of it is there. */
  lemma AcceptedExactly(s: bytes, v: Value, rest: bytes)
    ensures Parse(s) == Got(v, rest) <==> exists f :: Sound(f) && Meaning(f) == v && s == Render(f) + rest
  {
    if Parse(s) == Got(v, rest) {
      var f := FormOf(s);
    }
    forall f | Sound(f) && Meaning(f) == v && s == Render(f) + rest
      ensures Parse(s) == Got(v, rest)
    {
      Accepted(f, rest);
    }
  }

  // ----- The accepted forms, byte by byte -----

  /** A head: the major type in the top three bits, and an argument below 24 or after one of 24 to 27. */
  lemma {:induction false} HeadIs(major: nat, n: nat, w: Width)
    requires major < 8 && Fits(n, w)
    ensures var head := RenderHead(major, n, w);
            match w
            case W0 => head == [32 * major + n] && n < 24
            case W1 => |head| == 2 && head[0] == 32 * major + 24 && FromBe(head[1..]) == n
            case W2 => |head| == 3 && head[0] == 32 * major + 25 && FromBe(head[1..]) == n
            case W4 => |head| == 5 && head[0] == 32 * major + 26 && FromBe(head[1..]) == n
            case W8 => |head| == 9 && head[0] == 32 * major + 27 && FromBe(head[1..]) == n
  {
    if w != W0 {
      var width := match w case W0 => 0 case W1 => 1 case W2 => 2 case W4 => 4 case W8 => 8;
      FromBeOfBe(n, width);
      assert RenderHead(major, n, w)[1..] == Be(n, width);
    }
  }

  /** The six kinds of items. */
  lemma {:induction false} FormIs(f: Form)
    requires Sound(f)
    ensures match f
            case FBool(on) => Render(f) == [if on then 245 else 244]
            case FUint(n, w) => Render(f) == RenderHead(0, n, w)
            case FText(c) => Render(f) == RenderHead(3, |c.text|, c.w) + c.text
            case FOpenText(cs) => Render(f) == [127] + (RenderChunks(cs) + [255])
            case FMap(m, w) => Render(f) == RenderHead(5, FormCount(m), w) + RenderEntries(m)
            case FOpenMap(m) => Render(f) == [191] + (RenderEntries(m) + [255])
  {
  }
}
