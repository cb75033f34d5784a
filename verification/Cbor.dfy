/**
 * The CBOR subset of tools/usb_rpc_smoke.py (RFC 8949): booleans, numbers, text, and maps with text keys. Text is kept
 * as the bytes it is written with; a string with surrogates in it has bytes that are not well-formed UTF-8. Encoder,
 * decoder, and the set of byte strings the decoder accepts.
 */
module Cbor {
  import opened Bytes
  import opened Common
  import Utf8

  /** Entries in the order a dictionary keeps them. */
  datatype Value = Bool(on: bool) | Int(n: int) | Text(text: bytes) | Map(entries: Entries)

  datatype Entries = Nil | Cons(key: bytes, value: Value, rest: Entries)

  function Count(m: Entries): nat {
    match m case Nil => 0 case Cons(_, _, rest) => 1 + Count(rest)
  }

  predicate HasKey(m: Entries, key: bytes) {
    m.Cons? && (m.key == key || HasKey(m.rest, key))
  }

  /** Assignment to a key: in place when it exists, else at the end. */
  function Put(m: Entries, key: bytes, value: Value): Entries {
    match m
    case Nil => Cons(key, value, Nil)
    case Cons(k, v, rest) => if k == key then Cons(k, value, rest) else Cons(k, v, Put(rest, key, value))
  }

  /** What every dictionary is: no key occurs twice, at any depth. */
  predicate Distinct(v: Value) {
    v.Map? ==> DistinctKeys(v.entries)
  }

  predicate DistinctKeys(m: Entries) {
    m.Cons? ==> !HasKey(m.rest, m.key) && Distinct(m.value) && DistinctKeys(m.rest)
  }

  // ----- Encoding -----

  const LIMIT: nat := 0x1_0000_0000

  /** The initial byte with its argument, or None when the argument does not fit thirty-two bits. */
  function Head(major: nat, n: nat): Option<bytes>
    requires major < 8
  {
    if n < 24 then Some([major * 32 + n])
    else if n <= 0xff then Some([major * 32 + 24, n])
    else if n <= 0xffff then Some([major * 32 + 25] + Be(n, 2))
    else if n < LIMIT then Some([major * 32 + 26] + Be(n, 4))
    else None
  }

  function Append(a: Option<bytes>, b: Option<bytes>): Option<bytes> {
    if a.Some? && b.Some? then Some(a.value + b.value) else None
  }

  function EncodeText(t: bytes): Option<bytes> {
    if !Utf8.WellFormed(t) then None else Append(Head(3, |t|), Some(t))
  }

  function Encode(v: Value): Option<bytes> {
    match v
    case Bool(on) => Some([if on then 0xf5 else 0xf4])
    case Int(n) => if n < 0 then None else Head(0, n)
    case Text(t) => EncodeText(t)
    case Map(m) => Append(Head(5, Count(m)), EncodeEntries(m))
  }

  function EncodeEntries(m: Entries): Option<bytes> {
    match m
    case Nil => Some([])
    case Cons(k, v, rest) => Append(Append(EncodeText(k), Encode(v)), EncodeEntries(rest))
  }

  // ----- Decoding -----

  datatype Parsed<+T> = Got(value: T, rest: bytes) | Fail

  function Take(s: bytes, n: nat): (r: Parsed<bytes>)
    ensures r.Got? ==> s == r.value + r.rest && |r.value| == n
  {
    if |s| < n then Fail else Got(s[..n], s[n..])
  }

  function TakeNumber(s: bytes, width: nat): Parsed<nat> {
    match Take(s, width) case Fail => Fail case Got(b, rest) => Got(FromBe(b), rest)
  }

  /** The argument that the low five bits of an initial byte announce. */
  function ParseLen(additional: nat, s: bytes): (r: Parsed<nat>)
    ensures r.Got? ==> |r.rest| <= |s|
  {
    if additional < 24 then Got(additional, s)
    else if additional == 24 then TakeNumber(s, 1)
    else if additional == 25 then TakeNumber(s, 2)
    else if additional == 26 then TakeNumber(s, 4)
    else if additional == 27 then TakeNumber(s, 8)
    else Fail
  }

  predicate AtBreak(s: bytes) {
    s != [] && s[0] == 0xff
  }

  /** Text of announced length. */
  function ParseText(additional: nat, s: bytes): (r: Parsed<bytes>)
    ensures r.Got? ==> |r.rest| <= |s|
  {
    match ParseLen(additional, s)
    case Fail => Fail
    case Got(n, rest) => Take(rest, n)
  }

  /** Chunks of an indefinite-length text, up to its break. */
  function ParseChunks(s: bytes, sofar: bytes): (r: Parsed<bytes>)
    ensures r.Got? ==> |r.rest| < |s|
    decreases |s|
  {
    if AtBreak(s) then Got(sofar, s[1..])
    else if s == [] || s[0] / 32 != 3 || s[0] % 32 == 31 then Fail
    else
      match ParseText(s[0] % 32, s[1..])
      case Fail => Fail
      case Got(chunk, rest) => ParseChunks(rest, sofar + chunk)
  }

  /** Bytes read for a text, if they are one. */
  function AsText(p: Parsed<bytes>): Parsed<Value> {
    if p.Got? && Utf8.WellFormed(p.value) then Got(Text(p.value), p.rest) else Fail
  }

  function Parse(s: bytes): (r: Parsed<Value>)
    ensures r.Got? ==> |r.rest| < |s|
    decreases |s|, 0
  {
    if s == [] then Fail
    else
      var major, additional, rest := s[0] / 32, s[0] % 32, s[1..];
      if major == 0 then
        match ParseLen(additional, rest) case Fail => Fail case Got(n, r) => Got(Int(n), r)
      else if major == 3 then
        AsText(if additional == 31 then ParseChunks(rest, []) else ParseText(additional, rest))
      else if major == 5 then
        if additional == 31 then
          match ParseOpenEntries(rest, Nil) case Fail => Fail case Got(m, r) => Got(Map(m), r)
        else
          match ParseLen(additional, rest)
          case Fail => Fail
          case Got(n, r) => match ParseEntries(r, n, Nil) case Fail => Fail case Got(m, r') => Got(Map(m), r')
      else if major == 7 && (additional == 20 || additional == 21) then Got(Bool(additional == 21), rest)
      else Fail
  }

  /** One key and its value, assigned into the entries read so far. */
  function ParseEntry(s: bytes, sofar: Entries): (r: Parsed<Entries>)
    ensures r.Got? ==> |r.rest| < |s|
    decreases |s|, 1
  {
    match Parse(s)
    case Fail => Fail
    case Got(key, rest) =>
      if !key.Text? then Fail
      else match Parse(rest) case Fail => Fail case Got(value, r) => Got(Put(sofar, key.text, value), r)
  }

  function ParseEntries(s: bytes, n: nat, sofar: Entries): (r: Parsed<Entries>)
    ensures r.Got? ==> |r.rest| <= |s|
    decreases |s|, 2
  {
    if n == 0 then Got(sofar, s)
    else
      match ParseEntry(s, sofar)
      case Fail => Fail
      case Got(next, rest) => ParseEntries(rest, n - 1, next)
  }

  function ParseOpenEntries(s: bytes, sofar: Entries): (r: Parsed<Entries>)
    ensures r.Got? ==> |r.rest| < |s|
    decreases |s|, 2
  {
    if AtBreak(s) then Got(sofar, s[1..])
    else
      match ParseEntry(s, sofar)
      case Fail => Fail
      case Got(next, rest) => ParseOpenEntries(rest, next)
  }

  function DecodeMap(data: bytes): Option<Entries> {
    match Parse(data)
    case Fail => None
    case Got(v, rest) => if rest == [] && v.Map? then Some(v.entries) else None
  }

  // ----- Accepted forms -----

  /** How wide an argument is written: in the initial byte, or in one, two, four or eight bytes after it. */
  datatype Width = W0 | W1 | W2 | W4 | W8

  predicate Fits(n: nat, w: Width) {
    match w
    case W0 => n < 24
    case W1 => n < Power256(1)
    case W2 => n < Power256(2)
    case W4 => n < Power256(4)
    case W8 => n < Power256(8)
  }

  function RenderHead(major: nat, n: nat, w: Width): bytes
    requires major < 8 && Fits(n, w)
  {
    match w
    case W0 => [major * 32 + n]
    case W1 => [major * 32 + 24] + Be(n, 1)
    case W2 => [major * 32 + 25] + Be(n, 2)
    case W4 => [major * 32 + 26] + Be(n, 4)
    case W8 => [major * 32 + 27] + Be(n, 8)
  }

  datatype Chunk = Chunk(text: bytes, w: Width)

  /** One way of writing a value. */
  datatype Form =
    | FBool(on: bool)
    | FUint(n: nat, w: Width)
    | FText(chunk: Chunk)
    | FOpenText(chunks: seq<Chunk>)
    | FMap(entries: Forms, w: Width)
    | FOpenMap(entries: Forms)

  datatype Forms = FNil | FCons(key: Form, value: Form, rest: Forms)

  function FormCount(m: Forms): nat {
    match m case FNil => 0 case FCons(_, _, rest) => 1 + FormCount(rest)
  }

  predicate SoundChunks(cs: seq<Chunk>) {
    forall i :: 0 <= i < |cs| ==> Fits(|cs[i].text|, cs[i].w)
  }

  predicate Sound(f: Form) {
    match f
    case FBool(_) => true
    case FUint(n, w) => Fits(n, w)
    case FText(c) => Fits(|c.text|, c.w) && Utf8.WellFormed(c.text)
    case FOpenText(cs) => SoundChunks(cs) && Utf8.WellFormed(JoinChunks(cs))
    case FMap(m, w) => Fits(FormCount(m), w) && SoundEntries(m)
    case FOpenMap(m) => SoundEntries(m)
  }

  predicate SoundEntries(m: Forms) {
    m.FCons? ==> (m.key.FText? || m.key.FOpenText?) && Sound(m.key) && Sound(m.value) && SoundEntries(m.rest)
  }

  function RenderChunk(c: Chunk): bytes
    requires Fits(|c.text|, c.w)
  {
    RenderHead(3, |c.text|, c.w) + c.text
  }

  function RenderChunks(cs: seq<Chunk>): bytes
    requires SoundChunks(cs)
  {
    if cs == [] then [] else RenderChunk(cs[0]) + RenderChunks(cs[1..])
  }

  function Render(f: Form): bytes
    requires Sound(f)
  {
    match f
    case FBool(on) => [if on then 0xf5 else 0xf4]
    case FUint(n, w) => RenderHead(0, n, w)
    case FText(c) => RenderChunk(c)
    case FOpenText(cs) => [0x7f] + (RenderChunks(cs) + [0xff])
    case FMap(m, w) => RenderHead(5, FormCount(m), w) + RenderEntries(m)
    case FOpenMap(m) => [0xbf] + (RenderEntries(m) + [0xff])
  }

  function RenderEntries(m: Forms): bytes
    requires SoundEntries(m)
  {
    match m
    case FNil => []
    case FCons(k, v, rest) => Render(k) + (Render(v) + RenderEntries(rest))
  }

  function JoinChunks(cs: seq<Chunk>): bytes {
    if cs == [] then [] else cs[0].text + JoinChunks(cs[1..])
  }

  function TextOf(f: Form): bytes
    requires f.FText? || f.FOpenText?
  {
    match f case FText(c) => c.text case FOpenText(cs) => JoinChunks(cs)
  }

  function Meaning(f: Form): Value
    requires Sound(f)
  {
    match f
    case FBool(on) => Bool(on)
    case FUint(n, _) => Int(n)
    case FText(_) => Text(TextOf(f))
    case FOpenText(_) => Text(TextOf(f))
    case FMap(m, _) => Map(MeaningEntries(m, Nil))
    case FOpenMap(m) => Map(MeaningEntries(m, Nil))
  }

  function MeaningEntries(m: Forms, sofar: Entries): Entries
    requires SoundEntries(m)
  {
    match m
    case FNil => sofar
    case FCons(k, v, rest) => MeaningEntries(rest, Put(sofar, TextOf(k), Meaning(v)))
  }
}
