/** The encoder writes the shortest definite form of a dictionary, and the decoder gives that dictionary back. */
module CborRoundTrip {
  import opened Bytes
  import opened Common
  import opened Cbor
  import opened CborProofs
  import Utf8

  // ----- Heads are shortest -----

  function Shortest(n: nat): (w: Width)
    requires n < 0x1_0000_0000
    ensures Fits(n, w)
  {
    if n < 24 then W0 else if n <= 0xff then W1 else if n <= 0xffff then W2 else W4
  }

  /** An argument below 2^32 has a head; it is an accepted one, and every other accepted head for it is longer. */
  lemma HeadIsShortest(major: nat, n: nat)
    requires major < 8
    ensures Head(major, n).Some? <==> n < 0x1_0000_0000
    ensures n < 0x1_0000_0000 ==> Head(major, n).value == RenderHead(major, n, Shortest(n))
    ensures forall w :: n < 0x1_0000_0000 && Fits(n, w) && w != Shortest(n) ==>
                          |Head(major, n).value| < |RenderHead(major, n, w)|
  {
    if 24 <= n <= 0xff {
      assert Be(n, 1) == [n];
    }
  }

  // ----- What can be encoded -----

  /** No number is negative, every text is well-formed, and numbers, text lengths and entry counts are below 2^32. */
  predicate Encodable(v: Value) {
    match v
    case Bool(_) => true
    case Int(n) => 0 <= n < 0x1_0000_0000
    case Text(t) => EncodableText(t)
    case Map(m) => Count(m) < 0x1_0000_0000 && EncodableEntries(m)
  }

  predicate EncodableText(t: bytes) {
    |t| < 0x1_0000_0000 && Utf8.WellFormed(t)
  }

  predicate EncodableEntries(m: Entries) {
    m.Cons? ==> EncodableText(m.key) && Encodable(m.value) && EncodableEntries(m.rest)
  }

  function Canon(v: Value): (f: Form)
    requires Encodable(v)
    ensures v.Text? ==> f.FText?
  {
    match v
    case Bool(on) => FBool(on)
    case Int(n) => FUint(n, Shortest(n))
    case Text(t) => FText(Chunk(t, Shortest(|t|)))
    case Map(m) => FMap(CanonEntries(m), Shortest(Count(m)))
  }

  function CanonEntries(m: Entries): (f: Forms)
    requires EncodableEntries(m)
    ensures FormCount(f) == Count(m)
  {
    match m
    case Nil => FNil
    case Cons(k, v, rest) => FCons(FText(Chunk(k, Shortest(|k|))), Canon(v), CanonEntries(rest))
  }

  lemma {:induction false} CanonSound(v: Value)
    requires Encodable(v)
    ensures Sound(Canon(v))
  {
    if v.Map? {
      CanonEntriesSound(v.entries);
    }
  }

  lemma {:induction false} CanonEntriesSound(m: Entries)
    requires EncodableEntries(m)
    ensures SoundEntries(CanonEntries(m))
  {
    if m.Cons? {
      CanonSound(m.value);
      CanonEntriesSound(m.rest);
    }
  }

  lemma EncodesText(t: bytes)
    ensures EncodeText(t).Some? <==> EncodableText(t)
    ensures EncodableText(t) ==> EncodeText(t) == Some(RenderChunk(Chunk(t, Shortest(|t|))))
  {
    HeadIsShortest(3, |t|);
  }

  /** The encoder succeeds exactly on encodable values, and what it writes is the canonical form. */
  lemma {:induction false} EncodesCanon(v: Value)
    ensures Encode(v).Some? <==> Encodable(v)
    ensures Encodable(v) ==> Sound(Canon(v)) && Encode(v) == Some(Render(Canon(v)))
  {
    if Encodable(v) {
      CanonSound(v);
    }
    match v
    case Bool(_) =>
    case Int(n) => if n >= 0 { HeadIsShortest(0, n); }
    case Text(t) => EncodesText(t);
    case Map(m) =>
      HeadIsShortest(5, Count(m));
      EncodesCanonEntries(m);
  }

  lemma {:induction false} EncodesCanonEntries(m: Entries)
    ensures EncodeEntries(m).Some? <==> EncodableEntries(m)
    ensures EncodableEntries(m) ==>
              SoundEntries(CanonEntries(m)) && EncodeEntries(m) == Some(RenderEntries(CanonEntries(m)))
  {
    if m.Cons? {
      EncodesText(m.key);
      EncodesCanon(m.value);
      EncodesCanonEntries(m.rest);
      if EncodableEntries(m) {
        CanonEntriesSound(m);
        var k, v, r := EncodeText(m.key).value, Encode(m.value).value, EncodeEntries(m.rest).value;
        assert k + (v + r) == (k + v) + r;
      }
    }
  }

  // ----- Entries assigned one after another -----

  function Plus(a: Entries, b: Entries): (r: Entries)
    ensures a == Nil ==> r == b
  {
    match a case Nil => b case Cons(k, v, rest) => Cons(k, v, Plus(rest, b))
  }

  lemma {:induction false} PlusNil(a: Entries)
    ensures Plus(a, Nil) == a
  {
    if a.Cons? {
      PlusNil(a.rest);
    }
  }

  lemma {:induction false} PutNew(a: Entries, k: bytes, v: Value, b: Entries)
    requires !HasKey(a, k)
    ensures Plus(Put(a, k, v), b) == Plus(a, Cons(k, v, b))
    decreases a
  {
    if a.Cons? {
      PutNew(a.rest, k, v, b);
    }
  }

  lemma {:induction false} PutKeys(a: Entries, k: bytes, v: Value, key: bytes)
    ensures HasKey(Put(a, k, v), key) <==> key == k || HasKey(a, key)
    decreases a
  {
    if a.Cons? {
      PutKeys(a.rest, k, v, key);
    }
  }

  ghost predicate Apart(a: Entries, b: Entries) {
    forall key :: HasKey(a, key) ==> !HasKey(b, key)
  }

  lemma {:induction false} CanonMeaning(v: Value)
    requires Encodable(v) && Distinct(v)
    ensures Sound(Canon(v)) && Meaning(Canon(v)) == v
  {
    CanonSound(v);
    if v.Map? {
      CanonEntriesMeaning(v.entries, Nil);
    }
  }

  lemma {:induction false} CanonEntriesMeaning(m: Entries, sofar: Entries)
    requires EncodableEntries(m) && DistinctKeys(m) && Apart(sofar, m)
    ensures SoundEntries(CanonEntries(m)) && MeaningEntries(CanonEntries(m), sofar) == Plus(sofar, m)
    decreases m
  {
    CanonEntriesSound(m);
    match m
    case Nil => PlusNil(sofar);
    case Cons(k, v, rest) =>
      CanonMeaning(v);
      assert HasKey(m, k);
      PutNew(sofar, k, v, rest);
      forall key | HasKey(Put(sofar, k, v), key) ensures !HasKey(rest, key) {
        PutKeys(sofar, k, v, key);
        assert HasKey(rest, key) ==> HasKey(m, key);
      }
      CanonEntriesMeaning(rest, Put(sofar, k, v));
  }

  // ----- Decoded dictionaries -----

  lemma {:induction false} PutDistinct(m: Entries, k: bytes, v: Value)
    requires DistinctKeys(m) && Distinct(v)
    ensures DistinctKeys(Put(m, k, v))
    decreases m
  {
    if m.Cons? {
      PutDistinct(m.rest, k, v);
      PutKeys(m.rest, k, v, m.key);
    }
  }

  lemma {:induction false} MeaningDistinct(f: Form)
    requires Sound(f)
    ensures Distinct(Meaning(f))
  {
    match f
    case FMap(m, _) => MeaningEntriesDistinct(m, Nil);
    case FOpenMap(m) => MeaningEntriesDistinct(m, Nil);
    case _ =>
  }

  lemma {:induction false} MeaningEntriesDistinct(m: Forms, sofar: Entries)
    requires SoundEntries(m) && DistinctKeys(sofar)
    ensures DistinctKeys(MeaningEntries(m, sofar))
    decreases m
  {
    if m.FCons? {
      MeaningDistinct(m.value);
      PutDistinct(sofar, TextOf(m.key), Meaning(m.value));
      MeaningEntriesDistinct(m.rest, Put(sofar, TextOf(m.key), Meaning(m.value)));
    }
  }

  /** Whatever the bytes say, a decoded map has no key twice. */
  lemma DecodedDistinct(s: bytes)
    ensures Parse(s).Got? ==> Distinct(Parse(s).value)
  {
    if Parse(s).Got? {
      var f := FormOf(s);
      MeaningDistinct(f);
    }
  }

  /** Reading an encoded value gives it back and stops at its end, exactly for values a dictionary can be. */
  lemma RoundTrip(v: Value, rest: bytes)
    requires Encode(v).Some?
    ensures Parse(Encode(v).value + rest) == Got(v, rest) <==> Distinct(v)
  {
    EncodesCanon(v);
    if Distinct(v) {
      CanonMeaning(v);
      Accepted(Canon(v), rest);
    } else {
      DecodedDistinct(Encode(v).value + rest);
    }
  }

  lemma MapRoundTrip(m: Entries)
    requires Encode(Map(m)).Some?
    ensures DecodeMap(Encode(Map(m)).value) == Some(m) <==> DistinctKeys(m)
  {
    RoundTrip(Map(m), []);
    assert Encode(Map(m)).value + [] == Encode(Map(m)).value;
  }

  /** No encoding is a prefix of another. */
  lemma PrefixFree(v: Value, rest: bytes, v': Value, rest': bytes)
    requires Encode(v).Some? && Encode(v').Some? && Distinct(v) && Distinct(v')
    requires Encode(v).value + rest == Encode(v').value + rest'
    ensures v == v' && rest == rest'
  {
    RoundTrip(v, rest);
    RoundTrip(v', rest');
  }

  // ----- Form independence -----

  /** Chunked texts and open maps read the same as their announced-length forms. */
  lemma OpenFormsAgree(cs: seq<Chunk>, m: Forms, w: Width, wm: Width, rest: bytes)
    requires Sound(FOpenText(cs)) && Fits(|JoinChunks(cs)|, w)
    requires SoundEntries(m) && Fits(FormCount(m), wm)
    ensures Parse(Render(FOpenText(cs)) + rest) == Parse(Render(FText(Chunk(JoinChunks(cs), w))) + rest)
    ensures Parse(Render(FOpenMap(m)) + rest) == Parse(Render(FMap(m, wm)) + rest)
    ensures Parse(Render(FOpenMap(m)) + rest).Got?
  {
    Accepted(FOpenText(cs), rest);
    Accepted(FText(Chunk(JoinChunks(cs), w)), rest);
    Accepted(FOpenMap(m), rest);
    Accepted(FMap(m, wm), rest);
  }
}
