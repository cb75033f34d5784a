/**
 * Among the forms that announce their lengths, the encoder's is the shortest; among all accepted forms it is exactly
 * for values without a map of 256 entries or more, at any depth.
 */
module CborShortest {
  import opened Bytes
  import opened Cbor
  import opened CborRoundTrip

  function HeadSize(n: nat): nat {
    if n < 24 then 1 else if n <= 0xff then 2 else if n <= 0xffff then 3 else if n < LIMIT then 5 else 9
  }

  function Size(v: Value): nat {
    match v
    case Bool(_) => 1
    case Int(n) => if n < 0 then 0 else HeadSize(n)
    case Text(t) => HeadSize(|t|) + |t|
    case Map(m) => HeadSize(Count(m)) + SizeEntries(m)
  }

  function SizeEntries(m: Entries): nat {
    match m case Nil => 0 case Cons(k, v, rest) => HeadSize(|k|) + |k| + Size(v) + SizeEntries(rest)
  }

  predicate Definite(f: Form) {
    match f case FOpenText(_) => false case FOpenMap(_) => false case FMap(m, _) => DefiniteEntries(m) case _ => true
  }

  predicate DefiniteEntries(m: Forms) {
    m.FCons? ==> Definite(m.key) && Definite(m.value) && DefiniteEntries(m.rest)
  }

  lemma {:induction false} PutSize(m: Entries, k: bytes, v: Value)
    ensures SizeEntries(Put(m, k, v)) <= SizeEntries(m) + HeadSize(|k|) + |k| + Size(v)
    ensures Count(Put(m, k, v)) <= Count(m) + 1
    decreases m
  {
    if m.Cons? {
      PutSize(m.rest, k, v);
    }
  }

  lemma HeadAtLeast(major: nat, n: nat, w: Width)
    requires major < 8 && Fits(n, w)
    ensures |RenderHead(major, n, w)| >= HeadSize(n)
  {
  }

  lemma {:induction false} RenderAtLeast(f: Form)
    requires Sound(f) && Definite(f)
    ensures |Render(f)| >= Size(Meaning(f))
  {
    match f
    case FBool(_) =>
    case FUint(n, w) => HeadAtLeast(0, n, w);
    case FText(c) => HeadAtLeast(3, |c.text|, c.w);
    case FMap(m, w) =>
      HeadAtLeast(5, FormCount(m), w);
      EntriesAtLeast(m, Nil);
  }

  lemma {:induction false} EntriesAtLeast(m: Forms, sofar: Entries)
    requires SoundEntries(m) && DefiniteEntries(m)
    ensures |RenderEntries(m)| + SizeEntries(sofar) >= SizeEntries(MeaningEntries(m, sofar))
    ensures FormCount(m) + Count(sofar) >= Count(MeaningEntries(m, sofar))
    decreases m
  {
    if m.FCons? {
      var k, v := TextOf(m.key), Meaning(m.value);
      RenderAtLeast(m.key);
      RenderAtLeast(m.value);
      PutSize(sofar, k, v);
      EntriesAtLeast(m.rest, Put(sofar, k, v));
    }
  }

  lemma {:induction false} EncodeSize(v: Value)
    requires Encode(v).Some?
    ensures |Encode(v).value| == Size(v)
  {
    if v.Map? {
      EntriesSize(v.entries);
    }
  }

  lemma {:induction false} EntriesSize(m: Entries)
    requires EncodeEntries(m).Some?
    ensures |EncodeEntries(m).value| == SizeEntries(m)
  {
    if m.Cons? {
      EncodeSize(m.value);
      EntriesSize(m.rest);
    }
  }

  lemma EncodingIsShortest(v: Value, f: Form)
    requires Encode(v).Some? && Sound(f) && Definite(f) && Meaning(f) == v
    ensures |Encode(v).value| <= |Render(f)|
  {
    EncodeSize(v);
    RenderAtLeast(f);
  }

  /** With 256 entries or more, the same entries between an open head and a break take fewer bytes. */
  lemma OpenMapIsShorter(m: Entries)
    requires Encode(Map(m)).Some? && DistinctKeys(m)
    ensures Encodable(Map(m))
    ensures Count(m) >= 256 <==>
            && SoundEntries(CanonEntries(m))
            && Meaning(FOpenMap(CanonEntries(m))) == Map(m)
            && |Render(FOpenMap(CanonEntries(m)))| < |Encode(Map(m)).value|
  {
    EncodesCanon(Map(m));
    CanonMeaning(Map(m));
    EncodesCanonEntries(m);
    HeadIsShortest(5, Count(m));
  }

  // ----- Among all accepted forms -----

  /** No map in the value, at any depth, has 256 entries or more. */
  predicate SmallMaps(v: Value) {
    v.Map? ==> Count(v.entries) < 256 && SmallMapsIn(v.entries)
  }

  predicate SmallMapsIn(m: Entries) {
    m.Cons? ==> SmallMaps(m.value) && SmallMapsIn(m.rest)
  }

  function Min(a: nat, b: nat): nat {
    if a < b then a else b
  }

  /** What any form of the value takes at least: an open map pays two bytes for its head and break. */
  function Least(v: Value): nat {
    match v
    case Bool(_) => 1
    case Int(n) => if n < 0 then 0 else HeadSize(n)
    case Text(t) => Min(HeadSize(|t|), 5) + |t|
    case Map(m) => Min(HeadSize(Count(m)), 2) + LeastEntries(m)
  }

  function LeastEntries(m: Entries): nat {
    match m case Nil => 0 case Cons(k, v, rest) => Min(HeadSize(|k|), 5) + |k| + Least(v) + LeastEntries(rest)
  }

  /** Few bytes of chunk heads carry little text. */
  lemma {:induction false} ChunkHeads(cs: seq<Chunk>)
    requires SoundChunks(cs)
    ensures var heads := |RenderChunks(cs)| - |JoinChunks(cs)|;
            heads >= 0 && (heads < 3 ==> |JoinChunks(cs)| <= 255 * heads)
  {
    if cs != [] {
      ChunkHeads(cs[1..]);
      HeadAtLeast(3, |cs[0].text|, cs[0].w);
    }
  }

  lemma OpenTextAtLeast(cs: seq<Chunk>)
    requires Sound(FOpenText(cs))
    ensures |Render(FOpenText(cs))| >= Least(Text(JoinChunks(cs)))
  {
    ChunkHeads(cs);
  }

  lemma {:induction false} PutLeast(m: Entries, k: bytes, v: Value)
    ensures LeastEntries(Put(m, k, v)) <= LeastEntries(m) + Least(Text(k)) + Least(v)
    ensures Count(Put(m, k, v)) <= Count(m) + 1
    decreases m
  {
    if m.Cons? {
      PutLeast(m.rest, k, v);
    }
  }

  lemma {:induction false} AnyFormAtLeast(f: Form)
    requires Sound(f)
    ensures |Render(f)| >= Least(Meaning(f))
  {
    match f
    case FBool(_) =>
    case FUint(n, w) => HeadAtLeast(0, n, w);
    case FText(c) => HeadAtLeast(3, |c.text|, c.w);
    case FOpenText(cs) => OpenTextAtLeast(cs);
    case FMap(m, w) =>
      HeadAtLeast(5, FormCount(m), w);
      AnyEntriesAtLeast(m, Nil);
    case FOpenMap(m) =>
      AnyEntriesAtLeast(m, Nil);
  }

  lemma {:induction false} AnyEntriesAtLeast(m: Forms, sofar: Entries)
    requires SoundEntries(m)
    ensures |RenderEntries(m)| + LeastEntries(sofar) >= LeastEntries(MeaningEntries(m, sofar))
    ensures FormCount(m) + Count(sofar) >= Count(MeaningEntries(m, sofar))
    decreases m
  {
    if m.FCons? {
      var k, v := TextOf(m.key), Meaning(m.value);
      AnyFormAtLeast(m.key);
      AnyFormAtLeast(m.value);
      PutLeast(sofar, k, v);
      AnyEntriesAtLeast(m.rest, Put(sofar, k, v));
    }
  }

  lemma {:induction false} SmallIsLeast(v: Value)
    requires Encodable(v)
    ensures SmallMaps(v) ==> Size(v) == Least(v)
  {
    if v.Map? {
      SmallEntriesLeast(v.entries);
    }
  }

  lemma {:induction false} SmallEntriesLeast(m: Entries)
    requires EncodableEntries(m)
    ensures SmallMapsIn(m) ==> SizeEntries(m) == LeastEntries(m)
  {
    if m.Cons? {
      SmallIsLeast(m.value);
      SmallEntriesLeast(m.rest);
    }
  }

  /** The encoder's form, with every map of 256 entries or more left open. */
  function Tight(v: Value): (f: Form)
    requires Encodable(v)
    ensures v.Text? ==> f.FText?
  {
    match v
    case Map(m) => if Count(m) >= 256 then FOpenMap(TightEntries(m)) else FMap(TightEntries(m), Shortest(Count(m)))
    case _ => Canon(v)
  }

  function TightEntries(m: Entries): (f: Forms)
    requires EncodableEntries(m)
    ensures FormCount(f) == Count(m)
  {
    match m
    case Nil => FNil
    case Cons(k, v, rest) => FCons(FText(Chunk(k, Shortest(|k|))), Tight(v), TightEntries(rest))
  }

  lemma HeadLength(major: nat, n: nat)
    requires major < 8 && n < LIMIT
    ensures |RenderHead(major, n, Shortest(n))| == HeadSize(n)
  {
  }

  lemma {:induction false} TightForm(v: Value)
    requires Encodable(v)
    ensures Sound(Tight(v)) && Meaning(Tight(v)) == MeaningOfCanon(v)
    ensures |Render(Tight(v))| <= Size(v)
    ensures !SmallMaps(v) ==> |Render(Tight(v))| < Size(v)
  {
    CanonSound(v);
    match v
    case Bool(_) =>
    case Int(n) => HeadLength(0, n);
    case Text(t) => HeadLength(3, |t|);
    case Map(m) =>
      HeadLength(5, Count(m));
      TightEntriesForm(m, Nil);
  }

  function MeaningOfCanon(v: Value): Value
    requires Encodable(v)
  {
    CanonSound(v);
    Meaning(Canon(v))
  }

  lemma {:induction false} TightEntriesForm(m: Entries, sofar: Entries)
    requires EncodableEntries(m)
    ensures SoundEntries(TightEntries(m)) && SoundEntries(CanonEntries(m))
    ensures MeaningEntries(TightEntries(m), sofar) == MeaningEntries(CanonEntries(m), sofar)
    ensures |RenderEntries(TightEntries(m))| <= SizeEntries(m)
    ensures !SmallMapsIn(m) ==> |RenderEntries(TightEntries(m))| < SizeEntries(m)
    decreases m
  {
    if m.Cons? {
      HeadLength(3, |m.key|);
      TightForm(m.value);
      CanonEntriesSound(m);
      TightEntriesForm(m.rest, Put(sofar, m.key, MeaningOfCanon(m.value)));
    }
  }

  /**
   * The encoding is the shortest of all accepted forms of a value exactly when no map in it has 256 entries or more;
   * a value no dictionary can be has no accepted form at all.
   */
  lemma ShortestOfAllIff(v: Value)
    requires Encode(v).Some?
    ensures (forall f :: Sound(f) && Meaning(f) == v ==> |Encode(v).value| <= |Render(f)|)
            <==> SmallMaps(v) || !Distinct(v)
  {
    EncodesCanon(v);
    EncodeSize(v);
    if !Distinct(v) {
      forall f | Sound(f) && Meaning(f) == v
        ensures false
      {
        MeaningDistinct(f);
      }
    } else if SmallMaps(v) {
      SmallIsLeast(v);
      forall f | Sound(f) && Meaning(f) == v
        ensures |Encode(v).value| <= |Render(f)|
      {
        AnyFormAtLeast(f);
      }
    } else {
      CanonMeaning(v);
      TightForm(v);
      assert Sound(Tight(v)) && Meaning(Tight(v)) == v && |Render(Tight(v))| < |Encode(v).value|;
    }
  }
}
