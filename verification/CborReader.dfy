/** The encoder's loop and the reader that walks an offset through the payload, against the codec of module Cbor. */
module CborReader {
  import opened Bytes
  import opened Common
  import opened Cbor
  import Utf8

  // ----- Writing -----

  method EncodeValue(value: Value) returns (encoded: Option<bytes>)
    ensures encoded == Encode(value)
    decreases value
  {
    match value
    case Bool(on) => return Some([if on then 0xf5 else 0xf4]);
    case Int(n) =>
      if n < 0 {
        return None;
      }
      return Head(0, n);
    case Text(t) => return EncodeText(t);
    case Map(m) => encoded := EncodeMap(m);
  }

  lemma Appended(buffer: bytes, key: bytes, value: bytes, more: Option<bytes>)
    ensures Append(Some(buffer), Append(Append(Some(key), Some(value)), more)) ==
            Append(Some(buffer + key + value), more)
  {
    if more.Some? {
      assert buffer + ((key + value) + more.value) == (buffer + key + value) + more.value;
    }
  }

  method EncodeMap(values: Entries) returns (encoded: Option<bytes>)
    ensures encoded == Encode(Map(values))
    decreases values
  {
    var head := Head(5, Count(values));
    if head.None? {
      return None;
    }
    var buffer, left := head.value, values;
    while left.Cons?
      invariant left == values || left < values
      invariant Encode(Map(values)) == Append(Some(buffer), EncodeEntries(left))
      decreases left
    {
      var key := EncodeText(left.key);
      var value := EncodeValue(left.value);
      if key.None? || value.None? {
        return None;
      }
      Appended(buffer, key.value, value.value, EncodeEntries(left.rest));
      buffer := buffer + key.value + value.value;
      left := left.rest;
    }
    assert buffer + [] == buffer;
    return Some(buffer);
  }

  // ----- Reading -----

  class Reader {
    const data: bytes
    var offset: nat

    constructor (data: bytes)
      ensures this.data == data && offset == 0
    {
      this.data := data;
      offset := 0;
    }

    ghost predicate Valid()
      reads this
    {
      offset <= |data|
    }

    /** What is still to be read. */
    ghost function Rest(): bytes
      requires Valid()
      reads this
    {
      data[offset..]
    }

    /** A read that returned `value` did what `parsed` says; one that failed, failed because `parsed` does. */
    ghost predicate Did<T>(parsed: Parsed<T>, value: Option<T>)
      requires Valid()
      reads this
    {
      match parsed case Fail => value.None? case Got(v, rest) => value == Some(v) && Rest() == rest
    }

    method Read(count: nat) returns (chunk: Option<bytes>)
      requires Valid()
      modifies this
      ensures Valid() && offset >= old(offset) && (chunk.Some? ==> offset == old(offset) + count)
      ensures Did(Take(old(Rest()), count), chunk)
    {
      if offset + count > |data| {
        return None;
      }
      assert data[offset..][..count] == data[offset..offset + count];
      assert data[offset..][count..] == data[offset + count..];
      chunk := Some(data[offset..offset + count]);
      offset := offset + count;
    }

    predicate NextIsBreak()
      requires Valid()
      reads this
      ensures NextIsBreak() <==> AtBreak(Rest())
    {
      offset < |data| && data[offset] == 0xff
    }

    method ReadBreak() returns (ok: bool)
      requires Valid()
      modifies this
      ensures Valid() && ok == old(NextIsBreak())
      ensures ok ==> Rest() == old(Rest())[1..] && offset == old(offset) + 1
    {
      if !NextIsBreak() {
        return false;
      }
      offset := offset + 1;
      return true;
    }

    method ReadNumber(width: nat) returns (n: Option<nat>)
      requires Valid()
      modifies this
      ensures Valid() && offset >= old(offset)
      ensures Did(TakeNumber(old(Rest()), width), n)
    {
      var b := Read(width);
      return match b case None => None case Some(b) => Some(FromBe(b));
    }

    method ReadLen(additional: nat) returns (n: Option<nat>)
      requires Valid()
      modifies this
      ensures Valid() && offset >= old(offset)
      ensures Did(ParseLen(additional, old(Rest())), n)
    {
      if additional < 24 {
        return Some(additional);
      }
      if additional == 24 {
        n := ReadNumber(1);
      } else if additional == 25 {
        n := ReadNumber(2);
      } else if additional == 26 {
        n := ReadNumber(4);
      } else if additional == 27 {
        n := ReadNumber(8);
      } else {
        return None;
      }
    }

    method ReadChunk(additional: nat) returns (chunk: Option<bytes>)
      requires Valid()
      modifies this
      ensures Valid() && offset >= old(offset)
      ensures Did(ParseText(additional, old(Rest())), chunk)
    {
      var length := ReadLen(additional);
      if length.None? {
        return None;
      }
      chunk := Read(length.value);
    }

    /** The bytes of a text, decoded. */
    method ReadText(additional: nat) returns (text: Option<Value>)
      requires Valid()
      modifies this
      ensures Valid() && offset >= old(offset)
      ensures Did(AsText(ParseText(additional, old(Rest()))), text)
    {
      var chunk := ReadChunk(additional);
      if chunk.None? || !Utf8.WellFormed(chunk.value) {
        return None;
      }
      return Some(Text(chunk.value));
    }

    method ReadIndefiniteText() returns (text: Option<Value>)
      requires Valid()
      modifies this
      ensures Valid() && offset >= old(offset)
      ensures Did(AsText(ParseChunks(old(Rest()), [])), text)
    {
      var chunks: bytes := [];
      while !NextIsBreak()
        invariant Valid() && offset >= old(offset)
        invariant ParseChunks(Rest(), chunks) == ParseChunks(old(Rest()), [])
        decreases |data| - offset
      {
        ghost var before := Rest();
        var initial := Read(1);
        if initial.None? {
          return None;
        }
        var major, additional := initial.value[0] / 32, initial.value[0] % 32;
        if major != 3 || additional == 31 {
          return None;
        }
        var chunk := ReadChunk(additional);
        if chunk.None? {
          return None;
        }
        chunks := chunks + chunk.value;
      }
      var _ := ReadBreak();
      if !Utf8.WellFormed(chunks) {
        return None;
      }
      return Some(Text(chunks));
    }

    method ReadMapEntry(result: Entries) returns (next: Option<Entries>)
      requires Valid()
      modifies this
      ensures Valid() && offset >= old(offset) && (next.Some? ==> offset > old(offset))
      ensures Did(ParseEntry(old(Rest()), result), next)
      decreases |data| - offset, 1
    {
      var key := ReadValue();
      if key.None? || !key.value.Text? {
        return None;
      }
      var value := ReadValue();
      if value.None? {
        return None;
      }
      return Some(Put(result, key.value.text, value.value));
    }

    method ReadOpenMap() returns (result: Option<Entries>)
      requires Valid()
      modifies this
      ensures Valid() && offset >= old(offset)
      ensures Did(ParseOpenEntries(old(Rest()), Nil), result)
      decreases |data| - offset, 2
    {
      var entries := Nil;
      while !NextIsBreak()
        invariant Valid() && offset >= old(offset)
        invariant ParseOpenEntries(Rest(), entries) == ParseOpenEntries(old(Rest()), Nil)
        decreases |data| - offset
      {
        var next := ReadMapEntry(entries);
        if next.None? {
          return None;
        }
        entries := next.value;
      }
      var _ := ReadBreak();
      return Some(entries);
    }

    method ReadMap(length: nat) returns (result: Option<Entries>)
      requires Valid()
      modifies this
      ensures Valid() && offset >= old(offset)
      ensures Did(ParseEntries(old(Rest()), length, Nil), result)
      decreases |data| - offset, 2
    {
      var entries := Nil;
      for i := 0 to length
        invariant Valid() && offset >= old(offset)
        invariant ParseEntries(Rest(), length - i, entries) == ParseEntries(old(Rest()), length, Nil)
      {
        var next := ReadMapEntry(entries);
        if next.None? {
          return None;
        }
        entries := next.value;
      }
      return Some(entries);
    }

    method ReadValue() returns (value: Option<Value>)
      requires Valid()
      modifies this
      ensures Valid() && offset >= old(offset) && (value.Some? ==> offset > old(offset))
      ensures Did(Parse(old(Rest())), value)
      decreases |data| - offset, 0
    {
      var initial := Read(1);
      if initial.None? {
        return None;
      }
      var major, additional := initial.value[0] / 32, initial.value[0] % 32;
      if major == 0 {
        var n := ReadLen(additional);
        return match n case None => None case Some(n) => Some(Int(n));
      }
      if major == 3 {
        if additional == 31 {
          value := ReadIndefiniteText();
        } else {
          value := ReadText(additional);
        }
        return;
      }
      if major == 5 {
        var entries: Option<Entries>;
        if additional == 31 {
          entries := ReadOpenMap();
        } else {
          var length := ReadLen(additional);
          if length.None? {
            return None;
          }
          entries := ReadMap(length.value);
        }
        return match entries case None => None case Some(m) => Some(Map(m));
      }
      if major == 7 && (additional == 20 || additional == 21) {
        return Some(Bool(additional == 21));
      }
      return None;
    }
  }

  method ReadWholeMap(data: bytes) returns (result: Option<Entries>)
    ensures result == DecodeMap(data)
  {
    var reader := new Reader(data);
    var value := reader.ReadValue();
    assert data[0..] == data;
    if value.None? || reader.offset != |data| || !value.value.Map? {
      return None;
    }
    return Some(value.value.entries);
  }
}
