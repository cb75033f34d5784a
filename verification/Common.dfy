/** Result types and facts about sequences shared by the models. */
module Common {
  datatype Option<+T> = None | Some(value: T)

  datatype Result<+T, +E> = Ok(value: T) | Err(error: E)

  lemma Associate<T>(a: seq<T>, b: seq<T>, c: seq<T>)
    ensures a + (b + c) == a + b + c
  {
  }

  lemma Neutral<T>(a: seq<T>)
    ensures [] + a == a && a + [] == a
  {
  }

  lemma HeadAndRest<T>(s: seq<T>)
    requires s != []
    ensures s == [s[0]] + s[1..]
  {
  }

  /** The same start in front of both sides. */
  lemma Prefixed<T>(start: seq<T>, whole: seq<T>, part: seq<T>, left: seq<T>, right: seq<T>)
    requires whole == start + (left + right) && part == start + left
    ensures whole == part + right
  {
  }

  lemma DropInFront<T>(a: seq<T>, b: seq<T>)
    requires a != []
    ensures (a + b)[0] == a[0] && (a + b)[1..] == a[1..] + b
  {
  }

  lemma AfterFirst<T>(first: T, rest: seq<T>)
    ensures ([first] + rest)[0] == first && ([first] + rest)[1..] == rest
  {
  }
}
