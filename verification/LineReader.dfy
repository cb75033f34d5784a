/**
 * How the daemon cuts a client's byte stream into request lines (host/rp2350_relay_6ch/daemon.py): what arrives in
 * chunks is split at newlines, long lines are refused, and a client that sends too much without one is dropped.
 */
module LineReader {
  import opened Bytes
  import opened Common

  const NEWLINE: byte := 10
  const MAX_FRAME: nat := 4096
  const MAX_CHUNK: nat := 4096

  // ----- Splitting -----

  predicate Unbroken(data: bytes) {
    forall i :: 0 <= i < |data| ==> data[i] != NEWLINE
  }

  /** Where the first newline is, or the length when there is none. */
  function Cut(data: bytes): (k: nat)
    ensures k <= |data| && (k < |data| ==> data[k] == NEWLINE)
    ensures forall i :: 0 <= i < k ==> data[i] != NEWLINE
  {
    CutFrom(data, 0)
  }

  function CutFrom(data: bytes, from: nat): (k: nat)
    requires from <= |data|
    ensures from <= k <= |data| && (k < |data| ==> data[k] == NEWLINE)
    ensures forall i :: from <= i < k ==> data[i] != NEWLINE
    decreases |data| - from
  {
    if from == |data| || data[from] == NEWLINE then from else CutFrom(data, from + 1)
  }

  function Lines(data: bytes): seq<bytes>
    decreases |data|
  {
    var k := Cut(data);
    if k == |data| then [] else [data[..k]] + Lines(data[k + 1..])
  }

  function Tail(data: bytes): (t: bytes)
    ensures |t| <= |data| && Unbroken(t)
    decreases |data|
  {
    var k := Cut(data);
    if k == |data| then data else Tail(data[k + 1..])
  }

  lemma {:induction false} CutAt(data: bytes, k: nat)
    requires k <= |data| && (k < |data| ==> data[k] == NEWLINE)
    requires forall i :: 0 <= i < k ==> data[i] != NEWLINE
    ensures Cut(data) == k
  {
  }

  lemma {:induction false} NoLine(data: bytes)
    requires Unbroken(data)
    ensures Lines(data) == [] && Tail(data) == data
  {
    CutAt(data, |data|);
  }

  lemma {:induction false} OneLine(line: bytes)
    requires Unbroken(line)
    ensures Lines(line + [NEWLINE]) == [line] && Tail(line + [NEWLINE]) == []
  {
    var data := line + [NEWLINE];
    CutAt(data, |line|);
    assert data[..|line|] == line && data[|line| + 1..] == [];
    NoLine([]);
  }

  lemma {:induction false} TailHasNoLines(data: bytes)
    ensures Lines(Tail(data)) == [] && Tail(Tail(data)) == Tail(data)
    decreases |data|
  {
    var k := Cut(data);
    if k == |data| {
      assert Tail(data) == data;
    } else {
      TailHasNoLines(data[k + 1..]);
    }
  }

  lemma {:induction false} RestAfterLine(a: bytes, b: bytes)
    requires Cut(a) < |a|
    ensures Cut(a + b) == Cut(a) && (a + b)[Cut(a) + 1..] == a[Cut(a) + 1..] + b && (a + b)[..Cut(a)] == a[..Cut(a)]
  {
    CutAt(a + b, Cut(a));
  }

  lemma {:induction false} FirstLine(data: bytes, rest: bytes)
    requires Cut(data) < |data| && rest == data[Cut(data) + 1..]
    ensures Lines(data) == [data[..Cut(data)]] + Lines(rest) && Tail(data) == Tail(rest)
  {
  }

  lemma {:induction false} NoFirstLine(data: bytes)
    requires Cut(data) == |data|
    ensures Lines(data) == [] && Tail(data) == data
  {
  }

  /** One more line in front of both sides. */
  lemma {:induction false} SplitFurther(a: bytes, b: bytes, whole: bytes, rest: bytes, end: bytes)
    requires Cut(a) < |a| && rest == a[Cut(a) + 1..] && Cut(whole) == Cut(a) && |whole| == |a| + |b|
    requires whole[Cut(a) + 1..] == rest + b && whole[..Cut(a)] == a[..Cut(a)]
    requires Lines(rest + b) == Lines(rest) + Lines(end + b) && Tail(rest + b) == Tail(end + b)
    ensures Lines(whole) == Lines(a) + Lines(end + b) && Tail(whole) == Tail(end + b)
  {
    FirstLine(a, rest);
    FirstLine(whole, rest + b);
    Prefixed([a[..Cut(a)]], Lines(whole), Lines(a), Lines(rest), Lines(end + b));
  }

  /** Splitting what is left over together with what comes next splits the whole. */
  lemma {:induction false} SplitConcat(a: bytes, b: bytes)
    ensures Lines(a + b) == Lines(a) + Lines(Tail(a) + b)
    ensures Tail(a + b) == Tail(Tail(a) + b)
    decreases |a|
  {
    var k := Cut(a);
    if k < |a| {
      RestAfterLine(a, b);
      SplitConcat(a[k + 1..], b);
      FirstLine(a, a[k + 1..]);
      SplitFurther(a, b, a + b, a[k + 1..], Tail(a));
    } else {
      NoFirstLine(a);
      Neutral(Lines(a + b));
    }
  }

  /** What arrives when these lines are sent, each with its newline, and then a rest without one. */
  function Sent(lines: seq<bytes>, rest: bytes): bytes {
    if lines == [] then rest else lines[0] + [10] + Sent(lines[1..], rest)
  }

  predicate NoNewline(data: bytes) {
    forall i :: 0 <= i < |data| ==> data[i] != 10
  }

  /** Lines and tail are the one way to write a stream as lines that end in a newline and a rest without one. */
  lemma {:induction false} SplitIff(data: bytes, lines: seq<bytes>, rest: bytes)
    ensures lines == Lines(data) && rest == Tail(data) <==>
            && data == Sent(lines, rest) && NoNewline(rest)
            && forall i :: 0 <= i < |lines| ==> NoNewline(lines[i])
    decreases |data|, |lines|
  {
    SplitSent(data);
    if data == Sent(lines, rest) && NoNewline(rest) && forall i :: 0 <= i < |lines| ==> NoNewline(lines[i]) {
      SentSplit(lines, rest);
    }
  }

  lemma {:induction false} SplitSent(data: bytes)
    ensures data == Sent(Lines(data), Tail(data)) && NoNewline(Tail(data))
    ensures forall i :: 0 <= i < |Lines(data)| ==> NoNewline(Lines(data)[i])
    decreases |data|
  {
    var k := Cut(data);
    if k < |data| {
      var rest := data[k + 1..];
      SplitSent(rest);
      FirstLine(data, rest);
      SentFirst(data[..k], Lines(rest), Tail(rest));
      ThreeParts(data, k);
    }
  }

  lemma ThreeParts(data: bytes, k: nat)
    requires k < |data| && data[k] == 10
    ensures data == data[..k] + [10] + data[k + 1..]
  {
  }

  lemma SentFirst(line: bytes, lines: seq<bytes>, rest: bytes)
    ensures Sent([line] + lines, rest) == line + [10] + Sent(lines, rest)
  {
    AfterFirst(line, lines);
  }

  lemma {:induction false} SentSplit(lines: seq<bytes>, rest: bytes)
    requires NoNewline(rest) && forall i :: 0 <= i < |lines| ==> NoNewline(lines[i])
    ensures Lines(Sent(lines, rest)) == lines && Tail(Sent(lines, rest)) == rest
  {
    if lines == [] {
      NoLine(rest);
    } else {
      var data, more := Sent(lines, rest), Sent(lines[1..], rest);
      SentSplit(lines[1..], rest);
      CutAt(data, |lines[0]|);
      assert data[..|lines[0]|] == lines[0] && data[|lines[0]| + 1..] == more;
      FirstLine(data, more);
    }
  }

  // ----- One client -----

  datatype Conn = Open(buffer: bytes) | Closed

  datatype Event = Queued(line: bytes) | Refused | Dropped

  function EventOf(line: bytes): Event {
    if |line| > MAX_FRAME then Refused else Queued(line)
  }

  function EventsOf(lines: seq<bytes>): (events: seq<Event>)
    ensures |events| == |lines|
  {
    seq(|lines|, i requires 0 <= i < |lines| => EventOf(lines[i]))
  }

  lemma EventsConcat(a: seq<bytes>, b: seq<bytes>)
    ensures EventsOf(a + b) == EventsOf(a) + EventsOf(b)
  {
  }

  datatype Outcome = Outcome(conn: Conn, events: seq<Event>)

  /** One chunk, read into the buffer. */
  function Receive(conn: Conn, chunk: bytes): Outcome {
    match conn
    case Closed => Outcome(Closed, [])
    case Open(buffer) =>
      var data := buffer + chunk;
      if |Tail(data)| > MAX_FRAME then Outcome(Closed, EventsOf(Lines(data)) + [Dropped])
      else Outcome(Open(Tail(data)), EventsOf(Lines(data)))
  }

  function Feed(conn: Conn, chunks: seq<bytes>): Outcome
    decreases |chunks|
  {
    if chunks == [] then Outcome(conn, [])
    else
      var first := Receive(conn, chunks[0]);
      var rest := Feed(first.conn, chunks[1..]);
      Outcome(rest.conn, first.events + rest.events)
  }

  function Flat(chunks: seq<bytes>): bytes {
    if chunks == [] then [] else chunks[0] + Flat(chunks[1..])
  }

  /** What one read of the socket can return. */
  predicate Chunks(chunks: seq<bytes>) {
    forall i :: 0 <= i < |chunks| ==> 1 <= |chunks[i]| <= 4096
  }

  lemma {:induction false} FeedConcat(conn: Conn, a: seq<bytes>, b: seq<bytes>)
    ensures Feed(conn, a + b).conn == Feed(Feed(conn, a).conn, b).conn
    ensures Feed(conn, a + b).events == Feed(conn, a).events + Feed(Feed(conn, a).conn, b).events
    decreases |a|
  {
    if a == [] {
      assert a + b == b;
    } else {
      assert (a + b)[0] == a[0] && (a + b)[1..] == a[1..] + b;
      FeedConcat(Receive(conn, a[0]).conn, a[1..], b);
    }
  }

  lemma {:induction false} FlatConcat(a: seq<bytes>, b: seq<bytes>)
    ensures Flat(a + b) == Flat(a) + Flat(b)
  {
    if a == [] {
      assert a + b == b;
    } else {
      assert (a + b)[1..] == a[1..] + b;
      FlatConcat(a[1..], b);
      assert a[0] + (Flat(a[1..]) + Flat(b)) == (a[0] + Flat(a[1..])) + Flat(b);
    }
  }

  lemma {:induction false} ClosedStays(chunks: seq<bytes>)
    ensures Feed(Closed, chunks) == Outcome(Closed, [])
  {
    if chunks != [] {
      ClosedStays(chunks[1..]);
    }
  }

  // ----- When the chunks do not matter -----

  /** The length of the first line over the limit, unfinished or not, decides. */
  datatype Verdict = Fits | Borderline | Fatal

  function Judge(data: bytes): Verdict
    decreases |data|
  {
    var k := Cut(data);
    if k == |data| then if k > MAX_FRAME then Fatal else Fits
    else if k >= MAX_FRAME + MAX_CHUNK then Fatal
    else if k > MAX_FRAME then Borderline
    else Judge(data[k + 1..])
  }

  /** The lines before the first one over the limit. */
  function Before(data: bytes): seq<bytes>
    decreases |data|
  {
    var k := Cut(data);
    if k == |data| || k > MAX_FRAME then [] else [data[..k]] + Before(data[k + 1..])
  }

  /** What every chunking leads to, when they all lead to the same. */
  function Expected(data: bytes): Outcome {
    if Judge(data) == Fits then Outcome(Open(Tail(data)), EventsOf(Lines(data)))
    else Outcome(Closed, EventsOf(Before(data)) + [Dropped])
  }

  /** An unfinished line over the limit is the first line over the limit, if no borderline one comes before it. */
  lemma {:induction false} TooLongSoFar(a: bytes, b: bytes)
    requires |a| <= MAX_FRAME + MAX_CHUNK && |Tail(a)| > MAX_FRAME && Judge(a + b) != Borderline
    ensures Judge(a + b) == Fatal && Before(a + b) == Lines(a)
    decreases |a|
  {
    var k := Cut(a);
    if k == |a| {
      NoFirstLine(a);
      LongStart(a, b);
    } else {
      RestAfterLine(a, b);
      FirstLine(a, a[k + 1..]);
      TooLongSoFar(a[k + 1..], b);
    }
  }

  /** A stream that starts with more than the limit and no newline. */
  lemma {:induction false} LongStart(a: bytes, b: bytes)
    requires |a| > MAX_FRAME && Unbroken(a) && Judge(a + b) != Borderline
    ensures Judge(a + b) == Fatal && Before(a + b) == []
  {
    assert forall i :: 0 <= i < |a| ==> (a + b)[i] == a[i];
    assert Cut(a + b) >= |a|;
  }

  lemma {:induction false} FineSoFar(a: bytes, b: bytes)
    requires |a| <= MAX_FRAME + MAX_CHUNK && |Tail(a)| <= MAX_FRAME && Judge(a + b) != Borderline
    ensures Judge(a + b) == Judge(Tail(a) + b) && Before(a + b) == Lines(a) + Before(Tail(a) + b)
    decreases |a|
  {
    var k := Cut(a);
    if k < |a| {
      RestAfterLine(a, b);
      FineSoFar(a[k + 1..], b);
      Prefixed([a[..k]], Before(a + b), Lines(a), Lines(a[k + 1..]), Before(Tail(a) + b));
    } else {
      Neutral(Before(a + b));
    }
  }

  /** A chunk that leaves a fitting rest adds its lines in front of what the rest of the stream leads to. */
  lemma {:induction false} ExpectedFront(a: bytes, b: bytes)
    requires |a| <= MAX_FRAME + MAX_CHUNK && |Tail(a)| <= MAX_FRAME && Judge(a + b) != Borderline
    ensures Judge(Tail(a) + b) == Judge(a + b)
    ensures var rest := Expected(Tail(a) + b);
            Expected(a + b) == Outcome(rest.conn, EventsOf(Lines(a)) + rest.events)
  {
    FineSoFar(a, b);
    SplitConcat(a, b);
    var t := Tail(a) + b;
    EventsConcat(Lines(a), Lines(t));
    EventsConcat(Lines(a), Before(t));
    Associate(EventsOf(Lines(a)), EventsOf(Before(t)), [Dropped]);
  }

  lemma {:induction false} FitsUnbroken(buffer: bytes)
    requires |buffer| <= MAX_FRAME && Unbroken(buffer)
    ensures Expected(buffer) == Outcome(Open(buffer), [])
  {
    CutAt(buffer, |buffer|);
  }

  /** Unless a borderline line comes first, every way of cutting a stream into chunks leads to what is expected. */
  lemma {:induction false} FeedExpected(buffer: bytes, chunks: seq<bytes>)
    requires |buffer| <= MAX_FRAME && Unbroken(buffer) && Chunks(chunks)
    requires Judge(buffer + Flat(chunks)) != Borderline
    ensures Feed(Open(buffer), chunks) == Expected(buffer + Flat(chunks))
    decreases |chunks|
  {
    if chunks == [] {
      assert buffer + Flat(chunks) == buffer;
      FitsUnbroken(buffer);
    } else {
      var data, rest := buffer + chunks[0], Flat(chunks[1..]);
      assert buffer + Flat(chunks) == data + rest;
      if |Tail(data)| > MAX_FRAME {
        TooLongSoFar(data, rest);
        ClosedStays(chunks[1..]);
      } else {
        ExpectedFront(data, rest);
        FeedExpected(Tail(data), chunks[1..]);
      }
    }
  }

  // ----- When they do -----

  function Singles(data: bytes): (chunks: seq<bytes>)
    ensures Chunks(chunks)
  {
    seq(|data|, i requires 0 <= i < |data| => [data[i]])
  }

  lemma {:induction false} SinglesFlat(data: bytes)
    ensures Flat(Singles(data)) == data
  {
    if data != [] {
      assert Singles(data)[1..] == Singles(data[1..]);
      SinglesFlat(data[1..]);
    }
  }

  /** Where the borderline line starts. */
  function Start(data: bytes): (p: nat)
    requires Judge(data) == Borderline
    ensures p < |data|
    decreases |data|
  {
    var k := Cut(data);
    if k > MAX_FRAME then 0 else k + 1 + Start(data[k + 1..])
  }

  lemma {:induction false} StartsThere(data: bytes)
    requires Judge(data) == Borderline
    ensures var p := Start(data);
            MAX_FRAME < Cut(data[p..]) < MAX_FRAME + MAX_CHUNK && Cut(data[p..]) < |data[p..]|
    decreases |data|
  {
    var k := Cut(data);
    if k > MAX_FRAME {
      assert data[0..] == data;
    } else {
      StartsThere(data[k + 1..]);
      assert data[Start(data)..] == data[k + 1..][Start(data[k + 1..])..];
    }
  }

  lemma {:induction false} FitsBefore(data: bytes)
    requires Judge(data) == Borderline
    ensures Judge(data[..Start(data)]) == Fits && Tail(data[..Start(data)]) == []
    decreases |data|
  {
    var k, p := Cut(data), Start(data);
    if k <= MAX_FRAME {
      FitsBefore(data[k + 1..]);
      assert data[..p][k + 1..] == data[k + 1..][..p - k - 1];
      CutAt(data[..p], k);
    }
  }

  /** The lines before the borderline one leave the buffer empty. */
  lemma {:induction false} ApproachLine(data: bytes) returns (chunks: seq<bytes>, events: seq<Event>)
    requires Judge(data) == Borderline
    ensures Chunks(chunks) && Flat(chunks) == data[..Start(data)]
    ensures Feed(Open([]), chunks) == Outcome(Open([]), events)
  {
    var start := data[..Start(data)];
    FitsBefore(data);
    chunks := Singles(start);
    SinglesFlat(start);
    assert [] + start == start;
    FeedExpected([], chunks);
    events := Feed(Open([]), chunks).events;
  }

  lemma {:induction false} OneChunk(buffer: bytes, chunk: bytes)
    ensures Flat([chunk]) == chunk && Feed(Open(buffer), [chunk]) == Receive(Open(buffer), chunk)
  {
    assert [chunk][1..] == [];
    assert chunk + [] == chunk;
    var r := Receive(Open(buffer), chunk);
    assert r.events + [] == r.events;
  }

  lemma {:induction false} CutLater(line: bytes, n: nat)
    requires n < Cut(line)
    ensures Unbroken(line[..n]) && Cut(line[n..]) == Cut(line) - n && line == line[..n] + line[n..]
  {
    CutAt(line[n..], Cut(line) - n);
  }

  /** The first 4096 bytes of the borderline line, and what follows them. */
  lemma {:induction false} BorderlineParts(data: bytes) returns (buffer: bytes, rest: bytes)
    requires Judge(data) == Borderline
    ensures data == data[..Start(data)] + (buffer + rest)
    ensures |buffer| == MAX_FRAME && Unbroken(buffer) && 0 < Cut(rest) < |rest| && Cut(rest) < MAX_CHUNK
  {
    StartsThere(data);
    var line := data[Start(data)..];
    CutLater(line, MAX_FRAME);
    buffer, rest := line[..MAX_FRAME], line[MAX_FRAME..];
  }

  /** A borderline line whose first 4096 bytes are in the buffer. */
  lemma {:induction false} Approach(data: bytes, buffer: bytes, rest: bytes)
    returns (chunks: seq<bytes>, events: seq<Event>)
    requires Judge(data) == Borderline && data == data[..Start(data)] + (buffer + rest)
    requires |buffer| == MAX_FRAME && Unbroken(buffer)
    ensures Chunks(chunks) && data == Flat(chunks) + rest
    ensures Feed(Open([]), chunks) == Outcome(Open(buffer), events)
  {
    var before, sofar := ApproachLine(data);
    chunks, events := before + [buffer], sofar + [];
    Neutral(buffer);
    FlatConcat(before, [buffer]);
    OneChunk([], buffer);
    Associate(data[..Start(data)], buffer, rest);
    FeedConcat(Open([]), before, [buffer]);
    ReceiveUnbroken(buffer);
  }

  lemma {:induction false} ReceiveUnbroken(buffer: bytes)
    requires |buffer| <= MAX_FRAME && Unbroken(buffer)
    ensures Receive(Open([]), buffer) == Outcome(Open(buffer), [])
  {
    Neutral(buffer);
    NoLine(buffer);
  }

  lemma {:induction false} LineEnds(buffer: bytes, part: bytes)
    requires |buffer| == MAX_FRAME && Unbroken(buffer) && Unbroken(part) && part != []
    ensures Receive(Open(buffer), part + [NEWLINE]) == Outcome(Open([]), [Refused])
  {
    OneLine(buffer + part);
    assert buffer + (part + [NEWLINE]) == (buffer + part) + [NEWLINE];
  }

  lemma {:induction false} LineGoesOn(buffer: bytes, part: bytes)
    requires |buffer| == MAX_FRAME && Unbroken(buffer) && Unbroken(part) && part != []
    ensures Receive(Open(buffer), part) == Outcome(Closed, [Dropped])
  {
    NoLine(buffer + part);
    assert EventsOf([]) + [Dropped] == [Dropped];
  }

  ghost predicate Independent(data: bytes) {
    forall a, b :: Chunks(a) && Chunks(b) && Flat(a) == data && Flat(b) == data ==>
      Feed(Open([]), a) == Feed(Open([]), b)
  }

  /** Continuing after a common start with one chunk or another. */
  lemma Continue(start: seq<bytes>, buffer: bytes, events: seq<Event>, chunk: bytes, rest: bytes)
    returns (chunks: seq<bytes>)
    requires Chunks(start) && 1 <= |chunk| <= MAX_CHUNK && Feed(Open([]), start) == Outcome(Open(buffer), events)
    ensures Chunks(chunks) && Flat(chunks) == Flat(start) + (chunk + rest)
    ensures events + Receive(Open(buffer), chunk).events <= Feed(Open([]), chunks).events
  {
    var more := [chunk] + Singles(rest);
    chunks := start + more;
    SinglesFlat(rest);
    OneChunk(buffer, chunk);
    FlatConcat([chunk], Singles(rest));
    FlatConcat(start, more);
    FeedConcat(Open(buffer), [chunk], Singles(rest));
    FeedConcat(Open([]), start, more);
  }

  lemma {:induction false} Ended(data: bytes, start: seq<bytes>, buffer: bytes, rest: bytes, events: seq<Event>)
    returns (a: seq<bytes>)
    requires Chunks(start) && data == Flat(start) + rest && Feed(Open([]), start) == Outcome(Open(buffer), events)
    requires |buffer| == MAX_FRAME && Unbroken(buffer) && 0 < Cut(rest) < |rest| && Cut(rest) < MAX_CHUNK
    ensures Chunks(a) && Flat(a) == data && events + [Refused] <= Feed(Open([]), a).events
  {
    var k := Cut(rest);
    LineEnds(buffer, rest[..k]);
    a := Continue(start, buffer, events, rest[..k] + [NEWLINE], rest[k + 1..]);
    assert rest == (rest[..k] + [NEWLINE]) + rest[k + 1..];
  }

  lemma {:induction false} Lost(data: bytes, start: seq<bytes>, buffer: bytes, rest: bytes, events: seq<Event>)
    returns (b: seq<bytes>)
    requires Chunks(start) && data == Flat(start) + rest && Feed(Open([]), start) == Outcome(Open(buffer), events)
    requires |buffer| == MAX_FRAME && Unbroken(buffer) && 0 < Cut(rest) < |rest|
    ensures Chunks(b) && Flat(b) == data && events + [Dropped] <= Feed(Open([]), b).events
  {
    LineGoesOn(buffer, rest[..1]);
    b := Continue(start, buffer, events, rest[..1], rest[1..]);
    assert rest == rest[..1] + rest[1..];
  }

  lemma {:induction false} Dependent(data: bytes) returns (a: seq<bytes>, b: seq<bytes>)
    requires Judge(data) == Borderline
    ensures Chunks(a) && Chunks(b) && Flat(a) == data && Flat(b) == data
    ensures Feed(Open([]), a) != Feed(Open([]), b)
  {
    var buffer, rest := BorderlineParts(data);
    var start, events := Approach(data, buffer, rest);
    a := Ended(data, start, buffer, rest, events);
    b := Lost(data, start, buffer, rest, events);
    Differ(events, Feed(Open([]), a).events, Feed(Open([]), b).events);
  }

  lemma Differ(events: seq<Event>, a: seq<Event>, b: seq<Event>)
    requires events + [Refused] <= a && events + [Dropped] <= b
    ensures a != b
  {
    assert a[|events|] == (events + [Refused])[|events|] && b[|events|] == (events + [Dropped])[|events|];
  }

  /** The first line over the limit, if there is one. */
  predicate FirstLong(lines: seq<bytes>, i: nat) {
    i < |lines| && |lines[i]| > 4096 && forall j :: 0 <= j < i ==> |lines[j]| <= 4096
  }

  predicate AllWithin(lines: seq<bytes>) {
    forall j :: 0 <= j < |lines| ==> |lines[j]| <= 4096
  }

  function AllQueued(lines: seq<bytes>): seq<Event> {
    seq(|lines|, i requires 0 <= i < |lines| => Queued(lines[i]))
  }

  lemma {:induction false} WithinQueued(lines: seq<bytes>)
    requires AllWithin(lines)
    ensures EventsOf(lines) == AllQueued(lines)
  {
  }

  lemma OneMoreWithin(line: bytes, lines: seq<bytes>, n: nat)
    requires |line| <= 4096 && n <= |lines| && AllWithin(lines[..n])
    ensures ([line] + lines)[..n + 1] == [line] + lines[..n] && AllWithin([line] + lines[..n])
    ensures n < |lines| ==> ([line] + lines)[n + 1] == lines[n]
    ensures n < |lines| && FirstLong(lines, n) ==> FirstLong([line] + lines, n + 1)
  {
    var all := [line] + lines;
    forall j | 0 <= j <= n
      ensures |all[j]| <= 4096
    {
      assert j > 0 ==> all[j] == lines[..n][j - 1];
    }
  }

  /** The verdict by the lines of the stream, and the lines before the first long one. */
  lemma {:induction false} JudgedBy(data: bytes)
    ensures var lines, n := Lines(data), |Before(data)|;
            && n <= |lines| && Before(data) == lines[..n] && AllWithin(lines[..n])
            && (n < |lines| ==> FirstLong(lines, n))
            && Judge(data) == if n < |lines| then if |lines[n]| >= 8192 then Fatal else Borderline
                              else if |Tail(data)| > 4096 then Fatal else Fits
    decreases |data|
  {
    var k := Cut(data);
    if k < |data| {
      var rest := data[k + 1..];
      FirstLine(data, rest);
      if k <= MAX_FRAME {
        JudgedBy(rest);
        OneMoreWithin(data[..k], Lines(rest), |Before(rest)|);
      }
    }
  }

  /**
   * The outcome of a stream does not depend on how it arrives in chunks of up to 4096 bytes, exactly when its first
   * line over 4096 bytes, if any, is unfinished or at least 8192 long.
   */
  lemma {:induction false} IndependentIff(data: bytes)
    ensures Independent(data) <==> forall i: nat :: FirstLong(Lines(data), i) ==> |Lines(data)[i]| >= 8192
  {
    JudgedBy(data);
    if Judge(data) == Borderline {
      var a, b := Dependent(data);
    } else {
      forall a, b | Chunks(a) && Chunks(b) && Flat(a) == data && Flat(b) == data
        ensures Feed(Open([]), a) == Feed(Open([]), b)
      {
        OutcomeExpected(data, a);
        OutcomeExpected(data, b);
      }
    }
  }

  lemma {:induction false} OutcomeExpected(data: bytes, chunks: seq<bytes>)
    requires Chunks(chunks) && Flat(chunks) == data && Judge(data) != Borderline
    ensures Feed(Open([]), chunks) == Expected(data)
  {
    assert [] + data == data;
    FeedExpected([], chunks);
  }

  /**
   * When all lines are within the limit they are queued; a tail within it stays in the buffer, a longer one ends the
   * connection. A line of 8192 bytes or more ends it after the lines before, whatever comes later.
   */
  lemma {:induction false} OutcomeIs(data: bytes, chunks: seq<bytes>)
    requires Chunks(chunks) && Flat(chunks) == data
    ensures AllWithin(Lines(data)) ==>
              Feed(Open([]), chunks) == if |Tail(data)| <= 4096 then Outcome(Open(Tail(data)), AllQueued(Lines(data)))
                                        else Outcome(Closed, AllQueued(Lines(data)) + [Dropped])
    ensures forall i: nat :: FirstLong(Lines(data), i) && |Lines(data)[i]| >= 8192 ==>
              Feed(Open([]), chunks) == Outcome(Closed, AllQueued(Lines(data)[..i]) + [Dropped])
  {
    JudgedBy(data);
    var n := |Before(data)|;
    if Judge(data) != Borderline {
      OutcomeExpected(data, chunks);
      WithinQueued(Before(data));
      assert n == |Lines(data)| ==> Before(data) == Lines(data);
      forall i: nat | FirstLong(Lines(data), i) && |Lines(data)[i]| >= 8192
        ensures Feed(Open([]), chunks) == Outcome(Closed, AllQueued(Lines(data)[..i]) + [Dropped])
      {
        assert i == n;
      }
    }
  }

  lemma {:induction false} FitsIff(data: bytes)
    ensures Judge(data) == Fits <==> AllWithin(Lines(data)) && |Tail(data)| <= 4096
  {
    JudgedBy(data);
  }
}
