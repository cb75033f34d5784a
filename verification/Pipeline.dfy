/**
 * Request lines on their way through the daemon (host/rp2350_relay_6ch/daemon.py): the reader numbers them and puts
 * them in a queue, the parser answers what it cannot parse and queues the rest, the worker executes and answers.
 */
module Pipeline {
  import opened Bytes
  import opened Common
  import opened LineReader

  datatype Line = Line(client: nat, data: bytes, order: nat)

  /** A connection, and a log of the chunks read from it. */
  datatype Peer = Peer(conn: Conn, received: seq<bytes>)

  /**
   * The connections and queues, what the three threads are at, and logs of the lines accepted, parsed, run and
   * answered, and of the clients told that they are dropped.
   */
  datatype Sys = Sys(clients: map<nat, Peer>, reading: Option<nat>, order: nat, pending: seq<Line>,
                     parsing: Option<Line>, requests: seq<Line>, executing: Option<Line>,
                     accepted: seq<Line>, parsed: seq<Line>, executed: seq<Line>,
                     answered: seq<Line>, dropped: seq<nat>)

  const START: Sys := Sys(map[], None, 0, [], None, [], None, [], [], [], [], [])

  /** A read of a client takes its lines one by one; the parser and the worker may run in between. */
  datatype Action =
    | Connect(client: nat)
    | Receives(client: nat, chunk: bytes)
    | LineTaken
    | ReadEnds
    | Hangup(client: nat)
    | ParserTakes
    | ParserDone
    | WorkerTakes
    | WorkerDone

  predicate Short(line: Line) {
    |line.data| <= MAX_FRAME
  }

  function ShortOnes(lines: seq<Line>): seq<Line> {
    if lines == [] then [] else (if Short(lines[0]) then [lines[0]] else []) + ShortOnes(lines[1..])
  }

  function LongOnes(lines: seq<Line>): seq<Line> {
    if lines == [] then [] else (if Short(lines[0]) then [] else [lines[0]]) + LongOnes(lines[1..])
  }

  /** Those with a well-formed request. */
  function Parsable(parses: bytes -> bool, lines: seq<Line>): seq<Line> {
    if lines == [] then []
    else (if parses(lines[0].data) then [lines[0]] else []) + Parsable(parses, lines[1..])
  }

  predicate IsOpen(s: Sys, c: nat) {
    c in s.clients && s.clients[c].conn.Open?
  }

  function BufferOf(s: Sys, c: nat): bytes
    requires IsOpen(s, c)
  {
    s.clients[c].conn.buffer
  }

  predicate Reading(s: Sys) {
    s.reading.Some? && IsOpen(s, s.reading.value)
  }

  predicate Enabled(s: Sys, a: Action) {
    match a
    case Connect(c) => s.reading.None? && c !in s.clients
    case Receives(c, chunk) => s.reading.None? && IsOpen(s, c) && 1 <= |chunk| <= MAX_CHUNK
    case LineTaken => Reading(s) && !Unbroken(BufferOf(s, s.reading.value))
    case ReadEnds => Reading(s) && Unbroken(BufferOf(s, s.reading.value))
    case Hangup(c) => s.reading.None? && IsOpen(s, c)
    case ParserTakes => s.parsing.None? && s.pending != []
    case ParserDone => s.parsing.Some?
    case WorkerTakes => s.executing.None? && s.requests != []
    case WorkerDone => s.executing.Some?
  }

  function WithConn(s: Sys, c: nat, conn: Conn): Sys
    requires c in s.clients
  {
    s.(clients := s.clients[c := s.clients[c].(conn := conn)])
  }

  /** The line is numbered, and queued if it is short, else answered. */
  function Accept(s: Sys, line: Line): Sys {
    s.(order := s.order + 1, accepted := s.accepted + [line],
       pending := if Short(line) then s.pending + [line] else s.pending,
       answered := if Short(line) then s.answered else s.answered + [line])
  }

  function Received(s: Sys, c: nat, chunk: bytes): Sys
    requires IsOpen(s, c)
  {
    s.(clients := s.clients[c := Peer(Open(BufferOf(s, c) + chunk), s.clients[c].received + [chunk])],
       reading := Some(c))
  }

  function TakeLine(s: Sys): Sys
    requires Enabled(s, LineTaken)
  {
    var c := s.reading.value;
    var buffer := BufferOf(s, c);
    Accept(WithConn(s, c, Open(buffer[Cut(buffer) + 1..])), Line(c, buffer[..Cut(buffer)], s.order + 1))
  }

  function EndRead(s: Sys): Sys
    requires Enabled(s, ReadEnds)
  {
    var c := s.reading.value;
    if |BufferOf(s, c)| > MAX_FRAME then WithConn(s, c, Closed).(reading := None, dropped := s.dropped + [c])
    else s.(reading := None)
  }

  function Step(parses: bytes -> bool, s: Sys, a: Action): Sys
    requires Enabled(s, a)
  {
    match a
    case Connect(c) => s.(clients := s.clients[c := Peer(Open([]), [])])
    case Receives(c, chunk) => Received(s, c, chunk)
    case LineTaken => TakeLine(s)
    case ReadEnds => EndRead(s)
    case Hangup(c) => WithConn(s, c, Closed)
    case ParserTakes => s.(parsing := Some(s.pending[0]), pending := s.pending[1..])
    case ParserDone =>
      var line := s.parsing.value;
      if parses(line.data) then s.(parsing := None, requests := s.requests + [line], parsed := s.parsed + [line])
      else s.(parsing := None, answered := s.answered + [line], parsed := s.parsed + [line])
    case WorkerTakes => s.(executing := Some(s.requests[0]), requests := s.requests[1..])
    case WorkerDone =>
      var line := s.executing.value;
      s.(executing := None, executed := s.executed + [line], answered := s.answered + [line])
  }

  // ----- What every step keeps -----

  function Held(o: Option<Line>): seq<Line> {
    if o.Some? then [o.value] else []
  }

  function InFlight(s: Sys): multiset<Line> {
    multiset(Held(s.parsing)) + multiset(s.pending) + multiset(Held(s.executing)) + multiset(s.requests)
  }

  predicate InOrder(lines: seq<Line>) {
    forall i :: 0 <= i < |lines| ==> lines[i].order == i + 1
  }

  /** Nothing is lost, overtaken or answered twice. */
  predicate Conserved(parses: bytes -> bool, s: Sys) {
    && InOrder(s.accepted) && s.order == |s.accepted|
    && ShortOnes(s.accepted) == s.parsed + Held(s.parsing) + s.pending
    && Parsable(parses, s.parsed) == s.executed + Held(s.executing) + s.requests
    && multiset(s.accepted) == multiset(s.answered) + InFlight(s)
  }

  lemma {:induction false} ShortConcat(a: seq<Line>, b: seq<Line>)
    ensures ShortOnes(a + b) == ShortOnes(a) + ShortOnes(b)
  {
    if a == [] {
      assert a + b == b;
    } else {
      assert (a + b)[1..] == a[1..] + b;
      ShortConcat(a[1..], b);
      var head := if Short(a[0]) then [a[0]] else [];
      assert head + (ShortOnes(a[1..]) + ShortOnes(b)) == (head + ShortOnes(a[1..])) + ShortOnes(b);
    }
  }

  lemma {:induction false} ParsableConcat(parses: bytes -> bool, a: seq<Line>, b: seq<Line>)
    ensures Parsable(parses, a + b) == Parsable(parses, a) + Parsable(parses, b)
    decreases a
  {
    if a == [] {
      Neutral(b);
      Neutral(Parsable(parses, b));
    } else {
      DropInFront(a, b);
      ParsableConcat(parses, a[1..], b);
      var head := if parses(a[0].data) then [a[0]] else [];
      Associate(head, Parsable(parses, a[1..]), Parsable(parses, b));
    }
  }

  lemma {:induction false} ShortAndLong(lines: seq<Line>)
    ensures multiset(ShortOnes(lines)) + multiset(LongOnes(lines)) == multiset(lines)
  {
    if lines != [] {
      assert lines == [lines[0]] + lines[1..];
      ShortAndLong(lines[1..]);
    }
  }

  /** What new lines do to the bags of lines that are queued and answered. */
  lemma NewInBags(accepted: seq<Line>, answered: seq<Line>, pending: seq<Line>, others: multiset<Line>,
                  lines: seq<Line>)
    requires multiset(accepted) == multiset(answered) + multiset(pending) + others
    ensures multiset(accepted + lines)
            == multiset(answered + LongOnes(lines)) + multiset(pending + ShortOnes(lines)) + others
  {
    ShortAndLong(lines);
  }

  /** The state with new lines numbered, queued and refused. */
  predicate Added(s: Sys, s': Sys, lines: seq<Line>) {
    && s'.order == s.order + |lines| && s'.accepted == s.accepted + lines
    && s'.pending == s.pending + ShortOnes(lines) && s'.answered == s.answered + LongOnes(lines)
    && s'.parsing == s.parsing && s'.requests == s.requests && s'.executing == s.executing
    && s'.parsed == s.parsed && s'.executed == s.executed
  }

  lemma {:induction false} AddedBags(parses: bytes -> bool, s: Sys, s': Sys, lines: seq<Line>)
    requires Conserved(parses, s) && Added(s, s', lines)
    ensures multiset(s'.accepted) == multiset(s'.answered) + InFlight(s')
  {
    var others := multiset(Held(s.parsing)) + multiset(Held(s.executing)) + multiset(s.requests);
    assert InFlight(s) == multiset(s.pending) + others;
    NewInBags(s.accepted, s.answered, s.pending, others, lines);
  }

  lemma {:induction false} QueueGrows(accepted: seq<Line>, before: seq<Line>, pending: seq<Line>, lines: seq<Line>)
    requires ShortOnes(accepted) == before + pending
    ensures ShortOnes(accepted + lines) == before + (pending + ShortOnes(lines))
  {
    ShortConcat(accepted, lines);
    Associate(before, pending, ShortOnes(lines));
  }

  lemma {:induction false} AddedQueue(parses: bytes -> bool, s: Sys, s': Sys, lines: seq<Line>)
    requires Conserved(parses, s) && Added(s, s', lines)
    ensures ShortOnes(s'.accepted) == s'.parsed + Held(s'.parsing) + s'.pending
  {
    QueueGrows(s.accepted, s.parsed + Held(s.parsing), s.pending, lines);
  }

  lemma {:induction false} LinesConserved(parses: bytes -> bool, s: Sys, s': Sys, lines: seq<Line>)
    requires Conserved(parses, s) && Added(s, s', lines)
    requires forall i :: 0 <= i < |lines| ==> lines[i].order == s.order + 1 + i
    ensures Conserved(parses, s')
  {
    AddedBags(parses, s, s', lines);
    AddedQueue(parses, s, s', lines);
  }

  lemma {:induction false} TakeConserves(parses: bytes -> bool, s: Sys)
    requires Conserved(parses, s) && Enabled(s, LineTaken)
    ensures Conserved(parses, TakeLine(s))
  {
    var c, buffer := s.reading.value, BufferOf(s, s.reading.value);
    AcceptConserves(parses, s, WithConn(s, c, Open(buffer[Cut(buffer) + 1..])), TakeLine(s),
                    Line(c, buffer[..Cut(buffer)], s.order + 1));
  }

  lemma {:induction false} AcceptConserves(parses: bytes -> bool, s: Sys, w: Sys, t: Sys, line: Line)
    requires Conserved(parses, s) && w == s.(clients := w.clients) && t == Accept(w, line)
    requires line.order == s.order + 1
    ensures Conserved(parses, t)
  {
    AcceptAdds(w, line);
    LinesConserved(parses, s, t, [line]);
  }

  lemma AcceptAdds(s: Sys, line: Line)
    ensures Added(s, Accept(s, line), [line])
  {
    OneLineKinds(line);
    Neutral(s.pending);
    Neutral(s.answered);
  }

  lemma OneLineKinds(line: Line)
    ensures ShortOnes([line]) == if Short(line) then [line] else []
    ensures LongOnes([line]) == if Short(line) then [] else [line]
  {
    assert [line][1..] == [];
  }

  lemma HeadHeld(s: seq<Line>)
    requires s != []
    ensures s == [s[0]] + s[1..] && multiset(s) == multiset([s[0]]) + multiset(s[1..])
  {
    assert s == [s[0]] + s[1..];
  }

  lemma HeadMoves(front: seq<Line>, s: seq<Line>)
    requires s != []
    ensures front + [] + s == front + [s[0]] + s[1..]
  {
    Neutral(front);
    HeadAndRest(s);
    Associate(front, [s[0]], s[1..]);
  }

  lemma {:induction false} ParserTakeConserves(parses: bytes -> bool, s: Sys)
    requires Conserved(parses, s) && Enabled(s, ParserTakes)
    ensures Conserved(parses, Step(parses, s, ParserTakes))
  {
    HeadHeld(s.pending);
    HeadMoves(s.parsed, s.pending);
    TakenBags(s, Step(parses, s, ParserTakes));
  }

  lemma TakenBags(s: Sys, s': Sys)
    requires multiset(s.accepted) == multiset(s.answered) + InFlight(s) && s.parsing.None? && s.pending != []
    requires s' == s.(parsing := Some(s.pending[0]), pending := s.pending[1..])
    ensures multiset(s'.accepted) == multiset(s'.answered) + InFlight(s')
  {
    HeadHeld(s.pending);
  }

  lemma {:induction false} WorkerTakeConserves(parses: bytes -> bool, s: Sys)
    requires Conserved(parses, s) && Enabled(s, WorkerTakes)
    ensures Conserved(parses, Step(parses, s, WorkerTakes))
  {
    HeadHeld(s.requests);
    HeadMoves(s.executed, s.requests);
  }

  /** A parsed line moves from one thread's hands to the end of a log and a queue. */
  lemma ParsedLine(parses: bytes -> bool, parsed: seq<Line>, ran: seq<Line>, requests: seq<Line>, line: Line)
    requires Parsable(parses, parsed) == ran + requests
    ensures Parsable(parses, parsed + [line]) == ran + if parses(line.data) then requests + [line] else requests
  {
    ParsableConcat(parses, parsed, [line]);
    OneParsable(parses, line);
    Associate(ran, requests, [line]);
    Neutral(ran + requests);
  }

  lemma {:induction false} ParserDoneConserves(parses: bytes -> bool, s: Sys)
    requires Conserved(parses, s) && s.parsing.Some?
    ensures Conserved(parses, Step(parses, s, ParserDone))
  {
    var line := s.parsing.value;
    Neutral(s.parsed + [line]);
    ParsedLine(parses, s.parsed, s.executed + Held(s.executing), s.requests, line);
    ParsedBags(s, Step(parses, s, ParserDone), line, parses(line.data));
  }

  lemma ParsedBags(s: Sys, s': Sys, line: Line, good: bool)
    requires multiset(s.accepted) == multiset(s.answered) + InFlight(s) && s.parsing == Some(line)
    requires s'.parsing == None && s'.pending == s.pending && s'.executing == s.executing
    requires s'.accepted == s.accepted
    requires s'.requests == if good then s.requests + [line] else s.requests
    requires s'.answered == if good then s.answered else s.answered + [line]
    ensures multiset(s'.accepted) == multiset(s'.answered) + InFlight(s')
  {
  }

  lemma OneParsable(parses: bytes -> bool, line: Line)
    ensures Parsable(parses, [line]) == if parses(line.data) then [line] else []
  {
    assert [line][1..] == [];
  }

  lemma {:induction false} WorkerDoneConserves(parses: bytes -> bool, s: Sys)
    requires Conserved(parses, s) && s.executing.Some?
    ensures Conserved(parses, Step(parses, s, WorkerDone))
  {
    var line := s.executing.value;
    assert s.executed + [line] + s.requests == (s.executed + [line]) + [] + s.requests;
  }

  lemma {:induction false} StepConserves(parses: bytes -> bool, s: Sys, a: Action)
    requires Conserved(parses, s) && Enabled(s, a)
    ensures Conserved(parses, Step(parses, s, a))
  {
    match a
    case Connect(_) =>
    case Hangup(_) =>
    case Receives(_, _) =>
    case LineTaken => TakeConserves(parses, s);
    case ReadEnds =>
    case ParserTakes => ParserTakeConserves(parses, s);
    case ParserDone => ParserDoneConserves(parses, s);
    case WorkerTakes => WorkerTakeConserves(parses, s);
    case WorkerDone => WorkerDoneConserves(parses, s);
  }

  // ----- Each client -----

  function DataOf(c: nat, lines: seq<Line>): seq<bytes> {
    if lines == [] then [] else (if lines[0].client == c then [lines[0].data] else []) + DataOf(c, lines[1..])
  }

  function IfLong(tail: bytes): seq<Event> {
    if |tail| > MAX_FRAME then [Dropped] else []
  }

  /** Where a client is once the lines were taken and the rest of the buffer has been, too. */
  function After(lines: seq<bytes>, buffer: bytes): Outcome {
    Outcome(if |Tail(buffer)| > MAX_FRAME then Closed else Open(Tail(buffer)),
            EventsOf(lines) + (EventsOf(Lines(buffer)) + IfLong(Tail(buffer))))
  }

  /** What a client was served so far, and what is left in its buffer, is what its chunks lead to. */
  predicate Served(s: Sys, c: nat)
    requires c in s.clients
  {
    var o, lines := Feed(Open([]), s.clients[c].received), DataOf(c, s.accepted);
    && Chunks(s.clients[c].received)
    && match s.clients[c].conn
       case Open(buffer) =>
         && o == After(lines, buffer) && c !in s.dropped
         && (s.reading == Some(c) || (Unbroken(buffer) && |buffer| <= MAX_FRAME))
       case Closed =>
         && (c in s.dropped <==> o.conn.Closed?)
         && o.events == EventsOf(lines) + if c in s.dropped then [Dropped] else []
  }

  predicate Known(s: Sys) {
    && (forall i :: 0 <= i < |s.accepted| ==> s.accepted[i].client in s.clients)
    && (forall c :: c in s.dropped ==> c in s.clients)
    && (forall i, j :: 0 <= i < j < |s.dropped| ==> s.dropped[i] != s.dropped[j])
    && (s.reading.Some? ==> Reading(s))
  }

  predicate AllServed(s: Sys) {
    Known(s) && forall c :: c in s.clients ==> Served(s, c)
  }

  lemma {:induction false} DataConcat(c: nat, a: seq<Line>, b: seq<Line>)
    ensures DataOf(c, a + b) == DataOf(c, a) + DataOf(c, b)
    decreases a
  {
    if a == [] {
      assert a + b == b;
    } else {
      assert (a + b)[1..] == a[1..] + b;
      DataConcat(c, a[1..], b);
    }
  }

  lemma {:induction false} DataOfStranger(c: nat, lines: seq<Line>)
    requires forall i :: 0 <= i < |lines| ==> lines[i].client != c
    ensures DataOf(c, lines) == []
    decreases lines
  {
    if lines != [] {
      DataOfStranger(c, lines[1..]);
    }
  }

  lemma DataOfLine(c: nat, line: Line)
    ensures DataOf(c, [line]) == if line.client == c then [line.data] else []
  {
    assert [line][1..] == [];
  }

  lemma {:induction false} NewcomerServed(s: Sys, c: nat)
    requires AllServed(s) && c !in s.clients
    ensures Served(s.(clients := s.clients[c := Peer(Open([]), [])]), c)
  {
    DataOfStranger(c, s.accepted);
    assert EventsOf([]) == [];
    NoLine([]);
  }

  /** A client that is not being read is where its chunks lead to. */
  lemma AtRest(lines: seq<bytes>, buffer: bytes)
    requires Unbroken(buffer) && |buffer| <= MAX_FRAME
    ensures After(lines, buffer) == Outcome(Open(buffer), EventsOf(lines))
  {
    NoLine(buffer);
    Neutral(EventsOf(lines));
    assert EventsOf([]) == [];
  }

  lemma {:induction false} ReceiverServed(s: Sys, c: nat, chunk: bytes, s': Sys)
    requires AllServed(s) && Enabled(s, Receives(c, chunk)) && c in s'.clients
    requires s'.clients[c] == Peer(Open(BufferOf(s, c) + chunk), s.clients[c].received + [chunk])
    requires s'.reading == Some(c) && s'.accepted == s.accepted && s'.dropped == s.dropped
    ensures Served(s', c)
  {
    assert Served(s, c);
    var buffer, lines := BufferOf(s, c), DataOf(c, s.accepted);
    AtRest(lines, buffer);
    FeedConcat(Open([]), s.clients[c].received, [chunk]);
    OneChunk(buffer, chunk);
    Neutral(EventsOf(Lines(buffer + chunk)));
  }

  lemma NextEvents(lines: seq<bytes>, raw: bytes, more: seq<bytes>, end: seq<Event>)
    ensures EventsOf(lines + [raw]) + (EventsOf(more) + end) == EventsOf(lines) + (EventsOf([raw] + more) + end)
  {
    EventsConcat(lines, [raw]);
    EventsConcat([raw], more);
    Regroup(EventsOf(lines), EventsOf([raw]), EventsOf(more), end);
  }

  lemma NextOutcome(lines: seq<bytes>, buffer: bytes)
    requires !Unbroken(buffer)
    ensures After(lines + [buffer[..Cut(buffer)]], buffer[Cut(buffer) + 1..]) == After(lines, buffer)
  {
    var rest := buffer[Cut(buffer) + 1..];
    NextEvents(lines, buffer[..Cut(buffer)], Lines(rest), IfLong(Tail(rest)));
  }

  lemma Regroup<T>(a: seq<T>, b: seq<T>, c: seq<T>, d: seq<T>)
    ensures a + b + (c + d) == a + (b + c + d)
  {
  }

  lemma {:induction false} TakenServed(s: Sys, line: Line, s': Sys)
    requires AllServed(s) && Enabled(s, LineTaken)
    requires var c, buffer := s.reading.value, BufferOf(s, s.reading.value);
             && line.client == c && line.data == buffer[..Cut(buffer)] && c in s'.clients
             && s'.clients[c] == s.clients[c].(conn := Open(buffer[Cut(buffer) + 1..]))
    requires s'.reading == s.reading && s'.accepted == s.accepted + [line] && s'.dropped == s.dropped
    ensures Served(s', s.reading.value)
  {
    var c := s.reading.value;
    assert Served(s, c);
    DataConcat(c, s.accepted, [line]);
    DataOfLine(c, line);
    NextOutcome(DataOf(c, s.accepted), BufferOf(s, c));
  }

  lemma {:induction false} EndServed(s: Sys)
    requires AllServed(s) && Enabled(s, ReadEnds)
    ensures Served(EndRead(s), s.reading.value)
  {
    var c := s.reading.value;
    assert Served(s, c);
    NoLine(BufferOf(s, c));
    assert EventsOf([]) == [];
    Neutral(IfLong(BufferOf(s, c)));
  }

  lemma {:induction false} HungUpServed(s: Sys, c: nat)
    requires AllServed(s) && Enabled(s, Hangup(c))
    ensures Served(WithConn(s, c, Closed), c)
  {
    assert Served(s, c);
    AtRest(DataOf(c, s.accepted), BufferOf(s, c));
    Neutral(EventsOf(DataOf(c, s.accepted)));
  }

  /** A step that leaves a client and its lines alone. */
  lemma {:induction false} StillServed(s: Sys, s': Sys, c: nat)
    requires c in s.clients && Served(s, c) && c in s'.clients && s'.clients[c] == s.clients[c]
    requires DataOf(c, s'.accepted) == DataOf(c, s.accepted) && (c in s'.dropped <==> c in s.dropped)
    requires s.reading == Some(c) ==> s'.reading == Some(c)
    ensures Served(s', c)
  {
  }

  lemma OtherLine(before: seq<Line>, after: seq<Line>, line: Line, c: nat)
    requires after == before + [line] && line.client != c
    ensures DataOf(c, after) == DataOf(c, before)
  {
    DataConcat(c, before, [line]);
    DataOfLine(c, line);
    Neutral(DataOf(c, before));
  }

  /** What a step does to the clients other than the one it is about. */
  lemma {:induction false} OthersServed(parses: bytes -> bool, s: Sys, a: Action, c: nat)
    requires AllServed(s) && Enabled(s, a) && c in s.clients
    requires match a
             case Connect(d) => d != c
             case Receives(d, _) => d != c
             case Hangup(d) => d != c
             case LineTaken => s.reading.value != c
             case ReadEnds => s.reading.value != c
             case _ => true
    ensures var s' := Step(parses, s, a); c in s'.clients && Served(s', c)
  {
    var s' := Step(parses, s, a);
    assert Served(s, c);
    if a.LineTaken? {
      OtherLine(s.accepted, s'.accepted, s'.accepted[|s.accepted|], c);
    }
    StillServed(s, s', c);
  }

  lemma {:induction false} StepKnown(parses: bytes -> bool, s: Sys, a: Action)
    requires AllServed(s) && Enabled(s, a)
    ensures Known(Step(parses, s, a))
  {
    if s.reading.Some? {
      assert Served(s, s.reading.value);
    }
  }

  /** The client a step is about. */
  function Subject(s: Sys, a: Action): Option<nat> {
    match a
    case Connect(c) => Some(c)
    case Receives(c, _) => Some(c)
    case Hangup(c) => Some(c)
    case LineTaken => s.reading
    case ReadEnds => s.reading
    case _ => None
  }

  lemma {:induction false} LineServed(s: Sys, c: nat)
    requires AllServed(s) && Enabled(s, LineTaken) && s.reading == Some(c)
    ensures c in TakeLine(s).clients && Served(TakeLine(s), c)
  {
    var buffer := BufferOf(s, c);
    TakeFields(s, c, buffer, TakeLine(s));
    TakenServed(s, Line(c, buffer[..Cut(buffer)], s.order + 1), TakeLine(s));
  }

  lemma TakeFields(s: Sys, c: nat, buffer: bytes, t: Sys)
    requires Enabled(s, LineTaken) && s.reading == Some(c) && buffer == BufferOf(s, c) && t == TakeLine(s)
    ensures t.clients == s.clients[c := s.clients[c].(conn := Open(buffer[Cut(buffer) + 1..]))]
    ensures t.reading == s.reading && t.dropped == s.dropped
    ensures t.accepted == s.accepted + [Line(c, buffer[..Cut(buffer)], s.order + 1)]
  {
  }

  lemma {:induction false} SubjectServed(parses: bytes -> bool, s: Sys, a: Action, c: nat)
    requires AllServed(s) && Enabled(s, a) && Subject(s, a) == Some(c)
    ensures var s' := Step(parses, s, a); c in s'.clients && Served(s', c)
  {
    match a
    case Connect(_) => NewcomerServed(s, c);
    case Receives(_, chunk) => ReceiverServed(s, c, chunk, Step(parses, s, a));
    case Hangup(_) => HungUpServed(s, c);
    case LineTaken => LineServed(s, c);
    case ReadEnds => EndServed(s);
    case _ =>
  }

  lemma {:induction false} StepServes(parses: bytes -> bool, s: Sys, a: Action)
    requires AllServed(s) && Enabled(s, a)
    ensures AllServed(Step(parses, s, a))
  {
    var s' := Step(parses, s, a);
    StepKnown(parses, s, a);
    forall c | c in s'.clients
      ensures Served(s', c)
    {
      if Subject(s, a) == Some(c) {
        SubjectServed(parses, s, a, c);
      } else {
        assert c in s.clients;
        OthersServed(parses, s, a, c);
      }
    }
  }

  // ----- Runs -----

  /** The state after some actions, in whatever order the threads took them; what cannot happen is passed over. */
  function Run(parses: bytes -> bool, s: Sys, actions: seq<Action>): Sys
    decreases |actions|
  {
    if actions == [] then s
    else Run(parses, if Enabled(s, actions[0]) then Step(parses, s, actions[0]) else s, actions[1..])
  }

  lemma {:induction false} RunKeeps(parses: bytes -> bool, s: Sys, actions: seq<Action>)
    requires Conserved(parses, s) && AllServed(s)
    ensures Conserved(parses, Run(parses, s, actions)) && AllServed(Run(parses, s, actions))
    decreases |actions|
  {
    if actions != [] {
      if Enabled(s, actions[0]) {
        StepConserves(parses, s, actions[0]);
        StepServes(parses, s, actions[0]);
      }
      RunKeeps(parses, if Enabled(s, actions[0]) then Step(parses, s, actions[0]) else s, actions[1..]);
    }
  }

  lemma Reached(parses: bytes -> bool, actions: seq<Action>)
    ensures Conserved(parses, Run(parses, START, actions)) && AllServed(Run(parses, START, actions))
  {
    assert Conserved(parses, START) && AllServed(START);
    RunKeeps(parses, START, actions);
  }

  predicate Idle(s: Sys) {
    s.pending == [] && s.parsing.None? && s.requests == [] && s.executing.None?
  }

  /**
   * Over any run: accepted lines are those answered, queued or in progress, none answered twice; the worker runs the
   * well-formed ones in the order they were accepted; and once all is idle every line has exactly one answer.
   */
  lemma {:induction false} Conservation(parses: bytes -> bool, actions: seq<Action>)
    ensures var s := Run(parses, START, actions);
            && |s.accepted| == |s.answered| + |s.pending| + |s.requests| + |Held(s.parsing)| + |Held(s.executing)|
            && (forall i, j :: 0 <= i < j < |s.answered| ==> s.answered[i] != s.answered[j])
            && s.executed <= Parsable(parses, ShortOnes(s.accepted))
            && (forall i, j :: 0 <= i < j < |s.executed| ==> s.executed[i].order < s.executed[j].order)
            && (Idle(s) ==> multiset(s.answered) == multiset(s.accepted)
                            && s.executed == Parsable(parses, ShortOnes(s.accepted)))
            && forall line :: line in Parsable(parses, ShortOnes(s.accepted)) <==>
                 line in s.accepted && |line.data| <= 4096 && parses(line.data)
  {
    var s := Run(parses, START, actions);
    Reached(parses, actions);
    Counted(parses, s);
    NoneTwice(parses, s);
    RunsInOrder(parses, s);
    forall line
      ensures line in Parsable(parses, ShortOnes(s.accepted)) <==>
              line in s.accepted && |line.data| <= 4096 && parses(line.data)
    {
      InShort(s.accepted, line);
      InParsable(parses, ShortOnes(s.accepted), line);
    }
  }

  lemma {:induction false} InShort(lines: seq<Line>, line: Line)
    ensures line in ShortOnes(lines) <==> line in lines && |line.data| <= 4096
  {
    if lines != [] {
      InShort(lines[1..], line);
    }
  }

  lemma {:induction false} InParsable(parses: bytes -> bool, lines: seq<Line>, line: Line)
    ensures line in Parsable(parses, lines) <==> line in lines && parses(line.data)
    decreases lines
  {
    if lines != [] {
      InParsable(parses, lines[1..], line);
    }
  }

  lemma {:induction false} Counted(parses: bytes -> bool, s: Sys)
    requires Conserved(parses, s)
    ensures |s.accepted| == |s.answered| + |s.pending| + |s.requests| + |Held(s.parsing)| + |Held(s.executing)|
  {
    assert |multiset(s.accepted)| == |multiset(s.answered) + InFlight(s)|;
  }

  lemma {:induction false} UniqueByOrder(lines: seq<Line>, x: Line)
    requires forall i, j :: 0 <= i < j < |lines| ==> lines[i].order < lines[j].order
    ensures multiset(lines)[x] <= 1
  {
    if lines != [] {
      var front, last := lines[..|lines| - 1], lines[|lines| - 1];
      assert lines == front + [last];
      UniqueByOrder(front, x);
      if x == last {
        assert x !in front;
        assert multiset(front)[x] == 0;
      }
    }
  }

  lemma Twice(a: seq<Line>, i: nat, j: nat)
    requires i < j < |a| && a[i] == a[j]
    ensures multiset(a)[a[i]] >= 2
  {
    assert a == a[..j] + a[j..];
    assert a[..j][i] in multiset(a[..j]);
    assert a[j..][0] in multiset(a[j..]);
  }

  lemma {:induction false} NoneTwice(parses: bytes -> bool, s: Sys)
    requires Conserved(parses, s)
    ensures forall i, j :: 0 <= i < j < |s.answered| ==> s.answered[i] != s.answered[j]
  {
    forall i, j | 0 <= i < j < |s.answered|
      ensures s.answered[i] != s.answered[j]
    {
      var x, a := s.answered[i], s.answered;
      UniqueByOrder(s.accepted, x);
      assert multiset(a)[x] <= multiset(s.accepted)[x];
      if x == a[j] {
        Twice(a, i, j);
        assert false;
      }
    }
  }

  /** Keeping some of the lines keeps their order. */
  lemma {:induction false} ShortOrdered(lines: seq<Line>, from: nat)
    requires forall i :: 0 <= i < |lines| ==> lines[i].order == from + i
    ensures forall i :: 0 <= i < |ShortOnes(lines)| ==> ShortOnes(lines)[i].order >= from
    ensures forall i, j :: 0 <= i < j < |ShortOnes(lines)| ==> ShortOnes(lines)[i].order < ShortOnes(lines)[j].order
    decreases lines
  {
    if lines != [] {
      ShortOrdered(lines[1..], from + 1);
    }
  }

  lemma {:induction false} ParsableOrdered(parses: bytes -> bool, lines: seq<Line>)
    requires forall i, j :: 0 <= i < j < |lines| ==> lines[i].order < lines[j].order
    ensures forall x :: x in Parsable(parses, lines) ==> x in lines
    ensures forall i, j :: 0 <= i < j < |Parsable(parses, lines)| ==>
                             Parsable(parses, lines)[i].order < Parsable(parses, lines)[j].order
    decreases lines
  {
    if lines != [] {
      ParsableOrdered(parses, lines[1..]);
      forall x | x in Parsable(parses, lines[1..])
        ensures x in lines && x.order > lines[0].order
      {
        assert x in lines[1..];
      }
    }
  }

  lemma {:induction false} RunsInOrder(parses: bytes -> bool, s: Sys)
    requires Conserved(parses, s)
    ensures s.executed <= Parsable(parses, ShortOnes(s.accepted))
    ensures forall i, j :: 0 <= i < j < |s.executed| ==> s.executed[i].order < s.executed[j].order
    ensures Idle(s) ==> s.executed == Parsable(parses, ShortOnes(s.accepted))
  {
    var waiting := Held(s.parsing) + s.pending;
    Associate(s.parsed, Held(s.parsing), s.pending);
    ParsableConcat(parses, s.parsed, waiting);
    var all := Parsable(parses, ShortOnes(s.accepted));
    ShortOrdered(s.accepted, 1);
    ParsableOrdered(parses, ShortOnes(s.accepted));
    RanFirst(all, s.executed, Held(s.executing), s.requests, Parsable(parses, waiting));
  }

  lemma RanFirst(all: seq<Line>, ran: seq<Line>, held: seq<Line>, queued: seq<Line>, waiting: seq<Line>)
    requires all == (ran + held + queued) + waiting
    requires forall i, j :: 0 <= i < j < |all| ==> all[i].order < all[j].order
    ensures ran <= all && (held == [] && queued == [] && waiting == [] ==> ran == all)
    ensures forall i, j :: 0 <= i < j < |ran| ==> ran[i].order < ran[j].order
  {
    assert forall i :: 0 <= i < |ran| ==> ran[i] == all[i];
  }

  /**
   * A client whose lines are all short is never dropped, and has had exactly the lines of its stream accepted, however
   * it was cut; while its buffer is being gone through, the lines still in it are the rest.
   */
  lemma {:induction false} ClientServed(parses: bytes -> bool, actions: seq<Action>, c: nat)
    requires c in Run(parses, START, actions).clients
    requires var data := Flat(Run(parses, START, actions).clients[c].received);
             |Tail(data)| <= 4096 && forall i :: 0 <= i < |Lines(data)| ==> |Lines(data)[i]| <= 4096
    ensures var s := Run(parses, START, actions);
            var lines := Lines(Flat(s.clients[c].received));
            && c !in s.dropped
            && (s.reading != Some(c) ==> DataOf(c, s.accepted) == lines)
            && (s.reading == Some(c) ==> IsOpen(s, c) && DataOf(c, s.accepted) + Lines(BufferOf(s, c)) == lines)
  {
    var s := Run(parses, START, actions);
    Reached(parses, actions);
    FitsIff(Flat(s.clients[c].received));
    FittingServed(s, c);
  }

  lemma {:induction false} FittingServed(s: Sys, c: nat)
    requires AllServed(s) && c in s.clients && Judge(Flat(s.clients[c].received)) == Fits
    ensures var lines := Lines(Flat(s.clients[c].received));
            && c !in s.dropped
            && (s.reading != Some(c) ==> DataOf(c, s.accepted) == lines)
            && (s.reading == Some(c) ==> IsOpen(s, c) && DataOf(c, s.accepted) + Lines(BufferOf(s, c)) == lines)
  {
    assert Served(s, c);
    var data, taken := Flat(s.clients[c].received), DataOf(c, s.accepted);
    OutcomeExpected(data, s.clients[c].received);
    FitsIff(data);
    if s.clients[c].conn.Closed? {
      Neutral(EventsOf(taken));
      SameLines(taken, Lines(data));
    } else {
      LinesLeft(taken, BufferOf(s, c), Lines(data));
      if s.reading != Some(c) {
        NoLine(BufferOf(s, c));
        Neutral(taken);
      }
    }
  }

  lemma LinesLeft(taken: seq<bytes>, buffer: bytes, lines: seq<bytes>)
    requires After(taken, buffer).events == EventsOf(lines) && After(taken, buffer).conn.Open?
    requires forall i :: 0 <= i < |lines| ==> |lines[i]| <= MAX_FRAME
    ensures taken + Lines(buffer) == lines
  {
    Neutral(EventsOf(Lines(buffer)));
    EventsConcat(taken, Lines(buffer));
    SameLines(taken + Lines(buffer), lines);
  }

  /** A client that is not being read has been told that it is dropped exactly if its chunks say so, and told once. */
  lemma DroppedExactly(parses: bytes -> bool, actions: seq<Action>, c: nat)
    requires c in Run(parses, START, actions).clients && Run(parses, START, actions).reading != Some(c)
    ensures var s := Run(parses, START, actions);
            && (c in s.dropped <==> Feed(Open([]), s.clients[c].received).conn.Closed?)
            && multiset(s.dropped)[c] <= 1
  {
    var s := Run(parses, START, actions);
    Reached(parses, actions);
    assert Served(s, c);
    if s.clients[c].conn.Open? {
      AtRest(DataOf(c, s.accepted), BufferOf(s, c));
    }
    OnlyOnce(s.dropped, c);
  }

  lemma {:induction false} OnlyOnce(clients: seq<nat>, c: nat)
    requires forall i, j :: 0 <= i < j < |clients| ==> clients[i] != clients[j]
    ensures multiset(clients)[c] <= 1
  {
    if clients != [] {
      var front, last := clients[..|clients| - 1], clients[|clients| - 1];
      assert clients == front + [last];
      OnlyOnce(front, c);
      if c == last {
        assert c !in multiset(front);
      }
    }
  }

  lemma SameLines(a: seq<bytes>, b: seq<bytes>)
    requires EventsOf(a) == EventsOf(b) && forall i :: 0 <= i < |b| ==> |b[i]| <= MAX_FRAME
    ensures a == b
  {
    forall i | 0 <= i < |b|
      ensures a[i] == b[i]
    {
      assert EventsOf(a)[i] == EventsOf(b)[i];
    }
  }
}
