/** The reading, parsing and working loops of host/rp2350_relay_6ch/daemon.py, over shared queues. */
module Server {
  import opened Bytes
  import opened Common
  import opened LineReader
  import opened Pipeline

  /** Takes every finished line out of the buffer of the client that is being read. */
  function Drained(s: Sys): (d: Sys)
    requires Reading(s)
    ensures Enabled(d, ReadEnds)
    decreases |BufferOf(s, s.reading.value)|
  {
    if Unbroken(BufferOf(s, s.reading.value)) then s else Drained(TakeLine(s))
  }

  /** A read in which neither of the other threads runs. */
  function WholeRead(s: Sys, c: nat, chunk: bytes): Sys
    requires Enabled(s, Receives(c, chunk))
  {
    EndRead(Drained(Received(s, c, chunk)))
  }

  class Server {
    const parses: bytes -> bool
    var clients: map<nat, Peer>
    var reading: Option<nat>
    var order: nat
    var pending: seq<Line>
    var parsing: Option<Line>
    var requests: seq<Line>
    var executing: Option<Line>
    ghost var accepted: seq<Line>
    ghost var parsed: seq<Line>
    ghost var executed: seq<Line>
    ghost var answered: seq<Line>
    ghost var dropped: seq<nat>

    constructor (parses: bytes -> bool)
      ensures this.parses == parses && View() == START
    {
      this.parses := parses;
      clients, reading, order := map[], None, 0;
      pending, parsing, requests, executing := [], None, [], None;
      accepted, parsed, executed, answered, dropped := [], [], [], [], [];
    }

    ghost function View(): Sys
      reads this
    {
      Sys(clients, reading, order, pending, parsing, requests, executing, accepted, parsed, executed, answered, dropped)
    }

    method AcceptClient(c: nat)
      requires Enabled(View(), Connect(c))
      modifies this
      ensures View() == Step(parses, old(View()), Connect(c))
    {
      clients := clients[c := Peer(Open([]), [])];
    }

    method CloseClient(c: nat)
      requires Enabled(View(), Hangup(c))
      modifies this
      ensures View() == Step(parses, old(View()), Hangup(c))
    {
      clients := clients[c := clients[c].(conn := Closed)];
    }

    method ReceiveChunk(c: nat, chunk: bytes)
      requires Enabled(View(), Receives(c, chunk))
      modifies this
      ensures View() == Step(parses, old(View()), Receives(c, chunk))
    {
      clients := clients[c := Peer(Open(clients[c].conn.buffer + chunk), clients[c].received + [chunk])];
      reading := Some(c);
    }

    /** One turn of the partition loop: a line cut off the buffer and numbered, then queued or refused. */
    method TakeOne()
      requires Enabled(View(), LineTaken)
      modifies this
      ensures View() == Step(parses, old(View()), LineTaken)
    {
      var c := reading.value;
      var buffer := clients[c].conn.buffer;
      var raw, remainder := buffer[..Cut(buffer)], buffer[Cut(buffer) + 1..];
      clients := clients[c := clients[c].(conn := Open(remainder))];
      order := order + 1;
      accepted := accepted + [Line(c, raw, order)];
      if |raw| > MAX_FRAME {
        answered := answered + [Line(c, raw, order)];
        return;
      }
      pending := pending + [Line(c, raw, order)];
    }

    /** The check after the loop: a client whose unfinished line is too long is told so and dropped. */
    method FinishRead()
      requires Enabled(View(), ReadEnds)
      modifies this
      ensures View() == Step(parses, old(View()), ReadEnds)
    {
      var c := reading.value;
      if |clients[c].conn.buffer| > MAX_FRAME {
        dropped := dropped + [c];
        clients := clients[c := clients[c].(conn := Closed)];
      }
      reading := None;
    }

    /** A whole read, when no other thread runs in between. */
    method ReadClient(c: nat, chunk: bytes)
      requires Enabled(View(), Receives(c, chunk))
      modifies this
      ensures View() == WholeRead(old(View()), c, chunk)
    {
      ReceiveChunk(c, chunk);
      ghost var start := View();
      while !Unbroken(clients[c].conn.buffer)
        invariant Reading(View()) && reading == Some(c) && Drained(View()) == Drained(start)
        decreases |clients[c].conn.buffer|
      {
        TakeOne();
      }
      FinishRead();
    }

    /** One round of the parser: a line taken, then answered or passed on. */
    method ParserRound()
      requires parsing.None? && pending != []
      modifies this
      ensures View() == Step(parses, Step(parses, old(View()), ParserTakes), ParserDone)
    {
      var line := pending[0];
      pending, parsing := pending[1..], Some(line);
      if parses(line.data) {
        requests := requests + [line];
      } else {
        answered := answered + [line];
      }
      parsed, parsing := parsed + [line], None;
    }

    /** One round of the worker: a request taken, run, and answered with its result or its error. */
    method WorkerRound()
      requires executing.None? && requests != []
      modifies this
      ensures View() == Step(parses, Step(parses, old(View()), WorkerTakes), WorkerDone)
    {
      var request := requests[0];
      requests, executing := requests[1..], Some(request);
      executed, answered, executing := executed + [request], answered + [request], None;
    }
  }

  // ----- What a whole read comes to -----

  function Numbered(client: nat, from: nat, lines: seq<bytes>): (r: seq<Line>)
    ensures |r| == |lines|
  {
    seq(|lines|, i requires 0 <= i < |lines| => Line(client, lines[i], from + 1 + i))
  }

  lemma NumberedNext(client: nat, from: nat, raw: bytes, rest: seq<bytes>)
    ensures Numbered(client, from, [raw] + rest) == [Line(client, raw, from + 1)] + Numbered(client, from + 1, rest)
  {
  }

  lemma TakenAdds(s: Sys, c: nat, buffer: bytes, t: Sys)
    requires Enabled(s, LineTaken) && s.reading == Some(c) && buffer == BufferOf(s, c) && t == TakeLine(s)
    ensures Added(s, t, [Line(c, buffer[..Cut(buffer)], s.order + 1)])
  {
    AcceptElsewhere(s, WithConn(s, c, Open(buffer[Cut(buffer) + 1..])), t,
                    Line(c, buffer[..Cut(buffer)], s.order + 1));
  }

  lemma TakenKeeps(s: Sys, c: nat, buffer: bytes, t: Sys)
    requires Enabled(s, LineTaken) && s.reading == Some(c) && buffer == BufferOf(s, c) && t == TakeLine(s)
    ensures Reading(t) && t.reading == s.reading && t.order == s.order + 1 && t.dropped == s.dropped
    ensures BufferOf(t, c) == buffer[Cut(buffer) + 1..]
  {
  }

  lemma AcceptElsewhere(s: Sys, w: Sys, t: Sys, line: Line)
    requires w == s.(clients := w.clients) && t == Accept(w, line)
    ensures Added(s, t, [line])
  {
    AcceptAdds(w, line);
  }

  /** The buffer of a client that was gone through: what was added to the state, and what is left. */
  predicate GoneThrough(s: Sys, d: Sys, c: nat, buffer: bytes) {
    && d.reading == Some(c) && IsOpen(d, c) && BufferOf(d, c) == Tail(buffer) && d.dropped == s.dropped
    && Added(s, d, Numbered(c, s.order, Lines(buffer)))
  }

  lemma OneMoreLine(s: Sys, t: Sys, d: Sys, c: nat, buffer: bytes)
    requires !Unbroken(buffer) && t.order == s.order + 1 && t.dropped == s.dropped
    requires Added(s, t, [Line(c, buffer[..Cut(buffer)], s.order + 1)])
    requires GoneThrough(t, d, c, buffer[Cut(buffer) + 1..])
    ensures GoneThrough(s, d, c, buffer)
  {
    var raw, rest := buffer[..Cut(buffer)], Lines(buffer[Cut(buffer) + 1..]);
    NumberedNext(c, s.order, raw, rest);
    AddedMore(s, t, d, Line(c, raw, s.order + 1), Numbered(c, s.order + 1, rest));
  }

  /** The lines of the buffer are numbered in turn, the short ones queued, the long ones answered, the tail is kept. */
  lemma {:induction false} DrainedAdds(s: Sys, c: nat, buffer: bytes)
    requires Reading(s) && s.reading == Some(c) && buffer == BufferOf(s, c)
    ensures GoneThrough(s, Drained(s), c, buffer)
    decreases |buffer|
  {
    if Unbroken(buffer) {
      NoLine(buffer);
      AddedNone(s);
    } else {
      TakenAdds(s, c, buffer, TakeLine(s));
      TakenKeeps(s, c, buffer, TakeLine(s));
      DrainedAdds(TakeLine(s), c, buffer[Cut(buffer) + 1..]);
      OneMoreLine(s, TakeLine(s), Drained(TakeLine(s)), c, buffer);
    }
  }

  /**
   * So a whole read numbers the lines of buffer and chunk together, queues the short ones and answers the long ones,
   * and closes the connection exactly if the unfinished rest is too long.
   */
  lemma WholeReadIs(s: Sys, c: nat, chunk: bytes)
    requires Enabled(s, Receives(c, chunk))
    ensures var data, t := BufferOf(s, c) + chunk, WholeRead(s, c, chunk);
            && Added(s, t, Numbered(c, s.order, Lines(data)))
            && c in t.clients && t.clients[c].conn == (if |Tail(data)| > 4096 then Closed else Open(Tail(data)))
            && t.dropped == (if |Tail(data)| > 4096 then s.dropped + [c] else s.dropped)
            && t.reading == None
  {
    DrainedAdds(Received(s, c, chunk), c, BufferOf(s, c) + chunk);
  }

  lemma AddedNone(s: Sys)
    ensures Added(s, s, [])
  {
  }

  lemma {:induction false} LongConcat(a: seq<Line>, b: seq<Line>)
    ensures LongOnes(a + b) == LongOnes(a) + LongOnes(b)
  {
    if a == [] {
      Neutral(b);
      Neutral(LongOnes(b));
    } else {
      DropInFront(a, b);
      LongConcat(a[1..], b);
      Associate(if Short(a[0]) then [] else [a[0]], LongOnes(a[1..]), LongOnes(b));
    }
  }

  lemma AddedMore(s: Sys, t: Sys, u: Sys, line: Line, more: seq<Line>)
    requires Added(s, t, [line]) && Added(t, u, more)
    ensures Added(s, u, [line] + more)
  {
    ShortConcat([line], more);
    LongConcat([line], more);
    Associate(s.pending, ShortOnes([line]), ShortOnes(more));
    Associate(s.answered, LongOnes([line]), LongOnes(more));
    Associate(s.accepted, [line], more);
  }
}
