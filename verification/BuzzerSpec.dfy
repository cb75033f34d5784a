/** Beep patterns of firmware/src/indicator.c: what one render does, and what a run of renders sounds like. */
module BuzzerSpec {
  datatype Pattern = Silent | Accepted | Rejected | OwnerLost | RebootPending | BootReady

  function Beeps(p: Pattern): nat {
    match p case Silent => 0 case Accepted => 1 case BootReady => 1 case Rejected => 2 case _ => 3
  }

  function OnMs(p: Pattern): nat {
    match p case OwnerLost => 250 case BootReady => 300 case _ => 60
  }

  function OffMs(p: Pattern): nat {
    if p == OwnerLost then 250 else 60
  }

  /** Build options, and whether the indicator hardware and the buzzer's PWM are there. */
  datatype Config = Config(indicators: bool, feedback: bool, hardware: bool, pwm: bool)

  predicate Audible(c: Config) {
    c.indicators && c.feedback
  }

  predicate Available(c: Config) {
    Audible(c) && c.pwm
  }

  /** The sequencing fields, the pattern last reported, and whether the PWM is sounding. */
  datatype State = State(pattern: Pattern, remaining: nat, on: bool, onMs: nat, offMs: nat, next: int, last: Pattern,
                         tone: bool)

  const QUIET: State := State(Silent, 0, false, 60, 60, 0, Silent, false)

  function Set(c: Config, s: State, p: Pattern, now: int): State {
    if !c.feedback || !c.hardware then s
    else State(p, Beeps(p), false, OnMs(p), OffMs(p), now, s.last, s.tone)
  }

  /** Switching the tone off, if there is a buzzer and its PWM accepts the write. */
  function Muted(c: Config, s: State, pwmOk: bool): State {
    s.(tone := s.tone && !(Available(c) && pwmOk))
  }

  predicate Done(s: State) {
    s.remaining == 0 && !s.on
  }

  /** One render; `pwmOk` is the answer of the PWM to the one write a render makes, if it makes one. */
  function Render(c: Config, s: State, now: int, pwmOk: bool): State {
    if !Audible(c) then s.(last := Silent)
    else if Done(s) then Muted(c, s, pwmOk).(pattern := Silent, last := Silent)
    else if now < s.next then s.(last := s.pattern)
    else if s.on then Muted(c, s, pwmOk).(on := false, next := now + s.offMs, last := s.pattern)
    else if Available(c) && !pwmOk then s.(remaining := 0, pattern := Silent, last := Silent)
    else s.(on := true, remaining := s.remaining - 1, next := now + s.onMs, last := s.pattern,
            tone := s.tone || Available(c))
  }

  /** indicator_shutdown_outputs, as far as the buzzer is concerned. */
  function Shut(c: Config, s: State, pwmOk: bool): State {
    Muted(c, s, pwmOk).(pattern := Silent, remaining := 0, on := false, next := 0, last := Silent)
  }

  // ----- Runs of renders -----

  datatype Tick = Tick(now: int, pwmOk: bool)

  function Run(c: Config, s: State, ticks: seq<Tick>): State
    decreases |ticks|
  {
    if ticks == [] then s else Run(c, Render(c, s, ticks[0].now, ticks[0].pwmOk), ticks[1..])
  }

  datatype Edge = Rise(at: int) | Fall(at: int)

  /** The moments at which the beep flag turns on and off. */
  function Edges(c: Config, s: State, ticks: seq<Tick>): seq<Edge>
    decreases |ticks|
  {
    if ticks == [] then []
    else
      var s' := Render(c, s, ticks[0].now, ticks[0].pwmOk);
      var rest := Edges(c, s', ticks[1..]);
      if s'.on == s.on then rest else [if s'.on then Rise(ticks[0].now) else Fall(ticks[0].now)] + rest
  }

  /** Twice the beeps to come, and one more while one sounds. */
  function Left(s: State): nat {
    2 * s.remaining + if s.on then 1 else 0
  }

  /** A render that turns the beep on or off lowers the measure; no render raises it. */
  lemma EdgeLowers(c: Config, s: State, now: int, pwmOk: bool)
    ensures var s' := Render(c, s, now, pwmOk);
            && Left(s') <= Left(s) && (s'.on != s.on ==> Left(s') == Left(s) - 1)
            && (s'.on != s.on ==> now >= s.next && s'.next == now + (if s'.on then s.onMs else s.offMs))
            && s'.onMs == s.onMs && s'.offMs == s.offMs
  {
  }

  function Rises(edges: seq<Edge>): nat {
    if edges == [] then 0 else (if edges[0].Rise? then 1 else 0) + Rises(edges[1..])
  }

  /** Tones and pauses alternate, tones last `on` at least and pauses `off`. */
  predicate Spaced(edges: seq<Edge>, on: nat, off: nat) {
    forall i :: 0 <= i < |edges| - 1 ==>
      && (edges[i].Rise? ==> edges[i + 1].Fall? && edges[i + 1].at >= edges[i].at + on)
      && (edges[i].Fall? ==> edges[i + 1].Rise? && edges[i + 1].at >= edges[i].at + off)
  }

  lemma {:induction false} RunEdges(c: Config, s: State, ticks: seq<Tick>)
    ensures var edges := Edges(c, s, ticks);
            && Spaced(edges, s.onMs, s.offMs)
            && |edges| <= Left(s) && Rises(edges) <= s.remaining
            && (edges != [] ==> edges[0].at >= s.next && edges[0].Fall? == s.on)
    decreases |ticks|
  {
    if ticks != [] {
      var s' := Render(c, s, ticks[0].now, ticks[0].pwmOk);
      EdgeLowers(c, s, ticks[0].now, ticks[0].pwmOk);
      RunEdges(c, s', ticks[1..]);
      var edges, rest := Edges(c, s, ticks), Edges(c, s', ticks[1..]);
      if s'.on != s.on {
        assert edges[1..] == rest;
        assert forall i :: 0 <= i < |rest| ==> edges[i + 1] == rest[i];
      }
    }
  }

  /** However the renders come, a pattern makes at most its number of tones, long enough and far enough apart. */
  lemma PatternTones(c: Config, s: State, p: Pattern, now: int, ticks: seq<Tick>)
    requires c.feedback && c.hardware
    ensures var edges := Edges(c, Set(c, s, p, now), ticks);
            && Rises(edges) <= Beeps(p) && |edges| <= 2 * Beeps(p)
            && Spaced(edges, OnMs(p), OffMs(p))
            && (edges != [] ==> edges[0].Rise? && edges[0].at >= now)
  {
    RunEdges(c, Set(c, s, p, now), ticks);
  }

  // ----- How long a pattern lasts -----

  /** Renders follow each other within `gap`, starting within it after `from`. */
  predicate Prompt(ticks: seq<Tick>, from: int, gap: nat) {
    && (ticks != [] ==> from <= ticks[0].now <= from + gap)
    && forall i :: 0 < i < |ticks| ==> ticks[i - 1].now <= ticks[i].now <= ticks[i - 1].now + gap
  }

  function Cycle(s: State, gap: nat): nat
    requires gap > 0
  {
    s.onMs + s.offMs + 2 * (gap - 1)
  }

  /** The latest moment of the last edge, when renders come within `gap` of each other. */
  function Bound(s: State, gap: nat): int
    requires gap > 0
  {
    s.next + (gap - 1) +
    if s.on then s.remaining * Cycle(s, gap) else s.onMs + (gap - 1) + (s.remaining - 1) * Cycle(s, gap)
  }

  lemma Multiples(r: int, k: nat)
    ensures r * k == (r - 1) * k + k
    ensures r >= 1 ==> (r - 1) * k >= 0
  {
    if r >= 1 {
      assert (r - 1) * k >= 0;
    }
  }

  lemma BoundStep(c: Config, s: State, from: int, now: int, pwmOk: bool, gap: nat)
    requires gap > 0 && Audible(c) && !Done(s) && from < s.next && from <= now <= from + gap
    requires s.onMs > 0 && s.offMs > 0
    ensures var s' := Render(c, s, now, pwmOk);
            !Done(s') ==> now < s'.next && now < Bound(s', gap) <= Bound(s, gap)
  {
    var s' := Render(c, s, now, pwmOk);
    assert Cycle(s', gap) == Cycle(s, gap);
    Multiples(s.remaining, Cycle(s, gap));
  }

  lemma PromptRest(ticks: seq<Tick>, from: int, gap: nat)
    requires Prompt(ticks, from, gap) && ticks != []
    ensures from <= ticks[0].now <= from + gap && Prompt(ticks[1..], ticks[0].now, gap)
  {
    assert forall i :: 0 <= i < |ticks| - 1 ==> ticks[1..][i] == ticks[i + 1];
  }

  /** A finished pattern never sounds again by itself, and a tone that is off stays off. */
  lemma {:induction false} DoneStays(c: Config, s: State, ticks: seq<Tick>)
    requires Done(s)
    ensures Done(Run(c, s, ticks)) && Edges(c, s, ticks) == []
    ensures !s.tone ==> !Run(c, s, ticks).tone
    decreases |ticks|
  {
    if ticks != [] {
      DoneStays(c, Render(c, s, ticks[0].now, ticks[0].pwmOk), ticks[1..]);
    }
  }

  /** A pattern that is not done yet has seen no render at its bound or later. */
  lemma {:induction false} DoneByBound(c: Config, s: State, from: int, ticks: seq<Tick>, gap: nat)
    requires gap > 0 && Audible(c) && s.onMs > 0 && s.offMs > 0 && Prompt(ticks, from, gap) && ticks != []
    requires !Done(s) ==> from < s.next
    ensures Done(Run(c, s, ticks)) || ticks[|ticks| - 1].now < Bound(s, gap)
    decreases |ticks|
  {
    PromptRest(ticks, from, gap);
    var now, s' := ticks[0].now, Render(c, s, ticks[0].now, ticks[0].pwmOk);
    if Done(s') {
      DoneStays(c, s', ticks[1..]);
    } else {
      BoundStep(c, s, from, now, ticks[0].pwmOk, gap);
      if |ticks| > 1 {
        DoneByBound(c, s', now, ticks[1..], gap);
      }
    }
  }

  /** How long a pattern can last after its first render. */
  function Duration(p: Pattern, gap: nat): int
    requires gap > 0
  {
    Beeps(p) * (OnMs(p) + gap - 1) + (Beeps(p) - 1) * (OffMs(p) + gap - 1)
  }

  predicate Wired(c: Config, s: State) {
    && (s.tone ==> Available(c))
    && (s.on && Available(c) ==> s.tone)
  }

  lemma RenderWired(c: Config, s: State, now: int, pwmOk: bool)
    requires Wired(c, s)
    ensures Wired(c, Render(c, s, now, pwmOk))
  {
  }

  /** The last render of a finished pattern leaves the PWM sounding only if it was and its own write was refused. */
  lemma {:induction false} SoundsAtEndIff(c: Config, s: State, ticks: seq<Tick>)
    requires Audible(c) && Wired(c, s) && ticks != [] && Done(Run(c, s, ticks))
    ensures var last := |ticks| - 1;
            Run(c, s, ticks).tone <==> Run(c, s, ticks[..last]).tone && !ticks[last].pwmOk
    decreases |ticks|
  {
    var now, pwmOk := ticks[0].now, ticks[0].pwmOk;
    if |ticks| == 1 {
      assert ticks[..0] == [];
    } else {
      RenderWired(c, s, now, pwmOk);
      SoundsAtEndIff(c, Render(c, s, now, pwmOk), ticks[1..]);
      assert ticks[..|ticks| - 1][1..] == ticks[1..][..|ticks[1..]| - 1];
      assert ticks[..|ticks| - 1][0] == ticks[0];
    }
  }

  /** From here on nothing is left to beep and the PWM is off, whatever renders follow. */
  ghost predicate SilentForGood(c: Config, s: State) {
    forall more: seq<Tick> :: Done(Run(c, s, more)) && !Run(c, s, more).tone
  }

  lemma {:induction false} SilentIff(c: Config, s: State)
    ensures SilentForGood(c, s) <==> Done(s) && !s.tone
  {
    assert Run(c, s, []) == s;
    if Done(s) && !s.tone {
      forall more: seq<Tick>
        ensures Done(Run(c, s, more)) && !Run(c, s, more).tone
      {
        DoneStays(c, s, more);
      }
    }
  }

  /**
   * A pattern whose renders follow each other within `gap` has no edge that long after its first render or later,
   * and the PWM is silent for good, exactly unless it was still sounding and refused the last write.
   */
  lemma PatternEnds(c: Config, s: State, p: Pattern, now: int, ticks: seq<Tick>, gap: nat)
    requires Audible(c) && c.hardware && gap > 0 && p != Silent
    requires ticks != [] && ticks[0].now >= now && Prompt(ticks, ticks[0].now, gap)
    requires ticks[|ticks| - 1].now >= ticks[0].now + Duration(p, gap) && (s.tone ==> Available(c))
    ensures var t, last := Run(c, Set(c, s, p, now), ticks), |ticks| - 1;
            && Done(t)
            && (SilentForGood(c, t) <==> !Run(c, Set(c, s, p, now), ticks[..last]).tone || ticks[last].pwmOk)
  {
    PatternDone(c, s, p, now, ticks, gap);
    SoundsAtEndIff(c, Set(c, s, p, now), ticks);
    SilentIff(c, Run(c, Set(c, s, p, now), ticks));
  }

  lemma FirstBound(c: Config, s: State, p: Pattern, now: int, first: int, pwmOk: bool, gap: nat)
    requires Audible(c) && c.hardware && gap > 0 && p != Silent && first >= now
    requires !Done(Render(c, Set(c, s, p, now), first, pwmOk))
    ensures Bound(Render(c, Set(c, s, p, now), first, pwmOk), gap) == first + Duration(p, gap)
  {
    match p {
      case Accepted =>
      case Rejected =>
      case OwnerLost =>
      case RebootPending =>
      case BootReady =>
    }
  }

  lemma PatternDone(c: Config, s: State, p: Pattern, now: int, ticks: seq<Tick>, gap: nat)
    requires Audible(c) && c.hardware && gap > 0 && p != Silent
    requires ticks != [] && ticks[0].now >= now && Prompt(ticks, ticks[0].now, gap)
    requires ticks[|ticks| - 1].now >= ticks[0].now + Duration(p, gap)
    ensures Done(Run(c, Set(c, s, p, now), ticks))
  {
    var first := ticks[0].now;
    var s0 := Set(c, s, p, now);
    var s1 := Render(c, s0, first, ticks[0].pwmOk);
    PromptRest(ticks, first, gap);
    if Done(s1) {
      DoneStays(c, s1, ticks[1..]);
    } else {
      FirstBound(c, s, p, now, first, ticks[0].pwmOk, gap);
      if |ticks| > 1 {
        DoneByBound(c, s1, first, ticks[1..], gap);
      }
    }
  }

  // ----- What a pattern sounds like -----

  /** As many tones as said, each edge at the first render, no later than `gap`, after the one before has lasted. */
  predicate Played(edges: seq<Edge>, count: nat, on: nat, off: nat, gap: nat) {
    && |edges| == 2 * count && (edges != [] ==> edges[0].Rise?)
    && Spaced(edges, on, off) && Tight(edges, on, off, gap)
  }

  predicate Tight(edges: seq<Edge>, on: nat, off: nat, gap: nat) {
    forall i :: 0 <= i < |edges| - 1 ==>
      edges[i + 1].at < edges[i].at + (if edges[i].Rise? then on else off) + gap
  }

  lemma {:induction false} EdgesTight(c: Config, s: State, from: int, ticks: seq<Tick>, gap: nat)
    requires gap > 0 && Audible(c) && s.onMs > 0 && s.offMs > 0 && Prompt(ticks, from, gap)
    requires !Done(s) ==> from < s.next
    ensures var edges := Edges(c, s, ticks);
            Tight(edges, s.onMs, s.offMs, gap) && (edges != [] ==> edges[0].at < s.next + gap)
    decreases |ticks|
  {
    if Done(s) {
      DoneStays(c, s, ticks);
    } else if ticks != [] {
      var now, s' := ticks[0].now, Render(c, s, ticks[0].now, ticks[0].pwmOk);
      PromptRest(ticks, from, gap);
      EdgeLowers(c, s, now, ticks[0].pwmOk);
      EdgesTight(c, s', now, ticks[1..], gap);
      var edges, rest := Edges(c, s, ticks), Edges(c, s', ticks[1..]);
      if s'.on != s.on {
        assert edges[1..] == rest;
        assert forall i :: 0 <= i < |rest| ==> edges[i + 1] == rest[i];
      }
    }
  }

  predicate AllAccepted(ticks: seq<Tick>) {
    forall i :: 0 <= i < |ticks| ==> ticks[i].pwmOk
  }

  lemma {:induction false} EveryEdge(c: Config, s: State, ticks: seq<Tick>)
    requires AllAccepted(ticks)
    ensures |Edges(c, s, ticks)| + Left(Run(c, s, ticks)) == Left(s)
    decreases |ticks|
  {
    if ticks != [] {
      assert forall i :: 0 <= i < |ticks| - 1 ==> ticks[1..][i] == ticks[i + 1];
      EveryEdge(c, Render(c, s, ticks[0].now, ticks[0].pwmOk), ticks[1..]);
    }
  }

  lemma {:induction false} SetPlays(c: Config, s: State, p: Pattern, now: int, ticks: seq<Tick>, gap: nat)
    requires Audible(c) && c.hardware && gap > 0 && AllAccepted(ticks) && p != Silent
    requires ticks != [] && ticks[0].now >= now && Prompt(ticks, ticks[0].now, gap)
    requires ticks[|ticks| - 1].now >= ticks[0].now + Duration(p, gap)
    ensures var edges := Edges(c, Set(c, s, p, now), ticks);
            Played(edges, Beeps(p), OnMs(p), OffMs(p), gap) && edges[0] == Rise(ticks[0].now)
  {
    var s0 := Set(c, s, p, now);
    var s1 := Render(c, s0, ticks[0].now, true);
    assert ticks[0].pwmOk;
    PatternTones(c, s, p, now, ticks);
    PatternDone(c, s, p, now, ticks, gap);
    EveryEdge(c, s0, ticks);
    PromptRest(ticks, ticks[0].now, gap);
    EdgesTight(c, s1, ticks[0].now, ticks[1..], gap);
    var edges, rest := Edges(c, s0, ticks), Edges(c, s1, ticks[1..]);
    assert edges == [Rise(ticks[0].now)] + rest;
    assert forall i :: 0 <= i < |rest| ==> edges[i + 1] == rest[i];
  }

  /**
   * What each pattern sounds like on a board whose PWM refuses nothing, when renders follow each other within `gap`:
   * how many tones, and how long tones and pauses last. The first tone starts with the first render.
   */
  lemma {:induction false} PatternPlays(c: Config, s: State, p: Pattern, now: int, ticks: seq<Tick>, gap: nat)
    requires c.indicators && c.feedback && c.hardware && gap > 0 && AllAccepted(ticks)
    requires ticks != [] && ticks[0].now >= now && Prompt(ticks, ticks[0].now, gap)
    ensures var edges, lasted := Edges(c, Set(c, s, p, now), ticks), ticks[|ticks| - 1].now - ticks[0].now;
            && (p == Silent ==> edges == [])
            && (p == Accepted && lasted >= 60 + (gap - 1) ==> Played(edges, 1, 60, 60, gap))
            && (p == Rejected && lasted >= 180 + 3 * (gap - 1) ==> Played(edges, 2, 60, 60, gap))
            && (p == OwnerLost && lasted >= 1250 + 5 * (gap - 1) ==> Played(edges, 3, 250, 250, gap))
            && (p == RebootPending && lasted >= 300 + 5 * (gap - 1) ==> Played(edges, 3, 60, 60, gap))
            && (p == BootReady && lasted >= 300 + (gap - 1) ==> Played(edges, 1, 300, 60, gap))
            && (edges != [] ==> edges[0] == Rise(ticks[0].now))
  {
    if p == Silent {
      DoneStays(c, Set(c, s, p, now), ticks);
    } else {
      if ticks[|ticks| - 1].now >= ticks[0].now + Duration(p, gap) {
        SetPlays(c, s, p, now, ticks, gap);
      }
      FirstEdge(c, Set(c, s, p, now), ticks);
    }
  }

  lemma FirstEdge(c: Config, s: State, ticks: seq<Tick>)
    requires Audible(c) && ticks != [] && ticks[0].pwmOk && !Done(s) && !s.on && ticks[0].now >= s.next
    ensures Edges(c, s, ticks) != [] && Edges(c, s, ticks)[0] == Rise(ticks[0].now)
  {
  }

  /** The pattern that is reported: the one set, up to the first render that finds all its tones and pauses over. */
  lemma {:induction false} PatternReported(c: Config, s: State, ticks: seq<Tick>)
    requires c.indicators && c.feedback && ticks != [] && AllAccepted(ticks)
    ensures var before := Run(c, s, ticks[..|ticks| - 1]);
            Run(c, s, ticks).last == if before.remaining == 0 && !before.on then Silent else s.pattern
    decreases |ticks|
  {
    assert ticks[0].pwmOk;
    if |ticks| == 1 {
      assert ticks[..0] == [];
    } else {
      var s' := Render(c, s, ticks[0].now, true);
      assert forall i :: 0 <= i < |ticks| - 1 ==> ticks[1..][i] == ticks[i + 1];
      PatternReported(c, s', ticks[1..]);
      assert ticks[..|ticks| - 1][1..] == ticks[1..][..|ticks[1..]| - 1];
      assert ticks[..|ticks| - 1][0] == ticks[0];
      if Done(s) {
        DoneStays(c, s', ticks[1..][..|ticks[1..]| - 1]);
      }
    }
  }

  /** Renders at least a tone or a pause apart make an edge each, so the pattern takes one render per edge. */
  predicate Unhurried(ticks: seq<Tick>, from: int, least: nat) {
    && (ticks != [] ==> ticks[0].now >= from + least)
    && forall i :: 0 < i < |ticks| ==> ticks[i].now >= ticks[i - 1].now + least
  }

  lemma {:induction false} EdgePerRender(c: Config, s: State, from: int, ticks: seq<Tick>, least: nat)
    requires Audible(c) && s.onMs <= least && s.offMs <= least && Unhurried(ticks, from, least)
    requires !Done(s) ==> s.next <= from + least
    requires Left(s) > 0 || Done(s)
    ensures |ticks| >= Left(s) ==> Done(Run(c, s, ticks))
    decreases |ticks|
  {
    if Done(s) {
      DoneStays(c, s, ticks);
    } else if ticks != [] {
      var now, s' := ticks[0].now, Render(c, s, ticks[0].now, ticks[0].pwmOk);
      assert forall i :: 0 <= i < |ticks| - 1 ==> ticks[1..][i] == ticks[i + 1];
      if Done(s') {
        DoneStays(c, s', ticks[1..]);
      } else {
        EdgePerRender(c, s', now, ticks[1..], least);
      }
    }
  }

  /**
   * The warning before a reset is over before the 1000 ms of the reset delay: with renders every 100 ms its last tone
   * ends with the fifth render after the first, at 500 ms; with renders merely no further apart it still ends by
   * 795 ms.
   */
  lemma RebootWarningEnds(c: Config, s: State, now: int, ticks: seq<Tick>)
    requires Audible(c) && c.hardware && ticks != [] && ticks[0].now >= now && (s.tone ==> Available(c))
    requires Prompt(ticks, ticks[0].now, 100)
    requires || ticks[|ticks| - 1].now >= ticks[0].now + 795
             || (Unhurried(ticks[1..], ticks[0].now, 60) && |ticks| >= 6)
    ensures var s0, last := Set(c, s, RebootPending, now), |ticks| - 1;
            && Done(Run(c, s0, ticks))
            && (SilentForGood(c, Run(c, s0, ticks)) <==> !Run(c, s0, ticks[..last]).tone || ticks[last].pwmOk)
    ensures |ticks| == 6 ==> ticks[5].now <= ticks[0].now + 500
  {
    var s0 := Set(c, s, RebootPending, now);
    if ticks[|ticks| - 1].now >= ticks[0].now + 795 {
      assert Duration(RebootPending, 100) == 795;
      PatternDone(c, s, RebootPending, now, ticks, 100);
    } else {
      EdgePerRender(c, Render(c, s0, ticks[0].now, ticks[0].pwmOk), ticks[0].now, ticks[1..], 60);
    }
    SoundsAtEndIff(c, s0, ticks);
    SilentIff(c, Run(c, s0, ticks));
    if |ticks| == 6 {
      assert ticks[1].now <= ticks[0].now + 100;
      assert ticks[2].now <= ticks[1].now + 100;
      assert ticks[3].now <= ticks[2].now + 100;
      assert ticks[4].now <= ticks[3].now + 100;
      assert ticks[5].now <= ticks[4].now + 100;
    }
  }

  // ----- The tone -----

  datatype Act = Start(p: Pattern, now: int) | Show(tick: Tick) | Shutdown(pwmOk: bool)

  function Do(c: Config, s: State, act: Act): State {
    match act
    case Start(p, now) => Set(c, s, p, now)
    case Show(tick) => Render(c, s, tick.now, tick.pwmOk)
    case Shutdown(pwmOk) => Shut(c, s, pwmOk)
  }

  function After(c: Config, s: State, acts: seq<Act>): State {
    if acts == [] then s else Do(c, After(c, s, acts[..|acts| - 1]), acts[|acts| - 1])
  }

  lemma {:induction false} AfterMore(c: Config, s: State, acts: seq<Act>, act: Act)
    ensures After(c, s, acts + [act]) == Do(c, After(c, s, acts), act)
  {
    assert (acts + [act])[..|acts|] == acts;
  }

  /** The PWM never sounds without a buzzer, and always while a beep is on. */
  lemma {:induction false} HistoryWired(c: Config, acts: seq<Act>)
    ensures Wired(c, After(c, QUIET, acts))
  {
    if acts != [] {
      HistoryWired(c, acts[..|acts| - 1]);
    }
  }

  /** The act writes to the PWM. */
  predicate Writes(c: Config, s: State, act: Act) {
    Available(c) &&
    match act
    case Start(_, _) => false
    case Show(tick) => Done(s) || tick.now >= s.next
    case Shutdown(_) => true
  }

  predicate Accepts(act: Act) {
    match act case Start(_, _) => false case Show(tick) => tick.pwmOk case Shutdown(pwmOk) => pwmOk
  }

  /** The state before act i. */
  function Before(c: Config, acts: seq<Act>, i: nat): State
    requires i <= |acts|
  {
    After(c, QUIET, acts[..i])
  }

  /** Act i switches the PWM on: it starts a beep, and its write is accepted. */
  predicate SwitchesOn(c: Config, acts: seq<Act>, i: nat)
    requires i < |acts|
  {
    var s := Before(c, acts, i);
    Writes(c, s, acts[i]) && Accepts(acts[i]) && acts[i].Show? && !Done(s) && !s.on
  }

  predicate IsAccepted(c: Config, acts: seq<Act>, i: nat)
    requires i < |acts|
  {
    Writes(c, Before(c, acts, i), acts[i]) && Accepts(acts[i])
  }

  predicate EndsBeep(c: Config, s: State, act: Act) {
    match act
    case Start(_, _) => c.feedback && c.hardware
    case Show(_) => Writes(c, s, act) && !Accepts(act)
    case Shutdown(_) => true
  }

  /** Act i ends a beep without an accepted write: a pattern is started, a write refused, the outputs shut down. */
  predicate Interrupts(c: Config, acts: seq<Act>, i: nat)
    requires i < |acts|
  {
    EndsBeep(c, Before(c, acts, i), acts[i])
  }

  /** The last write that the PWM accepted was act i, and switched it on. */
  predicate LastOn(c: Config, acts: seq<Act>, i: nat) {
    i < |acts| && SwitchesOn(c, acts, i) && forall j :: i < j < |acts| ==> !IsAccepted(c, acts, j)
  }

  ghost predicate Sounding(c: Config, acts: seq<Act>) {
    exists i: nat :: LastOn(c, acts, i)
  }

  /** It was, and something has ended the beep since. */
  predicate CutOff(c: Config, acts: seq<Act>, i: nat) {
    LastOn(c, acts, i) && exists j :: i < j < |acts| && Interrupts(c, acts, j)
  }

  ghost predicate SoundingOn(c: Config, acts: seq<Act>) {
    exists i: nat :: CutOff(c, acts, i)
  }

  lemma SamePrefix(c: Config, acts: seq<Act>, act: Act, i: nat)
    requires i < |acts|
    ensures SwitchesOn(c, acts + [act], i) == SwitchesOn(c, acts, i)
    ensures IsAccepted(c, acts + [act], i) == IsAccepted(c, acts, i)
    ensures Interrupts(c, acts + [act], i) == Interrupts(c, acts, i)
  {
    assert (acts + [act])[..i] == acts[..i];
  }

  lemma LastOnMore(c: Config, acts: seq<Act>, act: Act, i: nat)
    ensures LastOn(c, acts + [act], i) <==>
            if i == |acts| then SwitchesOn(c, acts + [act], i)
            else LastOn(c, acts, i) && !IsAccepted(c, acts + [act], |acts|)
    ensures CutOff(c, acts + [act], i) <==>
            i != |acts| && LastOn(c, acts + [act], i) && (CutOff(c, acts, i) || Interrupts(c, acts + [act], |acts|))
  {
    var all := acts + [act];
    forall j: nat | j < |acts|
      ensures SwitchesOn(c, all, j) == SwitchesOn(c, acts, j)
      ensures IsAccepted(c, all, j) == IsAccepted(c, acts, j)
      ensures Interrupts(c, all, j) == Interrupts(c, acts, j)
    {
      SamePrefix(c, acts, act, j);
    }
    if i < |acts| && LastOn(c, acts, i) && !IsAccepted(c, all, |acts|) {
      forall j | i < j < |all|
        ensures !IsAccepted(c, all, j)
      {
        assert j < |acts| ==> !IsAccepted(c, acts, j);
      }
    }
    if i < |acts| && LastOn(c, all, i) {
      forall j | i < j < |acts|
        ensures !IsAccepted(c, acts, j)
      {
        assert !IsAccepted(c, all, j);
      }
      assert !IsAccepted(c, all, |acts|);
    }
  }

  lemma SoundingMore(c: Config, acts: seq<Act>, act: Act)
    ensures Sounding(c, acts + [act]) <==>
            SwitchesOn(c, acts + [act], |acts|) || (Sounding(c, acts) && !IsAccepted(c, acts + [act], |acts|))
    ensures SoundingOn(c, acts + [act]) <==>
            && Sounding(c, acts) && !IsAccepted(c, acts + [act], |acts|)
            && (SoundingOn(c, acts) || Interrupts(c, acts + [act], |acts|))
  {
    var all := acts + [act];
    forall i: nat
      ensures LastOn(c, all, i) <==>
              if i == |acts| then SwitchesOn(c, all, i) else LastOn(c, acts, i) && !IsAccepted(c, all, |acts|)
      ensures CutOff(c, all, i) <==>
              i != |acts| && LastOn(c, all, i) && (CutOff(c, acts, i) || Interrupts(c, all, |acts|))
    {
      LastOnMore(c, acts, act, i);
    }
    if Sounding(c, acts) {
      var i: nat :| LastOn(c, acts, i);
      assert LastOn(c, all, i) <==> !IsAccepted(c, all, |acts|);
      if Interrupts(c, all, |acts|) && !IsAccepted(c, all, |acts|) {
        assert CutOff(c, all, i);
      }
    }
    if SoundingOn(c, acts) && !IsAccepted(c, all, |acts|) {
      var i: nat :| CutOff(c, acts, i);
      assert CutOff(c, all, i);
    }
    if SwitchesOn(c, all, |acts|) {
      assert LastOn(c, all, |acts|);
    }
  }

  /** How one act changes tone and beep. */
  lemma ToneStep(c: Config, s: State, act: Act)
    requires Wired(c, s)
    ensures var t, accepted := Do(c, s, act), Writes(c, s, act) && Accepts(act);
            && Wired(c, t)
            && (t.tone <==> if accepted then act.Show? && !Done(s) && !s.on else s.tone)
            && (s.tone && !accepted ==>
                 (t.on <==> s.on && !EndsBeep(c, s, act)))
            && (accepted && t.tone ==> t.on)
  {
  }

  /**
   * After any history the PWM sounds exactly if the last write it accepted switched it on, and it does so with no beep
   * on exactly if since then a pattern was started, a write refused or the outputs shut down.
   */
  lemma {:induction false} ToneFollows(c: Config, acts: seq<Act>)
    ensures var s := After(c, QUIET, acts);
            && (s.tone <==> Sounding(c, acts))
            && (s.tone && !s.on <==> SoundingOn(c, acts))
            && (s.on ==> s.tone == (c.indicators && c.feedback && c.pwm))
  {
    if acts != [] {
      var front, act := acts[..|acts| - 1], acts[|acts| - 1];
      assert acts == front + [act];
      ToneFollows(c, front);
      HistoryWired(c, front);
      ToneStep(c, After(c, QUIET, front), act);
      assert acts[..|front|] == front;
      SoundingMore(c, front, act);
    }
    HistoryWired(c, acts);
  }

  function Time(act: Act): int {
    match act case Start(_, now) => now case Show(tick) => tick.now case Shutdown(_) => 0
  }

  /** In order of time, no write refused, and not shut down. */
  predicate Accepting(acts: seq<Act>) {
    forall i :: 0 <= i < |acts| ==>
      && (i > 0 ==> Time(acts[i - 1]) <= Time(acts[i]))
      && !acts[i].Shutdown? && (acts[i].Show? ==> acts[i].tick.pwmOk)
  }

  /** While the PWM accepts every write, every render leaves it sounding exactly while a beep is on. */
  lemma {:induction false} AcceptedToneFollows(c: Config, acts: seq<Act>)
    requires Accepting(acts)
    ensures var s := After(c, QUIET, acts);
            && (acts != [] && acts[|acts| - 1].Show? ==> s.tone == (s.on && c.indicators && c.feedback && c.pwm))
            && (acts != [] && s.tone && !s.on ==> s.next <= Time(acts[|acts| - 1]) || Done(s))
            && (acts == [] ==> !s.tone)
  {
    HistoryWired(c, acts);
    if acts != [] {
      var before := acts[..|acts| - 1];
      assert Accepting(before);
      AcceptedToneFollows(c, before);
      if before != [] {
        assert before[|before| - 1] == acts[|acts| - 2];
        assert Time(acts[|acts| - 2]) <= Time(acts[|acts| - 1]);
      }
    }
  }

  const EQUIPPED: Config := Config(true, true, true, true)

  /**
   * A pattern that replaces a sounding one, and whose own tone is refused, leaves the PWM sounding with no beep on
   * and none left.
   */
  lemma {:induction false} RefusedToneSoundsOn()
    ensures var acts := [Start(OwnerLost, 0)] + [Show(Tick(0, true))] + [Start(Accepted, 1)] + [Show(Tick(1, false))];
            var s := After(EQUIPPED, QUIET, acts);
            s.tone && !s.on && Done(s)
  {
    var first, second := [Start(OwnerLost, 0)], [Show(Tick(0, true))];
    assert [] + first == first;
    AfterMore(EQUIPPED, QUIET, [], Start(OwnerLost, 0));
    AfterMore(EQUIPPED, QUIET, first, Show(Tick(0, true)));
    AfterMore(EQUIPPED, QUIET, first + second, Start(Accepted, 1));
    AfterMore(EQUIPPED, QUIET, first + second + [Start(Accepted, 1)], Show(Tick(1, false)));
  }
}
