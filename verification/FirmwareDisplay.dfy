/**
 * What the indicator shows of pulses while handlers run whole: the bar of a running pulse runs down exactly to its
 * deadline, and a pulse that a failed write has dropped keeps its bar until the next report.
 */
module FirmwareDisplay {
  import opened Common
  import opened RelaySpec
  import opened Firmware
  import opened FirmwareSafety
  import opened FirmwareReboot
  import opened FirmwareReset
  import opened FirmwareBoard
  import opened FirmwareTiming
  import opened FirmwareViews
  import opened FirmwareTheorems
  import C = Countdown
  import H = HealthSpec
  import T = PulseTimes

  // ----- No recorded pulse is long, none has started in the future -----

  predicate Recent(s: Sys) {
    && WellFormed(s)
    && (forall ch :: 0 <= ch < CHANNELS ==> s.starts[ch] <= s.now && s.core.relay.durations[ch] <= PULSE_MAX_MS)
  }

  /** Durations are kept, dropped, or those of a pulse command that passed its checks. */
  predicate DurationsFrom(r: Relay, t: Relay) {
    Shaped(r) && Shaped(t)
    && forall ch :: 0 <= ch < CHANNELS ==> t.durations[ch] <= PULSE_MAX_MS || t.durations[ch] == r.durations[ch]
  }

  lemma RenewDurations(cfg: Config, c: Core, d: Core, now: nat)
    requires Shaped(d.relay) && DurationsFrom(c.relay, d.relay)
    ensures DurationsFrom(c.relay, Renew(cfg, d, now).relay)
  {
    assert Renew(cfg, d, now).relay == ScheduleLease(cfg, CancelReboot(d.relay), now);
  }

  lemma CancelDurations(r: Relay, mask: set<nat>)
    requires Shaped(r)
    ensures DurationsFrom(r, CancelPulses(r, mask))
  {
  }

  lemma SetDurations(cfg: Config, c: Core, now: nat, ch: nat, on: bool, w: Write)
    requires Shaped(c.relay)
    ensures DurationsFrom(c.relay, Set(cfg, c, now, ch, on, w).0.relay)
  {
    if ch < CHANNELS {
      CancelDurations(c.relay, {ch});
      var written := SetChannel(c.(relay := CancelPulses(c.relay, {ch})), ch, on, w);
      assert written.relay.durations == CancelPulses(c.relay, {ch}).durations;
      RenewDurations(cfg, c, written, now);
    }
  }

  lemma SetAllDurations(cfg: Config, c: Core, now: nat, mask: set<nat>, writes: seq<Write>)
    requires Shaped(c.relay) && |writes| == CHANNELS
    ensures DurationsFrom(c.relay, SetAll(cfg, c, now, mask, writes).0.relay)
  {
    if mask <= ALL {
      CancelDurations(c.relay, ALL);
      var written := ApplyState(c.(relay := CancelPulses(c.relay, ALL)), mask, writes);
      assert written.relay.durations == CancelPulses(c.relay, ALL).durations;
      RenewDurations(cfg, c, written, now);
    }
  }

  lemma PulseDurations(cfg: Config, c: Core, now: nat, ch: nat, duration: nat, w: Write, scheduled: bool, off: Write)
    requires Shaped(c.relay)
    ensures DurationsFrom(c.relay, Pulse(cfg, c, now, ch, duration, w, scheduled, off).0.relay)
  {
    if ch < CHANNELS && PULSE_MIN_MS <= duration <= PULSE_MAX_MS && ch !in c.relay.pulsing && w.Written? {
      var written := SetChannel(c, ch, true, w);
      assert written.relay.durations == c.relay.durations;
      if scheduled {
        var started := written.(relay := StartPulse(written.relay, ch, duration, now + duration));
        assert started.relay.durations == c.relay.durations[ch := duration];
        RenewDurations(cfg, c, started, now);
      }
    }
  }

  lemma CommandDurations(cfg: Config, s: Sys, cmd: Command)
    requires Enabled(s, Cmd(cmd))
    ensures DurationsFrom(s.core.relay, NextCommand(cfg, s, cmd).core.relay)
  {
    match cmd
    case SetStep(ch, on, w) => SetDurations(cfg, s.core, s.now, ch, on, w);
    case SetAllStep(mask, writes) => SetAllDurations(cfg, s.core, s.now, mask, writes);
    case PulseStep(ch, duration, w, scheduled, off) =>
      PulseDurations(cfg, s.core, s.now, ch, duration, w, scheduled, off);
    case HeartbeatStep => RenewDurations(cfg, s.core, s.core, s.now);
  }

  lemma ExpiredDurations(cfg: Config, c: Core, now: nat, ch: nat, w: Write)
    requires Shaped(c.relay) && ch < CHANNELS
    ensures DurationsFrom(c.relay, PulseExpired(cfg, c, now, ch, w).relay)
  {
  }

  lemma LeaseDurations(cfg: Config, c: Core, now: nat, writes: seq<Write>)
    requires Shaped(c.relay) && |writes| == CHANNELS
    ensures DurationsFrom(c.relay, LeaseExpired(cfg, c, now, writes).relay)
  {
    CancelDurations(c.relay, ALL);
    assert LeaseExpired(cfg, c, now, writes).relay.durations ==
           if c.relay.armed then CancelPulses(c.relay, ALL).durations else c.relay.durations;
  }

  lemma TimerDurations(cfg: Config, s: Sys, t: Handler)
    requires Enabled(s, Timer(t))
    ensures DurationsFrom(s.core.relay, NextTimer(cfg, s, t).core.relay)
  {
    var r := s.core.relay;
    match t
    case PulseBody(ch, w) =>
      var finished := r.(pulseWork := r.pulseWork[ch := r.pulseWork[ch].Finish()]);
      ExpiredDurations(cfg, s.core.(relay := finished), s.now, ch, w);
    case LeaseBody(writes) =>
      LeaseDurations(cfg, s.core.(relay := r.(lease := r.lease.Finish())), s.now, writes);
    case _ =>
  }

  lemma HostDurations(cfg: Config, s: Sys, h: HostAction)
    requires Enabled(s, Host(h))
    ensures DurationsFrom(s.core.relay, NextHost(cfg, s, h).core.relay)
  {
    if h.HostOff? {
      SetAllDurations(cfg, s.core, s.now, {}, h.writes);
    }
  }

  lemma StepRecent(cfg: Config, s: Sys, step: Step)
    requires Enabled(s, step) && Recent(s)
    ensures Recent(Next(cfg, s, step))
  {
    match step
    case Cmd(cmd) => CommandDurations(cfg, s, cmd);
    case Timer(t) => TimerDurations(cfg, s, t);
    case Host(h) => HostDurations(cfg, s, h);
    case Publish(i) => JobEffect(s.core, i, s.now);
    case _ =>
  }

  lemma {:induction false} RunRecent(cfg: Config, s: Sys, steps: seq<Step>, t: Sys)
    requires Run(cfg, s, steps, t) && Recent(s)
    ensures Recent(t)
    decreases |steps|
  {
    if steps != [] {
      StepRecent(cfg, s, steps[0]);
      RunRecent(cfg, Next(cfg, s, steps[0]), steps[1..], t);
    }
  }

  lemma BehaviourRecent(cfg: Config, boot: nat, moves: seq<Move>, states: seq<Sys>, i: nat)
    requires Behaviour(cfg, boot, moves, states) && i < |states|
    ensures Recent(states[i])
  {
    var steps := BehaviourIsRun(cfg, boot, moves, states, 0, i);
    RunRecent(cfg, states[0], steps, states[i]);
  }

  // ----- Moves that report nothing -----

  function End(s: Sys, ch: nat): nat
    requires WellFormed(s) && ch < CHANNELS
  {
    s.starts[ch] + s.core.relay.durations[ch]
  }

  /** A write of the move fails, so that it drops a pulse of the channel without a report. */
  predicate DropsUnreported(m: Move, ch: nat) {
    match m
    case Do(step) =>
      step.Cmd? &&
      (match step.cmd
       case SetStep(c, _, w) => c == ch && w.WriteFailed?
       case SetAllStep(mask, writes) => mask <= ALL && Succeeding(writes) < CHANNELS
       case _ => false)
    case PulseExpiry(c, w) => c == ch && w.WriteFailed?
    case LeaseExpiry(writes, _, _) => Succeeding(writes) < CHANNELS
    case HostExpiry(_, writes, _) => Succeeding(writes) < CHANNELS
    case _ => false
  }

  /** What is left of the pulses of r: those that are not dropped, as they were. */
  predicate PulsesLeft(r: Relay, t: Relay, dropped: set<nat>)
    requires Shaped(r)
  {
    && Shaped(t) && t.pulsing == r.pulsing - dropped
    && forall ch :: 0 <= ch < CHANNELS && ch in t.pulsing ==> t.durations[ch] == r.durations[ch]
  }

  lemma QuietSet(cfg: Config, c: Core, now: nat, n: nat, on: bool, w: Write)
    requires Protected(cfg, c) && Set(cfg, c, now, n, on, w).1 != Success
    ensures PulsesLeft(c.relay, Set(cfg, c, now, n, on, w).0.relay, if w.WriteFailed? then {n} else {})
  {
    if n < CHANNELS {
      SetEffect(cfg, c, now, n, on, w);
    }
  }

  lemma QuietSetAll(cfg: Config, c: Core, now: nat, mask: set<nat>, writes: seq<Write>)
    requires Protected(cfg, c) && |writes| == CHANNELS && SetAll(cfg, c, now, mask, writes).1 != Success
    ensures PulsesLeft(c.relay, SetAll(cfg, c, now, mask, writes).0.relay, if mask <= ALL then ALL else {})
    ensures mask <= ALL ==> Succeeding(writes) < CHANNELS
  {
    if mask <= ALL {
      SetAllEffect(cfg, c, now, mask, writes);
    }
  }

  lemma QuietPulse(cfg: Config, c: Core, now: nat, n: nat, duration: nat, w: Write, scheduled: bool, off: Write)
    requires Protected(cfg, c) && Pulse(cfg, c, now, n, duration, w, scheduled, off).1 != Success
    ensures PulsesLeft(c.relay, Pulse(cfg, c, now, n, duration, w, scheduled, off).0.relay, {})
  {
    if n < CHANNELS && PULSE_MIN_MS <= duration <= PULSE_MAX_MS && n !in c.relay.pulsing {
      PulseEffect(cfg, c, now, n, duration, w, scheduled, off);
    }
  }

  function DroppedBy(m: Move): set<nat> {
    set ch: nat | ch < CHANNELS && DropsUnreported(m, ch)
  }

  lemma QuietCommand(cfg: Config, s: Sys, cmd: Command)
    requires Enabled(s, Cmd(cmd)) && Safe(cfg, s) && !Reports(cfg, s, Cmd(cmd))
    ensures var t := NextCommand(cfg, s, cmd);
            t.starts == s.starts && PulsesLeft(s.core.relay, t.core.relay, DroppedBy(Do(Cmd(cmd))))
  {
    match cmd
    case SetStep(n, on, w) => QuietSet(cfg, s.core, s.now, n, on, w);
    case SetAllStep(mask, writes) => QuietSetAll(cfg, s.core, s.now, mask, writes);
    case PulseStep(n, duration, w, scheduled, off) => QuietPulse(cfg, s.core, s.now, n, duration, w, scheduled, off);
    case HeartbeatStep => RenewKeeps(cfg, s.core, s.now);
  }

  /** The records of a move that makes no report: starts and the running pulses it leaves. */
  predicate QuietlyMoved(s: Sys, m: Move, t: Sys) {
    && WellFormed(s) && t.starts == s.starts && t.now >= s.now
    && PulsesLeft(s.core.relay, t.core.relay, DroppedBy(m))
  }

  lemma QuietStep(cfg: Config, s: Sys, step: Step)
    requires Calm(cfg, s) && Plain(step) && Enabled(s, step) && !Reports(cfg, s, step)
    ensures QuietlyMoved(s, Do(step), Next(cfg, s, step))
  {
    match step
    case Cmd(cmd) => QuietCommand(cfg, s, cmd);
    case Dog(d) => DogKeeps(cfg, s, d);
    case _ =>
  }

  lemma QuietDo(cfg: Config, s: Sys, step: Step, t: Sys)
    requires Calm(cfg, s) && Moved(cfg, s, Do(step), t) && !MoveReports(cfg, s, Do(step))
    ensures QuietlyMoved(s, Do(step), t)
  {
    StepTells(cfg, s, step);
    SettleKeeps(Next(cfg, s, step).core, Next(cfg, s, step).now);
    QuietStep(cfg, s, step);
  }

  lemma QuietPulseBody(cfg: Config, c: Core, now: nat, ch: nat, w: Write)
    requires Shaped(c.relay) && PinsMatch(c) && ch < CHANNELS && !(ch in c.relay.pulsing && w.Written?)
    requires ch in c.relay.pulsing
    ensures PulsesLeft(c.relay, PulseExpired(cfg, c, now, ch, w).relay, {ch})
  {
    PulseExpiredEffect(cfg, c, now, ch, w);
  }

  lemma DueIsPulsing(cfg: Config, s: Sys, ch: nat)
    requires Timed(cfg, s) && ch < CHANNELS && s.core.relay.pulseWork[ch].due.Some?
    ensures ch in s.core.relay.pulsing
  {
  }

  lemma QuietPulseExpiry(cfg: Config, s: Sys, ch: nat, w: Write, t: Sys)
    requires WellFormed(s) && Timed(cfg, s) && Moved(cfg, s, PulseExpiry(ch, w), t)
    requires !MoveReports(cfg, s, PulseExpiry(ch, w))
    ensures QuietlyMoved(s, PulseExpiry(ch, w), t)
  {
    var u := NextTimer(cfg, s, PulseFire(ch));
    var v := NextTimer(cfg, u, PulseBody(ch, w));
    DueIsPulsing(cfg, s, ch);
    PulseRuns(cfg, s, ch, w, u, v);
    PulseBodyTells(cfg, u, ch, w);
    SettleKeeps(v.core, v.now);
    QuietPulseBody(cfg, s.core.(relay := s.core.relay.(pulseWork := s.core.relay.pulseWork[ch := IDLE])), s.now, ch, w);
    assert DroppedBy(PulseExpiry(ch, w)) == {ch};
  }

  lemma LeaseLeaves(cfg: Config, c: Core, now: nat, writes: seq<Write>)
    requires Shaped(c.relay) && PinsMatch(c) && c.relay.armed && |writes| == CHANNELS && Succeeding(writes) < CHANNELS
    ensures PulsesLeft(c.relay, LeaseExpired(cfg, c, now, writes).relay, ALL)
  {
    LeaseOutcome(cfg, c, now, writes, LeaseExpired(cfg, c, now, writes));
  }

  lemma QuietLease(cfg: Config, s: Sys, writes: seq<Write>, t: Sys)
    requires Calm(cfg, s) && s.core.relay.armed
    requires Handled(cfg, s, LeaseFire, LeaseBody(writes), t) && Succeeding(writes) < CHANNELS
    requires s.core.relay.lease.running == 0
    ensures t.starts == s.starts && t.now == s.now && PulsesLeft(s.core.relay, t.core.relay, ALL)
  {
    var fired := s.core.(relay := s.core.relay.(lease := IDLE));
    var v := NextTimer(cfg, NextTimer(cfg, s, LeaseFire), LeaseBody(writes));
    assert v.core == LeaseExpired(cfg, fired, s.now, writes);
    LeaseBodyTells(cfg, fired, s.now, writes);
    SettleKeeps(v.core, s.now);
    LeaseLeaves(cfg, fired, s.now, writes);
  }

  lemma QuietLeaseExpiry(cfg: Config, s: Sys, writes: seq<Write>, scheduled: bool, warned: bool, t: Sys)
    requires WellFormed(s) && Timed(cfg, s) && Moved(cfg, s, LeaseExpiry(writes, scheduled, warned), t)
    requires !MoveReports(cfg, s, LeaseExpiry(writes, scheduled, warned))
    ensures QuietlyMoved(s, LeaseExpiry(writes, scheduled, warned), t)
  {
    var u :| Handled(cfg, s, LeaseFire, LeaseBody(writes), u) &&
             if LeaseWantsReboot(cfg, s.core, writes) then TailHandled(cfg, u, scheduled, warned, t) else t == u;
    DueIsArmed(cfg, s);
    TimedIsCalm(cfg, s);
    QuietLease(cfg, s, writes, u);
    AllDropped(LeaseExpiry(writes, scheduled, warned));
  }

  lemma DueIsArmed(cfg: Config, s: Sys)
    requires Timed(cfg, s) && s.core.relay.lease.due.Some?
    ensures s.core.relay.armed && s.core.relay.lease.running == 0
  {
  }

  lemma OffLeaves(cfg: Config, c: Core, now: nat, writes: seq<Write>, off: Core)
    requires Protected(cfg, c) && |writes| == CHANNELS && Succeeding(writes) < CHANNELS
    requires off == Tell(SetAll(cfg, c, now, {}, writes).0, H.RecordRebootFailed)
    ensures PulsesLeft(c.relay, off.relay, ALL)
  {
    SetAllBoard(cfg, c, now, {}, writes);
    QuietSetAll(cfg, c, now, {}, writes);
  }

  lemma QuietHost(cfg: Config, s: Sys, kind: ResetKind, writes: seq<Write>, back: bool, t: Sys)
    requires Calm(cfg, s) && Moved(cfg, s, HostExpiry(kind, writes, back), t)
    requires !MoveReports(cfg, s, HostExpiry(kind, writes, back))
    ensures QuietlyMoved(s, HostExpiry(kind, writes, back), t)
  {
    var u := NextHost(cfg, s, HostFire(kind));
    var v := NextHost(cfg, u, HostOff(kind, writes));
    OffTellsFirst(cfg, s, kind, writes, u, v);
    SettleKeeps(v.core, v.now);
    QuietOff(cfg, s, kind, writes, u, v);
    AllDropped(HostExpiry(kind, writes, back));
  }

  lemma QuietOff(cfg: Config, s: Sys, kind: ResetKind, writes: seq<Write>, u: Sys, v: Sys)
    requires Calm(cfg, s) && Enabled(s, Host(HostFire(kind))) && u == NextHost(cfg, s, HostFire(kind))
    requires Enabled(u, Host(HostOff(kind, writes))) && v == NextHost(cfg, u, HostOff(kind, writes))
    requires Succeeding(writes) < CHANNELS
    ensures v.starts == s.starts && v.now == s.now && PulsesLeft(s.core.relay, v.core.relay, ALL)
  {
    OffAnswer(cfg, s.core, s.now, writes);
    OffLeaves(cfg, s.core, s.now, writes, v.core);
  }

  lemma AllDropped(m: Move)
    requires forall ch :: 0 <= ch < CHANNELS ==> DropsUnreported(m, ch)
    ensures DroppedBy(m) == ALL
  {
  }

  lemma QuietReboot(cfg: Config, s: Sys, fire: Handler, body: Handler, m: Move, t: Sys)
    requires Calm(cfg, s) && Handled(cfg, s, fire, body, t) && (m.WarningExpiry? || m.RebootExpiry?)
    requires (fire.WarningFire? && body.WarningBody?) || (fire.RebootFire? && body.RebootBody?)
    ensures QuietlyMoved(s, m, t)
  {
    assert DroppedBy(m) == {};
  }

  lemma QuietDog(cfg: Config, s: Sys, fed: bool, accepted: bool, t: Sys)
    requires Calm(cfg, s) && Moved(cfg, s, DogExpiry(fed, accepted), t)
    ensures QuietlyMoved(s, DogExpiry(fed, accepted), t)
  {
    DogKeeps(cfg, s, DogSample);
    DogKeeps(cfg, NextDog(cfg, s, DogSample), DogBody(fed, accepted));
    assert DroppedBy(DogExpiry(fed, accepted)) == {};
  }

  lemma QuietMove(cfg: Config, s: Sys, m: Move, t: Sys)
    requires WellFormed(s) && Timed(cfg, s) && Moved(cfg, s, m, t) && !MoveReports(cfg, s, m)
    ensures QuietlyMoved(s, m, t)
  {
    TimedIsCalm(cfg, s);
    match m
    case Do(step) => QuietDo(cfg, s, step, t);
    case PulseExpiry(ch, w) => QuietPulseExpiry(cfg, s, ch, w, t);
    case LeaseExpiry(writes, scheduled, warned) => QuietLeaseExpiry(cfg, s, writes, scheduled, warned, t);
    case HostExpiry(kind, writes, back) => QuietHost(cfg, s, kind, writes, back, t);
    case WarningExpiry => QuietReboot(cfg, s, WarningFire, WarningBody, m, t);
    case RebootExpiry(back) => QuietReboot(cfg, s, RebootFire, RebootBody(back), m, t);
    case DogExpiry(fed, accepted) => QuietDog(cfg, s, fed, accepted, t);
  }

  // ----- The slots of the indicator -----

  /** The slot of a running pulse: its duration and deadline, unless the newest report came in that very moment. */
  predicate Slotted(s: Sys, ch: nat)
    requires WellFormed(s) && ch < CHANNELS
  {
    var newest, slot := s.core.board.newest, s.core.board.panel.slots[ch];
    ch in s.core.relay.pulsing ==>
      && ch in newest.pulsing && newest.at <= s.now && s.core.relay.durations[ch] > 0
      && slot == if newest.at < End(s, ch) then T.Slot(s.core.relay.durations[ch] % C.WRAP, End(s, ch)) else T.EMPTY
  }

  lemma ReportSlot(r: Relay, start: nat, now: nat, ch: nat)
    requires Shaped(r) && ch < CHANNELS && start <= now && r.durations[ch] <= PULSE_MAX_MS
    requires ch in r.pulsing <==> r.durations[ch] != 0
    requires r.pulseWork[ch].due == if ch in r.pulsing then Some(start + r.durations[ch]) else None
    ensures T.Stored(r.pulsing, Some(PulseTimings(r, r.pulsing, now)), now)[ch] ==
            if ch in r.pulsing && now < start + r.durations[ch]
            then T.Slot(r.durations[ch] % C.WRAP, start + r.durations[ch]) else T.EMPTY
  {
    if ch in r.pulsing {
      var left := r.pulseWork[ch].Remaining(now);
      assert left <= PULSE_MAX_MS;
      assert left % C.WRAP == left && r.durations[ch] % C.WRAP == r.durations[ch];
    }
  }

  /** A pulse bit, its duration and its timer go together. */
  predicate OnePulse(s: Sys, ch: nat)
    requires WellFormed(s) && ch < CHANNELS
  {
    var r := s.core.relay;
    && (ch in r.pulsing <==> r.durations[ch] != 0)
    && r.pulseWork[ch].due == (if ch in r.pulsing then Some(End(s, ch)) else None)
  }

  lemma TimedPulse(cfg: Config, s: Sys, ch: nat)
    requires Timed(cfg, s) && ch < CHANNELS
    ensures WellFormed(s) && OnePulse(s, ch)
  {
  }

  lemma ReportedSlot(t: Sys, now: nat, ch: nat)
    requires Recent(t) && ReportedAll(t.core, now) && t.now == now && ch < CHANNELS && OnePulse(t, ch)
    ensures Slotted(t, ch)
    ensures ch !in t.core.relay.pulsing ==> t.core.board.panel.slots[ch] == T.EMPTY
  {
    ReportSlot(t.core.relay, t.starts[ch], now, ch);
  }

  lemma QuietSlot(s: Sys, m: Move, t: Sys, ch: nat)
    requires QuietlyMoved(s, m, t) && NoNews(s.core, t.core) && ch < CHANNELS && Slotted(s, ch) && WellFormed(t)
    ensures Slotted(t, ch)
  {
  }

  lemma HandledNow(cfg: Config, s: Sys, fire: Handler, body: Handler, t: Sys)
    requires Handled(cfg, s, fire, body, t)
    ensures t.now == s.now
  {
  }

  lemma LeaseNow(cfg: Config, s: Sys, writes: seq<Write>, scheduled: bool, warned: bool, t: Sys)
    requires Moved(cfg, s, LeaseExpiry(writes, scheduled, warned), t)
    ensures t.now == s.now
  {
    var u :| Handled(cfg, s, LeaseFire, LeaseBody(writes), u) &&
             if LeaseWantsReboot(cfg, s.core, writes) then TailHandled(cfg, u, scheduled, warned, t) else t == u;
    HandledNow(cfg, s, LeaseFire, LeaseBody(writes), u);
    if LeaseWantsReboot(cfg, s.core, writes) {
      TailNow(cfg, u, scheduled, warned, t);
    }
  }

  lemma TailNow(cfg: Config, u: Sys, scheduled: bool, warned: bool, t: Sys)
    requires TailHandled(cfg, u, scheduled, warned, t)
    ensures t.now == u.now
  {
  }

  lemma HostNow(cfg: Config, s: Sys, kind: ResetKind, writes: seq<Write>, back: bool, t: Sys)
    requires HostHandled(cfg, s, kind, writes, back, t)
    ensures t.now == s.now
  {
    HostStepNow(cfg, s, HostFire(kind));
    HostStepNow(cfg, NextHost(cfg, s, HostFire(kind)), HostOff(kind, writes));
  }

  lemma HostStepNow(cfg: Config, s: Sys, h: HostAction)
    requires Enabled(s, Host(h))
    ensures NextHost(cfg, s, h).now == s.now
  {
  }

  lemma SettledNow(cfg: Config, s: Sys, m: Move, t: Sys)
    requires WellFormed(s) && Moved(cfg, s, m, t) && MoveReports(cfg, s, m)
    ensures t.now == s.now
  {
    match m
    case Do(step) => ReportNow(cfg, s, step);
    case PulseExpiry(ch, w) => HandledNow(cfg, s, PulseFire(ch), PulseBody(ch, w), t);
    case LeaseExpiry(writes, scheduled, warned) => LeaseNow(cfg, s, writes, scheduled, warned, t);
    case HostExpiry(kind, writes, back) => HostNow(cfg, s, kind, writes, back, t);
  }

  lemma ReportNow(cfg: Config, s: Sys, step: Step)
    requires Enabled(s, step) && Reports(cfg, s, step)
    ensures Next(cfg, s, step).now == s.now
  {
  }

  lemma BehaviourPulse(cfg: Config, boot: nat, moves: seq<Move>, states: seq<Sys>, i: nat, ch: nat)
    requires Behaviour(cfg, boot, moves, states) && i < |states| && ch < CHANNELS
    ensures WellFormed(states[i]) && OnePulse(states[i], ch)
  {
    BehaviourTimed(cfg, boot, moves, states, i);
    TimedPulse(cfg, states[i], ch);
  }

  /** How a move changes the slot of a channel. */
  lemma SlotNext(cfg: Config, boot: nat, moves: seq<Move>, states: seq<Sys>, k: nat, ch: nat)
    requires Behaviour(cfg, boot, moves, states) && k < |moves| && ch < CHANNELS
    requires WellFormed(states[k]) && WellFormed(states[k + 1]) && Slotted(states[k], ch)
    ensures Slotted(states[k + 1], ch)
    ensures var s, t := states[k], states[k + 1];
            if MoveReports(cfg, s, moves[k]) then
              ch !in t.core.relay.pulsing ==> t.core.board.panel.slots[ch] == T.EMPTY
            else QuietlyMoved(s, moves[k], t) && NoNews(s.core, t.core)
  {
    var s, m, t := states[k], moves[k], states[k + 1];
    assert MovedAt(cfg, moves, states, k);
    BehaviourTold(cfg, boot, moves, states, k);
    ToldNext(cfg, boot, moves, states, k);
    if MoveReports(cfg, s, m) {
      BehaviourPulse(cfg, boot, moves, states, k + 1, ch);
      BehaviourRecent(cfg, boot, moves, states, k + 1);
      SettledNow(cfg, s, m, t);
      ReportedSlot(t, s.now, ch);
    } else {
      BehaviourTimed(cfg, boot, moves, states, k);
      QuietMove(cfg, s, m, t);
      QuietSlot(s, m, t, ch);
    }
  }

  lemma BehaviourShaped(cfg: Config, boot: nat, moves: seq<Move>, states: seq<Sys>, i: nat)
    requires Behaviour(cfg, boot, moves, states) && i < |states|
    ensures WellFormed(states[i])
  {
    BehaviourTimed(cfg, boot, moves, states, i);
  }

  /** In every timed behaviour a running pulse has its slot, and the indicator shows its channel as pulsing. */
  lemma {:induction false} RunningSlot(cfg: Config, boot: nat, moves: seq<Move>, states: seq<Sys>, i: nat, ch: nat)
    requires Behaviour(cfg, boot, moves, states) && i < |states| && ch < CHANNELS
    ensures WellFormed(states[i]) && Slotted(states[i], ch)
  {
    BehaviourShaped(cfg, boot, moves, states, i);
    if i > 0 {
      RunningSlot(cfg, boot, moves, states, i - 1, ch);
      SlotNext(cfg, boot, moves, states, i - 1, ch);
    }
  }

  /** Move k dropped a pulse of the channel whose slot was filled, and no report has been made since. */
  ghost predicate LeftBehind(cfg: Config, moves: seq<Move>, states: seq<Sys>, k: nat, i: nat, ch: nat)
    requires |states| == |moves| + 1 && i < |states| && ch < CHANNELS
  {
    && (forall j :: 0 <= j < |states| ==> WellFormed(states[j]))
    && k < i && ch in states[k].core.relay.pulsing && DropsUnreported(moves[k], ch)
    && states[k].core.board.newest.at < End(states[k], ch)
    && forall j :: k <= j < i ==> !MoveReports(cfg, states[j], moves[j])
  }

  lemma AllShaped(cfg: Config, boot: nat, moves: seq<Move>, states: seq<Sys>)
    requires Behaviour(cfg, boot, moves, states)
    ensures forall j :: 0 <= j < |states| ==> WellFormed(states[j])
  {
    forall j | 0 <= j < |states|
      ensures WellFormed(states[j])
    {
      BehaviourShaped(cfg, boot, moves, states, j);
    }
  }

  lemma BootSlots(cfg: Config, boot: nat, ch: nat)
    requires ch < CHANNELS
    ensures Boot(cfg, boot).core.board.panel.slots[ch] == T.EMPTY
  {
  }

  /** The slot a channel keeps while nothing is reported, from the drop on. */
  lemma LeftSlot(s: Sys, m: Move, t: Sys, ch: nat)
    requires QuietlyMoved(s, m, t) && NoNews(s.core, t.core) && ch < CHANNELS && Slotted(s, ch)
    ensures ch in s.core.relay.pulsing && ch !in t.core.relay.pulsing ==>
              && DropsUnreported(m, ch)
              && (t.core.board.panel.slots[ch] != T.EMPTY <==> s.core.board.newest.at < End(s, ch))
    ensures ch in t.core.relay.pulsing ==> ch in s.core.relay.pulsing && !DropsUnreported(m, ch)
  {
  }

  ghost predicate SomeLeft(cfg: Config, moves: seq<Move>, states: seq<Sys>, i: nat, ch: nat)
    requires |states| == |moves| + 1 && i < |states| && ch < CHANNELS
  {
    exists k: nat :: LeftBehind(cfg, moves, states, k, i, ch)
  }

  /** One move further, with what was left behind before it. */
  lemma {:induction false} LeftFurther(cfg: Config, moves: seq<Move>, states: seq<Sys>, n: nat, i: nat, ch: nat)
    requires |states| == |moves| + 1 && i == n + 1 < |states| && ch < CHANNELS
    requires forall j :: 0 <= j < |states| ==> WellFormed(states[j])
    ensures SomeLeft(cfg, moves, states, i, ch) <==>
            && !MoveReports(cfg, states[n], moves[n])
            && (LeftBehind(cfg, moves, states, n, i, ch) || SomeLeft(cfg, moves, states, n, ch))
  {
    if SomeLeft(cfg, moves, states, i, ch) {
      var k: nat :| LeftBehind(cfg, moves, states, k, i, ch);
      if k < n {
        assert LeftBehind(cfg, moves, states, k, n, ch);
      }
    }
    if !MoveReports(cfg, states[n], moves[n]) && SomeLeft(cfg, moves, states, n, ch) {
      var k: nat :| LeftBehind(cfg, moves, states, k, n, ch);
      assert LeftBehind(cfg, moves, states, k, i, ch);
    }
  }

  /** While a channel pulses, nothing of an earlier pulse is left behind. */
  lemma {:induction false} NothingBehind(cfg: Config, boot: nat, moves: seq<Move>, states: seq<Sys>, i: nat, ch: nat)
    requires Behaviour(cfg, boot, moves, states) && i < |states| && ch < CHANNELS
    requires forall j :: 0 <= j < |states| ==> WellFormed(states[j])
    requires ch in states[i].core.relay.pulsing
    ensures !SomeLeft(cfg, moves, states, i, ch)
  {
    if i > 0 {
      RunningSlot(cfg, boot, moves, states, i - 1, ch);
      SlotNext(cfg, boot, moves, states, i - 1, ch);
      LeftFurther(cfg, moves, states, i - 1, i, ch);
      if !MoveReports(cfg, states[i - 1], moves[i - 1]) {
        LeftSlot(states[i - 1], moves[i - 1], states[i], ch);
        NothingBehind(cfg, boot, moves, states, i - 1, ch);
      }
    }
  }

  /**
   * A channel that is not pulsing keeps a slot exactly if its pulse was dropped by a command, a pulse or lease expiry
   * or a host reset whose write failed, with no report since.
   */
  lemma {:induction false} StaleSlotIff(cfg: Config, boot: nat, moves: seq<Move>, states: seq<Sys>, i: nat, ch: nat)
    requires Behaviour(cfg, boot, moves, states) && i < |states| && ch < CHANNELS
    requires ch !in states[i].core.relay.pulsing
    ensures states[i].core.board.panel.slots[ch] != T.EMPTY <==>
            SomeLeft(cfg, moves, states, i, ch)
  {
    if i == 0 {
      BootSlots(cfg, boot, ch);
    } else {
      var s, m, t := states[i - 1], moves[i - 1], states[i];
      AllShaped(cfg, boot, moves, states);
      RunningSlot(cfg, boot, moves, states, i - 1, ch);
      SlotNext(cfg, boot, moves, states, i - 1, ch);
      LeftFurther(cfg, moves, states, i - 1, i, ch);
      if !MoveReports(cfg, s, m) {
        LeftSlot(s, m, t, ch);
        if ch in s.core.relay.pulsing {
          NothingBehind(cfg, boot, moves, states, i - 1, ch);
        } else {
          StaleSlotIff(cfg, boot, moves, states, i - 1, ch);
        }
      }
    }
  }

  // ----- The bars -----

  /**
   * A running pulse is shown as pulsing, and its bar at any later time is that of the time its timer still has; the
   * bar never grows.
   */
  lemma BarMeetsDeadline(cfg: Config, boot: nat, moves: seq<Move>, states: seq<Sys>, i: nat, ch: nat, now: int)
    requires Behaviour(cfg, boot, moves, states) && i < |states| && ch < CHANNELS && now >= states[i].now
    requires ch in states[i].core.relay.pulsing
    ensures var s := states[i];
            && WellFormed(s) && ch in s.core.board.panel.pulsing
            && var slot := s.core.board.panel.slots[ch];
               && C.NeverGrows(slot.duration, slot.end, now)
               && C.FirmwareRadius(slot.duration, slot.end, now) ==
                  C.PreviewRadius(s.core.relay.durations[ch], End(s, ch), now)
  {
    RunningSlot(cfg, boot, moves, states, i, ch);
    BehaviourTold(cfg, boot, moves, states, i);
    BehaviourRecent(cfg, boot, moves, states, i);
    SlotBar(states[i], ch, now);
  }

  lemma SlotBar(s: Sys, ch: nat, now: int)
    requires Recent(s) && ch < CHANNELS && Slotted(s, ch) && ch in s.core.relay.pulsing && now >= s.now
    ensures var slot := s.core.board.panel.slots[ch];
            && C.NeverGrows(slot.duration, slot.end, now)
            && C.FirmwareRadius(slot.duration, slot.end, now) ==
               C.PreviewRadius(s.core.relay.durations[ch], End(s, ch), now)
  {
    var slot := s.core.board.panel.slots[ch];
    C.RadiiAgreeIff(slot.duration, slot.end, now);
    if slot != T.EMPTY && now < slot.end {
      C.NeverGrowsIff(slot.duration, slot.end, now);
    }
  }

  // ----- A bar without a pulse -----

  /** A behaviour of two plain steps. */
  lemma TwoMoves(cfg: Config, boot: nat, a: Step, b: Step, s: Sys) returns (moves: seq<Move>, states: seq<Sys>)
    requires Plain(a) && Enabled(Boot(cfg, boot), a) && s == Settled(Next(cfg, Boot(cfg, boot), a))
    requires Plain(b) && Enabled(s, b)
    ensures Behaviour(cfg, boot, moves, states) && moves == [Do(a), Do(b)] && |states| == 3 && states[1] == s
  {
    moves, states := [Do(a), Do(b)], [Boot(cfg, boot), s, Settled(Next(cfg, s, b))];
    assert MovedAt(cfg, moves, states, 0);
    assert MovedAt(cfg, moves, states, 1);
  }

  /** The state after a first move that reports is told as of the boot. */
  lemma FirstReport(cfg: Config, boot: nat, moves: seq<Move>, states: seq<Sys>, a: Step)
    requires Behaviour(cfg, boot, moves, states) && |states| == 3 && moves[0] == Do(a)
    requires Enabled(states[0], a) && Reports(cfg, states[0], a)
    ensures states[1].core.board.newest.at == boot
  {
    BehaviourTold(cfg, boot, moves, states, 0);
    ToldNext(cfg, boot, moves, states, 0);
    ReportMade(cfg, states[0], a, states[1]);
  }

  lemma ReportMade(cfg: Config, s: Sys, a: Step, t: Sys)
    requires Enabled(s, a) && Reports(cfg, s, a)
    requires BoardMoved(s.core, t.core, s.now, MoveReports(cfg, s, Do(a)))
    ensures t.core.board.newest.at == s.now
  {
  }

  /** A pulse of a second under way. */
  lemma PulseUnderWay(start: Command) returns (s: Sys)
    requires start == PulseStep(0, 1000, Written, true, Written)
    ensures Enabled(Boot(RACE_CONFIG, 0), Cmd(start))
    ensures s == Settled(NextCommand(RACE_CONFIG, Boot(RACE_CONFIG, 0), start))
    ensures WellFormed(s) && s.mode == Running && 0 in s.core.relay.pulsing && End(s, 0) == 1000
    ensures s.core.relay.durations[0] == 1000
    ensures Reports(RACE_CONFIG, Boot(RACE_CONFIG, 0), Cmd(start))
  {
    var boot := Boot(RACE_CONFIG, 0);
    BootTimed(RACE_CONFIG, 0);
    PulseEffect(RACE_CONFIG, boot.core, 0, 0, 1000, Written, true, Written);
    StepTells(RACE_CONFIG, boot, Cmd(start));
    SettleKeeps(NextCommand(RACE_CONFIG, boot, start).core, 0);
    s := Settled(NextCommand(RACE_CONFIG, boot, start));
  }

  /** A set whose write fails drops the pulse, and its bar is still there, with the channel shown as pulsing. */
  lemma BarWithoutPulse() returns (moves: seq<Move>, states: seq<Sys>)
    ensures Behaviour(RACE_CONFIG, 0, moves, states) && |states| == 3 && WellFormed(states[2])
    ensures 0 !in states[2].core.relay.pulsing && 0 in states[2].core.board.panel.pulsing
    ensures states[2].core.board.panel.slots[0] == T.Slot(1000, 1000)
  {
    var start := PulseStep(0, 1000, Written, true, Written);
    var s := PulseUnderWay(start);
    moves, states := BarAfter(start, s, SetStep(0, false, WriteFailed(true)));
  }

  lemma BarAfter(start: Command, s: Sys, off: Command) returns (moves: seq<Move>, states: seq<Sys>)
    requires Enabled(Boot(RACE_CONFIG, 0), Cmd(start)) && Reports(RACE_CONFIG, Boot(RACE_CONFIG, 0), Cmd(start))
    requires s == Settled(NextCommand(RACE_CONFIG, Boot(RACE_CONFIG, 0), start))
    requires WellFormed(s) && s.mode == Running && 0 in s.core.relay.pulsing && End(s, 0) == 1000
    requires s.core.relay.durations[0] == 1000 && off == SetStep(0, false, WriteFailed(true))
    ensures Behaviour(RACE_CONFIG, 0, moves, states) && |states| == 3 && WellFormed(states[2])
    ensures 0 !in states[2].core.relay.pulsing && 0 in states[2].core.board.panel.pulsing
    ensures states[2].core.board.panel.slots[0] == T.Slot(1000, 1000)
  {
    moves, states := TwoMoves(RACE_CONFIG, 0, Cmd(start), Cmd(off), s);
    FirstReport(RACE_CONFIG, 0, moves, states, Cmd(start));
    RunningSlot(RACE_CONFIG, 0, moves, states, 1, 0);
    BarKept(moves, states, off);
  }

  lemma BarKept(moves: seq<Move>, states: seq<Sys>, off: Command)
    requires Behaviour(RACE_CONFIG, 0, moves, states) && |states| == 3 && WellFormed(states[1])
    requires off == SetStep(0, false, WriteFailed(true)) && moves[1] == Do(Cmd(off))
    requires 0 in states[1].core.relay.pulsing && End(states[1], 0) == 1000 && Slotted(states[1], 0)
    requires states[1].core.board.newest.at == 0 && Enabled(states[1], Cmd(off))
    ensures WellFormed(states[2]) && 0 !in states[2].core.relay.pulsing && 0 in states[2].core.board.panel.pulsing
    ensures states[2].core.board.panel.slots[0] ==
            T.Slot(states[1].core.relay.durations[0] % C.WRAP, 1000)
  {
    BehaviourShaped(RACE_CONFIG, 0, moves, states, 2);
    SlotNext(RACE_CONFIG, 0, moves, states, 1, 0);
    LeftSlot(states[1], moves[1], states[2], 0);
    BehaviourTold(RACE_CONFIG, 0, moves, states, 2);
  }
}
