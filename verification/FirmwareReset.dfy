/**
 * The host's reset under every interleaving: it comes after an off-all, but not together with it, so a command in
 * between can leave a pin high; exactly when one does.
 */
module FirmwareReset {
  import opened Common
  import opened RelaySpec
  import opened Firmware
  import opened FirmwareSafety
  import opened FirmwareReboot

  predicate PinsLow(s: Sys) {
    forall ch :: 0 <= ch < |s.core.relay.pins| ==> !s.core.relay.pins[ch]
  }

  // ----- Which steps write a pin -----

  /** The level a write that should set `on` leaves its pin at. */
  function Level(w: Write, on: bool): bool {
    match w case Written => on case WriteFailed(level) => level
  }

  /** Writing a mask channel by channel stops at the first failure. */
  function MaskLevel(mask: set<nat>, writes: seq<Write>, ch: nat): Option<bool>
    requires |writes| == CHANNELS && ch < CHANNELS
  {
    if exists i :: 0 <= i < ch && writes[i].WriteFailed? then None else Some(Level(writes[ch], ch in mask))
  }

  function CommandDrives(r: Relay, cmd: Command, ch: nat): Option<bool>
    requires ch < CHANNELS && (cmd.SetAllStep? ==> |cmd.writes| == CHANNELS)
  {
    match cmd
    case SetStep(c, on, w) => if c == ch then Some(Level(w, on)) else None
    case SetAllStep(mask, writes) => if mask <= {0, 1, 2, 3, 4, 5} then MaskLevel(mask, writes, ch) else None
    case PulseStep(c, duration, w, scheduled, off) =>
      if c != ch || duration < 10 || duration > 60000 || ch in r.pulsing then None
      else Some(if w.WriteFailed? || scheduled then Level(w, true) else Level(off, false))
    case HeartbeatStep => None
  }

  /** The level at which a step leaves the pin of a channel, if it writes it. */
  function Drives(s: Sys, step: Step, ch: nat): Option<bool>
    requires Enabled(s, step) && ch < CHANNELS
  {
    var r := s.core.relay;
    match step
    case Cmd(cmd) => CommandDrives(r, cmd, ch)
    case Timer(t) =>
      (match t
       case PulseBody(c, w) => if c == ch && ch in r.pulsing then Some(Level(w, false)) else None
       case LeaseBody(writes) => if r.armed then MaskLevel({}, writes, ch) else None
       case _ => None)
    case Host(h) => if h.HostOff? then MaskLevel({}, h.writes, ch) else None
    case _ => None
  }

  function Now(before: bool, driven: Option<bool>): bool {
    match driven case None => before case Some(level) => level
  }

  lemma SetDriven(cfg: Config, c: Core, now: nat, n: nat, on: bool, w: Write, ch: nat)
    requires Shaped(c.relay) && ch < CHANNELS
    ensures Shaped(Set(cfg, c, now, n, on, w).0.relay)
    ensures Set(cfg, c, now, n, on, w).0.relay.pins[ch] ==
            Now(c.relay.pins[ch], if n == ch then Some(Level(w, on)) else None)
  {
  }

  lemma AppliedDriven(c: Core, mask: set<nat>, writes: seq<Write>, ch: nat)
    requires Shaped(c.relay) && mask <= ALL && |writes| == CHANNELS && ch < CHANNELS
    ensures var d := ApplyState(c, mask, writes);
            && Shaped(d.relay) && d.relay.pins[ch] == Now(c.relay.pins[ch], MaskLevel(mask, writes, ch))
  {
  }

  lemma SetAllDriven(cfg: Config, c: Core, now: nat, mask: set<nat>, writes: seq<Write>, ch: nat)
    requires Shaped(c.relay) && |writes| == CHANNELS && ch < CHANNELS
    ensures var d := SetAll(cfg, c, now, mask, writes).0;
            && Shaped(d.relay)
            && d.relay.pins[ch] == Now(c.relay.pins[ch], if mask <= ALL then MaskLevel(mask, writes, ch) else None)
  {
    if mask <= ALL {
      AppliedDriven(c.(relay := CancelPulses(c.relay, ALL)), mask, writes, ch);
    }
  }

  lemma ChannelDriven(c: Core, n: nat, on: bool, w: Write, ch: nat)
    requires Shaped(c.relay) && n < CHANNELS && ch < CHANNELS
    ensures var d := SetChannel(c, n, on, w);
            && Shaped(d.relay) && d.relay.durations == c.relay.durations
            && d.relay.pins[ch] == Now(c.relay.pins[ch], if n == ch then Some(Level(w, on)) else None)
  {
  }

  lemma PulseDriven(cfg: Config, c: Core, now: nat, n: nat, duration: nat, w: Write, scheduled: bool, off: Write,
                    ch: nat)
    requires Shaped(c.relay) && ch < CHANNELS
    ensures var d := Pulse(cfg, c, now, n, duration, w, scheduled, off).0;
            && Shaped(d.relay)
            && d.relay.pins[ch] ==
               Now(c.relay.pins[ch], CommandDrives(c.relay, PulseStep(n, duration, w, scheduled, off), ch))
  {
    if n < CHANNELS && PULSE_MIN_MS <= duration <= PULSE_MAX_MS && n !in c.relay.pulsing {
      ChannelDriven(c, n, true, w, ch);
      if w.Written? && !scheduled {
        var written := SetChannel(c, n, true, w);
        var undone := written.(relay := written.relay.(durations := written.relay.durations[n := 0]));
        ChannelDriven(undone, n, false, off, ch);
      }
    }
  }

  lemma CommandDriven(cfg: Config, s: Sys, cmd: Command, ch: nat)
    requires Enabled(s, Cmd(cmd)) && ch < CHANNELS
    ensures var t := NextCommand(cfg, s, cmd);
            && Shaped(t.core.relay)
            && t.core.relay.pins[ch] == Now(s.core.relay.pins[ch], CommandDrives(s.core.relay, cmd, ch))
  {
    match cmd
    case SetStep(n, on, w) => SetDriven(cfg, s.core, s.now, n, on, w, ch);
    case SetAllStep(mask, writes) => SetAllDriven(cfg, s.core, s.now, mask, writes, ch);
    case PulseStep(n, duration, w, scheduled, off) =>
      PulseDriven(cfg, s.core, s.now, n, duration, w, scheduled, off, ch);
    case HeartbeatStep =>
  }

  lemma PulseExpiredDriven(cfg: Config, c: Core, now: nat, n: nat, w: Write, ch: nat)
    requires Shaped(c.relay) && n < CHANNELS && ch < CHANNELS
    ensures var d := PulseExpired(cfg, c, now, n, w);
            && Shaped(d.relay)
            && d.relay.pins[ch] ==
               Now(c.relay.pins[ch], if n == ch && ch in c.relay.pulsing then Some(Level(w, false)) else None)
  {
  }

  lemma LeaseDriven(cfg: Config, c: Core, now: nat, writes: seq<Write>, ch: nat)
    requires Shaped(c.relay) && |writes| == CHANNELS && ch < CHANNELS
    ensures var d := LeaseExpired(cfg, c, now, writes);
            && Shaped(d.relay)
            && d.relay.pins[ch] ==
               Now(c.relay.pins[ch], if c.relay.armed then MaskLevel({}, writes, ch) else None)
  {
    if c.relay.armed {
      AppliedDriven(c.(relay := CancelPulses(c.relay, ALL)), {}, writes, ch);
    }
  }

  lemma PulseBodyDriven(cfg: Config, s: Sys, n: nat, w: Write, ch: nat)
    requires Enabled(s, Timer(PulseBody(n, w))) && ch < CHANNELS
    ensures var u := NextTimer(cfg, s, PulseBody(n, w));
            && Shaped(u.core.relay)
            && u.core.relay.pins[ch] == Now(s.core.relay.pins[ch], Drives(s, Timer(PulseBody(n, w)), ch))
  {
    var r := s.core.relay;
    var finished := r.(pulseWork := r.pulseWork[n := r.pulseWork[n].Finish()]);
    PulseExpiredDriven(cfg, s.core.(relay := finished), s.now, n, w, ch);
  }

  lemma LeaseBodyDriven(cfg: Config, s: Sys, writes: seq<Write>, ch: nat)
    requires Enabled(s, Timer(LeaseBody(writes))) && ch < CHANNELS
    ensures var u := NextTimer(cfg, s, LeaseBody(writes));
            && Shaped(u.core.relay)
            && u.core.relay.pins[ch] == Now(s.core.relay.pins[ch], Drives(s, Timer(LeaseBody(writes)), ch))
  {
    var r := s.core.relay;
    LeaseDriven(cfg, s.core.(relay := r.(lease := r.lease.Finish())), s.now, writes, ch);
  }

  lemma TimerDriven(cfg: Config, s: Sys, t: Handler, ch: nat)
    requires Enabled(s, Timer(t)) && ch < CHANNELS
    ensures var u := NextTimer(cfg, s, t);
            Shaped(u.core.relay) && u.core.relay.pins[ch] == Now(s.core.relay.pins[ch], Drives(s, Timer(t), ch))
  {
    match t
    case PulseBody(n, w) => PulseBodyDriven(cfg, s, n, w, ch);
    case LeaseBody(writes) => LeaseBodyDriven(cfg, s, writes, ch);
    case _ =>
  }

  lemma HostDriven(cfg: Config, s: Sys, h: HostAction, ch: nat)
    requires Enabled(s, Host(h)) && ch < CHANNELS
    ensures var t := NextHost(cfg, s, h);
            Shaped(t.core.relay) && t.core.relay.pins[ch] == Now(s.core.relay.pins[ch], Drives(s, Host(h), ch))
  {
    if h.HostOff? {
      SetAllDriven(cfg, s.core, s.now, {}, h.writes, ch);
    }
  }

  /** Every step leaves every pin at the level it drives it to, or as it was. */
  lemma StepDriven(cfg: Config, s: Sys, step: Step, ch: nat)
    requires Enabled(s, step) && ch < CHANNELS
    ensures var t := Next(cfg, s, step);
            Shaped(t.core.relay) && t.core.relay.pins[ch] == Now(s.core.relay.pins[ch], Drives(s, step, ch))
  {
    match step
    case Cmd(cmd) => CommandDriven(cfg, s, cmd, ch);
    case Timer(t) => TimerDriven(cfg, s, t, ch);
    case Host(h) => HostDriven(cfg, s, h, ch);
    case Dog(_) =>
    case Publish(i) => JobEffect(s.core, i, s.now);
    case _ =>
  }

  // ----- What a run leaves high -----

  /** No step of the run from s writes the pin. */
  predicate Untouched(cfg: Config, s: Sys, steps: seq<Step>, ch: nat)
    requires ch < CHANNELS
    decreases |steps|
  {
    steps == [] || (Enabled(s, steps[0]) && Drives(s, steps[0], ch) == None
                    && Untouched(cfg, Next(cfg, s, steps[0]), steps[1..], ch))
  }

  /** Some step of the run from s leaves the pin high, and none after it writes it. */
  predicate LeftHigh(cfg: Config, s: Sys, steps: seq<Step>, ch: nat)
    requires ch < CHANNELS
    decreases |steps|
  {
    steps != [] && Enabled(s, steps[0]) &&
    var t := Next(cfg, s, steps[0]);
    LeftHigh(cfg, t, steps[1..], ch) ||
    (Drives(s, steps[0], ch) == Some(true) && Untouched(cfg, t, steps[1..], ch))
  }

  lemma {:induction false} RunDriven(cfg: Config, s: Sys, steps: seq<Step>, t: Sys, ch: nat)
    requires Run(cfg, s, steps, t) && WellFormed(s) && ch < CHANNELS
    ensures Shaped(t.core.relay)
    ensures t.core.relay.pins[ch] <==>
            LeftHigh(cfg, s, steps, ch) || (s.core.relay.pins[ch] && Untouched(cfg, s, steps, ch))
    ensures !(LeftHigh(cfg, s, steps, ch) && Untouched(cfg, s, steps, ch))
    decreases |steps|
  {
    if steps != [] {
      StepDriven(cfg, s, steps[0], ch);
      StaysWellFormed(cfg, s, steps[0]);
      RunDriven(cfg, Next(cfg, s, steps[0]), steps[1..], t, ch);
    }
  }

  lemma StaysWellFormed(cfg: Config, s: Sys, step: Step)
    requires Enabled(s, step)
    ensures WellFormed(Next(cfg, s, step))
  {
    StepDriven(cfg, s, step, 0);
  }

  /** Only a command that switches the channel on, or a failed write, leaves its pin high. */
  predicate Raises(s: Sys, step: Step, ch: nat)
    requires Enabled(s, step) && ch < CHANNELS
  {
    match step
    case Cmd(cmd) =>
      (match cmd
       case SetStep(c, on, w) => c == ch && (w == WriteFailed(true) || (on && w == Written))
       case SetAllStep(mask, writes) =>
         mask <= ALL && ch <= Succeeding(writes) &&
         (writes[ch] == WriteFailed(true) || (ch in mask && writes[ch] == Written))
       case PulseStep(c, duration, w, scheduled, off) =>
         c == ch && PULSE_MIN_MS <= duration <= PULSE_MAX_MS && ch !in s.core.relay.pulsing &&
         (w == WriteFailed(true) || (w == Written && (scheduled || off == WriteFailed(true))))
       case HeartbeatStep => false)
    case Timer(t) =>
      (match t
       case PulseBody(c, w) => c == ch && ch in s.core.relay.pulsing && w == WriteFailed(true)
       case LeaseBody(writes) => s.core.relay.armed && ch <= Succeeding(writes) && writes[ch] == WriteFailed(true)
       case _ => false)
    case Host(h) => h.HostOff? && ch <= Succeeding(h.writes) && h.writes[ch] == WriteFailed(true)
    case _ => false
  }

  lemma RaisesIff(s: Sys, step: Step, ch: nat)
    requires Enabled(s, step) && ch < CHANNELS
    ensures Drives(s, step, ch) == Some(true) <==> Raises(s, step, ch)
  {
  }

  // ----- The reset -----

  predicate AllOff(kind: ResetKind, step: Step) {
    step.Host? && step.host.HostOff? && step.host.kind == kind && Succeeding(step.host.writes) == CHANNELS
  }

  lemma AfterAllOff(cfg: Config, s: Sys, kind: ResetKind, step: Step)
    requires Enabled(s, step) && AllOff(kind, step)
    ensures WellFormed(Next(cfg, s, step)) && PinsLow(Next(cfg, s, step))
  {
    StaysWellFormed(cfg, s, step);
    forall ch | 0 <= ch < CHANNELS
      ensures !Next(cfg, s, step).core.relay.pins[ch]
    {
      StepDriven(cfg, s, step, ch);
    }
  }

  /** Between a successful off-all and any later moment a pin comes up exactly if some step left it high for good. */
  lemma HighSinceOffIff(cfg: Config, s: Sys, kind: ResetKind, off: Step, more: seq<Step>, t: Sys, ch: nat)
    requires Enabled(s, off) && AllOff(kind, off) && ch < CHANNELS
    requires Run(cfg, Next(cfg, s, off), more, t)
    ensures Shaped(t.core.relay)
    ensures t.core.relay.pins[ch] <==> LeftHigh(cfg, Next(cfg, s, off), more, ch)
  {
    AfterAllOff(cfg, s, kind, off);
    RunDriven(cfg, Next(cfg, s, off), more, t, ch);
  }

  /** A handler that is about to reset has switched everything off before. */
  lemma {:induction false} OffBefore(cfg: Config, s: Sys, steps: seq<Step>, t: Sys, kind: ResetKind)
    returns (before: seq<Step>, u: Sys, off: Step, more: seq<Step>)
    requires Run(cfg, s, steps, t) && ResetTails(s, kind) == 0 && ResetTails(t, kind) > 0 && kind != Autonomous
    ensures steps == before + [off] + more && Run(cfg, s, before, u)
    ensures Enabled(u, off) && AllOff(kind, off) && Run(cfg, Next(cfg, u, off), more, t)
    decreases |steps|
  {
    HeadAndRest(steps);
    if AllOff(kind, steps[0]) {
      before, u, off, more := [], s, steps[0], steps[1..];
      Neutral([off]);
    } else {
      NoNewTail(cfg, s, steps[0], kind);
      before, u, off, more := OffBefore(cfg, Next(cfg, s, steps[0]), steps[1..], t, kind);
      StepThenRun(cfg, s, steps[0], Next(cfg, s, steps[0]), before, u);
      InFront(steps[0], before, off, more);
      before := [steps[0]] + before;
    }
  }

  lemma InFront(first: Step, before: seq<Step>, off: Step, more: seq<Step>)
    ensures [first] + (before + [off] + more) == [first] + before + [off] + more
  {
  }

  lemma NoNewTail(cfg: Config, s: Sys, step: Step, kind: ResetKind)
    requires Enabled(s, step) && ResetTails(s, kind) == 0 && !AllOff(kind, step) && kind != Autonomous
    ensures ResetTails(Next(cfg, s, step), kind) == 0
  {
    match step
    case Host(h) => HostTail(cfg, s, h, kind);
    case _ =>
      assert Next(cfg, s, step).hostTails == s.hostTails && Next(cfg, s, step).bootselTails == s.bootselTails;
  }

  lemma OffAnswer(cfg: Config, c: Core, now: nat, writes: seq<Write>)
    requires Shaped(c.relay) && |writes| == CHANNELS
    ensures SetAll(cfg, c, now, {}, writes).1 == if Succeeding(writes) == CHANNELS then Success else IoFailure
  {
  }

  lemma HostTail(cfg: Config, s: Sys, h: HostAction, kind: ResetKind)
    requires Enabled(s, Host(h)) && ResetTails(s, kind) == 0 && !AllOff(kind, Host(h)) && kind != Autonomous
    ensures ResetTails(NextHost(cfg, s, h), kind) == 0
  {
    if h.HostOff? {
      OffAnswer(cfg, s.core, s.now, h.writes);
      OffTail(cfg, s, h.kind, h.writes, SetAll(cfg, s.core, s.now, {}, h.writes), kind);
    }
  }

  lemma OffTail(cfg: Config, s: Sys, kind: ResetKind, writes: seq<Write>, result: (Core, Ret), other: ResetKind)
    requires Enabled(s, Host(HostOff(kind, writes))) && result == SetAll(cfg, s.core, s.now, {}, writes)
    requires ResetTails(s, other) == 0 && !(kind == other && result.1 == Success) && other != Autonomous
    ensures ResetTails(NextHost(cfg, s, HostOff(kind, writes)), other) == 0
  {
  }

  /**
   * Whatever the interleaving, a host reboot or BOOTSEL reset comes after a successful off-all, and finds a pin high
   * exactly if since then a set, set-all or pulse command drove it high, or a failed write left it so, and nothing
   * has written it afterwards.
   */
  lemma HighAtResetIff(cfg: Config, now: nat, steps: seq<Step>, s: Sys, kind: ResetKind)
    returns (before: seq<Step>, u: Sys, off: Step, more: seq<Step>)
    requires Run(cfg, Boot(cfg, now), steps, s) && Enabled(s, Host(HostReset(kind, false)))
    ensures steps == before + [off] + more && Run(cfg, Boot(cfg, now), before, u)
    ensures Enabled(u, off) && AllOff(kind, off) && Run(cfg, Next(cfg, u, off), more, s)
    ensures var t := NextHost(cfg, s, HostReset(kind, false));
            && t.mode == Reset(kind) && Shaped(t.core.relay)
            && forall ch :: 0 <= ch < CHANNELS ==>
                 (t.core.relay.pins[ch] <==> LeftHigh(cfg, Next(cfg, u, off), more, ch))
  {
    before, u, off, more := OffBefore(cfg, Boot(cfg, now), steps, s, kind);
    var t := NextHost(cfg, s, HostReset(kind, false));
    HighSinceOffIff(cfg, u, kind, off, more, s, 0);
    forall ch | 0 <= ch < CHANNELS
      ensures t.core.relay.pins[ch] <==> LeftHigh(cfg, Next(cfg, u, off), more, ch)
    {
      HighSinceOffIff(cfg, u, kind, off, more, s, ch);
    }
  }

  // ----- A run in which it does -----

  lemma UpToHostFire() returns (steps: seq<Step>, s: Sys)
    ensures Run(RACE_CONFIG, Boot(RACE_CONFIG, 0), steps, s) && WellFormed(s)
    ensures s.mode == Running && s.host.running == 1 && s.hostTails == 0
  {
    var boot := Boot(RACE_CONFIG, 0);
    BootIsSafe(RACE_CONFIG, 0);
    var ask, wait, fire := Host(HostRequest(HostReboot, true)), Tick(1000), Host(HostFire(HostReboot));
    assert Run(RACE_CONFIG, boot, [], boot);
    RunThen(RACE_CONFIG, boot, [], boot, ask);
    var s1 := Next(RACE_CONFIG, boot, ask);
    RunThen(RACE_CONFIG, boot, [] + [ask], s1, wait);
    var s2 := Next(RACE_CONFIG, s1, wait);
    RunThen(RACE_CONFIG, boot, [] + [ask] + [wait], s2, fire);
    steps := [] + [ask] + [wait] + [fire];
    s := Next(RACE_CONFIG, s2, fire);
  }

  /** A host reboot between its off-all and its reset. */
  lemma UpToOff() returns (steps: seq<Step>, s: Sys)
    ensures Run(RACE_CONFIG, Boot(RACE_CONFIG, 0), steps, s) && Safe(RACE_CONFIG, s)
    ensures s.mode == Running && s.hostTails == 1
  {
    var s1;
    steps, s1 := UpToHostFire();
    AllWritten();
    var off := Host(HostOff(HostReboot, ALL_WRITTEN));
    RunThen(RACE_CONFIG, Boot(RACE_CONFIG, 0), steps, s1, off);
    steps := steps + [off];
    s := Next(RACE_CONFIG, s1, off);
    OffAnswer(RACE_CONFIG, s1.core, s1.now, ALL_WRITTEN);
    BootIsSafe(RACE_CONFIG, 0);
    RunKeeps(RACE_CONFIG, Boot(RACE_CONFIG, 0), steps, s);
  }

  /** A relay set between the off-all and the reset is on when the board resets. */
  lemma ResetWithPinHigh() returns (steps: seq<Step>, t: Sys)
    ensures Run(RACE_CONFIG, Boot(RACE_CONFIG, 0), steps, t) && WellFormed(t)
    ensures t.mode == Reset(HostReboot) && t.core.relay.pins[0]
  {
    var s;
    steps, s := UpToOff();
    var on, reset := Cmd(SetStep(0, true, Written)), Host(HostReset(HostReboot, false));
    RunThen(RACE_CONFIG, Boot(RACE_CONFIG, 0), steps, s, on);
    var s1 := NextCommand(RACE_CONFIG, s, on.cmd);
    StepDriven(RACE_CONFIG, s, on, 0);
    RunThen(RACE_CONFIG, Boot(RACE_CONFIG, 0), steps + [on], s1, reset);
    steps := steps + [on] + [reset];
    t := NextHost(RACE_CONFIG, s1, HostReset(HostReboot, false));
  }
}
