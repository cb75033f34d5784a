/**
 * The autonomous reboot under every interleaving: a renewed lease stops it exactly when neither the reboot handler nor
 * a lease handler that still has to submit the reboot was in flight.
 */
module FirmwareReboot {
  import opened Common
  import opened RelaySpec
  import opened Firmware
  import opened FirmwareOutcomes
  import opened FirmwareSafety

  // ----- When a renewed lease stops the reboot -----

  predicate NoLeaseBody(steps: seq<Step>) {
    forall i :: 0 <= i < |steps| ==> !(steps[i].Timer? && steps[i].handler.LeaseBody?)
  }

  /** Nothing pending and nothing in flight can lead to an autonomous reboot. */
  predicate RebootStopped(s: Sys) {
    s.leaseTails == 0 && !s.core.relay.reboot.Live() && s.mode != Reset(Autonomous)
  }

  lemma PulseReboot(cfg: Config, c: Core, now: nat, ch: nat, duration: nat, w: Write, scheduled: bool, off: Write)
    requires Protected(cfg, c)
    ensures var (d, ret) := Pulse(cfg, c, now, ch, duration, w, scheduled, off);
            d.relay.reboot == if ret == Success then c.relay.reboot.Cancel() else c.relay.reboot
  {
    if ch < CHANNELS && PULSE_MIN_MS <= duration <= PULSE_MAX_MS && ch !in c.relay.pulsing {
      PulseEffect(cfg, c, now, ch, duration, w, scheduled, off);
    }
  }

  lemma CommandReboot(cfg: Config, s: Sys, cmd: Command)
    requires Enabled(s, Cmd(cmd)) && Safe(cfg, s)
    ensures var t := NextCommand(cfg, s, cmd);
            && t.leaseTails == s.leaseTails && t.mode == s.mode
            && (Succeeds(s.core.relay, cmd) ==> t.core.relay.reboot == s.core.relay.reboot.Cancel())
            && (!Succeeds(s.core.relay, cmd) ==> t.core.relay.reboot == s.core.relay.reboot)
  {
    match cmd
    case SetStep(ch, on, w) =>
      if ch < CHANNELS {
        SetEffect(cfg, s.core, s.now, ch, on, w);
      }
    case SetAllStep(mask, writes) =>
      if mask <= ALL {
        SetAllEffect(cfg, s.core, s.now, mask, writes);
      }
    case PulseStep(ch, duration, w, scheduled, off) =>
      PulseReboot(cfg, s.core, s.now, ch, duration, w, scheduled, off);
    case HeartbeatStep => RenewKeeps(cfg, s.core, s.now);
  }

  /** A host reset touches the autonomous reboot only through its off-all. */
  lemma HostReboot(cfg: Config, s: Sys, h: HostAction)
    requires Enabled(s, Host(h)) && Safe(cfg, s)
    ensures var t := NextHost(cfg, s, h);
            && t.leaseTails == s.leaseTails && t.mode != Reset(Autonomous)
            && (t.core.relay.reboot == s.core.relay.reboot || t.core.relay.reboot == s.core.relay.reboot.Cancel())
  {
    if h.HostOff? {
      OffAllReboot(cfg, s.core, s.now, h.writes);
    }
  }

  lemma OffAllReboot(cfg: Config, c: Core, now: nat, writes: seq<Write>)
    requires Protected(cfg, c) && |writes| == CHANNELS
    ensures var d := SetAll(cfg, c, now, {}, writes).0;
            d.relay.reboot == c.relay.reboot || d.relay.reboot == c.relay.reboot.Cancel()
  {
    SetAllEffect(cfg, c, now, {}, writes);
  }

  lemma TimerReboot(cfg: Config, s: Sys, t: Handler)
    requires Enabled(s, Timer(t)) && Safe(cfg, s) && RebootStopped(s) && !t.LeaseBody?
    ensures RebootStopped(NextTimer(cfg, s, t))
  {
    if t.PulseBody? {
      var r := s.core.relay;
      var c := s.core.(relay := r.(pulseWork := r.pulseWork[t.ch := r.pulseWork[t.ch].Finish()]));
      if t.ch in r.pulsing {
        PulseExpiredEffect(cfg, c, s.now, t.ch, t.w);
      }
    }
  }

  lemma StoppedStep(cfg: Config, s: Sys, step: Step)
    requires Enabled(s, step) && Safe(cfg, s) && RebootStopped(s)
    requires !(step.Timer? && step.handler.LeaseBody?)
    ensures RebootStopped(Next(cfg, s, step))
  {
    match step
    case Cmd(cmd) => CommandReboot(cfg, s, cmd);
    case Timer(t) => TimerReboot(cfg, s, t);
    case Host(h) => HostReboot(cfg, s, h);
    case Publish(i) => JobEffect(s.core, i, s.now);
    case Dog(d) => DogKeeps(cfg, s, d);
    case _ =>
  }

  lemma {:induction false} StoppedRun(cfg: Config, s: Sys, steps: seq<Step>, t: Sys)
    requires Run(cfg, s, steps, t) && Safe(cfg, s) && RebootStopped(s) && NoLeaseBody(steps)
    ensures RebootStopped(t)
    decreases |steps|
  {
    if steps != [] {
      StoppedStep(cfg, s, steps[0]);
      StepKeeps(cfg, s, steps[0]);
      assert NoLeaseBody(steps[1..]);
      StoppedRun(cfg, Next(cfg, s, steps[0]), steps[1..], t);
    }
  }

  /** No run from s without a new lease expiry has an autonomous reboot pending, in flight or done. */
  ghost predicate NeverReboots(cfg: Config, s: Sys) {
    forall steps, t :: Run(cfg, s, steps, t) && NoLeaseBody(steps) ==>
      t.core.relay.reboot.due == None && t.core.relay.reboot.running == 0 && t.mode != Reset(Autonomous)
  }

  /**
   * The exact condition under which a heartbeat or a successful command stops an autonomous reboot until the lease
   * expires again: no lease handler stood between dropping the lock and submitting the reboot, and the reboot
   * handler itself was not in flight.
   */
  lemma RenewalStopsRebootIff(cfg: Config, now: nat, steps: seq<Step>, s: Sys, cmd: Command)
    requires Run(cfg, Boot(cfg, now), steps, s) && Enabled(s, Cmd(cmd)) && Succeeds(s.core.relay, cmd)
    ensures NeverReboots(cfg, NextCommand(cfg, s, cmd)) <==>
            s.leaseTails == 0 && s.core.relay.reboot.running == 0
  {
    BootIsSafe(cfg, now);
    RunKeeps(cfg, Boot(cfg, now), steps, s);
    CommandReboot(cfg, s, cmd);
    CommandKeeps(cfg, s, cmd);
    var t := NextCommand(cfg, s, cmd);
    if s.leaseTails == 0 && s.core.relay.reboot.running == 0 {
      forall more, u | Run(cfg, t, more, u) && NoLeaseBody(more)
        ensures u.core.relay.reboot.due == None && u.core.relay.reboot.running == 0 && u.mode != Reset(Autonomous)
      {
        StoppedRun(cfg, t, more, u);
      }
    } else if s.core.relay.reboot.running > 0 {
      assert Run(cfg, t, [], t) && NoLeaseBody([]);
    } else {
      LateSubmission(cfg, t);
    }
  }

  /** A lease handler that still has to submit the reboot does so. */
  lemma LateSubmission(cfg: Config, s: Sys)
    requires Enabled(s, Timer(LeaseSubmission(true)))
    ensures !NeverReboots(cfg, s)
  {
    var tail := [Timer(LeaseSubmission(true))];
    var u := Next(cfg, s, tail[0]);
    assert tail[1..] == [];
    assert Run(cfg, u, [], u);
    assert Run(cfg, s, tail, u) && NoLeaseBody(tail);
    LeaseSubmitEffect(cfg, s.core, s.now, true);
  }

  lemma {:induction false} RunThen(cfg: Config, s: Sys, steps: seq<Step>, t: Sys, step: Step)
    requires Run(cfg, s, steps, t) && Enabled(t, step)
    ensures Run(cfg, s, steps + [step], Next(cfg, t, step))
    decreases |steps|
  {
    if steps == [] {
      assert Run(cfg, Next(cfg, s, step), [], Next(cfg, t, step));
      assert ([] + [step])[1..] == [];
    } else {
      RunThen(cfg, Next(cfg, s, steps[0]), steps[1..], t, step);
      assert (steps + [step])[1..] == steps[1..] + [step];
    }
  }

  /** A run goes on with a relay switched on or off. */
  lemma ThenSet(cfg: Config, boot: Sys, steps: seq<Step>, s: Sys, ch: nat, on: bool)
    returns (all: seq<Step>, t: Sys)
    requires Run(cfg, boot, steps, s) && Safe(cfg, s) && s.mode == Running && ch < CHANNELS
    ensures Run(cfg, boot, all, t) && Safe(cfg, t) && t == s.(core := t.core, lastRenew := s.now)
    ensures RenewedHealth(s.core, t.core, s.now)
    ensures t.core.relay.on == if on then s.core.relay.on + {ch} else s.core.relay.on - {ch}
    ensures t.core.relay.pulsing == s.core.relay.pulsing - {ch}
    ensures t.core.relay.pulseWork == CancelPulses(s.core.relay, {ch}).pulseWork
  {
    var cmd := SetStep(ch, on, Written);
    RunThen(cfg, boot, steps, s, Cmd(cmd));
    SetEffect(cfg, s.core, s.now, ch, on, Written);
    CommandKeeps(cfg, s, cmd);
    all, t := steps + [Cmd(cmd)], NextCommand(cfg, s, cmd);
  }

  /** A run goes on with a pulse. */
  lemma ThenPulse(cfg: Config, boot: Sys, steps: seq<Step>, s: Sys, ch: nat, duration: nat)
    returns (all: seq<Step>, t: Sys)
    requires Run(cfg, boot, steps, s) && Safe(cfg, s) && s.mode == Running && ch < CHANNELS
    requires ch !in s.core.relay.pulsing && PULSE_MIN_MS <= duration <= PULSE_MAX_MS
    ensures Run(cfg, boot, all, t) && Safe(cfg, t)
    ensures t == s.(core := t.core, lastRenew := s.now, starts := s.starts[ch := s.now])
    ensures PulseStarted(cfg, s.core, t.core, s.now, ch, duration)
  {
    var cmd := PulseStep(ch, duration, Written, true, Written);
    RunThen(cfg, boot, steps, s, Cmd(cmd));
    PulseEffect(cfg, s.core, s.now, ch, duration, Written, true, Written);
    CommandKeeps(cfg, s, cmd);
    all, t := steps + [Cmd(cmd)], NextCommand(cfg, s, cmd);
  }

  /** A run goes on with a heartbeat. */
  lemma ThenBeat(cfg: Config, boot: Sys, steps: seq<Step>, s: Sys) returns (all: seq<Step>, t: Sys)
    requires Run(cfg, boot, steps, s) && Safe(cfg, s) && s.mode == Running
    ensures Run(cfg, boot, all, t) && Safe(cfg, t) && t == s.(core := t.core, lastRenew := s.now)
    ensures t.core.relay == ScheduleLease(cfg, CancelReboot(s.core.relay), s.now)
  {
    RunThen(cfg, boot, steps, s, Cmd(HeartbeatStep));
    RenewKeeps(cfg, s.core, s.now);
    CommandKeeps(cfg, s, HeartbeatStep);
    all, t := steps + [Cmd(HeartbeatStep)], NextCommand(cfg, s, HeartbeatStep);
  }

  lemma StepThenRun(cfg: Config, s: Sys, step: Step, s1: Sys, more: seq<Step>, t: Sys)
    requires Enabled(s, step) && s1 == Next(cfg, s, step) && Run(cfg, s1, more, t)
    ensures Run(cfg, s, [step] + more, t)
  {
    AfterFirst(step, more);
  }

  const RACE_CONFIG: Config := Config(AlwaysOnOwner(true), 5000, 0, 2000)

  const ALL_WRITTEN: seq<Write> := [Written, Written, Written, Written, Written, Written]

  lemma AllWritten()
    ensures |ALL_WRITTEN| == CHANNELS && Succeeding(ALL_WRITTEN) == CHANNELS
  {
    assert forall i :: 0 <= i < |ALL_WRITTEN| ==> ALL_WRITTEN[i].Written?;
  }

  lemma UpToLeaseFire() returns (steps: seq<Step>, s: Sys)
    ensures Run(RACE_CONFIG, Boot(RACE_CONFIG, 0), steps, s) && WellFormed(s)
    ensures s.mode == Running && s.leaseTails == 0 && s.now == 5000
    ensures s.core.relay.reboot == IDLE && s.core.relay.lease == Work(None, 1) && s.core.relay.armed
  {
    var boot := Boot(RACE_CONFIG, 0);
    var wait, fire := Tick(5000), Timer(LeaseFire);
    assert Run(RACE_CONFIG, boot, [], boot);
    RunThen(RACE_CONFIG, boot, [], boot, wait);
    var s1 := Next(RACE_CONFIG, boot, wait);
    RunThen(RACE_CONFIG, boot, [] + [wait], s1, fire);
    steps := [] + [wait] + [fire];
    s := Next(RACE_CONFIG, s1, fire);
  }

  /** A lease handler between dropping the lock and submitting the reboot, right after the lease expired. */
  lemma UpToLeaseTail() returns (steps: seq<Step>, s: Sys)
    ensures Run(RACE_CONFIG, Boot(RACE_CONFIG, 0), steps, s)
    ensures s.mode == Running && s.leaseTails == 1 && s.now == 5000 && !s.core.relay.reboot.Live()
  {
    AllWritten();
    var s2;
    steps, s2 := UpToLeaseFire();
    BootIsSafe(RACE_CONFIG, 0);
    RunKeeps(RACE_CONFIG, Boot(RACE_CONFIG, 0), steps, s2);
    var body := Timer(LeaseBody(ALL_WRITTEN));
    RunThen(RACE_CONFIG, Boot(RACE_CONFIG, 0), steps, s2, body);
    steps := steps + [body];
    s := Next(RACE_CONFIG, s2, body);
    LeaseExpiredEffect(RACE_CONFIG, s2.core.(relay := s2.core.relay.(lease := s2.core.relay.lease.Finish())),
                       s2.now, ALL_WRITTEN);
  }

  /** The reboot submitted in the millisecond in which a heartbeat renewed the lease. */
  lemma UpToLateSubmission() returns (steps: seq<Step>, t: Sys)
    ensures Run(RACE_CONFIG, Boot(RACE_CONFIG, 0), steps, t) && WellFormed(t)
    ensures t.mode == Running && t.lastRenew == t.now && t.core.relay.armed && Due(t.core.relay.reboot, t.now)
  {
    var s;
    steps, s := UpToLeaseTail();
    var boot := Boot(RACE_CONFIG, 0);
    BootIsSafe(RACE_CONFIG, 0);
    RunKeeps(RACE_CONFIG, boot, steps, s);
    var s1;
    steps, s1 := ThenBeat(RACE_CONFIG, boot, steps, s);
    var tail := Timer(LeaseSubmission(true));
    RunThen(RACE_CONFIG, boot, steps, s1, tail);
    LeaseSubmitEffect(RACE_CONFIG, s1.core, s1.now, true);
    steps := steps + [tail];
    t := Next(RACE_CONFIG, s1, tail);
  }

  /** A run in which the device resets itself in the millisecond in which a heartbeat renewed the lease. */
  lemma RenewedYetReset() returns (steps: seq<Step>, t: Sys)
    ensures Run(RACE_CONFIG, Boot(RACE_CONFIG, 0), steps, t)
    ensures t.mode == Reset(Autonomous) && t.lastRenew == t.now && t.core.relay.armed
  {
    var s2;
    steps, s2 := UpToLateSubmission();
    var fire, body := Timer(RebootFire), Timer(RebootBody(false));
    RunThen(RACE_CONFIG, Boot(RACE_CONFIG, 0), steps, s2, fire);
    var s3 := Next(RACE_CONFIG, s2, fire);
    RunThen(RACE_CONFIG, Boot(RACE_CONFIG, 0), steps + [fire], s3, body);
    steps := steps + [fire] + [body];
    t := Next(RACE_CONFIG, s3, body);
  }
}
