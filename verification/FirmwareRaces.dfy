/**
 * Handlers that were already in flight when a command ran: a lease handler that switches everything off just after a
 * renewal, a pulse handler that ends the pulse started after its own, and a reboot whose warning outlives it. For
 * each the exact condition, and a run in which it happens.
 */
module FirmwareRaces {
  import opened Common
  import opened RelaySpec
  import opened Firmware
  import opened FirmwareOutcomes
  import opened FirmwareSafety
  import opened FirmwareReboot
  import opened FirmwareTheorems
  import H = HealthSpec

  // ----- A lease handler in flight -----

  /** The owner is not shown as timed out. */
  predicate Owned(c: Core) {
    !H.Active(c.log, H.CommOwnerTimeout)
  }

  lemma SetChannelOwned(c: Core, ch: nat, on: bool, w: Write)
    requires Shaped(c.relay) && ch < CHANNELS
    ensures Owned(SetChannel(c, ch, on, w)) <==> Owned(c)
  {
    match w
    case Written =>
    case WriteFailed(level) =>
      Told(c.(relay := c.relay.(pins := c.relay.pins[ch := level])), H.RecordRelayIoError);
  }

  lemma ApplyStateOwned(c: Core, mask: set<nat>, writes: seq<Write>)
    requires Shaped(c.relay) && |writes| == CHANNELS
    ensures Owned(ApplyState(c, mask, writes)) <==> Owned(c)
  {
    Told(c.(relay := c.relay.(pins := DrivenPins(c.relay.pins, mask, writes))), H.RecordRelayIoError);
  }

  lemma RenewOwned(cfg: Config, c: Core, now: nat)
    ensures Owned(Renew(cfg, c, now))
  {
    var canceled := c.(relay := CancelReboot(c.relay));
    Told(canceled, H.SetCommOwnerTimedOut(false));
    Told(Tell(canceled, H.SetCommOwnerTimedOut(false)), H.SetCommRebootPending(false));
  }

  lemma SetOwned(cfg: Config, c: Core, now: nat, ch: nat, on: bool, w: Write)
    requires Shaped(c.relay)
    ensures var (d, ret) := Set(cfg, c, now, ch, on, w);
            (ret == Success ==> Owned(d)) && (Owned(c) ==> Owned(d))
  {
    if ch < CHANNELS {
      var base := c.(relay := CancelPulses(c.relay, {ch}));
      SetChannelOwned(base, ch, on, w);
      RenewOwned(cfg, SetChannel(base, ch, on, w), now);
    }
  }

  lemma SetAllOwned(cfg: Config, c: Core, now: nat, mask: set<nat>, writes: seq<Write>)
    requires Shaped(c.relay) && |writes| == CHANNELS
    ensures var (d, ret) := SetAll(cfg, c, now, mask, writes);
            (ret == Success ==> Owned(d)) && (Owned(c) ==> Owned(d))
  {
    if mask <= ALL {
      var base := c.(relay := CancelPulses(c.relay, ALL));
      ApplyStateOwned(base, mask, writes);
      RenewOwned(cfg, ApplyState(base, mask, writes), now);
    }
  }

  lemma PulseOwned(cfg: Config, c: Core, now: nat, ch: nat, duration: nat, w: Write, scheduled: bool, off: Write)
    requires Shaped(c.relay)
    ensures var (d, ret) := Pulse(cfg, c, now, ch, duration, w, scheduled, off);
            (ret == Success ==> Owned(d)) && (Owned(c) ==> Owned(d))
  {
    if ch < CHANNELS && PULSE_MIN_MS <= duration <= PULSE_MAX_MS && ch !in c.relay.pulsing {
      var written := SetChannel(c, ch, true, w);
      SetChannelOwned(c, ch, true, w);
      if w.Written? && !scheduled {
        var undone := written.(relay := written.relay.(durations := written.relay.durations[ch := 0]));
        SetChannelOwned(undone, ch, false, off);
      } else if w.Written? {
        RenewOwned(cfg, written.(relay := StartPulse(written.relay, ch, duration, now + duration)), now);
      }
    }
  }

  lemma CommandOwned(cfg: Config, s: Sys, cmd: Command)
    requires Enabled(s, Cmd(cmd))
    ensures var t := NextCommand(cfg, s, cmd);
            (Succeeds(s.core.relay, cmd) ==> Owned(t.core)) && (Owned(s.core) ==> Owned(t.core))
  {
    match cmd
    case SetStep(ch, on, w) => SetOwned(cfg, s.core, s.now, ch, on, w);
    case SetAllStep(mask, writes) => SetAllOwned(cfg, s.core, s.now, mask, writes);
    case PulseStep(ch, duration, w, scheduled, off) =>
      PulseOwned(cfg, s.core, s.now, ch, duration, w, scheduled, off);
    case HeartbeatStep => RenewOwned(cfg, s.core, s.now);
  }

  /** No lease handler in flight can do anything, now or later. */
  predicate NoStaleLease(cfg: Config, r: Relay) {
    r.lease.running == 0 || (!cfg.HasTimeout() && !r.armed)
  }

  /** A renewal or a failed command as far as the lease is concerned. */
  predicate LeaseKept(cfg: Config, r: Relay, t: Relay) {
    t.lease.running == r.lease.running && (t.armed ==> r.armed || cfg.HasTimeout())
  }

  lemma SetLease(cfg: Config, c: Core, now: nat, ch: nat, on: bool, w: Write)
    requires Protected(cfg, c)
    ensures var (d, ret) := Set(cfg, c, now, ch, on, w);
            LeaseKept(cfg, c.relay, d.relay) && (ret == Success && !cfg.HasTimeout() ==> !d.relay.armed)
  {
    if ch < CHANNELS {
      SetEffect(cfg, c, now, ch, on, w);
    }
  }

  lemma SetAllLease(cfg: Config, c: Core, now: nat, mask: set<nat>, writes: seq<Write>)
    requires Protected(cfg, c) && |writes| == CHANNELS
    ensures var (d, ret) := SetAll(cfg, c, now, mask, writes);
            LeaseKept(cfg, c.relay, d.relay) && (ret == Success && !cfg.HasTimeout() ==> !d.relay.armed)
  {
    if mask <= ALL {
      SetAllEffect(cfg, c, now, mask, writes);
    }
  }

  lemma CommandLease(cfg: Config, s: Sys, cmd: Command)
    requires Enabled(s, Cmd(cmd)) && Safe(cfg, s)
    ensures var t := NextCommand(cfg, s, cmd);
            && LeaseKept(cfg, s.core.relay, t.core.relay)
            && (Succeeds(s.core.relay, cmd) && !cfg.HasTimeout() ==> !t.core.relay.armed)
  {
    match cmd
    case SetStep(ch, on, w) => SetLease(cfg, s.core, s.now, ch, on, w);
    case SetAllStep(mask, writes) => SetAllLease(cfg, s.core, s.now, mask, writes);
    case PulseStep(ch, duration, w, scheduled, off) =>
      PulseLease(cfg, s.core, s.now, ch, duration, w, scheduled, off);
    case HeartbeatStep => RenewKeeps(cfg, s.core, s.now);
  }

  lemma PulseLease(cfg: Config, c: Core, now: nat, ch: nat, duration: nat, w: Write, scheduled: bool, off: Write)
    requires Protected(cfg, c)
    ensures var (d, ret) := Pulse(cfg, c, now, ch, duration, w, scheduled, off);
            && LeaseKept(cfg, c.relay, d.relay)
            && (ret == Success && !cfg.HasTimeout() ==> !d.relay.armed)
  {
    if ch < CHANNELS && PULSE_MIN_MS <= duration <= PULSE_MAX_MS && ch !in c.relay.pulsing {
      PulseEffect(cfg, c, now, ch, duration, w, scheduled, off);
    }
  }

  lemma PulseExpiredOwned(cfg: Config, c: Core, now: nat, ch: nat, w: Write)
    requires Shaped(c.relay) && PinsMatch(c) && ch < CHANNELS && Owned(c)
    ensures var d := PulseExpired(cfg, c, now, ch, w);
            Owned(d) && LeaseKept(cfg, c.relay, d.relay)
  {
    if ch in c.relay.pulsing {
      PulseExpiredEffect(cfg, c, now, ch, w);
      var ended := c.(relay := c.relay.(pulsing := c.relay.pulsing - {ch}, durations := c.relay.durations[ch := 0]));
      SetChannelOwned(ended, ch, false, w);
    }
  }

  lemma LeaseSubmitOwned(cfg: Config, c: Core, now: nat, scheduled: bool)
    requires Owned(c)
    ensures Owned(LeaseSubmit(cfg, c, now, scheduled))
  {
    Told(c.(relay := c.relay.(rebootScheduled := false, warningScheduled := false,
                              warning := c.relay.warning.Cancel())), H.RecordRebootFailed);
  }

  lemma PulseBodyOwned(cfg: Config, s: Sys, ch: nat, w: Write)
    requires Enabled(s, Timer(PulseBody(ch, w))) && Safe(cfg, s) && Owned(s.core) && NoStaleLease(cfg, s.core.relay)
    ensures var u := NextTimer(cfg, s, PulseBody(ch, w)); Owned(u.core) && NoStaleLease(cfg, u.core.relay)
  {
    var r := s.core.relay;
    var finished := r.(pulseWork := r.pulseWork[ch := r.pulseWork[ch].Finish()]);
    PulseExpiredOwned(cfg, s.core.(relay := finished), s.now, ch, w);
  }

  lemma LeaseTailOwned(cfg: Config, s: Sys, t: Handler)
    requires Enabled(s, Timer(t)) && Owned(s.core) && NoStaleLease(cfg, s.core.relay)
    requires t.LeaseSubmission? || t.LeaseWarning?
    ensures var u := NextTimer(cfg, s, t); Owned(u.core) && NoStaleLease(cfg, u.core.relay)
  {
    match t
    case LeaseSubmission(scheduled) =>
      LeaseSubmitOwned(cfg, s.core, s.now, scheduled);
      LeaseSubmitEffect(cfg, s.core, s.now, scheduled);
    case LeaseWarning(warned) =>
      Told(s.core, H.SetCommRebootPending(true));
      LeaseWarnEffect(cfg, s.core, s.now, warned);
  }

  lemma RebootBodyOwned(cfg: Config, s: Sys, t: Handler)
    requires Enabled(s, Timer(t)) && Owned(s.core) && NoStaleLease(cfg, s.core.relay)
    requires t.WarningBody? || t.RebootBody?
    ensures var u := NextTimer(cfg, s, t); Owned(u.core) && NoStaleLease(cfg, u.core.relay)
  {
    var r := s.core.relay;
    match t
    case WarningBody => WarningOwned(s.core, r.(warning := r.warning.Finish()));
    case RebootBody(_) => Told(s.core.(relay := r.(reboot := r.reboot.Finish())), H.RecordRebootFailed);
  }

  lemma TimerOwned(cfg: Config, s: Sys, t: Handler)
    requires Enabled(s, Timer(t)) && Safe(cfg, s) && Owned(s.core) && NoStaleLease(cfg, s.core.relay) && !t.LeaseFire?
    ensures var u := NextTimer(cfg, s, t); Owned(u.core) && NoStaleLease(cfg, u.core.relay)
  {
    match t
    case PulseBody(ch, w) => PulseBodyOwned(cfg, s, ch, w);
    case LeaseSubmission(_) => LeaseTailOwned(cfg, s, t);
    case LeaseWarning(_) => LeaseTailOwned(cfg, s, t);
    case WarningBody => RebootBodyOwned(cfg, s, t);
    case RebootBody(_) => RebootBodyOwned(cfg, s, t);
    case _ => FireOwned(cfg, s, t);
  }

  /** Timers that expire, and a lease handler that finds the lease disarmed. */
  lemma FireOwned(cfg: Config, s: Sys, t: Handler)
    requires Enabled(s, Timer(t)) && Owned(s.core) && NoStaleLease(cfg, s.core.relay)
    requires t.PulseFire? || t.WarningFire? || t.RebootFire? || t.LeaseBody?
    ensures var u := NextTimer(cfg, s, t); Owned(u.core) && NoStaleLease(cfg, u.core.relay)
  {
  }

  lemma WarningOwned(c: Core, r: Relay)
    requires Owned(c)
    ensures Owned(WarningExpired(c.(relay := r)))
  {
    Told(c.(relay := r.(warningScheduled := false)), H.SetCommRebootPending(true));
  }

  lemma HostOwned(cfg: Config, s: Sys, h: HostAction)
    requires Enabled(s, Host(h)) && Safe(cfg, s) && Owned(s.core)
    ensures var t := NextHost(cfg, s, h); Owned(t.core) && LeaseKept(cfg, s.core.relay, t.core.relay)
  {
    match h
    case HostRequest(_, _) =>
      Told(s.core, H.RecordRebootFailed);
      Told(s.core, H.SetHostRebootPending(true));
    case HostFire(_) =>
    case HostOff(kind, writes) => HostOffOwned(cfg, s, kind, writes);
    case HostReset(_, _) => Told(s.core, H.RecordRebootFailed);
  }

  lemma HostOffOwned(cfg: Config, s: Sys, kind: ResetKind, writes: seq<Write>)
    requires Enabled(s, Host(HostOff(kind, writes))) && Safe(cfg, s) && Owned(s.core)
    ensures var t := NextHost(cfg, s, HostOff(kind, writes));
            Owned(t.core) && LeaseKept(cfg, s.core.relay, t.core.relay)
  {
    OffOwned(cfg, s.core, s.now, writes);
  }

  /** The off-all of a host reset, and the failure that may follow it. */
  lemma OffOwned(cfg: Config, c: Core, now: nat, writes: seq<Write>)
    requires Protected(cfg, c) && |writes| == CHANNELS && Owned(c)
    ensures var d := SetAll(cfg, c, now, {}, writes).0;
            && Owned(d) && Owned(Tell(d, H.RecordRebootFailed))
            && LeaseKept(cfg, c.relay, d.relay)
  {
    SetAllOwned(cfg, c, now, {}, writes);
    SetAllEffect(cfg, c, now, {}, writes);
    Told(SetAll(cfg, c, now, {}, writes).0, H.RecordRebootFailed);
  }

  lemma DogOwned(cfg: Config, s: Sys, d: DogAction)
    requires Enabled(s, Dog(d)) && Safe(cfg, s) && Owned(s.core)
    ensures Owned(NextDog(cfg, s, d).core) && NextDog(cfg, s, d).core.relay == s.core.relay
  {
    Told(s.core, H.RecordWatchdogSupervisorFailed);
    DogTells(cfg, s, d, NextDog(cfg, s, d).core);
  }

  predicate NoLeaseFire(steps: seq<Step>) {
    forall i :: 0 <= i < |steps| ==> steps[i] != Timer(LeaseFire)
  }

  lemma OwnedStep(cfg: Config, s: Sys, step: Step)
    requires Enabled(s, step) && Safe(cfg, s) && Owned(s.core) && NoStaleLease(cfg, s.core.relay)
    requires step != Timer(LeaseFire)
    ensures var t := Next(cfg, s, step); Owned(t.core) && NoStaleLease(cfg, t.core.relay)
  {
    match step
    case Cmd(cmd) =>
      CommandOwned(cfg, s, cmd);
      CommandLease(cfg, s, cmd);
    case Timer(t) => TimerOwned(cfg, s, t);
    case Dog(d) => DogOwned(cfg, s, d);
    case Host(h) => HostOwned(cfg, s, h);
    case Publish(i) => JobEffect(s.core, i, s.now);
    case Note(e) => Told(s.core, e);
    case _ =>
  }

  lemma {:induction false} OwnedRun(cfg: Config, s: Sys, steps: seq<Step>, t: Sys)
    requires Run(cfg, s, steps, t) && Safe(cfg, s) && Owned(s.core) && NoStaleLease(cfg, s.core.relay)
    requires NoLeaseFire(steps)
    ensures Owned(t.core)
    decreases |steps|
  {
    if steps != [] {
      OwnedStep(cfg, s, steps[0]);
      StepKeeps(cfg, s, steps[0]);
      assert NoLeaseFire(steps[1..]);
      OwnedRun(cfg, Next(cfg, s, steps[0]), steps[1..], t);
    }
  }

  /** No run from s without a new expiry of the lease shows the owner as timed out. */
  ghost predicate StaysOwned(cfg: Config, s: Sys) {
    forall steps, t :: Run(cfg, s, steps, t) && NoLeaseFire(steps) ==> Owned(t.core)
  }

  /** A lease handler in flight acts on whatever was switched on after the renewal. */
  lemma StaleLeaseActs(cfg: Config, s: Sys) returns (steps: seq<Step>, t: Sys)
    requires Safe(cfg, s) && s.mode == Running && cfg.HasTimeout() && s.core.relay.lease.running > 0
    ensures Run(cfg, s, steps, t) && NoLeaseFire(steps)
    ensures !Owned(t.core) && t.core.relay.on == {} && t.lastRenew == t.now
  {
    SwitchedOn(cfg, s);
    steps, t := StaleAfter(cfg, s, Cmd(SetStep(0, true, Written)), NextCommand(cfg, s, SetStep(0, true, Written)));
  }

  lemma StaleAfter(cfg: Config, s: Sys, step: Step, s1: Sys) returns (steps: seq<Step>, t: Sys)
    requires Enabled(s, step) && s1 == Next(cfg, s, step) && step != Timer(LeaseFire)
    requires Safe(cfg, s1) && s1.mode == Running && s1.core.relay.armed && s1.core.relay.lease.running > 0
    requires s1.lastRenew == s1.now
    ensures Run(cfg, s, steps, t) && NoLeaseFire(steps)
    ensures !Owned(t.core) && t.core.relay.on == {} && t.lastRenew == t.now
  {
    t := LeaseBodyRun(cfg, s1);
    steps := [step] + [Timer(LeaseBody(ALL_WRITTEN))];
    StepThenRun(cfg, s, step, s1, [Timer(LeaseBody(ALL_WRITTEN))], t);
  }

  lemma SwitchedOn(cfg: Config, s: Sys)
    requires Safe(cfg, s) && s.mode == Running && cfg.HasTimeout() && s.core.relay.lease.running > 0
    ensures var t := NextCommand(cfg, s, SetStep(0, true, Written));
            && Safe(cfg, t) && t.mode == Running && t.core.relay.armed && t.core.relay.lease.running > 0
            && t.lastRenew == t.now
  {
    SetEffect(cfg, s.core, s.now, 0, true, Written);
    CommandKeeps(cfg, s, SetStep(0, true, Written));
  }

  /** What an armed lease handler does when all its writes succeed. */
  lemma LeaseBodyActs(cfg: Config, s: Sys)
    requires Safe(cfg, s) && s.mode == Running && s.core.relay.armed && s.core.relay.lease.running > 0
    ensures Enabled(s, Timer(LeaseBody(ALL_WRITTEN)))
    ensures var t := NextTimer(cfg, s, LeaseBody(ALL_WRITTEN));
            !Owned(t.core) && t.core.relay.on == {} && t.lastRenew == s.lastRenew && t.now == s.now
  {
    AllWritten();
    var c := s.core.(relay := s.core.relay.(lease := s.core.relay.lease.Finish()));
    LeaseExpiredEffect(cfg, c, s.now, ALL_WRITTEN);
    var written := ApplyState(c.(relay := CancelPulses(c.relay, ALL)), {}, ALL_WRITTEN);
    Told(written, H.SetCommOwnerTimedOut(true));
  }

  lemma LeaseBodyRun(cfg: Config, s: Sys) returns (t: Sys)
    requires Safe(cfg, s) && s.mode == Running && s.core.relay.armed && s.core.relay.lease.running > 0
    ensures Run(cfg, s, [Timer(LeaseBody(ALL_WRITTEN))], t)
    ensures !Owned(t.core) && t.core.relay.on == {} && t.lastRenew == s.lastRenew && t.now == s.now
  {
    LeaseBodyActs(cfg, s);
    t := NextTimer(cfg, s, LeaseBody(ALL_WRITTEN));
    OneStep(cfg, s, Timer(LeaseBody(ALL_WRITTEN)));
  }

  /**
   * A heartbeat or a successful command keeps the owner until the lease expires again exactly when no lease handler
   * was in flight, or the policy knows no timeout.
   */
  lemma RenewalHoldsIff(cfg: Config, now: nat, steps: seq<Step>, s: Sys, cmd: Command)
    requires Run(cfg, Boot(cfg, now), steps, s) && Enabled(s, Cmd(cmd)) && Succeeds(s.core.relay, cmd)
    ensures StaysOwned(cfg, NextCommand(cfg, s, cmd)) <==> s.core.relay.lease.running == 0 || cfg.policy.NoTimeout?
  {
    BootIsSafe(cfg, now);
    RunKeeps(cfg, Boot(cfg, now), steps, s);
    CommandKeeps(cfg, s, cmd);
    CommandOwned(cfg, s, cmd);
    CommandLease(cfg, s, cmd);
    CommandReboot(cfg, s, cmd);
    var t := NextCommand(cfg, s, cmd);
    if s.core.relay.lease.running == 0 || !cfg.HasTimeout() {
      forall more, u | Run(cfg, t, more, u) && NoLeaseFire(more)
        ensures Owned(u.core)
      {
        OwnedRun(cfg, t, more, u);
      }
    } else {
      var more, u := StaleLeaseActs(cfg, t);
    }
  }

  // ----- A pulse handler in flight -----

  /** Nothing in the run is meant to end a pulse of the channel before its own timer does. */
  predicate Undisturbed(steps: seq<Step>, ch: nat) {
    forall i :: 0 <= i < |steps| ==> Leaves(steps[i], ch)
  }

  /** Only a set of the channel, a set-all, the expiry of its timer, the lease and a host reset may end its pulse. */
  predicate Leaves(step: Step, ch: nat) {
    match step
    case Cmd(cmd) => !cmd.SetAllStep? && (cmd.SetStep? ==> cmd.ch != ch)
    case Timer(t) => t != PulseFire(ch) && !t.LeaseBody?
    case Host(h) => !h.HostOff?
    case _ => true
  }

  /** The channel pulses, and no handler of it is in flight. */
  predicate Pulsing(r: Relay, ch: nat) {
    ch in r.pulsing && ch < |r.pulseWork| && r.pulseWork[ch].running == 0
  }

  lemma LeavesSet(cfg: Config, c: Core, now: nat, n: nat, on: bool, w: Write, ch: nat)
    requires Protected(cfg, c) && ch < CHANNELS && n != ch && Pulsing(c.relay, ch)
    ensures Pulsing(Set(cfg, c, now, n, on, w).0.relay, ch)
  {
    if n < CHANNELS {
      SetEffect(cfg, c, now, n, on, w);
    }
  }

  lemma LeavesPulse(cfg: Config, c: Core, now: nat, n: nat, duration: nat, w: Write, scheduled: bool, off: Write,
                    ch: nat)
    requires Protected(cfg, c) && ch < CHANNELS && Pulsing(c.relay, ch)
    ensures Pulsing(Pulse(cfg, c, now, n, duration, w, scheduled, off).0.relay, ch)
  {
    if n < CHANNELS && PULSE_MIN_MS <= duration <= PULSE_MAX_MS && n !in c.relay.pulsing {
      PulseEffect(cfg, c, now, n, duration, w, scheduled, off);
    }
  }

  lemma LeavesCommand(cfg: Config, s: Sys, cmd: Command, ch: nat)
    requires Enabled(s, Cmd(cmd)) && Safe(cfg, s) && ch < CHANNELS && Leaves(Cmd(cmd), ch)
    requires Pulsing(s.core.relay, ch)
    ensures Pulsing(NextCommand(cfg, s, cmd).core.relay, ch)
  {
    match cmd
    case SetStep(n, on, w) => LeavesSet(cfg, s.core, s.now, n, on, w, ch);
    case PulseStep(n, duration, w, scheduled, off) =>
      LeavesPulse(cfg, s.core, s.now, n, duration, w, scheduled, off, ch);
    case HeartbeatStep => RenewKeeps(cfg, s.core, s.now);
  }

  lemma LeavesStep(cfg: Config, s: Sys, step: Step, ch: nat)
    requires Enabled(s, step) && Safe(cfg, s) && ch < CHANNELS && Leaves(step, ch) && Pulsing(s.core.relay, ch)
    ensures var t := Next(cfg, s, step); Safe(cfg, t) && Pulsing(t.core.relay, ch)
  {
    StepKeeps(cfg, s, step);
    match step
    case Cmd(cmd) => LeavesCommand(cfg, s, cmd, ch);
    case Timer(t) => LeavesTimer(cfg, s, t, ch);
    case Dog(d) => DogKeeps(cfg, s, d);
    case Publish(i) => JobEffect(s.core, i, s.now);
    case _ =>
  }

  lemma LeavesTimer(cfg: Config, s: Sys, t: Handler, ch: nat)
    requires Enabled(s, Timer(t)) && Safe(cfg, s) && ch < CHANNELS && Leaves(Timer(t), ch)
    requires Pulsing(s.core.relay, ch)
    ensures Pulsing(NextTimer(cfg, s, t).core.relay, ch)
  {
    match t
    case PulseBody(other, w) => OtherPulseEnds(cfg, s, other, w, ch);
    case LeaseSubmission(scheduled) => LeaseSubmitEffect(cfg, s.core, s.now, scheduled);
    case LeaseWarning(warned) => LeaseWarnEffect(cfg, s.core, s.now, warned);
    case _ =>
  }

  lemma OtherPulseEnds(cfg: Config, s: Sys, other: nat, w: Write, ch: nat)
    requires Enabled(s, Timer(PulseBody(other, w))) && Safe(cfg, s) && ch < CHANNELS && other != ch
    requires Pulsing(s.core.relay, ch)
    ensures Pulsing(NextTimer(cfg, s, PulseBody(other, w)).core.relay, ch)
  {
    var r := s.core.relay;
    if other in r.pulsing {
      PulseExpiredEffect(cfg, s.core.(relay := r.(pulseWork := r.pulseWork[other := r.pulseWork[other].Finish()])),
                         s.now, other, w);
    }
  }

  lemma {:induction false} LeavesRun(cfg: Config, s: Sys, steps: seq<Step>, t: Sys, ch: nat)
    requires Run(cfg, s, steps, t) && Safe(cfg, s) && ch < CHANNELS && Undisturbed(steps, ch)
    requires Pulsing(s.core.relay, ch)
    ensures ch in t.core.relay.pulsing
    decreases |steps|
  {
    if steps != [] {
      LeavesStep(cfg, s, steps[0], ch);
      assert Undisturbed(steps[1..], ch);
      LeavesRun(cfg, Next(cfg, s, steps[0]), steps[1..], t, ch);
    }
  }

  /** The channel keeps pulsing until its timer expires, unless one of those commands, the lease or a reset ends it. */
  ghost predicate PulseLasts(cfg: Config, s: Sys, ch: nat) {
    forall steps, t :: Run(cfg, s, steps, t) && Undisturbed(steps, ch) ==> ch in t.core.relay.pulsing
  }

  /** The handler of an earlier pulse of the channel ends a later one at once. */
  lemma StaleHandlerEnds(cfg: Config, s: Sys, ch: nat)
    requires Safe(cfg, s) && s.mode == Running && ch < CHANNELS && s.core.relay.pulseWork[ch].running > 0
    ensures Enabled(s, Timer(PulseBody(ch, Written)))
    ensures var t := NextTimer(cfg, s, PulseBody(ch, Written));
            ch !in t.core.relay.pulsing && (ch in s.core.relay.pulsing ==> ch !in t.core.relay.on) && t.now == s.now
  {
    var r := s.core.relay;
    if ch in r.pulsing {
      PulseExpiredEffect(cfg, s.core.(relay := r.(pulseWork := r.pulseWork[ch := r.pulseWork[ch].Finish()])), s.now,
                         ch, Written);
    }
  }

  lemma StartedPulse(cfg: Config, s: Sys, ch: nat, duration: nat)
    requires Enabled(s, Cmd(PulseStep(ch, duration, Written, true, Written))) && Safe(cfg, s)
    requires ch < CHANNELS && PULSE_MIN_MS <= duration <= PULSE_MAX_MS && ch !in s.core.relay.pulsing
    ensures var t := NextCommand(cfg, s, PulseStep(ch, duration, Written, true, Written));
            && Safe(cfg, t) && t.mode == Running && ch in t.core.relay.pulsing
            && t.core.relay.pulseWork[ch].running == s.core.relay.pulseWork[ch].running
  {
    CommandKeeps(cfg, s, PulseStep(ch, duration, Written, true, Written));
    PulseEffect(cfg, s.core, s.now, ch, duration, Written, true, Written);
  }

  /** A pulse just started lasts exactly when no handler of an earlier pulse of its channel was in flight. */
  lemma PulseLastsIff(cfg: Config, now: nat, steps: seq<Step>, s: Sys, ch: nat, duration: nat)
    requires Run(cfg, Boot(cfg, now), steps, s) && s.mode == Running && WellFormed(s)
    requires ch < CHANNELS && PULSE_MIN_MS <= duration <= PULSE_MAX_MS && ch !in s.core.relay.pulsing
    ensures PulseLasts(cfg, NextCommand(cfg, s, PulseStep(ch, duration, Written, true, Written)), ch) <==>
            s.core.relay.pulseWork[ch].running == 0
  {
    BootIsSafe(cfg, now);
    RunKeeps(cfg, Boot(cfg, now), steps, s);
    StartedPulse(cfg, s, ch, duration);
    LastsFromStart(cfg, NextCommand(cfg, s, PulseStep(ch, duration, Written, true, Written)), ch);
  }

  lemma LastsFromStart(cfg: Config, s: Sys, ch: nat)
    requires Safe(cfg, s) && s.mode == Running && ch < CHANNELS && ch in s.core.relay.pulsing
    ensures PulseLasts(cfg, s, ch) <==> s.core.relay.pulseWork[ch].running == 0
  {
    if s.core.relay.pulseWork[ch].running == 0 {
      forall more, u | Run(cfg, s, more, u) && Undisturbed(more, ch)
        ensures ch in u.core.relay.pulsing
      {
        LeavesRun(cfg, s, more, u, ch);
      }
    } else {
      StaleHandlerEnds(cfg, s, ch);
      var body := Timer(PulseBody(ch, Written));
      var u := NextTimer(cfg, s, PulseBody(ch, Written));
      OneStep(cfg, s, body);
      assert Run(cfg, s, [body], u) && Undisturbed([body], ch);
    }
  }

  // ----- A warning that outlives its reboot -----

  lemma RenewalPending(cfg: Config, s: Sys, cmd: Command)
    requires Enabled(s, Cmd(cmd)) && Safe(cfg, s) && Succeeds(s.core.relay, cmd)
    ensures var t := NextCommand(cfg, s, cmd);
            && (RebootPending(t.core) <==> RebootPending(s.core) && !s.core.relay.rebootScheduled)
            && !t.core.relay.rebootScheduled
  {
    match cmd
    case SetStep(ch, on, w) => SetEffect(cfg, s.core, s.now, ch, on, w);
    case SetAllStep(mask, writes) => SetAllEffect(cfg, s.core, s.now, mask, writes);
    case PulseStep(ch, duration, w, scheduled, off) => PulseEffect(cfg, s.core, s.now, ch, duration, w, scheduled, off);
    case HeartbeatStep => RenewKeeps(cfg, s.core, s.now);
  }

  /** The warning is shown for a reboot that is not scheduled any more. */
  predicate StaleWarning(c: Core) {
    RebootPending(c) && !c.relay.rebootScheduled
  }

  lemma PulsePending(cfg: Config, c: Core, now: nat, ch: nat, duration: nat, w: Write, scheduled: bool, off: Write)
    requires Protected(cfg, c) && StaleWarning(c)
    ensures StaleWarning(Pulse(cfg, c, now, ch, duration, w, scheduled, off).0)
  {
    if ch < CHANNELS && PULSE_MIN_MS <= duration <= PULSE_MAX_MS && ch !in c.relay.pulsing {
      PulseEffect(cfg, c, now, ch, duration, w, scheduled, off);
    }
  }

  lemma CommandPending(cfg: Config, s: Sys, cmd: Command)
    requires Enabled(s, Cmd(cmd)) && Safe(cfg, s) && StaleWarning(s.core)
    ensures StaleWarning(NextCommand(cfg, s, cmd).core)
  {
    match cmd
    case SetStep(ch, on, w) =>
      if ch < CHANNELS {
        SetEffect(cfg, s.core, s.now, ch, on, w);
      }
    case SetAllStep(mask, writes) =>
      if mask <= ALL {
        SetAllEffect(cfg, s.core, s.now, mask, writes);
      }
    case PulseStep(ch, duration, w, scheduled, off) =>
      PulsePending(cfg, s.core, s.now, ch, duration, w, scheduled, off);
    case HeartbeatStep => RenewKeeps(cfg, s.core, s.now);
  }

  /** The step neither expires the lease nor records a failed reboot. */
  predicate Uneventful(step: Step) {
    match step
    case Timer(t) => !t.LeaseBody? && t != LeaseSubmission(false) && t != RebootBody(true)
    case Host(h) =>
      (match h
       case HostRequest(_, scheduled) => scheduled
       case HostFire(_) => true
       case HostOff(_, writes) => Succeeding(writes) == |writes|
       case HostReset(_, back) => !back)
    case _ => true
  }

  lemma PendingTimer(cfg: Config, s: Sys, t: Handler)
    requires Enabled(s, Timer(t)) && Safe(cfg, s) && StaleWarning(s.core) && Uneventful(Timer(t))
    ensures StaleWarning(NextTimer(cfg, s, t).core)
  {
    var r := s.core.relay;
    match t
    case PulseBody(ch, w) =>
      if ch in r.pulsing {
        PulseExpiredEffect(cfg, s.core.(relay := r.(pulseWork := r.pulseWork[ch := r.pulseWork[ch].Finish()])), s.now,
                           ch, w);
      }
    case LeaseSubmission(scheduled) => LeaseSubmitEffect(cfg, s.core, s.now, scheduled);
    case LeaseWarning(warned) => LeaseWarnEffect(cfg, s.core, s.now, warned);
    case _ =>
  }

  lemma PendingHost(cfg: Config, s: Sys, h: HostAction)
    requires Enabled(s, Host(h)) && Safe(cfg, s) && StaleWarning(s.core) && Uneventful(Host(h))
    ensures StaleWarning(NextHost(cfg, s, h).core)
  {
    match h
    case HostRequest(_, _) => Told(s.core, H.SetHostRebootPending(true));
    case HostOff(_, writes) => SetAllEffect(cfg, s.core, s.now, {}, writes);
    case _ =>
  }

  lemma PendingStep(cfg: Config, s: Sys, step: Step)
    requires Enabled(s, step) && Safe(cfg, s) && StaleWarning(s.core) && Uneventful(step)
    ensures StaleWarning(Next(cfg, s, step).core)
  {
    match step
    case Cmd(cmd) => CommandPending(cfg, s, cmd);
    case Timer(t) => PendingTimer(cfg, s, t);
    case Dog(d) => DogKeeps(cfg, s, d);
    case Host(h) => PendingHost(cfg, s, h);
    case Publish(i) => JobEffect(s.core, i, s.now);
    case Note(e) => Told(s.core, e);
    case _ =>
  }

  predicate AllUneventful(steps: seq<Step>) {
    forall i :: 0 <= i < |steps| ==> Uneventful(steps[i])
  }

  lemma {:induction false} PendingRun(cfg: Config, s: Sys, steps: seq<Step>, t: Sys)
    requires Run(cfg, s, steps, t) && Safe(cfg, s) && StaleWarning(s.core) && AllUneventful(steps)
    ensures RebootPending(t.core)
    decreases |steps|
  {
    if steps != [] {
      PendingStep(cfg, s, steps[0]);
      StepKeeps(cfg, s, steps[0]);
      assert AllUneventful(steps[1..]);
      PendingRun(cfg, Next(cfg, s, steps[0]), steps[1..], t);
    }
  }

  /** The warning stays, whatever renewals follow, until the lease expires again or a reboot fails. */
  ghost predicate WarningStays(cfg: Config, s: Sys) {
    forall steps, t :: Run(cfg, s, steps, t) && AllUneventful(steps) ==> RebootPending(t.core)
  }

  /** A renewal leaves the warning shown for good exactly when it finds it shown with no reboot scheduled. */
  lemma WarningStaysIff(cfg: Config, now: nat, steps: seq<Step>, s: Sys, cmd: Command)
    requires Run(cfg, Boot(cfg, now), steps, s) && Enabled(s, Cmd(cmd)) && Succeeds(s.core.relay, cmd)
    ensures WarningStays(cfg, NextCommand(cfg, s, cmd)) <==>
            RebootPending(s.core) && !s.core.relay.rebootScheduled
  {
    BootIsSafe(cfg, now);
    RunKeeps(cfg, Boot(cfg, now), steps, s);
    CommandKeeps(cfg, s, cmd);
    RenewalPending(cfg, s, cmd);
    var t := NextCommand(cfg, s, cmd);
    if StaleWarning(s.core) {
      forall more, u | Run(cfg, t, more, u) && AllUneventful(more)
        ensures RebootPending(u.core)
      {
        PendingRun(cfg, t, more, u);
      }
    } else {
      assert Run(cfg, t, [], t) && AllUneventful([]);
    }
  }

  // ----- Each of the three happens -----

  /** A relay switched on in the millisecond after the lease expired is switched off in the same one. */
  lemma SwitchedOffAfterRenewal() returns (steps: seq<Step>, t: Sys)
    ensures Run(RACE_CONFIG, Boot(RACE_CONFIG, 0), steps, t)
    ensures t.lastRenew == t.now && !Owned(t.core) && t.core.relay.on == {}
  {
    var s;
    steps, s := UpToLeaseFire();
    BootIsSafe(RACE_CONFIG, 0);
    RunKeeps(RACE_CONFIG, Boot(RACE_CONFIG, 0), steps, s);
    var more;
    more, t := StaleLeaseActs(RACE_CONFIG, s);
    RunAppend(RACE_CONFIG, Boot(RACE_CONFIG, 0), steps, s, more, t);
    steps := steps + more;
  }

  /** The reboot race up to the heartbeat and the late submission. */
  lemma UpToSubmission() returns (steps: seq<Step>, t: Sys)
    ensures Run(RACE_CONFIG, Boot(RACE_CONFIG, 0), steps, t) && Safe(RACE_CONFIG, t)
    ensures t.mode == Running && !t.core.relay.rebootScheduled && t.leaseTails == 0 && t.leaseWarns > 0
    ensures t.core.relay.reboot.running == 0
  {
    var s;
    steps, s := UpToLeaseTail();
    var boot := Boot(RACE_CONFIG, 0);
    BootIsSafe(RACE_CONFIG, 0);
    RunKeeps(RACE_CONFIG, boot, steps, s);
    var s1;
    steps, s1 := ThenBeat(RACE_CONFIG, boot, steps, s);
    var tail := Timer(LeaseSubmission(true));
    RunThen(RACE_CONFIG, boot, steps, s1, tail);
    LeaseSubmitEffect(RACE_CONFIG, s1.core, s1.now, true);
    TimerKeeps(RACE_CONFIG, s1, LeaseSubmission(true));
    steps := steps + [tail];
    t := NextTimer(RACE_CONFIG, s1, LeaseSubmission(true));
  }

  /** And the warning, shown at once because there is no delay, scheduled or not. */
  lemma UpToLateWarning() returns (steps: seq<Step>, t: Sys)
    ensures Run(RACE_CONFIG, Boot(RACE_CONFIG, 0), steps, t) && Safe(RACE_CONFIG, t)
    ensures t.mode == Running && StaleWarning(t.core) && t.leaseTails == 0 && t.core.relay.reboot.running == 0
  {
    var s;
    steps, s := UpToSubmission();
    RunThen(RACE_CONFIG, Boot(RACE_CONFIG, 0), steps, s, Timer(LeaseWarning(true)));
    LeaseWarnEffect(RACE_CONFIG, s.core, s.now, true);
    TimerKeeps(RACE_CONFIG, s, LeaseWarning(true));
    steps := steps + [Timer(LeaseWarning(true))];
    t := NextTimer(RACE_CONFIG, s, LeaseWarning(true));
  }

  /** After the reboot race, one more heartbeat leaves the warning shown and no reboot pending. */
  lemma WarningOutlivesReboot() returns (steps: seq<Step>, t: Sys)
    ensures Run(RACE_CONFIG, Boot(RACE_CONFIG, 0), steps, t)
    ensures t.mode == Running && WarningStays(RACE_CONFIG, t) && !t.core.relay.reboot.Live() && t.leaseTails == 0
  {
    var s;
    steps, s := UpToLateWarning();
    WarningStaysIff(RACE_CONFIG, 0, steps, s, HeartbeatStep);
    CommandReboot(RACE_CONFIG, s, HeartbeatStep);
    RunThen(RACE_CONFIG, Boot(RACE_CONFIG, 0), steps, s, Cmd(HeartbeatStep));
    steps := steps + [Cmd(HeartbeatStep)];
    t := NextCommand(RACE_CONFIG, s, HeartbeatStep);
  }

  const LONG_MS: nat := 1000

  lemma UpToFirstPulse() returns (steps: seq<Step>, s: Sys)
    ensures Run(RACE_CONFIG, Boot(RACE_CONFIG, 0), steps, s) && WellFormed(s) && s.mode == Running && s.now == 0
    ensures var r := s.core.relay;
            && r.pulseWork == [Work(Some(10), 0), IDLE, IDLE, IDLE, IDLE, IDLE]
            && r.lease.due == Some(5000) && r.warning == IDLE && r.reboot == IDLE
            && s.dog.due == None && s.host == IDLE && s.bootsel == IDLE
  {
    var boot := Boot(RACE_CONFIG, 0);
    BootIsSafe(RACE_CONFIG, 0);
    assert Run(RACE_CONFIG, boot, [], boot);
    steps, s := ThenPulse(RACE_CONFIG, boot, [], boot, 0, 10);
  }

  /** A first pulse, with its handler in flight. */
  lemma UpToPulseFire() returns (steps: seq<Step>, s: Sys)
    ensures Run(RACE_CONFIG, Boot(RACE_CONFIG, 0), steps, s) && WellFormed(s)
    ensures s.mode == Running && s.now == 10 && s.core.relay.pulseWork[0] == Work(None, 1)
  {
    var s1;
    steps, s1 := UpToFirstPulse();
    var wait, fire := Tick(10), Timer(PulseFire(0));
    assert MayAdvance(s1, 10);
    RunThen(RACE_CONFIG, Boot(RACE_CONFIG, 0), steps, s1, wait);
    var s2 := Next(RACE_CONFIG, s1, wait);
    RunThen(RACE_CONFIG, Boot(RACE_CONFIG, 0), steps + [wait], s2, fire);
    steps := steps + [wait] + [fire];
    s := Next(RACE_CONFIG, s2, fire);
  }

  /** The same, and the pulse ended by hand. */
  lemma UpToStaleHandler() returns (steps: seq<Step>, s: Sys)
    ensures Run(RACE_CONFIG, Boot(RACE_CONFIG, 0), steps, s) && Safe(RACE_CONFIG, s)
    ensures s.mode == Running && s.now == 10 && 0 !in s.core.relay.pulsing && s.core.relay.pulseWork[0] == Work(None, 1)
  {
    BootIsSafe(RACE_CONFIG, 0);
    var s1;
    steps, s1 := UpToPulseFire();
    RunKeeps(RACE_CONFIG, Boot(RACE_CONFIG, 0), steps, s1);
    steps, s := ThenSet(RACE_CONFIG, Boot(RACE_CONFIG, 0), steps, s1, 0, false);
  }

  /** A second pulse, of a second, with the handler of the first still in flight. */
  lemma UpToSecondPulse() returns (steps: seq<Step>, s: Sys)
    ensures Run(RACE_CONFIG, Boot(RACE_CONFIG, 0), steps, s) && Safe(RACE_CONFIG, s) && s.mode == Running
    ensures s.starts[0] == s.now && 0 in s.core.relay.pulsing
    ensures s.core.relay.pulseWork[0] == Work(Some(s.now + LONG_MS), 1)
  {
    var s1;
    steps, s1 := UpToStaleHandler();
    steps, s := ThenPulse(RACE_CONFIG, Boot(RACE_CONFIG, 0), steps, s1, 0, LONG_MS);
  }

  /** A pulse of a second that is over in the millisecond in which it started. */
  lemma PulseCutShort() returns (steps: seq<Step>, t: Sys)
    ensures Run(RACE_CONFIG, Boot(RACE_CONFIG, 0), steps, t) && WellFormed(t)
    ensures t.starts[0] == t.now && 0 !in t.core.relay.pulsing && 0 !in t.core.relay.on
    ensures t.core.relay.pulseWork[0].due == Some(t.now + LONG_MS)
  {
    var s;
    steps, s := UpToSecondPulse();
    var body := PulseBody(0, Written);
    RunThen(RACE_CONFIG, Boot(RACE_CONFIG, 0), steps, s, Timer(body));
    steps := steps + [Timer(body)];
    t := NextTimer(RACE_CONFIG, s, body);
    TimerKeeps(RACE_CONFIG, s, body);
    var r := s.core.relay;
    PulseExpiredEffect(RACE_CONFIG, s.core.(relay := r.(pulseWork := r.pulseWork[0 := r.pulseWork[0].Finish()])), s.now,
                       0, Written);
  }
}
